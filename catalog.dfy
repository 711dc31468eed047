/**
 * The fixed product table and the two lookups over it, `get_product_info`
 * and `check_stock`: a case-insensitive substring search that returns the
 * first product, in table order, whose name contains the query.
 */
module Catalog {
  import opened Wrappers
  import opened Strings

  /** One catalog entry; the price is kept in integer cents. The id is the entry's key, not a field. */
  datatype Product = Product(name: string, desc: string, priceCents: nat, stock: nat)

  /** What `check_stock` reports: the product's own name and its stock, nothing else. */
  datatype StockInfo = StockInfo(name: string, stock: nat)

  /** The table in the dictionary's iteration order: entry `k` is the product keyed `k + 1`. */
  const Products: seq<Product> := [
    Product("EcoFriendly Water Bottle", "Reusable bottle.", 1599, 10),
    Product("Wireless Earbuds", "Noise-canceling earbuds.", 5999, 5),
    Product("Smartwatch", "Fitness tracking smartwatch.", 19999, 2),
    Product("Laptop Stand", "Ergonomic adjustable stand.", 2999, 8),
    Product("Gaming Mouse", "Customizable gaming mouse.", 4999, 12)
  ]

  /** The lower-cased query is a substring of the lower-cased product name. */
  predicate Matches(p: Product, query: string)
    ensures Matches(p, query) ==> |query| <= |p.name|
    ensures query == [] ==> Matches(p, query)
  {
    Contains(Lower(p.name), Lower(query))
  }

  /** Entry `k` matches and no earlier entry does. */
  predicate IsFirstMatch(table: seq<Product>, query: string, k: int)
  {
    0 <= k < |table| && Matches(table[k], query) &&
    forall j :: 0 <= j < k ==> !Matches(table[j], query)
  }

  /** No entry of the table matches. */
  predicate NoMatch(table: seq<Product>, query: string)
  {
    forall j :: 0 <= j < |table| ==> !Matches(table[j], query)
  }

  /** The search continued from `start`, all earlier entries having failed. */
  function FirstMatchFrom(table: seq<Product>, query: string, start: nat): (r: Option<nat>)
    requires start <= |table|
    requires forall j :: 0 <= j < start ==> !Matches(table[j], query)
    ensures r.Some? ==> IsFirstMatch(table, query, r.value)
    ensures r.None? ==> NoMatch(table, query)
    decreases |table| - start
  {
    if start == |table| then None
    else if Matches(table[start], query) then Some(start)
    else FirstMatchFrom(table, query, start + 1)
  }

  /** The position of the first matching entry, if any. */
  function FirstMatch(table: seq<Product>, query: string): (r: Option<nat>)
    ensures r.Some? ==> IsFirstMatch(table, query, r.value)
    ensures r.None? ==> NoMatch(table, query)
  {
    FirstMatchFrom(table, query, 0)
  }

  /** There is only one first match. */
  lemma FirstMatchUnique(table: seq<Product>, query: string, k1: int, k2: int)
    requires IsFirstMatch(table, query, k1) && IsFirstMatch(table, query, k2)
    ensures k1 == k2
  {
  }

  /** The value of `get_product_info(query)`. */
  function ProductInfo(query: string): (r: Option<Product>)
    ensures r.None? <==> NoMatch(Products, query)
    ensures r.Some? ==> exists k :: IsFirstMatch(Products, query, k) && r.value == Products[k]
  {
    match FirstMatch(Products, query)
    case None => None
    case Some(k) => Some(Products[k])
  }

  /** The value of `check_stock(query)`. */
  function StockOf(query: string): (r: Option<StockInfo>)
    ensures r.None? <==> NoMatch(Products, query)
    ensures r.Some? ==> exists k :: IsFirstMatch(Products, query, k) &&
                                   r.value == StockInfo(Products[k].name, Products[k].stock)
  {
    match FirstMatch(Products, query)
    case None => None
    case Some(k) => Some(StockInfo(Products[k].name, Products[k].stock))
  }

  /** `check_stock` fails exactly when `get_product_info` does, and otherwise projects the same product. */
  lemma StockOfAgreesWithProductInfo(query: string)
    ensures StockOf(query).None? <==> ProductInfo(query).None?
    ensures StockOf(query).Some? ==>
              StockOf(query).value == StockInfo(ProductInfo(query).value.name, ProductInfo(query).value.stock)
  {
    if StockOf(query).Some? {
      var k1 :| IsFirstMatch(Products, query, k1) && StockOf(query).value == StockInfo(Products[k1].name, Products[k1].stock);
      var k2 :| IsFirstMatch(Products, query, k2) && ProductInfo(query).value == Products[k2];
      FirstMatchUnique(Products, query, k1, k2);
    }
  }

  /** A query contained in exactly one product name finds that product. */
  lemma UniqueMatchIsFound(query: string, k: int)
    requires 0 <= k < |Products| && Matches(Products[k], query)
    requires forall j :: 0 <= j < |Products| && j != k ==> !Matches(Products[j], query)
    ensures ProductInfo(query) == Some(Products[k])
  {
    assert IsFirstMatch(Products, query, k);
    var k2 :| IsFirstMatch(Products, query, k2) && ProductInfo(query).value == Products[k2];
    FirstMatchUnique(Products, query, k, k2);
  }

  /** `get_product_info`: the scan of the table in order, returning at the first match. */
  method GetProductInfo(query: string) returns (r: Option<Product>)
    ensures r.None? <==> NoMatch(Products, query)
    ensures r.Some? ==> exists k :: IsFirstMatch(Products, query, k) && r.value == Products[k]
    ensures r == ProductInfo(query)
  {
    var i := 0;
    while i < |Products|
      invariant 0 <= i <= |Products|
      invariant forall j :: 0 <= j < i ==> !Matches(Products[j], query)
    {
      if Matches(Products[i], query) {
        r := Some(Products[i]);
        assert IsFirstMatch(Products, query, i);
        var k :| IsFirstMatch(Products, query, k) && ProductInfo(query).value == Products[k];
        FirstMatchUnique(Products, query, i, k);
        return;
      }
      i := i + 1;
    }
    r := None;
  }

  /** `check_stock`: the same loop, returning only the name and the stock. */
  method CheckStock(query: string) returns (r: Option<StockInfo>)
    ensures r.None? <==> NoMatch(Products, query)
    ensures r.Some? ==> exists k :: IsFirstMatch(Products, query, k) &&
                                   r.value == StockInfo(Products[k].name, Products[k].stock)
    ensures r == StockOf(query)
  {
    var i := 0;
    while i < |Products|
      invariant 0 <= i <= |Products|
      invariant forall j :: 0 <= j < i ==> !Matches(Products[j], query)
    {
      var p := Products[i];
      if Matches(p, query) {
        r := Some(StockInfo(p.name, p.stock));
        assert IsFirstMatch(Products, query, i);
        var k :| IsFirstMatch(Products, query, k) &&
                 StockOf(query).value == StockInfo(Products[k].name, Products[k].stock);
        FirstMatchUnique(Products, query, i, k);
        return;
      }
      i := i + 1;
    }
    r := None;
  }

  /** The empty query is contained in every name, so it finds the first product. */
  lemma EmptyQueryFindsFirstProduct()
    ensures ProductInfo("") == Some(Products[0])
  {
    ContainsEmpty(Lower(Products[0].name));
    assert Lower("") == "";
    assert IsFirstMatch(Products, "", 0);
    var k :| IsFirstMatch(Products, "", k) && ProductInfo("").value == Products[k];
    FirstMatchUnique(Products, "", 0, k);
  }

  /** The names lower-cased, in table order; used to reason about concrete queries. */
  const LoweredNames: seq<string> :=
    ["ecofriendly water bottle", "wireless earbuds", "smartwatch", "laptop stand", "gaming mouse"]

  lemma LowerName(k: int)
    requires 0 <= k < |Products|
    ensures Lower(Products[k].name) == LoweredNames[k]
  {
    if k == 0 {
      LowerBottle();
    } else if k == 1 {
      LowerEarbuds();
    } else if k == 2 {
      LowerSmartwatch();
    } else if k == 3 {
      LowerStand();
    } else {
      LowerMouse();
    }
  }

  // One literal per lemma keeps each lowering in a proof obligation of its own.
  lemma LowerBottle() ensures Lower("EcoFriendly Water Bottle") == "ecofriendly water bottle" {}
  lemma LowerEarbuds() ensures Lower("Wireless Earbuds") == "wireless earbuds" {}
  lemma LowerSmartwatch() ensures Lower("Smartwatch") == "smartwatch" {}
  lemma LowerStand() ensures Lower("Laptop Stand") == "laptop stand" {}
  lemma LowerMouse() ensures Lower("Gaming Mouse") == "gaming mouse" {}

  /** First match, not best match: "a" is in the first and the last name, and the first entry wins. */
  lemma FirstNotBestMatch(query: string)
    requires Lower(query) == "a"
    ensures Matches(Products[4], query)
    ensures ProductInfo(query) == Some(Products[0])
  {
    NameHasQueryAt(0, query, 13);
    NameHasQueryAt(4, query, 1);
    FirstMatchIsFound(query, 0);
  }

  /** A query with a letter that a name lacks does not match that name. */
  lemma NameLacksLetter(k: int, query: string, c: char)
    requires 0 <= k < |Products|
    requires c in Lower(query) && c !in LoweredNames[k]
    ensures !Matches(Products[k], query)
  {
    LowerName(k);
    NotContainsByChar(LoweredNames[k], Lower(query), c);
  }

  /** A query that occurs in a lower-cased name matches that name. */
  lemma NameHasQueryAt(k: int, query: string, i: int)
    requires 0 <= k < |Products|
    requires OccursAt(LoweredNames[k], Lower(query), i)
    ensures Matches(Products[k], query)
  {
    LowerName(k);
    ContainsAt(LoweredNames[k], Lower(query), i);
  }

  /** A query spelt "earbuds" in any letter case: the first name has no 'u', the second contains it. */
  lemma EarbudsStock(query: string)
    requires Lower(query) == "earbuds"
    ensures StockOf(query) == Some(StockInfo("Wireless Earbuds", 5))
    ensures ProductInfo(query) == Some(Products[1])
  {
    NameLacksLetter(0, query, 'u');
    NameHasQueryAt(1, query, 9);
    FirstMatchIsFound(query, 1);
  }

  /** A query spelt "smartwatch": neither of the first two names has an 'm'. */
  lemma SmartwatchStock(query: string)
    requires Lower(query) == "smartwatch"
    ensures StockOf(query) == Some(StockInfo("Smartwatch", 2))
  {
    SmartwatchNotInFirstTwo(query);
    NameHasQueryAt(2, query, 0);
    assert IsFirstMatch(Products, query, 2);
    FirstMatchIsFound(query, 2);
  }

  /** Neither of the first two names has an 'm'. */
  lemma SmartwatchNotInFirstTwo(query: string)
    requires Lower(query) == "smartwatch"
    ensures forall j :: 0 <= j < 2 ==> !Matches(Products[j], query)
  {
    NameLacksLetter(0, query, 'm');
    NameLacksLetter(1, query, 'm');
  }

  /** A query spelt "gaming mouse": none of the first four names has a 'g'. */
  lemma GamingMouseStock(query: string)
    requires Lower(query) == "gaming mouse"
    ensures StockOf(query) == Some(StockInfo("Gaming Mouse", 12))
  {
    GamingMouseNotInFirstFour(query);
    NameHasQueryAt(4, query, 0);
    assert IsFirstMatch(Products, query, 4);
    FirstMatchIsFound(query, 4);
  }

  /** No name before the fifth has a 'g'. */
  lemma GamingMouseNotInFirstFour(query: string)
    requires Lower(query) == "gaming mouse"
    ensures forall j :: 0 <= j < 4 ==> !Matches(Products[j], query)
  {
    NameLacksLetter(0, query, 'g');
    NameLacksLetter(1, query, 'g');
    NameLacksLetter(2, query, 'g');
    NameLacksLetter(3, query, 'g');
  }

  /** Once entry `k` is known to be the first match, both lookups report it. */
  lemma FirstMatchIsFound(query: string, k: int)
    requires IsFirstMatch(Products, query, k)
    ensures ProductInfo(query) == Some(Products[k])
    ensures StockOf(query) == Some(StockInfo(Products[k].name, Products[k].stock))
  {
    var k1 :| IsFirstMatch(Products, query, k1) && ProductInfo(query).value == Products[k1];
    FirstMatchUnique(Products, query, k, k1);
    var k2 :| IsFirstMatch(Products, query, k2) &&
              StockOf(query).value == StockInfo(Products[k2].name, Products[k2].stock);
    FirstMatchUnique(Products, query, k, k2);
  }
}
