/**
 * `process_response`: given the model's first reply and the current
 * conversational context (`last_product`), decide the answer and the new
 * context. The second model call, which only rephrases a prompt built from
 * the catalog result, is the parameter `phrase`.
 */
module Resolver {
  import opened Wrappers
  import opened Strings
  import opened Catalog

  /** The decoded arguments object of a function call; `None` is a JSON null. */
  type Arguments = map<string, Option<string>>

  /** The first reply of the model: plain text, or a request to call a named function. */
  datatype Reply =
    | PlainText(content: string)
    | FunctionCall(fname: string, args: Arguments)

  /**
   * The messages of the second model call. For stock: the system, user and
   * assistant messages. For details: the system message and the product whose
   * JSON serialisation fills the assistant message.
   */
  datatype Prompt =
    | StockPrompt(system: string, user: string, assistant: string)
    | DetailsPrompt(system: string, product: Product)

  /** The pair `process_response` returns: the answer and the new `last_product`. */
  datatype TurnResult = TurnResult(answer: string, context: Option<string>)

  const Clarification := "Could you please specify which product you're referring to?"
  const NotFoundAnswer := "I'm sorry, but I couldn't find that product in our catalog."
  const StockSystem := "You are an AI e-commerce assistant providing stock availability information in a natural way."
  const DetailsSystem := "AI e-commerce assistant."
  const UnitsAvailable := " units available"
  const OutOfStock := "out of stock"

  /** Python truthiness of an optional string: present and non-empty. */
  predicate Truthy(o: Option<string>)
  {
    o.Some? && o.value != ""
  }

  /** The query: the `name` argument when that key is present, even if empty or null; otherwise the context. */
  function ResolveName(args: Arguments, last: Option<string>): (r: Option<string>)
    ensures "name" in args ==> r == args["name"]
    ensures "name" !in args ==> r == last
  {
    if "name" in args then args["name"] else last
  }

  /** The stock phrase: `"<stock> units available"` or `"out of stock"`. */
  function StockStatus(stock: nat): (s: string)
    ensures s == OutOfStock <==> stock == 0
  {
    assert |NatToString(stock) + UnitsAvailable| > |OutOfStock|;
    if stock > 0 then NatToString(stock) + UnitsAvailable else OutOfStock
  }

  /** The reported stock is "out of stock" exactly at zero, and otherwise gives the count back. */
  lemma StockStatusSpec(stock: nat)
    ensures StockStatus(stock) == OutOfStock <==> stock == 0
    ensures stock > 0 ==>
              var s := StockStatus(stock);
              var n := |s| - |UnitsAvailable|;
              n > 0 && s[n..] == UnitsAvailable && s[0] != '0' &&
              (forall i :: 0 <= i < n ==> IsDigit(s[i])) &&
              ParseDecimal(s[..n]) == stock
  {
    if stock > 0 {
      var s := StockStatus(stock);
      var d := NatToString(stock);
      assert s[..|d|] == d;
      assert s[|d|..] == UnitsAvailable;
      ParseNatToString(stock);
      assert |s| != |OutOfStock|;
    }
  }

  /** The user message of the stock prompt. */
  function StockQuestion(info: StockInfo): string
  {
    "Can you check the stock for " + info.name + "?"
  }

  /** The assistant message of the stock prompt: `"The <name> currently has <status>."` */
  function StockStatement(info: StockInfo): string
  {
    "The " + info.name + " currently has " + StockStatus(info.stock) + "."
  }

  /** The second call's prompt for a found product, by the branch the function name selects. */
  function PromptFor(fname: string, p: Product): (r: Prompt)
    ensures r.StockPrompt? <==> fname == "check_stock"
    ensures r.DetailsPrompt? ==> r.product == p
  {
    if fname == "check_stock" then
      var info := StockInfo(p.name, p.stock);
      StockPrompt(StockSystem, StockQuestion(info), StockStatement(info))
    else
      DetailsPrompt(DetailsSystem, p)
  }

  /**
   * The context is either unset or a non-empty query that the catalog
   * resolves: the only values `process_response` ever stores.
   */
  predicate ContextValid(c: Option<string>)
  {
    c.None? || (c.value != "" && !NoMatch(Products, c.value))
  }

  /** `process_response`: the answer for the reply and the context after it. */
  function ProcessResponse(reply: Reply, last: Option<string>, phrase: Prompt -> string): (r: TurnResult)
    // A reply without a function call is passed through and the context kept.
    ensures reply.PlainText? ==> r == TurnResult(reply.content, last)
    // No usable name, from the argument or (only when the key is absent) the context: ask, keep the context.
    ensures reply.FunctionCall? && !Truthy(ResolveName(reply.args, last)) ==>
              r == TurnResult(Clarification, last)
    // A usable name that no product contains: say so, keep the context.
    ensures reply.FunctionCall? && Truthy(ResolveName(reply.args, last)) &&
            NoMatch(Products, ResolveName(reply.args, last).value) ==>
              r == TurnResult(NotFoundAnswer, last)
    // A usable name that some product contains: phrase the first such product, and the query becomes the context.
    ensures reply.FunctionCall? && Truthy(ResolveName(reply.args, last)) &&
            !NoMatch(Products, ResolveName(reply.args, last).value) ==>
              var q := ResolveName(reply.args, last).value;
              r.context == Some(q) &&
              exists k :: IsFirstMatch(Products, q, k) && r.answer == phrase(PromptFor(reply.fname, Products[k]))
  {
    match reply
    case PlainText(content) => TurnResult(content, last)
    case FunctionCall(fname, args) =>
      var name := ResolveName(args, last);
      if !Truthy(name) then TurnResult(Clarification, last)
      else if fname == "check_stock" then
        match StockOf(name.value)
        case None => TurnResult(NotFoundAnswer, last)
        case Some(info) =>
          TurnResult(phrase(StockPrompt(StockSystem, StockQuestion(info), StockStatement(info))), name)
      else
        match ProductInfo(name.value)
        case None => TurnResult(NotFoundAnswer, last)
        case Some(p) => TurnResult(phrase(DetailsPrompt(DetailsSystem, p)), name)
  }

  /** Every turn keeps the context valid. */
  lemma ProcessResponseKeepsContextValid(reply: Reply, last: Option<string>, phrase: Prompt -> string)
    requires ContextValid(last)
    ensures ContextValid(ProcessResponse(reply, last, phrase).context)
  {
  }

  /**
   * The context changes only on a function call whose resolved name the
   * catalog finds, and then becomes that query string, not the catalog's own
   * name for the product.
   */
  lemma ContextChangesOnlyToFoundQuery(reply: Reply, last: Option<string>, phrase: Prompt -> string)
    ensures var r := ProcessResponse(reply, last, phrase);
            r.context != last ==>
              reply.FunctionCall? && r.context == ResolveName(reply.args, last) &&
              Truthy(r.context) && !NoMatch(Products, r.context.value)
  {
  }

  /** A present but empty or null `name` does not fall back to the context. */
  lemma EmptyNameArgumentAsks(fname: string, args: Arguments, last: Option<string>, phrase: Prompt -> string)
    requires "name" in args && (args["name"] == None || args["name"] == Some(""))
    ensures ProcessResponse(FunctionCall(fname, args), last, phrase) == TurnResult(Clarification, last)
  {
  }

  /** Only the name "check_stock" takes the stock path; every other name, declared or not, takes the details path. */
  lemma FunctionNameSelectsBranch(fname: string, args: Arguments, last: Option<string>, phrase: Prompt -> string)
    requires Truthy(ResolveName(args, last))
    requires !NoMatch(Products, ResolveName(args, last).value)
    ensures var q := ResolveName(args, last).value;
            var r := ProcessResponse(FunctionCall(fname, args), last, phrase);
            if fname == "check_stock" then
              var info := StockOf(q).value;
              r.answer == phrase(StockPrompt(StockSystem, StockQuestion(info), StockStatement(info)))
            else
              r.answer == phrase(DetailsPrompt(DetailsSystem, ProductInfo(q).value))
  {
    var q := ResolveName(args, last).value;
    StockOfAgreesWithProductInfo(q);
    var k :| IsFirstMatch(Products, q, k) &&
             ProcessResponse(FunctionCall(fname, args), last, phrase).answer == phrase(PromptFor(fname, Products[k]));
    FirstMatchIsFound(q, k);
  }

  /** The stock phrases for the counts in the catalog's examples. */
  lemma StockStatusExamples()
    ensures StockStatus(0) == "out of stock"
    ensures StockStatus(2) == "2 units available"
    ensures StockStatus(12) == "12 units available"
  {
    NatToStringExamples();
  }

  /** The assistant message of the stock prompt embeds both the catalog name and the stock phrase. */
  lemma StatementEmbedsStatus(info: StockInfo)
    ensures Contains(StockStatement(info), info.name)
    ensures Contains(StockStatement(info), StockStatus(info.stock))
  {
    var s := StockStatement(info);
    var pre := "The " + info.name + " currently has ";
    assert s[4..4 + |info.name|] == info.name;
    ContainsAt(s, info.name, 4);
    assert s[|pre|..|pre| + |StockStatus(info.stock)|] == StockStatus(info.stock);
    ContainsAt(s, StockStatus(info.stock), |pre|);
  }

  /** A `check_stock` call naming "Smartwatch" feeds back a statement containing "2 units available". */
  lemma SmartwatchStockPrompt(args: Arguments, last: Option<string>, phrase: Prompt -> string, name: string)
    requires "name" in args && args["name"] == Some(name) && Lower(name) == "smartwatch"
    ensures var r := ProcessResponse(FunctionCall("check_stock", args), last, phrase);
            var info := StockInfo("Smartwatch", 2);
            r.context == Some(name) &&
            r.answer == phrase(StockPrompt(StockSystem, StockQuestion(info), StockStatement(info))) &&
            Contains(StockStatement(info), "2 units available")
  {
    SmartwatchStock(name);
    StockStatusExamples();
    StatementEmbedsStatus(StockInfo("Smartwatch", 2));
  }

  /** With no `name` argument the context is the query; a context spelt "gaming mouse" finds the fifth product and stays. */
  lemma GamingMouseFromContext(args: Arguments, name: string, phrase: Prompt -> string)
    requires "name" !in args && Lower(name) == "gaming mouse"
    ensures var r := ProcessResponse(FunctionCall("check_stock", args), Some(name), phrase);
            var info := StockInfo("Gaming Mouse", 12);
            r.context == Some(name) &&
            r.answer == phrase(StockPrompt(StockSystem, StockQuestion(info), StockStatement(info)))
  {
    GamingMouseStock(name);
  }

  /** A details call for "earbuds" stores "earbuds", not the catalog name "Wireless Earbuds". */
  lemma ContextIsQueryNotCatalogName(fname: string, args: Arguments, last: Option<string>, phrase: Prompt -> string)
    requires fname != "check_stock"
    requires "name" in args && args["name"] == Some("earbuds")
    ensures ProcessResponse(FunctionCall(fname, args), last, phrase) ==
            TurnResult(phrase(DetailsPrompt(DetailsSystem, Products[1])), Some("earbuds"))
  {
    assert Lower("earbuds") == "earbuds";
    EarbudsStock("earbuds");
  }
}
