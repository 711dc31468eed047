# TestOpenAI: a verified model of the product assistant's core

TestOpenAI is a command-line shopping assistant. It sends each user line to a
hosted chat model. The model may answer in plain text, or it may ask for one of
two local lookups over a fixed five-product catalog. After a lookup, the
assistant asks the model a second time to phrase the answer. One piece of
conversational state, `last_product`, carries over between turns, so that a
follow-up about a product can leave out the product's name.

This project models the deterministic part of that program in Dafny and proves
its properties:

- `Strings`: ASCII lower-casing, substring membership and decimal rendering.
  `Contains` is proved equal to "occurs at some position", and `NatToString`
  is proved to read back to the same number.
- `Catalog`: the product table, whose entry `k` is the product keyed `k + 1`,
  and the two lookups.
  `GetProductInfo` and `CheckStock` are loops proved against the functions
  `ProductInfo` and `StockOf`. Each returns the *first* product in table order
  whose lower-cased name contains the lower-cased query. It returns nothing
  exactly when no name contains the query.
- `Resolver`: `process_response`. Given the model's reply and the current
  context, it picks the answer and the next context. This covers the plain-text
  pass-through, the resolution of the `name` argument against the context, the
  clarification and not-found answers, the branch on the function name, and the
  stock prompt template.
- `Session`: the turn loop. It covers the "available" augmentation, the
  exit/quit test, the gateway-error path, and `Chat`, which threads
  `last_product` through a given sequence of input lines. `Chat` is proved
  equal to the session function `Run`, and it keeps the context invariant
  `ContextValid`: the context is unset, or it is a non-empty query that the
  catalog resolves.

The external model is replaced by two parameters. Both are functions of the
turn number as well as of what is sent, so the same message may get a
different outcome on a later turn (`Session.RetryAfterError`). `gateway` maps
the turn number and the sent user message to a `Reply` (`PlainText` or
`FunctionCall`) or to a `GatewayError`. `phrase` maps the turn number and the
second call's `Prompt` to the text the model returns.

Two behaviours of the code worth noting:

- A function name other than `check_stock` takes the product-details branch
  (`get_product_info` and a details prompt). It does not take the stock branch.
  See `TestOpenAI/TestOpenAI.py:85` and `:89`.
- The new context is the query string that was used, not the catalog's name
  for the product it found (`TestOpenAI/TestOpenAI.py:101`, `:111`;
  `Resolver.ContextIsQueryNotCatalogName`).

## Model

| member | source | states |
|---|---|---|
| `Strings.Lower` | TestOpenAI/TestOpenAI.py:22 | lower-casing keeps the length of the string; it is `lower()` on names, queries and lines (also lines 35 and 120) |
| `Strings.LowerSpec` | TestOpenAI/TestOpenAI.py:22 | lower-casing keeps the length, leaves no upper-case letter, and changes only upper-case letters, each by 32 |
| `Strings.LowerIdempotent` | TestOpenAI/TestOpenAI.py:120 | lower-casing a lower-cased string changes nothing |
| `Strings.Contains` | TestOpenAI/TestOpenAI.py:22 | a contained needle is no longer than the hay, and the empty needle is always contained; it is the `in` test on the lower-cased name and on the lower-cased message (also line 35) |
| `Strings.ContainsIffOccurs` | TestOpenAI/TestOpenAI.py:22 | the left-to-right substring test is true exactly when the needle occurs at some position of the hay |
| `Strings.ContainsEmpty` | TestOpenAI/TestOpenAI.py:22 | the empty query is contained in every name |
| `Strings.ContainsChars` | TestOpenAI/TestOpenAI.py:22 | every character of a contained needle appears in the hay |
| `Strings.NotContainsByChar` | TestOpenAI/TestOpenAI.py:22 | a needle with a character the hay lacks is not contained in it |
| `Strings.NatToString` | TestOpenAI/TestOpenAI.py:91 | the rendering of a count is a non-empty digit string that starts with '0' only for zero |
| `Strings.NatToStringExamples` | TestOpenAI/TestOpenAI.py:91 | counts 2 and 12 render as "2" and "12" |
| `Strings.ParseNatToString` | TestOpenAI/TestOpenAI.py:91 | the decimal rendering of the stock count reads back to the same count |
| `Strings.NatToStringInjective` | TestOpenAI/TestOpenAI.py:91 | different stock counts give different renderings |
| `Catalog.Matches` | TestOpenAI/TestOpenAI.py:22 | a name contains a query only if the query is no longer than the name; the empty query is in every name; both lookups use this test (also line 29) |
| `Catalog.FirstMatchFrom` | TestOpenAI/TestOpenAI.py:21-24 | the scan returns an index whose product matches while no earlier one does, or none when no product matches |
| `Catalog.FirstMatchUnique` | TestOpenAI/TestOpenAI.py:21-23 | there is only one first match |
| `Catalog.ProductInfo` | TestOpenAI/TestOpenAI.py:19-24 | the lookup is None exactly when no name contains the query; otherwise it is the first matching product in table order |
| `Catalog.StockOf` | TestOpenAI/TestOpenAI.py:26-31 | the stock lookup is None exactly when no name matches; otherwise it is the first matching product's name and stock |
| `Catalog.GetProductInfo` | TestOpenAI/TestOpenAI.py:19-24 | the loop returns the first matching product in table order, or None exactly when none matches, and agrees with `ProductInfo` |
| `Catalog.CheckStock` | TestOpenAI/TestOpenAI.py:26-31 | the loop returns the first match's name and stock, or None exactly when none matches, and agrees with `StockOf` |
| `Catalog.StockOfAgreesWithProductInfo` | TestOpenAI/TestOpenAI.py:19-31 | the stock lookup fails exactly when the details lookup fails, and otherwise projects the same product's name and stock |
| `Catalog.UniqueMatchIsFound` | TestOpenAI/TestOpenAI.py:21-23 | a query contained in exactly one name finds that product |
| `Catalog.FirstMatchIsFound` | TestOpenAI/TestOpenAI.py:21-31 | once an entry is the first match, both lookups report that entry |
| `Catalog.EmptyQueryFindsFirstProduct` | TestOpenAI/TestOpenAI.py:21-23 | the empty query finds the first product |
| `Catalog.LowerName` | TestOpenAI/TestOpenAI.py:12-16 | the lower-cased forms of the five catalog names |
| `Catalog.NameLacksLetter` | TestOpenAI/TestOpenAI.py:22 | a query with a letter that a name lacks does not match that name |
| `Catalog.NameHasQueryAt` | TestOpenAI/TestOpenAI.py:22 | a query that occurs in a lower-cased name matches that name |
| `Catalog.FirstNotBestMatch` | TestOpenAI/TestOpenAI.py:21-23 | "a" is in the first and the last name, and the first product wins: first match, not best match |
| `Catalog.EarbudsStock` | TestOpenAI/TestOpenAI.py:26-31 | a query spelt "earbuds" in any case gives name "Wireless Earbuds" and stock 5 |
| `Catalog.SmartwatchNotInFirstTwo` | TestOpenAI/TestOpenAI.py:22 | a query spelt "smartwatch" matches neither of the first two names |
| `Catalog.SmartwatchStock` | TestOpenAI/TestOpenAI.py:26-31 | a query spelt "smartwatch" gives name "Smartwatch" and stock 2 |
| `Catalog.GamingMouseStock` | TestOpenAI/TestOpenAI.py:26-31 | a query spelt "gaming mouse" gives name "Gaming Mouse" and stock 12 |
| `Catalog.GamingMouseNotInFirstFour` | TestOpenAI/TestOpenAI.py:22 | a query spelt "gaming mouse" matches none of the first four names |
| `Resolver.Truthy` | TestOpenAI/TestOpenAI.py:81 | an optional string is truthy exactly when it is present and non-empty |
| `Resolver.ResolveName` | TestOpenAI/TestOpenAI.py:80 | the query is the `name` argument whenever that key is present, even if empty or null, and the context only when it is absent |
| `Resolver.StockStatus` | TestOpenAI/TestOpenAI.py:91 | the stock phrase is "out of stock" exactly when the stock is zero |
| `Resolver.StockStatusSpec` | TestOpenAI/TestOpenAI.py:91 | the stock phrase is "out of stock" exactly at zero; otherwise it is a digit string with no leading zero that reads back to the stock, followed by " units available" |
| `Resolver.StockStatusExamples` | TestOpenAI/TestOpenAI.py:91 | stock 0, 2 and 12 give "out of stock", "2 units available" and "12 units available" |
| `Resolver.StockQuestion` | TestOpenAI/TestOpenAI.py:97 | the user message of the stock prompt asks for the stock of the catalog name |
| `Resolver.StockStatement` | TestOpenAI/TestOpenAI.py:98 | the assistant message of the stock prompt; what it contains is stated by `StatementEmbedsStatus` |
| `Resolver.StatementEmbedsStatus` | TestOpenAI/TestOpenAI.py:98 | the assistant message of the stock prompt contains the catalog name and the stock phrase |
| `Resolver.PromptFor` | TestOpenAI/TestOpenAI.py:89-110 | the second call gets the stock prompt exactly when the function name is "check_stock"; the details prompt carries the found product |
| `Resolver.ProcessResponse` | TestOpenAI/TestOpenAI.py:75-113 | plain text is returned verbatim with the context kept; no usable name gives the clarification with the context kept; a name no product contains gives the not-found answer with the context kept; otherwise the first matching product is phrased through the branch its function name selects, and the query becomes the context |
| `Resolver.ProcessResponseKeepsContextValid` | TestOpenAI/TestOpenAI.py:78-113 | if the context was unset or a non-empty query the catalog resolves, it still is after the turn |
| `Resolver.ContextChangesOnlyToFoundQuery` | TestOpenAI/TestOpenAI.py:80-111 | the context changes only on a function call, and only to the resolved query string, which is non-empty and found in the catalog |
| `Resolver.EmptyNameArgumentAsks` | TestOpenAI/TestOpenAI.py:80-82 | a present but empty or null `name` argument gives the clarification and does not fall back to the context |
| `Resolver.FunctionNameSelectsBranch` | TestOpenAI/TestOpenAI.py:85-111 | only the name "check_stock" takes the stock lookup and the stock prompt; every other name takes the details lookup and the details prompt |
| `Resolver.SmartwatchStockPrompt` | TestOpenAI/TestOpenAI.py:89-101 | a stock call naming "Smartwatch" builds a stock prompt whose statement contains "2 units available", and the query becomes the context |
| `Resolver.GamingMouseFromContext` | TestOpenAI/TestOpenAI.py:80-101 | with no `name` argument, the context "Gaming Mouse" is the query; it resolves to the fifth product and stays the context |
| `Resolver.ContextIsQueryNotCatalogName` | TestOpenAI/TestOpenAI.py:104-111 | a details call for "earbuds" phrases the Wireless Earbuds record and stores "earbuds", not the catalog name |
| `Session.Augment` | TestOpenAI/TestOpenAI.py:35-36 | the message is extended exactly when its lower-cased form contains "available" and the context is non-empty, and then only by " (Product: X)" at its end |
| `Session.IsExit` | TestOpenAI/TestOpenAI.py:120 | an exit line is exactly four characters, so no surrounding blanks are allowed |
| `Session.IsExitIgnoresCase` | TestOpenAI/TestOpenAI.py:120 | the exit test gives the same answer for a line and for its lower-cased form |
| `Session.IsExitExamples` | TestOpenAI/TestOpenAI.py:120-121 | "exit", "EXIT" and "Quit" end the session; "exit " and "bye" do not |
| `Session.ErrorText` | TestOpenAI/TestOpenAI.py:73 | the text for a caught exception ends with the exception's message |
| `Session.Display` | TestOpenAI/TestOpenAI.py:124-127 | a printed line ends with the answer text |
| `Session.PhraseAt` | TestOpenAI/TestOpenAI.py:93-110 | the second model call during one turn, as the resolver sees it |
| `Session.Turn` | TestOpenAI/TestOpenAI.py:122-126 | a failed gateway call gives the error text with the context unchanged; any turn keeps the context valid |
| `Session.ExitIndex` | TestOpenAI/TestOpenAI.py:118-121 | the position of the first exit line: no line before it is an exit line, and the line at it is one |
| `Session.Run` | TestOpenAI/TestOpenAI.py:117-127 | one gateway call and one printed line for each line before the first exit line, and none after it; the context stays valid |
| `Session.RequestsCarryInput` | TestOpenAI/TestOpenAI.py:35-36 | every message sent to the gateway starts with the user's line |
| `Session.GatewayErrorKeepsContext` | TestOpenAI/TestOpenAI.py:122-125 | after a failed gateway call the error is printed and the rest of the session continues from the same context |
| `Session.RetryAfterError` | TestOpenAI/TestOpenAI.py:72-127 | a gateway that fails on the first turn and answers on the second: the same line gets the error text, then the answer |
| `Session.RunStep` | TestOpenAI/TestOpenAI.py:118-127 | a non-exit line is one turn followed by the session over the lines after it |
| `Session.Prepend` | TestOpenAI/TestOpenAI.py:117-127 | the lines already handled followed by the session still to come: the lengths add up |
| `Session.PrependStep` | TestOpenAI/TestOpenAI.py:117-127 | moving one handled turn from the session still to come to the lines already handled changes nothing |
| `Session.TakeTurn` | TestOpenAI/TestOpenAI.py:122-126 | one loop iteration sends the augmented message and yields the answer and context of `Turn`; a gateway error keeps the context |
| `Session.Chat` | TestOpenAI/TestOpenAI.py:115-127 | the loop's messages sent, lines printed and final context are those of `Run` from an unset context; it stops at the first exit line and the final context is valid |

## Left out

- The OpenAI client and both chat-completion calls (TestOpenAI/TestOpenAI.py:7, :39-70, :93-110) are network I/O to a foreign service. The first call is the `gateway` parameter. The second call is the `phrase` parameter.
- Acquisition of the API key from the environment or a prompt (TestOpenAI/TestOpenAI.py:6), `input` and `print` are I/O. The session runs over a given sequence of lines, and the printed lines are returned as the `shown` sequence.
- End of input: `input` raising at end of file ends the program in the source. The model simply stops when the sequence of lines runs out.
- An exception from the second model call is not caught by the source and ends the program. `phrase` always returns a string, so the model does not represent this crash.
- `json.loads` of the argument string is not modelled. Arguments are a map from keys to optional strings, where `None` is JSON null. Malformed JSON (an uncaught exception in the source) and non-string values of `name` (numbers, lists, objects) are not modelled.
- `json.dumps` of the product record is not modelled. The details prompt carries the record's fields (name, description, price in cents, stock) as a `Product` value. The id is the dictionary key, not part of the record, so `Product` has no id field.
- A message with neither a function call nor text content (Python `None` content) is not modelled: `PlainText` always carries a string.
- Float prices are kept as integer cents.
- Python's Unicode `str.lower` is modelled for ASCII letters only.
- The function-schema literals (TestOpenAI/TestOpenAI.py:45-68) are static data sent to the service and carry no logic.
