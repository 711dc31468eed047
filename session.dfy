/**
 * The per-turn glue of `call_assistant` and the `chat` loop: the
 * "available" augmentation of the user message, the exit test, the gateway
 * error path, and the threading of `last_product` through the turns. The
 * first model call is the parameter `gateway`, the second `phrase`; the
 * console is a given sequence of input lines and the lines printed back.
 */
module Session {
  import opened Wrappers
  import opened Strings
  import opened Resolver

  /** What `call_assistant` hands back: the model's message, or the caught error. */
  datatype GatewayOutcome =
    | Delivered(reply: Reply)
    | GatewayError(cause: string)

  /**
   * The first model call of turn `n` for the message sent. The turn number
   * lets the same message get a different reply, or fail, on another turn.
   */
  type Gateway = (nat, string) -> GatewayOutcome

  /** The second model call of turn `n`: the text the model makes of a prompt. */
  type Phrasing = (nat, Prompt) -> string

  /** The second model call as seen by the resolver during turn `n`. */
  function PhraseAt(phrase: Phrasing, n: nat): Prompt -> string
  {
    p => phrase(n, p)
  }

  /** `call_assistant`'s rewrite of the user message before it is sent. */
  function Augment(message: string, last: Option<string>): (r: string)
    ensures message <= r
    ensures r != message <==> Contains(Lower(message), "available") && Truthy(last)
    ensures r != message ==> r[|message|..] == " (Product: " + last.value + ")"
  {
    if Contains(Lower(message), "available") && Truthy(last) then
      message + " (Product: " + last.value + ")"
    else
      message
  }

  /** The whole line, lower-cased and not trimmed, is "exit" or "quit". */
  predicate IsExit(message: string)
    ensures IsExit(message) ==> |message| == 4
  {
    Lower(message) == "exit" || Lower(message) == "quit"
  }

  /** The exit test ignores letter case. */
  lemma IsExitIgnoresCase(message: string)
    ensures IsExit(message) <==> IsExit(Lower(message))
  {
    LowerIdempotent(message);
  }

  lemma IsExitExamples()
    ensures IsExit("exit") && IsExit("EXIT") && IsExit("Quit")
    ensures !IsExit("exit ") && !IsExit("bye")
  {
    assert Lower("exit") == "exit";
    assert Lower("EXIT") == "exit";
    assert Lower("Quit") == "quit";
    assert Lower("bye") == "bye";
  }

  /** The text `call_assistant` returns for a caught exception. */
  function ErrorText(cause: string): (r: string)
    ensures |r| > |cause| && r[|r| - |cause|..] == cause
  {
    "An error occurred: " + cause
  }

  /** A printed line: the text after the "Assistant:" label and one blank. */
  function Display(text: string): (r: string)
    ensures |r| > |text| && r[|r| - |text|..] == text
  {
    "Assistant: " + text
  }

  /** One non-exit turn: send the augmented message, then resolve the reply. */
  function Turn(n: nat, message: string, last: Option<string>, gateway: Gateway,
                phrase: Phrasing): (r: TurnResult)
    ensures gateway(n, Augment(message, last)).GatewayError? ==>
              r == TurnResult(ErrorText(gateway(n, Augment(message, last)).cause), last)
    ensures ContextValid(last) ==> ContextValid(r.context)
  {
    match gateway(n, Augment(message, last))
    case GatewayError(cause) => TurnResult(ErrorText(cause), last)
    case Delivered(reply) => ProcessResponse(reply, last, PhraseAt(phrase, n))
  }

  /** The position of the first exit line, or the number of lines when there is none. */
  function ExitIndex(inputs: seq<string>): (k: nat)
    ensures k <= |inputs|
    ensures forall j :: 0 <= j < k ==> !IsExit(inputs[j])
    ensures k < |inputs| ==> IsExit(inputs[k])
  {
    if inputs == [] || IsExit(inputs[0]) then 0 else 1 + ExitIndex(inputs[1..])
  }

  /** What a session does: the messages sent to the gateway, the lines printed, the final context. */
  datatype Transcript = Transcript(sent: seq<string>, shown: seq<string>, context: Option<string>)

  /** The session over the remaining input lines, the first of them turn `n`, from context `last`. */
  function Run(inputs: seq<string>, n: nat, last: Option<string>, gateway: Gateway,
               phrase: Phrasing): (t: Transcript)
    // One gateway call and one printed line per line before the first exit line, none after it.
    ensures |t.sent| == ExitIndex(inputs) && |t.shown| == ExitIndex(inputs)
    ensures ContextValid(last) ==> ContextValid(t.context)
    decreases |inputs|
  {
    if inputs == [] || IsExit(inputs[0]) then Transcript([], [], last)
    else
      var request := Augment(inputs[0], last);
      var r := Turn(n, inputs[0], last, gateway, phrase);
      var rest := Run(inputs[1..], n + 1, r.context, gateway, phrase);
      Transcript([request] + rest.sent, [Display(r.answer)] + rest.shown, rest.context)
  }

  /** Every request sent to the gateway is the user's line, possibly with the product appended. */
  lemma {:induction false} RequestsCarryInput(inputs: seq<string>, n: nat, last: Option<string>,
                                              gateway: Gateway, phrase: Phrasing)
    ensures var t := Run(inputs, n, last, gateway, phrase);
            forall j :: 0 <= j < |t.sent| ==> inputs[j] <= t.sent[j]
    decreases |inputs|
  {
    if inputs != [] && !IsExit(inputs[0]) {
      var r := Turn(n, inputs[0], last, gateway, phrase);
      RequestsCarryInput(inputs[1..], n + 1, r.context, gateway, phrase);
      var t := Run(inputs, n, last, gateway, phrase);
      var rest := Run(inputs[1..], n + 1, r.context, gateway, phrase);
      forall j | 0 <= j < |t.sent|
        ensures inputs[j] <= t.sent[j]
      {
        if j > 0 {
          assert t.sent[j] == rest.sent[j - 1];
          assert inputs[j] == inputs[1..][j - 1];
        }
      }
    }
  }

  /** A turn whose gateway call fails prints the error, and the rest of the session starts from the same context. */
  lemma GatewayErrorKeepsContext(inputs: seq<string>, n: nat, last: Option<string>,
                                 gateway: Gateway, phrase: Phrasing)
    requires inputs != [] && !IsExit(inputs[0])
    requires gateway(n, Augment(inputs[0], last)).GatewayError?
    ensures var t := Run(inputs, n, last, gateway, phrase);
            var rest := Run(inputs[1..], n + 1, last, gateway, phrase);
            t == Transcript([Augment(inputs[0], last)] + rest.sent,
                            [Display(ErrorText(gateway(n, Augment(inputs[0], last)).cause))] + rest.shown,
                            rest.context)
  {
  }

  /** A failed call does not doom a repeated message: the next turn may get through. */
  lemma RetryAfterError(message: string, cause: string, text: string, phrase: Phrasing)
    requires !IsExit(message)
    ensures var gateway: Gateway := (n: nat, s: string) =>
              if n == 0 then GatewayError(cause) else Delivered(PlainText(text));
            Run([message, message], 0, None, gateway, phrase).shown ==
              [Display(ErrorText(cause)), Display(text)]
  {
    var gateway: Gateway := (n: nat, s: string) =>
      if n == 0 then GatewayError(cause) else Delivered(PlainText(text));
    assert [message, message][1..] == [message];
    assert [message][1..] == [];
    var second := Run([message], 1, None, gateway, phrase);
    assert second.shown == [Display(text)];
  }

  /** One step of the session: the turn at line `i`, then the session from the line after it. */
  lemma RunStep(inputs: seq<string>, i: nat, last: Option<string>, gateway: Gateway, phrase: Phrasing)
    requires i < |inputs| && !IsExit(inputs[i])
    ensures var turn := Turn(i, inputs[i], last, gateway, phrase);
            var rest := Run(inputs[i + 1..], i + 1, turn.context, gateway, phrase);
            Run(inputs[i..], i, last, gateway, phrase) ==
              Transcript([Augment(inputs[i], last)] + rest.sent, [Display(turn.answer)] + rest.shown, rest.context)
  {
    assert inputs[i..][1..] == inputs[i + 1..];
  }

  /**
   * The body of one iteration of `chat()` for a non-exit line, turn `n`:
   * `call_assistant`, then either the error text or `process_response`.
   */
  method TakeTurn(n: nat, message: string, last: Option<string>, gateway: Gateway, phrase: Phrasing)
    returns (request: string, answer: string, next: Option<string>)
    ensures request == Augment(message, last)
    ensures TurnResult(answer, next) == Turn(n, message, last, gateway, phrase)
    ensures gateway(n, request).GatewayError? ==> next == last
    ensures ContextValid(last) ==> ContextValid(next)
  {
    request := Augment(message, last);
    var outcome := gateway(n, request);
    match outcome {
      case GatewayError(cause) =>
        answer, next := ErrorText(cause), last;
      case Delivered(reply) =>
        var result := ProcessResponse(reply, last, PhraseAt(phrase, n));
        answer, next := result.answer, result.context;
    }
  }

  /** The lines already handled, followed by the session still to come. */
  function Prepend(sent: seq<string>, shown: seq<string>, t: Transcript): (r: Transcript)
    ensures |r.sent| == |sent| + |t.sent| && |r.shown| == |shown| + |t.shown|
  {
    Transcript(sent + t.sent, shown + t.shown, t.context)
  }

  /** Handing one more turn over from the session still to come to the lines already handled. */
  lemma PrependStep(sent: seq<string>, shown: seq<string>, request: string, line: string, rest: Transcript)
    ensures Prepend(sent, shown, Transcript([request] + rest.sent, [line] + rest.shown, rest.context)) ==
            Prepend(sent + [request], shown + [line], rest)
  {
    assert sent + ([request] + rest.sent) == (sent + [request]) + rest.sent;
    assert shown + ([line] + rest.shown) == (shown + [line]) + rest.shown;
  }

  /** `chat()`: the loop that reads lines until an exit line, threading `last_product`. */
  method Chat(inputs: seq<string>, gateway: Gateway, phrase: Phrasing)
    returns (sent: seq<string>, shown: seq<string>, last: Option<string>)
    ensures Transcript(sent, shown, last) == Run(inputs, 0, None, gateway, phrase)
    ensures |sent| == ExitIndex(inputs) && |shown| == ExitIndex(inputs)
    ensures ContextValid(last)
  {
    ghost var whole := Run(inputs, 0, None, gateway, phrase);
    sent, shown, last := [], [], None;
    var i := 0;
    while i < |inputs|
      invariant 0 <= i <= |inputs|
      invariant ContextValid(last)
      invariant whole == Prepend(sent, shown, Run(inputs[i..], i, last, gateway, phrase))
    {
      var message := inputs[i];
      if IsExit(message) {
        break;
      }
      RunStep(inputs, i, last, gateway, phrase);
      ghost var rest := Run(inputs[i + 1..], i + 1, Turn(i, message, last, gateway, phrase).context, gateway, phrase);
      var request, answer, next := TakeTurn(i, message, last, gateway, phrase);
      PrependStep(sent, shown, request, Display(answer), rest);
      sent := sent + [request];
      shown := shown + [Display(answer)];
      last := next;
      i := i + 1;
    }
    assert i < |inputs| ==> IsExit(inputs[i..][0]);
  }
}
