/** `evaluate_flight_deal`: whether to alert about one search's canonical
    result, and with what message, optionally delegating to a language model
    that either diagnoses an error or judges the deal against the user's
    notes. The model and the JSON reader are parameters of the decision. */
module DealEvaluator {
  import opened Text
  import opened PyValues
  import opened FlightClient

  /** What the language model is asked. The fields are the values the prompt
      text interpolates; the wording around them is not modelled. */
  datatype Prompt =
    | ExplainError(error: string, src: string, dst: string, date: string)
    | JudgeMatch(src: string, dst: string, notes: string, airline: string, price: string)

  /** The model's reply text, or `Fail` when the call or reading its text raised. */
  datatype Reply = Ok(text: string) | Fail

  /** No model configured, or a configured model answering each prompt. */
  datatype Judge = NoModel | Model(ask: Prompt -> Reply)

  /** A reply read as a JSON object: the truthiness of its `match` member and
      its `sms` member, each `None` when the key is absent. */
  datatype Verdict = Verdict(matches: Option<bool>, sms: Option<string>)

  /** `(should_send, message_body)`. */
  datatype Decision = Decision(shouldSend: bool, message: string)

  const Fence: string := "```"
  const JsonFence: string := "```json"

  /** The markdown cleanup of a stripped reply: only a reply that starts with
      a fence is rewritten, by deleting every "```json", then every "```",
      then stripping. */
  function CleanFences(raw: string): (r: string)
    ensures !StartsWith(raw, Fence) ==> r == raw
    ensures StartsWith(raw, Fence) ==> r == Strip(r)
  {
    if StartsWith(raw, Fence) then
      var r := Strip(ReplaceAll(ReplaceAll(raw, JsonFence, ""), Fence, ""));
      StripUnchanged(r);
      r
    else raw
  }

  /** The message of the no-notes path. */
  function AlertTemplate(profile: Item, price: Value): string
    requires "src" in profile && "dst" in profile
  {
    "Flight Alert for " + Show(Get(profile, "username")) + "!\n" +
    "Route: " + Show(profile["src"]) + " -> " + Show(profile["dst"]) + "\n" +
    "Price: $" + Show(price)
  }

  /** The message when the judge cannot be consulted or understood. */
  function FallbackMessage(price: Value): string {
    "Deal found! $" + Show(price) + " (AI analysis failed)"
  }

  function ExplainPrompt(error: string, profile: Item): Prompt
    requires "src" in profile && "dst" in profile && "date" in profile
  {
    ExplainError(error, Show(profile["src"]), Show(profile["dst"]), Show(profile["date"]))
  }

  function MatchPrompt(profile: Item, notes: Value, airline: Value, price: Value): Prompt
    requires "src" in profile && "dst" in profile
  {
    JudgeMatch(Show(profile["src"]), Show(profile["dst"]), Show(notes), Show(airline), Show(price))
  }

  /** The notes path once the judge has replied: a reply that cannot be read
      fails open; a verdict's missing `match` means send and its missing
      `sms` means "Deal found!". */
  function ReadVerdict(reply: Reply, parse: string -> Option<Verdict>, price: Value): (d: Decision)
    ensures !d.shouldSend <==> Rejects(reply, parse)
  {
    match reply
    case Fail => Decision(true, FallbackMessage(price))
    case Ok(text) =>
      match parse(CleanFences(Strip(text)))
      case None => Decision(true, FallbackMessage(price))
      case Some(v) => Decision(v.matches.GetOr(true), v.sms.GetOr("Deal found!"))
  }

  /** The one way to suppress an alert: a configured model, a deal rather
      than an error, non-empty notes, a profile with its route, and a reply
      that reads as a verdict whose `match` is falsy. */
  predicate Suppresses(result: FlightResult, profile: Item, notes: Value, judge: Judge,
                       parse: string -> Option<Verdict>)
  {
    judge.Model? && result.Success? && Truthy(notes) && "src" in profile && "dst" in profile &&
    Rejects(judge.ask(MatchPrompt(profile, notes, result.airline, result.price)), parse)
  }

  /** The model's reply rejects the deal: it came back, its cleaned text
      parses as a verdict, and that verdict's `match` is false. */
  predicate Rejects(reply: Reply, parse: string -> Option<Verdict>) {
    reply.Ok? && parse(CleanFences(Strip(reply.text))).Some? &&
    parse(CleanFences(Strip(reply.text))).value.matches == Some(false)
  }

  /** `evaluate_flight_deal(result, profile, notes)`; `render` is `str()` of
      the result dict. The cascade is: no model, then error result, then no
      notes, then the judge. It raises `KeyError` exactly when a model is
      configured and the profile lacks a key the prompt or template indexes;
      it suppresses exactly as `Suppresses` says and sends otherwise. */
  function Evaluate(result: FlightResult, profile: Item, notes: Value, judge: Judge,
                    render: FlightResult -> string, parse: string -> Option<Verdict>): (r: Outcome<Decision>)
    ensures judge.NoModel? ==> r == Returned(Decision(true, "Alert: " + render(result)))
    ensures r.Raised? <==>
              (judge.Model? && ("src" !in profile || "dst" !in profile || (result.Error? && "date" !in profile)))
    ensures r.Raised? ==>
              r.error == KeyError(if "src" !in profile then "src" else if "dst" !in profile then "dst" else "date")
    ensures (r.Returned? && !r.value.shouldSend) <==> Suppresses(result, profile, notes, judge, parse)
    ensures result.Error? && r.Returned? ==> r.value.shouldSend
  {
    match judge
    case NoModel => Returned(Decision(true, "Alert: " + render(result)))
    case Model(ask) =>
      match result
      case Error(err) =>
        if "src" !in profile then Raised(KeyError("src"))
        else if "dst" !in profile then Raised(KeyError("dst"))
        else if "date" !in profile then Raised(KeyError("date"))
        else
          var reply := ask(ExplainPrompt(err, profile));
          Returned(Decision(true, "SYSTEM ERROR: " + (if reply.Ok? then Strip(reply.text) else err)))
      case Success(price, airline, _) =>
        if "src" !in profile then Raised(KeyError("src"))
        else if "dst" !in profile then Raised(KeyError("dst"))
        else if !Truthy(notes) then Returned(Decision(true, AlertTemplate(profile, price)))
        else Returned(ReadVerdict(ask(MatchPrompt(profile, notes, airline, price)), parse, price))
  }

  /** With a model, an error result is reported as a system error: the
      model's stripped diagnosis, or the raw error text when the call fails. */
  lemma ErrorPathMessage(err: string, profile: Item, notes: Value, ask: Prompt -> Reply,
                         render: FlightResult -> string, parse: string -> Option<Verdict>)
    requires "src" in profile && "dst" in profile && "date" in profile
    ensures var reply := ask(ExplainPrompt(err, profile));
            Evaluate(Error(err), profile, notes, Model(ask), render, parse) ==
            Returned(Decision(true, "SYSTEM ERROR: " + (if reply.Ok? then Strip(reply.text) else err)))
  {
  }

  /** Without notes the deal is sent with the fixed template, and the model
      is never consulted: any two models give the same outcome. */
  lemma NoNotesSkipsJudge(price: Value, airline: Value, link: string, profile: Item, notes: Value,
                          ask1: Prompt -> Reply, ask2: Prompt -> Reply,
                          render: FlightResult -> string, parse: string -> Option<Verdict>)
    requires !Truthy(notes) && "src" in profile && "dst" in profile
    ensures Evaluate(Success(price, airline, link), profile, notes, Model(ask1), render, parse) ==
            Evaluate(Success(price, airline, link), profile, notes, Model(ask2), render, parse) ==
            Returned(Decision(true, AlertTemplate(profile, price)))
  {
  }

  /** A failed call or an unreadable reply fails open, naming the price. */
  lemma FailOpen(price: Value, airline: Value, link: string, profile: Item, notes: Value,
                 ask: Prompt -> Reply, render: FlightResult -> string, parse: string -> Option<Verdict>)
    requires Truthy(notes) && "src" in profile && "dst" in profile
    requires var reply := ask(MatchPrompt(profile, notes, airline, price));
             reply.Fail? || parse(CleanFences(Strip(reply.text))).None?
    ensures Evaluate(Success(price, airline, link), profile, notes, Model(ask), render, parse) ==
            Returned(Decision(true, "Deal found! $" + Show(price) + " (AI analysis failed)"))
  {
  }

  /** A parsed verdict decides on its own: a missing `match` means send and
      a present one decides, a missing `sms` means "Deal found!" and a present
      one is the message, each defaulted independently of the other. */
  lemma VerdictDefaults(price: Value, airline: Value, link: string, profile: Item, notes: Value,
                        ask: Prompt -> Reply, render: FlightResult -> string, parse: string -> Option<Verdict>,
                        v: Verdict)
    requires Truthy(notes) && "src" in profile && "dst" in profile
    requires var reply := ask(MatchPrompt(profile, notes, airline, price));
             reply.Ok? && parse(CleanFences(Strip(reply.text))) == Some(v)
    ensures var r := Evaluate(Success(price, airline, link), profile, notes, Model(ask), render, parse);
            r.Returned? &&
            (v.matches.None? ==> r.value.shouldSend) &&
            (v.matches.Some? ==> r.value.shouldSend == v.matches.value) &&
            (v.sms.None? ==> r.value.message == "Deal found!") &&
            (v.sms.Some? ==> r.value.message == v.sms.value)
  {
  }

  /** A reply without backticks is handed to the reader stripped and unchanged. */
  lemma PlainReplyUnchanged(b: string)
    requires forall i :: 0 <= i < |b| ==> b[i] != '`'
    ensures CleanFences(Strip(b)) == Strip(b)
  {
    StrippedHasNoFence(b);
    CleanFencesKeeps(Strip(b));
  }

  lemma StrippedHasNoFence(b: string)
    requires forall i :: 0 <= i < |b| ==> b[i] != '`'
    ensures !StartsWith(Strip(b), Fence)
  {
    var s := Strip(b);
    if |s| > 0 {
      StripChars(b, s[0]);
    }
  }

  lemma CleanFencesKeeps(s: string)
    requires !StartsWith(s, Fence)
    ensures CleanFences(s) == s
  {
  }

  /** A reply fenced as "```json" ... "```" reads as its stripped body. */
  lemma JsonFencedReply(b: string)
    requires forall i :: 0 <= i < |b| ==> b[i] != '`'
    ensures CleanFences(Strip(JsonFence + b + Fence)) == Strip(b)
  {
    var f := JsonFence + b + Fence;
    StripUnchanged(f);
    DropJsonFence(b);
    DropClosingFence(b);
    CleanFencesFenced(f, b);
  }

  lemma CleanFencesFenced(f: string, b: string)
    requires StartsWith(f, Fence)
    requires ReplaceAll(ReplaceAll(f, JsonFence, ""), Fence, "") == b
    ensures CleanFences(f) == Strip(b)
  {
  }

  lemma DropJsonFence(b: string)
    requires forall i :: 0 <= i < |b| ==> b[i] != '`'
    ensures ReplaceAll(JsonFence + b + Fence, JsonFence, "") == b + Fence
  {
    assert JsonFence + b + Fence == JsonFence + (b + Fence);
    ReplaceAllFront(JsonFence, b + Fence, "");
    ReplaceAllKeeps(b, Fence, JsonFence, "");
    assert ReplaceAll(Fence, JsonFence, "") == Fence;
  }

  lemma DropClosingFence(b: string)
    requires forall i :: 0 <= i < |b| ==> b[i] != '`'
    ensures ReplaceAll(b + Fence, Fence, "") == b
  {
    ReplaceAllKeeps(b, Fence, Fence, "");
    ReplaceAllFront(Fence, [], "");
    assert Fence + [] == Fence;
    assert b + "" == b;
  }

  /** A fenced reply and the same reply unfenced lead to the same decision. */
  lemma FencedReplyDecidesAlike(body: string, price: Value, airline: Value, link: string,
                                profile: Item, notes: Value, ask1: Prompt -> Reply, ask2: Prompt -> Reply,
                                render: FlightResult -> string, parse: string -> Option<Verdict>)
    requires forall i :: 0 <= i < |body| ==> body[i] != '`'
    requires Truthy(notes) && "src" in profile && "dst" in profile
    requires ask1(MatchPrompt(profile, notes, airline, price)) == Ok(JsonFence + body + Fence)
    requires ask2(MatchPrompt(profile, notes, airline, price)) == Ok(body)
    ensures Evaluate(Success(price, airline, link), profile, notes, Model(ask1), render, parse) ==
            Evaluate(Success(price, airline, link), profile, notes, Model(ask2), render, parse)
  {
    JsonFencedReply(body);
    PlainReplyUnchanged(body);
  }
}
