/** `main_loop`: the entry point. A preflight request is answered at once; a
    request with a body is dispatched on its `action`, with every exception
    of a handler turned into a 500 answer; an event without a body is the
    scheduled sweep, whose exceptions are not caught. */
module Router {
  import opened Text
  import opened PyValues
  import opened Responses
  import opened Notify
  import opened FlightClient
  import opened DealEvaluator
  import opened Polling
  import opened OtpStore

  /** The actions a request body can name. */
  datatype Action = SendCode | ScrapeOne | VerifyCode | AnalyzeRequest | Unknown

  /** The wire name of each known action. */
  function ActionName(a: Action): string
    requires !a.Unknown?
  {
    match a
    case SendCode => "SEND_OTP"
    case ScrapeOne => "SCRAPE_ONE"
    case VerifyCode => "VERIFY_OTP"
    case AnalyzeRequest => "ANALYZE_REQUEST"
  }

  /** The action a body's `action` value names: exactly the four wire names,
      compared as they are, and anything else (missing, another case, not a
      string) is unknown. */
  function ActionOf(v: Value): (a: Action)
    ensures !a.Unknown? ==> v == Str(ActionName(a))
    ensures a.Unknown? ==> forall b :: b != Unknown ==> v != Str(ActionName(b))
  {
    if v == Str("SEND_OTP") then SendCode
    else if v == Str("SCRAPE_ONE") then ScrapeOne
    else if v == Str("VERIFY_OTP") then VerifyCode
    else if v == Str("ANALYZE_REQUEST") then AnalyzeRequest
    else Unknown
  }

  /** Reading back a wire name gives the action. */
  lemma ActionNameRoundTrip(a: Action)
    requires !a.Unknown?
    ensures ActionOf(Str(ActionName(a))) == a
  {
  }

  /** Where an event goes. `Malformed` is a body `json.loads` refused (or that
      is not an object), with the exception it raised. */
  datatype Route = Preflight | Poll | Malformed(error: Exc) | Dispatch(body: Item, action: Action)

  /** The routing of `main_loop`, with `parseBody` for `json.loads` of the
      body. Preflight comes first, whatever else the event holds; then the
      presence of a body decides between a request and the sweep. */
  function RouteOf(event: Item, parseBody: Value -> Outcome<Item>): (r: Route)
    ensures r.Preflight? <==> Get(event, "httpMethod") == Str("OPTIONS")
    ensures r.Poll? <==> Get(event, "httpMethod") != Str("OPTIONS") && "body" !in event
    ensures r.Malformed? ==> "body" in event && parseBody(event["body"]) == Raised(r.error)
    ensures r.Dispatch? ==>
              "body" in event && parseBody(event["body"]) == Returned(r.body) &&
              r.action == ActionOf(Get(r.body, "action"))
  {
    if Get(event, "httpMethod") == Str("OPTIONS") then Preflight
    else if "body" in event then
      match parseBody(event["body"])
      case Raised(e) => Malformed(e)
      case Returned(body) => Dispatch(body, ActionOf(Get(body, "action")))
    else Poll
  }

  /** An OPTIONS request is answered as a preflight even when it has a body. */
  lemma PreflightBeforeBody(event: Item, parseBody: Value -> Outcome<Item>)
    requires Get(event, "httpMethod") == Str("OPTIONS") && "body" in event
    ensures RouteOf(event, parseBody) == Preflight
  {
  }

  /** A body naming the action in another case is not dispatched. */
  lemma ActionCaseMatters(event: Item, parseBody: Value -> Outcome<Item>, body: Item)
    requires Get(event, "httpMethod") != Str("OPTIONS") && "body" in event
    requires parseBody(event["body"]) == Returned(body) && Get(body, "action") == Str("send_otp")
    ensures RouteOf(event, parseBody) == Dispatch(body, Unknown)
  {
  }

  /** The answer to an exception a request handler raised. */
  function ServerError(e: Exc): Response {
    Response(500, Message(ExcText(e)))
  }

  const AnalyzeMissing: Exc := NameError("analyze_flight_request")

  /** The ANALYZE_REQUEST action calls a function defined nowhere, so its
      answer is always the same 500. */
  lemma AnalyzeAlwaysFails()
    ensures ServerError(AnalyzeMissing) ==
            Response(500, Message("name 'analyze_flight_request' is not defined"))
  {
    var head := "name '" + "analyze_flight_request";
    assert head == "name 'analyze_flight_request";
    assert ExcText(AnalyzeMissing) == head + "' is not defined";
    assert head + "' is not defined" == "name 'analyze_flight_request' is not defined";
  }

  /** A contact waiting for its code shares the table with the searches:
      with a model configured, a sweep that reaches it stops there with
      `KeyError('src')`, leaving the searches scanned after it unhandled. */
  lemma PendingCodeAbortsSweep(before: seq<Item>, contact: string, code: string, now: int, after: seq<Item>,
                               env: Oracles, topic: string, outage: nat -> Option<string>, k: nat)
    requires env.judge.Model?
    requires Sweep(before, Decider(env), topic, outage, k).abort.None?
    ensures var sb := Sweep(before, Decider(env), topic, outage, k);
            Sweep(before + [OtpRecord(contact, code, now)] + after, Decider(env), topic, outage, k) ==
              SweepResult(sb.sent, sb.attempts, Some(KeyError("src")))
  {
    assert "src" !in OtpRecord(contact, code, now);
    RecordWithoutRouteAbortsSweep(before, OtpRecord(contact, code, now), after, env, topic, outage, k);
  }

  /** The records `table.scan()` returns, in the order it returns them. */
  function Scanned(items: map<string, Item>, order: seq<string>): (r: seq<Item>)
    requires forall i :: 0 <= i < |order| ==> order[i] in items
    ensures |r| == |order|
    ensures forall i :: 0 <= i < |order| ==> r[i] == items[order[i]]
  {
    seq(|order|, i requires 0 <= i < |order| => items[order[i]])
  }

  /** `order` is an order of the scan: it lists every key of the table, and
      each key once. */
  predicate Enumerates(order: seq<string>, items: map<string, Item>) {
    (forall i :: 0 <= i < |order| ==> order[i] in items) &&
    (forall key :: key in items ==> key in order) &&
    (forall i, j :: 0 <= i < j < |order| ==> order[i] != order[j])
  }

  /** A list without repetitions has as many distinct elements as entries. */
  lemma {:induction false} DistinctCount(s: seq<string>)
    requires forall i, j :: 0 <= i < j < |s| ==> s[i] != s[j]
    ensures |set k | k in s| == |s|
  {
    if s != [] {
      var rest := s[1..];
      assert forall i, j :: 0 <= i < j < |rest| ==> rest[i] == s[i + 1] && rest[j] == s[j + 1];
      DistinctCount(rest);
      assert (set k | k in s) == {s[0]} + (set k | k in rest);
      assert s[0] !in (set k | k in rest);
    }
  }

  /** The scan hands each record of the table to the sweep exactly once: it
      yields as many records as the table holds, each under its own key. */
  lemma ScannedCoversTable(items: map<string, Item>, order: seq<string>)
    requires Enumerates(order, items)
    ensures |Scanned(items, order)| == |items|
    ensures forall key :: key in items ==>
              exists i :: 0 <= i < |order| && order[i] == key && Scanned(items, order)[i] == items[key]
  {
    DistinctCount(order);
    assert items.Keys == set k | k in order;
  }

  /** `main_loop(event)`. The request body reader, the scraper, the drawn
      code and the clock readings are inputs; `order` is the order in which
      the scan returns the table's records; the provider and the model are
      those of `env`. */
  method Handle(event: Item, parseBody: Value -> Outcome<Item>, scrape: Value -> Outcome<Value>,
                otp: int, t1: int, t2: int, order: seq<string>, env: Oracles, topic: string,
                check: OtpCheck, table: SearchTable, sns: Notifier)
    returns (r: Outcome<Response>)
    requires 100000 <= otp <= 999999
    requires Enumerates(order, table.items)
    modifies table, sns
    ensures var route := RouteOf(event, parseBody);
            !route.Poll? ==> r.Returned?
    ensures var route := RouteOf(event, parseBody);
            route.Preflight? || route.Malformed? || (route.Dispatch? && route.action != SendCode) ==>
              sns.attempts == old(sns.attempts) && sns.delivered == old(sns.delivered)
    ensures var route := RouteOf(event, parseBody);
            route.Preflight? || route.Malformed? || route.Poll? ||
            (route.Dispatch? && route.action != SendCode && route.action != VerifyCode) ==>
              table.items == old(table.items)
    ensures var route := RouteOf(event, parseBody);
            route.Preflight? ==> r == Returned(Response(200, Message("CORS OK")))
    ensures var route := RouteOf(event, parseBody);
            route.Malformed? ==> r == Returned(ServerError(route.error))
    ensures var route := RouteOf(event, parseBody);
            route.Dispatch? && route.action == Unknown ==>
              r == Returned(Response(400, Message("Invalid action")))
    ensures var route := RouteOf(event, parseBody);
            route.Dispatch? && route.action == AnalyzeRequest ==>
              r == Returned(ServerError(AnalyzeMissing))
    ensures var route := RouteOf(event, parseBody);
            route.Dispatch? && route.action == ScrapeOne ==>
              var scraped := scrape(Get(route.body, "url"));
              r == Returned(if scraped.Raised? then ServerError(scraped.error)
                            else Response(200, Scraped(scraped.value)))
    ensures var route := RouteOf(event, parseBody);
            route.Dispatch? && (route.action == SendCode || route.action == VerifyCode) &&
            TableKey(Get(route.body, "contact")).Raised? ==>
              r == Returned(ServerError(Failure(KeyRejected))) && table.items == old(table.items) &&
              sns.attempts == old(sns.attempts) && sns.delivered == old(sns.delivered)
    ensures var route := RouteOf(event, parseBody);
            route.Dispatch? && route.action == SendCode && TableKey(Get(route.body, "contact")).Returned? ==>
              var key := TableKey(Get(route.body, "contact"));
              var code := IntToString(otp);
              r == Returned(Response(200, OtpSent("OTP Sent", code))) &&
              table.items == old(table.items)[key.value := OtpRecord(key.value, code, t1)] &&
              sns.attempts == old(sns.attempts) + 1 &&
              sns.delivered == (if sns.outage(old(sns.attempts)).None?
                                then old(sns.delivered) + [ToPhone(key.value, OtpText(code))]
                                else old(sns.delivered))
    ensures var route := RouteOf(event, parseBody);
            route.Dispatch? && route.action == VerifyCode && TableKey(Get(route.body, "contact")).Returned? ==>
              var key := TableKey(Get(route.body, "contact"));
              if Accepts(check, old(table.Lookup(key.value)), Get(route.body, "otp"))
              then r == Returned(Response(200, Message("Verified! Search active."))) &&
                   table.items == old(table.items)[key.value := SearchRecord(key.value, route.body, t1, t2)]
              else r == Returned(Response(403, Message("Invalid or expired OTP."))) &&
                   table.items == old(table.items)
    ensures var route := RouteOf(event, parseBody);
            var sw := Sweep(Scanned(old(table.items), order), Decider(env), topic, sns.outage, old(sns.attempts));
            route.Poll? ==>
              sns.delivered == old(sns.delivered) + sw.sent &&
              sns.attempts == old(sns.attempts) + sw.attempts &&
              r == (if sw.abort.None? then Returned(PollCompleted)
                    else Raised(sw.abort.value))
  {
    var route := RouteOf(event, parseBody);
    match route
    case Preflight =>
      r := Returned(Response(200, Message("CORS OK")));
    case Malformed(e) =>
      r := Returned(ServerError(e));
    case Poll =>
      var searches := Scanned(table.items, order);
      r := HandlePolling(searches, Decider(env), topic, sns);
    case Dispatch(body, action) =>
      var handled: Outcome<Response>;
      match action {
      case SendCode =>
        handled := table.SendOtp(body, otp, t1, sns);
      case ScrapeOne =>
        var scraped := scrape(Get(body, "url"));
        handled := if scraped.Raised? then Raised(scraped.error) else Returned(Response(200, Scraped(scraped.value)));
      case VerifyCode =>
        handled := table.VerifyOtp(body, t1, t2, check);
      case AnalyzeRequest =>
        handled := Raised(AnalyzeMissing);
      case Unknown =>
        handled := Returned(Response(400, Message("Invalid action")));
      }
      r := if handled.Raised? then Returned(ServerError(handled.error)) else handled;
  }
}
