/** `handle_polling`: one sweep over the scanned search records, each getting
    one provider call and one evaluation, with an alert published to the topic
    whenever the evaluation says to send. Nothing isolates one record's
    failure from the rest of the sweep. */
module Polling {
  import opened PyValues
  import opened Responses
  import opened FlightClient
  import opened DealEvaluator
  import opened Notify

  const AlertSubject: string := "Flight Hunter Alert"

  /** The answer of a sweep that ran to the end. */
  const PollCompleted: Response := Response(200, PollStatus("Batch polling completed"))

  /** The collaborators of a sweep that the handler does not own: the
      provider, the language model, `str()` of a result dict and the reader
      of the model's JSON reply. */
  datatype Oracles = Oracles(
    api: Query -> HttpOutcome, judge: Judge,
    render: FlightResult -> string, parse: string -> Option<Verdict>)

  /** The evaluation of one scanned search, with its notes defaulting to "". */
  function Decide(search: Item, env: Oracles): Outcome<Decision> {
    Evaluate(CallSkyscanner(search, env.api), search, GetDefault(search, "notes", Str("")),
             env.judge, env.render, env.parse)
  }

  /** The per-record evaluation a sweep applies. */
  function Decider(env: Oracles): Item -> Outcome<Decision> {
    search => Decide(search, env)
  }

  /** What a sweep did: the alerts delivered in order, the publish calls made,
      and the exception that ended it early, if any. */
  datatype SweepResult = SweepResult(sent: seq<Sms>, attempts: nat, abort: Option<Exc>)

  /** The sweep over `searches` when the notifier has already taken `k` calls:
      each search is decided in turn; an exception ends the sweep; an alert
      to send is published, and a refused publish ends the sweep too. */
  function Sweep(searches: seq<Item>, decide: Item -> Outcome<Decision>, topic: string,
                 outage: nat -> Option<string>, k: nat): SweepResult
    decreases |searches|
  {
    if searches == [] then SweepResult([], 0, None)
    else
      match decide(searches[0])
      case Raised(e) => SweepResult([], 0, Some(e))
      case Returned(d) =>
        if !d.shouldSend then Sweep(searches[1..], decide, topic, outage, k)
        else if outage(k).Some? then SweepResult([], 1, Some(Failure(outage(k).value)))
        else
          var rest := Sweep(searches[1..], decide, topic, outage, k + 1);
          SweepResult([ToTopic(topic, AlertSubject, d.message)] + rest.sent, rest.attempts + 1, rest.abort)
  }

  /** Every delivered alert goes to the topic under the fixed subject, and a
      call is made for every delivered alert plus, at most, the refused one
      that ended the sweep. */
  lemma {:induction false} SweepShape(searches: seq<Item>, decide: Item -> Outcome<Decision>, topic: string,
                                      outage: nat -> Option<string>, k: nat)
    ensures var r := Sweep(searches, decide, topic, outage, k);
            forall i :: 0 <= i < |r.sent| ==> r.sent[i] == ToTopic(topic, AlertSubject, r.sent[i].message)
    ensures var r := Sweep(searches, decide, topic, outage, k);
            r.attempts == |r.sent| || (r.attempts == |r.sent| + 1 && r.abort.Some?)
    decreases |searches|
  {
    if searches != [] && decide(searches[0]).Returned? {
      var d := decide(searches[0]).value;
      if !d.shouldSend {
        SweepShape(searches[1..], decide, topic, outage, k);
      } else if outage(k).None? {
        SweepShape(searches[1..], decide, topic, outage, k + 1);
      }
    }
  }

  /** `handle_polling(table)` over the records the scan returned, in scan
      order, where `decide` is the evaluation each record gets (for the
      handler, `Decider(env)`: one provider call, then one evaluation with the
      record's notes). The notifier receives exactly the sweep's alerts and
      calls, and the result is the 200 response, or the exception that ended
      the sweep. */
  method HandlePolling(searches: seq<Item>, decide: Item -> Outcome<Decision>, topic: string, sns: Notifier)
    returns (r: Outcome<Response>)
    modifies sns
    ensures var sw := Sweep(searches, decide, topic, sns.outage, old(sns.attempts));
            sns.delivered == old(sns.delivered) + sw.sent &&
            sns.attempts == old(sns.attempts) + sw.attempts &&
            r == (if sw.abort.None? then Returned(PollCompleted) else Raised(sw.abort.value))
  {
    ghost var k0 := sns.attempts;
    ghost var outage := sns.outage;
    ghost var total := Sweep(searches, decide, topic, outage, k0);
    ghost var sent: seq<Sms> := [];
    ghost var calls: nat := 0;
    var i := 0;
    assert searches[i..] == searches;
    assert total.sent == sent + total.sent;
    while i < |searches|
      invariant 0 <= i <= |searches|
      invariant sns.attempts == k0 + calls
      invariant sns.delivered == old(sns.delivered) + sent
      invariant total == Resume(sent, calls, Sweep(searches[i..], decide, topic, outage, sns.attempts))
    {
      ghost var k := sns.attempts;
      ghost var step := Step(searches[i], decide, topic, outage, k);
      var abort := PollOne(searches[i], decide, topic, sns);
      if abort.Some? {
        SweepStops(searches, i, decide, topic, outage, k);
        return Raised(abort.value);
      }
      SweepNext(sent, calls, searches, i, decide, topic, outage, k);
      sent := sent + step.sent;
      calls := calls + step.attempts;
      i := i + 1;
    }
    assert searches[i..] == [];
    assert sent + [] == sent;
    return Returned(PollCompleted);
  }

  /** A sweep that has delivered `sent` in `calls` calls and goes on as `rest`. */
  function Resume(sent: seq<Sms>, calls: nat, rest: SweepResult): SweepResult {
    SweepResult(sent + rest.sent, calls + rest.attempts, rest.abort)
  }

  /** The body of the sweep's loop for one record: its evaluation, and the
      publish when the evaluation says to send. It does what sweeping that one
      record does. */
  method PollOne(search: Item, decide: Item -> Outcome<Decision>, topic: string, sns: Notifier)
    returns (abort: Option<Exc>)
    modifies sns
    ensures var step := Step(search, decide, topic, sns.outage, old(sns.attempts));
            abort == step.abort &&
            sns.delivered == old(sns.delivered) + step.sent &&
            sns.attempts == old(sns.attempts) + step.attempts
  {
    var evaluation := decide(search);
    if evaluation.Raised? {
      return Some(evaluation.error);
    }
    var decision := evaluation.value;
    if decision.shouldSend {
      var alert := ToTopic(topic, AlertSubject, decision.message);
      var err := sns.Publish(alert);
      if err.Some? {
        return Some(Failure(err.value));
      }
      assert [alert] + [] == [alert];
    }
    return None;
  }

  /** Sweeping one record: its evaluation, and the publish when it says to send. */
  function Step(search: Item, decide: Item -> Outcome<Decision>, topic: string,
                outage: nat -> Option<string>, k: nat): SweepResult
  {
    match decide(search)
    case Raised(e) => SweepResult([], 0, Some(e))
    case Returned(d) =>
      if !d.shouldSend then SweepResult([], 0, None)
      else if outage(k).Some? then SweepResult([], 1, Some(Failure(outage(k).value)))
      else SweepResult([ToTopic(topic, AlertSubject, d.message)], 1, None)
  }

  /** `Step` is the sweep of a one-record list. */
  lemma StepIsSweep(search: Item, decide: Item -> Outcome<Decision>, topic: string,
                    outage: nat -> Option<string>, k: nat)
    ensures Step(search, decide, topic, outage, k) == Sweep([search], decide, topic, outage, k)
  {
    assert [search][1..] == [];
    if decide(search).Returned? && decide(search).value.shouldSend && outage(k).None? {
      assert [ToTopic(topic, AlertSubject, decide(search).value.message)] + [] ==
             [ToTopic(topic, AlertSubject, decide(search).value.message)];
    }
  }

  /** The loop's step: a record that does not end the sweep hands the rest
      of the sweep to the records after it. */
  lemma SweepNext(sent: seq<Sms>, calls: nat, searches: seq<Item>, i: nat, decide: Item -> Outcome<Decision>,
                  topic: string, outage: nat -> Option<string>, k: nat)
    requires i < |searches|
    requires Step(searches[i], decide, topic, outage, k).abort.None?
    ensures var step := Step(searches[i], decide, topic, outage, k);
            Resume(sent, calls, Sweep(searches[i..], decide, topic, outage, k)) ==
            Resume(sent + step.sent, calls + step.attempts,
                   Sweep(searches[i + 1..], decide, topic, outage, k + step.attempts))
  {
    StepIsSweep(searches[i], decide, topic, outage, k);
    var step := Step(searches[i], decide, topic, outage, k);
    var rest := Sweep(searches[i + 1..], decide, topic, outage, k + step.attempts);
    assert searches[i..] == [searches[i]] + searches[i + 1..];
    SweepAppend([searches[i]], searches[i + 1..], decide, topic, outage, k);
    ResumeStep(sent, calls, step, rest);
  }

  /** The loop's exit: a record that ends the sweep ends it for the records
      after it too. */
  lemma SweepStops(searches: seq<Item>, i: nat, decide: Item -> Outcome<Decision>,
                   topic: string, outage: nat -> Option<string>, k: nat)
    requires i < |searches|
    requires Step(searches[i], decide, topic, outage, k).abort.Some?
    ensures Sweep(searches[i..], decide, topic, outage, k) == Step(searches[i], decide, topic, outage, k)
  {
    StepIsSweep(searches[i], decide, topic, outage, k);
    assert searches[i..] == [searches[i]] + searches[i + 1..];
    SweepAppend([searches[i]], searches[i + 1..], decide, topic, outage, k);
  }

  /** Resuming after a step is resuming with that step's alerts and calls added. */
  lemma ResumeStep(sent: seq<Sms>, calls: nat, step: SweepResult, rest: SweepResult)
    ensures Resume(sent, calls, SweepResult(step.sent + rest.sent, step.attempts + rest.attempts, rest.abort)) ==
            Resume(sent + step.sent, calls + step.attempts, rest)
  {
    assert sent + (step.sent + rest.sent) == (sent + step.sent) + rest.sent;
  }

  /** Only a deal is ever filtered out, so reading the result's price to log
      the filtering cannot raise. */
  lemma FilteredOnlyDeals(search: Item, env: Oracles)
    requires Decide(search, env).Returned? && !Decide(search, env).value.shouldSend
    ensures CallSkyscanner(search, env.api).Success?
  {
  }

  /** Sweeping `a + b` is sweeping `a` and, unless that ended early, then
      sweeping `b` with the calls `a` took already counted. */
  lemma {:induction false} SweepAppend(a: seq<Item>, b: seq<Item>, decide: Item -> Outcome<Decision>, topic: string,
                                        outage: nat -> Option<string>, k: nat)
    ensures Sweep(a, decide, topic, outage, k).abort.Some? ==>
              Sweep(a + b, decide, topic, outage, k) == Sweep(a, decide, topic, outage, k)
    ensures var sa := Sweep(a, decide, topic, outage, k);
            var sb := Sweep(b, decide, topic, outage, k + sa.attempts);
            sa.abort.None? ==>
              Sweep(a + b, decide, topic, outage, k) ==
              SweepResult(sa.sent + sb.sent, sa.attempts + sb.attempts, sb.abort)
    decreases |a|
  {
    if a == [] {
      SweepAppendNothing(a, b, decide, topic, outage, k);
    } else {
      assert (a + b)[0] == a[0];
      assert (a + b)[1..] == a[1..] + b;
      var o := decide(a[0]);
      if o.Returned? && !o.value.shouldSend {
        SweepAppend(a[1..], b, decide, topic, outage, k);
      } else if o.Returned? && outage(k).None? {
        SweepAppend(a[1..], b, decide, topic, outage, k + 1);
        SweepAppendSend(a, b, decide, topic, outage, k);
      }
    }
  }

  lemma SweepAppendNothing(a: seq<Item>, b: seq<Item>, decide: Item -> Outcome<Decision>, topic: string,
                            outage: nat -> Option<string>, k: nat)
    requires a == []
    ensures var sa := Sweep(a, decide, topic, outage, k);
            var sb := Sweep(b, decide, topic, outage, k + sa.attempts);
            sa.abort.None? &&
            Sweep(a + b, decide, topic, outage, k) ==
            SweepResult(sa.sent + sb.sent, sa.attempts + sb.attempts, sb.abort)
  {
    assert a + b == b;
    var sb := Sweep(b, decide, topic, outage, k);
    assert [] + sb.sent == sb.sent;
  }

  /** The step of `SweepAppend` for a leading search whose alert goes out. */
  lemma SweepAppendSend(a: seq<Item>, b: seq<Item>, decide: Item -> Outcome<Decision>, topic: string,
                        outage: nat -> Option<string>, k: nat)
    requires a != [] && decide(a[0]).Returned? && decide(a[0]).value.shouldSend && outage(k).None?
    requires (a + b)[1..] == a[1..] + b && (a + b)[0] == a[0]
    requires var sa := Sweep(a[1..], decide, topic, outage, k + 1);
             var sb := Sweep(b, decide, topic, outage, k + 1 + sa.attempts);
             Sweep(a[1..] + b, decide, topic, outage, k + 1) ==
               if sa.abort.Some? then sa else SweepResult(sa.sent + sb.sent, sa.attempts + sb.attempts, sb.abort)
    ensures Sweep(a, decide, topic, outage, k).abort.Some? ==>
              Sweep(a + b, decide, topic, outage, k) == Sweep(a, decide, topic, outage, k)
    ensures var sa := Sweep(a, decide, topic, outage, k);
            var sb := Sweep(b, decide, topic, outage, k + sa.attempts);
            sa.abort.None? ==>
              Sweep(a + b, decide, topic, outage, k) ==
              SweepResult(sa.sent + sb.sent, sa.attempts + sb.attempts, sb.abort)
  {
    var alert := ToTopic(topic, AlertSubject, decide(a[0]).value.message);
    var sa' := Sweep(a[1..], decide, topic, outage, k + 1);
    assert Sweep(a, decide, topic, outage, k) == SweepResult([alert] + sa'.sent, sa'.attempts + 1, sa'.abort);
    var r' := Sweep(a[1..] + b, decide, topic, outage, k + 1);
    assert Sweep(a + b, decide, topic, outage, k) == SweepResult([alert] + r'.sent, r'.attempts + 1, r'.abort);
    if sa'.abort.None? {
      var sb := Sweep(b, decide, topic, outage, k + 1 + sa'.attempts);
      assert [alert] + (sa'.sent + sb.sent) == ([alert] + sa'.sent) + sb.sent;
    }
  }

  /** The reference behaviour when nothing raises: the messages of exactly
      the searches whose evaluation says to send, in scan order. */
  function AlertsOf(searches: seq<Item>, decide: Item -> Outcome<Decision>): seq<string>
    requires forall i :: 0 <= i < |searches| ==> decide(searches[i]).Returned?
  {
    if searches == [] then []
    else
      var d := decide(searches[0]).value;
      (if d.shouldSend then [d.message] else []) + AlertsOf(searches[1..], decide)
  }

  /** The alerts publishing `msgs` to the topic sends, in order. */
  function Published(topic: string, msgs: seq<string>): (r: seq<Sms>)
    ensures |r| == |msgs|
    ensures forall i :: 0 <= i < |msgs| ==> r[i] == ToTopic(topic, AlertSubject, msgs[i])
  {
    seq(|msgs|, i requires 0 <= i < |msgs| => ToTopic(topic, AlertSubject, msgs[i]))
  }

  lemma PublishedAppend(topic: string, a: seq<string>, b: seq<string>)
    ensures Published(topic, a + b) == Published(topic, a) + Published(topic, b)
  {
    assert forall i :: 0 <= i < |a| ==> (a + b)[i] == a[i];
    assert forall i :: |a| <= i < |a| + |b| ==> (a + b)[i] == b[i - |a|];
  }

  /** When no evaluation raises and the notifier accepts every call, the
      sweep completes and delivers one alert per sending search, in order. */
  lemma {:induction false} SweepDeliversAlerts(searches: seq<Item>, decide: Item -> Outcome<Decision>,
                                               topic: string, outage: nat -> Option<string>, k: nat)
    requires forall i :: 0 <= i < |searches| ==> decide(searches[i]).Returned?
    requires forall n :: outage(n).None?
    ensures var r := Sweep(searches, decide, topic, outage, k);
            r.abort.None? && r.sent == Published(topic, AlertsOf(searches, decide))
  {
    if searches == [] {
      assert Published(topic, []) == [];
    } else {
      assert forall i :: 0 <= i < |searches[1..]| ==> searches[1..][i] == searches[i + 1];
      var d := decide(searches[0]).value;
      var k1 := if d.shouldSend then k + 1 else k;
      SweepDeliversAlerts(searches[1..], decide, topic, outage, k1);
      var head := if d.shouldSend then [d.message] else [];
      var later := AlertsOf(searches[1..], decide);
      assert AlertsOf(searches, decide) == head + later;
      PublishedAppend(topic, head, later);
      assert Sweep(searches, decide, topic, outage, k).sent ==
             Published(topic, head) + Sweep(searches[1..], decide, topic, outage, k1).sent;
    }
  }

  /** A sweep over records that all hold their route and date completes when
      the notifier accepts every call, whatever the provider and the model
      answer, and delivers one alert per sending search, in scan order. */
  lemma RoutedSearchesComplete(searches: seq<Item>, env: Oracles, topic: string,
                               outage: nat -> Option<string>, k: nat)
    requires forall i :: 0 <= i < |searches| ==>
               "src" in searches[i] && "dst" in searches[i] && "date" in searches[i]
    requires forall n :: outage(n).None?
    ensures forall i :: 0 <= i < |searches| ==> Decider(env)(searches[i]).Returned?
    ensures var r := Sweep(searches, Decider(env), topic, outage, k);
            r.abort.None? && r.sent == Published(topic, AlertsOf(searches, Decider(env)))
  {
    forall i | 0 <= i < |searches| ensures Decider(env)(searches[i]).Returned? {
      assert Decider(env)(searches[i]) == Decide(searches[i], env);
    }
    SweepDeliversAlerts(searches, Decider(env), topic, outage, k);
  }

  /** A search the judge filters out contributes nothing, not even a call. */
  lemma FilteredSearchSendsNothing(search: Item, rest: seq<Item>, decide: Item -> Outcome<Decision>,
                                   topic: string, outage: nat -> Option<string>, k: nat)
    requires decide(search).Returned? && !decide(search).value.shouldSend
    ensures Sweep([search] + rest, decide, topic, outage, k) == Sweep(rest, decide, topic, outage, k)
  {
    assert ([search] + rest)[1..] == rest;
  }

  /** A sweep reaching a search whose evaluation raises stops there with that
      exception, after what the searches before it did. */
  lemma SweepStopsAt(before: seq<Item>, failing: Item, after: seq<Item>, decide: Item -> Outcome<Decision>,
                     topic: string, outage: nat -> Option<string>, k: nat)
    requires decide(failing).Raised?
    requires Sweep(before, decide, topic, outage, k).abort.None?
    ensures var sb := Sweep(before, decide, topic, outage, k);
            Sweep(before + [failing] + after, decide, topic, outage, k) ==
              SweepResult(sb.sent, sb.attempts, Some(decide(failing).error))
  {
    var sb := Sweep(before, decide, topic, outage, k);
    SweepAppend(before, [failing] + after, decide, topic, outage, k);
    assert before + [failing] + after == before + ([failing] + after);
    assert ([failing] + after)[0] == failing;
    assert Sweep([failing] + after, decide, topic, outage, k + sb.attempts) ==
           SweepResult([], 0, Some(decide(failing).error));
    assert sb.sent + [] == sb.sent;
  }

  /** With a model configured, a record without `src` raises `KeyError('src')`
      whatever the provider answers. */
  lemma MissingRouteRaises(search: Item, env: Oracles)
    requires env.judge.Model? && "src" !in search
    ensures Decider(env)(search) == Raised(KeyError("src"))
  {
    assert Decider(env)(search) == Decide(search, env);
  }

  /** A record without `src` (a pending code shares the table) ends the sweep
      with `KeyError('src')` as soon as a model is configured, whatever the
      provider answers: the records scanned after it are never handled. */
  lemma RecordWithoutRouteAbortsSweep(before: seq<Item>, pending: Item, after: seq<Item>, env: Oracles,
                                      topic: string, outage: nat -> Option<string>, k: nat)
    requires env.judge.Model? && "src" !in pending
    requires Sweep(before, Decider(env), topic, outage, k).abort.None?
    ensures var sb := Sweep(before, Decider(env), topic, outage, k);
            Sweep(before + [pending] + after, Decider(env), topic, outage, k) ==
              SweepResult(sb.sent, sb.attempts, Some(KeyError("src")))
  {
    MissingRouteRaises(pending, env);
    SweepStopsAt(before, pending, after, Decider(env), topic, outage, k);
  }

  /** A provider exception surfaces as an alert built from "Internal Error: "
      and the exception's message: verbatim when the model's diagnosis fails,
      inside the rendered result when no model is configured. */
  lemma ProviderExceptionSurfaces(search: Item, env: Oracles, m: string)
    requires env.api(BuildQuery(search)) == TransportError(m)
    requires env.judge.Model? ==>
               "src" in search && "dst" in search && "date" in search &&
               env.judge.ask(ExplainPrompt(InternalPrefix + m, search)) == Fail
    ensures Decide(search, env) == Returned(Decision(true,
              if env.judge.Model? then "SYSTEM ERROR: " + (InternalPrefix + m)
              else "Alert: " + env.render(Error(InternalPrefix + m))))
  {
    assert CallSkyscanner(search, env.api) == Error(InternalPrefix + m);
    if env.judge.Model? {
      ErrorPathMessage(InternalPrefix + m, search, GetDefault(search, "notes", Str("")),
                       env.judge.ask, env.render, env.parse);
    }
  }
}
