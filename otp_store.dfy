/** The table of the handler, keyed by `contact`, and the two operations that
    write it: `handle_send_otp`, which stores a fresh one-time code and texts
    it, and `handle_verify_otp`, which replaces a matching code by the search
    the user asked for. A contact holds one record at a time, so a new code
    replaces an active search and a verified search replaces its code. */
module OtpStore {
  import opened Text
  import opened PyValues
  import opened Responses
  import opened Notify
  import opened FlightClient
  import opened DealEvaluator

  /** Seconds a code stays in the table. */
  const OtpLifetime: int := 300
  /** Seconds a verified search stays in the table: seven days. */
  const SearchLifetime: int := 86400 * 7

  /** The failure the table raises for a key that is not a non-empty string. */
  const KeyRejected: string := "ValidationException: invalid key attribute 'contact'"

  const DefaultStops: string := "direct,1stop,2stops"

  /** The table key a request's `contact` gives: only a non-empty string is a
      key; anything else (missing, `null`, a number, "") makes the table raise. */
  function TableKey(contact: Value): (r: Outcome<string>)
    ensures r.Returned? <==> contact.Str? && contact.s != ""
    ensures r.Returned? ==> contact == Str(r.value)
    ensures r.Raised? ==> r.error == Failure(KeyRejected)
  {
    match contact
    case Str(c) => if c != "" then Returned(c) else Raised(Failure(KeyRejected))
    case _ => Raised(Failure(KeyRejected))
  }

  /** The record of a pending code issued at clock reading `now`. */
  function OtpRecord(contact: string, code: string, now: int): Item {
    map["contact" := Str(contact), "otp" := Str(code), "ttl" := Int(now + OtpLifetime)]
  }

  /** The text sent to the user's phone. */
  function OtpText(code: string): string {
    "Your Flight Hunter verification code is: " + code
  }

  /** The search record a verified request becomes, from the request body and
      the two clock readings (`timestamp`, then `ttl`). */
  function SearchRecord(contact: string, body: Item, t1: int, t2: int): Item {
    map[
      "contact" := Str(contact),
      "username" := GetDefault(body, "username", Str("Guest")),
      "src" := Get(body, "originSkyId"),
      "dst" := Get(body, "destinationSkyId"),
      "date" := Get(body, "departureDate"),
      "return" := Get(body, "returnDate"),
      "adults" := GetDefault(body, "adults", Int(1)),
      "children" := GetDefault(body, "children", Int(0)),
      "infants" := GetDefault(body, "infants", Int(0)),
      "cabinClass" := GetDefault(body, "cabinClass", Str("economy")),
      "stops" := GetDefault(body, "stops", Str(DefaultStops)),
      "notes" := GetDefault(body, "notes", Str("")),
      "timestamp" := Int(t1),
      "ttl" := Int(t2 + SearchLifetime)
    ]
  }

  /** The acceptance test as the handler writes it: a record exists and the
      `str()` of its `otp` (of `None` when it has none) equals the `str()` of
      the code given (of `None` when the body has none). */
  predicate OtpMatchesAsWritten(stored: Option<Item>, userOtp: Value) {
    stored.Some? && stored.value != map[] && Show(Get(stored.value, "otp")) == Show(userOtp)
  }

  /** Which acceptance test verification applies: the one the handler ships
      or the corrected one. */
  datatype OtpCheck = AsWritten | Corrected

  /** The acceptance test `check` names. */
  predicate Accepts(check: OtpCheck, stored: Option<Item>, userOtp: Value) {
    match check
    case AsWritten => OtpMatchesAsWritten(stored, userOtp)
    case Corrected => OtpMatches(stored, userOtp)
  }

  /** The acceptance test the handler means: a pending code exists for the
      contact and the code given reads the same. It never accepts what the
      written test refuses, and on a record holding a code the two agree. */
  predicate OtpMatches(stored: Option<Item>, userOtp: Value): (ok: bool)
    ensures ok ==> OtpMatchesAsWritten(stored, userOtp)
    ensures stored.Some? && "otp" in stored.value ==> (ok <==> OtpMatchesAsWritten(stored, userOtp))
  {
    stored.Some? && "otp" in stored.value && Show(stored.value["otp"]) == Show(userOtp)
  }

  /** As written, a contact whose search is already active passes the check
      with no code at all, or with the text "None", so anyone who knows the
      contact can replace its search. */
  lemma ActiveSearchAcceptsNoCode(contact: string, body: Item, t1: int, t2: int)
    ensures OtpMatchesAsWritten(Some(SearchRecord(contact, body, t1, t2)), Null)
    ensures OtpMatchesAsWritten(Some(SearchRecord(contact, body, t1, t2)), Str("None"))
    ensures !OtpMatches(Some(SearchRecord(contact, body, t1, t2)), Null)
  {
    assert "contact" in SearchRecord(contact, body, t1, t2);
  }

  /** With the correction, an active search accepts no code at all. */
  lemma ActiveSearchAcceptsNothing(contact: string, body: Item, t1: int, t2: int, userOtp: Value)
    ensures !OtpMatches(Some(SearchRecord(contact, body, t1, t2)), userOtp)
  {
  }

  /** With the correction, a pending code accepts exactly the issued code,
      given as a string or as a JSON number. */
  lemma PendingCodeAcceptsIssued(contact: string, otp: int, now: int, userOtp: Value)
    ensures OtpMatches(Some(OtpRecord(contact, IntToString(otp), now)), userOtp) <==>
            Show(userOtp) == IntToString(otp)
    ensures OtpMatches(Some(OtpRecord(contact, IntToString(otp), now)), Int(otp))
    ensures OtpMatches(Some(OtpRecord(contact, IntToString(otp), now)), Str(IntToString(otp)))
  {
  }

  /** On the records the handler writes as pending codes the two tests agree:
      the correction changes nothing but the active-search case. */
  lemma MatchesAgreeOnPendingCodes(contact: string, code: string, now: int, userOtp: Value)
    ensures OtpMatchesAsWritten(Some(OtpRecord(contact, code, now)), userOtp) <==>
            OtpMatches(Some(OtpRecord(contact, code, now)), userOtp)
  {
    assert "contact" in OtpRecord(contact, code, now);
  }

  /** Neither test reads a record's `ttl` (every record the handler writes
      has one): a code is refused as expired only once the table itself has
      dropped it. */
  lemma ExpiryNotChecked(stored: Item, ttl: Value, userOtp: Value)
    requires "ttl" in stored
    ensures OtpMatches(Some(stored["ttl" := ttl]), userOtp) <==> OtpMatches(Some(stored), userOtp)
    ensures OtpMatchesAsWritten(Some(stored["ttl" := ttl]), userOtp) <==>
            OtpMatchesAsWritten(Some(stored), userOtp)
  {
    assert stored != map[] && stored["ttl" := ttl] != map[];
  }

  /** A verified search keeps the request's route and dates, is stamped with
      the first clock reading, expires seven days after the second and holds
      no code. */
  lemma SearchRecordKeeps(contact: string, body: Item, t1: int, t2: int)
    ensures var item := SearchRecord(contact, body, t1, t2);
            item["contact"] == Str(contact) &&
            item["src"] == Get(body, "originSkyId") && item["dst"] == Get(body, "destinationSkyId") &&
            item["date"] == Get(body, "departureDate") && item["return"] == Get(body, "returnDate") &&
            item["timestamp"] == Int(t1) && item["ttl"] == Int(t2 + 604800) &&
            "otp" !in item
  {
  }

  /** What the request leaves out of a verified search takes the documented
      defaults. */
  lemma SearchRecordDefaults(contact: string, body: Item, t1: int, t2: int)
    ensures var item := SearchRecord(contact, body, t1, t2);
            ("username" !in body ==> item["username"] == Str("Guest")) &&
            ("adults" !in body ==> item["adults"] == Int(1)) &&
            ("children" !in body ==> item["children"] == Int(0)) &&
            ("infants" !in body ==> item["infants"] == Int(0)) &&
            ("cabinClass" !in body ==> item["cabinClass"] == Str("economy")) &&
            ("stops" !in body ==> item["stops"] == Str("direct,1stop,2stops")) &&
            ("notes" !in body ==> item["notes"] == Str(""))
  {
  }

  /** The provider query of a verified search is the one the request asked
      for, with the same defaults for what it left out. */
  lemma SearchRecordQuery(contact: string, body: Item, t1: int, t2: int)
    ensures BuildQuery(SearchRecord(contact, body, t1, t2)) ==
            Query(Get(body, "originSkyId"), Get(body, "destinationSkyId"),
                  Get(body, "departureDate"), Get(body, "returnDate"),
                  GetDefault(body, "adults", Int(1)), GetDefault(body, "children", Int(0)),
                  GetDefault(body, "infants", Int(0)), GetDefault(body, "cabinClass", Str("economy")),
                  "USD", "en-US", "US")
  {
  }

  /** Evaluating a verified search never raises, whatever the result and the
      model; a pending code, which has no route, raises `KeyError('src')`
      as soon as a model is configured. */
  lemma RecordsUnderEvaluation(contact: string, body: Item, t1: int, t2: int, code: string, now: int,
                               result: FlightResult, notes: Value, judge: Judge,
                               render: FlightResult -> string, parse: string -> Option<Verdict>)
    ensures Evaluate(result, SearchRecord(contact, body, t1, t2), notes, judge, render, parse).Returned?
    ensures judge.Model? ==>
              Evaluate(result, OtpRecord(contact, code, now), notes, judge, render, parse) ==
              Raised(KeyError("src"))
  {
    var item := SearchRecord(contact, body, t1, t2);
    assert "src" in item && "dst" in item && "date" in item;
    assert "src" !in OtpRecord(contact, code, now);
  }

  /** The table as a map from contact to record. */
  class SearchTable {
    var items: map<string, Item>

    constructor (initial: map<string, Item>)
      ensures items == initial
    {
      items := initial;
    }

    /** `table.get_item(...).get('Item')`. */
    function Lookup(contact: string): (r: Option<Item>)
      reads this
      ensures r.Some? <==> contact in items
      ensures r.Some? ==> r.value == items[contact]
    {
      if contact in items then Some(items[contact]) else None
    }

    /** `handle_send_otp(body, table)` with the drawn code `otp` and the clock
        reading `now`: the contact's record becomes a pending code, whatever
        it held before; the code is texted to the contact, and a refused text
        changes nothing in the answer, which carries the code. A contact that
        is not a key raises before anything is written or sent. */
    method SendOtp(body: Item, otp: int, now: int, sms: Notifier) returns (r: Outcome<Response>)
      requires 100000 <= otp <= 999999
      modifies this, sms
      ensures var key := TableKey(Get(body, "contact"));
              key.Raised? ==>
                r == Raised(key.error) && items == old(items) &&
                sms.attempts == old(sms.attempts) && sms.delivered == old(sms.delivered)
      ensures var key := TableKey(Get(body, "contact"));
              var code := IntToString(otp);
              key.Returned? ==>
                items == old(items)[key.value := OtpRecord(key.value, code, now)] &&
                sms.attempts == old(sms.attempts) + 1 &&
                sms.delivered == (if sms.outage(old(sms.attempts)).None?
                                  then old(sms.delivered) + [ToPhone(key.value, OtpText(code))]
                                  else old(sms.delivered)) &&
                r == Returned(Response(200, OtpSent("OTP Sent", code)))
      ensures var key := TableKey(Get(body, "contact"));
              key.Returned? ==>
                Lookup(key.value) == Some(OtpRecord(key.value, IntToString(otp), now)) &&
                forall other :: other != key.value ==> Lookup(other) == old(Lookup(other))
    {
      var code := IntToString(otp);
      var key := TableKey(Get(body, "contact"));
      if key.Raised? {
        return Raised(key.error);
      }
      var contact := key.value;
      items := items[contact := OtpRecord(contact, code, now)];
      var err := sms.Publish(ToPhone(contact, OtpText(code)));
      // A refused text is only logged.
      r := Returned(Response(200, OtpSent("OTP Sent", code)));
    }

    /** `handle_verify_otp(body, table)` with the clock readings `t1` and `t2`,
        under the acceptance test `check` (`AsWritten` is the handler as it
        ships): a contact whose record the test refuses gets 403 and the table
        is left alone; otherwise its record becomes the search the body
        describes. A contact that is not a key raises. */
    method VerifyOtp(body: Item, t1: int, t2: int, check: OtpCheck) returns (r: Outcome<Response>)
      modifies this
      ensures var key := TableKey(Get(body, "contact"));
              key.Raised? ==> r == Raised(key.error) && items == old(items)
      ensures var key := TableKey(Get(body, "contact"));
              key.Returned? && !Accepts(check, old(Lookup(key.value)), Get(body, "otp")) ==>
                r == Returned(Response(403, Message("Invalid or expired OTP."))) && items == old(items)
      ensures var key := TableKey(Get(body, "contact"));
              key.Returned? && Accepts(check, old(Lookup(key.value)), Get(body, "otp")) ==>
                r == Returned(Response(200, Message("Verified! Search active."))) &&
                items == old(items)[key.value := SearchRecord(key.value, body, t1, t2)] &&
                Lookup(key.value) == Some(SearchRecord(key.value, body, t1, t2)) &&
                forall other :: other != key.value ==> Lookup(other) == old(Lookup(other))
    {
      var key := TableKey(Get(body, "contact"));
      if key.Raised? {
        return Raised(key.error);
      }
      var contact := key.value;
      var stored := Lookup(contact);
      if !Accepts(check, stored, Get(body, "otp")) {
        return Returned(Response(403, Message("Invalid or expired OTP.")));
      }
      items := items[contact := SearchRecord(contact, body, t1, t2)];
      r := Returned(Response(200, Message("Verified! Search active.")));
    }
  }
}
