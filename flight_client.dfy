/** The call to the flight-search provider (`call_skyscanner`): the query
    string built from a stored search, and the normalisation of whatever the
    HTTP call produced into one canonical result, a deal or an error text. */
module FlightClient {
  import opened Text
  import opened PyValues

  /** The query string of the round-trip search endpoint. */
  datatype Query = Query(
    originSkyId: Value, destinationSkyId: Value, departureDate: Value, returnDate: Value,
    adults: Value, children: Value, infants: Value, cabinClass: Value,
    currency: string, locale: string, market: string)

  /** The query for a stored search: the record's route and dates as stored
      (`None` when absent), passenger counts and cabin defaulting to one adult,
      no children, no infants and economy, and fixed US market constants. */
  function BuildQuery(search: Item): (q: Query)
    ensures q.currency == "USD" && q.locale == "en-US" && q.market == "US"
    ensures "adults" !in search ==> q.adults == Int(1)
    ensures "children" !in search ==> q.children == Int(0)
    ensures "infants" !in search ==> q.infants == Int(0)
    ensures "cabinClass" !in search ==> q.cabinClass == Str("economy")
  {
    Query(Get(search, "src"), Get(search, "dst"), Get(search, "date"), Get(search, "return"),
          GetDefault(search, "adults", Int(1)), GetDefault(search, "children", Int(0)),
          GetDefault(search, "infants", Int(0)), GetDefault(search, "cabinClass", Str("economy")),
          "USD", "en-US", "US")
  }

  /** `marketing[i]` of a leg's `carriers`; only its `name` is read. */
  datatype Carrier = Carrier(name: Value)
  /** A leg, by its `carriers.marketing` list (empty when either level is absent). */
  datatype Leg = Leg(marketing: seq<Carrier>)
  /** `price.formatted` and `price.raw` (`None` when absent). */
  datatype PriceInfo = PriceInfo(formatted: Value, raw: Value)
  /** One entry of `data.itineraries`, in the provider's order. */
  datatype Itinerary = Itinerary(price: PriceInfo, legs: seq<Leg>)

  /** What the HTTP GET produced: a response with its status, its text and the
      outcome of reading `data.itineraries` from its JSON body (`[]` when a
      level is absent; `Raised` when the body is not JSON or not of that
      shape), or an exception raised by the transport. */
  datatype HttpOutcome =
    | HttpResponse(status: int, text: string, json: Outcome<seq<Itinerary>>)
    | TransportError(message: string)

  /** The canonical result: exactly one of a deal and an error text. */
  datatype FlightResult = Success(price: Value, airline: Value, link: string) | Error(error: string)

  const ZeroFlights: string := "API Success but 0 flights found."
  const InternalPrefix: string := "Internal Error: "

  /** The price of an itinerary: `formatted` when it is truthy, otherwise
      `"$"` followed by the raw price. Either way the price is truthy. */
  function PriceOf(p: PriceInfo): (r: Value)
    ensures Truthy(p.formatted) ==> r == p.formatted
    ensures !Truthy(p.formatted) ==> r == Str("$" + Show(p.raw))
    ensures Truthy(r)
  {
    if Truthy(p.formatted) then p.formatted else Str("$" + Show(p.raw))
  }

  /** The airline of an itinerary: the name of the first marketing carrier of
      its first leg, `"Unknown"` when there is no leg or no such carrier. */
  function AirlineOf(legs: seq<Leg>): (r: Value)
    ensures |legs| == 0 || |legs[0].marketing| == 0 ==> r == Str("Unknown")
    ensures |legs| > 0 && |legs[0].marketing| > 0 ==> r == legs[0].marketing[0].name
  {
    if |legs| > 0 && |legs[0].marketing| > 0 then legs[0].marketing[0].name else Str("Unknown")
  }

  /** Only the first marketing carrier of the first leg names the airline:
      the carriers after it and the legs after the first make no difference. */
  lemma AirlineFirstCarrierOnly(c: Carrier, more1: seq<Carrier>, more2: seq<Carrier>,
                                later1: seq<Leg>, later2: seq<Leg>)
    ensures AirlineOf([Leg([c] + more1)] + later1) == c.name
    ensures AirlineOf([Leg([c] + more1)] + later1) == AirlineOf([Leg([c] + more2)] + later2)
  {
    assert ([Leg([c] + more1)] + later1)[0] == Leg([c] + more1);
    assert ([Leg([c] + more2)] + later2)[0] == Leg([c] + more2);
  }

  /** Why a call did not produce a deal. */
  datatype Cause = NoFlights | HttpError(status: int, text: string) | Internal(message: string)

  /** The cause an outcome fails with, or `None` for an outcome that yields a deal. */
  function CauseOf(o: HttpOutcome): Option<Cause> {
    match o
    case TransportError(m) => Some(Internal(m))
    case HttpResponse(status, text, json) =>
      if status != 200 then Some(HttpError(status, text))
      else if json.Raised? then Some(Internal(ExcText(json.error)))
      else if |json.value| == 0 then Some(NoFlights)
      else None
  }

  /** Reads an error text back into its cause. */
  function Classify(msg: string): Option<Cause> {
    if msg == ZeroFlights then Some(NoFlights)
    else if StartsWith(msg, InternalPrefix) then Some(Internal(msg[|InternalPrefix|..]))
    else if StartsWith(msg, "API ") then ClassifyStatus(msg[4..])
    else None
  }

  /** What follows "API ": the status up to the first colon, then ": " and
      the response body. */
  function ClassifyStatus(rest: string): Option<Cause> {
    var k := IndexOf(rest, ':');
    if IsInteger(rest[..k]) && StartsWith(rest[k..], ": ") then
      Some(HttpError(ParseInt(rest[..k]), rest[k + 2..]))
    else None
  }

  lemma ClassifyStatusOf(status: int, text: string)
    ensures ClassifyStatus(IntToString(status) + (": " + text)) == Some(HttpError(status, text))
  {
    var code := IntToString(status);
    var rest := code + (": " + text);
    IndexOfAfter(code, ": " + text, ':');
    assert IndexOf(rest, ':') == |code|;
    assert rest[..|code|] == code;
    assert rest[|code|..] == ": " + text;
    ParseIntToString(status);
  }

  /** The error text of a non-200 response names its status and its body. */
  lemma ClassifyApiError(status: int, text: string)
    ensures Classify("API " + IntToString(status) + ": " + text) == Some(HttpError(status, text))
  {
    var code := IntToString(status);
    var msg := "API " + code + ": " + text;
    assert msg[4] == code[0];
    assert ZeroFlights[4] == 'S';
    assert msg[0] == 'A' && InternalPrefix[0] == 'I';
    assert msg[..4] == "API ";
    assert msg[4..] == code + (": " + text);
    ClassifyStatusOf(status, text);
  }

  lemma ClassifyInternal(m: string)
    ensures Classify(InternalPrefix + m) == Some(Internal(m))
  {
    var msg := InternalPrefix + m;
    assert msg[..|InternalPrefix|] == InternalPrefix;
    assert msg[0] == 'I' && ZeroFlights[0] == 'A';
  }

  /** `call_skyscanner`'s handling of the HTTP outcome. The result is a deal
      exactly when the response is a 200 whose body lists at least one
      itinerary; the deal is built from the first itinerary alone with link
      `"N/A"`; and every error text records its cause losslessly. */
  function Normalise(o: HttpOutcome): (r: FlightResult)
    ensures r.Success? <==> CauseOf(o).None?
    ensures r.Success? ==> r == Success(PriceOf(o.json.value[0].price), AirlineOf(o.json.value[0].legs), "N/A")
    ensures r.Error? ==> Classify(r.error) == CauseOf(o)
  {
    match o
    case TransportError(m) =>
      ClassifyInternal(m);
      Error(InternalPrefix + m)
    case HttpResponse(status, text, json) =>
      if status != 200 then
        ClassifyApiError(status, text);
        Error("API " + IntToString(status) + ": " + text)
      else if json.Raised? then
        ClassifyInternal(ExcText(json.error));
        Error(InternalPrefix + ExcText(json.error))
      else if |json.value| == 0 then Error(ZeroFlights)
      else
        var best := json.value[0];
        Success(PriceOf(best.price), AirlineOf(best.legs), "N/A")
  }

  /** `call_skyscanner(search)` against a provider that answers query `q` with `api(q)`. */
  function CallSkyscanner(search: Item, api: Query -> HttpOutcome): FlightResult {
    Normalise(api(BuildQuery(search)))
  }

  /** Only the first itinerary is read: the later ones, whatever their prices,
      and the response text do not change the deal. */
  lemma FirstItineraryOnly(best: Itinerary, rest: seq<Itinerary>, text1: string, text2: string)
    ensures Normalise(HttpResponse(200, text1, Returned([best] + rest))) ==
            Normalise(HttpResponse(200, text2, Returned([best])))
  {
  }

  /** The three error texts are the fixed ones. */
  lemma ErrorTexts(o: HttpOutcome)
    ensures o.TransportError? ==> Normalise(o) == Error("Internal Error: " + o.message)
    ensures o.HttpResponse? && o.status != 200 ==>
              Normalise(o) == Error("API " + IntToString(o.status) + ": " + o.text)
    ensures o.HttpResponse? && o.status == 200 && o.json.Returned? && o.json.value == [] ==>
              Normalise(o) == Error("API Success but 0 flights found.")
  {
  }
}
