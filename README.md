# Flight Hunter handler, modelled in Dafny

Flight Hunter is an AWS Lambda function, `docker/lambda_function.py`. Users register a flight search by phone number. The handler confirms the number with a one-time code texted by SNS (`SEND_OTP`, `VERIFY_OTP`). The search is stored in a DynamoDB table keyed by the contact.

On a schedule, the handler sweeps the table. It queries a flight-search provider (Fly-Scraper through RapidAPI) for each record. A language model (Gemini) optionally decides whether the first deal meets the user's notes and drafts the alert. The alert goes to an SNS topic.

This project models:
- the normalisation of the provider's answer (`call_skyscanner`);
- the alert decision (`evaluate_flight_deal`), including the markdown-fence cleanup of the model's reply;
- the sweep loop (`handle_polling`);
- the airport-code lookup (`resolve_entity_id`);
- the code table operations (`handle_send_otp`, `handle_verify_otp`);
- the request router (`main_loop`).

Everything outside the process is an input of the model:
- the HTTP provider;
- the language model;
- `json.loads` of the model's reply and of a request body;
- `str()` of a result dict;
- the notifier's failures;
- the drawn code and the clock readings;
- the order in which the scan returns the records.

Modules, one per concern:
- `Text`: the `str` operations used (`strip`, `startswith`, `replace`, `upper`, `str(int)`) and a decimal reader.
- `PyValues`:
  - dict values (`None`, int, str, other) with `.get`, truthiness and `str()`;
  - the exceptions (`KeyError`, `NameError`, any other failure by its message);
  - `Outcome`, a value returned or an exception raised.
- `Responses`: the status code and body of `create_response`.
- `FlightClient`: the provider query and the canonical result `Success(price, airline, link) | Error(error)`.
- `Entities`: the five-airport lookup.
- `DealEvaluator`: the decision cascade.
- `Notify`: a `Notifier` class recording publish calls and deliveries.
- `Polling`:
  - the sweep, as a recursive specification function `Sweep`;
  - the imperative loop `HandlePolling`, proved against `Sweep`.
- `OtpStore`: a `SearchTable` class whose `items` map is updated in place by `SendOtp` and `VerifyOtp`. Verification takes the acceptance test as a parameter: `AsWritten` is the shipped handler and `Corrected` the fix described under Findings.
- `Router`: the routing function `RouteOf` and the method `Handle` that executes a route.

## Model

| member | source | states |
|---|---|---|
| Text.Strip | docker/lambda_function.py:107 | `strip()` returns the infix of its argument left once a run of leading and a run of trailing whitespace are removed; the result neither starts nor ends with whitespace |
| Text.IntToString | docker/lambda_function.py:239 | `str()` of an integer is non-empty and made of decimal digits after an optional leading minus sign |
| Text.ParseIntToString | docker/lambda_function.py:228 | reading back the decimal text of any integer gives that integer |
| FlightClient.BuildQuery | docker/lambda_function.py:182-194 | the query always carries currency USD, locale en-US and market US; passenger counts and cabin default to 1 adult, 0 children, 0 infants and economy when the search lacks them |
| FlightClient.PriceOf | docker/lambda_function.py:213-214 | the price is `formatted` when that is truthy, otherwise "$" followed by `str()` of the raw price; either way the price is truthy |
| FlightClient.AirlineFirstCarrierOnly | docker/lambda_function.py:216-221 | the airline is the name of the first marketing carrier of the first leg; the carriers after it and the legs after the first do not change it |
| FlightClient.Normalise | docker/lambda_function.py:197-232 | the result is a deal exactly when the response is a 200 listing at least one itinerary; a deal is built from the first itinerary with link "N/A"; an error text decodes back to its cause (no flights, the HTTP status and body, or the exception message) |
| FlightClient.ClassifyApiError | docker/lambda_function.py:224-228 | "API " + status + ": " + body decodes back to that status and body, for every integer status |
| FlightClient.ClassifyStatusOf | docker/lambda_function.py:224-228 | the part after "API " reads back as the status and the body, for every integer status |
| FlightClient.ClassifyInternal | docker/lambda_function.py:230-232 | "Internal Error: " + message decodes back to that message |
| FlightClient.FirstItineraryOnly | docker/lambda_function.py:209-223 | the itineraries after the first, and the response text, do not change the deal |
| FlightClient.ErrorTexts | docker/lambda_function.py:224-232 | the three error texts are built exactly as "Internal Error: " + message, "API " + status + ": " + body, and "API Success but 0 flights found." |
| Entities.UpperIdempotent | docker/lambda_function.py:162 | upper-casing twice is upper-casing once |
| Entities.ResolveIgnoresCase | docker/lambda_function.py:162-164 | two spellings of a known code differing only in case resolve to the same id |
| Entities.ResolveUpper | docker/lambda_function.py:162-164 | resolving the upper-cased form of a known code gives the same id as the code itself |
| Entities.ResolveRange | docker/lambda_function.py:154-169 | the result is one of the five ids or the query itself |
| Entities.ResolveExamples | docker/lambda_function.py:154-169 | "iad" and "Lhr" resolve to their ids, while "sfo" comes back as "sfo" and not upper-cased |
| DealEvaluator.CleanFences | docker/lambda_function.py:110-112 | a reply that does not start with "```" is left as it is; one that does comes out stripped |
| DealEvaluator.ReadVerdict | docker/lambda_function.py:105-119 | once the model is asked, the alert is withheld exactly when the call succeeds, the cleaned reply parses, and its `match` is false (`Rejects`) |
| DealEvaluator.Evaluate | docker/lambda_function.py:51-119 | with no model, the alert is "Alert: " + `str(result)`, errors included; with a model, it raises `KeyError` exactly when the profile lacks `src` or `dst`, or lacks `date` on an error result, naming the first missing key; it withholds the alert exactly when `Suppresses` holds (model, deal, truthy notes, a parsed reply whose `match` is falsy); an error result that returns always sends |
| DealEvaluator.ErrorPathMessage | docker/lambda_function.py:60-75 | with a model, an error result sends "SYSTEM ERROR: " + the stripped diagnosis, or + the raw error text when the call fails |
| DealEvaluator.NoNotesSkipsJudge | docker/lambda_function.py:77-84 | with falsy notes, a deal is sent with the fixed "Flight Alert for …" template, and the model's answers make no difference |
| DealEvaluator.FailOpen | docker/lambda_function.py:116-119 | a failed call or an unparsable reply sends "Deal found! $" + price + " (AI analysis failed)" |
| DealEvaluator.VerdictDefaults | docker/lambda_function.py:114-115 | for any parsed verdict, each member is defaulted on its own: a missing `match` sends and a present one decides; a missing `sms` gives "Deal found!" and a present one is the message |
| DealEvaluator.PlainReplyUnchanged | docker/lambda_function.py:107-114 | a reply without backticks reaches the JSON reader stripped and otherwise unchanged |
| DealEvaluator.JsonFencedReply | docker/lambda_function.py:110-112 | a reply fenced as "```json" … "```" reaches the reader as its stripped body |
| DealEvaluator.FencedReplyDecidesAlike | docker/lambda_function.py:105-115 | a fenced reply and the same reply unfenced lead to the same decision |
| Notify.Notifier.Publish | docker/lambda_function.py:310-314 | a publish call is counted; it fails as the service dictates for that call, and only an accepted message is delivered |
| Polling.SweepShape | docker/lambda_function.py:303-317 | every delivered alert goes to the topic with subject "Flight Hunter Alert"; the calls made are the delivered alerts plus at most the refused one that ended the sweep |
| Polling.HandlePolling | docker/lambda_function.py:299-319 | with `decide` the evaluation each record gets (`Decider(env)` in the handler), the loop delivers exactly the sweep's alerts and makes exactly its calls; it answers 200 "Batch polling completed", or raises the exception that stopped the sweep |
| Polling.PollOne | docker/lambda_function.py:304-317 | one pass of the loop body does what sweeping that one record does: the same alert, the same call count and the same exception |
| Polling.StepIsSweep | docker/lambda_function.py:304-317 | handling one record (evaluate, then publish if told to) is the sweep of a one-record list |
| Polling.SweepNext | docker/lambda_function.py:303-317 | a record that does not stop the sweep leaves the rest of the sweep to the records after it, with its alerts and calls counted first |
| Polling.SweepStops | docker/lambda_function.py:303-317 | a record whose evaluation or publish raises ends the sweep there: the records after it change nothing |
| Polling.FilteredOnlyDeals | docker/lambda_function.py:316-317 | a filtered search always came with a deal, so logging its `price` cannot raise |
| Polling.SweepAppend | docker/lambda_function.py:303-317 | sweeping `a + b` is sweeping `a` then, unless that stopped, sweeping `b` with `a`'s calls already counted |
| Polling.PublishedAppend | docker/lambda_function.py:303-317 | publishing two lists of messages one after the other sends the alerts of both, in order |
| Polling.SweepDeliversAlerts | docker/lambda_function.py:303-317 | when no evaluation raises and every publish succeeds, the sweep completes and delivers exactly the published alerts of the sending searches' messages (`AlertsOf`), in scan order |
| Polling.RoutedSearchesComplete | docker/lambda_function.py:303-319 | records that all hold `src`, `dst` and `date` never make the evaluation raise, so with a working notifier the sweep completes with one alert per sending search |
| Polling.FilteredSearchSendsNothing | docker/lambda_function.py:309-317 | a search the model filters out adds no alert and no call |
| Polling.SweepStopsAt | docker/lambda_function.py:303-307 | a sweep that reaches a record whose evaluation raises stops there with that exception, keeping what the records before it did |
| Polling.MissingRouteRaises | docker/lambda_function.py:304-307 | with a model configured, evaluating a record without `src` raises `KeyError('src')` whatever the provider answers |
| Polling.RecordWithoutRouteAbortsSweep | docker/lambda_function.py:303-307 | with a model configured, a record without `src` stops the sweep with `KeyError('src')`; the records scanned after it are not handled |
| Polling.ProviderExceptionSurfaces | docker/lambda_function.py:229-232 | a transport exception becomes an alert: "SYSTEM ERROR: Internal Error: " + message when the model's diagnosis fails, or "Alert: " + the rendered error without a model |
| OtpStore.OtpMatches | docker/lambda_function.py:270 | the corrected acceptance test (see Findings) never accepts what the written test refuses, and agrees with it on every record that holds a code |
| OtpStore.ActiveSearchAcceptsNoCode | docker/lambda_function.py:270 | as written, a contact whose search is active passes verification with no code, or with the text "None"; the corrected test refuses it |
| OtpStore.ActiveSearchAcceptsNothing | docker/lambda_function.py:270 | under the corrected test an active search accepts no code at all |
| OtpStore.PendingCodeAcceptsIssued | docker/lambda_function.py:239-246 | a pending code accepts exactly the inputs whose `str()` is the issued code, whether sent as a string or as a JSON number |
| OtpStore.MatchesAgreeOnPendingCodes | docker/lambda_function.py:270 | on pending-code records the written and the corrected tests agree |
| OtpStore.ExpiryNotChecked | docker/lambda_function.py:262-271 | the acceptance test ignores a record's `ttl`: a code counts as expired only once the table has dropped it |
| OtpStore.SearchRecordKeeps | docker/lambda_function.py:274-289 | a verified search keeps the contact and the body's route and dates, holds no code, is stamped with the first clock reading and expires 604800 seconds after the second |
| OtpStore.SearchRecordDefaults | docker/lambda_function.py:274-289 | what the body leaves out of a verified search is defaulted: username Guest, 1 adult, 0 children, 0 infants, economy, "direct,1stop,2stops", notes "" |
| OtpStore.SearchRecordQuery | docker/lambda_function.py:274-289 | the provider query of a verified search is the one the request asked for, with the same defaults |
| OtpStore.RecordsUnderEvaluation | docker/lambda_function.py:274-280 | evaluating a verified search never raises; evaluating a pending code with a model raises `KeyError('src')` |
| OtpStore.SearchTable.SendOtp | docker/lambda_function.py:237-255 | the contact's record becomes a pending code with ttl now + 300, replacing whatever it held; the code is texted to the contact, a refused text being ignored; the answer is 200 "OTP Sent" with the code; an invalid contact raises before anything is written or sent; afterwards the contact's lookup finds the new record and every other contact's lookup is unchanged |
| OtpStore.SearchTable.VerifyOtp | docker/lambda_function.py:262-293 | under the acceptance test `check` (`AsWritten` is line 270 as shipped, `Corrected` the fixed test): when the test refuses the stored record, the answer is 403 "Invalid or expired OTP." and the table is unchanged; otherwise the contact's record becomes the search, which its lookup then finds while every other contact's lookup is unchanged, and the answer is 200 "Verified! Search active."; an invalid contact raises |
| Router.ActionOf | docker/lambda_function.py:339-345 | an action is known exactly when it is one of the four wire names, compared as is |
| Router.ActionNameRoundTrip | docker/lambda_function.py:341-344 | each known action's wire name reads back as that action |
| Router.RouteOf | docker/lambda_function.py:329-352 | OPTIONS is a preflight whatever else the event holds; otherwise a body is dispatched on its action, or its parse failure is reported; no body means the sweep |
| Router.PreflightBeforeBody | docker/lambda_function.py:330-336 | an OPTIONS event with a body is still a preflight |
| Router.ActionCaseMatters | docker/lambda_function.py:341-345 | "send_otp" in lower case is an unknown action |
| Router.AnalyzeAlwaysFails | docker/lambda_function.py:295-297 | ANALYZE_REQUEST always answers 500 "name 'analyze_flight_request' is not defined" |
| Router.PendingCodeAbortsSweep | docker/lambda_function.py:242-246 | with a model configured, a pending code in the table stops a sweep that reaches it with `KeyError('src')` |
| Router.ScannedCoversTable | docker/lambda_function.py:300-303 | when the scan order lists each key of the table once, the sweep gets as many records as the table holds, each record under its own key |
| Router.Handle | docker/lambda_function.py:326-352 | preflight answers 200 "CORS OK"; every request-handler exception becomes a 500 with its text; unknown actions answer 400; each action's table and notifier effects are those of its handler, VERIFY_OTP under the acceptance test `check` (with `AsWritten`, an active search is replaced by a body without a code, as line 270 does); the sweep gets the table's records in scan order and its exceptions propagate |

## Left out

- AWS client setup and the SSM secrets (lines 18-48) are not modelled. Whether a model is configured is the `Judge` input.
- The HTTP call, the Gemini call, SNS and DynamoDB are not modelled as I/O:
  - the provider is a function from query to outcome;
  - the model is a function from prompt to reply;
  - SNS is a `Notifier` whose failures are given per call;
  - DynamoDB is a map field.
- Prompt wording is not modelled: a `Prompt` records only the values interpolated into it.
- `json.loads` and `str()` of a result dict are parameters. The parsed provider response covers reading `data.itineraries` and the fields of the first itinerary, which together are the response's `json` outcome.
- `json.dumps` is not modelled. An answer's body is the `Body` value that `create_response` (line 363) would serialise, and the event log at line 327 is left out with the other prints.
- `random.randint` and `time.time` become inputs:
  - the code is an input with the precondition 100000 <= otp <= 999999;
  - `int(time.time())` is an integer clock reading;
  - `handle_verify_otp` reads the clock twice, so it takes two readings.
- The Playwright scraper (lines 123-145) is a function from the `url` value to a result or an exception. `asyncio`, the print logging and the CORS headers of `create_response` are left out.
- `docker/local_test.py` is not part of this model.
- Text.Upper: only ASCII letters, `ı` and `ſ` are upper-cased. Python's full Unicode upper-casing, including letters that expand to two characters, is not modelled. This does not change which of the five codes a query hits.
- DealEvaluator.Evaluate: the `sms` member of a verdict is treated as a string. A non-string `sms` would reach `sns.publish` and is not modelled.
- Polling.HandlePolling: the always-true test `if sky_result` (line 306) is not a branch in the model. The canonical result is never empty.
- Polling.HandlePolling: only one page of `scan()` is modelled. The scanned records are the table's records under the keys in `order`.
- The DynamoDB SDK's key validation is modelled as `OtpStore.TableKey`: only a non-empty string `contact` is a key, and anything else raises. The exact text of the SDK's failure is not known here; it is the constant `KeyRejected`. `SendOtp`, `VerifyOtp` and `Handle` state its effect.
- OtpStore.SearchTable.VerifyOtp: a search record containing a float value (rejected by the SDK at `put_item`) is not modelled; such a value is `Other`, which the table accepts here.
- Router.Handle: the scan order is an input. It is assumed to list every key of the table once (`Enumerates`), which is what a one-page `scan()` returns.
- Polling.HandlePolling: one search's failure is not isolated from the rest of a sweep, because the code does not isolate it: an exception in evaluation or publishing ends the whole sweep. Records are keyed by contact, so a new code replaces an active search, and a contact has at most one search.

## Findings

| source | as written | input that shows it | evidently intended | confidence | as-written member | corrected member |
|---|---|---|---|---|---|---|
| docker/lambda_function.py:270 | a code is accepted when a record exists and `str(stored_item.get('otp')) == str(user_otp)` | a contact whose search is already verified (its record has no `otp`) and a `VERIFY_OTP` body with no `otp`, or with `"otp": "None"`: both sides read "None" and the search is replaced without any code | accept only a pending code, with the code given reading the same | high, not executed | OtpStore.ActiveSearchAcceptsNoCode | OtpStore.OtpMatches |
