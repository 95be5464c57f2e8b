# PayPal capture backend — a verified model of its deterministic core

`main.py` is a FastAPI service. Its endpoint `/api/paypal/capture-payment` captures
a PayPal order through the Orders v2 API and, when the request carries
donation data, stores a donation row in Supabase. This project models, in
Dafny, the rules that endpoint applies between the I/O calls:

- the CORS origin list read at start-up;
- the PayPal credentials check and the choice of the PayPal API host;
- turning an error capture response into an `HTTPException`. This covers
  the JSON error-body message builder, its raw-text fallback, the non-JSON
  fallback, the 300/500-character truncations and the `min(status, 500)`
  cap;
- the status gate after a successful capture response;
- extracting the payment details from the order;
- the donation id and receipt number;
- the full donation row, the PayPal fields merged into it, the minimal row,
  and the insert-error test that chooses the minimal row;
- the handler as a whole: which outcome each combination of inputs leads
  to, and which rows are sent to the database.

The model is organised in these modules:

- `PyRuntime`: the Python behaviour the handler relies on. It covers
  `str.strip`, `split`, `join`, slicing, `zfill`, `lower`, `in` on strings,
  and `str(int)`, plus the exception classes with their `str(e)` texts.
- `Json`: the values `response.json()` yields. Objects are ordered member
  lists, as a Python dict is. The module defines truthiness, `d.get(k, default)`,
  `x[0]`, iteration and `f"{v}"`.
- `CaptureError`: the error-response handling at `main.py:300-368`. It
  includes imperative methods written as the handler's loop and `+=`
  statements, each proved equal to a specification function.
- `Extraction`: the payment-details dict at `main.py:432-454`.
- `Donation`: the identifiers and rows at `main.py:471-537` and the insert
  logic at `main.py:511-562`. The conditional key assignments are methods
  proved equal to the row functions.
- `Settings`: the CORS origins, `_get_paypal_client` and the base URL.
- `CaptureHandler`: `capture_payment` from the order-id check to the
  response model.

Exception routing follows the code rather than its comments:

- **Status gate.** When the order's status is not `"COMPLETED"`, the
  warning at `main.py:424` reads `order.id` on a dict. That raises
  `AttributeError` before the intended 400 can be raised, so the outer
  handler at `main.py:577-584` answers 500 `"Internal server error: 'dict'
  object has no attribute 'id'"`. The model states this outcome, and the
  property proved is that such an order never succeeds and stores nothing.
- **Error body that is not a JSON object.** Calling `.get` on a list, a
  string or a number raises `AttributeError`. The `except` at
  `main.py:354` does not catch that class, so the capture step's generic
  handler at `main.py:401-420` reports it as a 400 `"PayPal capture failed:
  …"`.
- **Exceptions inside the message builder.** A `TypeError` from joining a
  part that is not a string, like a `KeyError` or `ValueError`, falls back
  to the non-JSON text.
- **Database failures.** Every failure in the donation step is swallowed by
  `main.py:558`, including the `HTTPException` raised at `main.py:544`. The
  payment still succeeds, with no donation.
- **OAuth callback.** `main.py` contains no OAuth callback handling, so that
  flow is not part of this model.

## Model

| member | source | states |
|---|---|---|
| PyRuntime.Min | main.py:351 | `min(a, b)`: the result is at most either argument and equals one of them |
| PyRuntime.Take | main.py:346 | `s[:n]` is the prefix of `s` whose length is the smaller of `n` and the length of `s` |
| PyRuntime.Split | main.py:68 | `s.split(c)` gives at least one piece and no piece holds the separator |
| PyRuntime.JoinSplit | main.py:68 | joining the pieces of `s.split(c)` with `c` gives back `s` |
| PyRuntime.JoinEnds | main.py:325 | `sep.join(parts)` of no parts is ""; otherwise it starts with the first part and ends with the last |
| PyRuntime.Strip | main.py:68 | `s.strip()` is the middle of `s`: every character before and after it is white space, it has no white space at either end, and it is empty exactly when `s` is all white space |
| PyRuntime.ZFill | main.py:473 | `s.zfill(w)` is as long as the longer of `s` and `w`; an unsigned text gets '0's in front, a signed one keeps its sign first with the '0's after it |
| PyRuntime.LastDigitsValue | main.py:472 | the last `k` characters of `str(n)` are digits whose value is `n mod 10^k` |
| PyRuntime.TakeLast | main.py:472 | `s[-n:]` is the suffix of `s` whose length is the smaller of `n` and the length of `s` |
| PyRuntime.NatToString | main.py:472 | `str(n)` is a non-empty string of digits, led by '0' only for zero |
| PyRuntime.Lower | main.py:515-519 | `s.lower()` has the same length, no upper-case ASCII letter, and each character is kept or is its upper-case letter lowered |
| Json.Lookup | main.py:311 | `d.get(k, default)` is the default when `k` is absent, and otherwise a value stored under `k` |
| Json.Get | main.py:311 | `x.get(k, default)` works exactly on a dict, giving the default or a stored value, and raises AttributeError on anything else |
| Json.First | main.py:433 | `x[0]` succeeds exactly on a non-empty list or string and is the first item or first character; otherwise IndexError for a list or string, KeyError for a dict, TypeError else |
| Json.Iterate | main.py:329 | `for d in x` works exactly on lists, dicts and strings, yielding the items, the keys in order, or the characters; anything else is a TypeError |
| Json.FormatIsRepr | main.py:335-342 | `f"{v}"` of a string is its text and of anything else its `repr` |
| CaptureError.ErrorMessage | main.py:311 | `message or error or 'Unknown error'`: the message if truthy, else the error if truthy, else "Unknown error" |
| CaptureError.JoinStrings | main.py:325 | `sep.join(parts)` succeeds exactly when every part is a string, and raises TypeError otherwise |
| CaptureError.CollectDetailsStopsAtRaise | main.py:329-337 | an exception raised by one detail entry ends the loop with that exception, whatever follows |
| CaptureError.BuildDetailList | main.py:328-337 | the loop over `error_details`, with its invariant, builds exactly the specified `detail_list` or the first exception |
| CaptureError.RenderDetail | main.py:330-337 | one entry's `detail_str` with `+=`: dropped, kept, or the TypeError of `+=` on a non-string issue |
| CaptureError.RenderEntry | main.py:330-337 | an entry is dropped iff it has neither issue nor description; a non-object entry raises AttributeError, an object only TypeError; a kept entry with a field renders to a string |
| CaptureError.CollectDetailsOutcome | main.py:328-337 | the detail list is built exactly when no entry raises, has at most one item per entry, and a failure is the exception of some entry |
| CaptureError.DetailsText | main.py:327-339 | the details part of the message: empty without kept entries, else the kept entries joined by "; " in parentheses |
| CaptureError.DetailsSuffixShape | main.py:327-339 | without details the details part is empty; otherwise it is empty or " (" … ")" |
| CaptureError.DetailsSuffixFails | main.py:327-339 | the details part fails only with a TypeError or an entry's AttributeError |
| CaptureError.BuildJsonErrorDetail | main.py:309-346 | the imperative builder (`detail_parts`, `detail_msg +=`) yields the specified message or exception |
| CaptureError.FinishKeepsLongMessage | main.py:345-346 | a message that starts with the header and goes beyond it is kept, and differs from the raw-text fallback |
| CaptureError.FinishNeverBlank | main.py:344-346 | the built message is kept exactly when it is neither the bare header nor blank, else the raw-text fallback; the result is never either |
| CaptureError.RawFallbackShape | main.py:345-346 | the fallback starts "PayPal API returned error (HTTP s): " and ends with at most 300 characters of the body |
| CaptureError.JsonErrorDetailShape | main.py:309-346 | a built message is the fallback or starts with the header; the builder fails only with TypeError or AttributeError, and a header failure comes first |
| CaptureError.TextDetail | main.py:360-363 | with a body, exactly "PayPal API error (HTTP s): " followed by its first 500 characters (length of the head plus the smaller of 500 and the body's length); without, the no-body message |
| CaptureError.JsonObjectFailure | main.py:350-368 | for a JSON object: the built message with the capped status, the text message on a TypeError, and the 400 escape for an AttributeError |
| CaptureError.ClientErrorPassesThrough | main.py:350-353 | a 4xx error object whose message can be built keeps its status code |
| CaptureError.CaptureEscape | main.py:401-420 | an exception escaping the capture step becomes a 400 whose detail starts "PayPal capture failed: " |
| CaptureError.NamedErrorEscapes | main.py:411-419 | an exception whose message is not blank after stripping is reported with exactly that message |
| CaptureError.NoAttributeEscapes | main.py:401-420 | a missing attribute is reported as 400 "PayPal capture failed: " followed by Python's AttributeError text |
| CaptureError.CaptureFailure | main.py:300-368 | the forwarded status is `min(status, 500)` in the JSON and non-JSON branches, or 400 for an escaping exception; a JSON object gives the built message, the non-JSON text on a caught exception, or the escape otherwise; a non-JSON body gives the 500-character text message or the no-body message; a body that is not an object gives the 400 |
| CaptureError.SilentEntriesKeepNothing | main.py:333-337 | entries with neither issue nor description contribute nothing |
| CaptureError.SpeakingNotDropped | main.py:333 | an entry with an issue or a description is never dropped |
| CaptureError.SpeakingEntryIsKept | main.py:329-337 | if any entry has an issue or a description, the detail list is non-empty |
| CaptureError.RawTextFallback | main.py:311-346 | with no name, no usable message, no speaking detail entry and no debug id, the message is exactly "PayPal API returned error (HTTP s): " and the first 300 characters of the body |
| CaptureError.HeaderShape | main.py:323-325 | the header starts with "PayPal API Error" and is longer when there are header parts |
| CaptureError.HeaderFails | main.py:323-325 | the header can be built exactly when every header part is a string, and otherwise raises TypeError |
| CaptureError.SpeakingDetailsShow | main.py:327-339 | speaking detail entries make the details part non-empty |
| CaptureError.FallbackSuppressed | main.py:317-346 | any usable name, message, detail or debug id keeps the built message, which then starts with the header and is not the fallback |
| CaptureError.DebugIdIsLast | main.py:341-342 | a present debug id always ends the message as " [Debug ID: id]" |
| CaptureError.FinishKeepsTail | main.py:341-346 | a message led by the header and ending in a non-empty suffix is kept with that suffix last |
| CaptureError.EntryFormatting | main.py:333-337 | a string entry is dropped iff issue and description are both empty, else rendered "field: issue" (or "issue") plus " - description" when present |
| CaptureError.CollectTextEntries | main.py:328-337 | for string entries the loop keeps exactly the speaking entries, rendered, in input order |
| CaptureError.DetailsOfKeptStrings | main.py:338-339 | kept string entries appear as " (" + their "; "-join + ")" |
| CaptureError.JoinStringsOfStrings | main.py:339 | joining string values joins their texts |
| CaptureError.DetailsOfTextEntries | main.py:327-339 | for string entries the details part is the kept texts joined by "; " inside one pair of parentheses, or empty |
| CaptureError.HeaderOfTextFields | main.py:317-325 | the header is "PayPal API Error" alone, or followed by ": " and the " - "-joined name and non-placeholder message |
| CaptureError.NonStringNameFallsBack | main.py:317-368 | a name that is truthy but not a string makes the join raise TypeError, so the plain-text message is sent |
| Extraction.ExtractPaymentDetails | main.py:432-454 | captureId and transactionId are equal; status and fullResponse are copied through; orderId is `order.get("id", "")`; a failing `purchase_units[0]` fails the extraction |
| Extraction.PurchaseUnit | main.py:433 | `order.get("purchase_units", [{}])[0]`: `{}` without the key, the first unit of a non-empty list, IndexError for an empty list |
| Extraction.CaptureOf | main.py:434 | `{}` for a unit that is not a dict or has no payments; AttributeError when payments is not a dict |
| Extraction.AmountField | main.py:443-444 | the amount field is read from the capture if a dict, else the unit; the default without a dict source or amount, the amount's member, or AttributeError for a non-dict amount |
| Extraction.PayerName | main.py:449 | "" for a payer that is not a dict or has no truthy name; with one, AttributeError exactly when the name is not a dict |
| Extraction.ReadsCaptureAmount | main.py:443-444 | a dict capture with an amount dict gives its value (default "0") and currency_code (default "USD") |
| Extraction.ReadsUnitAmount | main.py:439-444 | a capture that is not a dict leaves the amount to the unit's amount dict and the capture id "" |
| Extraction.ReadsPayer | main.py:435-449 | payerId and email are the payer dict's payer_id and email_address, all "" for a non-dict payer, and the name is what `PayerName` gives for the payer |
| Extraction.EmptyPurchaseUnitsFail | main.py:433 | an empty `purchase_units` list fails with IndexError |
| Extraction.EmptyCapturesFail | main.py:434 | an empty `captures` list in the first unit fails with IndexError |
| Extraction.ReadsFirstCapture | main.py:434-452 | the capture id and timestamps come from the first capture of the first purchase unit |
| Extraction.FirstOfCaptures | main.py:434 | the capture read is the first element of `captures` |
| Extraction.AmountDefaults | main.py:443-444 | without an amount the value is "0" and the currency "USD" |
| Extraction.BareOrderDefaults | main.py:433-453 | an order with none of the fields still yields details, every field at its default |
| Extraction.PayerNameJoin | main.py:449 | the payer name is given name, a space and surname, with the ends stripped |
| Extraction.PayerWithoutName | main.py:449 | a payer without a (non-empty) name has the name "" |
| Extraction.LookupIgnoresDefault | main.py:449 | the default passed to `get` does not matter when the key is present |
| Donation.DonationIdOf | main.py:472 | the donation id starts "SSLF-", followed by at most six characters |
| Donation.DonationIdDigits | main.py:472 | the id's digits denote the Unix seconds modulo one million |
| Donation.ReceiptNumberOf | main.py:473 | the receipt number starts "RCP-<year>-" and ends in exactly four characters |
| Donation.ReceiptDigits | main.py:473 | those four characters are digits denoting the milliseconds modulo 10000 |
| Donation.RequiredFields | main.py:476-486 | the required columns exactly, with payment_method "PayPal", status "completed", currency "INR" and payment_id the capture id |
| Donation.DonorFields | main.py:489-494 | each of user_id, donor_address and donor_email is present iff its input is non-empty, with that input as its value |
| Donation.DonationRecord | main.py:476-494 | the full row holds every required column with its value, and each donor column iff its input is non-empty |
| Donation.MinimalRecord | main.py:523-537 | the minimal row is the required columns plus user_id when set, nothing else |
| Donation.PayPalFields | main.py:498-506 | the order and capture ids always; the payer id and the full response iff non-empty |
| Donation.Merge | main.py:512 | `{**a, **b}` has the keys of both, values of `b` winning |
| Donation.BuildDonationRecord | main.py:476-494 | the dict built by conditional key assignment is the full row |
| Donation.BuildMinimalRecord | main.py:523-537 | the dict built by conditional key assignment is the minimal row |
| Donation.BuildPayPalFields | main.py:498-506 | the PayPal fields assigned one key at a time are the specified fields |
| Donation.MinimalWithinFull | main.py:476-537 | the minimal row is a sub-row of the full row with the same values |
| Donation.MinimalDropsAddressAndEmail | main.py:476-537 | the columns the minimal row drops are exactly the donor address and email the full row has |
| Donation.PayPalColumnsApart | main.py:476-506 | the PayPal columns are none of the donation row's columns |
| Donation.DonationOf | main.py:552-553 | a donation is returned exactly when the insert returned non-empty data: the first row of a list, or the data itself |
| Donation.SaveDonation | main.py:511-562 | the full row is sent first; the minimal row is sent second exactly when the first insert failed with a missing-column error; the donation is that of the last insert's data, none after any other failure; no client means nothing sent |
| Donation.MissingColumnIgnoresCase | main.py:515-519 | the fallback test does not depend on letter case |
| Donation.MissingColumnCode | main.py:519 | an error text containing "PGRST204" triggers the fallback |
| Donation.MissingColumnWord | main.py:519 | an error text containing "Column" triggers the fallback |
| Settings.StripEach | main.py:68 | each origin is the stripped piece at the same position |
| Settings.CorsOrigins | main.py:66-72 | unset or "*" gives ["*"]; otherwise one stripped origin per comma-separated piece |
| Settings.SplitWithoutSeparator | main.py:68 | text without a comma splits into itself |
| Settings.SplitAtSeparator | main.py:68 | the first comma ends the first piece |
| Settings.SplitJoin | main.py:68 | splitting comma-joined pieces that hold no comma gives the pieces back |
| Settings.JoinedOrigins | main.py:66-68 | a comma-joined origin list other than ["*"] is not the wildcard and splits back into the list |
| Settings.StripEachPlain | main.py:68 | stripping origins without surrounding white space changes nothing |
| Settings.CorsOriginsRoundTrip | main.py:66-72 | a list of origins without commas or surrounding white space, written comma-separated, is parsed back to itself |
| Settings.LoadPayPalConfig | main.py:586-600 | configuration succeeds iff both credentials are non-empty, else ValueError with the fixed text; the environment defaults to "sandbox" |
| Settings.BaseUrl | main.py:225 | the live host is chosen iff the environment is exactly "production", else the sandbox host |
| Settings.UnsetEnvironmentUsesSandbox | main.py:590 | with PAYPAL_ENVIRONMENT unset the sandbox host is used |
| CaptureHandler.ReadOrder | main.py:300-420 | the handler goes on exactly with an ok response whose body is a JSON object; an error response is reported by the error builder |
| CaptureHandler.OrderStatus | main.py:371 | `order_data.get("status", "UNKNOWN")`: "UNKNOWN" without the key, else the stored status |
| CaptureHandler.DonationRows | main.py:471-537 | both rows carry this payment's donation id, receipt number and capture id; the minimal row is a sub-row of the full row and has no PayPal column; the full row holds every PayPal field |
| CaptureHandler.StoreDonation | main.py:466-562 | nothing is stored without donation data; otherwise rows are sent iff a client exists, at most two; every row sent names the payment and a retry row is a sub-row of the first; a donation needs data and a client |
| CaptureHandler.Complete | main.py:423-572 | success or any stored row requires status "COMPLETED"; any other status is the 500 raised by `order.id` and stores nothing |
| CaptureHandler.CapturePayment | main.py:196-584 | an empty order id is a 400; the host is used exactly when the checks pass and is the configured host; success or a stored row requires a completed order |
| CaptureHandler.NotCompletedNeverSucceeds | main.py:423-429 | an order with no status or another status never succeeds and stores nothing |
| CaptureHandler.CompletedOrderIsNonEmpty | main.py:371 | a completed order has a status member, so it is non-empty |
| CaptureHandler.CapturedPayment | main.py:437-572 | a success carries the extracted details, equal capture and transaction ids, status "COMPLETED" and the fixed message |
| CaptureHandler.NoDonationDataStoresNothing | main.py:466-467 | without donation data nothing is stored and no donation is returned |
| CaptureHandler.FullRowFields | main.py:476-512 | the full row holds the payment method, the capture id twice and the non-empty PayPal response |
| CaptureHandler.StoredRowCarriesPayment | main.py:476-513 | the first row sent holds payment_method "PayPal", the capture id and the whole order as paypal_payment_details |
| CaptureHandler.DatabaseErrorIsSwallowed | main.py:558-572 | an unreachable database or a non-column insert error still gives a success without donation |
| CaptureHandler.MissingCredentials | main.py:210-219 | missing credentials give 500 "PayPal configuration error: …" before PayPal is contacted |
| CaptureHandler.ErrorResponseStatus | main.py:300-368 | an error capture response fails with the error builder's result, status at most 500, nothing stored |

## Left out

- The PayPal network calls (`main.py:227-298`): the token request, the capture request, their timeouts and their exception mapping. What they end in is the input `Exchange`: either the capture response, or the HTTP error raised on the way.
- `response.ok` is an input, not derived from the status code, because it belongs to the HTTP library.
- Supabase (`_get_supabase_client`, `insert(...).execute()`): each attempt's result is an input. Whether a client could be created is a flag.
- Logging, `error_context`, the global exception handler's file writes, the health endpoints and start-up. These are I/O with no effect on the outcome.
- Environment variables and the clock are parameters. The Unix seconds, the year and the Unix milliseconds are given as integers, and the model does not require them to be consistent with one another.
- The float `amount` of the donation data is a `real` that is copied through and never computed with.
- Json: JSON numbers are integers only, and floats from PayPal are not modelled. An object is an ordered member list. With duplicate keys the first one wins, whereas Python's parser keeps the last.
- Json.Repr: `repr` of strings follows CPython's quoting and escapes control characters. It treats every other character as printable, where CPython escapes some non-ASCII characters.
- PyRuntime.Lower: only ASCII letters are lowered. This is exact for the missing-column test, since no non-ASCII character lowers into "column" or "pgrst204".
- CaptureHandler.Validates: a validation failure of the response model is a 500 whose text comes from pydantic. The outcome is modelled, but its message text is not. Validation follows pydantic v2 in its default mode.
- CaptureHandler.ReadOrder: a body that does not parse on a successful response is taken to raise the HTTP library's JSON error, which is one of its request exceptions (requests 2.27 and later). That gives 500 "PayPal API request failed: …".
- CaptureEscape: for an exception with a blank message the model always appends ": " and the message, where `main.py:411-414` appends ": " and the non-empty `e.args` only when there are any. The model carries no `args`, and no exception with a blank message reaches this handler in the model, since a non-dict body or entry raises an AttributeError whose text is never blank.
- CaptureHandler.Complete: the 400 "Payment not completed" at `main.py:425-429` is never reached (see above), so it is not modelled.
- The `except` around the PayPal fields (`main.py:507-508`) is left out, because reading those fields cannot fail.
