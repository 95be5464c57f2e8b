/**
 * The `/api/paypal/capture-payment` handler as a whole: the request checks, the
 * configuration check, the capture response, the status gate, the payment
 * details, storing the donation, and the response model's validation. The
 * two PayPal calls and the database are inputs: what the network finally
 * gave back, and what each insert attempt returns.
 */
module CaptureHandler {
  import opened PyRuntime
  import opened Json
  import opened CaptureError
  import opened Extraction
  import opened Donation
  import opened Settings

  /** The environment the handler reads: whether the Supabase package imports, and the PayPal variables. */
  datatype Environment = Environment(
    supabaseInstalled: bool,
    clientId: Option<string>,
    secret: Option<string>,
    paypalEnvironment: Option<string>)

  datatype Request = Request(orderId: string, donationData: Option<DonationData>)

  /** The capture response: `ok`, the status code, `text`, and what `json()` gives. */
  datatype HttpResponse = HttpResponse(ok: bool, statusCode: int, text: string, body: Body)

  /**
   * What the token request and the capture request end in: the capture
   * response, or the HTTP error the handler raised on the way (a timeout, a
   * refused connection, a failed token request).
   */
  datatype Exchange = Reached(response: HttpResponse) | ExchangeFailed(error: HttpError)

  /** The clock readings: Unix seconds, the year, Unix milliseconds. */
  datatype Clock = Clock(seconds: nat, year: int, millis: nat)

  datatype Outcome =
    | Captured(payment: PaymentDetails, donation: Option<Json>, message: string)
    | Failed(error: HttpError)
    /** The response model refused the payment details or the donation: a 500 with the validator's text. */
    | Rejected

  /** The outcome, the PayPal host used (when configuration got that far), and the rows sent to the database. */
  datatype Reply = Reply(outcome: Outcome, host: Option<string>, stored: seq<Record>)

  /** A handler step either goes on with a value or ends in an HTTP error. */
  datatype Step<+T> = Continue(value: T) | Stop(error: HttpError)

  const OrderIdRequired := "Order ID is required"
  const SupabaseMissing :=
    "Server configuration error: Supabase package not installed. Install with: pip install -r requirements.txt"
  const CapturedMessage := "Payment captured successfully"
  const Completed := "COMPLETED"

  /**
   * The capture response read as an order: an error response goes through
   * the error-message builder; a body `json()` cannot parse is a request
   * failure; a body that is not an object has no `get`.
   */
  function ReadOrder(exchange: Exchange): (r: Step<seq<(string, Json)>>)
    ensures r.Continue? <==>
              exchange.Reached? && exchange.response.ok
              && exchange.response.body.Parsed? && exchange.response.body.value.JObject?
    ensures r.Continue? ==> r.value == exchange.response.body.value.members
    ensures exchange.Reached? && !exchange.response.ok ==>
              r == Stop(CaptureFailure(exchange.response.statusCode, exchange.response.text, exchange.response.body))
  {
    match exchange
    case ExchangeFailed(error) => Stop(error)
    case Reached(response) =>
      if !response.ok then Stop(CaptureFailure(response.statusCode, response.text, response.body))
      else
        match response.body
        case Unparsable(message) =>
          Stop(HttpError(500, "PayPal API request failed: " + (if message == "" then "JSONDecodeError occurred" else message)))
        case Parsed(v) =>
          if v.JObject? then Continue(v.members) else Stop(CaptureEscape(NoAttribute(v, "get")))
  }

  /** `order_data.get("status", "UNKNOWN")`: the order's status, "UNKNOWN" when it has none. */
  function OrderStatus(order: seq<(string, Json)>): (status: Json)
    ensures !HasKey(order, "status") ==> status == JString("UNKNOWN")
    ensures HasKey(order, "status") ==> exists i :: 0 <= i < |order| && order[i] == ("status", status)
  {
    Lookup(order, "status", JString("UNKNOWN"))
  }

  /** What the response models accept: string ids, string-or-None timestamps, a dict-or-None donation. */
  predicate Validates(payment: PaymentDetails, donation: Option<Json>) {
    && payment.orderId.JString? && payment.captureId.JString? && payment.transactionId.JString?
    && (payment.createTime.JNull? || payment.createTime.JString?)
    && (payment.updateTime.JNull? || payment.updateTime.JString?)
    && (donation.None? || donation.value.JObject?)
  }

  /** A row that names this payment: its donation id, receipt number and payment id. */
  predicate NamesPayment(row: Record, payment: PaymentDetails, clock: Clock) {
    && DonationId in row && row[DonationId] == Text(DonationIdOf(clock.seconds))
    && ReceiptNumber in row && row[ReceiptNumber] == Text(ReceiptNumberOf(clock.year, clock.millis))
    && PaymentId in row && row[PaymentId] == Value(payment.captureId)
  }

  /** `row` holds every field of `sub`, with the same value. */
  predicate SubRow(sub: Record, row: Record) {
    forall c: Column :: c in sub ==> c in row && row[c] == sub[c]
  }

  /**
   * The full row (with the PayPal fields) and the minimal row for a payment:
   * both name the payment, the minimal row is a sub-row of the full row
   * without any PayPal field, and the full row holds every PayPal field.
   */
  function DonationRows(d: DonationData, payment: PaymentDetails, clock: Clock): (rows: (Record, Record))
    ensures NamesPayment(rows.0, payment, clock) && NamesPayment(rows.1, payment, clock)
    ensures SubRow(rows.1, rows.0)
    ensures rows.1.Keys !! PayPalColumns
    ensures SubRow(PayPalFields(payment), rows.0)
  {
    var donationId := DonationIdOf(clock.seconds);
    var receipt := ReceiptNumberOf(clock.year, clock.millis);
    var full := DonationRecord(d, donationId, receipt, payment.captureId);
    var minimal := MinimalRecord(d, donationId, receipt, payment.captureId);
    var merged := Merge(full, PayPalFields(payment));
    RowsAgree(d, payment, clock, full, minimal, merged);
    (merged, minimal)
  }

  lemma RowsAgree(d: DonationData, payment: PaymentDetails, clock: Clock, full: Record, minimal: Record, merged: Record)
    requires full == DonationRecord(d, DonationIdOf(clock.seconds), ReceiptNumberOf(clock.year, clock.millis), payment.captureId)
    requires minimal == MinimalRecord(d, DonationIdOf(clock.seconds), ReceiptNumberOf(clock.year, clock.millis), payment.captureId)
    requires merged == Merge(full, PayPalFields(payment))
    ensures NamesPayment(merged, payment, clock) && NamesPayment(minimal, payment, clock)
    ensures SubRow(minimal, merged)
    ensures minimal.Keys !! PayPalColumns
    ensures SubRow(PayPalFields(payment), merged)
  {
    var donationId := DonationIdOf(clock.seconds);
    var receipt := ReceiptNumberOf(clock.year, clock.millis);
    RequiredNamePayment(d, payment, clock, full);
    RequiredNamePayment(d, payment, clock, minimal);
    MinimalWithinFull(d, donationId, receipt, payment.captureId);
    PayPalColumnsApart();
    MergeKeepsSubRows(minimal, full, PayPalFields(payment), merged);
  }

  /** A row carrying the required fields for this payment names it. */
  lemma RequiredNamePayment(d: DonationData, payment: PaymentDetails, clock: Clock, row: Record)
    requires RequiredColumns <= row.Keys
    requires forall c: Column :: c in RequiredColumns ==>
               row[c] == RequiredFields(d, DonationIdOf(clock.seconds), ReceiptNumberOf(clock.year, clock.millis), payment.captureId)[c]
    ensures NamesPayment(row, payment, clock)
  {
    var required := RequiredFields(d, DonationIdOf(clock.seconds), ReceiptNumberOf(clock.year, clock.millis), payment.captureId);
    assert DonationId in RequiredColumns && row[DonationId] == required[DonationId];
    assert ReceiptNumber in RequiredColumns && row[ReceiptNumber] == required[ReceiptNumber];
    assert PaymentId in RequiredColumns && row[PaymentId] == required[PaymentId];
  }

  /** Merging disjoint rows keeps a sub-row of the first and all of the second. */
  lemma MergeKeepsSubRows(sub: Record, a: Record, b: Record, merged: Record)
    requires SubRow(sub, a) && a.Keys !! b.Keys
    requires merged == Merge(a, b)
    ensures SubRow(sub, merged) && SubRow(b, merged) && sub.Keys !! b.Keys
  {
    forall c: Column | c in sub
      ensures c in merged && merged[c] == sub[c] && c !in b
    {
      assert c in a;
    }
  }

  /**
   * Storing the donation when the request carries donation data; nothing is
   * stored otherwise. Rows are sent only when a client exists, at most two,
   * each naming the payment, and a retry sends a sub-row of the first.
   */
  function StoreDonation(donationData: Option<DonationData>, payment: PaymentDetails, db: Database, clock: Clock): (s: Saved)
    ensures donationData.None? ==> s == Saved([], None)
    ensures donationData.Some? ==> (|s.attempts| > 0 <==> db.clientReady) && |s.attempts| <= 2
    ensures forall i :: 0 <= i < |s.attempts| ==> NamesPayment(s.attempts[i], payment, clock)
    ensures |s.attempts| == 2 ==> SubRow(s.attempts[1], s.attempts[0])
    ensures s.donation.Some? ==> donationData.Some? && db.clientReady
  {
    if donationData.None? then Saved([], None)
    else
      var rows := DonationRows(donationData.value, payment, clock);
      var saved := SaveDonation(db, rows.0, rows.1);
      SavedRows(db, rows.0, rows.1, saved);
      SavedRowsName(rows.0, rows.1, saved, payment, clock);
      saved
  }

  /** When both rows name the payment and the retry row is a sub-row, so do the attempts. */
  lemma SavedRowsName(full: Record, minimal: Record, saved: Saved, payment: PaymentDetails, clock: Clock)
    requires NamesPayment(full, payment, clock) && NamesPayment(minimal, payment, clock)
    requires SubRow(minimal, full)
    requires forall i :: 0 <= i < |saved.attempts| ==> saved.attempts[i] == full || saved.attempts[i] == minimal
    requires |saved.attempts| == 2 ==> saved.attempts[0] == full && saved.attempts[1] == minimal
    ensures forall i :: 0 <= i < |saved.attempts| ==> NamesPayment(saved.attempts[i], payment, clock)
    ensures |saved.attempts| == 2 ==> SubRow(saved.attempts[1], saved.attempts[0])
  {
  }

  /** The rows a save sends are the full row and then, on a retry, the minimal row. */
  lemma SavedRows(db: Database, full: Record, minimal: Record, saved: Saved)
    requires saved == SaveDonation(db, full, minimal)
    ensures |saved.attempts| <= 2
    ensures forall i :: 0 <= i < |saved.attempts| ==> saved.attempts[i] == full || saved.attempts[i] == minimal
    ensures |saved.attempts| == 2 ==> saved.attempts[0] == full && saved.attempts[1] == minimal
    ensures |saved.attempts| > 0 <==> db.clientReady
    ensures saved.donation.Some? ==> db.clientReady
  {
  }

  /** Everything after the capture response was read as an order. */
  function Complete(order: seq<(string, Json)>, request: Request, db: Database, clock: Clock): (r: (Outcome, seq<Record>))
    ensures r.0.Captured? || |r.1| > 0 ==> OrderStatus(order) == JString(Completed)
    ensures OrderStatus(order) != JString(Completed) ==>
              r == (Failed(HttpError(500, "Internal server error: " + NoAttribute(JObject(order), "id").message)), [])
  {
    if OrderStatus(order) != JString(Completed) then
      // logging `order.id` on a dict raises AttributeError; the outer handler makes it a 500
      (Failed(HttpError(500, "Internal server error: " + NoAttribute(JObject(order), "id").message)), [])
    else
      match ExtractPaymentDetails(order, Completed)
      case Err(e) => (Failed(HttpError(500, "Error processing payment details: " + e.message)), [])
      case Ok(payment) =>
        var saved := StoreDonation(request.donationData, payment, db, clock);
        if Validates(payment, saved.donation) then (Captured(payment, saved.donation, CapturedMessage), saved.attempts)
        else (Rejected, saved.attempts)
  }

  /** `capture_payment` */
  function CapturePayment(env: Environment, request: Request, exchange: Exchange, db: Database, clock: Clock): (r: Reply)
    ensures request.orderId == "" ==> r == Reply(Failed(HttpError(400, OrderIdRequired)), None, [])
    ensures r.host.Some? ==> r.host == Some(BaseUrl(if env.paypalEnvironment.Some? then env.paypalEnvironment.value else "sandbox"))
    ensures r.host.Some? <==> request.orderId != "" && env.supabaseInstalled && Present(env.clientId) && Present(env.secret)
    ensures r.outcome.Captured? || |r.stored| > 0 ==>
              ReadOrder(exchange).Continue? && OrderStatus(ReadOrder(exchange).value) == JString(Completed)
  {
    if request.orderId == "" then Reply(Failed(HttpError(400, OrderIdRequired)), None, [])
    else if !env.supabaseInstalled then Reply(Failed(HttpError(500, SupabaseMissing)), None, [])
    else
      match LoadPayPalConfig(env.clientId, env.secret, env.paypalEnvironment)
      case Err(e) => Reply(Failed(HttpError(500, "PayPal configuration error: " + e.message)), None, [])
      case Ok(config) =>
        var host := BaseUrl(config.environment);
        match ReadOrder(exchange)
        case Stop(error) => Reply(Failed(error), Some(host), [])
        case Continue(order) =>
          var done := Complete(order, request, db, clock);
          Reply(done.0, Some(host), done.1)
  }

  // ---------------------------------------------------------------------
  // Properties of the handler

  /** An order whose status is not "COMPLETED", or that has none, never succeeds and stores nothing. */
  lemma NotCompletedNeverSucceeds(env: Environment, request: Request, exchange: Exchange, db: Database, clock: Clock)
    requires ReadOrder(exchange).Continue?
    requires !HasKey(ReadOrder(exchange).value, "status") || OrderStatus(ReadOrder(exchange).value) != JString(Completed)
    ensures var r := CapturePayment(env, request, exchange, db, clock);
            !r.outcome.Captured? && r.stored == []
  {
    var order := ReadOrder(exchange).value;
    assert OrderStatus(order) != JString(Completed);
  }

  /** A capture response the handler accepts has a status; a completed order is therefore non-empty. */
  lemma CompletedOrderIsNonEmpty(order: seq<(string, Json)>)
    requires OrderStatus(order) == JString(Completed)
    ensures HasKey(order, "status") && order != []
  {
    assert JString("UNKNOWN") != JString(Completed);
  }

  /** The payment a successful reply carries is the one read from the order, and its ids agree. */
  lemma CapturedPayment(env: Environment, request: Request, exchange: Exchange, db: Database, clock: Clock)
    requires CapturePayment(env, request, exchange, db, clock).outcome.Captured?
    ensures var order := ReadOrder(exchange).value;
            var outcome := CapturePayment(env, request, exchange, db, clock).outcome;
            && ExtractPaymentDetails(order, Completed) == Ok(outcome.payment)
            && outcome.payment.captureId == outcome.payment.transactionId
            && outcome.payment.status == Completed
            && outcome.message == CapturedMessage
            && Validates(outcome.payment, outcome.donation)
  {
  }

  /** Without donation data nothing is stored and the reply carries no donation. */
  lemma NoDonationDataStoresNothing(env: Environment, request: Request, exchange: Exchange, db: Database, clock: Clock)
    requires request.donationData.None?
    ensures var r := CapturePayment(env, request, exchange, db, clock);
            r.stored == [] && (r.outcome.Captured? ==> r.outcome.donation.None?)
  {
  }

  /**
   * The first row sent is the full donation row: the payment method, the
   * capture id as payment id, and the whole PayPal order as payment details.
   */
  lemma StoredRowCarriesPayment(env: Environment, request: Request, exchange: Exchange, db: Database, clock: Clock)
    requires |CapturePayment(env, request, exchange, db, clock).stored| > 0
    ensures var order := ReadOrder(exchange).value;
            var payment := ExtractPaymentDetails(order, Completed).value;
            var row := CapturePayment(env, request, exchange, db, clock).stored[0];
            && ExtractPaymentDetails(order, Completed).Ok?
            && row[PaymentMethod] == Text("PayPal")
            && row[PaymentId] == Value(payment.captureId)
            && row[PayPalCaptureId] == Value(payment.captureId)
            && PayPalPaymentDetails in row && row[PayPalPaymentDetails] == Value(JObject(order))
  {
    var order := ReadOrder(exchange).value;
    CompletedOrderIsNonEmpty(order);
    var payment := ExtractPaymentDetails(order, Completed).value;
    var rows := DonationRows(request.donationData.value, payment, clock);
    assert CapturePayment(env, request, exchange, db, clock).stored[0] == rows.0;
    FullRowFields(request.donationData.value, payment, clock);
  }

  /** The full row holds the fixed payment fields, the capture id twice, and a non-empty PayPal response. */
  lemma FullRowFields(d: DonationData, payment: PaymentDetails, clock: Clock)
    requires Truthy(payment.fullResponse)
    ensures var row := DonationRows(d, payment, clock).0;
            && row[PaymentMethod] == Text("PayPal")
            && row[PaymentId] == Value(payment.captureId)
            && row[PayPalCaptureId] == Value(payment.captureId)
            && PayPalPaymentDetails in row && row[PayPalPaymentDetails] == Value(payment.fullResponse)
  {
    var donationId := DonationIdOf(clock.seconds);
    var receipt := ReceiptNumberOf(clock.year, clock.millis);
    var record := DonationRecord(d, donationId, receipt, payment.captureId);
    var fields := PayPalFields(payment);
    assert DonationRows(d, payment, clock).0 == Merge(record, fields);
    assert PaymentId in RequiredColumns && PaymentId !in PayPalColumns;
    assert record[PaymentId] == RequiredFields(d, donationId, receipt, payment.captureId)[PaymentId];
    assert PaymentMethod in RequiredColumns && PaymentMethod !in PayPalColumns;
    assert record[PaymentMethod] == RequiredFields(d, donationId, receipt, payment.captureId)[PaymentMethod];
  }

  /** A database that cannot be reached, or an insert that fails for another reason, leaves the payment a success. */
  lemma DatabaseErrorIsSwallowed(env: Environment, request: Request, exchange: Exchange, db: Database, clock: Clock)
    requires request.donationData.Some?
    requires !db.clientReady || (db.first.InsertFailed? && !IsMissingColumnError(db.first.message))
    requires ReadOrder(exchange).Continue? && OrderStatus(ReadOrder(exchange).value) == JString(Completed)
    requires ExtractPaymentDetails(ReadOrder(exchange).value, Completed).Ok?
    requires request.orderId != "" && env.supabaseInstalled && Present(env.clientId) && Present(env.secret)
    ensures var payment := ExtractPaymentDetails(ReadOrder(exchange).value, Completed).value;
            var outcome := CapturePayment(env, request, exchange, db, clock).outcome;
            Validates(payment, None) ==> outcome == Captured(payment, None, CapturedMessage)
  {
  }

  /** Missing PayPal credentials end the request with a configuration error before PayPal is contacted. */
  lemma MissingCredentials(env: Environment, request: Request, exchange: Exchange, db: Database, clock: Clock)
    requires request.orderId != "" && env.supabaseInstalled
    requires !Present(env.clientId) || !Present(env.secret)
    ensures CapturePayment(env, request, exchange, db, clock)
            == Reply(Failed(HttpError(500, "PayPal configuration error: " + CredentialsMissing)), None, [])
  {
  }

  /** A PayPal error response is reported with its status capped at 500 (the error builder's 400 escape aside). */
  lemma ErrorResponseStatus(env: Environment, request: Request, exchange: Exchange, db: Database, clock: Clock)
    requires request.orderId != "" && env.supabaseInstalled && Present(env.clientId) && Present(env.secret)
    requires exchange.Reached? && !exchange.response.ok
    ensures var r := CapturePayment(env, request, exchange, db, clock);
            && r.outcome.Failed? && r.stored == []
            && r.outcome.error == CaptureFailure(exchange.response.statusCode, exchange.response.text, exchange.response.body)
            && r.outcome.error.status <= 500
  {
  }
}
