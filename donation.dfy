/**
 * The donation row the capture handler stores after a successful payment:
 * its id and receipt number, the required fields, the optional donor
 * fields, the PayPal-specific fields merged in, the minimal row used when
 * the database lacks a column, and the choice between the two attempts.
 * The database itself is an input: the result of each insert attempt.
 */
module Donation {
  import opened PyRuntime
  import opened Json
  import Extraction

  /** A column value: text, the float amount (copied through untouched), or a JSON value. */
  datatype Cell = Text(s: string) | Number(amount: real) | Value(v: Json)


  /** The `donationData` of the request. */
  datatype DonationData = DonationData(
    amount: real,
    donorName: string,
    donorEmail: Option<string>,
    donorAddress: Option<string>,
    donationType: string,
    userId: Option<string>)

  // ---------------------------------------------------------------------
  // Identifiers

  /** "SSLF-" and the last (at most) six digits of the Unix time in seconds. */
  function DonationIdOf(seconds: nat): (id: string)
    ensures StartsWith(id, "SSLF-")
    ensures |id| == 5 + Min(|NatToString(seconds)|, 6)
  {
    "SSLF-" + TakeLast(NatToString(seconds), 6)
  }

  /** The digits of a donation id denote the seconds modulo one million. */
  lemma DonationIdDigits(seconds: nat)
    ensures var digits := DonationIdOf(seconds)[5..];
            AllDigits(digits) && DecimalValue(digits) == seconds % 1000000
  {
    LastDigitsValue(seconds, 6);
    assert DonationIdOf(seconds)[5..] == TakeLast(NatToString(seconds), 6);
    assert Pow10(6) == 1000000;
  }

  /** "RCP-<year>-" and the milliseconds modulo 10000, zero-padded to four digits. */
  function ReceiptNumberOf(year: int, millis: nat): (r: string)
    ensures StartsWith(r, "RCP-" + IntToString(year) + "-")
    ensures |r| == 4 + |IntToString(year)| + 1 + 4
  {
    var digits := NatToString(millis % 10000);
    NatToStringShort(millis % 10000, 4);
    assert Pow10(4) == 10000;
    "RCP-" + IntToString(year) + "-" + ZFill(digits, 4)
  }

  /** The last four characters of a receipt number are digits denoting the milliseconds modulo 10000. */
  lemma ReceiptDigits(year: int, millis: nat)
    ensures var r := ReceiptNumberOf(year, millis);
            var digits := r[|r| - 4..];
            AllDigits(digits) && DecimalValue(digits) == millis % 10000
  {
    var n := millis % 10000;
    var s := NatToString(n);
    NatToStringShort(n, 4);
    assert Pow10(4) == 10000;
    NatToStringRoundTrip(n);
    var r := ReceiptNumberOf(year, millis);
    assert r == "RCP-" + IntToString(year) + "-" + ZFill(s, 4);
    assert s[0] != '+' && s[0] != '-';
    if |s| < 4 {
      assert ZFill(s, 4) == Zeros(4 - |s|) + s;
      LeadingZeros(4 - |s|, s);
    } else {
      assert ZFill(s, 4) == s;
    }
    assert r[|r| - 4..] == ZFill(s, 4);
  }

  // ---------------------------------------------------------------------
  // The rows

  /** The columns of the `donations` table that the handler writes. */
  datatype Column =
    | DonationId | Amount | DonorName | DonationType | PaymentId | PaymentMethod
    | ReceiptNumber | Status | Currency
    | UserId | DonorAddress | DonorEmail
    | PayPalOrderId | PayPalCaptureId | PayPalPayerId | PayPalPaymentDetails
  {
    /** The column's name, the dict key the handler uses. */
    function Name(): string {
      match this
      case DonationId => "donation_id"
      case Amount => "amount"
      case DonorName => "donor_name"
      case DonationType => "donation_type"
      case PaymentId => "payment_id"
      case PaymentMethod => "payment_method"
      case ReceiptNumber => "receipt_number"
      case Status => "status"
      case Currency => "currency"
      case UserId => "user_id"
      case DonorAddress => "donor_address"
      case DonorEmail => "donor_email"
      case PayPalOrderId => "paypal_order_id"
      case PayPalCaptureId => "paypal_capture_id"
      case PayPalPayerId => "paypal_payer_id"
      case PayPalPaymentDetails => "paypal_payment_details"
    }
  }

  const RequiredColumns: set<Column> :=
    {DonationId, Amount, DonorName, DonationType, PaymentId, PaymentMethod, ReceiptNumber, Status, Currency}

  const DonorColumns: set<Column> := {UserId, DonorAddress, DonorEmail}

  const PayPalColumns: set<Column> := {PayPalOrderId, PayPalCaptureId, PayPalPayerId, PayPalPaymentDetails}

  type Record = map<Column, Cell>

  /** No PayPal column is a donation column. */
  lemma PayPalColumnsApart()
    ensures (RequiredColumns + DonorColumns) !! PayPalColumns
  {
    forall c: Column | c in PayPalColumns
      ensures c !in RequiredColumns + DonorColumns
    {
    }
  }

  /** The fields every donation row carries. */
  function RequiredFields(d: DonationData, donationId: string, receipt: string, captureId: Json): (r: Record)
    ensures r.Keys == RequiredColumns
    ensures r[PaymentMethod] == Text("PayPal") && r[Status] == Text("completed") && r[Currency] == Text("INR")
    ensures r[PaymentId] == Value(captureId) && r[Amount] == Number(d.amount)
    ensures r[DonationId] == Text(donationId) && r[ReceiptNumber] == Text(receipt)
    ensures r[DonorName] == Text(d.donorName) && r[DonationType] == Text(d.donationType)
  {
    map[
      DonationId := Text(donationId),
      Amount := Number(d.amount),
      DonorName := Text(d.donorName),
      DonationType := Text(d.donationType),
      PaymentId := Value(captureId),
      PaymentMethod := Text("PayPal"),
      ReceiptNumber := Text(receipt),
      Status := Text("completed"),
      Currency := Text("INR")
    ]
  }

  /**
   * The full row before the PayPal fields: the required fields and each
   * donor field whose input is non-empty.
   */
  function DonationRecord(d: DonationData, donationId: string, receipt: string, captureId: Json): (r: Record)
    ensures RequiredColumns <= r.Keys <= RequiredColumns + DonorColumns
    ensures forall c: Column :: c in RequiredColumns ==> r[c] == RequiredFields(d, donationId, receipt, captureId)[c]
    ensures UserId in r <==> Present(d.userId)
    ensures DonorAddress in r <==> Present(d.donorAddress)
    ensures DonorEmail in r <==> Present(d.donorEmail)
    ensures UserId in r ==> r[UserId] == Text(d.userId.value)
    ensures DonorAddress in r ==> r[DonorAddress] == Text(d.donorAddress.value)
    ensures DonorEmail in r ==> r[DonorEmail] == Text(d.donorEmail.value)
  {
    var required, donor := RequiredFields(d, donationId, receipt, captureId), DonorFields(d);
    assert RequiredColumns !! DonorColumns;
    assert required.Keys !! donor.Keys;
    required + donor
  }

  /** The donor fields whose input is non-empty. */
  function DonorFields(d: DonationData): (r: Record)
    ensures r.Keys <= DonorColumns
    ensures UserId in r <==> Present(d.userId)
    ensures DonorAddress in r <==> Present(d.donorAddress)
    ensures DonorEmail in r <==> Present(d.donorEmail)
    ensures UserId in r ==> r[UserId] == Text(d.userId.value)
    ensures DonorAddress in r ==> r[DonorAddress] == Text(d.donorAddress.value)
    ensures DonorEmail in r ==> r[DonorEmail] == Text(d.donorEmail.value)
  {
    var r: Record := map[];
    var r := if Present(d.userId) then r[UserId := Text(d.userId.value)] else r;
    var r := if Present(d.donorAddress) then r[DonorAddress := Text(d.donorAddress.value)] else r;
    if Present(d.donorEmail) then r[DonorEmail := Text(d.donorEmail.value)] else r
  }

  /** The row for a database lacking the optional columns: the required fields and `user_id` only. */
  function MinimalRecord(d: DonationData, donationId: string, receipt: string, captureId: Json): (r: Record)
    ensures r.Keys == RequiredColumns + (if Present(d.userId) then {UserId} else {})
    ensures forall c: Column :: c in RequiredColumns ==> r[c] == RequiredFields(d, donationId, receipt, captureId)[c]
    ensures UserId in r ==> Present(d.userId) && r[UserId] == Text(d.userId.value)
  {
    var r := RequiredFields(d, donationId, receipt, captureId);
    if Present(d.userId) then r[UserId := Text(d.userId.value)] else r
  }

  /** The PayPal-specific fields: order and capture id always, the payer id and full response when non-empty. */
  function PayPalFields(details: Extraction.PaymentDetails): (r: Record)
    ensures r.Keys <= PayPalColumns
    ensures PayPalOrderId in r && r[PayPalOrderId] == Value(details.orderId)
    ensures PayPalCaptureId in r && r[PayPalCaptureId] == Value(details.captureId)
    ensures PayPalPayerId in r <==> Truthy(details.payer.payerId)
    ensures PayPalPayerId in r ==> r[PayPalPayerId] == Value(details.payer.payerId)
    ensures PayPalPaymentDetails in r <==> Truthy(details.fullResponse)
    ensures PayPalPaymentDetails in r ==> r[PayPalPaymentDetails] == Value(details.fullResponse)
  {
    var r := map[PayPalOrderId := Value(details.orderId), PayPalCaptureId := Value(details.captureId)];
    var r := if Truthy(details.payer.payerId) then r[PayPalPayerId := Value(details.payer.payerId)] else r;
    if Truthy(details.fullResponse) then r[PayPalPaymentDetails := Value(details.fullResponse)] else r
  }

  /** `{**a, **b}`: every key of either, the value of `b` winning. */
  function Merge(a: Record, b: Record): (r: Record)
    ensures r.Keys == a.Keys + b.Keys
    ensures forall k :: k in b ==> r[k] == b[k]
    ensures forall k :: k in a && k !in b ==> r[k] == a[k]
  {
    a + b
  }

  /** The row the handler builds, written as it builds it: a dict literal, then conditional key assignments. */
  method BuildDonationRecord(d: DonationData, donationId: string, receipt: string, captureId: Json)
    returns (record: Record)
    ensures record == DonationRecord(d, donationId, receipt, captureId)
  {
    record := RequiredFields(d, donationId, receipt, captureId);
    if Present(d.userId) {
      record := record[UserId := Text(d.userId.value)];
    }
    if Present(d.donorAddress) {
      record := record[DonorAddress := Text(d.donorAddress.value)];
    }
    if Present(d.donorEmail) {
      record := record[DonorEmail := Text(d.donorEmail.value)];
    }
  }

  /** The minimal row, built the same way. */
  method BuildMinimalRecord(d: DonationData, donationId: string, receipt: string, captureId: Json)
    returns (record: Record)
    ensures record == MinimalRecord(d, donationId, receipt, captureId)
  {
    record := RequiredFields(d, donationId, receipt, captureId);
    if Present(d.userId) {
      record := record[UserId := Text(d.userId.value)];
    }
  }

  /** The PayPal fields, assigned one key at a time. */
  method BuildPayPalFields(details: Extraction.PaymentDetails) returns (fields: Record)
    ensures fields == PayPalFields(details)
  {
    fields := map[];
    fields := fields[PayPalOrderId := Value(details.orderId)];
    fields := fields[PayPalCaptureId := Value(details.captureId)];
    if Truthy(details.payer.payerId) {
      fields := fields[PayPalPayerId := Value(details.payer.payerId)];
    }
    if Truthy(details.fullResponse) {
      fields := fields[PayPalPaymentDetails := Value(details.fullResponse)];
    }
  }

  // ---------------------------------------------------------------------
  // Properties of the rows

  /** The minimal row is part of the full row: a subset of its columns, with the same values. */
  lemma MinimalWithinFull(d: DonationData, donationId: string, receipt: string, captureId: Json)
    ensures var full, minimal := DonationRecord(d, donationId, receipt, captureId), MinimalRecord(d, donationId, receipt, captureId);
            minimal.Keys <= full.Keys && forall c: Column :: c in minimal ==> minimal[c] == full[c]
  {
  }

  /** The minimal row drops exactly the donor address and email the full row has. */
  lemma MinimalDropsAddressAndEmail(d: DonationData, donationId: string, receipt: string, captureId: Json)
    ensures var full, minimal := DonationRecord(d, donationId, receipt, captureId), MinimalRecord(d, donationId, receipt, captureId);
            forall c: Column :: c in full && c !in minimal <==>
              (c == DonorAddress && Present(d.donorAddress)) || (c == DonorEmail && Present(d.donorEmail))
  {
    var full, minimal := DonationRecord(d, donationId, receipt, captureId), MinimalRecord(d, donationId, receipt, captureId);
    forall c: Column
      ensures c in full && c !in minimal <==>
              (c == DonorAddress && Present(d.donorAddress)) || (c == DonorEmail && Present(d.donorEmail))
    {
      if c in RequiredColumns {
        assert c in full && c in minimal;
      } else if c == UserId {
      } else if c in DonorColumns {
        assert c !in minimal;
      } else {
        assert c !in full;
      }
    }
  }

  // ---------------------------------------------------------------------
  // Storing the row

  /** The result of one `insert(...).execute()`: its `data`, or the text of the exception raised. */
  datatype InsertResult = Inserted(data: Json) | InsertFailed(message: string)

  /** What the database does: whether a client can be created, and the two insert attempts' results. */
  datatype Database = Database(clientReady: bool, first: InsertResult, retry: InsertResult)

  /** The rows sent, in order, and the donation returned to the caller. */
  datatype Saved = Saved(attempts: seq<Record>, donation: Option<Json>)

  /** The insert error names a missing column, ignoring case. */
  predicate IsMissingColumnError(message: string) {
    var m := Lower(message);
    Contains(m, "column") || Contains(m, "pgrst204")
  }

  /** `result.data[0] if isinstance(result.data, list) else result.data`, when `result.data` is non-empty. */
  function DonationOf(data: Json): (r: Option<Json>)
    ensures r.Some? <==> Truthy(data)
    ensures r.Some? && data.JArray? ==> r.value == data.items[0]
    ensures r.Some? && !data.JArray? ==> r.value == data
  {
    if !Truthy(data) then None
    else if data.JArray? then Some(data.items[0])
    else Some(data)
  }

  /**
   * Storing the donation: the full row first; on an error that names a
   * missing column the minimal row next; any other failure is swallowed
   * and leaves the donation empty.
   */
  function SaveDonation(db: Database, full: Record, minimal: Record): (s: Saved)
    ensures !db.clientReady ==> s == Saved([], None)
    ensures db.clientReady ==> 1 <= |s.attempts| <= 2 && s.attempts[0] == full
    ensures |s.attempts| == 2 <==> db.clientReady && db.first.InsertFailed? && IsMissingColumnError(db.first.message)
    ensures |s.attempts| == 2 ==> s.attempts[1] == minimal
    ensures s.donation.Some? ==>
              var last := if |s.attempts| == 2 then db.retry else db.first;
              last.Inserted? && Truthy(last.data) && s.donation == DonationOf(last.data)
    ensures db.clientReady && db.first.Inserted? ==> s.donation == DonationOf(db.first.data)
    ensures |s.attempts| == 2 ==> s.donation == (if db.retry.Inserted? then DonationOf(db.retry.data) else None)
    ensures db.clientReady && db.first.InsertFailed? && !IsMissingColumnError(db.first.message) ==> s.donation.None?
  {
    if !db.clientReady then Saved([], None)
    else
      match db.first
      case Inserted(data) => Saved([full], DonationOf(data))
      case InsertFailed(message) =>
        if !IsMissingColumnError(message) then Saved([full], None)
        else
          match db.retry
          case Inserted(data) => Saved([full, minimal], DonationOf(data))
          case InsertFailed(_) => Saved([full, minimal], None)
  }

  /** The fallback test does not depend on case. */
  lemma MissingColumnIgnoresCase(message: string)
    ensures IsMissingColumnError(Upper(message)) == IsMissingColumnError(message)
  {
    LowerOfUpper(message);
  }

  /** PostgREST's missing-column code, in any case, triggers the fallback. */
  lemma MissingColumnCode(prefix: string, suffix: string)
    ensures IsMissingColumnError(prefix + "PGRST204" + suffix)
  {
    var s := prefix + "PGRST204" + suffix;
    var m := Lower(s);
    assert m[|prefix|..|prefix| + 8] == "pgrst204";
    assert OccursAt(m, "pgrst204", |prefix|);
  }

  /** An error message that mentions a column triggers the fallback. */
  lemma MissingColumnWord(prefix: string, suffix: string)
    ensures IsMissingColumnError(prefix + "Column" + suffix)
  {
    var s := prefix + "Column" + suffix;
    var m := Lower(s);
    assert m[|prefix|..|prefix| + 6] == "column";
    assert OccursAt(m, "column", |prefix|);
  }
}
