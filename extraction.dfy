/**
 * Reading the payment details out of a completed PayPal Orders v2 capture
 * response: the first purchase unit, its first capture, the amount, the
 * payer and the timestamps, each with the handler's defaults. Every read
 * is `d.get(key, default)` guarded by `isinstance(d, dict)`, so the only
 * failures are the exceptions Python raises on `[0]` and on `.get` of a
 * value that is not a dict; the handler reports them as a 500.
 */
module Extraction {
  import opened PyRuntime
  import opened Json

  datatype Amount = Amount(value: Json, currency: Json)

  datatype Payer = Payer(payerId: Json, email: Json, name: string)

  /** The `payment_details` dict the handler builds. */
  datatype PaymentDetails = PaymentDetails(
    orderId: Json,
    captureId: Json,
    transactionId: Json,
    status: string,
    amount: Amount,
    payer: Payer,
    createTime: Json,
    updateTime: Json,
    fullResponse: Json)

  const EmptyObject := JObject([])

  /** `v.get(key, default) if isinstance(v, dict) else otherwise` */
  function GetIfDict(v: Json, key: string, default: Json, otherwise: Json): Json {
    if v.JObject? then Lookup(v.members, key, default) else otherwise
  }

  /** `order.get("purchase_units", [{}])[0]`: the first unit, or an empty dict when the order has none. */
  function PurchaseUnit(order: seq<(string, Json)>): (r: Result<Json>)
    ensures !HasKey(order, "purchase_units") ==> r == Ok(EmptyObject)
    ensures var units := Lookup(order, "purchase_units", JArray([EmptyObject]));
            && (units.JArray? && units.items != [] ==> r == Ok(units.items[0]))
            && (units == JArray([]) ==> r == Err(IndexError("list index out of range")))
  {
    First(Lookup(order, "purchase_units", JArray([EmptyObject])))
  }

  /** `unit.get("payments", {}).get("captures", [{}])[0]` when the unit is a dict, else `{}`. */
  function CaptureOf(unit: Json): (r: Result<Json>)
    ensures !unit.JObject? ==> r == Ok(EmptyObject)
    ensures unit.JObject? && !HasKey(unit.members, "payments") ==> r == Ok(EmptyObject)
    ensures unit.JObject? && !Lookup(unit.members, "payments", EmptyObject).JObject? ==>
              r == Err(NoAttribute(Lookup(unit.members, "payments", EmptyObject), "get"))
  {
    if !unit.JObject? then Ok(EmptyObject)
    else
      var payments := Lookup(unit.members, "payments", EmptyObject);
      var captures :- Get(payments, "captures", JArray([EmptyObject]));
      First(captures)
  }

  /** The capture the details are read from: the first capture of the first purchase unit. */
  function SelectedCapture(order: seq<(string, Json)>): Result<Json> {
    var unit :- PurchaseUnit(order);
    CaptureOf(unit)
  }

  /**
   * One field of the amount: `source.get("amount", {}).get(key, default)`,
   * where the source is the capture if it is a dict, else the purchase unit
   * if that is a dict; with neither the default is used.
   */
  function AmountField(capture: Json, unit: Json, key: string, default: Json): (r: Result<Json>)
    ensures var source := if capture.JObject? then capture else unit;
            && (!source.JObject? ==> r == Ok(default))
            && (source.JObject? && !HasKey(source.members, "amount") ==> r == Ok(default))
            && (source.JObject? && Lookup(source.members, "amount", EmptyObject).JObject? ==>
                  r == Ok(Lookup(Lookup(source.members, "amount", EmptyObject).members, key, default)))
            && (source.JObject? && !Lookup(source.members, "amount", EmptyObject).JObject? ==>
                  r == Err(NoAttribute(Lookup(source.members, "amount", EmptyObject), "get")))
  {
    var source := if capture.JObject? then capture else unit;
    if !source.JObject? then Ok(default)
    else Get(Lookup(source.members, "amount", EmptyObject), key, default)
  }

  /** `f"{given_name} {surname}".strip()` when the payer has a name, else "". */
  function PayerName(payer: Json): (r: Result<string>)
    ensures !payer.JObject? || !Truthy(Lookup(payer.members, "name", JNull)) ==> r == Ok("")
    ensures payer.JObject? && Truthy(Lookup(payer.members, "name", JNull)) ==>
              var name := Lookup(payer.members, "name", EmptyObject);
              r.Err? <==> !name.JObject?
    ensures r.Err? ==> r.error.AttributeError?
  {
    if !payer.JObject? || !Truthy(Lookup(payer.members, "name", JNull)) then Ok("")
    else
      var name := Lookup(payer.members, "name", EmptyObject);
      if !name.JObject? then Err(NoAttribute(name, "get"))
      else
        var given := Lookup(name.members, "given_name", JString(""));
        var surname := Lookup(name.members, "surname", JString(""));
        Ok(Strip(Format(given) + " " + Format(surname)))
  }

  /**
   * The payment details of a completed order, reading the fields in the
   * order the handler's dict literal does, so that the first exception
   * raised is the one reported.
   */
  function ExtractPaymentDetails(order: seq<(string, Json)>, status: string): (r: Result<PaymentDetails>)
    ensures r.Ok? ==> r.value.captureId == r.value.transactionId
    ensures r.Ok? ==> r.value.status == status && r.value.fullResponse == JObject(order)
    ensures r.Ok? ==> r.value.orderId == Lookup(order, "id", JString(""))
    ensures PurchaseUnit(order).Err? ==> r == Err(PurchaseUnit(order).error)
  {
    var unit :- PurchaseUnit(order);
    var capture :- CaptureOf(unit);
    var payer := Lookup(order, "payer", EmptyObject);
    var value :- AmountField(capture, unit, "value", JString("0"));
    var currency :- AmountField(capture, unit, "currency_code", JString("USD"));
    var name :- PayerName(payer);
    Ok(PaymentDetails(
      orderId := Lookup(order, "id", JString("")),
      captureId := GetIfDict(capture, "id", JString(""), JString("")),
      transactionId := GetIfDict(capture, "id", JString(""), JString("")),
      status := status,
      amount := Amount(value, currency),
      payer := Payer(
        GetIfDict(payer, "payer_id", JString(""), JString("")),
        GetIfDict(payer, "email_address", JString(""), JString("")),
        name),
      createTime := GetIfDict(capture, "create_time", JString(""), Lookup(order, "create_time", JString(""))),
      updateTime := GetIfDict(capture, "update_time", JString(""), Lookup(order, "update_time", JString(""))),
      fullResponse := JObject(order)))
  }

  // ---------------------------------------------------------------------
  // Properties of the extraction

  /** An empty `purchase_units` list makes the extraction fail with IndexError. */
  lemma EmptyPurchaseUnitsFail(order: seq<(string, Json)>, status: string)
    requires Lookup(order, "purchase_units", JArray([EmptyObject])) == JArray([])
    ensures ExtractPaymentDetails(order, status) == Err(IndexError("list index out of range"))
  {
  }

  /** An empty `captures` list in the first purchase unit fails the same way. */
  lemma EmptyCapturesFail(order: seq<(string, Json)>, status: string, unit: Json)
    requires PurchaseUnit(order) == Ok(unit) && unit.JObject?
    requires Lookup(unit.members, "payments", EmptyObject).JObject?
    requires Lookup(Lookup(unit.members, "payments", EmptyObject).members, "captures", JArray([EmptyObject])) == JArray([])
    ensures ExtractPaymentDetails(order, status) == Err(IndexError("list index out of range"))
  {
  }

  /** The ids and timestamps come from the first capture of the first purchase unit. */
  lemma ReadsFirstCapture(order: seq<(string, Json)>, status: string, capture: seq<(string, Json)>)
    requires SelectedCapture(order) == Ok(JObject(capture))
    requires ExtractPaymentDetails(order, status).Ok?
    ensures var d := ExtractPaymentDetails(order, status).value;
            && d.captureId == Lookup(capture, "id", JString(""))
            && d.createTime == Lookup(capture, "create_time", JString(""))
            && d.updateTime == Lookup(capture, "update_time", JString(""))
  {
    var unit := PurchaseUnit(order).value;
    assert CaptureOf(unit) == Ok(JObject(capture));
  }

  /** When the first unit's `captures` is a non-empty list, its first element is the capture read. */
  lemma FirstOfCaptures(unit: seq<(string, Json)>, captures: seq<Json>)
    requires Lookup(unit, "payments", EmptyObject).JObject?
    requires Lookup(Lookup(unit, "payments", EmptyObject).members, "captures", JArray([EmptyObject])) == JArray(captures)
    requires captures != []
    ensures CaptureOf(JObject(unit)) == Ok(captures[0])
  {
  }

  /** Without an amount on the capture, the amount is "0" in "USD". */
  lemma AmountDefaults(order: seq<(string, Json)>, status: string, capture: seq<(string, Json)>)
    requires SelectedCapture(order) == Ok(JObject(capture))
    requires !HasKey(capture, "amount")
    ensures ExtractPaymentDetails(order, status).Ok? ==>
              ExtractPaymentDetails(order, status).value.amount == Amount(JString("0"), JString("USD"))
  {
  }

  /** An order with none of the fields read still yields details: every field takes its default. */
  lemma BareOrderDefaults(status: string)
    ensures ExtractPaymentDetails([], status) == Ok(PaymentDetails(
              JString(""), JString(""), JString(""), status,
              Amount(JString("0"), JString("USD")),
              Payer(JString(""), JString(""), ""),
              JString(""), JString(""), JObject([])))
  {
    assert PurchaseUnit([]) == Ok(EmptyObject);
    assert CaptureOf(EmptyObject) == Ok(EmptyObject);
  }

  /**
   * A capture that is a dict supplies the amount: `value` and
   * `currency_code` of its `amount` dict, each with its own default.
   */
  lemma ReadsCaptureAmount(order: seq<(string, Json)>, status: string, capture: seq<(string, Json)>, amount: seq<(string, Json)>)
    requires SelectedCapture(order) == Ok(JObject(capture))
    requires Lookup(capture, "amount", EmptyObject) == JObject(amount)
    ensures ExtractPaymentDetails(order, status).Ok? ==>
              ExtractPaymentDetails(order, status).value.amount
              == Amount(Lookup(amount, "value", JString("0")), Lookup(amount, "currency_code", JString("USD")))
  {
    var unit := PurchaseUnit(order).value;
    assert CaptureOf(unit) == Ok(JObject(capture));
  }

  /**
   * A capture that is not a dict leaves the amount to the purchase unit:
   * `value` and `currency_code` of the unit's `amount` dict.
   */
  lemma ReadsUnitAmount(order: seq<(string, Json)>, status: string, unit: seq<(string, Json)>, amount: seq<(string, Json)>)
    requires PurchaseUnit(order) == Ok(JObject(unit))
    requires CaptureOf(JObject(unit)).Ok? && !CaptureOf(JObject(unit)).value.JObject?
    requires Lookup(unit, "amount", EmptyObject) == JObject(amount)
    ensures var r := ExtractPaymentDetails(order, status);
            r.Ok? ==>
              && r.value.amount == Amount(Lookup(amount, "value", JString("0")), Lookup(amount, "currency_code", JString("USD")))
              && r.value.captureId == JString("")
  {
    var capture := CaptureOf(JObject(unit)).value;
    assert AmountField(capture, JObject(unit), "value", JString("0")) == Ok(Lookup(amount, "value", JString("0")));
    assert AmountField(capture, JObject(unit), "currency_code", JString("USD"))
           == Ok(Lookup(amount, "currency_code", JString("USD")));
  }

  /** The payer id and email come from the order's `payer` dict, "" when it is not a dict. */
  lemma ReadsPayer(order: seq<(string, Json)>, status: string)
    requires ExtractPaymentDetails(order, status).Ok?
    ensures var payer := Lookup(order, "payer", EmptyObject);
            var p := ExtractPaymentDetails(order, status).value.payer;
            && (payer.JObject? ==> p.payerId == Lookup(payer.members, "payer_id", JString(""))
                                   && p.email == Lookup(payer.members, "email_address", JString("")))
            && (!payer.JObject? ==> p.payerId == JString("") && p.email == JString("") && p.name == "")
            && PayerName(payer) == Ok(p.name)
  {
  }

  /** The payer name joins given name and surname with one space and strips the ends. */
  lemma PayerNameJoin(payer: seq<(string, Json)>, name: seq<(string, Json)>, given: string, surname: string)
    requires Lookup(payer, "name", JNull) == JObject(name) && name != []
    requires Lookup(name, "given_name", JString("")) == JString(given)
    requires Lookup(name, "surname", JString("")) == JString(surname)
    ensures PayerName(JObject(payer)) == Ok(Strip(given + " " + surname))
  {
    LookupIgnoresDefault(payer, "name", JNull, EmptyObject);
    assert Lookup(payer, "name", EmptyObject) == JObject(name);
    assert PayerName(JObject(payer)) == Ok(Strip(Format(JString(given)) + " " + Format(JString(surname))));
  }

  /** A payer without a name, or with an empty one, has the name "". */
  lemma PayerWithoutName(payer: seq<(string, Json)>)
    requires !Truthy(Lookup(payer, "name", JNull))
    ensures PayerName(JObject(payer)) == Ok("")
  {
  }

  /** When the key is present the default given to `get` does not matter. */
  lemma {:induction false} LookupIgnoresDefault(members: seq<(string, Json)>, key: string, d1: Json, d2: Json)
    requires HasKey(members, key)
    ensures Lookup(members, key, d1) == Lookup(members, key, d2)
  {
    if members[0].0 != key {
      var i :| 0 <= i < |members| && members[i].0 == key;
      assert members[1..][i - 1].0 == key;
      LookupIgnoresDefault(members[1..], key, d1, d2);
    }
  }
}
