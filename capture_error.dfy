/**
 * How `capture_payment` turns a PayPal capture response that is not "ok"
 * into an `HTTPException`: the builder that reads PayPal's JSON error body
 * (name, message, per-field details, debug id), its raw-text fallback, the
 * fallback for bodies that are not JSON or not shaped as expected, and the
 * cap on the forwarded status code. Exceptions that escape the builder are
 * wrapped by the capture step's generic handler.
 */
module CaptureError {
  import opened PyRuntime
  import opened Json

  /** An `HTTPException(status_code, detail)` raised by the handler. */
  datatype HttpError = HttpError(status: int, detail: string)

  /** What `response.json()` gave: a JSON value, or the parse failure's text. */
  datatype Body = Parsed(value: Json) | Unparsable(message: string)

  const ApiErrorHead := "PayPal API Error"
  const UnknownError := "Unknown error"

  /** The error body's `message`, else its `error`, else the 'Unknown error' placeholder. */
  function ErrorMessage(data: seq<(string, Json)>): (m: Json)
    ensures Truthy(m)
    ensures Truthy(Lookup(data, "message", JString(""))) ==> m == Lookup(data, "message", JString(""))
    ensures !Truthy(Lookup(data, "message", JString(""))) && Truthy(Lookup(data, "error", JString(""))) ==>
              m == Lookup(data, "error", JString(""))
    ensures !Truthy(Lookup(data, "message", JString(""))) && !Truthy(Lookup(data, "error", JString(""))) ==>
              m == JString(UnknownError)
  {
    var message := Lookup(data, "message", JString(""));
    var error := Lookup(data, "error", JString(""));
    if Truthy(message) then message else if Truthy(error) then error else JString(UnknownError)
  }

  function ErrorName(data: seq<(string, Json)>): Json {
    Lookup(data, "name", JString(""))
  }

  function ErrorDetails(data: seq<(string, Json)>): Json {
    Lookup(data, "details", JArray([]))
  }

  function DebugId(data: seq<(string, Json)>): Json {
    Lookup(data, "debug_id", JString(""))
  }

  /** `detail_parts`: the name if present, then the message unless it is the placeholder. */
  function HeaderParts(data: seq<(string, Json)>): seq<Json> {
    (if Truthy(ErrorName(data)) then [ErrorName(data)] else [])
    + (if ErrorMessage(data) != JString(UnknownError) then [ErrorMessage(data)] else [])
  }

  /** The index of the first value that is not a string, or the length when all are. */
  function FirstNonString(values: seq<Json>): (k: nat)
    ensures k <= |values|
    ensures forall i :: 0 <= i < k ==> values[i].JString?
    ensures k < |values| ==> !values[k].JString?
  {
    if values == [] || !values[0].JString? then 0
    else
      var k := FirstNonString(values[1..]);
      assert forall i :: 1 <= i < k + 1 ==> values[i] == values[1..][i - 1];
      1 + k
  }

  function Texts(values: seq<Json>): seq<string>
    requires forall i :: 0 <= i < |values| ==> values[i].JString?
  {
    seq(|values|, i requires 0 <= i < |values| => values[i].s)
  }

  /** `sep.join(values)`: a TypeError when some value is not a string. */
  function JoinStrings(sep: string, values: seq<Json>): (r: Result<string>)
    ensures r.Ok? <==> forall i :: 0 <= i < |values| ==> values[i].JString?
    ensures r.Err? ==> r.error.TypeError?
  {
    var k := FirstNonString(values);
    if k < |values| then
      Err(TypeError("sequence item " + IntToString(k) + ": expected str instance, "
                    + TypeName(values[k]) + " found"))
    else Ok(Join(sep, Texts(values)))
  }

  /** The message so far once `detail_parts` is joined into it. */
  function Header(data: seq<(string, Json)>): Result<string> {
    var parts := HeaderParts(data);
    if parts == [] then Ok(ApiErrorHead)
    else
      var joined :- JoinStrings(" - ", parts);
      Ok(ApiErrorHead + ": " + joined)
  }

  /** What one element of `error_details` contributes to `detail_list`. */
  datatype Entry = Dropped | Kept(rendered: Json) | Raised(error: PyError)

  function DescriptionSuffix(description: Json): string {
    if Truthy(description) then " - " + Format(description) else ""
  }

  /**
   * One detail entry: dropped when it has neither issue nor description,
   * otherwise "field: issue" (or the bare issue) followed by " - description".
   * A bare issue that is not a string cannot take the suffix: a list absorbs
   * its characters, anything else raises TypeError.
   */
  function RenderEntry(d: Json): (e: Entry)
    ensures e.Dropped? <==> SilentEntry(d)
    ensures !d.JObject? ==> e == Raised(NoAttribute(d, "get"))
    ensures d.JObject? && e.Raised? ==> e.error.TypeError?
    ensures e.Kept? && Truthy(Lookup(d.members, "field", JString(""))) ==> e.rendered.JString?
  {
    if !d.JObject? then Raised(NoAttribute(d, "get"))
    else
      var issue := Lookup(d.members, "issue", JString(""));
      var description := Lookup(d.members, "description", JString(""));
      var field := Lookup(d.members, "field", JString(""));
      if !Truthy(issue) && !Truthy(description) then Dropped
      else if Truthy(field) then
        Kept(JString(Format(field) + ": " + Format(issue) + DescriptionSuffix(description)))
      else if !Truthy(description) then Kept(issue)
      else
        match issue
        case JString(s) => Kept(JString(s + " - " + Format(description)))
        case JArray(items) => Kept(JArray(items + Chars(" - " + Format(description))))
        case _ => Raised(TypeError("unsupported operand type(s) for +=: '"
                                   + TypeName(issue) + "' and 'str'"))
  }

  /** `detail_list` after visiting `entries` in order, or the first exception raised. */
  function CollectDetails(entries: seq<Json>): Result<seq<Json>> {
    if entries == [] then Ok([])
    else
      var kept :- CollectDetails(entries[..|entries| - 1]);
      match RenderEntry(entries[|entries| - 1])
      case Dropped => Ok(kept)
      case Kept(v) => Ok(kept + [v])
      case Raised(e) => Err(e)
  }

  /**
   * The loop succeeds exactly when no entry raises, keeping at most one value
   * per entry; otherwise it fails with the exception of one of the entries.
   */
  lemma CollectDetailsOutcome(entries: seq<Json>)
    ensures CollectDetails(entries).Ok? <==> forall i :: 0 <= i < |entries| ==> !RenderEntry(entries[i]).Raised?
    ensures CollectDetails(entries).Ok? ==> |CollectDetails(entries).value| <= |entries|
    ensures CollectDetails(entries).Err? ==>
              exists i :: 0 <= i < |entries| && RenderEntry(entries[i]) == Raised(CollectDetails(entries).error)
  {
    CollectDetailsSucceeds(entries);
    CollectDetailsRaises(entries);
    CollectDetailsLength(entries);
  }

  lemma {:induction false} CollectDetailsLength(entries: seq<Json>)
    ensures CollectDetails(entries).Ok? ==> |CollectDetails(entries).value| <= |entries|
  {
    if entries != [] {
      CollectDetailsLength(entries[..|entries| - 1]);
    }
  }

  lemma {:induction false} CollectDetailsSucceeds(entries: seq<Json>)
    ensures CollectDetails(entries).Ok? <==> forall i :: 0 <= i < |entries| ==> !RenderEntry(entries[i]).Raised?
  {
    if entries != [] {
      var front, last := entries[..|entries| - 1], entries[|entries| - 1];
      CollectDetailsSucceeds(front);
      assert CollectDetails(entries).Ok? <==> CollectDetails(front).Ok? && !RenderEntry(last).Raised?;
      if CollectDetails(front).Err? {
        var i :| 0 <= i < |front| && RenderEntry(front[i]).Raised?;
        assert front[i] == entries[i];
      } else if !RenderEntry(last).Raised? {
        forall i | 0 <= i < |entries|
          ensures !RenderEntry(entries[i]).Raised?
        {
          if i < |front| {
            assert entries[i] == front[i];
          } else {
            assert entries[i] == last;
          }
        }
      }
    }
  }

  lemma {:induction false} CollectDetailsRaises(entries: seq<Json>)
    ensures CollectDetails(entries).Err? ==>
              exists i :: 0 <= i < |entries| && RenderEntry(entries[i]) == Raised(CollectDetails(entries).error)
  {
    if entries != [] {
      var front, last := entries[..|entries| - 1], entries[|entries| - 1];
      CollectDetailsRaises(front);
      if CollectDetails(front).Err? {
        var i :| 0 <= i < |front| && RenderEntry(front[i]) == Raised(CollectDetails(front).error);
        assert front[i] == entries[i];
        assert CollectDetails(entries) == CollectDetails(front);
      } else if RenderEntry(last).Raised? {
        assert CollectDetails(entries) == Err(RenderEntry(last).error);
      }
    }
  }

  /** An exception raised by one entry ends the whole loop with that exception. */
  lemma {:induction false} CollectDetailsStopsAtRaise(entries: seq<Json>, j: nat)
    requires 0 < j <= |entries| && CollectDetails(entries[..j]).Err?
    ensures CollectDetails(entries) == CollectDetails(entries[..j])
    decreases |entries| - j
  {
    if j == |entries| {
      assert entries[..j] == entries;
    } else {
      var front := entries[..|entries| - 1];
      assert front[..j] == entries[..j];
      CollectDetailsStopsAtRaise(front, j);
    }
  }

  /** The " (…)" suffix listing the kept detail entries, empty when none is kept. */
  function DetailsSuffix(details: Json): Result<string> {
    if !Truthy(details) then Ok("")
    else
      var entries :- Iterate(details);
      var kept :- CollectDetails(entries);
      if kept == [] then Ok("")
      else
        var joined :- JoinStrings("; ", kept);
        Ok(" (" + joined + ")")
  }

  /** The details part is empty, or one parenthesised list after a space; with no details it is empty. */
  lemma DetailsSuffixShape(details: Json)
    ensures !Truthy(details) ==> DetailsSuffix(details) == Ok("")
    ensures DetailsSuffix(details).Ok? ==>
              var t := DetailsSuffix(details).value;
              t == "" || (StartsWith(t, " (") && EndsWith(t, ")"))
  {
    if DetailsSuffix(details).Ok? && DetailsSuffix(details).value != "" {
      var joined := JoinStrings("; ", CollectDetails(Iterate(details).value).value).value;
      assert DetailsSuffix(details).value == " (" + joined + ")";
      assert (" (" + joined + ")")[..2] == " (";
    }
  }

  /** What interrupts the details part: a TypeError, or the AttributeError of an entry that is not an object. */
  lemma DetailsSuffixFails(details: Json)
    requires DetailsSuffix(details).Err?
    ensures DetailsSuffix(details).error.TypeError? || DetailsSuffix(details).error.AttributeError?
  {
    if Iterate(details).Ok? && CollectDetails(Iterate(details).value).Err? {
      CollectDetailsOutcome(Iterate(details).value);
    }
  }

  function DebugSuffix(debugId: Json): string {
    if Truthy(debugId) then " [Debug ID: " + Format(debugId) + "]" else ""
  }

  const RawFallbackHead := "PayPal API returned error (HTTP "

  /** The message used when the JSON body says nothing usable. */
  function RawFallback(status: int, text: string): string {
    RawFallbackHead + IntToString(status) + "): " + Take(text, 300)
  }

  /** The raw-text fallback names the status and ends with at most 300 characters of the body. */
  lemma RawFallbackShape(status: int, text: string)
    ensures var m := RawFallback(status, text);
            && StartsWith(m, RawFallbackHead + IntToString(status) + "): ")
            && EndsWith(m, Take(text, 300))
            && |m| <= |RawFallbackHead + IntToString(status) + "): "| + 300
  {
    var head := RawFallbackHead + IntToString(status) + "): ";
    assert RawFallback(status, text) == head + Take(text, 300);
    AppendKeepsEnds(head, Take(text, 300), head);
  }

  /** The message built from a JSON error object, or the exception that interrupts it. */
  function JsonErrorDetail(status: int, text: string, data: seq<(string, Json)>): Result<string> {
    var head :- Header(data);
    var suffix :- DetailsSuffix(ErrorDetails(data));
    Ok(Finish(status, text, head + suffix + DebugSuffix(DebugId(data))))
  }

  /**
   * A built message is the raw-text fallback or starts with the header; a
   * failure is a TypeError or an entry's AttributeError, and a header
   * failure is reported before anything else.
   */
  lemma JsonErrorDetailShape(status: int, text: string, data: seq<(string, Json)>)
    ensures var r := JsonErrorDetail(status, text, data);
            && (r.Ok? ==> r.value == RawFallback(status, text) || StartsWith(r.value, ApiErrorHead))
            && (r.Err? ==> r.error.TypeError? || r.error.AttributeError?)
            && (Header(data).Err? ==> r == Err(Header(data).error))
  {
    var r := JsonErrorDetail(status, text, data);
    HeaderFails(data);
    if Header(data).Ok? {
      var head := Header(data).value;
      var details := ErrorDetails(data);
      HeaderShape(data);
      if DetailsSuffix(details).Err? {
        DetailsSuffixFails(details);
      } else {
        var rest := DetailsSuffix(details).value + DebugSuffix(DebugId(data));
        var message := head + rest;
        AppendKeepsEnds(head, rest, ApiErrorHead);
        ConcatAssoc(head, DetailsSuffix(details).value, DebugSuffix(DebugId(data)));
        assert r == Ok(Finish(status, text, message));
        FinishNeverBlank(status, text, message);
      }
    }
  }

  /** The built message, unless it is only the header or blank, in which case the raw-text fallback. */
  function Finish(status: int, text: string, message: string): string {
    if message == ApiErrorHead || Strip(message) == "" then RawFallback(status, text) else message
  }

  /** The message sent is the built one exactly when that is neither the bare header nor blank; it is never either. */
  lemma FinishNeverBlank(status: int, text: string, message: string)
    ensures var m := Finish(status, text, message);
            && (m == message || m == RawFallback(status, text))
            && (m == message <==> message != ApiErrorHead && Strip(message) != "")
            && Strip(m) != "" && m != ApiErrorHead
  {
    var fallback := RawFallback(status, text);
    assert fallback[0] == 'P';
    assert !IsSpace(fallback[0]);
    assert |fallback| > |ApiErrorHead|;
  }

  /** A message that goes beyond the header is kept, and never reads as the raw-text fallback. */
  lemma FinishKeepsLongMessage(status: int, text: string, message: string)
    requires StartsWith(message, ApiErrorHead) && |message| > |ApiErrorHead|
    ensures Finish(status, text, message) == message
    ensures message != RawFallback(status, text)
  {
    assert message[0] == message[..|ApiErrorHead|][0] == 'P';
    assert !IsSpace(message[0]);
    assert message[11] == message[..|ApiErrorHead|][11] == 'E';
    assert RawFallback(status, text)[11] == 'r';
  }

  /**
   * The JSON branch of the capture error handling, written as the handler
   * builds it: `detail_parts`, then `detail_msg` grown by `+=`.
   */
  method BuildJsonErrorDetail(status: int, text: string, data: seq<(string, Json)>)
    returns (r: Result<string>)
    ensures r == JsonErrorDetail(status, text, data)
  {
    var message := ErrorMessage(data);
    var name := ErrorName(data);
    var details := ErrorDetails(data);
    var debugId := DebugId(data);

    var parts: seq<Json> := [];
    if Truthy(name) {
      parts := parts + [name];
    }
    if Truthy(message) && message != JString(UnknownError) {
      parts := parts + [message];
    }
    assert parts == HeaderParts(data);
    var detailMsg := ApiErrorHead;
    if parts != [] {
      var joined := JoinStrings(" - ", parts);
      if joined.Err? {
        return Err(joined.error);
      }
      detailMsg := ApiErrorHead + ": " + joined.value;
    }
    ghost var head := detailMsg;
    assert Header(data) == Ok(head);

    var suffix := DetailsText(details);
    if suffix.Err? {
      return Err(suffix.error);
    }
    detailMsg := detailMsg + suffix.value;
    if Truthy(debugId) {
      detailMsg := detailMsg + " [Debug ID: " + Format(debugId) + "]";
    }
    ghost var built := detailMsg;
    assert built == head + suffix.value + DebugSuffix(debugId);
    if detailMsg == ApiErrorHead || Strip(detailMsg) == "" {
      detailMsg := RawFallback(status, text);
    }
    assert detailMsg == Finish(status, text, built);
    return Ok(detailMsg);
  }

  /** The part of `detail_msg` contributed by the detail entries. */
  method DetailsText(details: Json) returns (r: Result<string>)
    ensures r == DetailsSuffix(details)
  {
    if !Truthy(details) {
      return Ok("");
    }
    var iterated := Iterate(details);
    if iterated.Err? {
      return Err(iterated.error);
    }
    var detailList := BuildDetailList(iterated.value);
    if detailList.Err? {
      return Err(detailList.error);
    }
    if detailList.value == [] {
      return Ok("");
    }
    var joined := JoinStrings("; ", detailList.value);
    if joined.Err? {
      return Err(joined.error);
    }
    return Ok(" (" + joined.value + ")");
  }

  /** The loop over the detail entries, appending each rendered entry to `detail_list`. */
  method BuildDetailList(entries: seq<Json>) returns (r: Result<seq<Json>>)
    ensures r == CollectDetails(entries)
  {
    var detailList: seq<Json> := [];
    var i := 0;
    while i < |entries|
      invariant 0 <= i <= |entries|
      invariant CollectDetails(entries[..i]) == Ok(detailList)
    {
      assert entries[..i + 1][..i] == entries[..i];
      var entry := RenderDetail(entries[i]);
      match entry {
        case Raised(e) =>
          CollectDetailsStopsAtRaise(entries, i + 1);
          return Err(e);
        case Kept(v) =>
          detailList := detailList + [v];
        case Dropped =>
      }
      i := i + 1;
    }
    assert entries[..i] == entries;
    return Ok(detailList);
  }

  /** The body of that loop for one entry: `detail_str` built and extended by `+=`. */
  method RenderDetail(d: Json) returns (entry: Entry)
    ensures entry == RenderEntry(d)
  {
    if !d.JObject? {
      return Raised(NoAttribute(d, "get"));
    }
    var issue := Lookup(d.members, "issue", JString(""));
    var description := Lookup(d.members, "description", JString(""));
    var field := Lookup(d.members, "field", JString(""));
    if !(Truthy(issue) || Truthy(description)) {
      return Dropped;
    }
    var detailStr := if Truthy(field) then JString(Format(field) + ": " + Format(issue)) else issue;
    ghost var rendered := Format(field) + ": " + Format(issue) + DescriptionSuffix(description);
    if !Truthy(description) {
      assert rendered == Format(field) + ": " + Format(issue);
    }
    if Truthy(description) {
      match detailStr
      case JString(s) =>
        assert Truthy(field) ==> s + " - " + Format(description) == rendered;
        detailStr := JString(s + " - " + Format(description));
      case JArray(items) =>
        detailStr := JArray(items + Chars(" - " + Format(description)));
      case _ =>
        return Raised(TypeError("unsupported operand type(s) for +=: '"
                                + TypeName(detailStr) + "' and 'str'"));
    }
    return Kept(detailStr);
  }

  const TextDetailHead := "PayPal API error (HTTP "

  /**
   * The message for a body that is not a usable JSON error object: the
   * status and at most 500 characters of the body, or a note that there was none.
   */
  function TextDetail(status: int, text: string): (m: string)
    ensures text != "" ==>
              var head := TextDetailHead + IntToString(status) + "): ";
              && StartsWith(m, head) && EndsWith(m, Take(text, 500))
              && |m| == |head| + Min(|text|, 500)
    ensures text == "" ==> m == "PayPal API returned error status " + IntToString(status) + " with no response body"
  {
    if text != "" then
      var head := TextDetailHead + IntToString(status) + "): ";
      AppendKeepsEnds(head, Take(text, 500), head);
      head + Take(text, 500)
    else "PayPal API returned error status " + IntToString(status) + " with no response body"
  }

  /**
   * The capture step's generic handler: any other exception becomes a 400.
   * A blank message is replaced by "PayPal API call failed (<class>): " and
   * the message; the exceptions that reach this handler in the model (the
   * AttributeError of `.get` on a value that is not a dict) never have one.
   */
  function CaptureEscape(e: PyError): (f: HttpError)
    ensures f.status == 400 && StartsWith(f.detail, "PayPal capture failed: ")
  {
    var message :=
      if Strip(e.message) == "" then "PayPal API call failed (" + e.ClassName() + "): " + e.message
      else e.message;
    HttpError(400, "PayPal capture failed: " + message)
  }

  /** An exception with a message not blank is reported with that message as is. */
  lemma NamedErrorEscapes(e: PyError)
    requires Strip(e.message) != ""
    ensures CaptureEscape(e) == HttpError(400, "PayPal capture failed: " + e.message)
  {
  }

  /** A missing attribute is reported by its Python message. */
  lemma NoAttributeEscapes(v: Json, name: string)
    ensures CaptureEscape(NoAttribute(v, name)) == HttpError(400, "PayPal capture failed: " + NoAttribute(v, name).message)
  {
    var m := NoAttribute(v, name).message;
    assert m == "'" + TypeName(v) + "' object has no attribute '" + name + "'";
    assert m[0] == '\'' && !IsSpace(m[0]);
    NamedErrorEscapes(NoAttribute(v, name));
  }

  /** Whether the handler guarding the JSON branch catches `e` (ValueError, KeyError, TypeError). */
  predicate CaughtAsMalformed(e: PyError) {
    e.ValueError? || e.KeyError? || e.TypeError?
  }

  /**
   * The `HTTPException` for a capture response that is not "ok". Every path
   * that stays inside the error handling forwards `min(status, 500)`; only an
   * AttributeError (a body or detail entry that is not an object) escapes to
   * the generic handler and becomes a 400.
   */
  function CaptureFailure(status: int, text: string, body: Body): (f: HttpError)
    ensures f.status == Min(status, 500) || (f.status == 400 && StartsWith(f.detail, "PayPal capture failed: "))
    ensures f.status <= 500
    ensures body.Unparsable? ==> f == HttpError(Min(status, 500), TextDetail(status, text))
    ensures body.Parsed? && !body.value.JObject? ==>
              f == HttpError(400, "PayPal capture failed: " + NoAttribute(body.value, "get").message)
    ensures body.Parsed? && body.value.JObject? ==>
              var built := JsonErrorDetail(status, text, body.value.members);
              && (built.Ok? ==> f == HttpError(Min(status, 500), built.value))
              && (built.Err? && CaughtAsMalformed(built.error) ==> f == HttpError(Min(status, 500), TextDetail(status, text)))
              && (built.Err? && !CaughtAsMalformed(built.error) ==> f == CaptureEscape(built.error))
  {
    match body
    case Unparsable(_) => HttpError(Min(status, 500), TextDetail(status, text))
    case Parsed(v) =>
      if !v.JObject? then NoAttributeEscapes(v, "get"); CaptureEscape(NoAttribute(v, "get"))
      else
        match JsonErrorDetail(status, text, v.members)
        case Ok(message) => HttpError(Min(status, 500), message)
        case Err(e) =>
          if CaughtAsMalformed(e) then HttpError(Min(status, 500), TextDetail(status, text))
          else CaptureEscape(e)
  }

  /**
   * For a JSON error object the status is capped at 500 unless an entry that
   * is not an object escapes as an AttributeError, which becomes the 400.
   */
  lemma JsonObjectFailure(status: int, text: string, data: seq<(string, Json)>)
    ensures var f := CaptureFailure(status, text, Parsed(JObject(data)));
            var built := JsonErrorDetail(status, text, data);
            && (built.Ok? ==> f == HttpError(Min(status, 500), built.value))
            && (built.Err? && built.error.TypeError? ==> f == HttpError(Min(status, 500), TextDetail(status, text)))
            && (built.Err? && !built.error.TypeError? ==> built.error.AttributeError? && f == CaptureEscape(built.error))
  {
    JsonErrorDetailShape(status, text, data);
  }

  /** A 4xx error object whose message can be built keeps its status code. */
  lemma ClientErrorPassesThrough(status: int, text: string, data: seq<(string, Json)>)
    requires 400 <= status < 500 && JsonErrorDetail(status, text, data).Ok?
    ensures CaptureFailure(status, text, Parsed(JObject(data))).status == status
  {
  }

  // ---------------------------------------------------------------------
  // Properties of the message builder

  /** An entry that says nothing: an object with neither an issue nor a description. */
  predicate SilentEntry(d: Json) {
    d.JObject?
    && !Truthy(Lookup(d.members, "issue", JString("")))
    && !Truthy(Lookup(d.members, "description", JString("")))
  }

  /** The error object carries no name, no real message, no speaking detail entry and no debug id. */
  predicate NothingUsable(data: seq<(string, Json)>) {
    var details := ErrorDetails(data);
    && !Truthy(ErrorName(data))
    && ErrorMessage(data) == JString(UnknownError)
    && (Truthy(details) ==>
          Iterate(details).Ok? && forall i :: 0 <= i < |Iterate(details).value| ==> SilentEntry(Iterate(details).value[i]))
    && !Truthy(DebugId(data))
  }

  lemma {:induction false} SilentEntriesKeepNothing(entries: seq<Json>)
    requires forall i :: 0 <= i < |entries| ==> SilentEntry(entries[i])
    ensures CollectDetails(entries) == Ok([])
  {
    if entries != [] {
      SilentEntriesKeepNothing(entries[..|entries| - 1]);
    }
  }

  lemma {:induction false} SpeakingEntryIsKept(entries: seq<Json>, j: nat)
    requires j < |entries| && !SilentEntry(entries[j])
    requires CollectDetails(entries).Ok?
    ensures CollectDetails(entries).value != []
  {
    var last := |entries| - 1;
    var front := entries[..last];
    var entry := RenderEntry(entries[last]);
    assert CollectDetails(front).Ok? && !entry.Raised?;
    var kept := CollectDetails(front).value;
    assert CollectDetails(entries) == Ok(if entry.Kept? then kept + [entry.rendered] else kept);
    if j < last {
      assert front[j] == entries[j];
      SpeakingEntryIsKept(front, j);
    } else {
      SpeakingNotDropped(entries[last]);
    }
  }

  lemma SpeakingNotDropped(d: Json)
    requires !SilentEntry(d)
    ensures !RenderEntry(d).Dropped?
  {
  }

  /** With nothing usable in the body, the message is the raw-text fallback. */
  lemma RawTextFallback(status: int, text: string, data: seq<(string, Json)>)
    requires NothingUsable(data)
    ensures JsonErrorDetail(status, text, data) == Ok(RawFallback(status, text))
  {
    var details := ErrorDetails(data);
    if Truthy(details) {
      SilentEntriesKeepNothing(Iterate(details).value);
    }
    assert HeaderParts(data) == [];
    assert Header(data) == Ok(ApiErrorHead);
    assert DetailsSuffix(details) == Ok("");
    assert DebugSuffix(DebugId(data)) == "";
    assert ApiErrorHead + "" + "" == ApiErrorHead;
    assert JsonErrorDetail(status, text, data) == Ok(Finish(status, text, ApiErrorHead));
  }

  /** Anything usable in the body suppresses the fallback: the message then starts with the header. */
  lemma FallbackSuppressed(status: int, text: string, data: seq<(string, Json)>)
    requires !NothingUsable(data)
    requires JsonErrorDetail(status, text, data).Ok?
    ensures StartsWith(JsonErrorDetail(status, text, data).value, ApiErrorHead)
    ensures JsonErrorDetail(status, text, data).value != RawFallback(status, text)
  {
    var head := Header(data).value;
    var details := ErrorDetails(data);
    var suffix := DetailsSuffix(details).value;
    var debug := DebugSuffix(DebugId(data));
    var message := head + suffix + debug;
    assert JsonErrorDetail(status, text, data) == Ok(Finish(status, text, message));
    HeaderShape(data);
    if HeaderParts(data) == [] && !Truthy(DebugId(data)) {
      SpeakingDetailsShow(details);
    }
    assert |message| > |ApiErrorHead|;
    ConcatAssoc(head, suffix, debug);
    AppendKeepsEnds(head, suffix + debug, ApiErrorHead);
    FinishKeepsLongMessage(status, text, message);
  }

  /** The header is the bare head without parts, else the head and ": " before the parts. */
  lemma HeaderShape(data: seq<(string, Json)>)
    requires Header(data).Ok?
    ensures StartsWith(Header(data).value, ApiErrorHead)
    ensures HeaderParts(data) == [] ==> Header(data).value == ApiErrorHead
    ensures HeaderParts(data) != [] ==> StartsWith(Header(data).value, ApiErrorHead + ": ")
    ensures HeaderParts(data) != [] ==> |Header(data).value| > |ApiErrorHead|
  {
  }

  /** Writing the header fails exactly when a part is not a string, and then with TypeError. */
  lemma HeaderFails(data: seq<(string, Json)>)
    ensures Header(data).Ok? <==> forall i :: 0 <= i < |HeaderParts(data)| ==> HeaderParts(data)[i].JString?
    ensures Header(data).Err? ==> Header(data).error.TypeError?
  {
  }

  /** Details that are not all silent show up in the message, when they render at all. */
  lemma SpeakingDetailsShow(details: Json)
    requires DetailsSuffix(details).Ok? && Truthy(details)
    requires !(Iterate(details).Ok? && forall i :: 0 <= i < |Iterate(details).value| ==> SilentEntry(Iterate(details).value[i]))
    ensures DetailsSuffix(details).value != ""
  {
    var entries := Iterate(details).value;
    var j :| 0 <= j < |entries| && !SilentEntry(entries[j]);
    SpeakingEntryIsKept(entries, j);
  }

  /** A present debug id is always the last thing in the message. */
  lemma DebugIdIsLast(status: int, text: string, data: seq<(string, Json)>)
    requires JsonErrorDetail(status, text, data).Ok?
    requires Truthy(DebugId(data))
    ensures EndsWith(JsonErrorDetail(status, text, data).value, " [Debug ID: " + Format(DebugId(data)) + "]")
  {
    var head := Header(data).value;
    var suffix := DetailsSuffix(ErrorDetails(data)).value;
    var tail := " [Debug ID: " + Format(DebugId(data)) + "]";
    HeaderShape(data);
    assert DebugSuffix(DebugId(data)) == tail;
    assert JsonErrorDetail(status, text, data) == Ok(Finish(status, text, head + suffix + tail));
    FinishKeepsTail(status, text, head, suffix, tail);
  }

  /** A message led by the header and ending in a non-empty tail is kept, tail last. */
  lemma FinishKeepsTail(status: int, text: string, head: string, middle: string, tail: string)
    requires StartsWith(head, ApiErrorHead) && tail != []
    ensures Finish(status, text, head + middle + tail) == head + middle + tail
    ensures EndsWith(head + middle + tail, tail)
  {
    var message := head + middle + tail;
    AppendKeepsEnds(head, middle + tail, ApiErrorHead);
    assert message == head + (middle + tail);
    AppendKeepsEnds(head + middle, tail, "");
    FinishKeepsLongMessage(status, text, message);
  }

  /** A detail entry whose issue, description and field are strings (or absent). */
  predicate TextEntry(d: Json) {
    d.JObject?
    && Lookup(d.members, "issue", JString("")).JString?
    && Lookup(d.members, "description", JString("")).JString?
    && Lookup(d.members, "field", JString("")).JString?
  }

  function Issue(d: Json): string requires TextEntry(d) { Lookup(d.members, "issue", JString("")).s }
  function Description(d: Json): string requires TextEntry(d) { Lookup(d.members, "description", JString("")).s }
  function Field(d: Json): string requires TextEntry(d) { Lookup(d.members, "field", JString("")).s }

  /** A kept entry's text: "field: issue" or the bare issue, then " - description" when there is one. */
  function EntryText(field: string, issue: string, description: string): string {
    (if field != "" then field + ": " + issue else issue)
    + (if description != "" then " - " + description else "")
  }

  /** The texts of the kept entries, in input order. */
  function KeptTexts(entries: seq<Json>): seq<string>
    requires forall i :: 0 <= i < |entries| ==> TextEntry(entries[i])
  {
    if entries == [] then []
    else
      KeptTexts(entries[..|entries| - 1]) + KeptText(entries[|entries| - 1])
  }

  /** What one string-valued entry adds to the kept texts. */
  function KeptText(d: Json): seq<string>
    requires TextEntry(d)
  {
    if Issue(d) == "" && Description(d) == "" then [] else [EntryText(Field(d), Issue(d), Description(d))]
  }

  function Strings(texts: seq<string>): seq<Json> {
    seq(|texts|, i requires 0 <= i < |texts| => JString(texts[i]))
  }

  /** A string-valued entry is dropped exactly when issue and description are empty, else rendered as EntryText. */
  lemma EntryFormatting(d: Json)
    requires TextEntry(d)
    ensures RenderEntry(d) ==
              if Issue(d) == "" && Description(d) == "" then Dropped
              else Kept(JString(EntryText(Field(d), Issue(d), Description(d))))
  {
    var issue := Lookup(d.members, "issue", JString(""));
    var description := Lookup(d.members, "description", JString(""));
    var field := Lookup(d.members, "field", JString(""));
    assert Format(issue) == Issue(d) && Format(description) == Description(d) && Format(field) == Field(d);
    assert Truthy(issue) == (Issue(d) != "") && Truthy(description) == (Description(d) != "");
    assert Truthy(field) == (Field(d) != "");
    if Issue(d) == "" && Description(d) == "" {
    } else if Field(d) != "" {
      assert DescriptionSuffix(description) == (if Description(d) != "" then " - " + Description(d) else "");
    } else if Description(d) == "" {
      assert issue == JString(Issue(d));
      assert EntryText(Field(d), Issue(d), Description(d)) == Issue(d);
    } else {
      assert issue == JString(Issue(d));
      assert RenderEntry(d) == Kept(JString(Issue(d) + " - " + Description(d)));
      assert EntryText(Field(d), Issue(d), Description(d)) == Issue(d) + " - " + Description(d);
    }
  }

  /** For string-valued entries, the loop keeps exactly the speaking entries, rendered and in order. */
  lemma {:induction false} CollectTextEntries(entries: seq<Json>)
    requires forall i :: 0 <= i < |entries| ==> TextEntry(entries[i])
    ensures CollectDetails(entries) == Ok(Strings(KeptTexts(entries)))
  {
    if entries != [] {
      var front, last := entries[..|entries| - 1], entries[|entries| - 1];
      CollectTextEntries(front);
      EntryFormatting(last);
      var texts := KeptTexts(front);
      if Issue(last) != "" || Description(last) != "" {
        var t := EntryText(Field(last), Issue(last), Description(last));
        assert Strings(texts + [t]) == Strings(texts) + [JString(t)];
      } else {
        assert KeptTexts(entries) == texts + [];
        assert texts + [] == texts;
      }
    } else {
      assert Strings(KeptTexts(entries)) == [];
    }
  }

  /** For string-valued entries, the details suffix is the kept texts joined by "; " in parentheses. */
  lemma DetailsOfTextEntries(entries: seq<Json>)
    requires forall i :: 0 <= i < |entries| ==> TextEntry(entries[i])
    ensures DetailsSuffix(JArray(entries)) ==
              Ok(if KeptTexts(entries) == [] then "" else " (" + Join("; ", KeptTexts(entries)) + ")")
  {
    if entries != [] {
      var texts := KeptTexts(entries);
      CollectTextEntries(entries);
      JoinStringsOfStrings("; ", texts);
      DetailsOfKeptStrings(entries, texts);
    }
  }

  lemma DetailsOfKeptStrings(entries: seq<Json>, texts: seq<string>)
    requires entries != []
    requires CollectDetails(entries) == Ok(Strings(texts))
    requires JoinStrings("; ", Strings(texts)) == Ok(Join("; ", texts))
    ensures DetailsSuffix(JArray(entries)) == Ok(if texts == [] then "" else " (" + Join("; ", texts) + ")")
  {
    assert Iterate(JArray(entries)) == Ok(entries);
    assert (Strings(texts) == []) == (texts == []) by {
      assert |Strings(texts)| == |texts|;
    }
  }

  /** Joining string values joins their texts. */
  lemma JoinStringsOfStrings(sep: string, texts: seq<string>)
    ensures JoinStrings(sep, Strings(texts)) == Ok(Join(sep, texts))
  {
    var values := Strings(texts);
    assert FirstNonString(values) == |values|;
    assert Texts(values) == texts;
  }

  /** With a string name and message, the header is "PayPal API Error: " and the present parts joined by " - ". */
  lemma HeaderOfTextFields(data: seq<(string, Json)>)
    requires ErrorName(data).JString? && ErrorMessage(data).JString?
    ensures var name, message := ErrorName(data).s, ErrorMessage(data).s;
            var parts := (if name != "" then [name] else []) + (if message != UnknownError then [message] else []);
            Header(data) == Ok(if parts == [] then ApiErrorHead else ApiErrorHead + ": " + Join(" - ", parts))
  {
    var name, message := ErrorName(data).s, ErrorMessage(data).s;
    var parts := (if name != "" then [name] else []) + (if message != UnknownError then [message] else []);
    assert Texts(HeaderParts(data)) == parts;
  }

  /** A body whose name is present but not a string falls back to the plain-text message. */
  lemma NonStringNameFallsBack(status: int, text: string, data: seq<(string, Json)>)
    requires Truthy(ErrorName(data)) && !ErrorName(data).JString?
    ensures CaptureFailure(status, text, Parsed(JObject(data))) == HttpError(Min(status, 500), TextDetail(status, text))
  {
    assert HeaderParts(data)[0] == ErrorName(data);
  }
}
