/**
 * Normalisation of a SOAP reply: the shape checks, the element-wise
 * conversion of the result out of the transport's wrapper types, and the
 * classification into a result or an error with its retry hint.
 */
module Response {
  import opened Values
  import opened Errors

  /** `k` occurs in `s` starting at position `i`. */
  predicate OccursAt(k: string, s: string, i: int) {
    0 <= i && i + |k| <= |s| && s[i..i + |k|] == k
  }

  /** Python's `k in s` on two strings. */
  predicate IsSubstring(k: string, s: string) {
    exists i | 0 <= i <= |s| :: OccursAt(k, s, i)
  }

  /** Python's `key in v`: a key of a record, a substring of a text, an element of a list. */
  function Contains(v: Value, key: string): Result<bool> {
    match v
    case Dict(e) => Ok(key in e)
    case Object(f) => Ok(key in f)
    case Text(s) => Ok(IsSubstring(key, s))
    case SoapText(s) => Ok(IsSubstring(key, s))
    case List(xs) => Ok(Text(key) in xs || SoapText(key) in xs)
    case Nil => Err(TypeError("argument of type 'NoneType' is not iterable"))
    case Bool(_) => Err(TypeError("argument of type 'bool' is not iterable"))
  }

  /** Python's `v[key]` with a string key. */
  function GetItem(v: Value, key: string): Result<Value> {
    match v
    case Dict(e) => if key in e then Ok(e[key]) else Err(KeyError(key))
    case Object(f) => if key in f then Ok(f[key]) else Err(AttributeError(key))
    case Text(_) => Err(TypeError("string indices must be integers, not str"))
    case SoapText(_) => Err(TypeError("string indices must be integers, not str"))
    case List(_) => Err(TypeError("list indices must be integers, not str"))
    case Nil => Err(TypeError("'NoneType' object has no attribute '__getitem__'"))
    case Bool(_) => Err(TypeError("'bool' object has no attribute '__getitem__'"))
  }

  /** Python's `len(v)`. */
  function Len(v: Value): Result<nat> {
    match v
    case Dict(e) => Ok(|e|)
    case Object(f) => Ok(|f|)
    case Text(s) => Ok(|s|)
    case SoapText(s) => Ok(|s|)
    case List(xs) => Ok(|xs|)
    case Nil => Err(TypeError("object of type 'NoneType' has no len()"))
    case Bool(_) => Err(TypeError("object of type 'bool' has no len()"))
  }

  /** Python's `v[0]` on a value of length one. */
  function Sole(v: Value): Result<Value>
    requires Len(v) == Ok(1)
  {
    match v
    case List(xs) => Ok(xs[0])
    case Text(s) => Ok(Text(s))
    case SoapText(s) => Ok(Text(s))
    case Dict(_) => Err(KeyError("0"))
    case Object(f) =>
      SingleKey(f);
      var k :| k in f;
      Ok(f[k])
  }

  /** A record of length one has exactly one field name. */
  lemma SingleKey(f: map<string, Value>)
    requires |f| == 1
    ensures forall a, b :: a in f && b in f ==> a == b
  {
    forall a, b | a in f && b in f ensures a == b {
      var others := f.Keys - {a};
      assert |others| == |f.Keys| - 1 == 0;
      assert others == {};
    }
  }

  /**
   * `if len(response) == 1: response = response[0]`, as the status and
   * retrieve calls do: a value of any other length is kept, a value without a
   * length raises `len`'s error, and a string of one character is its own
   * first element.
   */
  function UnwrapSingle(v: Value): (r: Result<Value>)
    ensures Len(v).Err? ==> r == Err(Len(v).error)
    ensures Len(v).Ok? && Len(v).value != 1 ==> r == Ok(v)
    ensures v.List? && |v.items| == 1 ==> r == Ok(v.items[0])
    ensures v.Text? ==> r == Ok(v)
    ensures v.Object? && |v.fields| == 1 ==> exists k :: k in v.fields && r == Ok(v.fields[k])
    ensures v.Dict? && |v.entries| == 1 ==> r == Err(KeyError("0"))
    ensures v == Bool(true) ==> r.Err? && r.error.TypeError?
  {
    match Len(v)
    case Err(e) => Err(e)
    case Ok(n) => if n == 1 then Sole(v) else Ok(v)
  }

  /** Python's `dict(v)` on a truthy value that is not a text wrapper. */
  function DictOf(v: Value): Result<map<string, Value>> {
    match v
    case Dict(e) => Ok(e)
    case Object(f) => Ok(f)
    case Text(_) => Err(ValueError("dictionary update sequence element #0 has length 1; 2 is required"))
    case SoapText(_) => Err(ValueError("dictionary update sequence element #0 has length 1; 2 is required"))
    case List(_) => Err(TypeError("cannot convert dictionary update sequence element #0 to a sequence"))
    case Nil => Err(TypeError("'NoneType' object is not iterable"))
    case Bool(_) => Err(TypeError("'bool' object is not iterable"))
  }

  /** The error `str()` raises on a character outside ASCII. */
  const NotAscii := UnicodeEncodeError("'ascii' codec can't encode character")

  /**
   * Python 2's `str()` of a text wrapper: the wrapper is a unicode string, so
   * a character outside ASCII cannot be encoded.
   */
  function StrOf(s: string): (r: Result<Value>)
    ensures r.Ok? <==> Ascii(s)
    ensures r.Ok? ==> r.value == Text(s)
    ensures r.Err? ==> r.error == NotAscii
  {
    if Ascii(s) then Ok(Text(s)) else Err(NotAscii)
  }

  /**
   * One element of a list result: falsy elements stay as they are, a text
   * wrapper becomes a plain string when it is ASCII, anything else becomes a
   * plain dict by a round trip through JSON, which fails when a suds object
   * is nested in it.
   */
  function CoerceItem(v: Value): Result<Value> {
    if Falsy(v) then Ok(v)
    else if v.SoapText? then StrOf(v.s)
    else
      match DictOf(v)
      case Err(e) => Err(e)
      case Ok(f) =>
        if JsonSerialisable(Dict(f)) then Ok(Erase(Dict(f)))
        else Err(TypeError("object is not JSON serializable"))
  }

  /**
   * A converted element is the element itself when it is falsy, and otherwise
   * a plain string or plain dict holding the same data; conversion fails
   * exactly on truthy elements that are neither ASCII text nor a record of
   * serialisable values.
   */
  lemma CoerceItemMeaning(v: Value)
    ensures CoerceItem(v).Ok? <==>
      Falsy(v) || (v.SoapText? && Ascii(v.s)) || ((v.Dict? || v.Object?) && JsonSerialisable(Dict(DictOf(v).value)))
    ensures CoerceItem(v).Ok? && Falsy(v) ==> CoerceItem(v).value == v
    ensures CoerceItem(v).Ok? && !Falsy(v) ==>
      var w := CoerceItem(v).value;
      Plain(w) && Erase(w) == Erase(v) && !Falsy(w) && (w.Text? || w.Dict?)
  {
    if !Falsy(v) && (v.Dict? || v.Object?) {
      CoerceRecordMeaning(v, DictOf(v).value);
    }
  }

  /** The record case of `CoerceItemMeaning`. */
  lemma CoerceRecordMeaning(v: Value, f: map<string, Value>)
    requires v == Dict(f) || v == Object(f)
    requires !Falsy(v)
    ensures CoerceItem(v).Ok? <==> JsonSerialisable(Dict(f))
    ensures CoerceItem(v).Ok? ==> CoerceItem(v).value == Erase(Dict(f)) && Erase(Dict(f)) == Erase(v)
    ensures Erase(Erase(Dict(f))) == Erase(Dict(f))
  {
    EraseIdempotent(Dict(f));
    if v.Object? {
      assert Erase(v) == Erase(Dict(f));
    }
  }

  /** `j` is the position of the first element whose conversion fails. */
  predicate FirstUncoercible(items: seq<Value>, j: int) {
    0 <= j < |items| && CoerceItem(items[j]).Err? && forall i :: 0 <= i < j ==> CoerceItem(items[i]).Ok?
  }

  /** The conversion of a whole list: every element in order, or the error of the first that fails. */
  function CoerceAll(items: seq<Value>): Result<seq<Value>> {
    if |items| == 0 then Ok([])
    else
      match CoerceItem(items[0])
      case Err(e) => Err(e)
      case Ok(w) =>
        match CoerceAll(items[1..])
        case Err(e) => Err(e)
        case Ok(ws) => Ok([w] + ws)
  }

  /** The list conversion keeps length and order, and its error is the first element's that fails. */
  lemma {:induction false} CoerceAllMeaning(items: seq<Value>)
    ensures CoerceAll(items).Ok? <==> forall i :: 0 <= i < |items| ==> CoerceItem(items[i]).Ok?
    ensures CoerceAll(items).Ok? ==>
      |CoerceAll(items).value| == |items|
      && forall i :: 0 <= i < |items| ==> CoerceAll(items).value[i] == CoerceItem(items[i]).value
    ensures CoerceAll(items).Err? ==>
      exists j :: FirstUncoercible(items, j) && CoerceAll(items).error == CoerceItem(items[j]).error
  {
    if |items| > 0 {
      CoerceAllMeaning(items[1..]);
      if CoerceItem(items[0]).Ok? && CoerceAll(items[1..]).Err? {
        var j :| FirstUncoercible(items[1..], j) && CoerceAll(items[1..]).error == CoerceItem(items[1..][j]).error;
        assert FirstUncoercible(items, j + 1);
      }
      if CoerceItem(items[0]).Err? {
        assert FirstUncoercible(items, 0);
      }
    }
  }

  /** The list conversion fails with the error of the first element that cannot be converted. */
  lemma {:induction false} CoerceAllFirstError(items: seq<Value>, j: int)
    requires FirstUncoercible(items, j)
    ensures CoerceAll(items) == Err(CoerceItem(items[j]).error)
  {
    if j > 0 {
      assert FirstUncoercible(items[1..], j - 1);
      CoerceAllFirstError(items[1..], j - 1);
    }
  }

  /** The list conversion succeeds with the element-by-element conversions when each succeeds. */
  lemma {:induction false} CoerceAllElementwise(items: seq<Value>, ws: seq<Value>)
    requires |ws| == |items|
    requires forall i :: 0 <= i < |items| ==> CoerceItem(items[i]).Ok? && ws[i] == CoerceItem(items[i]).value
    ensures CoerceAll(items) == Ok(ws)
  {
    if |items| > 0 {
      CoerceAllElementwise(items[1..], ws[1..]);
      assert ws == [ws[0]] + ws[1..];
    }
  }

  /** The error raised when the conversion of the result fails. */
  function ConversionError(cause: Error): Error {
    SRFaxError(InvalidResponse, Note("Error converting SOAP response"), Some(cause), true)
  }

  /**
   * The result after conversion: a list element by element, a text wrapper to
   * a string when it is ASCII, anything else unchanged.
   */
  function Normalised(result: Value): Result<Value> {
    match result
    case List(items) =>
      (match CoerceAll(items)
       case Err(e) => Err(ConversionError(e))
       case Ok(ws) => Ok(List(ws)))
    case SoapText(s) => if Ascii(s) then Ok(Text(s)) else Err(ConversionError(NotAscii))
    case _ => Ok(result)
  }

  /**
   * Converts the elements of a list result one by one, overwriting each in
   * place, and stops at the first element that cannot be converted.
   */
  method NormaliseItems(result: seq<Value>) returns (r: Result<seq<Value>>)
    ensures r == CoerceAll(result)
  {
    var items := result;
    var i := 0;
    while i < |items|
      invariant 0 <= i <= |items| == |result|
      invariant forall k :: 0 <= k < i ==> CoerceItem(result[k]).Ok? && items[k] == CoerceItem(result[k]).value
      invariant forall k :: i <= k < |items| ==> items[k] == result[k]
    {
      ghost var item := items[i];
      assert item == result[i];
      if !Falsy(items[i]) {
        if items[i].SoapText? {
          if !Ascii(items[i].s) {
            CoerceAllFirstError(result, i);
            return Err(NotAscii);
          }
          items := items[i := Text(items[i].s)];
        } else {
          var converted := DictOf(items[i]);
          if converted.Err? {
            CoerceAllFirstError(result, i);
            return Err(converted.error);
          }
          if !JsonSerialisable(Dict(converted.value)) {
            CoerceAllFirstError(result, i);
            return Err(TypeError("object is not JSON serializable"));
          }
          items := items[i := Erase(Dict(converted.value))];
        }
      }
      assert CoerceItem(item).Ok? && items[i] == CoerceItem(item).value;
      i := i + 1;
    }
    CoerceAllElementwise(result, items);
    return Ok(items);
  }

  /** Converts the result: a list element by element, an ASCII text wrapper to a string. */
  method NormaliseResult(result: Value) returns (r: Result<Value>)
    ensures r == Normalised(result)
  {
    if result.List? {
      var items := NormaliseItems(result.items);
      if items.Err? {
        return Err(ConversionError(items.error));
      }
      return Ok(List(items.value));
    } else if result.SoapText? {
      if !Ascii(result.s) {
        return Err(ConversionError(NotAscii));
      }
      return Ok(Text(result.s));
    }
    return Ok(result);
  }

  /** The error raised for an empty reply. */
  const EmptyResponse := SRFaxError(InvalidResponse, Note("Empty response"), None, true)

  /** The error raised for a reply without a `Status` or a `Result`. */
  function MissingFields(response: Value): Error {
    SRFaxError(InvalidResponse, NoteAbout("Status and/or Result not in response: ", response), None, true)
  }

  /** The `in` tests of the shape check find `Status` missing, or find `Status` and miss `Result`. */
  predicate MissesField(response: Value) {
    Contains(response, "Status") == Ok(false)
    || (Contains(response, "Status") == Ok(true) && Contains(response, "Result") == Ok(false))
  }

  /**
   * The shape checks on the reply, then `response['Result']`. The `in` tests
   * apply to a reply of any kind: a text reply is searched for the words, a
   * list reply for elements equal to them, and a `True` reply makes `in`
   * raise; a non-record reply that passes both tests fails at the lookup.
   */
  function Located(response: Value): (r: Result<Value>)
    ensures Falsy(response) ==> r == Err(EmptyResponse)
    ensures (response.Dict? || response.Object?) && !Falsy(response) && !WellFormed(response) ==>
      r == Err(MissingFields(response))
    ensures !Falsy(response) && MissesField(response) ==> r == Err(MissingFields(response))
    ensures !Falsy(response) && Contains(response, "Status").Err? ==> r == Err(Contains(response, "Status").error)
    ensures !Falsy(response) && !(response.Dict? || response.Object?)
            && Contains(response, "Status") == Ok(true) && Contains(response, "Result") == Ok(true) ==>
      r.Err? && r.error.TypeError?
    ensures r.Ok? <==> WellFormed(response)
    ensures r.Ok? ==> r.value == FieldsOf(response)["Result"]
  {
    if Falsy(response) then Err(EmptyResponse)
    else
      match Contains(response, "Status")
      case Err(e) => Err(e)
      case Ok(hasStatus) =>
        if !hasStatus then Err(MissingFields(response))
        else
          match Contains(response, "Result")
          case Err(e) => Err(e)
          case Ok(hasResult) =>
            if !hasResult then Err(MissingFields(response))
            else GetItem(response, "Result")
  }

  /** The message of a rejected request: the `ErrorCode` of a one-element result, else the whole result. */
  function ErrorMessage(errmsg: Value): (r: Result<Value>)
    ensures !(errmsg.List? && |errmsg.items| == 1) ==> r == Ok(errmsg)
    ensures r.Err? ==> r.error.TypeError? || r.error.KeyError? || r.error.AttributeError?
  {
    if errmsg.List? && |errmsg.items| == 1 then
      match Contains(errmsg.items[0], "ErrorCode")
      case Err(e) => Err(e)
      case Ok(has) => if has then GetItem(errmsg.items[0], "ErrorCode") else Ok(errmsg)
    else Ok(errmsg)
  }

  /** The status check on a converted result, and `True` for a successful call without one. */
  function Classify(response: Value, result: Value): (r: Result<Value>)
    ensures r.Err? && r.error.SRFaxError? ==> r.error.errorCode == RequestFailed && !r.error.retry
    ensures r.Ok? ==> r.value != Nil && GetItem(response, "Status").Ok? && IsStr(GetItem(response, "Status").value, "Success")
  {
    match GetItem(response, "Status")
    case Err(e) => Err(e)
    case Ok(status) =>
      if !IsStr(status, "Success") then
        match ErrorMessage(result)
        case Err(e) => Err(e)
        case Ok(m) => Err(SRFaxError(RequestFailed, Payload(m), None, false))
      else if result == Nil then Ok(Bool(true))
      else Ok(result)
  }

  /** What processing a reply yields. */
  function Processed(response: Value): (r: Result<Value>)
    ensures r.Ok? ==> WellFormed(response) && IsStr(FieldsOf(response)["Status"], "Success") && r.value != Nil
  {
    match Located(response)
    case Err(e) => Err(e)
    case Ok(result) =>
      match Normalised(result)
      case Err(e) => Err(e)
      case Ok(converted) => Classify(response, converted)
  }

  /** Checks the shape of a reply, converts its result and classifies it. */
  method ProcessResponse(response: Value) returns (r: Result<Value>)
    ensures r == Processed(response)
  {
    var result := Located(response);
    if result.Err? {
      return Err(result.error);
    }
    var converted := NormaliseResult(result.value);
    if converted.Err? {
      return Err(converted.error);
    }
    return Classify(response, converted.value);
  }

  /** The fields of a record reply. */
  function FieldsOf(response: Value): map<string, Value>
    requires response.Dict? || response.Object?
  {
    if response.Dict? then response.entries else response.fields
  }

  /** A reply that holds a `Status` and a `Result`. */
  predicate WellFormed(response: Value) {
    (response.Dict? || response.Object?) && "Status" in FieldsOf(response) && "Result" in FieldsOf(response)
  }

  /**
   * An empty reply, or a reply of any kind whose `in` tests miss `Status` or
   * `Result`, is an invalid response worth retrying; a reply on which `in`
   * raises, or a non-record reply that passes both tests, fails with a bare
   * `TypeError` instead.
   */
  lemma MalformedReply(response: Value)
    ensures Falsy(response) ==> Processed(response) == Err(EmptyResponse)
    ensures (response.Dict? || response.Object?) && !Falsy(response) && !WellFormed(response) ==>
      Processed(response) == Err(MissingFields(response))
    ensures !Falsy(response) && MissesField(response) ==>
      Processed(response) == Err(MissingFields(response)) && Processed(response).error.ShouldRetry()
    ensures !Falsy(response) && Contains(response, "Status").Err? ==>
      Processed(response) == Err(Contains(response, "Status").error) && Processed(response).error.TypeError?
    ensures !Falsy(response) && !(response.Dict? || response.Object?)
            && Contains(response, "Status") == Ok(true) && Contains(response, "Result") == Ok(true) ==>
      Processed(response).Err? && Processed(response).error.TypeError?
    ensures Processed(response) == Err(EmptyResponse) || Processed(response) == Err(MissingFields(response)) ==>
      Processed(response).error.ShouldRetry()
  {
  }

  /** A plain text reply such as `Busy` holds no `Status`, so it is an invalid response worth retrying. */
  lemma TextReplyRefused()
    ensures Processed(Text("Busy")) == Err(MissingFields(Text("Busy")))
    ensures Processed(Text("Busy")).error.ShouldRetry()
  {
    assert !IsSubstring("Status", "Busy");
    MalformedReply(Text("Busy"));
  }

  /**
   * A reply whose status is not `Success` is a rejected request, not worth
   * retrying; its message is the `ErrorCode` of a one-element result of a
   * record and the whole converted result otherwise. A result that cannot be
   * converted makes it an invalid response instead, because conversion comes
   * first. The `ErrorCode` test on the sole element runs outside the
   * conversion's error handling, so when that element is not a record it
   * either finds no `ErrorCode` (the whole result is the message) or raises
   * a bare `TypeError`.
   */
  lemma RejectedReply(response: Value)
    requires WellFormed(response) && !IsStr(FieldsOf(response)["Status"], "Success")
    ensures var result := FieldsOf(response)["Result"];
      Normalised(result).Err? ==> Processed(response) == Normalised(result) && Processed(response).error.ShouldRetry()
    ensures var result := FieldsOf(response)["Result"];
      Normalised(result).Ok? ==>
        var n := Normalised(result).value;
        && (n.List? && |n.items| == 1 && n.items[0].Dict? && "ErrorCode" in n.items[0].entries ==>
              Processed(response) == Err(SRFaxError(RequestFailed, Payload(n.items[0].entries["ErrorCode"]), None, false)))
        && (n.List? && |n.items| == 1 && (n.items[0].Dict? || n.items[0].Object?)
            && "ErrorCode" !in FieldsOf(n.items[0]) ==>
              Processed(response) == Err(SRFaxError(RequestFailed, Payload(n), None, false)))
        && (n.List? && |n.items| == 1 && !(n.items[0].Dict? || n.items[0].Object?)
            && Contains(n.items[0], "ErrorCode") == Ok(false) ==>
              Processed(response) == Err(SRFaxError(RequestFailed, Payload(n), None, false)))
        && (n.List? && |n.items| == 1 && !(n.items[0].Dict? || n.items[0].Object?)
            && Contains(n.items[0], "ErrorCode") != Ok(false) ==>
              Processed(response).Err? && Processed(response).error.TypeError?)
        && (!(n.List? && |n.items| == 1) ==>
              Processed(response) == Err(SRFaxError(RequestFailed, Payload(n), None, false)))
  {
    assert Located(response) == Ok(FieldsOf(response)["Result"]);
  }

  /** A rejected reply whose result is `[None]` raises a bare `TypeError`, not the library's own error. */
  lemma RejectedWithNoneElement()
    ensures Processed(Object(map["Status" := SoapText("Failed"), "Result" := List([Nil])]))
      == Err(TypeError("argument of type 'NoneType' is not iterable"))
  {
    var response := Object(map["Status" := SoapText("Failed"), "Result" := List([Nil])]);
    assert "Status" in response.fields && "Result" in response.fields;
    assert Located(response) == Ok(List([Nil]));
    assert [Nil][1..] == [];
    assert CoerceAll([Nil][1..]) == Ok([]);
    assert CoerceItem([Nil][0]) == Ok(Nil);
    assert [Nil] + [] == [Nil];
    assert CoerceAll([Nil]) == Ok([Nil]);
    assert GetItem(response, "Status") == Ok(SoapText("Failed"));
    assert Normalised(List([Nil])) == Ok(List([Nil]));
    assert ErrorMessage(List([Nil])) == Err(TypeError("argument of type 'NoneType' is not iterable"));
  }

  /**
   * A reply with status `Success` yields `True` when its result is `None`, the
   * string of a text result, and for a list result a list of the same length
   * in which falsy elements are unchanged and every other element is a plain
   * string or dict with the same data; the list fails only when an element
   * cannot be converted.
   */
  lemma SuccessfulReply(response: Value)
    requires WellFormed(response) && IsStr(FieldsOf(response)["Status"], "Success")
    ensures FieldsOf(response)["Result"] == Nil ==> Processed(response) == Ok(Bool(true))
    ensures var result := FieldsOf(response)["Result"];
      result.SoapText? && Ascii(result.s) ==> Processed(response) == Ok(Text(result.s))
    ensures var result := FieldsOf(response)["Result"];
      result.SoapText? && !Ascii(result.s) ==>
        Processed(response).Err? && Processed(response).error.ShouldRetry()
        && Processed(response).error.errorCode == InvalidResponse
        && Processed(response).error.cause == Some(NotAscii)
    ensures var result := FieldsOf(response)["Result"];
      result.List? ==>
        (Processed(response).Ok? <==> forall i :: 0 <= i < |result.items| ==> CoerceItem(result.items[i]).Ok?)
    ensures var result := FieldsOf(response)["Result"];
      result.List? && Processed(response).Err? ==>
        Processed(response) == Err(ConversionError(CoerceAll(result.items).error))
    ensures var result := FieldsOf(response)["Result"];
      !(result.Nil? || result.List? || result.SoapText?) ==> Processed(response) == Ok(result)
    ensures var result := FieldsOf(response)["Result"];
      result.List? && Processed(response).Ok? ==>
        var out := Processed(response).value;
        && out.List? && |out.items| == |result.items|
        && (forall i :: 0 <= i < |out.items| && Falsy(result.items[i]) ==> out.items[i] == result.items[i])
        && (forall i :: 0 <= i < |out.items| && !Falsy(result.items[i]) ==>
              Plain(out.items[i]) && Erase(out.items[i]) == Erase(result.items[i]))
  {
    var result := FieldsOf(response)["Result"];
    assert Located(response) == Ok(result);
    if result.List? {
      CoerceAllMeaning(result.items);
      forall i | 0 <= i < |result.items| {
        CoerceItemMeaning(result.items[i]);
      }
    } else if result.SoapText? {
      assert Normalised(result) == if Ascii(result.s) then Ok(Text(result.s)) else Err(ConversionError(NotAscii));
    }
  }

  /** A successful reply whose result is the text `Café` is an invalid response: `str()` cannot encode the `é`. */
  lemma NonAsciiResultRejected()
    ensures Processed(Object(map["Status" := SoapText("Success"), "Result" := SoapText("Caf\U{e9}")]))
      == Err(ConversionError(NotAscii))
  {
    var response := Object(map["Status" := SoapText("Success"), "Result" := SoapText("Caf\U{e9}")]);
    assert "Status" in response.fields && "Result" in response.fields;
    assert Located(response) == Ok(SoapText("Caf\U{e9}"));
    assert "Caf\U{e9}"[3] as int == 233;
  }

  /** Of the library's own errors from a reply, exactly the invalid responses are worth retrying. */
  lemma RetryMeansInvalidResponse(response: Value)
    ensures Processed(response).Err? && Processed(response).error.SRFaxError? ==>
      (Processed(response).error.retry <==> Processed(response).error.errorCode == InvalidResponse)
  {
  }

  /** A record holding one text field converts to a plain dict holding the plain string. */
  lemma {:induction false} TextRecordConverts(key: string, text: string)
    ensures CoerceItem(Object(map[key := SoapText(text)])) == Ok(Dict(map[key := Text(text)]))
  {
    var fields := map[key := SoapText(text)];
    assert key in fields && !Falsy(Object(fields));
    assert JsonSerialisable(Dict(fields));
    assert (map k | k in fields :: Erase(fields[k])) == map[key := Text(text)];
    assert Erase(Dict(fields)) == Dict(map[key := Text(text)]);
    assert DictOf(Object(fields)) == Ok(fields);
  }

  /** A rejected request carrying one record with an `ErrorCode` reports that code. */
  lemma RejectedWithErrorCode()
    ensures Processed(Object(map["Status" := SoapText("Failed"),
                                 "Result" := List([Object(map["ErrorCode" := SoapText("E001")])])]))
      == Err(SRFaxError(RequestFailed, Payload(Text("E001")), None, false))
  {
    var record := Object(map["ErrorCode" := SoapText("E001")]);
    var plain := Dict(map["ErrorCode" := Text("E001")]);
    var response := Object(map["Status" := SoapText("Failed"), "Result" := List([record])]);
    assert "Status" in response.fields && "Result" in response.fields;
    assert Located(response) == Ok(List([record]));
    TextRecordConverts("ErrorCode", "E001");
    assert [record][1..] == [];
    assert CoerceAll([record][1..]) == Ok([]);
    assert [plain] + [] == [plain];
    assert CoerceAll([record]) == Ok([plain]);
    assert Normalised(List([record])) == Ok(List([plain]));
    assert GetItem(response, "Status") == Ok(SoapText("Failed"));
    assert ErrorMessage(List([plain])) == Ok(Text("E001"));
  }
}
