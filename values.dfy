/** Python values as they travel between the SRFax client and its SOAP transport. */
module Values {

  /** A value that may be Python's `None`. */
  datatype Option<T> = None | Some(value: T)

  /**
   * The values a SOAP reply and its normalised result can hold.
   * `SoapText` and `Object` are the transport library's wrapper types
   * (a `suds.sax.text.Text` and a suds object); `Text` and `Dict` are the
   * plain `str` and `dict` the client converts them into.
   */
  datatype Value =
    | Nil
    | Bool(b: bool)
    | Text(s: string)
    | SoapText(s: string)
    | Dict(entries: map<string, Value>)
    | Object(fields: map<string, Value>)
    | List(items: seq<Value>)

  /** An argument that may be one string or a list of strings (destinations, file paths). */
  datatype OneOrMany = One(item: string) | Many(items: seq<string>)

  /** A single string is treated as a one-element list. */
  function AsList(x: OneOrMany): seq<string> {
    match x
    case One(s) => [s]
    case Many(xs) => xs
  }

  /** Python's `not v`: None, False and the empty string, record and list are falsy. */
  predicate Falsy(v: Value) {
    match v
    case Nil => true
    case Bool(b) => !b
    case Text(s) => s == ""
    case SoapText(s) => s == ""
    case Dict(e) => e == map[]
    case Object(f) => f == map[]
    case List(xs) => xs == []
  }

  /** `v == s` in Python: a suds Text compares equal to the `str` with the same characters. */
  predicate IsStr(v: Value, s: string) {
    v == Text(s) || v == SoapText(s)
  }

  /** Every character is in the ASCII range, so Python 2's `str()` can encode the text. */
  predicate Ascii(s: string) {
    forall i :: 0 <= i < |s| ==> s[i] as int < 128
  }

  /** No transport wrapper type occurs anywhere inside `v`. */
  predicate Plain(v: Value) {
    match v
    case SoapText(_) => false
    case Object(_) => false
    case Dict(e) => forall k :: k in e ==> Plain(e[k])
    case List(xs) => forall i :: 0 <= i < |xs| ==> Plain(xs[i])
    case _ => true
  }

  /** `json.dumps` accepts `v`: every value except a suds object nested in it serialises. */
  predicate JsonSerialisable(v: Value) {
    match v
    case Object(_) => false
    case Dict(e) => forall k :: k in e ==> JsonSerialisable(e[k])
    case List(xs) => forall i :: 0 <= i < |xs| ==> JsonSerialisable(xs[i])
    case _ => true
  }

  /**
   * The same data with every wrapper replaced by its plain counterpart:
   * what a round trip through JSON text gives back for a serialisable value.
   */
  function Erase(v: Value): (r: Value)
    ensures Plain(r)
    ensures Falsy(r) <==> Falsy(v)
  {
    match v
    case SoapText(s) => Text(s)
    case Object(f) => Dict(map k | k in f :: Erase(f[k]))
    case Dict(e) => Dict(map k | k in e :: Erase(e[k]))
    case List(xs) => List(seq(|xs|, i requires 0 <= i < |xs| => Erase(xs[i])))
    case _ => v
  }

  /** Erasing changes nothing in a value that holds no wrapper. */
  lemma {:induction false} ErasePlain(v: Value)
    requires Plain(v)
    ensures Erase(v) == v
  {
    match v
    case Dict(e) =>
      forall k | k in e ensures Erase(e[k]) == e[k] {
        ErasePlain(e[k]);
      }
    case List(xs) =>
      forall i | 0 <= i < |xs| ensures Erase(xs[i]) == xs[i] {
        ErasePlain(xs[i]);
      }
    case _ =>
  }

  /** Erasing twice is erasing once. */
  lemma EraseIdempotent(v: Value)
    ensures Erase(Erase(v)) == Erase(v)
  {
    ErasePlain(Erase(v));
  }
}
