/** Values shared by every part of the model: optional and fallible results,
    bytes, the JSON value space that the wire protocol and the state file use,
    and the text codecs (base64, UTF-8, JSON) that the source takes from the
    Python standard library. */
module Common {

  datatype Option<+T> = None | Some(value: T) {
    function GetOr(default: T): T {
      match this
      case Some(v) => v
      case None => default
    }
  }

  datatype Result<+T, +E> = Success(value: T) | Failure(error: E) {
    predicate IsFailure() {
      Failure?
    }
    function PropagateFailure<U>(): Result<U, E>
      requires Failure?
    {
      Failure(error)
    }
    function Extract(): T
      requires Success?
    {
      value
    }
    function ToOption(): Option<T> {
      match this
      case Success(v) => Some(v)
      case Failure(_) => None
    }
  }

  newtype byte = x: int | 0 <= x < 256

  type Bytes = seq<byte>

  /** A decoded JSON value. Numbers are integers: the protocol never
      carries a fractional number. */
  datatype Json =
    | JNull
    | JBool(b: bool)
    | JNum(n: int)
    | JStr(s: string)
    | JArr(items: seq<Json>)
    | JObj(fields: map<string, Json>)

  /** `obj.get(k)` on a decoded JSON object; None for a missing key and for
      a value that is not an object. */
  function Get(j: Json, k: string): (r: Option<Json>)
    ensures r.Some? <==> j.JObj? && k in j.fields
    ensures r.Some? ==> r.value == j.fields[k]
  {
    if j.JObj? && k in j.fields then Some(j.fields[k]) else None
  }

  /** Python truthiness of a decoded JSON value. */
  predicate Truthy(j: Json) {
    match j
    case JNull => false
    case JBool(b) => b
    case JNum(n) => n != 0
    case JStr(s) => s != ""
    case JArr(xs) => xs != []
    case JObj(m) => m != map[]
  }

  /** Python truthiness of an optional string field (`not x` is true for a
      missing field, for None and for ""). */
  predicate Filled(o: Option<string>) {
    o.Some? && o.value != ""
  }

  /** The Python standard-library codecs the source relies on, as opaque
      functions: `b64` and `ub64` (`base64.b64encode(x).decode()` and
      `base64.b64decode(s.encode())`), `str.encode`/`bytes.decode` (UTF-8),
      and the composite used for envelopes, `b64(json.dumps(x).encode())`
      and `json.loads(base64.b64decode(s).decode())`. A decoder returns None
      where Python raises. */
  datatype Codecs = Codecs(
    b64Encode: Bytes -> string,
    b64Decode: string -> Option<Bytes>,
    utf8Encode: string -> Bytes,
    utf8Decode: Bytes -> Option<string>,
    blobEncode: Json -> string,
    blobDecode: string -> Option<Json>)

  /** What the model assumes of those codecs: each decoder inverts its
      encoder, base64 text of non-empty bytes (a JSON text among them)
      is non-empty, and base64 text is ASCII. */
  ghost predicate LawfulCodecs(c: Codecs) {
    && (forall b :: c.b64Decode(c.b64Encode(b)) == Some(b))
    && (forall b :: b != [] ==> c.b64Encode(b) != "")
    && (forall j :: c.blobEncode(j) != "")
    && (forall j :: IsAscii(c.blobEncode(j)))
    && (forall s :: c.utf8Decode(c.utf8Encode(s)) == Some(s))
    && (forall j :: c.blobDecode(c.blobEncode(j)) == Some(j))
  }

  predicate IsAscii(s: string) {
    forall i :: 0 <= i < |s| ==> s[i] as int < 128
  }

  /** `base64.b64decode(s)` called on a str rather than on `s.encode()`:
      Python first encodes the text as ASCII and raises on any other
      character, where `ub64` would pass the UTF-8 bytes on and the decoder
      would drop them as non-alphabet bytes. On ASCII text the two agree. */
  function B64DecodeText(c: Codecs, s: string): (r: Option<Bytes>)
    ensures !IsAscii(s) ==> r.None?
    ensures IsAscii(s) ==> r == c.b64Decode(s)
  {
    if IsAscii(s) then c.b64Decode(s) else None
  }

  /** `env[k]` where the source goes on to call `.encode()` on it. */
  function StrField(env: map<string, Json>, k: string): (r: Option<string>)
    ensures r.Some? <==> k in env && env[k].JStr?
    ensures r.Some? ==> env[k] == JStr(r.value)
  {
    if k in env && env[k].JStr? then Some(env[k].s) else None
  }

  /** `json.loads(base64.b64decode(blob).decode())`, kept only when it is an
      object (`env.get` raises otherwise). `base64.b64decode` is called on
      the str itself, so a blob with a non-ASCII character raises. */
  function OpenEnvelope(c: Codecs, blob: string): (r: Option<map<string, Json>>)
    ensures !IsAscii(blob) ==> r.None?
    ensures r.Some? <==> IsAscii(blob) && c.blobDecode(blob).Some? && c.blobDecode(blob).value.JObj?
    ensures r.Some? ==> c.blobDecode(blob) == Some(JObj(r.value))
  {
    if !IsAscii(blob) then None
    else match c.blobDecode(blob)
      case Some(JObj(env)) => Some(env)
      case _ => None
  }

  /** Number of occurrences of `x` in `xs`. */
  function Count<T(==)>(xs: seq<T>, x: T): nat {
    if xs == [] then 0
    else Count(xs[..|xs| - 1], x) + (if xs[|xs| - 1] == x then 1 else 0)
  }

  lemma {:induction false} CountZero<T>(xs: seq<T>, x: T)
    ensures Count(xs, x) == 0 <==> x !in xs
  {
    if xs != [] {
      CountZero(xs[..|xs| - 1], x);
      assert xs == xs[..|xs| - 1] + [xs[|xs| - 1]];
    }
  }

  predicate Distinct<T(==)>(xs: seq<T>) {
    forall i, j :: 0 <= i < j < |xs| ==> xs[i] != xs[j]
  }

  /** `n` copies of `x`. */
  function Repeat<T>(x: T, n: nat): (r: seq<T>)
    ensures |r| == n
    ensures forall i :: 0 <= i < n ==> r[i] == x
  {
    if n == 0 then [] else Repeat(x, n - 1) + [x]
  }
}
