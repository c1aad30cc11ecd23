/** Python values as the video handlers see them: the request parameters, the
    results of json.loads and the numbers they compare. */
module PyModel {

  datatype Option<+T> = None | Some(value: T)

  /** A Python float: a finite value, one of the two infinities, or NaN. */
  datatype Float = Finite(r: real) | Infinity(negative: bool) | NaN

  datatype PyValue =
    | PyNone
    | PyBool(b: bool)
    | PyInt(i: int)
    | PyFloat(f: Float)
    | PyStr(s: string)
    | PyBytes(bytes: seq<bv8>)
    | PyList(items: seq<PyValue>)

  /** bool(v): None, False, zero and empty containers are false; NaN is true. */
  predicate Truthy(v: PyValue) {
    match v
    case PyNone => false
    case PyBool(b) => b
    case PyInt(i) => i != 0
    case PyFloat(f) => f != Finite(0.0)
    case PyStr(s) => s != []
    case PyBytes(bytes) => bytes != []
    case PyList(items) => items != []
  }

  /** isinstance(v, (int, float)); bool is a subclass of int in Python. */
  predicate IsNumber(v: PyValue) {
    v.PyBool? || v.PyInt? || v.PyFloat?
  }

  /** The chained comparison 0.0 <= v <= 1.0 on a number; NaN and the
      infinities fail it. */
  predicate InUnitInterval(v: PyValue)
    requires IsNumber(v)
  {
    match v
    case PyBool(_) => true
    case PyInt(i) => 0 <= i <= 1
    case PyFloat(f) => f.Finite? && 0.0 <= f.r <= 1.0
  }

  /** 2^1024 - 2^970: the least integer that float() rounds past the largest
      finite double, and so refuses with OverflowError. */
  const FloatOverflowBound: int := 0xFFFFFFFFFFFFFC0000000000000000000000_0000000000000000000000_0000000000000000000000_0000000000000000000000_0000000000000000000000_0000000000000000000000_0000000000000000000000_0000000000000000000000_0000000000000000000000_0000000000000000000000_0000000000000000000000

  /** float(i) succeeds. */
  predicate IntFitsFloat(i: int) {
    -FloatOverflowBound < i < FloatOverflowBound
  }

  /** math.isnan(v): it converts v to a float first, so None stands for the
      TypeError raised on a non-number and for the OverflowError raised on an
      int outside the range of floats. */
  function IsNaN(v: PyValue): (r: Option<bool>)
    ensures r.Some? <==> IsNumber(v) && (v.PyInt? ==> IntFitsFloat(v.i))
    ensures r == Some(true) <==> v == PyFloat(NaN)
  {
    match v
    case PyBool(_) => Some(false)
    case PyInt(i) => if IntFitsFloat(i) then Some(false) else None
    case PyFloat(f) => Some(f.NaN?)
    case _ => None
  }

  /** d.get(key): the value under key, None when key is absent. The same
      answer as d.pop(key, None), which also removes the key. */
  function Get<K, V>(d: map<K, V>, key: K): (v: Option<V>)
    ensures v.Some? <==> key in d
    ensures v.Some? ==> v.value == d[key]
  {
    if key in d then Some(d[key]) else None
  }

  const ReplacementChar: char := '\U{FFFD}'

  /** One byte of bytes.decode('ascii', errors='replace'). */
  function DecodeAsciiByte(b: bv8): (c: char)
    ensures b < 128 ==> c as int == b as int
    ensures b >= 128 ==> c == ReplacementChar
  {
    if b < 128 then (b as int) as char else ReplacementChar
  }

  /** bytes.decode('ascii', errors='replace'): every byte outside ASCII
      becomes U+FFFD, so the text has one character per byte. */
  function DecodeAscii(bytes: seq<bv8>): (s: string)
    ensures |s| == |bytes|
    ensures forall i :: 0 <= i < |bytes| ==> s[i] == DecodeAsciiByte(bytes[i])
  {
    seq(|bytes|, i requires 0 <= i < |bytes| => DecodeAsciiByte(bytes[i]))
  }

  /** Lower-casing of one character; only the ASCII letters are folded. */
  function LowerChar(c: char): (l: char)
    ensures 'A' <= c <= 'Z' ==> l as int == c as int + 32
    ensures !('A' <= c <= 'Z') ==> l == c
  {
    if 'A' <= c <= 'Z' then (c as int + 32) as char else c
  }

  /** str.lower() for the characters it can map onto ASCII letters. */
  function Lower(s: string): (l: string)
    ensures |l| == |s|
    ensures forall i :: 0 <= i < |s| ==> l[i] == LowerChar(s[i])
  {
    seq(|s|, i requires 0 <= i < |s| => LowerChar(s[i]))
  }
}
