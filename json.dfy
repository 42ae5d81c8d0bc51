/** JSON values as Python's json module hands them to the request handlers,
    and the few Python operations the handlers apply to them: dict.get,
    dict.update, numeric comparison, int-keyed lookup and str(). */
module Json {

  datatype Option<T> = None | Some(value: T)

  /** A decoded JSON value. Python keeps integers and floats apart. */
  datatype Value =
    | Null
    | Bool(b: bool)
    | Int(i: int)
    | Float(r: real)
    | Str(s: string)
    | Arr(elems: seq<Value>)
    | Obj(fields: map<string, Value>)

  /** A JSON object: a request body, a stored profile or an item record. */
  type Object = map<string, Value>

  /** `d.get(key)`: the stored value, or None (JSON null) when key is absent. */
  function Get(d: Object, key: string): Value
  {
    if key in d then d[key] else Null
  }

  /** `stored.update(changes)`: a shallow merge in which the keys of changes win. */
  function Merge(stored: Object, changes: Object): (r: Object)
    ensures r.Keys == stored.Keys + changes.Keys
    ensures forall k :: k in changes ==> r[k] == changes[k]
    ensures forall k :: k in stored && k !in changes ==> r[k] == stored[k]
  {
    stored + changes
  }

  /** Sending the same update twice leaves the record as one update did. */
  lemma MergeIdempotent(stored: Object, changes: Object)
    ensures Merge(Merge(stored, changes), changes) == Merge(stored, changes)
  {
  }

  /** The number Python's `<` and `-` see in v: bools, ints and floats are
      numbers (True counts as 1); any other value makes those operators raise. */
  function AsNumber(v: Value): Option<real>
  {
    match v
    case Bool(b) => Some(if b then 1.0 else 0.0)
    case Int(i) => Some(i as real)
    case Float(r) => Some(r)
    case _ => None
  }

  /** How `v in d` resolves for a dict d whose keys are Python ints. */
  datatype IntKey = Key(k: int) | NoKey | Unhashable

  /** Bools and integral floats hash and compare equal to the matching int;
      null and strings match no int key; lists and dicts are unhashable,
      so the lookup raises TypeError. */
  function IntKeyOf(v: Value): IntKey
  {
    match v
    case Bool(b) => Key(if b then 1 else 0)
    case Int(i) => Key(i)
    case Float(r) => if r.Floor as real == r then Key(r.Floor) else NoKey
    case Null => NoKey
    case Str(_) => NoKey
    case Arr(_) => Unhashable
    case Obj(_) => Unhashable
  }

  predicate IsDigits(s: string)
  {
    forall i :: 0 <= i < |s| ==> '0' <= s[i] <= '9'
  }

  function DigitChar(d: nat): (c: char)
    requires d < 10
    ensures '0' <= c <= '9' && c as int - '0' as int == d
  {
    (d + '0' as int) as char
  }

  /** `str(n)` for a non-negative int: its decimal digits, most significant first. */
  function Decimal(n: nat): (s: string)
    ensures |s| >= 1 && IsDigits(s)
    decreases n
  {
    if n < 10 then [DigitChar(n)] else Decimal(n / 10) + [DigitChar(n % 10)]
  }

  /** The number a string of decimal digits denotes. */
  function DecimalValue(s: string): nat
    requires IsDigits(s)
    decreases |s|
  {
    if s == [] then 0 else DecimalValue(s[..|s| - 1]) * 10 + (s[|s| - 1] as int - '0' as int)
  }

  /** Reading back the digits of `str(n)` gives n. */
  lemma {:induction false} DecimalRoundTrip(n: nat)
    ensures DecimalValue(Decimal(n)) == n
    decreases n
  {
    if n >= 10 {
      DecimalRoundTrip(n / 10);
      var s := Decimal(n);
      assert s[..|s| - 1] == Decimal(n / 10);
    }
  }

  /** Distinct counters give distinct store ids. */
  lemma DecimalInjective(a: nat, b: nat)
    requires Decimal(a) == Decimal(b)
    ensures a == b
  {
    DecimalRoundTrip(a);
    DecimalRoundTrip(b);
  }

  /** `str(i)` for any int. */
  function IntText(i: int): string
  {
    if i < 0 then "-" + Decimal(-i) else Decimal(i)
  }

  /** `str(v)` for the values whose text can equal a store id. The text of a
      float, a list or a dict always holds a character that is not a decimal
      digit, so the model leaves it unspelled (None). */
  function PyStr(v: Value): Option<string>
  {
    match v
    case Null => Some("None")
    case Bool(b) => Some(if b then "True" else "False")
    case Int(i) => Some(IntText(i))
    case Str(s) => Some(s)
    case _ => None
  }
}
