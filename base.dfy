/** Python-level values the worker reads from the realtime database, the
    exceptions it can raise inside one loop iteration, and the few string
    operations (`strip`, `lower`, `in`) its decision logic uses. */
module Base {

  datatype Option<+T> = None | Some(value: T)

  /** The exceptions one iteration of the worker can raise. The loop catches
      all of them alike, so the kinds only document where a failure comes from. */
  datatype Error =
    | NotADict                          // `.get` on a value that is not a dict (AttributeError)
    | NotANumber                        // float()/int() of a non-numeric value (TypeError, ValueError)
    | StateIncomplete                   // soil, temperature or humidity missing (ValueError)
    | MissingFeatures(names: seq<string>) // declared columns absent from the row (ValueError)
    | MissingColumn(name: string)       // `row[c]` on an absent column (KeyError)
    | BadFeatureCount(n: int)           // forecast input count not a multiple of 5 or 6 (ValueError)
    | MixedKeyKinds                     // sorting integer keys against string keys (TypeError)
    | NotOneElement                     // `.item()` of an array whose size is not one (ValueError)

  datatype Result<+T> = Ok(value: T) | Err(error: Error) {
    predicate IsFailure() { Err? }
    function PropagateFailure<U>(): Result<U> requires Err? { Err(error) }
    function Extract(): T requires Ok? { value }
  }

  /** A JSON-like Python value. A dict is kept as its entries in insertion
      order; its keys are strings, as the database delivers them. */
  datatype Value =
    | Null
    | Bool(b: bool)
    | Int(i: int)
    | Float(f: real)
    | Str(s: string)
    | List(items: seq<Value>)
    | Dict(entries: seq<(string, Value)>)

  /** A feature row: feature name to number (the integer `hour` is stored as a real). */
  type Row = map<string, real>

  /** Hour of the day and minute of the day in the worker's fixed-offset time zone. */
  type Hour = h: int | 0 <= h < 24
  type Minute = m: int | 0 <= m < 1440

  /** `d.get(k)` on the entries of a dict: the value of the first entry with key `k`. */
  function Lookup(d: seq<(string, Value)>, k: string): (r: Option<Value>)
    ensures r.Some? <==> exists i :: 0 <= i < |d| && d[i].0 == k
  {
    if |d| == 0 then None
    else if d[0].0 == k then Some(d[0].1)
    else
      var r := Lookup(d[1..], k);
      assert forall i :: 1 <= i < |d| ==> d[i] == d[1..][i - 1];
      r
  }

  predicate HasKey(d: seq<(string, Value)>, k: string) {
    Lookup(d, k).Some?
  }

  /** `v.get(k, dflt)`: an AttributeError unless `v` is a dict. */
  function Get(v: Value, k: string, dflt: Value): (r: Result<Value>)
    ensures r.Ok? <==> v.Dict?
    ensures v.Dict? && !HasKey(v.entries, k) ==> r == Ok(dflt)
    ensures v.Dict? && HasKey(v.entries, k) ==> r == Ok(Lookup(v.entries, k).value)
  {
    match v
    case Dict(d) => Ok(match Lookup(d, k) case Some(x) => x case None => dflt)
    case _ => Err(NotADict)
  }

  /** Python truthiness. */
  predicate Truthy(v: Value) {
    match v
    case Null => false
    case Bool(b) => b
    case Int(i) => i != 0
    case Float(f) => f != 0.0
    case Str(s) => s != ""
    case List(items) => items != []
    case Dict(entries) => entries != []
  }

  /** `float(v)`; numeric strings are not parsed (see README). */
  function ToFloat(v: Value): (r: Result<real>)
    ensures r.Ok? <==> v.Bool? || v.Int? || v.Float?
    ensures v.Float? ==> r == Ok(v.f)
    ensures v.Int? ==> r == Ok(v.i as real)
  {
    match v
    case Bool(b) => Ok(if b then 1.0 else 0.0)
    case Int(i) => Ok(i as real)
    case Float(f) => Ok(f)
    case _ => Err(NotANumber)
  }

  /** Python's `int()` of a float: truncation toward zero. */
  function Trunc(x: real): (n: int)
    ensures x >= 0.0 ==> n as real <= x < n as real + 1.0
    ensures x < 0.0 ==> n as real - 1.0 < x <= n as real
  {
    if x >= 0.0 then x.Floor else -((-x).Floor)
  }

  /** `int(v)` of a boolean, an integer or a float. */
  function ToInt(v: Value): (r: Result<int>)
    ensures r.Ok? <==> v.Bool? || v.Int? || v.Float?
    ensures v.Int? ==> r == Ok(v.i)
    ensures v.Float? ==> r == Ok(Trunc(v.f))
    ensures v == Bool(true) ==> r == Ok(1)
    ensures v == Bool(false) ==> r == Ok(0)
  {
    match v
    case Bool(b) => Ok(if b then 1 else 0)
    case Int(i) => Ok(i)
    case Float(f) => Ok(Trunc(f))
    case _ => Err(NotANumber)
  }

  /** The whitespace `str.strip()` removes, within ASCII. */
  predicate IsSpace(c: char) {
    c == ' ' || (9 <= c as int <= 13) || (28 <= c as int <= 31)
  }

  function StripLeft(s: string): (r: string)
    ensures |r| <= |s| && r == s[|s| - |r|..]
    ensures r == [] || !IsSpace(r[0])
    ensures forall i :: 0 <= i < |s| - |r| ==> IsSpace(s[i])
  {
    if s != [] && IsSpace(s[0]) then StripLeft(s[1..]) else s
  }

  function StripRight(s: string): (r: string)
    ensures |r| <= |s| && r == s[..|r|]
    ensures r == [] || !IsSpace(r[|r| - 1])
    ensures forall i :: |r| <= i < |s| ==> IsSpace(s[i])
  {
    if s != [] && IsSpace(s[|s| - 1]) then StripRight(s[..|s| - 1]) else s
  }

  /** `s.strip()`. */
  function Strip(s: string): string {
    StripRight(StripLeft(s))
  }

  function LowerChar(c: char): char {
    if 'A' <= c <= 'Z' then (c as int + 32) as char else c
  }

  /** `s.lower()`, within ASCII. */
  function Lower(s: string): (r: string)
    ensures |r| == |s|
    ensures forall i :: 0 <= i < |s| ==> r[i] == LowerChar(s[i])
  {
    if s == [] then [] else [LowerChar(s[0])] + Lower(s[1..])
  }

  /** `t` occurs in `s` starting at offset `i`. */
  predicate OccursAt(s: string, t: string, i: int) {
    0 <= i <= |s| - |t| && s[i..i + |t|] == t
  }

  /** `t in s` for strings: `t` occurs in `s` at some offset. */
  function Contains(s: string, t: string): (b: bool)
    ensures b <==> exists i :: OccursAt(s, t, i)
  {
    if |t| > |s| then false
    else if s[..|t|] == t then assert OccursAt(s, t, 0); true
    else
      var b := Contains(s[1..], t);
      if b then
        var j :| OccursAt(s[1..], t, j);
        OccursShift(s, t, j);
        true
      else
        assert forall i :: !OccursAt(s, t, i) by {
          forall i ensures !OccursAt(s, t, i) {
            if i >= 1 {
              OccursShift(s, t, i - 1);
            } else if i == 0 {
              assert s[0..|t|] == s[..|t|];
            }
          }
        }
        false
  }

  /** An occurrence one place into `s` is an occurrence in its tail. */
  lemma OccursShift(s: string, t: string, i: nat)
    requires s != []
    ensures OccursAt(s, t, i + 1) <==> OccursAt(s[1..], t, i)
  {
    if 0 <= i <= |s| - 1 - |t| {
      var a, b := s[i + 1..i + 1 + |t|], s[1..][i..i + |t|];
      assert |a| == |b| && forall k :: 0 <= k < |a| ==> a[k] == b[k];
      assert a == b;
    }
  }

  lemma ConcatAssoc<T>(a: seq<T>, b: seq<T>, c: seq<T>)
    ensures (a + b) + c == a + (b + c)
  {
  }

  predicate IsDigit(c: char) {
    '0' <= c <= '9'
  }

  predicate AllDigits(s: string) {
    forall i :: 0 <= i < |s| ==> IsDigit(s[i])
  }

  /** The number a string of decimal digits denotes. */
  function DigitsValue(s: string): nat
    requires AllDigits(s)
  {
    if s == [] then 0 else DigitsValue(s[..|s| - 1]) * 10 + (s[|s| - 1] as int - '0' as int)
  }

  /** `str(n)` of a non-negative integer: decimal digits, no leading zero. */
  function NatToString(n: nat): (s: string)
    ensures s != [] && AllDigits(s) && DigitsValue(s) == n
    ensures |s| > 1 ==> s[0] != '0'
  {
    var d := ((n % 10) + '0' as int) as char;
    if n < 10 then [d]
    else
      var p := NatToString(n / 10);
      assert (p + [d])[..|p + [d]| - 1] == p;
      p + [d]
  }

  /** `str(i)` of an integer. */
  function IntToString(i: int): string {
    if i < 0 then "-" + NatToString(-i) else NatToString(i)
  }
}
