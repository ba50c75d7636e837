/** Reading the stored telemetry history as a list of points, oldest first. */
module Telemetry {
  import opened Base

  type Entry = (string, Value)

  /** A dict entry paired with the sort key of its key. */
  type Keyed = (SortKey, Value)

  /** `int(k)` of a string: optional surrounding whitespace, an optional
      sign, then at least one ASCII digit. */
  function ParseInt(k: string): (r: Option<int>)
    ensures var t := Strip(k);
            r.Some? <==> (t != [] && AllDigits(t)) || (|t| >= 2 && (t[0] == '-' || t[0] == '+') && AllDigits(t[1..]))
    ensures var t := Strip(k);
            && (r.Some? && IsDigit(t[0]) ==> r.value == DigitsValue(t))
            && (r.Some? && t[0] == '+' ==> r.value == DigitsValue(t[1..]))
            && (r.Some? && t[0] == '-' ==> r.value == -(DigitsValue(t[1..]) as int))
  {
    var t := Strip(k);
    var neg := |t| > 0 && t[0] == '-';
    var body := if |t| > 0 && (t[0] == '-' || t[0] == '+') then t[1..] else t;
    if |body| > 0 && AllDigits(body) then Some(if neg then -(DigitsValue(body) as int) else DigitsValue(body))
    else None
  }

  lemma StripNoSpace(s: string)
    requires s != [] && !IsSpace(s[0]) && !IsSpace(s[|s| - 1])
    ensures Strip(s) == s
  {
  }

  /** A key the worker itself would write for an index, `str(i)`, parses
      back to that index. */
  lemma ParseIntOfString(i: int)
    ensures ParseInt(IntToString(i)) == Some(i)
  {
    var s := IntToString(i);
    var n := NatToString(if i < 0 then -i else i);
    assert !IsSpace(s[0]) && !IsSpace(s[|s| - 1]) by {
      assert IsDigit(n[|n| - 1]);
      if i >= 0 { assert IsDigit(n[0]); }
    }
    StripNoSpace(s);
    if i < 0 { assert s[1..] == n; }
  }

  /** The sort key of a dict key: its integer value when it parses, the
      string itself otherwise. */
  datatype SortKey = IntKey(i: int) | StrKey(s: string)

  function KeyOf(k: string): SortKey {
    match ParseInt(k)
    case Some(i) => IntKey(i)
    case None => StrKey(k)
  }

  /** Python's string order: lexicographic by code point. */
  predicate StrLe(a: string, b: string) {
    a == [] || (b != [] && (a[0] < b[0] || (a[0] == b[0] && StrLe(a[1..], b[1..]))))
  }

  lemma {:induction false} StrLeTotal(a: string, b: string)
    ensures StrLe(a, b) || StrLe(b, a)
  {
    if a != [] && b != [] && a[0] == b[0] {
      StrLeTotal(a[1..], b[1..]);
    }
  }

  lemma {:induction false} StrLeTrans(a: string, b: string, c: string)
    requires StrLe(a, b) && StrLe(b, c)
    ensures StrLe(a, c)
  {
    if a != [] && b != [] && c != [] && a[0] == b[0] && b[0] == c[0] {
      StrLeTrans(a[1..], b[1..], c[1..]);
    }
  }

  lemma {:induction false} StrLeRefl(a: string)
    ensures StrLe(a, a)
  {
    if a != [] {
      StrLeRefl(a[1..]);
    }
  }

  /** The order `sort` uses on keys of one kind; keys of the two kinds never
      meet in a sort that succeeds, and are ordered integers first here. */
  predicate KeyLe(a: SortKey, b: SortKey) {
    if a.IntKey? && b.IntKey? then a.i <= b.i
    else if a.StrKey? && b.StrKey? then StrLe(a.s, b.s)
    else a.IntKey?
  }

  lemma KeyLeTotal(a: SortKey, b: SortKey)
    ensures KeyLe(a, b) || KeyLe(b, a)
  {
    if a.StrKey? && b.StrKey? { StrLeTotal(a.s, b.s); }
  }

  lemma KeyLeTrans(a: SortKey, b: SortKey, c: SortKey)
    ensures KeyLe(a, b) && KeyLe(b, c) ==> KeyLe(a, c)
  {
    if a.StrKey? && b.StrKey? && c.StrKey? && KeyLe(a, b) && KeyLe(b, c) { StrLeTrans(a.s, b.s, c.s); }
  }

  lemma KeyLeRefl(a: SortKey)
    ensures KeyLe(a, a)
  {
    if a.StrKey? { StrLeRefl(a.s); }
  }

  function Key(e: Keyed): SortKey {
    e.0
  }

  function KeyedOf(s: seq<Entry>): (r: seq<Keyed>)
    ensures |r| == |s| && forall i :: 0 <= i < |s| ==> r[i] == (KeyOf(s[i].0), s[i].1)
  {
    if s == [] then [] else [(KeyOf(s[0].0), s[0].1)] + KeyedOf(s[1..])
  }

  predicate Sorted(s: seq<Keyed>) {
    forall i, j :: 0 <= i < j < |s| ==> KeyLe(Key(s[i]), Key(s[j]))
  }

  /** Insert an entry after every entry whose key is not greater. */
  function Insert(s: seq<Keyed>, x: Keyed): (r: seq<Keyed>)
    ensures multiset(r) == multiset(s) + multiset{x}
  {
    if s == [] then [x]
    else if !KeyLe(Key(s[0]), Key(x)) then [x] + s
    else
      assert s == [s[0]] + s[1..];
      [s[0]] + Insert(s[1..], x)
  }

  lemma {:induction false} InsertSorted(s: seq<Keyed>, x: Keyed)
    requires Sorted(s)
    ensures Sorted(Insert(s, x))
  {
    if s == [] {
    } else if !KeyLe(Key(s[0]), Key(x)) {
      KeyLeTotal(Key(s[0]), Key(x));
      forall j | 0 <= j < |s| ensures KeyLe(Key(x), Key(s[j])) {
        if j > 0 { KeyLeTrans(Key(x), Key(s[0]), Key(s[j])); }
      }
      var r := [x] + s;
      forall i, j | 0 <= i < j < |r| ensures KeyLe(Key(r[i]), Key(r[j])) {
        if i > 0 { assert r[i] == s[i - 1] && r[j] == s[j - 1]; }
        else { assert r[j] == s[j - 1]; }
      }
    } else {
      var t := Insert(s[1..], x);
      SortedTail(s);
      InsertSorted(s[1..], x);
      forall e | e in t ensures KeyLe(Key(s[0]), Key(e)) {
        assert e in multiset(t);
        if e != x {
          assert e in multiset(s[1..]);
          var j :| 0 <= j < |s[1..]| && s[1..][j] == e;
          assert s[j + 1] == e;
        }
      }
      var r := [s[0]] + t;
      forall i, j | 0 <= i < j < |r| ensures KeyLe(Key(r[i]), Key(r[j])) {
        assert r[j] == t[j - 1];
        assert t[j - 1] in t;
        if i > 0 { assert r[i] == t[i - 1]; }
      }
    }
  }

  lemma SortedTail(s: seq<Keyed>)
    requires s != [] && Sorted(s)
    ensures Sorted(s[1..])
  {
    forall i, j | 0 <= i < j < |s[1..]| ensures KeyLe(Key(s[1..][i]), Key(s[1..][j])) {
      assert s[1..][i] == s[i + 1] && s[1..][j] == s[j + 1];
    }
  }

  /** A stable sort by key: each entry in turn is inserted into the sorted
      prefix before it. */
  function SortEntries(s: seq<Keyed>): (r: seq<Keyed>)
    ensures multiset(r) == multiset(s)
  {
    if s == [] then []
    else
      assert s == s[..|s| - 1] + [s[|s| - 1]];
      Insert(SortEntries(s[..|s| - 1]), s[|s| - 1])
  }

  lemma {:induction false} SortEntriesSorted(s: seq<Keyed>)
    ensures Sorted(SortEntries(s))
  {
    if s != [] {
      SortEntriesSorted(s[..|s| - 1]);
      InsertSorted(SortEntries(s[..|s| - 1]), s[|s| - 1]);
    }
  }

  /** The entry itself when it has key `k`, nothing otherwise. */
  function Own(e: Keyed, k: SortKey): seq<Keyed> {
    if Key(e) == k then [e] else []
  }

  /** The entries with a given key, in order. */
  function WithKey(s: seq<Keyed>, k: SortKey): seq<Keyed> {
    if s == [] then []
    else Own(s[0], k) + WithKey(s[1..], k)
  }

  lemma WithKeyCons(e: Keyed, s: seq<Keyed>, k: SortKey)
    ensures WithKey([e] + s, k) == Own(e, k) + WithKey(s, k)
  {
    assert ([e] + s)[0] == e && ([e] + s)[1..] == s;
  }

  lemma {:induction false} WithKeyAppend(a: seq<Keyed>, b: seq<Keyed>, k: SortKey)
    ensures WithKey(a + b, k) == WithKey(a, k) + WithKey(b, k)
  {
    if a != [] {
      var h := Own(a[0], k);
      assert a + b == [a[0]] + (a[1..] + b);
      WithKeyCons(a[0], a[1..] + b, k);
      WithKeyAppend(a[1..], b, k);
      assert a == [a[0]] + a[1..];
      WithKeyCons(a[0], a[1..], k);
      ConcatAssoc(h, WithKey(a[1..], k), WithKey(b, k));
    } else {
      assert a + b == b;
    }
  }

  lemma {:induction false} WithKeyNone(s: seq<Keyed>, k: SortKey)
    requires forall i :: 0 <= i < |s| ==> Key(s[i]) != k
    ensures WithKey(s, k) == []
  {
    if s != [] {
      assert forall i :: 0 <= i < |s[1..]| ==> s[1..][i] == s[i + 1];
      WithKeyNone(s[1..], k);
    }
  }

  /** An entry placed before a sorted block of strictly greater keys shares
      its key with none of them. */
  lemma FrontKeyUnique(s: seq<Keyed>, x: Keyed)
    requires s != [] && Sorted(s) && !KeyLe(Key(s[0]), Key(x))
    ensures forall i :: 0 <= i < |s| ==> Key(s[i]) != Key(x)
  {
    forall i | 0 <= i < |s| ensures Key(s[i]) != Key(x) {
      KeyLeRefl(Key(x));
      KeyLeRefl(Key(s[0]));
      KeyLeTrans(Key(s[0]), Key(s[i]), Key(x));
    }
  }

  lemma InsertFrontWithKey(s: seq<Keyed>, x: Keyed, k: SortKey)
    requires s != [] && Sorted(s) && !KeyLe(Key(s[0]), Key(x))
    ensures WithKey(Insert(s, x), k) == WithKey(s, k) + Own(x, k)
  {
    assert Insert(s, x) == [x] + s;
    WithKeyCons(x, s, k);
    if Key(x) == k {
      FrontKeyUnique(s, x);
      WithKeyNone(s, k);
    }
  }

  /** The step past a head that stays in front. */
  lemma InsertPastWithKey(s: seq<Keyed>, x: Keyed, k: SortKey)
    requires s != [] && KeyLe(Key(s[0]), Key(x))
    requires WithKey(Insert(s[1..], x), k) == WithKey(s[1..], k) + Own(x, k)
    ensures WithKey(Insert(s, x), k) == WithKey(s, k) + Own(x, k)
  {
    WithKeyCons(s[0], Insert(s[1..], x), k);
    ConcatAssoc(Own(s[0], k), WithKey(s[1..], k), Own(x, k));
  }

  lemma {:induction false} InsertWithKey(s: seq<Keyed>, x: Keyed, k: SortKey)
    requires Sorted(s)
    ensures WithKey(Insert(s, x), k) == WithKey(s, k) + Own(x, k)
  {
    if s == [] {
      WithKeyCons(x, [], k);
    } else if !KeyLe(Key(s[0]), Key(x)) {
      InsertFrontWithKey(s, x, k);
    } else {
      SortedTail(s);
      InsertWithKey(s[1..], x, k);
      InsertPastWithKey(s, x, k);
    }
  }

  lemma WithKeySnoc(p: seq<Keyed>, x: Keyed, k: SortKey)
    ensures WithKey(p + [x], k) == WithKey(p, k) + Own(x, k)
  {
    WithKeyAppend(p, [x], k);
    WithKeyCons(x, [], k);
    assert [x] + [] == [x];
  }

  lemma InsertSortedWithKey(p: seq<Keyed>, x: Keyed, k: SortKey)
    ensures WithKey(Insert(SortEntries(p), x), k) == WithKey(SortEntries(p), k) + Own(x, k)
  {
    SortEntriesSorted(p);
    InsertWithKey(SortEntries(p), x, k);
  }

  /** Stability: the entries of any one key keep their original order. */
  lemma {:induction false} SortEntriesStable(s: seq<Keyed>, k: SortKey)
    ensures WithKey(SortEntries(s), k) == WithKey(s, k)
  {
    if s != [] {
      var p := s[..|s| - 1];
      var x := s[|s| - 1];
      calc {
        WithKey(SortEntries(s), k);
        WithKey(Insert(SortEntries(p), x), k);
        { InsertSortedWithKey(p, x, k); }
        WithKey(SortEntries(p), k) + Own(x, k);
        { SortEntriesStable(p, k); }
        WithKey(p, k) + Own(x, k);
        { WithKeySnoc(p, x, k); }
        WithKey(p + [x], k);
        { assert s == p + [x]; }
        WithKey(s, k);
      }
    }
  }

  /** Some key parses as an integer and some does not: `sort` then compares
      an int with a str and raises. */
  predicate MixedKeys(s: seq<Keyed>) {
    (exists i :: 0 <= i < |s| && Key(s[i]).IntKey?) && (exists j :: 0 <= j < |s| && Key(s[j]).StrKey?)
  }

  function Values(s: seq<Keyed>): (vs: seq<Value>)
    ensures |vs| == |s| && forall i :: 0 <= i < |s| ==> vs[i] == s[i].1
  {
    if s == [] then [] else [s[0].1] + Values(s[1..])
  }

  /** `[p for p in points if isinstance(p, dict)]`. */
  function DictsOf(points: seq<Value>): (ds: seq<seq<Entry>>)
    ensures |ds| <= |points|
    ensures forall d :: d in ds <==> Dict(d) in points
  {
    if points == [] then []
    else (if points[0].Dict? then [points[0].entries] else []) + DictsOf(points[1..])
  }

  /** Filtering keeps the order: the dicts of two runs of values are those
      of the first run followed by those of the second. */
  lemma {:induction false} DictsOfAppend(a: seq<Value>, b: seq<Value>)
    ensures DictsOf(a + b) == DictsOf(a) + DictsOf(b)
  {
    if a != [] {
      assert (a + b)[1..] == a[1..] + b;
      DictsOfAppend(a[1..], b);
    } else {
      assert a + b == b;
    }
  }

  /** The container the points live in: `history`, else `series`, else the
      stored value itself. */
  function Container(raw: Value): Value {
    if raw.Dict? && HasKey(raw.entries, "history") then Lookup(raw.entries, "history").value
    else if raw.Dict? && HasKey(raw.entries, "series") then Lookup(raw.entries, "series").value
    else raw
  }

  /** The telemetry points, oldest first: the items of a list in order, or
      the values of a dict sorted by key; only dict points are kept. A dict
      mixing integer-like and other keys makes the sort raise. */
  function ExtractPoints(raw: Value): (r: Result<seq<seq<Entry>>>)
    ensures r.Err? <==> Container(raw).Dict? && MixedKeys(KeyedOf(Container(raw).entries))
    ensures raw.Null? ==> r == Ok([])
    ensures !raw.Null? && Container(raw).List? ==> r == Ok(DictsOf(Container(raw).items))
    ensures !raw.Null? && Container(raw).Dict? && r.Ok? ==>
              r.value == DictsOf(Values(SortEntries(KeyedOf(Container(raw).entries))))
    ensures !Container(raw).List? && !Container(raw).Dict? ==> r == Ok([])
  {
    if raw.Null? then Ok([])
    else
      var c := Container(raw);
      if c.List? then Ok(DictsOf(c.items))
      else if c.Dict? then
        var keyed := KeyedOf(c.entries);
        if MixedKeys(keyed) then Err(MixedKeyKinds)
        else Ok(DictsOf(Values(SortEntries(keyed))))
      else Ok([])
  }

  /** The values of a dict come out sorted by key, as a stable permutation
      of its entries. */
  lemma ExtractPointsOrder(entries: seq<Keyed>)
    ensures Sorted(SortEntries(entries)) && multiset(SortEntries(entries)) == multiset(entries)
    ensures forall k :: WithKey(SortEntries(entries), k) == WithKey(entries, k)
  {
    SortEntriesSorted(entries);
    forall k ensures WithKey(SortEntries(entries), k) == WithKey(entries, k) {
      SortEntriesStable(entries, k);
    }
  }
}
