/** Values shared by every part of the model.

    A number that an indicator library leaves undefined during its warm-up
    window (NumPy's NaN) is `None`; the comparisons below follow NumPy, where
    every comparison involving NaN is false.  The module also holds the price
    bar, Python's `int()` on a number, and the ASCII case mapping and substring
    test that `str.lower`, `str.upper` and `in` perform on the strings the
    model handles. */
module Common {

  datatype Option<+T> = None | Some(value: T)

  /** `a > b` as NumPy evaluates it. */
  predicate Gt(a: Option<real>, b: Option<real>) {
    a.Some? && b.Some? && a.value > b.value
  }

  /** `a < b` as NumPy evaluates it. */
  predicate Lt(a: Option<real>, b: Option<real>) {
    a.Some? && b.Some? && a.value < b.value
  }

  /** `a >= b` as NumPy evaluates it (false, not "not less", on NaN). */
  predicate Ge(a: Option<real>, b: Option<real>) {
    a.Some? && b.Some? && a.value >= b.value
  }

  /** `a <= b` as NumPy evaluates it. */
  predicate Le(a: Option<real>, b: Option<real>) {
    a.Some? && b.Some? && a.value <= b.value
  }

  /** Addition with NaN propagation. */
  function Plus(a: Option<real>, b: Option<real>): (r: Option<real>)
    ensures r.Some? <==> a.Some? && b.Some?
    ensures r.Some? ==> r.value == a.value + b.value
  {
    if a.Some? && b.Some? then Some(a.value + b.value) else None
  }

  /** `d.get(key, default)` on a dictionary with text keys. */
  function Get<V>(d: map<string, V>, key: string, default: V): (r: V)
    ensures key in d ==> r == d[key]
    ensures key !in d ==> r == default
  {
    if key in d then d[key] else default
  }

  /** One row of an OHLCV frame.  The timestamp is kept as one opaque text;
      the callers format the date differently (`strftime` in the simulator,
      `isoformat` in the analysis script), which is not modelled. */
  datatype Bar = Bar(timestamp: string, open: real, high: real, low: real,
                     close: real, volume: real)

  /** The close column of a frame. */
  function Closes(bars: seq<Bar>): (r: seq<real>)
    ensures |r| == |bars|
    ensures forall i :: 0 <= i < |bars| ==> r[i] == bars[i].close
  {
    seq(|bars|, i requires 0 <= i < |bars| => bars[i].close)
  }

  /** Python's `int(x)` on a number: truncation toward zero. */
  function Trunc(x: real): (r: int)
    ensures x >= 0.0 ==> r >= 0 && r as real <= x < r as real + 1.0
    ensures x < 0.0 ==> r <= 0 && r as real - 1.0 < x <= r as real
  {
    if x >= 0.0 then x.Floor else -((-x).Floor)
  }

  function LowerChar(c: char): char {
    if 'A' <= c <= 'Z' then (c as int + 32) as char else c
  }

  function UpperChar(c: char): char {
    if 'a' <= c <= 'z' then (c as int - 32) as char else c
  }

  /** `s.lower()`, for ASCII letters. */
  function Lower(s: string): (r: string)
    ensures |r| == |s|
    ensures forall i :: 0 <= i < |s| ==> r[i] == LowerChar(s[i])
  {
    seq(|s|, i requires 0 <= i < |s| => LowerChar(s[i]))
  }

  /** `s.upper()`, for ASCII letters. */
  function Upper(s: string): (r: string)
    ensures |r| == |s|
    ensures forall i :: 0 <= i < |s| ==> r[i] == UpperChar(s[i])
  {
    seq(|s|, i requires 0 <= i < |s| => UpperChar(s[i]))
  }

  /** `sub[j..]` occurs in `s` at position `i + j`. */
  function MatchAt(s: string, sub: string, i: nat, j: nat): bool
    decreases |sub| - j
  {
    if j >= |sub| then true
    else if i + j >= |s| then false
    else s[i + j] == sub[j] && MatchAt(s, sub, i, j + 1)
  }

  /** `sub` occurs in `s` at some position `i` or later. */
  function ContainsFrom(s: string, sub: string, i: nat): bool
    decreases |s| - i
  {
    if i + |sub| > |s| then false
    else MatchAt(s, sub, i, 0) || ContainsFrom(s, sub, i + 1)
  }

  /** Python's `sub in s` on strings. */
  predicate Contains(s: string, sub: string) {
    ContainsFrom(s, sub, 0)
  }

  /** The occurrence of `sub` at position `k` of `s`. */
  predicate OccursAt(s: string, sub: string, k: int) {
    0 <= k && k + |sub| <= |s| && s[k..k + |sub|] == sub
  }

  lemma {:induction false} MatchAtIff(s: string, sub: string, i: nat, j: nat)
    requires i + |sub| <= |s| && j <= |sub|
    ensures MatchAt(s, sub, i, j) <==> s[i + j..i + |sub|] == sub[j..]
    decreases |sub| - j
  {
    if j < |sub| {
      MatchAtIff(s, sub, i, j + 1);
      assert s[i + j..i + |sub|] == [s[i + j]] + s[i + j + 1..i + |sub|];
      assert sub[j..] == [sub[j]] + sub[j + 1..];
    }
  }

  lemma {:induction false} ContainsFromIff(s: string, sub: string, i: nat)
    ensures ContainsFrom(s, sub, i) <==> exists k :: i <= k && OccursAt(s, sub, k)
    decreases |s| - i
  {
    if i + |sub| <= |s| {
      MatchAtIff(s, sub, i, 0);
      ContainsFromIff(s, sub, i + 1);
      if ContainsFrom(s, sub, i) && MatchAt(s, sub, i, 0) {
        assert OccursAt(s, sub, i);
      }
      if exists k :: i <= k && OccursAt(s, sub, k) {
        var k :| i <= k && OccursAt(s, sub, k);
        if k > i {
          assert i + 1 <= k;
        }
      }
    }
  }

  /** The substring test agrees with its definition by occurrences. */
  lemma ContainsIff(s: string, sub: string)
    ensures Contains(s, sub) <==> exists k :: OccursAt(s, sub, k)
  {
    ContainsFromIff(s, sub, 0);
  }

  /** Slicing the text "x y" past the space slices y. */
  lemma SliceAfterSpace(x: string, y: string, k: int, n: int)
    requires 0 <= k && 0 <= n && k + n <= |y|
    ensures (x + " " + y)[k + |x| + 1..k + |x| + 1 + n] == y[k..k + n]
  {
    var s := x + " " + y;
    var piece := s[k + |x| + 1..k + |x| + 1 + n];
    forall j | 0 <= j < n ensures piece[j] == y[k..k + n][j] {
      assert piece[j] == s[k + |x| + 1 + j];
    }
  }

  /** A word that holds no space occurs in the text "x y" exactly when it
      occurs in x or in y. */
  lemma ContainsAcrossSpace(x: string, y: string, sub: string)
    requires forall j :: 0 <= j < |sub| ==> sub[j] != ' '
    ensures Contains(x + " " + y, sub) <==> Contains(x, sub) || Contains(y, sub)
  {
    var s := x + " " + y;
    assert s[|x|] == ' ';
    ContainsIff(s, sub);
    ContainsIff(x, sub);
    ContainsIff(y, sub);
    if Contains(s, sub) {
      var k :| OccursAt(s, sub, k);
      if k + |sub| <= |x| {
        assert s[k..k + |sub|] == x[k..k + |sub|];
        assert OccursAt(x, sub, k);
      } else if k >= |x| + 1 {
        SliceAfterSpace(x, y, k - |x| - 1, |sub|);
        assert OccursAt(y, sub, k - |x| - 1);
      } else {
        assert s[k..k + |sub|][|x| - k] == s[|x|];
      }
    }
    if Contains(x, sub) {
      var k :| OccursAt(x, sub, k);
      assert s[k..k + |sub|] == x[k..k + |sub|];
      assert OccursAt(s, sub, k);
    }
    if Contains(y, sub) {
      var k :| OccursAt(y, sub, k);
      SliceAfterSpace(x, y, k, |sub|);
      assert OccursAt(s, sub, k + |x| + 1);
    }
  }

  /** Lower-casing works piecewise. */
  lemma LowerAppend(x: string, y: string)
    ensures Lower(x + y) == Lower(x) + Lower(y)
  {
  }
}
