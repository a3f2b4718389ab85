/** Building blocks for the fixed regular-expression phrasings the parsers use.

    A phrasing is modelled as a "match at position i" function that returns the
    captured values and the end of the match, built from the pieces below. Every
    piece is greedy and never backtracks; each phrasing that uses them is written
    so that the greedy choice is the one JavaScript's backtracking engine settles
    on (the comment beside each phrasing says why). Case-insensitive phrasings
    are run on the lower-cased text with lower-case literals. */
module Scan {
  import opened Text

  /** One regex match: captured value, first index, index just past the end. */
  datatype Hit<V> = Hit(value: V, start: nat, end: nat)

  /** The literal `lit` at `i`. */
  function Lit(s: string, i: nat, lit: string): (r: Option<nat>)
    ensures r.Some? <==> OccursAt(s, lit, i)
    ensures r.Some? ==> r.value == i + |lit|
  {
    if OccursAt(s, lit, i) then Some(i + |lit|) else None
  }

  /** `\s*` at `i`. */
  function Ws(s: string, i: nat): (j: nat)
    ensures i <= j && (i <= |s| ==> j <= |s|)
  {
    SpaceRunEnd(s, i)
  }

  /** `\s+` at `i`. */
  function Ws1(s: string, i: nat): (r: Option<nat>)
    ensures r.Some? ==> i < r.value <= |s|
  {
    var j := SpaceRunEnd(s, i);
    if j > i then Some(j) else None
  }

  /** A single character satisfying `p` at `i`. */
  function CharIf(s: string, i: nat, p: char -> bool): (r: Option<nat>)
    ensures r.Some? ==> i < |s| && r.value == i + 1
  {
    if i < |s| && p(s[i]) then Some(i + 1) else None
  }

  /** An optional literal `(?:lit)?`: taken when present. */
  function OptLit(s: string, i: nat, lit: string): (j: nat)
    ensures j == i || j == i + |lit|
  {
    if OccursAt(s, lit, i) then i + |lit| else i
  }

  /** Words separated by `\s+` (`plus`) or `\s*`, starting at `i`: `w0\s+w1\s+w2`.
      Every word starts with a non-space character, so the greedy whitespace
      run is the only one that can be followed by the next word. */
  function Words(s: string, i: nat, ws: seq<string>, plus: bool): (r: Option<nat>)
    ensures r.Some? ==> i <= r.value
    decreases |ws|
  {
    if ws == [] then Some(i)
    else
      var j :- Lit(s, i, ws[0]);
      if |ws| == 1 then Some(j)
      else
        var k :- if plus then Ws1(s, j) else Some(Ws(s, j));
        Words(s, k, ws[1..], plus)
  }

  /** A word sequence can only match where its first word occurs. */
  lemma WordsStart(s: string, i: nat, ws: seq<string>, plus: bool)
    requires ws != []
    ensures Words(s, i, ws, plus).Some? ==> OccursAt(s, ws[0], i)
  {
  }

  /** A capture-free match end, in the shape the searches below take. */
  function Unit(o: Option<nat>): Option<((), nat)> {
    match o
    case None => None
    case Some(e) => Some(((), e))
  }

  function DigitRunEnd(s: string, i: nat): (j: nat)
    ensures i <= j && (i <= |s| ==> j <= |s|)
    ensures forall k :: i <= k < j ==> k < |s| && IsDigit(s[k])
    ensures j < |s| ==> !IsDigit(s[j])
    decreases |s| - i
  {
    if i < |s| && IsDigit(s[i]) then DigitRunEnd(s, i + 1) else i
  }

  /** The digit run at `i` ends at `k` when `s[i..k]` are digits and `s[k]` is not. */
  lemma {:induction false} DigitRunEndAt(s: string, i: nat, k: nat)
    requires i <= k <= |s| && forall m :: i <= m < k ==> IsDigit(s[m])
    requires k == |s| || !IsDigit(s[k])
    ensures DigitRunEnd(s, i) == k
    decreases k - i
  {
    if i < k {
      DigitRunEndAt(s, i + 1, k);
    }
  }

  /** `(\d+)` at `i`: the digits as text. */
  function DigitText(s: string, i: nat): (r: Option<(string, nat)>)
    ensures r.Some? ==> i < r.value.1 <= |s| && r.value.0 == s[i..r.value.1]
    ensures r.Some? ==> |r.value.0| >= 1 && AllDigits(r.value.0)
    ensures r.Some? ==> r.value.1 == |s| || !IsDigit(s[r.value.1])
    ensures r.None? <==> !(i < |s| && IsDigit(s[i]))
  {
    var j := DigitRunEnd(s, i);
    if j > i then Some((s[i..j], j)) else None
  }

  /** `(\d+)` at `i`, read with `parseInt`. */
  function Number(s: string, i: nat): (r: Option<(nat, nat)>)
    ensures r.Some? ==> i < r.value.1 <= |s|
    ensures r.Some? <==> (i < |s| && IsDigit(s[i]))
  {
    var (t, j) :- DigitText(s, i);
    Some((DigitsValue(t), j))
  }

  function Pow10(k: nat): (r: nat)
    ensures r >= 1
  {
    if k == 0 then 1 else 10 * Pow10(k - 1)
  }

  /** `(\d+(?:\.\d+)?)` at `i`, read with `parseFloat`. The fraction is taken
      only when a digit follows the point, as the optional group requires. */
  function Decimal(s: string, i: nat): (r: Option<(real, nat)>)
    ensures r.Some? ==> i < r.value.1 <= |s| && r.value.0 >= 0.0
  {
    var (whole, j) :- DigitText(s, i);
    if j < |s| && s[j] == '.' && j + 1 < |s| && IsDigit(s[j + 1]) then
      var k := DigitRunEnd(s, j + 1);
      var frac := s[j + 1..k];
      Some((DigitsValue(whole) as real + DigitsValue(frac) as real / Pow10(|frac|) as real, k))
    else
      Some((DigitsValue(whole) as real, j))
  }

  /** `\b` at `i`. */
  predicate Boundary(s: string, i: nat) {
    (0 < i <= |s| && IsWordChar(s[i - 1])) != (i < |s| && IsWordChar(s[i]))
  }

  // ---------------------------------------------------------------------
  // Searching
  // ---------------------------------------------------------------------

  /** The leftmost position in `[i, n]` where `f` matches. */
  function FirstHit<V>(f: nat -> Option<(V, nat)>, i: nat, n: nat): (r: Option<Hit<V>>)
    ensures r.Some? ==> i <= r.value.start <= n && f(r.value.start) == Some((r.value.value, r.value.end))
    ensures r.Some? ==> forall j :: i <= j < r.value.start ==> f(j).None?
    ensures r.None? ==> forall j :: i <= j <= n ==> f(j).None?
    decreases n + 1 - i
  {
    if i > n then None
    else match f(i)
      case Some((v, e)) => Some(Hit(v, i, e))
      case None => FirstHit(f, i + 1, n)
  }

  /** `s.match(re)` for a regex without the `g` flag: the leftmost match. */
  function Search<V>(s: string, f: nat -> Option<(V, nat)>): (r: Option<V>)
    ensures r.Some? <==> exists j :: 0 <= j <= |s| && f(j).Some?
  {
    match FirstHit(f, 0, |s|)
    case None => None
    case Some(h) => Some(h.value)
  }

  /** `re.test(s)`. */
  predicate Matches<V>(s: string, f: nat -> Option<(V, nat)>) {
    Search(s, f).Some?
  }

  /** `v` is what the leftmost match of `f` in `s` captures: `f` matches at
      some position `j` with capture `v`, and at no position before `j`. */
  ghost predicate LeftmostCapture<V>(s: string, f: nat -> Option<(V, nat)>, v: V) {
    exists j :: 0 <= j <= |s| && f(j).Some? && f(j).value.0 == v && forall i :: 0 <= i < j ==> f(i).None?
  }

  /** `match` returns the capture of the leftmost match. */
  lemma SearchLeftmost<V>(s: string, f: nat -> Option<(V, nat)>)
    ensures Search(s, f).Some? ==> LeftmostCapture(s, f, Search(s, f).value)
  {
    match FirstHit(f, 0, |s|)
    case None =>
    case Some(h) =>
      assert f(h.start).Some? && f(h.start).value.0 == h.value;
  }

  /** Where a `g`-flagged `exec` loop resumes after a hit. */
  function Resume<V>(h: Hit<V>): (k: nat)
    ensures k > h.start
  {
    if h.end > h.start then h.end else h.start + 1
  }

  /** The successive results of `while ((m = re.exec(s)) !== null)` from `i`. */
  function AllHits<V>(f: nat -> Option<(V, nat)>, i: nat, n: nat): (r: seq<Hit<V>>)
    ensures forall k :: 0 <= k < |r| ==> i <= r[k].start <= n && f(r[k].start) == Some((r[k].value, r[k].end))
    decreases n + 1 - i
  {
    match FirstHit(f, i, n)
    case None => []
    case Some(h) => [h] + AllHits(f, Resume(h), n)
  }

  /** The captured values of every match of a `g`-flagged regex. */
  function AllValues<V>(s: string, f: nat -> Option<(V, nat)>): (r: seq<V>)
    ensures |r| == |AllHits(f, 0, |s|)|
  {
    var hs := AllHits(f, 0, |s|);
    seq(|hs|, k requires 0 <= k < |hs| => hs[k].value)
  }

  /** An exec loop finds nothing exactly when the regex matches nowhere. */
  lemma AllHitsEmptyIff<V>(f: nat -> Option<(V, nat)>, n: nat)
    ensures AllHits(f, 0, n) == [] <==> forall j :: 0 <= j <= n ==> f(j).None?
  {
  }

  // ---------------------------------------------------------------------
  // Replacing
  // ---------------------------------------------------------------------

  /** `s.replace(re, rep)` for a regex without the `g` flag: the leftmost match
      (a position and its end) is replaced. */
  function ReplaceFirstMatch(s: string, f: nat -> Option<((), nat)>, rep: string): (t: string)
  {
    match FirstHit(f, 0, |s|)
    case None => s
    case Some(h) => if h.end <= |s| then s[..h.start] + rep + s[h.end..] else s
  }

  /** `s.replace(re, rep)` for a `g`-flagged regex that never matches the
      empty string, scanning from `i`. */
  function ReplaceAllFrom(s: string, f: nat -> Option<((), nat)>, rep: string, i: nat): (t: string)
    decreases |s| - i
  {
    if i >= |s| then []
    else match f(i)
      case Some((_, e)) =>
        if i < e <= |s| then rep + ReplaceAllFrom(s, f, rep, e)
        else [s[i]] + ReplaceAllFrom(s, f, rep, i + 1)
      case None => [s[i]] + ReplaceAllFrom(s, f, rep, i + 1)
  }

  function ReplaceAll(s: string, f: nat -> Option<((), nat)>, rep: string): string {
    ReplaceAllFrom(s, f, rep, 0)
  }

  /** A phrasing `m` written over lower-case text, run on the lower-cased `s`
      (a case-insensitive regex). */
  function Folded(s: string, m: (string, nat) -> Option<nat>): nat -> Option<((), nat)> {
    var l := LowerStr(s);
    (j: nat) => Unit(m(l, j))
  }

  /** `s.replace(re, rep)` for a case-insensitive phrasing `m`. */
  function ReplaceFirstCI(s: string, m: (string, nat) -> Option<nat>, rep: string): string {
    ReplaceFirstMatch(s, Folded(s, m), rep)
  }

  /** `s.replace(re, rep)` for a case-insensitive `g`-flagged phrasing `m`. */
  function ReplaceAllCI(s: string, m: (string, nat) -> Option<nat>, rep: string): string {
    ReplaceAll(s, Folded(s, m), rep)
  }

  // ---------------------------------------------------------------------
  // exec loops
  // ---------------------------------------------------------------------

  /** `if (max === null || v > max) max = v;` */
  function UpdateMax(m: Option<real>, v: real): (r: Option<real>)
    ensures r.Some? && (m.Some? ==> m.value <= r.value) && v <= r.value
    ensures r == m || r == Some(v)
  {
    if m.None? || v > m.value then Some(v) else m
  }

  /** The running maximum after feeding `xs` to UpdateMax, starting from `m`. */
  function FoldMax(m: Option<real>, xs: seq<real>): (r: Option<real>)
    ensures r.None? <==> m.None? && xs == []
    ensures r.Some? ==> r == m || r.value in xs
    ensures r.Some? ==> (m.Some? ==> m.value <= r.value) && forall k :: 0 <= k < |xs| ==> xs[k] <= r.value
    decreases |xs|
  {
    if xs == [] then m else FoldMax(UpdateMax(m, xs[0]), xs[1..])
  }

  lemma {:induction false} FoldMaxConcat(m: Option<real>, a: seq<real>, b: seq<real>)
    ensures FoldMax(m, a + b) == FoldMax(FoldMax(m, a), b)
    decreases |a|
  {
    if a != [] {
      assert (a + b)[1..] == a[1..] + b;
      FoldMaxConcat(UpdateMax(m, a[0]), a[1..], b);
    } else {
      assert a + b == b;
    }
  }

  /** The captured values of `hs`, each passed through `adjust`. */
  function Measured(hs: seq<Hit<real>>, adjust: real -> real): (r: seq<real>)
    ensures |r| == |hs| && forall k :: 0 <= k < |hs| ==> r[k] == adjust(hs[k].value)
  {
    seq(|hs|, k requires 0 <= k < |hs| => adjust(hs[k].value))
  }

  /** An `exec` loop that feeds every match's value, through `adjust`, to the
      running maximum `m`. */
  method MaxOverHits(f: nat -> Option<(real, nat)>, n: nat, adjust: real -> real, m0: Option<real>) returns (m: Option<real>)
    ensures m == FoldMax(m0, Measured(AllHits(f, 0, n), adjust))
  {
    m := m0;
    var pos := 0;
    while pos <= n
      invariant FoldMax(m, Measured(AllHits(f, pos, n), adjust)) == FoldMax(m0, Measured(AllHits(f, 0, n), adjust))
      decreases n + 1 - pos
    {
      var hit := FirstHit(f, pos, n);
      if hit.None? {
        break;
      }
      var h := hit.value;
      var rest := AllHits(f, Resume(h), n);
      assert AllHits(f, pos, n) == [h] + rest;
      assert Measured([h] + rest, adjust) == [adjust(h.value)] + Measured(rest, adjust);
      m := UpdateMax(m, adjust(h.value));
      pos := Resume(h);
    }
  }

  /** The values of all matches, in order. */
  function HitValues<V>(hs: seq<Hit<V>>): (r: seq<V>)
    ensures |r| == |hs| && forall k :: 0 <= k < |hs| ==> r[k] == hs[k].value
  {
    seq(|hs|, k requires 0 <= k < |hs| => hs[k].value)
  }

  /** The captured values of a leading hit and the hits after it. */
  lemma HitValuesCons<V>(h: Hit<V>, rest: seq<Hit<V>>)
    ensures HitValues([h] + rest) == [h.value] + HitValues(rest)
  {
  }

  /** An `exec` loop that pushes every match's value. */
  method CollectHits<V>(f: nat -> Option<(V, nat)>, n: nat) returns (vs: seq<V>)
    ensures vs == HitValues(AllHits(f, 0, n))
  {
    vs := [];
    var pos := 0;
    while pos <= n
      invariant vs + HitValues(AllHits(f, pos, n)) == HitValues(AllHits(f, 0, n))
      decreases n + 1 - pos
    {
      var hit := FirstHit(f, pos, n);
      if hit.None? {
        assert HitValues(AllHits(f, pos, n)) == [];
        assert vs + [] == vs;
        break;
      }
      var h := hit.value;
      var rest := AllHits(f, Resume(h), n);
      assert AllHits(f, pos, n) == [h] + rest;
      HitValuesCons(h, rest);
      AppendAssoc(vs, [h.value], HitValues(rest));
      vs := vs + [h.value];
      pos := Resume(h);
    }
    if pos > n {
      assert HitValues(AllHits(f, pos, n)) == [];
      assert vs + [] == vs;
    }
  }

  /** FoldMax over integers (`parseInt` values). */
  function FoldMaxInt(m: Option<int>, xs: seq<int>): (r: Option<int>)
    ensures r.None? <==> m.None? && xs == []
    ensures r.Some? ==> r == m || r.value in xs
    ensures r.Some? ==> (m.Some? ==> m.value <= r.value) && forall k :: 0 <= k < |xs| ==> xs[k] <= r.value
    decreases |xs|
  {
    if xs == [] then m
    else FoldMaxInt(if m.None? || xs[0] > m.value then Some(xs[0]) else m, xs[1..])
  }

  /** An `exec` loop keeping the largest integer captured, None while no
      match has been seen. */
  method MaxIntOverHits(f: nat -> Option<(int, nat)>, n: nat) returns (m: Option<int>)
    ensures m == FoldMaxInt(None, HitValues(AllHits(f, 0, n)))
  {
    m := None;
    var pos := 0;
    while pos <= n
      invariant FoldMaxInt(m, HitValues(AllHits(f, pos, n))) == FoldMaxInt(None, HitValues(AllHits(f, 0, n)))
      decreases n + 1 - pos
    {
      var hit := FirstHit(f, pos, n);
      if hit.None? {
        break;
      }
      var h := hit.value;
      var rest := AllHits(f, Resume(h), n);
      assert AllHits(f, pos, n) == [h] + rest;
      HitValuesCons(h, rest);
      if m.None? || h.value > m.value {
        m := Some(h.value);
      }
      pos := Resume(h);
    }
  }

  /** The values `g` keeps from a run of matches, in order. */
  function Picked<V, W>(hs: seq<Hit<V>>, g: V -> Option<W>): (r: seq<W>)
    ensures |r| <= |hs|
    ensures forall k :: 0 <= k < |r| ==> exists i :: 0 <= i < |hs| && g(hs[i].value) == Some(r[k])
    decreases |hs|
  {
    if hs == [] then []
    else
      var rest := Picked(hs[1..], g);
      match g(hs[0].value)
      case Some(w) => [w] + rest
      case None => rest
  }

  /** An `exec` loop that pushes what `g` makes of each match, when it makes
      something. */
  method PickHits<V, W>(f: nat -> Option<(V, nat)>, n: nat, g: V -> Option<W>) returns (ws: seq<W>)
    ensures ws == Picked(AllHits(f, 0, n), g)
  {
    ws := [];
    var pos := 0;
    while pos <= n
      invariant ws + Picked(AllHits(f, pos, n), g) == Picked(AllHits(f, 0, n), g)
      decreases n + 1 - pos
    {
      var hit := FirstHit(f, pos, n);
      if hit.None? {
        assert AllHits(f, pos, n) == [];
        assert ws + [] == ws;
        break;
      }
      var h := hit.value;
      var rest := AllHits(f, Resume(h), n);
      assert AllHits(f, pos, n) == [h] + rest;
      assert ([h] + rest)[1..] == rest;
      var w := g(h.value);
      if w.Some? {
        AppendAssoc(ws, [w.value], Picked(rest, g));
        ws := ws + [w.value];
      }
      pos := Resume(h);
    }
    if pos > n {
      assert AllHits(f, pos, n) == [];
      assert ws + [] == ws;
    }
  }

  /** A property every capture of `f` has, the leftmost one has. */
  lemma SearchKeeps<V>(s: string, f: nat -> Option<(V, nat)>, p: V -> bool)
    requires forall j :: f(j).Some? ==> p(f(j).value.0)
    ensures Search(s, f).Some? ==> p(Search(s, f).value)
  {
    match FirstHit(f, 0, |s|)
    case None =>
    case Some(h) => assert f(h.start).Some?;
  }
}
