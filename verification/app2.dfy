/** app2.js: the most complete pipeline. A report's FINAL PATHOLOGIC DIAGNOSIS
    block is isolated (with the "See" / "Comment" merge), cut into specimens,
    each specimen's text is parsed into a record, the records are aggregated
    into positive and total cores, and a risk group is assigned. */
module App2Js {
  import opened Text
  import opened Scan
  import opened Reports

  // ---------------------------------------------------------------------
  // extractFinalDxLines (app2.js:119-153)
  // ---------------------------------------------------------------------

  /** `/\bsee\s*$/i`: the line ends with the word "see". */
  predicate EndsWithSee(line: string) {
    var l := LowerStr(line);
    Matches(l, SeeAtEnd(l))
  }

  /** `\bsee\s*$` matching at `j` of the lower-cased line `l`. */
  function SeeAtEnd(l: string): nat -> Option<((), nat)> {
    (j: nat) => if Boundary(l, j) && OccursAt(l, "see", j) && Ws(l, j + 3) == |l| then Some(((), |l|)) else None
  }

  /** `/^comment\b/i`: the line starts with the word "comment". */
  predicate StartsWithComment(line: string) {
    var l := LowerStr(line);
    OccursAt(l, "comment", 0) && Boundary(l, 7)
  }

  /** The first pass: blank lines are dropped, and a line ending in "see"
      absorbs the raw line right after it when that line starts with "comment". */
  function MergeSeeComment(lines: seq<string>): (r: seq<string>)
    ensures forall k :: 0 <= k < |r| ==> r[k] != []
    decreases |lines|
  {
    if lines == [] then []
    else if lines[0] == [] then MergeSeeComment(lines[1..])
    else if |lines| >= 2 && EndsWithSee(lines[0]) && StartsWithComment(lines[1]) then
      [lines[0] + " " + lines[1]] + MergeSeeComment(lines[2..])
    else [lines[0]] + MergeSeeComment(lines[1..])
  }

  /** The non-blank lines, in order. */
  function NonBlank(lines: seq<string>): (r: seq<string>)
    ensures |r| <= |lines|
    ensures forall k :: 0 <= k < |r| ==> r[k] != [] && r[k] in lines
  {
    if lines == [] then []
    else if lines[0] == [] then NonBlank(lines[1..])
    else [lines[0]] + NonBlank(lines[1..])
  }

  /** `a` ends in "see" and the line right after it starts with "comment". */
  predicate JoinsAt(lines: seq<string>, a: nat) {
    a + 1 < |lines| && EndsWithSee(lines[a]) && StartsWithComment(lines[a + 1])
  }

  /** `m` is a non-blank line of `lines`, or a "see" line of it joined with
      the "comment" line that follows it. */
  ghost predicate FromInput(lines: seq<string>, m: string) {
    (m != [] && m in lines)
    || exists a :: 0 <= a < |lines| && JoinsAt(lines, a) && m == lines[a] + " " + lines[a + 1]
  }

  lemma FromInputOfTail(lines: seq<string>, d: nat, m: string)
    requires d <= |lines| && FromInput(lines[d..], m)
    ensures FromInput(lines, m)
  {
    if !(m != [] && m in lines[d..]) {
      var a :| 0 <= a < |lines[d..]| && JoinsAt(lines[d..], a) && m == lines[d..][a] + " " + lines[d..][a + 1];
      assert JoinsAt(lines, a + d) && m == lines[a + d] + " " + lines[a + d + 1];
    }
  }

  /** Every merged line is a non-blank input line, or a "see" line joined
      with the "comment" line that follows it. */
  lemma {:induction false} MergedLineOrigin(lines: seq<string>)
    ensures var r := MergeSeeComment(lines);
            forall k :: 0 <= k < |r| ==> FromInput(lines, r[k])
    decreases |lines|
  {
    if lines == [] {
    } else if lines[0] == [] {
      MergedTailOrigin(lines, 1, []);
    } else if |lines| >= 2 && EndsWithSee(lines[0]) && StartsWithComment(lines[1]) {
      assert JoinsAt(lines, 0);
      MergedTailOrigin(lines, 2, [lines[0] + " " + lines[1]]);
    } else {
      MergedTailOrigin(lines, 1, [lines[0]]);
    }
  }

  /** The step of MergedLineOrigin: the merge is `head` followed by the merge
      of the lines from `d` on, and `head` comes from the input. */
  lemma {:induction false} MergedTailOrigin(lines: seq<string>, d: nat, head: seq<string>)
    requires 1 <= d <= |lines|
    requires MergeSeeComment(lines) == head + MergeSeeComment(lines[d..])
    requires forall k :: 0 <= k < |head| ==> FromInput(lines, head[k])
    ensures var r := MergeSeeComment(lines);
            forall k :: 0 <= k < |r| ==> FromInput(lines, r[k])
    decreases |lines|, 0
  {
    var rest := MergeSeeComment(lines[d..]);
    MergedLineOrigin(lines[d..]);
    var r := MergeSeeComment(lines);
    forall k | |head| <= k < |r|
      ensures FromInput(lines, r[k])
    {
      assert r[k] == rest[k - |head|];
      FromInputOfTail(lines, d, rest[k - |head|]);
    }
  }

  /** Without a "see" line followed by a "comment" line the merge only drops
      the blank lines: every other line survives, in order. */
  lemma {:induction false} MergeWithoutJoinsIsNonBlank(lines: seq<string>)
    requires forall a :: 0 <= a < |lines| ==> !JoinsAt(lines, a)
    ensures MergeSeeComment(lines) == NonBlank(lines)
    decreases |lines|
  {
    if lines != [] {
      assert !JoinsAt(lines, 0);
      forall a | 0 <= a < |lines| - 1
        ensures !JoinsAt(lines[1..], a)
      {
        assert !JoinsAt(lines, a + 1);
      }
      MergeWithoutJoinsIsNonBlank(lines[1..]);
    }
  }

  /** Each join turns two input lines into one, so the merge never has more
      lines than there are non-blank input lines. */
  lemma {:induction false} MergeNeverLonger(lines: seq<string>)
    ensures |MergeSeeComment(lines)| <= |NonBlank(lines)|
    decreases |lines|
  {
    if lines == [] {
    } else if lines[0] == [] {
      MergeNeverLonger(lines[1..]);
    } else if |lines| >= 2 && EndsWithSee(lines[0]) && StartsWithComment(lines[1]) {
      MergeNeverLonger(lines[2..]);
      MergeNeverLonger(lines[1..]);
      NonBlankShrinks(lines[1..]);
    } else {
      MergeNeverLonger(lines[1..]);
    }
  }

  /** The three steps of the merge, stated with `JoinsAt`: a blank line is
      dropped, a join pushes one line for two, any other line is pushed. */
  lemma MergeStepBlank(lines: seq<string>)
    requires lines != [] && lines[0] == []
    ensures MergeSeeComment(lines) == MergeSeeComment(lines[1..])
  {
  }

  lemma MergeStepJoin(lines: seq<string>)
    requires lines != [] && JoinsAt(lines, 0)
    ensures MergeSeeComment(lines) == [lines[0] + " " + lines[1]] + MergeSeeComment(lines[2..])
  {
    var j := SeeLineHasS(lines[0]);
  }

  lemma MergeStepKeep(lines: seq<string>)
    requires lines != [] && lines[0] != [] && !JoinsAt(lines, 0)
    ensures MergeSeeComment(lines) == [lines[0]] + MergeSeeComment(lines[1..])
  {
  }

  /** A join inside a prefix or a tail is a join of the whole list. */
  lemma JoinsAtPrefix(lines: seq<string>, p: nat, k: nat)
    requires k + 1 < p <= |lines|
    ensures JoinsAt(lines[..p], k) == JoinsAt(lines, k)
  {
    assert lines[..p][k] == lines[k] && lines[..p][k + 1] == lines[k + 1];
  }

  lemma JoinsAtTail(lines: seq<string>, d: nat, k: nat)
    requires d + k + 1 < |lines|
    ensures JoinsAt(lines[d..], k) == JoinsAt(lines, d + k)
  {
    assert lines[d..][k] == lines[d + k] && lines[d..][k + 1] == lines[d + k + 1];
  }

  /** The merge restarts cleanly at any line `p` that the line before it does
      not join: merging the lines before `p` and the lines from `p` on, and
      putting the two results together, gives the merge of all the lines. */
  lemma {:induction false} MergeSplit(lines: seq<string>, p: nat)
    requires p <= |lines|
    requires p == 0 || !JoinsAt(lines, p - 1)
    ensures MergeSeeComment(lines) == MergeSeeComment(lines[..p]) + MergeSeeComment(lines[p..])
    decreases p
  {
    var pre := lines[..p];
    if p == 0 {
      assert pre == [] && lines[p..] == lines;
    } else {
      assert pre[0] == lines[0];
      if lines[0] == [] {
        MergeStepBlank(lines);
        MergeStepBlank(pre);
        assert pre[1..] == lines[1..p];
        MergeSplitTail(lines, p, 1, []);
      } else if JoinsAt(lines, 0) {
        JoinsAtPrefix(lines, p, 0);
        MergeStepJoin(lines);
        MergeStepJoin(pre);
        assert pre[1] == lines[1];
        assert pre[2..] == lines[2..p];
        MergeSplitTail(lines, p, 2, [lines[0] + " " + lines[1]]);
      } else {
        if p >= 2 {
          JoinsAtPrefix(lines, p, 0);
        }
        MergeStepKeep(lines);
        MergeStepKeep(pre);
        assert pre[1..] == lines[1..p];
        MergeSplitTail(lines, p, 1, [lines[0]]);
      }
    }
  }

  /** The step of MergeSplit: both merges start with `head` and go on from
      line `d`. */
  lemma {:induction false} MergeSplitTail(lines: seq<string>, p: nat, d: nat, head: seq<string>)
    requires 1 <= d <= p <= |lines|
    requires p == 0 || !JoinsAt(lines, p - 1)
    requires MergeSeeComment(lines) == head + MergeSeeComment(lines[d..])
    requires MergeSeeComment(lines[..p]) == head + MergeSeeComment(lines[d..p])
    ensures MergeSeeComment(lines) == MergeSeeComment(lines[..p]) + MergeSeeComment(lines[p..])
    decreases p, 0
  {
    var tail := lines[d..];
    assert MergeSeeComment(tail) == MergeSeeComment(lines[d..p]) + MergeSeeComment(lines[p..]) by {
      assert tail[..p - d] == lines[d..p];
      assert tail[p - d..] == lines[p..];
      if p - d > 0 && p < |lines| {
        JoinsAtTail(lines, d, p - d - 1);
      }
      MergeSplit(tail, p - d);
    }
    AppendAssoc(head, MergeSeeComment(lines[d..p]), MergeSeeComment(lines[p..]));
  }

  /** The join happens: a line ending in "see" that the line before it does
      not join is pushed together with the "comment" line after it, as one
      merged line, and the merge goes on after the absorbed line. The merged
      line is no bare "Comment" heading, so the absorbed Comment line cannot
      end the capture. */
  lemma MergeKeepsJoin(lines: seq<string>, a: nat)
    requires JoinsAt(lines, a)
    requires a == 0 || !JoinsAt(lines, a - 1)
    ensures MergeSeeComment(lines)
            == MergeSeeComment(lines[..a]) + [lines[a] + " " + lines[a + 1]] + MergeSeeComment(lines[a + 2..])
    ensures !IsCommentHeading(lines[a] + " " + lines[a + 1])
  {
    var rest := lines[a..];
    var joined := lines[a] + " " + lines[a + 1];
    assert MergeSeeComment(lines) == MergeSeeComment(lines[..a]) + MergeSeeComment(rest) by {
      MergeSplit(lines, a);
    }
    assert MergeSeeComment(rest) == [joined] + MergeSeeComment(lines[a + 2..]) by {
      JoinsAtTail(lines, a, 0);
      MergeStepJoin(rest);
      assert rest[2..] == lines[a + 2..];
    }
    AppendAssoc(MergeSeeComment(lines[..a]), [joined], MergeSeeComment(lines[a + 2..]));
    SeeMergeIsNoCommentHeading(lines[a], lines[a + 1]);
  }

  /** A non-blank line that neither joins the next line nor is joined by
      the line before it survives the merge unchanged, in its place. */
  lemma MergeKeepsLine(lines: seq<string>, p: nat)
    requires p < |lines| && lines[p] != []
    requires !JoinsAt(lines, p)
    requires p == 0 || !JoinsAt(lines, p - 1)
    ensures MergeSeeComment(lines)
            == MergeSeeComment(lines[..p]) + [lines[p]] + MergeSeeComment(lines[p + 1..])
  {
    var rest := lines[p..];
    assert MergeSeeComment(lines) == MergeSeeComment(lines[..p]) + MergeSeeComment(rest) by {
      MergeSplit(lines, p);
    }
    assert MergeSeeComment(rest) == [lines[p]] + MergeSeeComment(lines[p + 1..]) by {
      if p + 1 < |lines| {
        JoinsAtTail(lines, p, 0);
      }
      MergeStepKeep(rest);
      assert rest[1..] == lines[p + 1..];
    }
    AppendAssoc(MergeSeeComment(lines[..p]), [lines[p]], MergeSeeComment(lines[p + 1..]));
  }

  /** Dropping the first line loses at most one non-blank line. */
  lemma NonBlankShrinks(lines: seq<string>)
    requires lines != []
    ensures |NonBlank(lines[1..])| <= |NonBlank(lines)|
  {
  }

  /** The merge loop, which advances `i` a second time when it absorbs a line. */
  method MergeLines(rawLines: seq<string>) returns (merged: seq<string>)
    ensures merged == MergeSeeComment(rawLines)
  {
    merged := [];
    var i := 0;
    while i < |rawLines|
      invariant i <= |rawLines|
      invariant merged + MergeSeeComment(rawLines[i..]) == MergeSeeComment(rawLines)
      decreases |rawLines| - i
    {
      var line := rawLines[i];
      var rest := rawLines[i..];
      if line == [] {
        assert rest[1..] == rawLines[i + 1..];
        i := i + 1;
        continue;
      }
      var next: nat;
      if i + 1 < |rawLines| && EndsWithSee(line) && StartsWithComment(rawLines[i + 1]) {
        assert rest[2..] == rawLines[i + 2..];
        assert MergeSeeComment(rest) == [line + " " + rawLines[i + 1]] + MergeSeeComment(rawLines[i + 2..]);
        line := line + " " + rawLines[i + 1];
        next := i + 2;
      } else {
        assert rest[1..] == rawLines[i + 1..];
        assert MergeSeeComment(rest) == [line] + MergeSeeComment(rawLines[i + 1..]);
        next := i + 1;
      }
      AppendAssoc(merged, [line], MergeSeeComment(rawLines[next..]));
      merged := merged + [line];
      i := next;
    }
    assert rawLines[i..] == [];
  }

  /** A line ending in "see" has an "s" in it. */
  lemma SeeLineHasS(a: string) returns (j: nat)
    requires EndsWithSee(a)
    ensures j < |a| && Lower(a[j]) == 's'
  {
    var la := LowerStr(a);
    var h := FirstHit(SeeAtEnd(la), 0, |la|);
    assert h.Some?;
    j := h.value.start;
    assert OccursAt(la, "see", j);
    assert la[j..j + 3][0] == 's';
  }

  /** A bare "Comment" heading has no "s" in it. */
  lemma CommentHeadingHasNoS(m: string)
    requires IsCommentHeading(m)
    ensures forall k :: 0 <= k < |m| ==> Lower(m[k]) != 's'
  {
    var l := LowerStr(m);
    assert OccursAt(l, "comment", 0);
    assert Ws(l, 7) == |l|;
    forall k | 0 <= k < |m|
      ensures Lower(m[k]) != 's'
    {
      if k < 7 {
        assert l[k] == "comment"[k];
      } else {
        assert IsSpace(l[k]);
      }
    }
  }

  /** A "...see" line with any line joined to it is never a bare "Comment"
      heading. */
  lemma SeeMergeIsNoCommentHeading(a: string, c: string)
    requires EndsWithSee(a)
    ensures !IsCommentHeading(a + " " + c)
  {
    var j := SeeLineHasS(a);
    var m := a + " " + c;
    assert m[j] == a[j];
    if IsCommentHeading(m) {
      CommentHeadingHasNoS(m);
    }
  }

  /** The lines of the diagnosis block, as the two passes compute them. */
  function FinalDxLines(reportText: string): seq<string> {
    CaptureFrom(MergeSeeComment(TrimAll(SplitLines(reportText))), KindOf, false)
  }

  /** extractFinalDxLines: the merge pass, then the capture pass. */
  method ExtractFinalDxLines(reportText: string) returns (dxLines: seq<string>)
    ensures dxLines == FinalDxLines(reportText)
    ensures forall k :: 0 <= k < |dxLines| ==> dxLines[k] != [] && !IsNoise(dxLines[k])
  {
    var merged := MergeLines(TrimAll(SplitLines(reportText)));
    dxLines := CaptureFinalDx(merged, KindOf);
    CapturedAreContent(merged, KindOf, false);
    forall k | 0 <= k < |dxLines|
      ensures dxLines[k] != [] && !IsNoise(dxLines[k])
    {
      KindOfMeaning(dxLines[k]);
    }
  }

  // ---------------------------------------------------------------------
  // parseSamplesFromDx (app2.js:155-180)
  // ---------------------------------------------------------------------

  /** End of a run of whitespace other than line breaks (`[^\S\r\n]*`). */
  function IndentEnd(s: string, i: nat): (j: nat)
    ensures i <= j && (i <= |s| ==> j <= |s|)
    ensures forall k :: i <= k < j ==> k < |s| && IsSpace(s[k])
    decreases |s| - i
  {
    if i < |s| && IsSpace(s[i]) && s[i] != '\r' && s[i] != '\n' then IndentEnd(s, i + 1) else i
  }

  /** `/^[^\S\r\n]*([A-Z])[\.\):]\s*(.*)/`: a specimen header, which may also
      end its letter with a colon. */
  function SampleHeader(line: string): (r: Option<(char, string)>)
    ensures var j := IndentEnd(line, 0);
            r.Some? <==> j + 1 < |line| && IsUpper(line[j]) && line[j + 1] in {'.', ')', ':'}
    ensures r.Some? ==> IsUpper(r.value.0)
  {
    LabelAt(line, IndentEnd(line, 0), {'.', ')', ':'})
  }

  // ---------------------------------------------------------------------
  // capitalizeWords (app2.js:44-49)
  // ---------------------------------------------------------------------

  /** `w.charAt(0).toUpperCase() + w.slice(1).toLowerCase()` */
  function Capitalize(w: string): (r: string)
    ensures |r| == |w|
  {
    if w == [] then [] else [Upper(w[0])] + LowerStr(w[1..])
  }

  function CapitalizeAll(ws: seq<string>): (r: seq<string>)
    ensures |r| == |ws|
    decreases |ws|
  {
    if ws == [] then [] else [Capitalize(ws[0])] + CapitalizeAll(ws[1..])
  }

  /** capitalizeWords: split on whitespace runs, capitalise each piece, join with " ". */
  function CapitalizeWords(str: string): string {
    Join(CapitalizeAll(SplitOnSpaces(str)), " ")
  }

  lemma LowerCapitalize(w: string)
    ensures LowerStr(Capitalize(w)) == LowerStr(w)
  {
    var c := Capitalize(w);
    forall i | 0 <= i < |w|
      ensures LowerStr(c)[i] == LowerStr(w)[i]
    {
      if i > 0 {
        assert c[i] == Lower(w[i]);
      }
    }
  }

  /** capitalizeWords changes nothing but letter case and the width of
      whitespace runs: lower-cased, it is the text with each whitespace run
      squeezed to one space. */
  lemma {:induction false} CapitalizeWordsOnlyRecases(str: string)
    ensures LowerStr(CapitalizeWords(str)) == LowerStr(CollapseSpaces(str))
    decreases |str|
  {
    match IndexOfSpace(str, 0)
    case None =>
      LowerCapitalize(str);
    case Some(k) =>
      var e := SpaceRunEnd(str, k);
      var rest := str[e..];
      var ws := SplitOnSpaces(rest);
      assert SplitOnSpaces(str) == [str[..k]] + ws;
      assert CapitalizeAll([str[..k]] + ws) == [Capitalize(str[..k])] + CapitalizeAll(ws) by {
        assert ([str[..k]] + ws)[1..] == ws;
      }
      var cs := CapitalizeAll(ws);
      assert |cs| >= 1;
      assert CapitalizeWords(str) == Capitalize(str[..k]) + " " + Join(cs, " ") by {
        assert ([Capitalize(str[..k])] + cs)[1..] == cs;
      }
      CapitalizeWordsOnlyRecases(rest);
      LowerCapitalize(str[..k]);
      LowerConcat(Capitalize(str[..k]) + " ", Join(cs, " "));
      LowerConcat(Capitalize(str[..k]), " ");
      LowerConcat(str[..k] + " ", CollapseSpaces(rest));
      LowerConcat(str[..k], " ");
  }

  // ---------------------------------------------------------------------
  // parseLocation (app2.js:182-203)
  // ---------------------------------------------------------------------

  /** The normalised location and the target fields. */
  datatype Location = Location(mainLocation: string, leftoverSite: string, isTarget: bool)

  // The phrasings below run on the lower-cased text. Each ends in a fixed
  // literal or a `\b`, and every `\s*` is followed by a non-space literal,
  // so the greedy reading is the only one that can succeed.

  /** `:\s*$` */
  function TrailingColon(l: string, j: nat): Option<nat> {
    if j < |l| && l[j] == ':' && Ws(l, j + 1) == |l| then Some(|l|) else None
  }

  /** `^PROSTATE\s*,?\s*` */
  function ProstatePrefix(l: string, j: nat): Option<nat> {
    if j != 0 then None
    else
      var a :- Lit(l, 0, "prostate");
      Some(Ws(l, OptLit(l, Ws(l, a), ",")))
  }

  /** `\bNEEDLE\s*(CORE\s*)?BIOPSY\b`: when "core" is there but "biopsy" does
      not follow it, skipping the group leaves "core" where "biopsy" must be. */
  function NeedleCoreBiopsy(l: string, j: nat): Option<nat> {
    if !Boundary(l, j) then None
    else
      var a :- Lit(l, j, "needle");
      var b := Ws(l, a);
      var c := if OccursAt(l, "core", b) then Ws(l, b + 4) else b;
      var d :- Lit(l, c, "biopsy");
      if Boundary(l, d) then Some(d) else None
  }

  /** `\bNEEDLE\s*BX\b` */
  function NeedleBx(l: string, j: nat): Option<nat> {
    if !Boundary(l, j) then None
    else
      var d :- Words(l, j, ["needle", "bx"], false);
      if Boundary(l, d) then Some(d) else None
  }

  /** `\bMRI\s*(directed|software\s*fusion)\b` */
  function MriGuided(l: string, j: nat): Option<nat> {
    if !Boundary(l, j) then None
    else
      var a :- Lit(l, j, "mri");
      var b := Ws(l, a);
      var d :- if OccursAt(l, "directed", b) then Some(b + 8) else Words(l, b, ["software", "fusion"], false);
      if Boundary(l, d) then Some(d) else None
  }

  /** `\bLESION\s*ZONE\b` */
  function LesionZone(l: string, j: nat): Option<nat> {
    if !Boundary(l, j) then None
    else
      var d :- Words(l, j, ["lesion", "zone"], false);
      if Boundary(l, d) then Some(d) else None
  }

  /** `\bLESION\b` */
  function Lesion(l: string, j: nat): Option<nat> {
    if !Boundary(l, j) then None
    else
      var d :- Lit(l, j, "lesion");
      if Boundary(l, d) then Some(d) else None
  }

  /** `\b<letter>\b\s*`, case-insensitive. */
  function LabelWord(letter: char): (string, nat) -> Option<nat> {
    (l: string, j: nat) =>
      if Boundary(l, j) && j < |l| && l[j] == Lower(letter) && Boundary(l, j + 1) then Some(Ws(l, j + 1)) else None
  }

  /** `\s*[-,]\s*` */
  function SepRun(l: string, j: nat): Option<nat> {
    var a := Ws(l, j);
    if a < |l| && (l[a] == '-' || l[a] == ',') then Some(Ws(l, a + 1)) else None
  }

  /** `\btarget\s*#?\s*(\d+)\b`: the number as text. Giving back digits would
      leave a digit right after the match, where `\b` fails. */
  function TargetAt(l: string, j: nat): (r: Option<(string, nat)>)
    ensures r.Some? ==> j < r.value.1 <= |l| && |r.value.0| >= 1 && AllDigits(r.value.0)
  {
    if !Boundary(l, j) then None
    else
      var a :- Lit(l, j, "target");
      var b := Ws(l, OptLit(l, Ws(l, a), "#"));
      var (digits, e) :- DigitText(l, b);
      if Boundary(l, e) then Some((digits, e)) else None
  }

  function TargetIn(l: string): nat -> Option<(string, nat)> {
    (j: nat) => TargetAt(l, j)
  }

  /** The replace chain of parseLocation, up to the separator pass. */
  function StripLocation(text: string, letter: char): string {
    var s1 := ReplaceFirstCI(text, TrailingColon, "");
    var s2 := ReplaceFirstCI(s1, ProstatePrefix, "");
    var s3 := ReplaceFirstCI(s2, NeedleCoreBiopsy, "");
    var s4 := ReplaceFirstCI(s3, NeedleBx, "");
    var s5 := ReplaceFirstCI(s4, MriGuided, "");
    var s6 := ReplaceAllCI(s5, LesionZone, "");
    var s7 := ReplaceAllCI(s6, Lesion, "");
    ReplaceFirstCI(s7, LabelWord(letter), "")
  }

  /** The replace chain of parseLocation, up to the trim. */
  function NormalizeLocation(text: string, letter: char): string {
    Trim(ReplaceAllCI(StripLocation(text, letter), SepRun, " "))
  }

  predicate NoDashOrComma(s: string) {
    forall i :: 0 <= i < |s| ==> s[i] != '-' && s[i] != ','
  }

  /** A hit of the target phrasing lies inside the text and holds digits. */
  lemma TargetHitShape(l: string, h: Hit<string>)
    requires FirstHit(TargetIn(l), 0, |l|) == Some(h)
    ensures h.start < h.end <= |l| && |h.value| >= 1 && AllDigits(h.value)
  {
    assert TargetIn(l)(h.start) == TargetAt(l, h.start);
  }

  /** The target branch of parseLocation: "Target N", and the text without
      the matched phrase as the leftover site. */
  function TargetLocation(loc: string, h: Hit<string>): (r: Location)
    requires h.start <= h.end <= |loc| && |h.value| >= 1 && AllDigits(h.value)
    ensures |r.mainLocation| > 7 && r.mainLocation[..7] == "Target " && AllDigits(r.mainLocation[7..])
    ensures r.isTarget && r.mainLocation[7..] == h.value
  {
    var m0 := loc[h.start..h.end];
    assert ("Target " + h.value)[7..] == h.value;
    Location("Target " + h.value, CapitalizeWords(Trim(ReplaceFirst(loc, m0, ""))), true)
  }

  /** parseLocation: a "target N" mention makes the location "Target N" and
      the rest of the text the leftover site; otherwise the whole normalised
      text, capitalised, is the location. */
  function ParseLocation(text: string, letter: char): (r: Location)
    ensures r.isTarget ==> |r.mainLocation| > 7 && r.mainLocation[..7] == "Target " && AllDigits(r.mainLocation[7..])
    ensures r.isTarget <==> Matches(LowerStr(NormalizeLocation(text, letter)), TargetIn(LowerStr(NormalizeLocation(text, letter))))
    ensures !r.isTarget ==> r.leftoverSite == [] && NoDashOrComma(r.mainLocation)
    ensures !r.isTarget ==> r.mainLocation == CapitalizeWords(NormalizeLocation(text, letter))
    ensures r.isTarget ==> var l := LowerStr(NormalizeLocation(text, letter));
                           r.mainLocation == "Target " + Search(l, TargetIn(l)).value
    ensures r.isTarget ==> var loc := NormalizeLocation(text, letter);
                           var h := FirstHit(TargetIn(LowerStr(loc)), 0, |loc|);
                           h.Some? && h.value.start <= h.value.end <= |loc|
                           && r.leftoverSite == CapitalizeWords(Trim(ReplaceFirst(loc, loc[h.value.start..h.value.end], "")))
  {
    var loc := NormalizeLocation(text, letter);
    var l := LowerStr(loc);
    match FirstHit(TargetIn(l), 0, |l|)
    case Some(h) =>
      TargetHitShape(l, h);
      TargetLocation(loc, h)
    case None =>
      NormalizedHasNoSeparator(text, letter);
      CapitalizeWordsKeepsNoSeparator(loc);
      Location(CapitalizeWords(loc), "", false)
  }

  /** A `g`-flagged replace of every separator run by " " leaves no separator:
      `f` matches a non-empty stretch at every '-' or ','. */
  lemma {:induction false} ReplaceSeparatorsLeavesNone(s: string, f: nat -> Option<((), nat)>, i: nat)
    requires forall j :: 0 <= j < |s| && (s[j] == '-' || s[j] == ',') ==> f(j).Some? && j < f(j).value.1 <= |s|
    ensures NoDashOrComma(ReplaceAllFrom(s, f, " ", i))
    decreases |s| - i
  {
    if i < |s| {
      match f(i)
      case Some((_, e)) =>
        if i < e <= |s| {
          ReplaceSeparatorsLeavesNone(s, f, e);
        } else {
          ReplaceSeparatorsLeavesNone(s, f, i + 1);
        }
      case None =>
        ReplaceSeparatorsLeavesNone(s, f, i + 1);
    }
  }

  lemma TrimKeepsNoSeparator(s: string)
    requires NoDashOrComma(s)
    ensures NoDashOrComma(Trim(s))
  {
    TrimInfix(s);
    var a: nat, b: nat :| a <= b <= |s| && Trim(s) == s[a..b];
    var r := s[a..b];
    forall i | 0 <= i < |r|
      ensures r[i] != '-' && r[i] != ','
    {
      assert r[i] == s[a + i];
    }
  }

  /** The separator phrasing matches a non-empty stretch at every '-' or ','. */
  lemma SepRunAtSeparators(s: string)
    ensures var f := Folded(s, SepRun);
            forall j :: 0 <= j < |s| && (s[j] == '-' || s[j] == ',') ==> f(j).Some? && j < f(j).value.1 <= |s|
  {
    var f := Folded(s, SepRun);
    var l := LowerStr(s);
    forall j | 0 <= j < |s| && (s[j] == '-' || s[j] == ',')
      ensures f(j).Some? && j < f(j).value.1 <= |s|
    {
      assert l[j] == s[j];
      assert Ws(l, j) == j;
      assert SepRun(l, j) == Some(Ws(l, j + 1));
      assert f(j) == Unit(SepRun(l, j));
    }
  }

  /** The normalised location has no '-' or ',' left. */
  lemma NormalizedHasNoSeparator(text: string, letter: char)
    ensures NoDashOrComma(NormalizeLocation(text, letter))
  {
    var s8 := StripLocation(text, letter);
    var f := Folded(s8, SepRun);
    SepRunAtSeparators(s8);
    ReplaceSeparatorsLeavesNone(s8, f, 0);
    TrimKeepsNoSeparator(ReplaceAll(s8, f, " "));
  }

  lemma {:induction false} SplitKeepsNoSeparator(s: string)
    requires NoDashOrComma(s)
    ensures forall k :: 0 <= k < |SplitOnSpaces(s)| ==> NoDashOrComma(SplitOnSpaces(s)[k])
    decreases |s|
  {
    match IndexOfSpace(s, 0)
    case None =>
    case Some(k) =>
      var e := SpaceRunEnd(s, k);
      assert NoDashOrComma(s[..k]);
      assert NoDashOrComma(s[e..]);
      SplitKeepsNoSeparator(s[e..]);
  }

  lemma {:induction false} CapitalizeAllKeepsNoSeparator(ws: seq<string>)
    requires forall k :: 0 <= k < |ws| ==> NoDashOrComma(ws[k])
    ensures forall k :: 0 <= k < |ws| ==> NoDashOrComma(CapitalizeAll(ws)[k])
    decreases |ws|
  {
    if ws != [] {
      CapitalizeAllKeepsNoSeparator(ws[1..]);
      var w := ws[0];
      var c := Capitalize(w);
      forall i | 0 <= i < |c|
        ensures c[i] != '-' && c[i] != ','
      {
        if i > 0 {
          assert c[i] == Lower(w[i]);
        }
      }
      assert CapitalizeAll(ws)[0] == c;
      assert forall k :: 1 <= k < |ws| ==> CapitalizeAll(ws)[k] == CapitalizeAll(ws[1..])[k - 1];
    }
  }

  lemma {:induction false} JoinKeepsNoSeparator(ws: seq<string>)
    requires forall k :: 0 <= k < |ws| ==> NoDashOrComma(ws[k])
    ensures NoDashOrComma(Join(ws, " "))
    decreases |ws|
  {
    if |ws| > 1 {
      JoinKeepsNoSeparator(ws[1..]);
    }
  }

  /** capitalizeWords introduces no '-' or ','. */
  lemma CapitalizeWordsKeepsNoSeparator(s: string)
    requires NoDashOrComma(s)
    ensures NoDashOrComma(CapitalizeWords(s))
  {
    SplitKeepsNoSeparator(s);
    CapitalizeAllKeepsNoSeparator(SplitOnSpaces(s));
    JoinKeepsNoSeparator(CapitalizeAll(SplitOnSpaces(s)));
  }

  // ---------------------------------------------------------------------
  // parseShortDiagnosis (app2.js:205-223)
  // ---------------------------------------------------------------------

  /** The sixteen short diagnoses. */
  datatype Diagnosis =
    | AcinarAdenoCA | DuctalAdenoCA | TransitionalCellCA | SquamousCellCA
    | SmallCellCA | LargeCellCA | AdenoCA | Asap | Hgpin | FocalAsap
    | FocalHgpin | Prostatitis | Inflammation | Benign | Bph | NotAvailable

  /** The label the page shows. */
  function DiagnosisName(d: Diagnosis): string {
    match d
    case AcinarAdenoCA => "Acinar AdenoCA"
    case DuctalAdenoCA => "Ductal AdenoCA"
    case TransitionalCellCA => "Transitional Cell CA"
    case SquamousCellCA => "Squamous Cell CA"
    case SmallCellCA => "Small Cell CA"
    case LargeCellCA => "Large Cell CA"
    case AdenoCA => "AdenoCA"
    case Asap => "ASAP"
    case Hgpin => "HGPIN"
    case FocalAsap => "Focal ASAP"
    case FocalHgpin => "Focal HGPIN"
    case Prostatitis => "Prostatitis"
    case Inflammation => "Inflammation"
    case Benign => "Benign"
    case Bph => "BPH"
    case NotAvailable => "N/A"
  }

  const HgpinPhrase := "high grade prostatic intraepithelial neoplasia"

  /** The small and large cell tests, each of which has two phrasings. */
  predicate SmallCellPhrase(l: string) {
    Contains(l, "small cell neuroendocrine carcinoma") || Contains(l, "small cell carcinoma")
  }

  predicate LargeCellPhrase(l: string) {
    Contains(l, "large cell neuroendocrine carcinoma") || Contains(l, "large cell carcinoma")
  }

  /** The first seven tests of parseShortDiagnosis, the carcinomas: a
      specific carcinoma before plain adenocarcinoma, each label exactly when
      its phrase occurs and no earlier one does. */
  function CarcinomaOf(l: string): (r: Option<Diagnosis>)
    ensures r.Some? ==> IsCarcinoma(r.value)
    ensures Contains(l, "adenocarcinoma") ==> r.Some?
    ensures r == Some(AcinarAdenoCA) <==> Contains(l, "acinar adenocarcinoma")
    ensures r == Some(DuctalAdenoCA) <==> !Contains(l, "acinar adenocarcinoma") && Contains(l, "ductal adenocarcinoma")
    ensures r == Some(TransitionalCellCA) <==> (!Contains(l, "acinar adenocarcinoma") && !Contains(l, "ductal adenocarcinoma")
              && Contains(l, "transitional cell carcinoma"))
    ensures r == Some(SquamousCellCA) <==> (!Contains(l, "acinar adenocarcinoma") && !Contains(l, "ductal adenocarcinoma")
              && !Contains(l, "transitional cell carcinoma") && Contains(l, "squamous cell carcinoma"))
    ensures r == Some(SmallCellCA) <==> (!Contains(l, "acinar adenocarcinoma") && !Contains(l, "ductal adenocarcinoma")
              && !Contains(l, "transitional cell carcinoma") && !Contains(l, "squamous cell carcinoma")
              && SmallCellPhrase(l))
    ensures r == Some(LargeCellCA) <==> (!Contains(l, "acinar adenocarcinoma") && !Contains(l, "ductal adenocarcinoma")
              && !Contains(l, "transitional cell carcinoma") && !Contains(l, "squamous cell carcinoma")
              && !SmallCellPhrase(l) && LargeCellPhrase(l))
    ensures r == Some(AdenoCA) <==> (Contains(l, "adenocarcinoma")
              && !Contains(l, "acinar adenocarcinoma") && !Contains(l, "ductal adenocarcinoma")
              && !Contains(l, "transitional cell carcinoma") && !Contains(l, "squamous cell carcinoma")
              && !SmallCellPhrase(l) && !LargeCellPhrase(l))
    ensures r.None? <==> (!Contains(l, "adenocarcinoma")
              && !Contains(l, "transitional cell carcinoma") && !Contains(l, "squamous cell carcinoma")
              && !SmallCellPhrase(l) && !LargeCellPhrase(l))
  {
    SpecificAdenoHasGeneral(l);
    if Contains(l, "acinar adenocarcinoma") then Some(AcinarAdenoCA)
    else if Contains(l, "ductal adenocarcinoma") then Some(DuctalAdenoCA)
    else if Contains(l, "transitional cell carcinoma") then Some(TransitionalCellCA)
    else if Contains(l, "squamous cell carcinoma") then Some(SquamousCellCA)
    else if SmallCellPhrase(l) then Some(SmallCellCA)
    else if LargeCellPhrase(l) then Some(LargeCellCA)
    else if Contains(l, "adenocarcinoma") then Some(AdenoCA)
    else None
  }

  /** Either HGPIN phrasing. */
  predicate HgpinPhraseIn(l: string) {
    Contains(l, "hgpin") || Contains(l, HgpinPhrase)
  }

  /** The tests of parseShortDiagnosis after HGPIN, from Focal ASAP down to
      BPH: the first whose phrase occurs names the lesion, "N/A" when none
      does. */
  function LaterLesionOf(l: string): (r: Diagnosis)
    ensures !IsCarcinoma(r) && r != Asap && r != Hgpin
    ensures r == FocalAsap <==> Contains(l, "focal atypical small acinar proliferation")
    ensures r == FocalHgpin <==> (!Contains(l, "focal atypical small acinar proliferation")
              && Contains(l, "focal " + HgpinPhrase))
    ensures r == Prostatitis <==> (!Contains(l, "focal atypical small acinar proliferation")
              && !Contains(l, "focal " + HgpinPhrase) && Contains(l, "prostatitis"))
    ensures r == Inflammation <==> (!Contains(l, "focal atypical small acinar proliferation")
              && !Contains(l, "focal " + HgpinPhrase) && !Contains(l, "prostatitis")
              && Contains(l, "inflammation"))
    ensures r == Benign <==> (!Contains(l, "focal atypical small acinar proliferation")
              && !Contains(l, "focal " + HgpinPhrase) && !Contains(l, "prostatitis")
              && !Contains(l, "inflammation") && (Contains(l, "benign") || Contains(l, "negative")))
    ensures r == Bph <==> (!Contains(l, "focal atypical small acinar proliferation")
              && !Contains(l, "focal " + HgpinPhrase) && !Contains(l, "prostatitis")
              && !Contains(l, "inflammation") && !Contains(l, "benign") && !Contains(l, "negative")
              && Contains(l, "bph"))
    ensures r == NotAvailable <==> (!Contains(l, "focal atypical small acinar proliferation")
              && !Contains(l, "focal " + HgpinPhrase) && !Contains(l, "prostatitis")
              && !Contains(l, "inflammation") && !Contains(l, "benign") && !Contains(l, "negative")
              && !Contains(l, "bph"))
  {
    if Contains(l, "focal atypical small acinar proliferation") then FocalAsap
    else if Contains(l, "focal " + HgpinPhrase) then FocalHgpin
    else if Contains(l, "prostatitis") then Prostatitis
    else if Contains(l, "inflammation") then Inflammation
    else if Contains(l, "benign") || Contains(l, "negative") then Benign
    else if Contains(l, "bph") then Bph
    else NotAvailable
  }

  /** The tests of parseShortDiagnosis after the carcinomas, from ASAP down
      to BPH: ASAP, then HGPIN, then the later lesions; each label exactly
      when its phrase occurs and no earlier one does. */
  function LesionOf(l: string): (r: Diagnosis)
    ensures !IsCarcinoma(r)
    ensures r == Asap <==> Contains(l, "asap")
    ensures r == Hgpin <==> !Contains(l, "asap") && HgpinPhraseIn(l)
    ensures r == FocalAsap <==> (!Contains(l, "asap") && !HgpinPhraseIn(l)
              && Contains(l, "focal atypical small acinar proliferation"))
    ensures r == FocalHgpin <==> (!Contains(l, "asap") && !HgpinPhraseIn(l)
              && !Contains(l, "focal atypical small acinar proliferation") && Contains(l, "focal " + HgpinPhrase))
    ensures r == Prostatitis <==> (!Contains(l, "asap") && !HgpinPhraseIn(l)
              && !Contains(l, "focal atypical small acinar proliferation") && !Contains(l, "focal " + HgpinPhrase)
              && Contains(l, "prostatitis"))
    ensures r == Inflammation <==> (!Contains(l, "asap") && !HgpinPhraseIn(l)
              && !Contains(l, "focal atypical small acinar proliferation") && !Contains(l, "focal " + HgpinPhrase)
              && !Contains(l, "prostatitis") && Contains(l, "inflammation"))
    ensures r == Benign <==> (!Contains(l, "asap") && !HgpinPhraseIn(l)
              && !Contains(l, "focal atypical small acinar proliferation") && !Contains(l, "focal " + HgpinPhrase)
              && !Contains(l, "prostatitis") && !Contains(l, "inflammation")
              && (Contains(l, "benign") || Contains(l, "negative")))
    ensures r == Bph <==> (!Contains(l, "asap") && !HgpinPhraseIn(l)
              && !Contains(l, "focal atypical small acinar proliferation") && !Contains(l, "focal " + HgpinPhrase)
              && !Contains(l, "prostatitis") && !Contains(l, "inflammation")
              && !Contains(l, "benign") && !Contains(l, "negative") && Contains(l, "bph"))
    ensures r == NotAvailable <==> (!Contains(l, "asap") && !HgpinPhraseIn(l)
              && !Contains(l, "focal atypical small acinar proliferation") && !Contains(l, "focal " + HgpinPhrase)
              && !Contains(l, "prostatitis") && !Contains(l, "inflammation")
              && !Contains(l, "benign") && !Contains(l, "negative") && !Contains(l, "bph"))
  {
    if Contains(l, "asap") then Asap
    else if HgpinPhraseIn(l) then Hgpin
    else LaterLesionOf(l)
  }

  /** parseShortDiagnosis: the first test that holds on the lower-cased text
      decides, the carcinomas before the lesions; "N/A" when none does. */
  function ParseShortDiagnosis(txt: string): (d: Diagnosis)
    ensures var l := LowerStr(txt);
            && (IsCarcinoma(d) <==> CarcinomaOf(l).Some?)
            && (CarcinomaOf(l).Some? ==> d == CarcinomaOf(l).value)
            && (CarcinomaOf(l).None? ==> d == LesionOf(l))
            && (d == AdenoCA ==> Contains(l, "adenocarcinoma"))
            && (d == Asap <==> CarcinomaOf(l).None? && Contains(l, "asap"))
            && (d == NotAvailable <==> CarcinomaOf(l).None? && LesionOf(l) == NotAvailable)
  {
    var l := LowerStr(txt);
    match CarcinomaOf(l)
    case Some(d) => d
    case None => LesionOf(l)
  }

  /** Text with a phrase has every tail of it. */
  lemma TailPhraseContained(l: string, head: string, p: string)
    requires Contains(l, head + p)
    ensures Contains(l, p)
  {
    var q := head + p;
    assert q[|head|..|head| + |p|] == p;
    ContainsAt(q, p, |head|);
    ContainsTransitive(l, q, p);
  }

  /** Text with the focal HGPIN phrase also has the general HGPIN phrase. */
  lemma FocalPhraseHasGeneral(l: string)
    requires Contains(l, "focal " + HgpinPhrase)
    ensures Contains(l, HgpinPhrase)
  {
    TailPhraseContained(l, "focal ", HgpinPhrase);
  }

  /** "acinar adenocarcinoma" and "ductal adenocarcinoma" each contain
      "adenocarcinoma". */
  lemma SpecificAdenoHasGeneral(l: string)
    ensures Contains(l, "acinar adenocarcinoma") ==> Contains(l, "adenocarcinoma")
    ensures Contains(l, "ductal adenocarcinoma") ==> Contains(l, "adenocarcinoma")
  {
    assert "acinar adenocarcinoma" == "acinar " + "adenocarcinoma";
    assert "ductal adenocarcinoma" == "ductal " + "adenocarcinoma";
    if Contains(l, "acinar adenocarcinoma") {
      TailPhraseContained(l, "acinar ", "adenocarcinoma");
    }
    if Contains(l, "ductal adenocarcinoma") {
      TailPhraseContained(l, "ductal ", "adenocarcinoma");
    }
  }

  /** "Focal HGPIN" is never returned: its phrase contains the general HGPIN
      phrase, whose test comes first. */
  lemma FocalHgpinUnreachable(txt: string)
    ensures ParseShortDiagnosis(txt) != FocalHgpin
  {
    var l := LowerStr(txt);
    if CarcinomaOf(l).None? && Contains(l, "focal " + HgpinPhrase) {
      FocalPhraseHasGeneral(l);
      assert LesionOf(l) != FocalHgpin;
    }
  }

  /** A carcinoma label: one of the first seven tests. */
  predicate IsCarcinoma(d: Diagnosis) {
    d in {AcinarAdenoCA, DuctalAdenoCA, TransitionalCellCA, SquamousCellCA, SmallCellCA, LargeCellCA, AdenoCA}
  }

  /** Any text that says "adenocarcinoma" gets a carcinoma label, whatever
      else (ASAP, HGPIN, benign) it mentions. */
  lemma AdenocarcinomaWins(txt: string)
    requires Contains(LowerStr(txt), "adenocarcinoma")
    ensures IsCarcinoma(ParseShortDiagnosis(txt))
  {
  }

  // ---------------------------------------------------------------------
  // Grade group and Gleason helpers (app2.js:67-82, 317-335, 414-416)
  // ---------------------------------------------------------------------

  /** `grade\s+group\s+(\d+)` at `j`. */
  function GradeGroupAt(l: string, j: nat): Option<(nat, nat)> {
    var a :- Words(l, j, ["grade", "group"], true);
    var b :- Ws1(l, a);
    Number(l, b)
  }

  function GradeGroupIn(l: string): nat -> Option<(nat, nat)> {
    (j: nat) => GradeGroupAt(l, j)
  }

  /** extractGradeGroup: the number of the first "grade group N" mention when
      it is 1 to 5, else 0. */
  function ExtractGradeGroup(text: string): (gg: nat)
    ensures gg <= 5
    ensures var m := Search(LowerStr(text), GradeGroupIn(LowerStr(text)));
            gg != 0 <==> m.Some? && 1 <= m.value <= 5
    ensures gg != 0 ==> Search(LowerStr(text), GradeGroupIn(LowerStr(text))) == Some(gg)
  {
    var l := LowerStr(text);
    match Search(l, GradeGroupIn(l))
    case None => 0
    case Some(g) => if 1 <= g <= 5 then g else 0
  }

  /** gradeGroupToGleasonSum: 1 -> 6, 2 and 3 -> 7, 4 -> 8, 5 -> 9, else 6. */
  function GradeGroupToGleasonSum(gg: nat): (sum: nat)
    ensures 6 <= sum <= 9
  {
    if gg == 1 then 6
    else if gg == 2 || gg == 3 then 7
    else if gg == 4 then 8
    else if gg == 5 then 9
    else 6
  }

  /** gleasonSumToGradeGroup (defined in app2.js, never called there). */
  function GleasonSumToGradeGroup(sum: nat): (gg: nat)
    ensures 1 <= gg <= 5 && gg != 3
  {
    if sum <= 6 then 1 else if sum == 7 then 2 else if sum == 8 then 4 else 5
  }

  /** The two conversions invert each other on grade groups 1, 2, 4 and 5
      and on sums 6 to 9; grade group 3 comes back as 2, since both are sum 7. */
  lemma GradeGroupSumRoundTrip(gg: nat, sum: nat)
    ensures gg in {1, 2, 4, 5} ==> GleasonSumToGradeGroup(GradeGroupToGleasonSum(gg)) == gg
    ensures GleasonSumToGradeGroup(GradeGroupToGleasonSum(3)) == 2
    ensures 6 <= sum <= 9 ==> GradeGroupToGleasonSum(GleasonSumToGradeGroup(sum)) == sum
  {
  }

  /** The captures of the Gleason phrasing: primary, secondary, stated total. */
  datatype GleasonMatch = GleasonMatch(primary: nat, secondary: nat, total: Option<nat>)

  /** `gleason\s*(?:score\s*)?(\d+)\s*\+\s*(\d+)\s*(?:=\s*(\d+))?` at `j`.
      If "score" is taken and no digit follows, skipping it leaves "s" where a
      digit must be; an "=" with no number after it leaves the group out. */
  function GleasonAt(l: string, j: nat): Option<(GleasonMatch, nat)> {
    var a :- Lit(l, j, "gleason");
    var b := Ws(l, a);
    var c := if OccursAt(l, "score", b) then Ws(l, b + 5) else b;
    var (p, d) :- Number(l, c);
    var e :- Lit(l, Ws(l, d), "+");
    var (s, f) :- Number(l, Ws(l, e));
    var g := Ws(l, f);
    if OccursAt(l, "=", g) && Number(l, Ws(l, g + 1)).Some? then
      var (t, h) := Number(l, Ws(l, g + 1)).value;
      Some((GleasonMatch(p, s, Some(t)), h))
    else Some((GleasonMatch(p, s, None), g))
  }

  function GleasonIn(l: string): nat -> Option<(GleasonMatch, nat)> {
    (j: nat) => GleasonAt(l, j)
  }

  /** extractGleasonScore (defined in app2.js, never called there): the
      stated total when the first Gleason mention has one, else primary plus
      secondary; 0 when there is no mention. */
  function ExtractGleasonScore(text: string): (sum: nat)
    ensures var m := Search(LowerStr(text), GleasonIn(LowerStr(text)));
            && (m.None? ==> sum == 0)
            && (m.Some? && m.value.total.Some? ==> sum == m.value.total.value)
            && (m.Some? && m.value.total.None? ==> sum == m.value.primary + m.value.secondary)
  {
    var l := LowerStr(text);
    match Search(l, GleasonIn(l))
    case None => 0
    case Some(m) => if m.total.Some? then m.total.value else m.primary + m.secondary
  }

  /** findMaxGradeGroup: `reduce` from 0 keeping the larger grade group. */
  function MaxGradeGroupFrom(acc: nat, ggs: seq<nat>): (r: nat)
    ensures acc <= r
    ensures forall k :: 0 <= k < |ggs| ==> ggs[k] <= r
    ensures r == acc || r in ggs
    decreases |ggs|
  {
    if ggs == [] then acc
    else MaxGradeGroupFrom(if ggs[0] > acc then ggs[0] else acc, ggs[1..])
  }

  // ---------------------------------------------------------------------
  // extractCoresPositive and formatCores (app2.js:337-364)
  // ---------------------------------------------------------------------

  /** `(?:partially\s+fragmented|fragmented)?` at `i`. */
  function OptFragmented(l: string, i: nat): (j: nat)
    ensures i <= j
  {
    match Words(l, i, ["partially", "fragmented"], true)
    case Some(e) => e
    case None => OptLit(l, i, "fragmented")
  }

  /** `(?:core|cores|needle\s*biopsies)` at `i`, with `prostatic tissue` as a
      further choice when `tissue` holds. */
  function CoreNoun(l: string, i: nat, tissue: bool): Option<nat> {
    if OccursAt(l, "core", i) then Some(i + 4)
    else if Words(l, i, ["needle", "biopsies"], false).Some? then Words(l, i, ["needle", "biopsies"], false)
    else if tissue then Lit(l, i, "prostatic tissue")
    else None
  }

  /** `(\d+)<sep>(\d+)\s*(?:partially\s+fragmented|fragmented)?\s*<noun>` at `i`,
      `sep` being `\s*of\s*` (`of`) or `\/`. A digit or "p"/"f" left behind
      by giving back can never start what follows, so greedy is exact. */
  function FractionAt(l: string, i: nat, of: bool, tissue: bool): Option<((nat, nat), nat)> {
    var (x, a) :- Number(l, i);
    var b :- if of then Lit(l, Ws(l, a), "of") else Lit(l, a, "/");
    var (y, c) :- Number(l, if of then Ws(l, b) else b);
    var e :- CoreNoun(l, Ws(l, OptFragmented(l, Ws(l, c))), tissue);
    Some(((x, y), e))
  }

  /** `involving\s*` followed by a fraction, at `j`. */
  function InvolvingAt(l: string, j: nat, of: bool, tissue: bool): Option<((nat, nat), nat)> {
    var a :- Lit(l, j, "involving");
    FractionAt(l, Ws(l, a), of, tissue)
  }

  /** `involving\s+all\s+cores\s*\(\s*(\d+)\s*of\s*(\d+)\s*(?:core|cores?)\s*\)` at `j`. */
  function AllCoresAt(l: string, j: nat): Option<((nat, nat), nat)> {
    var a :- Words(l, j, ["involving", "all", "cores"], true);
    var b :- Lit(l, Ws(l, a), "(");
    var (x, c) :- Number(l, Ws(l, b));
    var d :- Lit(l, Ws(l, c), "of");
    var (y, e) :- Number(l, Ws(l, d));
    var f :- Lit(l, Ws(l, e), "core");
    var g :- Lit(l, Ws(l, OptLit(l, f, "s")), ")");
    Some(((x, y), g))
  }

  /** `[\d\.]+` run end. */
  function DigitDotRunEnd(s: string, i: nat): (j: nat)
    ensures i <= j && (i <= |s| ==> j <= |s|)
    decreases |s| - i
  {
    if i < |s| && (IsDigit(s[i]) || s[i] == '.') then DigitDotRunEnd(s, i + 1) else i
  }

  /** `INVOLVING FRAGMENTED CORES \(TUMOR MEASURES [\d\.]+ mm IN [\d\.]+ mm OF FRAGMENTED CORES\)`,
      case-sensitive, at `j` of the text as written. */
  function FragmentedFallbackAt(t: string, j: nat): Option<nat> {
    var a :- Lit(t, j, "INVOLVING FRAGMENTED CORES (TUMOR MEASURES ");
    var b := DigitDotRunEnd(t, a);
    if b == a then None
    else
      var c :- Lit(t, b, " mm IN ");
      var d := DigitDotRunEnd(t, c);
      if d == c then None else Lit(t, d, " mm OF FRAGMENTED CORES)")
  }

  function Phrasing(l: string, k: nat): nat -> Option<((nat, nat), nat)>
    requires k < 5
  {
    (j: nat) =>
      if k == 0 then InvolvingAt(l, j, true, true)
      else if k == 1 then InvolvingAt(l, j, false, false)
      else if k == 2 then FractionAt(l, j, true, false)
      else if k == 3 then FractionAt(l, j, false, false)
      else AllCoresAt(l, j)
  }

  /** The phrasings tried in order from the `k`-th: the first that matches
      anywhere gives the fraction. */
  function FirstFraction(l: string, k: nat): (r: Option<(nat, nat)>)
    requires k <= 5
    ensures r.Some? <==> exists i :: k <= i < 5 && Matches(l, Phrasing(l, i))
    ensures r.Some? ==> exists i :: k <= i < 5 && Search(l, Phrasing(l, i)) == r
                                    && forall i' :: k <= i' < i ==> !Matches(l, Phrasing(l, i'))
    decreases 5 - k
  {
    if k == 5 then None
    else
      var m := Search(l, Phrasing(l, k));
      if m.Some? then m else FirstFraction(l, k + 1)
  }

  function FragmentedFallbackIn(t: string): nat -> Option<((), nat)> {
    (j: nat) => Unit(FragmentedFallbackAt(t, j))
  }

  /** The positive and total cores extractCoresPositive formats, if any: the
      first numeric phrasing's fraction, else one of one for a small focus of
      adenocarcinoma or the upper-case fragmented-cores sentence, else none. */
  function CoresFraction(text: string): (r: Option<(nat, nat)>)
    ensures (exists i :: 0 <= i < 5 && Matches(LowerStr(text), Phrasing(LowerStr(text), i))) ==>
              r == FirstFraction(LowerStr(text), 0)
    ensures r.None? <==> FirstFraction(LowerStr(text), 0).None?
                         && !(Contains(LowerStr(text), "a small focus") && Contains(LowerStr(text), "adenocarcinoma"))
                         && !Matches(text, FragmentedFallbackIn(text))
    ensures r.Some? && FirstFraction(LowerStr(text), 0).None? ==> r == Some((1, 1))
  {
    var l := LowerStr(text);
    var m := FirstFraction(l, 0);
    if m.Some? then m
    else if Contains(l, "a small focus") && Contains(l, "adenocarcinoma") then Some((1, 1))
    else if Matches(text, FragmentedFallbackIn(text)) then Some((1, 1))
    else None
  }

  /** `Math.round(100 * x / y)`, rounding halves up. */
  function RoundPercent(x: nat, y: nat): (p: nat)
    requires y > 0
    ensures 2 * y * p <= 200 * x + y < 2 * y * (p + 1)
  {
    (200 * x + y) / (2 * y)
  }

  /** formatCores: "X/Y(P%)" with P the rounded percentage, or "N/A" when Y is 0. */
  function FormatCores(x: nat, y: nat): (r: string)
    ensures r == "N/A" <==> y == 0
    ensures y != 0 ==> r == NatToString(x) + "/" + NatToString(y) + "(" + NatToString(RoundPercent(x, y)) + "%)"
  {
    if y == 0 then "N/A"
    else NatToString(x) + "/" + NatToString(y) + "(" + NatToString(RoundPercent(x, y)) + "%)"
  }

  /** extractCoresPositive */
  function ExtractCoresPositive(text: string): (r: string)
    ensures r == "N/A" <==> CoresFraction(text).None? || CoresFraction(text).value.1 == 0
    ensures r != "N/A" ==> r == FormatCores(CoresFraction(text).value.0, CoresFraction(text).value.1)
    ensures r != "N/A" ==> ParseFraction(r) == CoresFraction(text)
  {
    match CoresFraction(text)
    case None => "N/A"
    case Some((x, y)) =>
      if y == 0 then FormatCores(x, y)
      else FormatCoresRoundTrip(x, y); FormatCores(x, y)
  }

  /** `/^(\d+)\/(\d+)/`: the fraction the aggregation reads back. */
  function ParseFraction(s: string): Option<(nat, nat)> {
    var (x, a) :- Number(s, 0);
    var b :- Lit(s, a, "/");
    var (y, _) :- Number(s, b);
    Some((x, y))
  }

  /** `Number` reads back a rendered natural number followed by a non-digit. */
  lemma NumberOfNatToString(s: string, i: nat, n: nat)
    requires OccursAt(s, NatToString(n), i)
    requires i + |NatToString(n)| == |s| || !IsDigit(s[i + |NatToString(n)|])
    ensures Number(s, i).Some? && Number(s, i).value.0 == n && Number(s, i).value.1 == i + |NatToString(n)|
  {
    var t := NatToString(n);
    assert s[i..i + |t|] == t;
    forall m | i <= m < i + |t|
      ensures IsDigit(s[m])
    {
      assert s[m] == t[m - i];
    }
    DigitRunEndAt(s, i, i + |t|);
    DigitsValueOfNatToString(n);
  }

  /** The three steps of `^(\d+)\/(\d+)` in sequence. */
  lemma FractionOf(s: string, x: nat, a: nat, y: nat, b: nat)
    requires Number(s, 0).Some? && Number(s, 0).value.0 == x && Number(s, 0).value.1 == a
    requires Lit(s, a, "/") == Some(a + 1)
    requires Number(s, a + 1).Some? && Number(s, a + 1).value.0 == y && Number(s, a + 1).value.1 == b
    ensures ParseFraction(s) == Some((x, y))
  {
  }

  /** The numerator and the slash of a rendered fraction. */
  lemma NumeratorOf(x: nat, ty: string, rest: string)
    ensures var s := NatToString(x) + "/" + ty + rest;
            Number(s, 0).Some? && Number(s, 0).value.0 == x && Number(s, 0).value.1 == |NatToString(x)|
    ensures Lit(NatToString(x) + "/" + ty + rest, |NatToString(x)|, "/") == Some(|NatToString(x)| + 1)
  {
    var tx := NatToString(x);
    var s := tx + "/" + ty + rest;
    var a := |tx|;
    assert s[..a] == tx;
    assert s[a..a + 1] == "/";
    NumberOfNatToString(s, 0, x);
  }

  /** A rendered number after any prefix and before a non-digit reads back. */
  lemma NumberAfter(p: string, n: nat, rest: string)
    requires rest != [] && !IsDigit(rest[0])
    ensures var s := p + NatToString(n) + rest;
            Number(s, |p|).Some? && Number(s, |p|).value.0 == n && Number(s, |p|).value.1 == |p| + |NatToString(n)|
  {
    var t := NatToString(n);
    var s := p + t + rest;
    assert s[|p|..|p| + |t|] == t;
    assert s[|p| + |t|] == rest[0];
    NumberOfNatToString(s, |p|, n);
  }

  /** A rendered fraction followed by a non-digit reads back as that fraction. */
  lemma FractionRoundTrip(x: nat, y: nat, rest: string)
    requires rest != [] && !IsDigit(rest[0])
    ensures ParseFraction(NatToString(x) + "/" + NatToString(y) + rest) == Some((x, y))
  {
    var a := |NatToString(x)|;
    FractionSteps(x, y, rest);
    FractionOf(NatToString(x) + "/" + NatToString(y) + rest, x, a, y, a + 1 + |NatToString(y)|);
  }

  /** The three steps of the fraction phrasing on a rendered fraction. */
  lemma FractionSteps(x: nat, y: nat, rest: string)
    requires rest != [] && !IsDigit(rest[0])
    ensures var s := NatToString(x) + "/" + NatToString(y) + rest;
            var a := |NatToString(x)|;
            && Number(s, 0).Some? && Number(s, 0).value.0 == x && Number(s, 0).value.1 == a
            && Lit(s, a, "/") == Some(a + 1)
            && Number(s, a + 1).Some? && Number(s, a + 1).value.0 == y && Number(s, a + 1).value.1 == a + 1 + |NatToString(y)|
  {
    NumeratorOf(x, NatToString(y), rest);
    NumberAfter(NatToString(x) + "/", y, rest);
    assert |NatToString(x) + "/"| == |NatToString(x)| + 1;
  }

  /** What formatCores writes, the aggregation's `^(\d+)\/(\d+)` reads back. */
  lemma FormatCoresRoundTrip(x: nat, y: nat)
    requires y != 0
    ensures ParseFraction(FormatCores(x, y)) == Some((x, y))
  {
    var rest := "(" + NatToString(RoundPercent(x, y)) + "%)";
    assert FormatCores(x, y) == NatToString(x) + "/" + NatToString(y) + rest;
    FractionRoundTrip(x, y, rest);
  }

  lemma FormatOneOfOne()
    ensures FormatCores(1, 1) == "1/1(100%)"
  {
    assert RoundPercent(1, 1) == 100;
    assert NatToString(1) == "1";
    assert NatToString(10) == "10";
    assert NatToString(100) == "100";
  }

  /** "a small focus" of adenocarcinoma with no fraction phrasing gives one of one. */
  lemma SmallFocusIsOneOfOne(text: string)
    requires forall i :: 0 <= i < 5 ==> !Matches(LowerStr(text), Phrasing(LowerStr(text), i))
    requires Contains(LowerStr(text), "a small focus") && Contains(LowerStr(text), "adenocarcinoma")
    ensures ExtractCoresPositive(text) == "1/1(100%)"
  {
    var l := LowerStr(text);
    assert FirstFraction(l, 0).None?;
    assert CoresFraction(text) == Some((1, 1));
    FormatOneOfOne();
  }

  // ---------------------------------------------------------------------
  // extractMaxCoreSize (app2.js:366-412) and interpretLess (app2.js:291-293)
  // ---------------------------------------------------------------------

  /** The "less than" correction: V - 0.1 when V >= 0.2, else 0.1. */
  function InterpretLess(x: real): (r: real)
    ensures r >= 0.1
    ensures x >= 0.2 ==> r == x - 0.1
    ensures r <= x || x < 0.2
  {
    if x >= 0.2 then x - 0.1 else 0.1
  }

  /** A value read as written. */
  function Exact(x: real): real { x }

  /** `tumor\s+measures\s+` (`less` false) or `tumor\s+measures\s*<\s*` at `j`. */
  function MeasuresHead(l: string, j: nat, less: bool): Option<nat> {
    var a :- Words(l, j, ["tumor", "measures"], true);
    if less then
      var b :- Lit(l, Ws(l, a), "<");
      Some(Ws(l, b))
    else Ws1(l, a)
  }

  /** `\s*mm` at `i`. */
  function MmAt(l: string, i: nat): Option<nat> {
    Lit(l, Ws(l, i), "mm")
  }

  /** `\s+in\s+a?n?\s*` at `i`. */
  function InArticle(l: string, i: nat): Option<nat> {
    var a :- Ws1(l, i);
    var b :- Lit(l, a, "in");
    var c :- Ws1(l, b);
    Some(Ws(l, OptLit(l, OptLit(l, c, "a"), "n")))
  }

  /** `needle\s*biops(?:y|ies)` at `i`. */
  function NeedleBiopsy(l: string, i: nat): Option<nat> {
    var a :- Words(l, i, ["needle", "biops"], false);
    if OccursAt(l, "y", a) then Some(a + 1) else Lit(l, a, "ies")
  }

  /** `(?:core|cores|needle\s*biops(?:y|ies))\b` at `i`, trying the choices in order. */
  function SizeNounEnd(l: string, i: nat): Option<nat> {
    if OccursAt(l, "core", i) && Boundary(l, i + 4) then Some(i + 4)
    else if OccursAt(l, "cores", i) && Boundary(l, i + 5) then Some(i + 5)
    else match NeedleBiopsy(l, i)
      case Some(e) => if Boundary(l, e) then Some(e) else None
      case None => None
  }

  /** `\s*(?:core|cores|needle\s*biops(?:y|ies))?\b` after "mm" at `p`. With
      the greedy whitespace run the noun or a bare `\b` is tried; giving the
      run back, only the empty run right after "mm" has a `\b`. */
  function OptNounBoundary(l: string, p: nat): Option<nat> {
    var w := Ws(l, p);
    if SizeNounEnd(l, w).Some? then SizeNounEnd(l, w)
    else if Boundary(l, w) then Some(w)
    else if w > p then Some(p)
    else None
  }

  /** reMeasures / reMeasuresLess: `tumor measures [<] V mm in [a|an] W mm [core...]`. */
  function MeasuresInAt(l: string, j: nat, less: bool): Option<(real, nat)> {
    var h :- MeasuresHead(l, j, less);
    var (v, a) :- Decimal(l, h);
    var b :- MmAt(l, a);
    var c :- InArticle(l, b);
    var (_, d) :- Decimal(l, c);
    var e :- MmAt(l, d);
    var f :- OptNounBoundary(l, e);
    Some((v, f))
  }

  /** reLength: `V\s*mm\s+(?:length\s+of\s+involvement)\b`. */
  function LengthAt(l: string, j: nat): Option<(real, nat)> {
    var (v, a) :- Decimal(l, j);
    var b :- MmAt(l, a);
    var c :- Ws1(l, b);
    var d :- Words(l, c, ["length", "of", "involvement"], true);
    if Boundary(l, d) then Some((v, d)) else None
  }

  /** reLengthLess: `length\s+of\s+involvement\s*<\s*V`. */
  function LengthLessAt(l: string, j: nat): Option<(real, nat)> {
    var d :- Words(l, j, ["length", "of", "involvement"], true);
    var e :- Lit(l, Ws(l, d), "<");
    Decimal(l, Ws(l, e))
  }

  /** reFrag / reFragLess: `tumor measures [<] V mm in W mm of fragmented core[s]`. */
  function FragmentedAt(l: string, j: nat, less: bool): Option<(real, nat)> {
    var h :- MeasuresHead(l, j, less);
    var (v, a) :- Decimal(l, h);
    var b :- MmAt(l, a);
    var c :- Ws1(l, b);
    var d :- Lit(l, c, "in");
    var e :- Ws1(l, d);
    var (_, f) :- Decimal(l, e);
    var g :- MmAt(l, f);
    var k :- Ws1(l, g);
    var m :- Words(l, k, ["of", "fragmented", "core"], true);
    Some((v, OptLit(l, m, "s")))
  }

  /** reNoIn / reNoInLess: `tumor measures [<] V\s*mm\b`. */
  function BareMeasuresAt(l: string, j: nat, less: bool): Option<(real, nat)> {
    var h :- MeasuresHead(l, j, less);
    var (v, a) :- Decimal(l, h);
    var b :- MmAt(l, a);
    if Boundary(l, b) then Some((v, b)) else None
  }

  /** The eight size phrasings in the order the code scans them; the odd ones
      are the "less than" variants. */
  function SizePhrasing(l: string, k: nat): nat -> Option<(real, nat)>
    requires k < 8
  {
    (j: nat) =>
      if k < 2 then MeasuresInAt(l, j, k == 1)
      else if k == 2 then LengthAt(l, j)
      else if k == 3 then LengthLessAt(l, j)
      else if k < 6 then FragmentedAt(l, j, k == 5)
      else BareMeasuresAt(l, j, k == 7)
  }

  function SizeAdjust(k: nat): real -> real {
    if k % 2 == 1 then InterpretLess else Exact
  }

  /** The sizes read by phrasings `k` to 7, each phrasing's matches in order. */
  function SizesFrom(l: string, k: nat): seq<real>
    requires k <= 8
    decreases 8 - k
  {
    if k == 8 then []
    else Measured(AllHits(SizePhrasing(l, k), 0, |l|), SizeAdjust(k)) + SizesFrom(l, k + 1)
  }

  /** Every size a measurement phrasing reads, "less than" ones corrected. */
  function CoreSizes(text: string): seq<real> {
    SizesFrom(LowerStr(text), 0)
  }

  /** extractMaxCoreSize: the eight `exec` loops feeding one running maximum;
      None stands for "N/A". */
  method ExtractMaxCoreSize(text: string) returns (maxSize: Option<real>)
    ensures maxSize == FoldMax(None, CoreSizes(text))
    ensures maxSize.None? <==> CoreSizes(text) == []
    ensures maxSize.Some? ==> maxSize.value in CoreSizes(text)
    ensures maxSize.Some? ==> forall k :: 0 <= k < |CoreSizes(text)| ==> CoreSizes(text)[k] <= maxSize.value
  {
    var l := LowerStr(text);
    maxSize := None;
    for k := 0 to 8
      invariant FoldMax(maxSize, SizesFrom(l, k)) == FoldMax(None, SizesFrom(l, 0))
    {
      var here := Measured(AllHits(SizePhrasing(l, k), 0, |l|), SizeAdjust(k));
      FoldMaxConcat(maxSize, here, SizesFrom(l, k + 1));
      maxSize := MaxOverHits(SizePhrasing(l, k), |l|, SizeAdjust(k), maxSize);
    }
  }

  /** A size read by a "less than" phrasing is at least 0.1. */
  lemma LessSizesAtLeastTenth(l: string, k: nat, i: nat)
    requires k < 8 && k % 2 == 1
    requires i < |Measured(AllHits(SizePhrasing(l, k), 0, |l|), SizeAdjust(k))|
    ensures Measured(AllHits(SizePhrasing(l, k), 0, |l|), SizeAdjust(k))[i] >= 0.1
  {
  }

  // ---------------------------------------------------------------------
  // parseCoreLengths (app2.js:251-275)
  // ---------------------------------------------------------------------

  datatype CoreLength = CoreLength(tumorMm: real, totalMm: real)

  /** `(?:\s*mm)?` at `i`. */
  function OptMm(l: string, i: nat): (j: nat)
    ensures i <= j
  {
    match MmAt(l, i)
    case Some(e) => e
    case None => i
  }

  /** `tumor\s+measures\s*<?\s*` at `j`: the "<" sits outside the capture. */
  function LengthHead(l: string, j: nat): Option<nat> {
    var a :- Words(l, j, ["tumor", "measures"], true);
    Some(Ws(l, OptLit(l, Ws(l, a), "<")))
  }

  /** `(?:core|cores|needle\s*biops(?:y|ies)|prostate\s+tissue)` at `i`:
      "core" is tried first, so "cores" ends the match after "core". */
  function LengthNoun(l: string, i: nat): Option<nat> {
    if OccursAt(l, "core", i) then Some(i + 4)
    else if NeedleBiopsy(l, i).Some? then NeedleBiopsy(l, i)
    else Words(l, i, ["prostate", "tissue"], true)
  }

  /** reStandard. The first capture is digits only, so parseExactOrLess never
      sees a "<" and reads the number as written. */
  function StandardLengthAt(l: string, j: nat): Option<(CoreLength, nat)> {
    var h :- LengthHead(l, j);
    var (v, a) :- Decimal(l, h);
    var b :- InArticle(l, OptMm(l, a));
    var (w, c) :- Decimal(l, b);
    var d :- LengthNoun(l, Ws(l, OptMm(l, c)));
    Some((CoreLength(v, w), d))
  }

  /** `\d+(?:\.\\d+)?` at `i`: digits, optionally followed by a point, a
      backslash and a run of "d" (the regex literal escapes the backslash);
      parseFloat reads the digits. */
  function DigitsWithOddTail(l: string, i: nat): Option<(real, nat)> {
    var (n, a) :- Number(l, i);
    if OccursAt(l, ".\\d", a) then Some((n as real, DRunEnd(l, a + 2)))
    else Some((n as real, a))
  }

  function DRunEnd(s: string, i: nat): (j: nat)
    ensures i <= j
    decreases |s| - i
  {
    if i < |s| && s[i] == 'd' then DRunEnd(s, i + 1) else i
  }

  /** reFrag of parseCoreLengths. */
  function FragmentedLengthAt(l: string, j: nat): Option<(CoreLength, nat)> {
    var h :- LengthHead(l, j);
    var (v, a) :- Decimal(l, h);
    var b :- Ws1(l, OptMm(l, a));
    var c :- Lit(l, b, "in");
    var d :- Ws1(l, c);
    var (w, e) :- DigitsWithOddTail(l, d);
    var f :- Ws1(l, OptMm(l, e));
    var g :- Words(l, f, ["of", "fragmented", "cores"], true);
    Some((CoreLength(v, w), g))
  }

  function StandardIn(l: string): nat -> Option<(CoreLength, nat)> {
    (j: nat) => StandardLengthAt(l, j)
  }

  function FragmentedIn(l: string): nat -> Option<(CoreLength, nat)> {
    (j: nat) => FragmentedLengthAt(l, j)
  }

  /** Every length pair, standard phrasings first. */
  function CoreLengths(text: string): seq<CoreLength> {
    var l := LowerStr(text);
    HitValues(AllHits(StandardIn(l), 0, |l|)) + HitValues(AllHits(FragmentedIn(l), 0, |l|))
  }

  /** parseCoreLengths: two `exec` loops pushing every pair they find. */
  method ParseCoreLengths(text: string) returns (result: seq<CoreLength>)
    ensures result == CoreLengths(text)
    ensures |result| == |AllHits(StandardIn(LowerStr(text)), 0, |text|)| + |AllHits(FragmentedIn(LowerStr(text)), 0, |text|)|
  {
    var l := LowerStr(text);
    var standard := CollectHits(StandardIn(l), |l|);
    var fragmented := CollectHits(FragmentedIn(l), |l|);
    result := standard + fragmented;
  }

  /** A "<" before the tumour length is not corrected: the pair holds the
      number as written. */
  lemma LessThanLengthUncorrected(l: string, j: nat)
    requires LengthHead(l, j).Some? && Decimal(l, LengthHead(l, j).value).Some?
    requires StandardLengthAt(l, j).Some?
    ensures StandardLengthAt(l, j).value.0.tumorMm == Decimal(l, LengthHead(l, j).value).value.0
  {
    var h := LengthHead(l, j).value;
    var (v, a) := Decimal(l, h).value;
    var b := InArticle(l, OptMm(l, a));
    assert b.Some?;
    var (w, c) := Decimal(l, b.value).value;
    var d := LengthNoun(l, Ws(l, OptMm(l, c)));
    assert StandardLengthAt(l, j) == Some((CoreLength(v, w), d.value));
  }

  // ---------------------------------------------------------------------
  // parseAncillaryFeatures and parsePatternDistribution (app2.js:225-246)
  // ---------------------------------------------------------------------

  /** Where a feature tag stands in the push order. */
  function FeatureRank(f: string): nat {
    if f == "PNI" then 0 else if f == "LVI" then 1 else if f == "Cribriform" then 2 else 3
  }

  /** The feature tags in the order they are pushed: each tag present
      exactly when its word occurs, PNI before LVI before Cribriform before
      Intraductal, none twice. */
  function Features(l: string): (fs: seq<string>)
    ensures "PNI" in fs <==> Contains(l, "perineural")
    ensures "LVI" in fs <==> Contains(l, "lymphovascular")
    ensures "Cribriform" in fs <==> Contains(l, "cribriform")
    ensures "Intraductal" in fs <==> Contains(l, "intraductal")
    ensures forall k :: 0 <= k < |fs| ==> fs[k] in {"PNI", "LVI", "Cribriform", "Intraductal"}
    ensures forall a, b :: 0 <= a < b < |fs| ==> FeatureRank(fs[a]) < FeatureRank(fs[b])
  {
    (if Contains(l, "perineural") then ["PNI"] else [])
    + (if Contains(l, "lymphovascular") then ["LVI"] else [])
    + (if Contains(l, "cribriform") then ["Cribriform"] else [])
    + (if Contains(l, "intraductal") then ["Intraductal"] else [])
  }

  /** A join starts with its first part. */
  lemma {:induction false} JoinStartsWithFirst(parts: seq<string>, sep: string)
    requires |parts| >= 1
    ensures HasPrefix(Join(parts, sep), parts[0])
  {
    if |parts| > 1 {
      var j := Join(parts, sep);
      assert j == parts[0] + (sep + Join(parts[1..], sep));
      assert j[..|parts[0]|] == parts[0];
    }
  }

  /** parseAncillaryFeatures: the tags joined with ", ", or "None" when the
      text names none of the four features. */
  function ParseAncillaryFeatures(txt: string): (r: string)
    ensures var l := LowerStr(txt);
            r == "None" <==> !Contains(l, "perineural") && !Contains(l, "lymphovascular")
                             && !Contains(l, "cribriform") && !Contains(l, "intraductal")
    ensures Contains(LowerStr(txt), "perineural") ==> HasPrefix(r, "PNI")
    ensures r != "None" ==> r == Join(Features(LowerStr(txt)), ", ")
  {
    var fs := Features(LowerStr(txt));
    if fs == [] then "None"
    else
      JoinStartsWithFirst(fs, ", ");
      assert fs[0] in {"PNI", "LVI", "Cribriform", "Intraductal"};
      Join(fs, ", ")
  }

  /** `<?\d+%` at `i`. */
  function PercentAt(l: string, i: nat): (r: Option<nat>)
    ensures r.Some? ==> i < r.value <= |l| && l[r.value - 1] == '%'
  {
    var (_, b) :- Number(l, OptLit(l, i, "<"));
    Lit(l, b, "%")
  }

  /** `pattern\s*D\s*=\s*(<?\d+%)` at `j`, for the digit `d`. */
  function PatternAt(l: string, j: nat, d: string): Option<(string, nat)> {
    var a :- Lit(l, j, "pattern");
    var b :- Lit(l, Ws(l, a), d);
    var c :- Lit(l, Ws(l, b), "=");
    var p := Ws(l, c);
    var e :- PercentAt(l, p);
    Some((l[p..e], e))
  }

  function PatternIn(l: string, d: string): nat -> Option<(string, nat)> {
    (j: nat) => PatternAt(l, j, d)
  }

  /** `tertiary\s*pattern\s*(\d+)\s+(<?\d+%)` at `j`. A digit given back
      from the first group is never whitespace, so greedy is exact. The
      captures hold only digits, "<" and "%", which lower-casing keeps. */
  function TertiaryAt(l: string, j: nat): Option<((string, string), nat)> {
    var a :- Words(l, j, ["tertiary", "pattern"], false);
    var (g, b) :- DigitText(l, Ws(l, a));
    var c :- Ws1(l, b);
    var e :- PercentAt(l, c);
    Some(((g, l[c..e]), e))
  }

  function TertiaryIn(l: string): nat -> Option<((string, string), nat)> {
    (j: nat) => TertiaryAt(l, j)
  }

  function Pattern4Note(v: string): string { "Pattern 4=" + v }
  function Pattern5Note(v: string): string { "Pattern 5=" + v }
  function TertiaryNote(g: string, v: string): string { "Tertiary Tert" + g + "=" + v }

  /** The notes parsePatternDistribution pushes for the first pattern 4,
      pattern 5 and tertiary captures: one per capture found, pattern 4
      first, the tertiary note last, and nothing else. */
  function PatternNotes(p4: Option<string>, p5: Option<string>, t: Option<(string, string)>): (parts: seq<string>)
    ensures |parts| == (if p4.Some? then 1 else 0) + (if p5.Some? then 1 else 0) + (if t.Some? then 1 else 0)
    ensures p4.Some? ==> parts[0] == Pattern4Note(p4.value)
    ensures p5.Some? ==> parts[if p4.Some? then 1 else 0] == Pattern5Note(p5.value)
    ensures t.Some? ==> parts[|parts| - 1] == TertiaryNote(t.value.0, t.value.1)
    ensures forall k :: 0 <= k < |parts| ==>
              (p4.Some? && parts[k] == Pattern4Note(p4.value))
              || (p5.Some? && parts[k] == Pattern5Note(p5.value))
              || (t.Some? && parts[k] == TertiaryNote(t.value.0, t.value.1))
  {
    (if p4.Some? then [Pattern4Note(p4.value)] else [])
      + (if p5.Some? then [Pattern5Note(p5.value)] else [])
      + (if t.Some? then [TertiaryNote(t.value.0, t.value.1)] else [])
  }

  /** parsePatternDistribution: the pattern 4, pattern 5 and tertiary notes
      found, joined with ", ", or null (None) when there is none. */
  function ParsePatternDistribution(txt: string): (r: Option<string>)
    ensures var l := LowerStr(txt);
            r.None? <==> !Matches(l, PatternIn(l, "4")) && !Matches(l, PatternIn(l, "5")) && !Matches(l, TertiaryIn(l))
    ensures var l := LowerStr(txt);
            var p4 := Search(l, PatternIn(l, "4"));
            p4.Some? ==> r.Some? && HasPrefix(r.value, "Pattern 4=" + p4.value)
    ensures var l := LowerStr(txt);
            r.Some? ==> r.value == Join(PatternNotes(Search(l, PatternIn(l, "4")), Search(l, PatternIn(l, "5")),
                                                      Search(l, TertiaryIn(l))), ", ")
  {
    var l := LowerStr(txt);
    var parts := PatternNotes(Search(l, PatternIn(l, "4")), Search(l, PatternIn(l, "5")), Search(l, TertiaryIn(l)));
    if parts == [] then None
    else
      JoinStartsWithFirst(parts, ", ");
      Some(Join(parts, ", "))
  }

  // ---------------------------------------------------------------------
  // finalizeSample and parseSamplesFromDx (app2.js:155-180, 298-315)
  // ---------------------------------------------------------------------

  /** One specimen as the page shows it; None stands for "N/A" / null. */
  datatype Sample = Sample(
    sampleLabel: char,
    location: string,
    leftoverSite: string,
    isTarget: bool,
    diagnosis: Diagnosis,
    gradeGroup: nat,
    coresPositive: string,
    maxCoreSize: Option<real>,
    ancillaryFeatures: string,
    patternDist: Option<string>,
    coreLengths: seq<CoreLength>)

  /** The diagnosis lines joined, whitespace runs collapsed, trimmed. */
  function DiagText(lines: seq<string>): string {
    Trim(CollapseSpaces(Join(lines, " ")))
  }

  /** The record finalizeSample builds from a tokenised specimen. */
  function Finalized(s: RawSample): (r: Sample)
    ensures r.sampleLabel == s.sampleLabel
  {
    var loc := ParseLocation(Join(s.locationLines, " "), s.sampleLabel);
    var d := DiagText(s.diagnosisLines);
    Sample(s.sampleLabel, loc.mainLocation, loc.leftoverSite, loc.isTarget,
           ParseShortDiagnosis(d), ExtractGradeGroup(d), ExtractCoresPositive(d),
           FoldMax(None, CoreSizes(d)), ParseAncillaryFeatures(d),
           ParsePatternDistribution(d), CoreLengths(d))
  }

  /** finalizeSample: runs every field extractor on the specimen's text. */
  method FinalizeSample(s: RawSample) returns (r: Sample)
    ensures r == Finalized(s)
  {
    var loc := ParseLocation(Join(s.locationLines, " "), s.sampleLabel);
    var d := DiagText(s.diagnosisLines);
    var maxSize := ExtractMaxCoreSize(d);
    var lengths := ParseCoreLengths(d);
    r := Sample(s.sampleLabel, loc.mainLocation, loc.leftoverSite, loc.isTarget,
                ParseShortDiagnosis(d), ExtractGradeGroup(d), ExtractCoresPositive(d),
                maxSize, ParseAncillaryFeatures(d), ParsePatternDistribution(d), lengths);
  }

  /** What every finalised record guarantees: the grade group is at most 5,
      "Focal HGPIN" never appears, the maximum size is "N/A" exactly when no
      size phrasing matched, and the location rules of parseLocation hold. */
  lemma FinalizedFields(s: RawSample)
    ensures var r := Finalized(s);
            && r.gradeGroup <= 5 && r.diagnosis != FocalHgpin
            && (r.maxCoreSize.None? <==> CoreSizes(DiagText(s.diagnosisLines)) == [])
            && (r.isTarget ==> HasPrefix(r.location, "Target "))
            && (!r.isTarget ==> r.leftoverSite == [] && NoDashOrComma(r.location))
  {
    FocalHgpinUnreachable(DiagText(s.diagnosisLines));
  }

  /** parseSamplesFromDx: tokenise on `A.`, `A)` or `A:` headers, then
      finalise every specimen; one record per header line, in order. */
  method ParseSamplesFromDx(dxLines: seq<string>) returns (samples: seq<Sample>)
    ensures samples == Map(Finalized, TokenizeFrom(dxLines, SampleHeader, None))
    ensures var hs := HeaderLabels(dxLines, SampleHeader);
            |samples| == |hs| && forall k :: 0 <= k < |hs| ==> samples[k].sampleLabel == hs[k]
  {
    var raw := Tokenize(dxLines, SampleHeader);
    TokenizeLabels(dxLines, SampleHeader, None);
    samples := FinalizeAll(raw);
    assert Labels(raw) == HeaderLabels(dxLines, SampleHeader);
  }

  /** The `finalizeSample` call made for each tokenised specimen. */
  method FinalizeAll(raw: seq<RawSample>) returns (samples: seq<Sample>)
    ensures samples == Map(Finalized, raw)
  {
    samples := [];
    for i := 0 to |raw|
      invariant samples == Map(Finalized, raw[..i])
    {
      var s := FinalizeSample(raw[i]);
      MapSnoc(Finalized, raw, i);
      samples := samples + [s];
    }
    assert raw[..|raw|] == raw;
  }

  // ---------------------------------------------------------------------
  // computePositiveCoresFromSamples (app2.js:418-449)
  // ---------------------------------------------------------------------

  /** `diagnosis.toLowerCase().includes("adeno")`. */
  predicate IsAdeno(s: Sample) {
    Contains(LowerStr(DiagnosisName(s.diagnosis)), "adeno")
  }

  /** getMaxCoresForLocation on the lower-cased location. */
  function SiteCap(loc: string): (cap: nat)
    ensures Contains(loc, "target") ==> cap == 1
    ensures !Contains(loc, "target") && Contains(loc, "apex") ==> cap == 3
    ensures !Contains(loc, "target") && !Contains(loc, "apex") ==> cap == 2
  {
    if Contains(loc, "target") then 1
    else if Contains(loc, "apex") then 3
    else if Contains(loc, "mid") then 2
    else if Contains(loc, "base") then 2
    else 2
  }

  predicate AtTarget(s: Sample) {
    Contains(LowerStr(s.location), "target")
  }

  /** The clamped (positive, total) a sample contributes, or None when the
      sample is skipped (not adenocarcinoma, no fraction, unreadable fraction). */
  function Clamped(s: Sample): (r: Option<(nat, nat)>)
    ensures r.Some? ==> IsAdeno(s) && ParseFraction(s.coresPositive).Some?
    ensures r.Some? ==> r.value.0 <= r.value.1 <= SiteCap(LowerStr(s.location))
    ensures r.Some? && AtTarget(s) ==> r.value.1 == 1
    ensures r.Some? && !AtTarget(s) ==> r.value.1 == Min(ParseFraction(s.coresPositive).value.1, SiteCap(LowerStr(s.location)))
    ensures r.None? <==> !IsAdeno(s) || ParseFraction(s.coresPositive).None?
    ensures r.Some? && AtTarget(s) ==> r.value.0 == (if ParseFraction(s.coresPositive).value.0 > 0 then 1 else 0)
    ensures r.Some? && !AtTarget(s) ==> r.value.0 == Min(ParseFraction(s.coresPositive).value.0, r.value.1)
  {
    if !IsAdeno(s) || s.coresPositive == "" || s.coresPositive == "N/A" then None
    else match ParseFraction(s.coresPositive)
      case None => None
      case Some((x, y)) =>
        var loc := LowerStr(s.location);
        if Contains(loc, "target") then Some((if x > 0 then 1 else 0, 1))
        else
          var cy := if y > SiteCap(loc) then SiteCap(loc) else y;
          Some((if x > cy then cy else x, cy))
  }

  function Min(a: nat, b: nat): nat { if a <= b then a else b }

  /** The positives a sample adds to the sum. */
  function Positive(s: Sample): nat {
    match Clamped(s)
    case Some((x, _)) => x
    case None => 0
  }

  /** 1 for a target whose fraction was read. */
  function TargetRead(s: Sample): nat {
    if Clamped(s).Some? && AtTarget(s) then 1 else 0
  }

  /** Sum of the clamped positives. */
  function SumPositive(ss: seq<Sample>): nat
    decreases |ss|
  {
    if ss == [] then 0 else SumPositive(ss[..|ss| - 1]) + Positive(ss[|ss| - 1])
  }

  /** Targets whose fraction was read. */
  function TargetCount(ss: seq<Sample>): nat
    decreases |ss|
  {
    if ss == [] then 0 else TargetCount(ss[..|ss| - 1]) + TargetRead(ss[|ss| - 1])
  }

  /** Some sample is an adenocarcinoma. */
  predicate AnyAdeno(ss: seq<Sample>)
    decreases |ss|
  {
    ss != [] && (AnyAdeno(ss[..|ss| - 1]) || IsAdeno(ss[|ss| - 1]))
  }

  /** How the tallies grow by one sample. */
  lemma Step(ss: seq<Sample>, i: nat)
    requires i < |ss|
    ensures SumPositive(ss[..i + 1]) == SumPositive(ss[..i]) + Positive(ss[i])
    ensures TargetCount(ss[..i + 1]) == TargetCount(ss[..i]) + TargetRead(ss[i])
    ensures AnyAdeno(ss[..i + 1]) <==> AnyAdeno(ss[..i]) || IsAdeno(ss[i])
  {
    var p := ss[..i + 1];
    assert p[..i] == ss[..i];
    assert p[i] == ss[i];
  }

  /** computePositiveCoresFromSamples: (0, 14) without adenocarcinoma; otherwise
      the clamped positives over 14 plus one per target read. */
  method ComputePositiveCoresFromSamples(samples: seq<Sample>) returns (posCores: nat, totalCores: nat)
    ensures !AnyAdeno(samples) ==> posCores == 0 && totalCores == 14
    ensures AnyAdeno(samples) ==> posCores == SumPositive(samples) && totalCores == 14 + TargetCount(samples)
  {
    var sumPos, targetCount, foundAnyAdeno := 0, 0, false;
    for i := 0 to |samples|
      invariant sumPos == SumPositive(samples[..i])
      invariant targetCount == TargetCount(samples[..i])
      invariant foundAnyAdeno == AnyAdeno(samples[..i])
    {
      var s := samples[i];
      Step(samples, i);
      if !Contains(LowerStr(DiagnosisName(s.diagnosis)), "adeno") {
        continue;
      }
      foundAnyAdeno := true;
      if s.coresPositive == "" || s.coresPositive == "N/A" {
        continue;
      }
      var m := ParseFraction(s.coresPositive);
      if m.None? {
        continue;
      }
      var x, y := m.value.0, m.value.1;
      var locLower := LowerStr(s.location);
      var maxSite := SiteCap(locLower);
      if Contains(locLower, "target") {
        targetCount := targetCount + 1;
        x := if x > 0 then 1 else 0;
        y := 1;
      } else {
        if y > maxSite {
          y := maxSite;
        }
        if x > y {
          x := y;
        }
      }
      assert Clamped(s) == Some((x, y));
      assert Positive(s) == x;
      sumPos := sumPos + x;
    }
    assert samples[..|samples|] == samples;
    if !foundAnyAdeno {
      posCores, totalCores := 0, 14;
    } else {
      posCores, totalCores := sumPos, 14 + targetCount;
    }
  }

  /** Samples away from a target that each read two of two cores. */
  lemma {:induction false} FullSitesSum(ss: seq<Sample>)
    requires forall k :: 0 <= k < |ss| ==> Clamped(ss[k]) == Some((2, 2)) && !AtTarget(ss[k])
    ensures SumPositive(ss) == 2 * |ss| && TargetCount(ss) == 0
    decreases |ss|
  {
    if ss != [] {
      FullSitesSum(ss[..|ss| - 1]);
    }
  }

  /** The positive count can pass the total: eight non-target sites reading
      2/2 give 16 positives over 14 cores. */
  lemma PositiveCanExceedTotal(ss: seq<Sample>)
    requires |ss| >= 8
    requires forall k :: 0 <= k < |ss| ==> Clamped(ss[k]) == Some((2, 2)) && !AtTarget(ss[k])
    ensures AnyAdeno(ss) && SumPositive(ss) > 14 + TargetCount(ss)
  {
    FullSitesSum(ss);
    assert IsAdeno(ss[|ss| - 1]);
  }

  // ---------------------------------------------------------------------
  // calcNCCNRiskGroup and getHighestNccnRisk (app2.js:7-27, 451-482)
  // ---------------------------------------------------------------------

  /** The PSA argument: a number (what the page passes) or a range label. */
  datatype Psa = Num(value: real) | Bucket(range: string)

  datatype Risk = VeryLow | Low | IntermediateFavorable | IntermediateUnfavorable | High | VeryHigh

  function RiskName(r: Risk): string {
    match r
    case VeryLow => "Very Low"
    case Low => "Low"
    case IntermediateFavorable => "Intermediate - Favorable"
    case IntermediateUnfavorable => "Intermediate - Unfavorable"
    case High => "High"
    case VeryHigh => "Very High"
  }

  /** RISK_ORDER. */
  function RiskRank(r: Risk): (n: nat)
    ensures 1 <= n <= 6
  {
    match r
    case VeryLow => 1
    case Low => 2
    case IntermediateFavorable => 3
    case IntermediateUnfavorable => 4
    case High => 5
    case VeryHigh => 6
  }

  /** RISK_ORDER ranks every level differently. */
  lemma RiskRankInjective(a: Risk, b: Risk)
    requires RiskRank(a) == RiskRank(b)
    ensures a == b
  {
  }

  /** custom_psa: the number itself, or the value standing for a range label
      (0 for an unknown label). */
  function CustomPsa(p: Psa): (v: real)
    ensures p.Num? ==> v == p.value
    ensures p == Bucket("<10") ==> v == 5.0
    ensures p == Bucket("10-20") ==> v == 15.0
    ensures p == Bucket(">20") ==> v == 25.0
    ensures p.Bucket? && p.range !in {"<10", "10-20", ">20"} ==> v == 0.0
  {
    match p
    case Num(v) => v
    case Bucket(b) => if b == "<10" then 5.0 else if b == "10-20" then 15.0 else if b == ">20" then 25.0 else 0.0
  }

  /** `/^<prefix>/i.test(tStage)`. */
  predicate StageStarts(tStage: string, prefix: string) {
    HasPrefix(LowerStr(tStage), prefix)
  }

  predicate AdvancedStage(tStage: string) {
    StageStarts(tStage, "t3a") || StageStarts(tStage, "t3b") || StageStarts(tStage, "t4")
  }

  /** countVH: how many of stage T3a/T3b/T4, grade group 4 or 5 and PSA 40 hold. */
  function VeryHighCount(psa: Psa, gg: nat, tStage: string): nat {
    (if AdvancedStage(tStage) then 1 else 0) + (if gg >= 4 then 1 else 0) + (if CustomPsa(psa) >= 40.0 then 1 else 0)
  }

  predicate HighCriterion(psa: Psa, gg: nat, tStage: string) {
    AdvancedStage(tStage) || gg >= 4 || CustomPsa(psa) >= 20.0 || psa == Bucket(">20")
  }

  /** irfCount: intermediate risk factors. */
  function IrfCount(psa: Psa, gg: nat, tStage: string): nat {
    (if psa == Bucket("10-20") then 1 else 0)
    + (if StageStarts(tStage, "t2b") || StageStarts(tStage, "t2c") then 1 else 0)
    + (if gg == 2 || gg == 3 then 1 else 0)
  }

  /** `posCores / totalCores >= 0.5`, the ratio being 0 without cores. */
  predicate AtLeastHalf(posCores: nat, totalCores: nat) {
    totalCores > 0 && 2 * posCores >= totalCores
  }

  /** The branches the tree takes below "High". */
  predicate LowBranch(psa: Psa, gg: nat, tStage: string) {
    ParseTStageNumber(tStage) <= 2 && gg == 1 && psa == Bucket("<10")
  }

  /** calcNCCNRiskGroup. */
  function CalcNccnRiskGroup(psa: Psa, gg: nat, tStage: string, posCores: nat, totalCores: nat): (r: Risk)
    ensures r == VeryHigh <==> VeryHighCount(psa, gg, tStage) >= 2
    ensures r == High <==> VeryHighCount(psa, gg, tStage) < 2 && HighCriterion(psa, gg, tStage)
    ensures r == VeryLow <==> !HighCriterion(psa, gg, tStage) && LowBranch(psa, gg, tStage)
                               && ParseTStageNumber(tStage) <= 1 && StageStarts(tStage, "t1c")
    ensures psa.Num? ==> r != VeryLow
    ensures !HighCriterion(psa, gg, tStage) && !LowBranch(psa, gg, tStage) ==>
              (r == Low <==> IrfCount(psa, gg, tStage) == 0)
              && (r == IntermediateFavorable <==>
                    IrfCount(psa, gg, tStage) == 1 && (gg == 1 || gg == 2) && !AtLeastHalf(posCores, totalCores))
    ensures r == Low <==> !HighCriterion(psa, gg, tStage)
                          && ((LowBranch(psa, gg, tStage)
                               && !(ParseTStageNumber(tStage) <= 1 && StageStarts(tStage, "t1c")))
                              || (!LowBranch(psa, gg, tStage) && IrfCount(psa, gg, tStage) == 0))
  {
    var stageNum := ParseTStageNumber(tStage);
    if VeryHighCount(psa, gg, tStage) >= 2 then VeryHigh
    else if HighCriterion(psa, gg, tStage) then High
    else if stageNum <= 1 && gg == 1 && psa == Bucket("<10") && StageStarts(tStage, "t1c") then VeryLow
    else if stageNum <= 2 && gg == 1 && psa == Bucket("<10") then Low
    else
      var irf := IrfCount(psa, gg, tStage);
      if irf == 0 then Low
      else if irf == 1 && (gg == 1 || gg == 2) && !AtLeastHalf(posCores, totalCores) then IntermediateFavorable
      else IntermediateUnfavorable
  }

  /** mapPsaRangeToNumeric, the manual entry passed in (None for NaN). */
  function MapPsaRangeToNumeric(psaVal: string, manual: Option<real>): (v: real)
    ensures v > 0.0
    ensures psaVal == "PSA" && manual.Some? && manual.value > 0.0 ==> v == manual.value
    ensures psaVal != "PSA" ==> v in {5.0, 15.0, 25.0}
    ensures psaVal == "PSA" && !(manual.Some? && manual.value > 0.0) ==> v == 10.0
    ensures psaVal == "<10" ==> v == 5.0
    ensures psaVal == "10-20" ==> v == 15.0
    ensures psaVal == ">20" ==> v == 25.0
    ensures psaVal !in {"PSA", "<10", "10-20", ">20"} ==> v == 5.0
  {
    if psaVal == "PSA" then (if manual.Some? && manual.value > 0.0 then manual.value else 10.0)
    else if psaVal == "<10" then 5.0
    else if psaVal == "10-20" then 15.0
    else if psaVal == ">20" then 25.0
    else 5.0
  }

  /** The page hands calcNCCNRiskGroup a number, so "Very Low" never comes out
      and PSA never counts as an intermediate risk factor. */
  lemma PageNeverVeryLow(psaVal: string, manual: Option<real>, gg: nat, tStage: string, pos: nat, total: nat)
    ensures var psa := Num(MapPsaRangeToNumeric(psaVal, manual));
            CalcNccnRiskGroup(psa, gg, tStage, pos, total) != VeryLow
            && IrfCount(psa, gg, tStage) == IrfCount(Bucket(""), gg, tStage)
  {
  }
}
