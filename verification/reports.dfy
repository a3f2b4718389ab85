/** The line-level machinery that app2.js, app_2.js, a.js and app.js share
    word for word: splitting pasted text into reports, the header fields read
    from a report, the capture of the FINAL PATHOLOGIC DIAGNOSIS block, the
    specimen tokenizer and the "worst risk" scan. Each file's own module
    instantiates the pieces that differ (the header test, the finalizer). */
module Reports {
  import opened Text
  import opened Scan

  // ---------------------------------------------------------------------
  // Chunking: raw.split(/(?=^Provider:\s)/im).map(trim).filter(Boolean)
  // ---------------------------------------------------------------------

  /** The lookahead `(?=^Provider:\s)` with the `i` and `m` flags holds at `i`:
      `i` starts a line and "Provider:" plus one whitespace character follow. */
  predicate AnchorAt(raw: string, i: nat) {
    (i == 0 || (i <= |raw| && IsLineTerminator(raw[i - 1])))
    && OccursAt(LowerStr(raw), "provider:", i) && i + 9 < |raw| && IsSpace(raw[i + 9])
  }

  function AnchorIn(raw: string): nat -> bool {
    (i: nat) => AnchorAt(raw, i)
  }

  /** Number of positions `j >= i` inside `raw` with `j > 0` where `cut`
      holds (the places `split` cuts). */
  function CountCuts(raw: string, cut: nat -> bool, i: nat): nat
    decreases |raw| - i
  {
    if i >= |raw| then 0
    else (if i > 0 && cut(i) then 1 else 0) + CountCuts(raw, cut, i + 1)
  }

  /** The pieces `split` produces, scanning from `i` with the current piece
      starting at `start`. A zero-width match at position 0 does not cut. */
  function SplitAt(raw: string, cut: nat -> bool, start: nat, i: nat): (r: seq<string>)
    requires start <= i <= |raw|
    ensures |r| >= 1
    decreases |raw| - i
  {
    if i == |raw| then [raw[start..]]
    else if i > 0 && cut(i) then [raw[start..i]] + SplitAt(raw, cut, i, i + 1)
    else SplitAt(raw, cut, start, i + 1)
  }

  function Concat(ps: seq<string>): string
    decreases |ps|
  {
    if ps == [] then [] else ps[0] + Concat(ps[1..])
  }

  /** The pieces put back together are the text, and there is one more piece
      than there are cuts. */
  lemma {:induction false} SplitAtShape(raw: string, cut: nat -> bool, start: nat, i: nat)
    requires start <= i <= |raw|
    ensures Concat(SplitAt(raw, cut, start, i)) == raw[start..]
    ensures |SplitAt(raw, cut, start, i)| == 1 + CountCuts(raw, cut, i)
    decreases |raw| - i
  {
    if i == |raw| {
      assert Concat([raw[start..]]) == raw[start..] + Concat([]);
    } else if i > 0 && cut(i) {
      SplitAtShape(raw, cut, i, i + 1);
      var rest := SplitAt(raw, cut, i, i + 1);
      assert ([raw[start..i]] + rest)[1..] == rest;
      assert raw[start..i] + raw[i..] == raw[start..];
    } else {
      SplitAtShape(raw, cut, start, i + 1);
    }
  }

  /** A report text: non-empty, and neither begins nor ends with whitespace. */
  predicate Tidy(s: string) {
    s != [] && !IsSpace(s[0]) && !IsSpace(s[|s| - 1])
  }

  /** `map(s => s.trim()).filter(Boolean)`: the trimmed pieces, in order,
      without the empty ones. */
  function TrimmedPieces(ps: seq<string>): (r: seq<string>)
    ensures |r| <= |ps|
    ensures forall k :: 0 <= k < |r| ==> Tidy(r[k])
    decreases |ps|
  {
    if ps == [] then []
    else
      var t := Trim(ps[0]);
      var rest := TrimmedPieces(ps[1..]);
      if t == [] then rest
      else
        TidyCons(t, rest);
        [t] + rest
  }

  lemma TidyCons(t: string, rest: seq<string>)
    requires Tidy(t) && forall k :: 0 <= k < |rest| ==> Tidy(rest[k])
    ensures forall k :: 0 <= k < |[t] + rest| ==> Tidy(([t] + rest)[k])
  {
    forall k | 0 <= k < |[t] + rest|
      ensures Tidy(([t] + rest)[k])
    {
      if k > 0 {
        assert ([t] + rest)[k] == rest[k - 1];
      }
    }
  }

  /** chunkReports (app2.js:87-89; the same text at app_2.js:208-213,
      a.js:89-93 and app.js:47-50): the report texts, each trimmed and
      non-empty, at most one more of them than there are "Provider:" lines. */
  function ChunkReports(raw: string): (r: seq<string>)
    ensures forall k :: 0 <= k < |r| ==> Tidy(r[k])
    ensures |r| <= 1 + CountCuts(raw, AnchorIn(raw), 0)
  {
    SplitAtShape(raw, AnchorIn(raw), 0, 0);
    TrimmedPieces(SplitAt(raw, AnchorIn(raw), 0, 0))
  }

  /** Trimming the pieces and dropping the blank ones loses only whitespace. */
  lemma {:induction false} TrimmedPiecesKeepNonSpace(ps: seq<string>)
    ensures NonSpace(Concat(TrimmedPieces(ps))) == NonSpace(Concat(ps))
    decreases |ps|
  {
    if ps != [] {
      var t := Trim(ps[0]);
      var rest := TrimmedPieces(ps[1..]);
      TrimmedPiecesKeepNonSpace(ps[1..]);
      TrimKeepsNonSpace(ps[0]);
      NonSpaceConcat(ps[0], Concat(ps[1..]));
      if t == [] {
        assert TrimmedPieces(ps) == rest;
      } else {
        assert TrimmedPieces(ps) == [t] + rest;
        assert ([t] + rest)[1..] == rest;
        NonSpaceConcat(t, Concat(rest));
      }
    }
  }

  /** The reports cover the text: put back together they hold every
      non-whitespace character of it, in order, and nothing else. */
  lemma ChunksKeepText(raw: string)
    ensures NonSpace(Concat(ChunkReports(raw))) == NonSpace(raw)
  {
    SplitAtShape(raw, AnchorIn(raw), 0, 0);
    TrimmedPiecesKeepNonSpace(SplitAt(raw, AnchorIn(raw), 0, 0));
    assert raw[0..] == raw;
  }

  /** Without any "Provider:" line the whole trimmed text is the one report;
      only blank text gives no report at all. */
  lemma ChunksWithoutProvider(raw: string)
    requires CountCuts(raw, AnchorIn(raw), 0) == 0
    ensures ChunkReports(raw) == if Trim(raw) == [] then [] else [Trim(raw)]
  {
    SplitAtShape(raw, AnchorIn(raw), 0, 0);
    var ps := SplitAt(raw, AnchorIn(raw), 0, 0);
    assert |ps| == 1;
    assert ps[1..] == [];
    assert Concat(ps) == ps[0] + Concat(ps[1..]);
    assert Concat(ps[1..]) == [];
    assert raw[0..] == raw;
    assert ps[0] + [] == ps[0];
    assert ps[0] == raw;
    assert TrimmedPieces(ps[1..]) == [];
  }

  /** The text begins with "Provider:" in any case. */
  predicate ProviderHead(s: string) {
    OccursAt(LowerStr(s), "provider:", 0)
  }

  /** No position inside the text, other than its start, is a cut point. */
  predicate NoInnerAnchor(s: string) {
    forall i :: 0 < i < |s| ==> !AnchorAt(s, i)
  }

  /** An anchor inside a slice is an anchor of the whole text. */
  lemma AnchorOfSlice(s: string, a: nat, b: nat, i: nat)
    requires a <= b <= |s| && 0 < i && AnchorAt(s[a..b], i)
    ensures AnchorAt(s, a + i)
  {
    var t := s[a..b];
    assert s[a + i - 1] == t[i - 1];
    assert s[a + i + 9] == t[i + 9];
    LowerSlice(s, a, b);
    assert LowerStr(t)[i..i + 9] == LowerStr(s)[a + i..a + i + 9];
  }

  /** A slice that spans no cut point has no anchor inside. */
  lemma SliceNoInnerAnchor(s: string, a: nat, b: nat)
    requires a <= b <= |s| && forall c :: a < c < b ==> !AnchorAt(s, c)
    ensures NoInnerAnchor(s[a..b])
  {
    forall i | 0 < i < b - a
      ensures !AnchorAt(s[a..b], i)
    {
      if AnchorAt(s[a..b], i) {
        AnchorOfSlice(s, a, b, i);
      }
    }
  }

  /** A slice that starts at "Provider:" and is long enough begins with it. */
  lemma HeadOfSlice(s: string, a: nat, e: nat)
    requires OccursAt(LowerStr(s), "provider:", a) && a + 9 <= e <= |s|
    ensures ProviderHead(s[a..e])
  {
    LowerSlice(s, a, e);
    assert LowerStr(s[a..e])[0..9] == LowerStr(s)[a..a + 9];
  }

  /** `trim` keeps a text free of inner cut points. */
  lemma TrimNoInner(s: string)
    requires NoInnerAnchor(s)
    ensures NoInnerAnchor(Trim(s))
  {
    TrimInfix(s);
    var a: nat, b: nat :| a <= b <= |s| && Trim(s) == s[a..b];
    SliceNoInnerAnchor(s, a, b);
  }

  /** `trim` keeps a "Provider:" head, since neither 'P' nor ':' is whitespace. */
  lemma TrimHead(s: string)
    requires ProviderHead(s)
    ensures ProviderHead(Trim(s)) && Trim(s) != []
  {
    assert LowerStr(s)[0] == 'p' && LowerStr(s)[8] == ':';
    var t := TrimStart(s);
    assert !IsSpace(s[0]) && !IsSpace(s[8]);
    assert |s| - |t| == 0;
    assert t == s;
    var r := TrimEnd(t);
    assert |r| >= 9;
    HeadOfSlice(s, 0, |r|);
    assert s[0..|r|] == r;
  }

  /** A line that starts at an anchor ends after its "Provider:". */
  lemma AnchorSpan(raw: string, start: nat, j: nat)
    requires AnchorAt(raw, start) && start < j <= |raw| && IsLineTerminator(raw[j - 1])
    ensures start + 9 <= j
  {
    if j - 1 < start + 9 {
      assert LowerStr(raw)[start..start + 9][j - 1 - start] == LowerStr(raw)[j - 1];
    }
  }

  /** The pieces of the "Provider:" split, scanned from `i` with the current
      piece starting at `start`, have no cut point inside. */
  lemma {:induction false} SplitNoInner(raw: string, start: nat, i: nat)
    requires start <= i <= |raw|
    requires forall c :: start < c < i ==> !AnchorAt(raw, c)
    ensures forall k :: 0 <= k < |SplitAt(raw, AnchorIn(raw), start, i)| ==>
              NoInnerAnchor(SplitAt(raw, AnchorIn(raw), start, i)[k])
    decreases |raw| - i
  {
    var ps := SplitAt(raw, AnchorIn(raw), start, i);
    assert AnchorIn(raw)(i) == AnchorAt(raw, i);
    if i == |raw| {
      assert ps == [raw[start..]];
      assert raw[start..] == raw[start..|raw|];
      SliceNoInnerAnchor(raw, start, |raw|);
    } else if i > 0 && AnchorAt(raw, i) {
      SplitNoInner(raw, i, i + 1);
      var rest := SplitAt(raw, AnchorIn(raw), i, i + 1);
      assert ps == [raw[start..i]] + rest;
      SliceNoInnerAnchor(raw, start, i);
      forall k | 0 <= k < |ps|
        ensures NoInnerAnchor(ps[k])
      {
        if k > 0 { assert ps[k] == rest[k - 1]; }
      }
    } else {
      SplitNoInner(raw, start, i + 1);
      assert ps == SplitAt(raw, AnchorIn(raw), start, i + 1);
    }
  }

  /** Every piece after the first begins with "Provider:", and so does the
      first when it starts at an anchor. */
  lemma {:induction false} SplitHeads(raw: string, start: nat, i: nat)
    requires start <= i <= |raw| && (start < i || i == 0)
    ensures forall k :: 1 <= k < |SplitAt(raw, AnchorIn(raw), start, i)| ==>
              ProviderHead(SplitAt(raw, AnchorIn(raw), start, i)[k])
    ensures AnchorAt(raw, start) ==> ProviderHead(SplitAt(raw, AnchorIn(raw), start, i)[0])
    decreases |raw| - i
  {
    var ps := SplitAt(raw, AnchorIn(raw), start, i);
    assert AnchorIn(raw)(i) == AnchorAt(raw, i);
    if i == |raw| {
      assert ps == [raw[start..]];
      assert raw[start..] == raw[start..|raw|];
      if AnchorAt(raw, start) {
        HeadOfSlice(raw, start, |raw|);
      }
    } else if i > 0 && AnchorAt(raw, i) {
      SplitHeads(raw, i, i + 1);
      var rest := SplitAt(raw, AnchorIn(raw), i, i + 1);
      assert ps == [raw[start..i]] + rest;
      forall k | 1 <= k < |ps|
        ensures ProviderHead(ps[k])
      {
        assert ps[k] == rest[k - 1];
      }
      if AnchorAt(raw, start) {
        AnchorSpan(raw, start, i);
        HeadOfSlice(raw, start, i);
      }
    } else {
      SplitHeads(raw, start, i + 1);
      assert ps == SplitAt(raw, AnchorIn(raw), start, i + 1);
    }
  }

  /** `map(trim).filter(Boolean)` keeps every piece free of inner cut points. */
  lemma {:induction false} TrimmedNoInner(ps: seq<string>)
    requires forall k :: 0 <= k < |ps| ==> NoInnerAnchor(ps[k])
    ensures forall k :: 0 <= k < |TrimmedPieces(ps)| ==> NoInnerAnchor(TrimmedPieces(ps)[k])
    decreases |ps|
  {
    if ps != [] {
      TrimmedNoInner(ps[1..]);
      TrimNoInner(ps[0]);
      var rest := TrimmedPieces(ps[1..]);
      if Trim(ps[0]) != [] {
        var r := [Trim(ps[0])] + rest;
        assert TrimmedPieces(ps) == r;
        forall k | 0 <= k < |r|
          ensures NoInnerAnchor(r[k])
        {
          if k > 0 { assert r[k] == rest[k - 1]; }
        }
      }
    }
  }

  /** ... and keeps every "Provider:" head. */
  lemma {:induction false} TrimmedHeads(ps: seq<string>)
    requires forall k :: 0 <= k < |ps| ==> ProviderHead(ps[k])
    ensures forall k :: 0 <= k < |TrimmedPieces(ps)| ==> ProviderHead(TrimmedPieces(ps)[k])
    decreases |ps|
  {
    if ps != [] {
      forall k | 0 <= k < |ps[1..]|
        ensures ProviderHead(ps[1..][k])
      {
        assert ps[1..][k] == ps[k + 1];
      }
      TrimmedHeads(ps[1..]);
      TrimHead(ps[0]);
      var rest := TrimmedPieces(ps[1..]);
      var r := [Trim(ps[0])] + rest;
      assert TrimmedPieces(ps) == r;
      forall k | 0 <= k < |r|
        ensures ProviderHead(r[k])
      {
        if k > 0 { assert r[k] == rest[k - 1]; }
      }
    }
  }

  /** chunkReports cuts at every "Provider:" line and only there: no report
      has a cut point inside it, and every report after the first begins with
      "Provider:". */
  lemma ChunksCutAtProvider(raw: string)
    ensures var r := ChunkReports(raw);
            && (forall k :: 0 <= k < |r| ==> NoInnerAnchor(r[k]))
            && (forall k :: 1 <= k < |r| ==> ProviderHead(r[k]))
  {
    SplitNoInner(raw, 0, 0);
    SplitHeads(raw, 0, 0);
    var ps := SplitAt(raw, AnchorIn(raw), 0, 0);
    TrimmedNoInner(ps);
    forall k | 0 <= k < |ps[1..]|
      ensures ProviderHead(ps[1..][k])
    {
      assert ps[1..][k] == ps[k + 1];
    }
    TrimmedHeads(ps[1..]);
    var rest := TrimmedPieces(ps[1..]);
    assert ChunkReports(raw) == TrimmedPieces(ps);
    assert TrimmedPieces(ps) == rest || TrimmedPieces(ps) == [Trim(ps[0])] + rest;
  }

  // ---------------------------------------------------------------------
  // Header fields
  // ---------------------------------------------------------------------

  predicate IsDateChar(c: char) { IsDigit(c) || c == '/' || c == '-' }

  function DateRunEnd(s: string, i: nat): (j: nat)
    ensures i <= j && (i <= |s| ==> j <= |s|)
    ensures forall k :: i <= k < j ==> k < |s| && IsDateChar(s[k])
    decreases |s| - i
  {
    if i < |s| && IsDateChar(s[i]) then DateRunEnd(s, i + 1) else i
  }

  /** `<tag>\s*([0-9\/-]+)` at `j` of the lower-cased text `l`: the captured
      run (greedy, and nothing follows it in the pattern). */
  function LabelledDateAt(l: string, tag: string, j: nat): (r: Option<(string, nat)>)
    ensures r.Some? ==> |r.value.0| >= 1 && forall k :: 0 <= k < |r.value.0| ==> IsDateChar(r.value.0[k])
  {
    var a :- Lit(l, j, tag);
    var b := Ws(l, a);
    var e := DateRunEnd(l, b);
    if b < e then Some((l[b..e], e)) else None
  }

  function CollectedDateIn(l: string): nat -> Option<(string, nat)> {
    (j: nat) => LabelledDateAt(l, "collected:", j)
  }

  /** parseCollectedDate (app2.js:91-94): the date after "Collected:", or ""
      when there is none. */
  function ParseCollectedDate(text: string): (r: string)
    ensures forall k :: 0 <= k < |r| ==> IsDateChar(r[k])
    ensures r != [] ==> LeftmostCapture(LowerStr(text), CollectedDateIn(LowerStr(text)), r)
  {
    var l := LowerStr(text);
    SearchLeftmost(l, CollectedDateIn(l));
    match Search(l, CollectedDateIn(l))
    case None => []
    case Some(d) => d
  }

  /** The date is missing exactly when no "Collected:" label is followed by
      a date. */
  lemma CollectedDateMissing(text: string)
    ensures ParseCollectedDate(text) == [] <==> !Matches(LowerStr(text), CollectedDateIn(LowerStr(text)))
  {
    var l := LowerStr(text);
    SearchKeeps(l, CollectedDateIn(l), (d: string) => d != []);
  }

  /** `<tag>\s*([0-9\/-]+)` as a phrasing over `l`. */
  function DobIn(l: string, tag: string): nat -> Option<(string, nat)> {
    (j: nat) => LabelledDateAt(l, tag, j)
  }

  /** parseDob (app2.js:96-101): the date after "DOB:", else the one after
      "DOB/Age:", else nothing. */
  function ParseDob(text: string): (r: Option<string>)
    ensures r.None? <==> !Matches(LowerStr(text), DobIn(LowerStr(text), "dob:"))
                         && !Matches(LowerStr(text), DobIn(LowerStr(text), "dob/age:"))
    ensures r.Some? ==> r.value != []
    ensures Matches(LowerStr(text), DobIn(LowerStr(text), "dob:")) ==>
              r.Some? && LeftmostCapture(LowerStr(text), DobIn(LowerStr(text), "dob:"), r.value)
    ensures !Matches(LowerStr(text), DobIn(LowerStr(text), "dob:")) && r.Some? ==>
              LeftmostCapture(LowerStr(text), DobIn(LowerStr(text), "dob/age:"), r.value)
  {
    var l := LowerStr(text);
    SearchLeftmost(l, DobIn(l, "dob:"));
    SearchLeftmost(l, DobIn(l, "dob/age:"));
    match Search(l, DobIn(l, "dob:"))
    case Some(d) => Some(d)
    case None => Search(l, DobIn(l, "dob/age:"))
  }

  /** parseTStageNumber (app2.js:451-454, app_2.js:479-483, a.js:372-376):
      the number after a leading "T", else 1. */
  function ParseTStageNumber(tStage: string): (r: nat)
    ensures !(|tStage| >= 2 && Lower(tStage[0]) == 't' && IsDigit(tStage[1])) ==> r == 1
    ensures |tStage| >= 2 && Lower(tStage[0]) == 't' && IsDigit(tStage[1]) ==>
              exists e :: 1 < e <= |tStage| && AllDigits(tStage[1..e]) && (e == |tStage| || !IsDigit(tStage[e]))
                          && r == DigitsValue(tStage[1..e])
  {
    var l := LowerStr(tStage);
    if |l| >= 1 && l[0] == 't' then
      match DigitText(l, 1)
      case Some((t, e)) =>
        assert t == tStage[1..e];
        DigitsValue(t)
      case None => 1
    else 1
  }

  // ---------------------------------------------------------------------
  // The FINAL PATHOLOGIC DIAGNOSIS block (app2.js:131-152, app_2.js:257-286,
  // a.js:150-180)
  // ---------------------------------------------------------------------

  /** `/^FINAL\s+PATHOLOGIC\s+DIAGNOSIS/i` */
  predicate IsFinalDxHeader(line: string) {
    Words(LowerStr(line), 0, ["final", "pathologic", "diagnosis"], true).Some?
  }

  /** `/^w0\s+w1\s*$/i` for lower-case words `ws`. */
  predicate WholeLine(l: string, ws: seq<string>) {
    match Words(l, 0, ws, true)
    case Some(e) => Ws(l, e) == |l|
    case None => false
  }

  /** `/^comment\s*$/i`: a bare "Comment" heading. */
  predicate IsCommentHeading(line: string) {
    WholeLine(LowerStr(line), ["comment"])
  }

  /** The headings that end the block. */
  predicate IsTerminator(line: string) {
    var l := LowerStr(line);
    IsCommentHeading(line)
    || WholeLine(l, ["gross", "description"])
    || WholeLine(l, ["clinical", "history"])
    || Words(l, 0, ["specimen(s)", "received"], false).Some?
    || Words(l, 0, ["fhir", "pathology"], true).Some?
  }

  /** `/electronically\s*signed\s*by/i` */
  predicate IsSignOff(l: string) {
    Matches(l, j => Unit(Words(l, j, ["electronically", "signed", "by"], false)))
  }

  /** Disclaimers and sign-off lines, which are skipped. */
  predicate IsNoise(line: string) {
    var l := LowerStr(line);
    Contains(l, "disclaimer") || Contains(l, "immunohistochemistry")
    || Matches(l, j => Unit(Words(l, j, ["**", "report", "electronically", "signed", "by"], false)))
    || IsSignOff(l)
  }

  /** What the capture loop makes of one trimmed line, in the order it tests. */
  datatype LineKind = DxHeader | Terminator | Skipped | Content

  /** The capture loop's tests on one line (app2.js:134-149): the header test
      comes first, then the terminators, then noise and blank lines. */
  function KindOf(line: string): LineKind {
    if IsFinalDxHeader(line) then DxHeader
    else if IsTerminator(line) then Terminator
    else if IsNoise(line) || line == [] then Skipped
    else Content
  }

  /** Each kind stands for exactly the lines the loop's tests give it. */
  lemma KindOfMeaning(line: string)
    ensures KindOf(line) == DxHeader <==> IsFinalDxHeader(line)
    ensures KindOf(line) == Terminator <==> !IsFinalDxHeader(line) && IsTerminator(line)
    ensures KindOf(line) == Skipped <==> !IsFinalDxHeader(line) && !IsTerminator(line) && (IsNoise(line) || line == [])
    ensures KindOf(line) == Content ==> line != [] && !IsNoise(line)
    ensures KindOf(line) == Content ==> var l := LowerStr(line);
              !Contains(l, "disclaimer") && !Contains(l, "immunohistochemistry") && !IsSignOff(l)
  {
  }

  /** What the capture loop keeps from `lines`, having seen the header
      (`inFinal`) or not; `kind` classifies a line. */
  function CaptureFrom(lines: seq<string>, kind: string -> LineKind, inFinal: bool): seq<string>
    decreases |lines|
  {
    if lines == [] then []
    else match kind(lines[0])
      case DxHeader => CaptureFrom(lines[1..], kind, true)
      case Terminator => if inFinal then [] else CaptureFrom(lines[1..], kind, false)
      case Skipped => CaptureFrom(lines[1..], kind, inFinal)
      case Content => (if inFinal then [lines[0]] else []) + CaptureFrom(lines[1..], kind, inFinal)
  }

  /** The capture loop over trimmed lines (app2.js:131-152, app_2.js:259-285). */
  method CaptureFinalDx(lines: seq<string>, kind: string -> LineKind) returns (dxLines: seq<string>)
    ensures dxLines == CaptureFrom(lines, kind, false)
  {
    var inFinal := false;
    dxLines := [];
    var i := 0;
    while i < |lines|
      invariant 0 <= i <= |lines|
      invariant dxLines + CaptureFrom(lines[i..], kind, inFinal) == CaptureFrom(lines, kind, false)
    {
      var line := lines[i];
      assert lines[i..][1..] == lines[i + 1..];
      var k := kind(line);
      assert CaptureFrom(lines[i..], kind, inFinal) == match k
        case DxHeader => CaptureFrom(lines[i + 1..], kind, true)
        case Terminator => if inFinal then [] else CaptureFrom(lines[i + 1..], kind, false)
        case Skipped => CaptureFrom(lines[i + 1..], kind, inFinal)
        case Content => (if inFinal then [line] else []) + CaptureFrom(lines[i + 1..], kind, inFinal);
      if k == DxHeader {
        inFinal := true;
      } else if inFinal {
        if k == Terminator {
          assert dxLines + [] == dxLines;
          break;
        }
        if k == Content {
          AppendAssoc(dxLines, [line], CaptureFrom(lines[i + 1..], kind, inFinal));
          dxLines := dxLines + [line];
        }
      } else if k == Content {
        assert [] + CaptureFrom(lines[i + 1..], kind, false) == CaptureFrom(lines[i + 1..], kind, false);
      }
      i := i + 1;
    }
    if i == |lines| {
      assert dxLines + [] == dxLines;
    }
  }

  function Kept(lines: seq<string>, kind: string -> LineKind): (r: seq<string>)
    ensures forall k :: 0 <= k < |r| ==> kind(r[k]) == Content && r[k] in lines
    decreases |lines|
  {
    if lines == [] then []
    else (if kind(lines[0]) == Content then [lines[0]] else []) + Kept(lines[1..], kind)
  }

  /** Index of the first line of kind `k`, or `|lines|`. */
  function IndexOf(lines: seq<string>, kind: string -> LineKind, k: LineKind): (i: nat)
    ensures i <= |lines| && (i < |lines| ==> kind(lines[i]) == k)
    ensures forall j :: 0 <= j < i ==> kind(lines[j]) != k
    decreases |lines|
  {
    if lines == [] || kind(lines[0]) == k then 0 else 1 + IndexOf(lines[1..], kind, k)
  }

  /** The first line of kind `k` comes no later than any line of that kind. */
  lemma IndexOfAtMost(lines: seq<string>, kind: string -> LineKind, k: LineKind, i: nat)
    requires i < |lines| && kind(lines[i]) == k
    ensures IndexOf(lines, kind, k) <= i
  {
  }

  /** Where the capture stops: the first terminator after the first header
      line (or the end of the lines). */
  function BlockEnd(lines: seq<string>, kind: string -> LineKind): nat
    requires IndexOf(lines, kind, DxHeader) < |lines|
  {
    var h := IndexOf(lines, kind, DxHeader);
    h + 1 + IndexOf(lines[h + 1..], kind, Terminator)
  }

  /** The capture stops no later than any terminator after the header. */
  lemma TerminatorBound(lines: seq<string>, kind: string -> LineKind, c: nat)
    requires IndexOf(lines, kind, DxHeader) < c < |lines| && kind(lines[c]) == Terminator
    ensures BlockEnd(lines, kind) <= c
  {
    var h := IndexOf(lines, kind, DxHeader);
    var body := lines[h + 1..];
    assert body[c - h - 1] == lines[c];
    IndexOfAtMost(body, kind, Terminator, c - h - 1);
  }

  lemma {:induction false} CaptureInside(lines: seq<string>, kind: string -> LineKind)
    ensures CaptureFrom(lines, kind, true) == Kept(lines[..IndexOf(lines, kind, Terminator)], kind)
    decreases |lines|
  {
    if lines != [] && kind(lines[0]) != Terminator {
      CaptureInside(lines[1..], kind);
      assert lines[..IndexOf(lines, kind, Terminator)][1..] == lines[1..][..IndexOf(lines[1..], kind, Terminator)];
    }
  }

  lemma {:induction false} CaptureBefore(lines: seq<string>, kind: string -> LineKind)
    ensures var h := IndexOf(lines, kind, DxHeader);
            CaptureFrom(lines, kind, false) == if h == |lines| then [] else CaptureFrom(lines[h + 1..], kind, true)
    decreases |lines|
  {
    if lines != [] && kind(lines[0]) != DxHeader {
      CaptureBefore(lines[1..], kind);
      var h := IndexOf(lines[1..], kind, DxHeader);
      if h < |lines| - 1 {
        assert lines[1..][h + 1..] == lines[h + 2..];
      }
    }
  }

  /** The capture contract: nothing without a FINAL PATHOLOGIC DIAGNOSIS
      line; otherwise exactly the content lines, in their order, between the
      first such line and the first terminator after it. */
  lemma CaptureWindow(lines: seq<string>, kind: string -> LineKind)
    ensures CaptureFrom(lines, kind, false) ==
              var h := IndexOf(lines, kind, DxHeader);
              if h == |lines| then [] else CaptureInBody(lines[h + 1..], kind)
  {
    CaptureBefore(lines, kind);
    var h := IndexOf(lines, kind, DxHeader);
    if h < |lines| {
      CaptureInside(lines[h + 1..], kind);
    }
  }

  /** The content lines of a block body, up to its first terminator. */
  function CaptureInBody(body: seq<string>, kind: string -> LineKind): seq<string> {
    Kept(body[..IndexOf(body, kind, Terminator)], kind)
  }

  /** Every captured line is a content line. */
  lemma {:induction false} CapturedAreContent(lines: seq<string>, kind: string -> LineKind, inFinal: bool)
    ensures forall k :: 0 <= k < |CaptureFrom(lines, kind, inFinal)| ==> kind(CaptureFrom(lines, kind, inFinal)[k]) == Content
    decreases |lines|
  {
    if lines != [] {
      CapturedAreContent(lines[1..], kind, true);
      CapturedAreContent(lines[1..], kind, false);
    }
  }

  // ---------------------------------------------------------------------
  // Specimen tokenizer (app2.js:155-180, app_2.js:291-329, a.js:185-223,
  // app.js:69-102)
  // ---------------------------------------------------------------------

  /** The record a specimen header opens and the following lines fill in. */
  datatype RawSample = RawSample(sampleLabel: char, locationLines: seq<string>, diagnosisLines: seq<string>, foundDiagnosis: bool)

  function LineEnd(s: string, i: nat): (j: nat)
    ensures i <= j && (i <= |s| ==> j <= |s|)
    decreases |s| - i
  {
    if i < |s| && !IsLineTerminator(s[i]) then LineEnd(s, i + 1) else i
  }

  /** `([A-Z])[<seps>]\s*(.*)` at `i`: the label letter and the rest of the line. */
  function LabelAt(line: string, i: nat, seps: set<char>): (r: Option<(char, string)>)
    ensures r.Some? ==> i + 1 < |line| && IsUpper(r.value.0) && r.value.0 == line[i] && line[i + 1] in seps
    ensures r.None? ==> !(i + 1 < |line| && IsUpper(line[i]) && line[i + 1] in seps)
  {
    if i + 1 < |line| && IsUpper(line[i]) && line[i + 1] in seps then
      var j := Ws(line, i + 2);
      Some((line[i], line[j..LineEnd(line, j)]))
    else None
  }

  /** `/^([A-Z])[\.\)]\s*(.*)/` (app_2.js:294, a.js:189, app.js:73). */
  function LetterHeader(line: string): (r: Option<(char, string)>)
    ensures r.Some? <==> |line| >= 2 && IsUpper(line[0]) && (line[1] == '.' || line[1] == ')')
  {
    LabelAt(line, 0, {'.', ')'})
  }

  /** A specimen as its header line opens it. */
  function OpenSample(letter: char, rest: string): RawSample {
    RawSample(letter, if rest != [] then [Trim(rest)] else [], [], false)
  }

  function DashRunEnd(s: string, i: nat): (j: nat)
    ensures i <= j && (i <= |s| ==> j <= |s|)
    ensures forall k :: i <= k < j ==> k < |s| && s[k] == '-'
    ensures j < |s| ==> s[j] != '-'
    decreases |s| - i
  {
    if i < |s| && s[i] == '-' then DashRunEnd(s, i + 1) else i
  }

  /** The `replace` of a leading `-+\s*` run by "": the leading dashes and
      the whitespace after them go. */
  function StripDashes(line: string): (r: string)
    ensures HasPrefix(line, "-") ==> |r| < |line| && r == line[|line| - |r|..] && (r == [] || !IsSpace(r[0]))
    ensures !HasPrefix(line, "-") ==> r == line
  {
    var k := DashRunEnd(line, 0);
    if k > 0 then line[Ws(line, k)..] else line
  }

  /** One non-header line added to the open specimen. */
  function AddLine(s: RawSample, line: string): (r: RawSample)
    ensures r.sampleLabel == s.sampleLabel
    ensures r.foundDiagnosis <==> s.foundDiagnosis || HasPrefix(line, "-")
    ensures s.foundDiagnosis ==> r.locationLines == s.locationLines
  {
    if HasPrefix(line, "-") then
      s.(foundDiagnosis := true, diagnosisLines := s.diagnosisLines + [StripDashes(line)])
    else if s.foundDiagnosis then
      s.(diagnosisLines := s.diagnosisLines + [line])
    else
      s.(locationLines := s.locationLines + [line])
  }

  function AddLines(s: RawSample, body: seq<string>): RawSample
    decreases |body|
  {
    if body == [] then s else AddLines(AddLine(s, body[0]), body[1..])
  }

  /** The samples emitted from `lines` onward, with `cur` the open specimen. */
  function TokenizeFrom(lines: seq<string>, header: string -> Option<(char, string)>, cur: Option<RawSample>): seq<RawSample>
    decreases |lines|
  {
    var done := if cur.Some? then [cur.value] else [];
    if lines == [] then done
    else match header(lines[0])
      case Some((letter, rest)) => done + TokenizeFrom(lines[1..], header, Some(OpenSample(letter, rest)))
      case None => TokenizeFrom(lines[1..], header, if cur.Some? then Some(AddLine(cur.value, lines[0])) else None)
  }

  /** The tokenizer loop: `current` is the open specimen. */
  method Tokenize(lines: seq<string>, header: string -> Option<(char, string)>) returns (samples: seq<RawSample>)
    ensures samples == TokenizeFrom(lines, header, None)
  {
    samples := [];
    var current: Option<RawSample> := None;
    for i := 0 to |lines|
      invariant samples + TokenizeFrom(lines[i..], header, current) == TokenizeFrom(lines, header, None)
    {
      var line := lines[i];
      assert lines[i..][1..] == lines[i + 1..];
      var done := if current.Some? then [current.value] else [];
      match header(line)
      case Some((letter, rest)) =>
        assert TokenizeFrom(lines[i..], header, current)
            == done + TokenizeFrom(lines[i + 1..], header, Some(OpenSample(letter, rest)));
        AppendAssoc(samples, done, TokenizeFrom(lines[i + 1..], header, Some(OpenSample(letter, rest))));
        samples := samples + done;
        current := Some(OpenSample(letter, rest));
      case None =>
        var next := if current.Some? then Some(AddLine(current.value, line)) else None;
        assert TokenizeFrom(lines[i..], header, current) == TokenizeFrom(lines[i + 1..], header, next);
        current := next;
    }
    assert lines[|lines|..] == [];
    if current.Some? {
      samples := samples + [current.value];
    }
  }

  function HeaderLabels(lines: seq<string>, header: string -> Option<(char, string)>): seq<char>
    decreases |lines|
  {
    if lines == [] then []
    else match header(lines[0])
      case Some((letter, _)) => [letter] + HeaderLabels(lines[1..], header)
      case None => HeaderLabels(lines[1..], header)
  }

  function Labels(samples: seq<RawSample>): (r: seq<char>)
    ensures |r| == |samples| && forall k :: 0 <= k < |r| ==> r[k] == samples[k].sampleLabel
  {
    seq(|samples|, k requires 0 <= k < |samples| => samples[k].sampleLabel)
  }

  /** One specimen per header line, in order, labelled with that header's
      letter (plus the specimen that was already open). */
  lemma {:induction false} TokenizeLabels(lines: seq<string>, header: string -> Option<(char, string)>, cur: Option<RawSample>)
    ensures Labels(TokenizeFrom(lines, header, cur)) == (if cur.Some? then [cur.value.sampleLabel] else []) + HeaderLabels(lines, header)
    decreases |lines|
  {
    var done := if cur.Some? then [cur.value] else [];
    var front := if cur.Some? then [cur.value.sampleLabel] else [];
    assert Labels(done) == front;
    if lines == [] {
      assert TokenizeFrom(lines, header, cur) == done;
    } else {
      match header(lines[0])
      case Some((letter, rest)) =>
        var tail := TokenizeFrom(lines[1..], header, Some(OpenSample(letter, rest)));
        TokenizeLabels(lines[1..], header, Some(OpenSample(letter, rest)));
        assert TokenizeFrom(lines, header, cur) == done + tail;
        LabelsAppend(done, tail);
        assert HeaderLabels(lines, header) == [letter] + HeaderLabels(lines[1..], header);
      case None =>
        TokenizeLabels(lines[1..], header, if cur.Some? then Some(AddLine(cur.value, lines[0])) else None);
    }
  }

  lemma LabelsAppend(a: seq<RawSample>, b: seq<RawSample>)
    ensures Labels(a + b) == Labels(a) + Labels(b)
  {
  }

  /** Lines before the first header belong to no specimen. */
  lemma {:induction false} TokenizeDropsPreamble(lines: seq<string>, header: string -> Option<(char, string)>, k: nat)
    requires k <= |lines| && forall j :: 0 <= j < k ==> header(lines[j]).None?
    ensures TokenizeFrom(lines, header, None) == TokenizeFrom(lines[k..], header, None)
    decreases k
  {
    if k > 0 {
      assert header(lines[0]).None?;
      TokenizeDropsPreamble(lines[1..], header, k - 1);
      assert lines[1..][k - 1..] == lines[k..];
    }
  }

  /** The lines between two headers all go to the open specimen. */
  lemma {:induction false} TokenizeSegment(lines: seq<string>, header: string -> Option<(char, string)>, cur: RawSample, k: nat)
    requires k <= |lines| && forall j :: 0 <= j < k ==> header(lines[j]).None?
    ensures TokenizeFrom(lines, header, Some(cur)) == TokenizeFrom(lines[k..], header, Some(AddLines(cur, lines[..k])))
    decreases k
  {
    if k > 0 {
      assert header(lines[0]).None?;
      TokenizeSegment(lines[1..], header, AddLine(cur, lines[0]), k - 1);
      assert lines[1..][k - 1..] == lines[k..];
      assert lines[..k][1..] == lines[1..][..k - 1];
    }
  }

  /** Index of the first line starting with "-", or `|body|`. */
  function FirstDash(body: seq<string>): (d: nat)
    ensures d <= |body| && (d < |body| ==> HasPrefix(body[d], "-"))
    ensures forall j :: 0 <= j < d ==> !HasPrefix(body[j], "-")
    decreases |body|
  {
    if body == [] || HasPrefix(body[0], "-") then 0 else 1 + FirstDash(body[1..])
  }

  /** A diagnosis line as stored: a line starting with "-" loses its dashes. */
  function StoredDiagnosis(line: string): string {
    if HasPrefix(line, "-") then StripDashes(line) else line
  }

  function DiagnosisText(body: seq<string>): (r: seq<string>)
    ensures |r| == |body|
    decreases |body|
  {
    if body == [] then [] else [StoredDiagnosis(body[0])] + DiagnosisText(body[1..])
  }

  /** Diagnosis mode is sticky: once on, every line goes to the diagnosis. */
  lemma {:induction false} AddLinesInDiagnosis(s: RawSample, body: seq<string>)
    requires s.foundDiagnosis
    ensures AddLines(s, body) == s.(diagnosisLines := s.diagnosisLines + DiagnosisText(body))
    decreases |body|
  {
    if body != [] {
      var s1 := AddLine(s, body[0]);
      AddLinesInDiagnosis(s1, body[1..]);
    }
  }

  /** The location/diagnosis split of one specimen's lines: everything before
      the first "-" line is location, that line and everything after it is
      diagnosis (dashes stripped where a line starts with them). */
  function SplitBody(s: RawSample, body: seq<string>): RawSample {
    var d := FirstDash(body);
    RawSample(s.sampleLabel, s.locationLines + body[..d], s.diagnosisLines + DiagnosisText(body[d..]), s.foundDiagnosis || d < |body|)
  }

  /** Adding a specimen's lines one by one gives exactly that split. */
  lemma {:induction false} AddLinesSplit(s: RawSample, body: seq<string>)
    requires !s.foundDiagnosis
    ensures AddLines(s, body) == SplitBody(s, body)
    decreases |body|
  {
    if body == [] {
      assert body[..0] == [] && body[0..] == [];
    } else if HasPrefix(body[0], "-") {
      DashFirstSplit(s, body);
    } else {
      AddLinesSplit(AddLine(s, body[0]), body[1..]);
      LocationLineSplit(s, body);
    }
  }

  /** A first line starting with "-" turns the whole body into diagnosis. */
  lemma DashFirstSplit(s: RawSample, body: seq<string>)
    requires !s.foundDiagnosis && body != [] && HasPrefix(body[0], "-")
    ensures AddLines(s, body) == SplitBody(s, body)
  {
    var s1 := AddLine(s, body[0]);
    assert s1 == s.(foundDiagnosis := true, diagnosisLines := s.diagnosisLines + [StripDashes(body[0])]);
    AddLinesInDiagnosis(s1, body[1..]);
    assert FirstDash(body) == 0;
    assert DiagnosisText(body) == [StripDashes(body[0])] + DiagnosisText(body[1..]);
    assert body[..0] == [] && body[0..] == body;
  }

  /** A first line without "-" goes to the location, and the split of the
      rest is the split of the whole. */
  lemma LocationLineSplit(s: RawSample, body: seq<string>)
    requires !s.foundDiagnosis && body != [] && !HasPrefix(body[0], "-")
    ensures SplitBody(AddLine(s, body[0]), body[1..]) == SplitBody(s, body)
  {
    var s1 := AddLine(s, body[0]);
    assert s1 == s.(locationLines := s.locationLines + [body[0]]);
    var d := FirstDash(body);
    assert FirstDash(body[1..]) == d - 1;
    assert body[1..][..d - 1] == body[1..d];
    assert body[..d] == [body[0]] + body[1..d];
    assert body[1..][d - 1..] == body[d..];
  }

  // ---------------------------------------------------------------------
  // The worst risk over all reports (app2.js:16-27, app_2.js:23-34)
  // ---------------------------------------------------------------------

  /** getHighestNccnRisk: the first risk of highest positive rank, or
      `fallback` when no risk has a positive rank. */
  method HighestRisk<R(==)>(risks: seq<R>, rank: R -> nat, fallback: R) returns (best: R)
    ensures (forall k :: 0 <= k < |risks| ==> rank(risks[k]) == 0) ==> best == fallback
    ensures (exists k :: 0 <= k < |risks| && rank(risks[k]) > 0) ==>
              best in risks && forall k :: 0 <= k < |risks| ==> rank(risks[k]) <= rank(best)
  {
    var bestRank := 0;
    best := fallback;
    for i := 0 to |risks|
      invariant bestRank == 0 ==> best == fallback && forall k :: 0 <= k < i ==> rank(risks[k]) == 0
      invariant bestRank > 0 ==> best in risks[..i] && rank(best) == bestRank
      invariant forall k :: 0 <= k < i ==> rank(risks[k]) <= bestRank
    {
      var r := rank(risks[i]);
      if r > bestRank {
        bestRank := r;
        best := risks[i];
      }
    }
    assert risks[..|risks|] == risks;
  }

  /** The largest value `f` yields over `xs`, or 0 when it yields none above 0. */
  method MaxSome<T>(xs: seq<T>, f: T -> Option<nat>) returns (best: nat)
    ensures forall k :: 0 <= k < |xs| && f(xs[k]).Some? ==> f(xs[k]).value <= best
    ensures best == 0 || exists k :: 0 <= k < |xs| && f(xs[k]) == Some(best)
  {
    best := 0;
    ghost var w := 0;
    for i := 0 to |xs|
      invariant forall k :: 0 <= k < i && f(xs[k]).Some? ==> f(xs[k]).value <= best
      invariant best != 0 ==> w < i && f(xs[w]) == Some(best)
    {
      var m := f(xs[i]);
      if m.Some? && m.value > best {
        best := m.value;
        w := i;
      }
    }
  }
}
