/** app_2.js: the generation that keys its risk tree on the Gleason sum. The
    FINAL PATHOLOGIC DIAGNOSIS block is isolated without the "See" / "Comment"
    merge, specimens open only on `A.` / `A)` headers, each specimen records a
    Gleason score text, and the core aggregation sums the clamped totals
    rather than assuming 14 cores. a.js shares everything here except its
    diagnosis classifier, which is why the specimen pipeline takes the
    classifier as a parameter. */
module App_2Js {
  import opened Text
  import opened Scan
  import opened Reports
  import App2Js

  // ---------------------------------------------------------------------
  // extractFinalDxLines (app_2.js:257-286)
  // ---------------------------------------------------------------------

  /** The report's lines, each trimmed. */
  function ReportLines(reportText: string): seq<string> {
    TrimAll(SplitLines(reportText))
  }

  /** The lines of the diagnosis block: the capture pass over the trimmed lines. */
  function FinalDxLines(reportText: string): seq<string> {
    CaptureFrom(ReportLines(reportText), KindOf, false)
  }

  /** extractFinalDxLines: one capture loop, no merge pass. */
  method ExtractFinalDxLines(reportText: string) returns (dxLines: seq<string>)
    ensures dxLines == FinalDxLines(reportText)
    ensures forall k :: 0 <= k < |dxLines| ==> dxLines[k] != [] && !IsNoise(dxLines[k])
  {
    var lines := ReportLines(reportText);
    dxLines := CaptureFinalDx(lines, KindOf);
    CapturedAreContent(lines, KindOf, false);
    forall k | 0 <= k < |dxLines|
      ensures dxLines[k] != [] && !IsNoise(dxLines[k])
    {
      KindOfMeaning(dxLines[k]);
    }
  }

  /** A bare "Comment" heading is not a FINAL PATHOLOGIC DIAGNOSIS line. */
  lemma CommentIsNotHeader(line: string)
    requires IsCommentHeading(line)
    ensures !IsFinalDxHeader(line)
  {
    var l := LowerStr(line);
    assert OccursAt(l, "comment", 0);
    assert l[0] == 'c';
  }

  /** A bare "Comment" line is a terminator. */
  lemma CommentIsTerminator(line: string)
    requires IsCommentHeading(line)
    ensures KindOf(line) == Terminator
  {
    CommentIsNotHeader(line);
  }

  /** With no merge pass, a bare "Comment" line anywhere after the header ends
      the capture there or earlier: the first terminator after the header
      comes no later than it (`lines` stands for `ReportLines(reportText)`). */
  lemma CommentHeadingEndsCapture(lines: seq<string>, c: nat)
    requires IndexOf(lines, KindOf, DxHeader) < c < |lines| && IsCommentHeading(lines[c])
    ensures BlockEnd(lines, KindOf) <= c
  {
    CommentIsTerminator(lines[c]);
    TerminatorBound(lines, KindOf, c);
  }

  // ---------------------------------------------------------------------
  // parseLocation (app_2.js:354-363)
  // ---------------------------------------------------------------------

  // The two prefixes are anchored at the start, and each `\s*` in them is
  // followed by a non-space literal, so the greedy reading is exact.

  /** `^PROSTATE\s*NEEDLE\s*BX\s*-\s*` */
  function NeedleBxPrefix(l: string, j: nat): Option<nat> {
    if j != 0 then None
    else
      var a :- Words(l, 0, ["prostate", "needle", "bx"], false);
      var b :- Lit(l, Ws(l, a), "-");
      Some(Ws(l, b))
  }

  /** `^PROSTATE,\s*NEEDLE\s*CORE\s*BIOPSY\s*-\s*` */
  function CoreBiopsyPrefix(l: string, j: nat): Option<nat> {
    if j != 0 then None
    else
      var a :- Words(l, 0, ["prostate,", "needle", "core", "biopsy"], false);
      var b :- Lit(l, Ws(l, a), "-");
      Some(Ws(l, b))
  }

  /** `loc.startsWith(label + " ")` then `loc.slice(label.length + 1)`. */
  function DropLabel(loc: string, letter: char): (r: string)
    ensures r == loc || (|loc| >= 2 && r == loc[2..])
  {
    if HasPrefix(loc, [letter, ' ']) then loc[2..] else loc
  }

  /** A contiguous piece of `s`. */
  predicate IsPiece(r: string, s: string) {
    exists a: nat, b: nat :: a <= b <= |s| && r == s[a..b]
  }

  lemma PieceOfPiece(r: string, s: string, t: string)
    requires IsPiece(r, s) && IsPiece(s, t)
    ensures IsPiece(r, t)
  {
    var a: nat, b: nat :| a <= b <= |s| && r == s[a..b];
    var c: nat, d: nat :| c <= d <= |t| && s == t[c..d];
    forall i | 0 <= i < b - a
      ensures r[i] == t[c + a + i]
    {
      assert r[i] == s[a + i];
    }
    assert r == t[c + a..c + b];
  }

  /** Removing an anchored prefix leaves a suffix. */
  lemma StripAnchoredIsPiece(s: string, m: (string, nat) -> Option<nat>)
    requires forall j: nat :: j != 0 ==> m(LowerStr(s), j).None?
    ensures IsPiece(ReplaceFirstCI(s, m, ""), s)
  {
    match FirstHit(Folded(s, m), 0, |s|)
    case None =>
      assert ReplaceFirstCI(s, m, "") == s[0..|s|];
    case Some(h) =>
      assert Folded(s, m)(h.start).Some?;
      assert h.start == 0;
      if h.end <= |s| {
        assert ReplaceFirstCI(s, m, "") == s[h.end..|s|];
      } else {
        assert ReplaceFirstCI(s, m, "") == s[0..|s|];
      }
  }

  /** Removing the trailing colon leaves a prefix. */
  lemma StripColonIsPiece(s: string)
    ensures IsPiece(ReplaceFirstCI(s, App2Js.TrailingColon, ""), s)
  {
    match FirstHit(Folded(s, App2Js.TrailingColon), 0, |s|)
    case None =>
      assert ReplaceFirstCI(s, App2Js.TrailingColon, "") == s[0..|s|];
    case Some(h) =>
      assert Unit(App2Js.TrailingColon(LowerStr(s), h.start)) == Some(((), h.end));
      assert h.end == |s|;
      assert ReplaceFirstCI(s, App2Js.TrailingColon, "") == s[0..h.start];
  }

  /** The replace chain of parseLocation, up to the trim. */
  function StripLocation(text: string, letter: char): string {
    var s1 := ReplaceFirstCI(text, NeedleBxPrefix, "");
    var s2 := ReplaceFirstCI(s1, CoreBiopsyPrefix, "");
    var s3 := ReplaceFirstCI(s2, App2Js.TrailingColon, "");
    DropLabel(s3, letter)
  }

  lemma StripLocationIsPiece(text: string, letter: char)
    ensures IsPiece(StripLocation(text, letter), text)
  {
    var s1 := ReplaceFirstCI(text, NeedleBxPrefix, "");
    var s2 := ReplaceFirstCI(s1, CoreBiopsyPrefix, "");
    var s3 := ReplaceFirstCI(s2, App2Js.TrailingColon, "");
    var s4 := DropLabel(s3, letter);
    StripAnchoredIsPiece(text, NeedleBxPrefix);
    StripAnchoredIsPiece(s1, CoreBiopsyPrefix);
    StripColonIsPiece(s2);
    assert s4 == s3[0..|s3|] || s4 == s3[2..|s3|];
    PieceOfPiece(s2, s1, text);
    PieceOfPiece(s3, s2, text);
    PieceOfPiece(s4, s3, text);
  }

  /** parseLocation: the text with its prefixes, trailing colon and leading
      label cut off, trimmed. Only the ends are cut, so the result is a
      contiguous piece of the text. */
  function ParseLocation(text: string, letter: char): (r: string)
    ensures r == [] || (!IsSpace(r[0]) && !IsSpace(r[|r| - 1]))
    ensures IsPiece(r, text)
  {
    var s4 := StripLocation(text, letter);
    StripLocationIsPiece(text, letter);
    TrimInfix(s4);
    PieceOfPiece(Trim(s4), s4, text);
    Trim(s4)
  }

  /** A replace whose phrasing matches nowhere changes nothing. */
  lemma NoMatchNoChange(s: string, m: (string, nat) -> Option<nat>)
    requires forall j: nat :: m(LowerStr(s), j).None?
    ensures ReplaceFirstCI(s, m, "") == s
  {
  }

  /** The NEEDLE BX prefix begins with "prostate". */
  lemma NeedleBxNeedsProstate(l: string)
    requires !HasPrefix(l, "prostate")
    ensures forall j: nat :: NeedleBxPrefix(l, j).None?
  {
  }

  /** The NEEDLE CORE BIOPSY prefix begins with "prostate,". */
  lemma CoreBiopsyNeedsProstate(l: string)
    requires !HasPrefix(l, "prostate")
    ensures forall j: nat :: CoreBiopsyPrefix(l, j).None?
  {
    WordsStart(l, 0, ["prostate,", "needle", "core", "biopsy"], false);
    if OccursAt(l, "prostate,", 0) {
      assert l[..8] == l[0..9][..8];
    }
  }

  /** Without a colon the trailing-colon phrasing matches nowhere. */
  lemma NoColonNoMatch(text: string)
    requires forall i :: 0 <= i < |text| ==> text[i] != ':'
    ensures forall j: nat :: App2Js.TrailingColon(LowerStr(text), j).None?
  {
    var l := LowerStr(text);
    forall j: nat ensures App2Js.TrailingColon(l, j).None? {
      if j < |l| {
        assert l[j] == Lower(text[j]);
      }
    }
  }

  /** Text with no "prostate" prefix, no colon and no leading label is only trimmed. */
  lemma ParseLocationPlain(text: string, letter: char)
    requires !HasPrefix(LowerStr(text), "prostate")
    requires forall i :: 0 <= i < |text| ==> text[i] != ':'
    requires !HasPrefix(text, [letter, ' '])
    ensures ParseLocation(text, letter) == Trim(text)
  {
    NeedleBxNeedsProstate(LowerStr(text));
    CoreBiopsyNeedsProstate(LowerStr(text));
    NoMatchNoChange(text, NeedleBxPrefix);
    NoMatchNoChange(text, CoreBiopsyPrefix);
    NoColonNoMatch(text);
    NoMatchNoChange(text, App2Js.TrailingColon);
    assert StripLocation(text, letter) == text;
  }

  /** `\s*` at `i` ends at `j` when `i..j` is whitespace and `j` is not. */
  lemma WsEnds(s: string, i: nat, j: nat)
    requires i <= j <= |s|
    requires forall k :: i <= k < j ==> IsSpace(s[k])
    requires j == |s| || !IsSpace(s[j])
    ensures Ws(s, i) == j
  {
  }

  /** The NEEDLE BX phrasing at the start of any text laid out as
      "prostate needle bx - " followed by a non-blank. */
  lemma NeedleBxWords(l: string)
    requires |l| >= 21 && OccursAt(l, "prostate", 0) && IsSpace(l[8]) && OccursAt(l, "needle", 9)
    requires IsSpace(l[15]) && OccursAt(l, "bx", 16) && IsSpace(l[18]) && l[19] == '-' && IsSpace(l[20])
    requires !IsSpace(l[9]) && !IsSpace(l[16]) && !IsSpace(l[19])
    requires |l| == 21 || !IsSpace(l[21])
    ensures NeedleBxPrefix(l, 0) == Some(21)
  {
    WsEnds(l, 8, 9);
    WsEnds(l, 15, 16);
    assert Words(l, 16, ["bx"], false) == Some(18);
    WordsStep(l, 9, "needle", ["bx"], 16);
    assert ["needle"] + ["bx"] == ["needle", "bx"];
    WordsStep(l, 0, "prostate", ["needle", "bx"], 9);
    assert ["prostate"] + ["needle", "bx"] == ["prostate", "needle", "bx"];
    WsEnds(l, 18, 19);
    assert OccursAt(l, "-", 19);
    WsEnds(l, 20, 21);
  }

  /** The lower-cased NEEDLE BX head is matched whole, with the blanks after it. */
  lemma NeedleBxHeadMatch(r: string)
    requires r == [] || !IsSpace(r[0])
    ensures NeedleBxPrefix("prostate needle bx - " + r, 0) == Some(21)
  {
    var h := "prostate needle bx - ";
    var l := h + r;
    assert l[0..8] == h[0..8] == "prostate";
    assert l[9..15] == h[9..15] == "needle";
    assert l[16..18] == h[16..18] == "bx";
    assert l[8] == h[8] && l[15] == h[15] && l[18] == h[18] && l[19] == h[19] && l[20] == h[20];
    assert l[9] == h[9] && l[16] == h[16];
    assert r == [] || l[21] == r[0];
    NeedleBxWords(l);
  }

  /** The CORE BIOPSY phrasing at the start of any text laid out as
      "prostate, needle core biopsy - " followed by a non-blank. */
  lemma CoreBiopsyWords(l: string)
    requires |l| >= 31 && OccursAt(l, "prostate,", 0) && IsSpace(l[9]) && OccursAt(l, "needle", 10)
    requires IsSpace(l[16]) && OccursAt(l, "core", 17) && IsSpace(l[21]) && OccursAt(l, "biopsy", 22)
    requires IsSpace(l[28]) && l[29] == '-' && IsSpace(l[30])
    requires !IsSpace(l[10]) && !IsSpace(l[17]) && !IsSpace(l[22]) && !IsSpace(l[29])
    requires |l| == 31 || !IsSpace(l[31])
    ensures CoreBiopsyPrefix(l, 0) == Some(31)
  {
    WsEnds(l, 9, 10);
    WsEnds(l, 16, 17);
    WsEnds(l, 21, 22);
    assert Words(l, 22, ["biopsy"], false) == Some(28);
    WordsStep(l, 17, "core", ["biopsy"], 22);
    assert ["core"] + ["biopsy"] == ["core", "biopsy"];
    WordsStep(l, 10, "needle", ["core", "biopsy"], 17);
    assert ["needle"] + ["core", "biopsy"] == ["needle", "core", "biopsy"];
    WordsStep(l, 0, "prostate,", ["needle", "core", "biopsy"], 10);
    assert ["prostate,"] + ["needle", "core", "biopsy"] == ["prostate,", "needle", "core", "biopsy"];
    WsEnds(l, 28, 29);
    assert OccursAt(l, "-", 29);
    WsEnds(l, 30, 31);
  }

  /** The lower-cased CORE BIOPSY head is matched whole, with the blanks after it. */
  lemma CoreBiopsyHeadMatch(r: string)
    requires r == [] || !IsSpace(r[0])
    ensures CoreBiopsyPrefix("prostate, needle core biopsy - " + r, 0) == Some(31)
  {
    var l := "prostate, needle core biopsy - " + r;
    CoreBiopsyHeadFront(r);
    CoreBiopsyHeadBack(r);
    CoreBiopsyWords(l);
  }

  lemma CoreBiopsyHeadFront(r: string)
    ensures var l := "prostate, needle core biopsy - " + r;
            OccursAt(l, "prostate,", 0) && IsSpace(l[9]) && OccursAt(l, "needle", 10)
            && IsSpace(l[16]) && !IsSpace(l[10]) && !IsSpace(l[17])
  {
    var h := "prostate, needle core biopsy - ";
    var l := h + r;
    assert l[0..9] == h[0..9] == "prostate,";
    assert l[10..16] == h[10..16] == "needle";
    assert l[9] == h[9] && l[16] == h[16] && l[10] == h[10] && l[17] == h[17];
  }

  lemma CoreBiopsyHeadBack(r: string)
    requires r == [] || !IsSpace(r[0])
    ensures var l := "prostate, needle core biopsy - " + r;
            OccursAt(l, "core", 17) && IsSpace(l[21]) && OccursAt(l, "biopsy", 22)
            && IsSpace(l[28]) && l[29] == '-' && IsSpace(l[30])
            && !IsSpace(l[22]) && (|l| == 31 || !IsSpace(l[31]))
  {
    var h := "prostate, needle core biopsy - ";
    var l := h + r;
    assert l[17..21] == h[17..21] == "core";
    assert l[22..28] == h[22..28] == "biopsy";
    assert l[21] == h[21] && l[28] == h[28] && l[29] == h[29] && l[30] == h[30] && l[22] == h[22];
    assert r == [] || l[31] == r[0];
  }

  /** One word of a `Words` phrasing matched at `i`, the blanks after it up to `j`. */
  lemma WordsStep(l: string, i: nat, w: string, ws: seq<string>, j: nat)
    requires ws != [] && OccursAt(l, w, i) && Ws(l, i + |w|) == j
    ensures Words(l, i, [w] + ws, false) == Words(l, j, ws, false)
  {
    assert ([w] + ws)[1..] == ws;
  }

  /** The NEEDLE BX phrasing does not match the CORE BIOPSY head: a comma
      stands where "needle" would begin. */
  lemma CoreBiopsyHeadIsNotNeedleBx(r: string)
    ensures NeedleBxPrefix("prostate, needle core biopsy - " + r, 0).None?
  {
    var l := "prostate, needle core biopsy - " + r;
    assert l[0..8] == "prostate";
    assert l[8] == ',';
    WsEnds(l, 8, 8);
    assert !OccursAt(l, "needle", 8) by {
      assert "needle"[0] != l[8];
    }
  }

  lemma LowerNeedleBxHead()
    ensures LowerStr("PROSTATE NEEDLE BX - ") == "prostate needle bx - "
  {
  }

  lemma LowerCoreBiopsyHead()
    ensures LowerStr("PROSTATE, NEEDLE CORE BIOPSY - ") == "prostate, needle core biopsy - "
  {
  }

  /** Lower-casing keeps a first character that is not whitespace. */
  lemma LowerHeadNotSpace(rest: string)
    requires rest == [] || !IsSpace(rest[0])
    ensures LowerStr(rest) == [] || !IsSpace(LowerStr(rest)[0])
  {
  }

  /** The NEEDLE BX head, in any casing, and the blanks after it are removed. */
  lemma NeedleBxHeadRemoved(head: string, rest: string)
    requires LowerStr(head) == "prostate needle bx - "
    requires rest == [] || !IsSpace(rest[0])
    ensures ReplaceFirstCI(head + rest, NeedleBxPrefix, "") == rest
  {
    var text := head + rest;
    var l := LowerStr(text);
    LowerConcat(head, rest);
    LowerHeadNotSpace(rest);
    NeedleBxHeadMatch(LowerStr(rest));
    assert NeedleBxPrefix(l, 0) == Some(21);
    assert Folded(text, NeedleBxPrefix)(0) == Unit(NeedleBxPrefix(l, 0));
    assert FirstHit(Folded(text, NeedleBxPrefix), 0, |text|) == Some(Hit((), 0, 21));
    assert text[21..] == rest;
  }

  /** The CORE BIOPSY head, in any casing, is left alone by the NEEDLE BX
      phrasing, and it and the blanks after it are removed. */
  lemma CoreBiopsyHeadRemoved(head: string, rest: string)
    requires LowerStr(head) == "prostate, needle core biopsy - "
    requires rest == [] || !IsSpace(rest[0])
    ensures ReplaceFirstCI(head + rest, NeedleBxPrefix, "") == head + rest
    ensures ReplaceFirstCI(head + rest, CoreBiopsyPrefix, "") == rest
  {
    var text := head + rest;
    var l := LowerStr(text);
    LowerConcat(head, rest);
    LowerHeadNotSpace(rest);
    CoreBiopsyHeadIsNotNeedleBx(LowerStr(rest));
    NoMatchNoChange(text, NeedleBxPrefix);
    CoreBiopsyHeadMatch(LowerStr(rest));
    assert CoreBiopsyPrefix(l, 0) == Some(31);
    assert Folded(text, CoreBiopsyPrefix)(0) == Unit(CoreBiopsyPrefix(l, 0));
    assert FirstHit(Folded(text, CoreBiopsyPrefix), 0, |text|) == Some(Hit((), 0, 31));
    assert text[31..] == rest;
  }

  /** A specimen line opening with "PROSTATE NEEDLE BX - " loses that head;
      what follows is read as a location of its own. */
  lemma NeedleBxHeadCut(rest: string, letter: char)
    requires rest == [] || !IsSpace(rest[0])
    requires !HasPrefix(LowerStr(rest), "prostate")
    ensures ParseLocation("PROSTATE NEEDLE BX - " + rest, letter) == ParseLocation(rest, letter)
  {
    LowerNeedleBxHead();
    NeedleBxHeadRemoved("PROSTATE NEEDLE BX - ", rest);
    NeedleBxNeedsProstate(LowerStr(rest));
    NoMatchNoChange(rest, NeedleBxPrefix);
    assert StripLocation("PROSTATE NEEDLE BX - " + rest, letter) == StripLocation(rest, letter);
  }

  /** A specimen line opening with "PROSTATE, NEEDLE CORE BIOPSY - " loses
      that head; what follows is read as a location of its own. */
  lemma CoreBiopsyHeadCut(rest: string, letter: char)
    requires rest == [] || !IsSpace(rest[0])
    requires !HasPrefix(LowerStr(rest), "prostate")
    ensures ParseLocation("PROSTATE, NEEDLE CORE BIOPSY - " + rest, letter) == ParseLocation(rest, letter)
  {
    LowerCoreBiopsyHead();
    CoreBiopsyHeadRemoved("PROSTATE, NEEDLE CORE BIOPSY - ", rest);
    NeedleBxNeedsProstate(LowerStr(rest));
    CoreBiopsyNeedsProstate(LowerStr(rest));
    NoMatchNoChange(rest, NeedleBxPrefix);
    NoMatchNoChange(rest, CoreBiopsyPrefix);
    assert StripLocation("PROSTATE, NEEDLE CORE BIOPSY - " + rest, letter) == StripLocation(rest, letter);
  }

  /** A trailing colon is cut off. */
  lemma TrailingColonCut(s: string, letter: char)
    requires !HasPrefix(LowerStr(s), "prostate")
    requires forall i :: 0 <= i < |s| ==> s[i] != ':'
    requires !HasPrefix(s, [letter, ' '])
    ensures ParseLocation(s + ":", letter) == Trim(s)
  {
    var text := s + ":";
    ColonKeepsNoProstate(s);
    NeedleBxNeedsProstate(LowerStr(text));
    CoreBiopsyNeedsProstate(LowerStr(text));
    NoMatchNoChange(text, NeedleBxPrefix);
    NoMatchNoChange(text, CoreBiopsyPrefix);
    ColonRemoved(s);
    assert StripLocation(text, letter) == s;
  }

  /** Appending a colon does not make the text start with "prostate". */
  lemma ColonKeepsNoProstate(s: string)
    requires !HasPrefix(LowerStr(s), "prostate")
    ensures !HasPrefix(LowerStr(s + ":"), "prostate")
  {
    var l := LowerStr(s + ":");
    LowerConcat(s, ":");
    if |s| >= 8 {
      assert l[..8] == LowerStr(s)[..8];
    } else {
      assert l[|s|] == ':';
    }
  }

  /** The colon closing a colon-free text is the trailing-colon match. */
  lemma ColonRemoved(s: string)
    requires forall i :: 0 <= i < |s| ==> s[i] != ':'
    ensures ReplaceFirstCI(s + ":", App2Js.TrailingColon, "") == s
  {
    var text := s + ":";
    var l := LowerStr(text);
    var f := Folded(text, App2Js.TrailingColon);
    forall j | 0 <= j < |s|
      ensures f(j).None?
    {
      assert text[j] == s[j];
      assert l[j] == Lower(s[j]) != ':';
      assert f(j) == Unit(App2Js.TrailingColon(l, j));
    }
    assert text[|s|] == ':' && l[|s|] == ':';
    WsEnds(l, |s| + 1, |l|);
    assert App2Js.TrailingColon(l, |s|) == Some(|l|);
    assert f(|s|) == Unit(App2Js.TrailingColon(l, |s|));
    assert FirstHit(f, 0, |text|) == Some(Hit((), |s|, |l|));
    assert text[..|s|] == s;
  }

  /** The specimen's own label letter and a space at the head are cut off. */
  lemma LabelHeadCut(rest: string, letter: char)
    requires letter != ':'
    requires forall i :: 0 <= i < |rest| ==> rest[i] != ':'
    ensures ParseLocation([letter, ' '] + rest, letter) == Trim(rest)
  {
    var text := [letter, ' '] + rest;
    var l := LowerStr(text);
    assert l[1] == ' ';
    assert l[1] != "prostate"[1];
    NeedleBxNeedsProstate(l);
    CoreBiopsyNeedsProstate(l);
    NoMatchNoChange(text, NeedleBxPrefix);
    NoMatchNoChange(text, CoreBiopsyPrefix);
    assert forall i :: 0 <= i < |text| ==> text[i] != ':' by {
      forall i | 0 <= i < |text| ensures text[i] != ':' {
        if i >= 2 {
          assert text[i] == rest[i - 2];
        }
      }
    }
    NoColonNoMatch(text);
    NoMatchNoChange(text, App2Js.TrailingColon);
    assert text[2..] == rest;
    assert StripLocation(text, letter) == rest;
  }

  // ---------------------------------------------------------------------
  // parseShortDiagnosis (app_2.js:370-379)
  // ---------------------------------------------------------------------

  /** The diagnosis labels of app_2.js and a.js. */
  datatype ShortDx = AdenoCA | Prostatitis | Inflammation | Benign | Asap | Hgpin | Bph | NotAvailable

  function DxName(d: ShortDx): string {
    match d
    case AdenoCA => "AdenoCA"
    case Prostatitis => "Prostatitis"
    case Inflammation => "Inflammation"
    case Benign => "Benign"
    case Asap => "ASAP"
    case Hgpin => "HGPIN"
    case Bph => "BPH"
    case NotAvailable => "N/A"
  }

  /** parseShortDiagnosis: the first keyword of adenocarcinoma, prostatitis,
      inflammation, benign, asap, hgpin, bph found in the lower-cased text
      names the label; none of them gives "N/A". */
  function ParseShortDiagnosis(txt: string): (d: ShortDx)
    ensures var l := LowerStr(txt);
            && (d == AdenoCA <==> Contains(l, "adenocarcinoma"))
            && (d == Prostatitis <==> !Contains(l, "adenocarcinoma") && Contains(l, "prostatitis"))
            && (d == Inflammation <==> !Contains(l, "adenocarcinoma") && !Contains(l, "prostatitis")
                                       && Contains(l, "inflammation"))
            && (d == Benign <==> !Contains(l, "adenocarcinoma") && !Contains(l, "prostatitis")
                                 && !Contains(l, "inflammation") && Contains(l, "benign"))
            && (d == NotAvailable <==> !Contains(l, "adenocarcinoma") && !Contains(l, "prostatitis")
                                       && !Contains(l, "inflammation") && !Contains(l, "benign")
                                       && !Contains(l, "asap") && !Contains(l, "hgpin") && !Contains(l, "bph"))
    ensures var l := LowerStr(txt);
            var none4 := !Contains(l, "adenocarcinoma") && !Contains(l, "prostatitis")
                         && !Contains(l, "inflammation") && !Contains(l, "benign");
            && (d == Asap <==> none4 && Contains(l, "asap"))
            && (d == Hgpin <==> none4 && !Contains(l, "asap") && Contains(l, "hgpin"))
            && (d == Bph <==> none4 && !Contains(l, "asap") && !Contains(l, "hgpin") && Contains(l, "bph"))
  {
    var l := LowerStr(txt);
    if Contains(l, "adenocarcinoma") then AdenoCA
    else if Contains(l, "prostatitis") then Prostatitis
    else if Contains(l, "inflammation") then Inflammation
    else if Contains(l, "benign") then Benign
    else if Contains(l, "asap") then Asap
    else if Contains(l, "hgpin") then Hgpin
    else if Contains(l, "bph") then Bph
    else NotAvailable
  }

  // ---------------------------------------------------------------------
  // extractGleasonScore and findMaxGleasonSum (app_2.js:381-385, 429-443)
  // ---------------------------------------------------------------------

  /** The three digit runs of a Gleason phrase: primary, secondary, total. */
  datatype GleasonText = GleasonText(primary: string, secondary: string, total: string)

  predicate IsScore(g: GleasonText) {
    |g.primary| >= 1 && AllDigits(g.primary) && |g.secondary| >= 1 && AllDigits(g.secondary)
    && |g.total| >= 1 && AllDigits(g.total)
  }

  /** `gleason\s*(score)?\s*(\d+\s*\+\s*\d+\s*=\s*\d+)` at `j`. When "score"
      is taken but no digit follows, skipping it leaves "s" where a digit must
      be; a digit run given back leaves a digit where `\s*[+=]` or the end of
      the capture must be. */
  function GleasonTextAt(l: string, j: nat): (r: Option<(GleasonText, nat)>)
    ensures r.Some? ==> IsScore(r.value.0)
  {
    var a :- Lit(l, j, "gleason");
    var b := Ws(l, a);
    var c := if OccursAt(l, "score", b) then Ws(l, b + 5) else b;
    var (p, d) :- DigitText(l, c);
    var e :- Lit(l, Ws(l, d), "+");
    var (s, f) :- DigitText(l, Ws(l, e));
    var g :- Lit(l, Ws(l, f), "=");
    var (t, h) :- DigitText(l, Ws(l, g));
    Some((GleasonText(p, s, t), h))
  }

  function GleasonTextIn(l: string): nat -> Option<(GleasonText, nat)> {
    (j: nat) => GleasonTextAt(l, j)
  }

  /** The captured phrase with its whitespace removed: "P+S=T". */
  function ScoreText(g: GleasonText): string {
    g.primary + "+" + g.secondary + "=" + g.total
  }

  /** extractGleasonScore: "P+S=T" from the first Gleason phrase, else "N/A". */
  function ExtractGleasonScore(text: string): (r: string)
    ensures var m := Search(LowerStr(text), GleasonTextIn(LowerStr(text)));
            && (r == "N/A" <==> m.None?)
            && (m.Some? ==> r == ScoreText(m.value) && IsScore(m.value))
    ensures forall i :: 0 <= i < |r| ==> !IsSpace(r[i])
  {
    var l := LowerStr(text);
    match FirstHit(GleasonTextIn(l), 0, |l|)
    case None => "N/A"
    case Some(h) =>
      ScoreTextShape(h.value);
      ScoreText(h.value)
  }

  /** A score text starts with a digit and holds no whitespace. */
  lemma ScoreTextShape(g: GleasonText)
    requires IsScore(g)
    ensures IsDigit(ScoreText(g)[0]) && forall i :: 0 <= i < |ScoreText(g)| ==> !IsSpace(ScoreText(g)[i])
  {
    var s := ScoreText(g);
    var a := |g.primary|;
    var c := a + 1 + |g.secondary|;
    forall i | 0 <= i < |s|
      ensures !IsSpace(s[i])
    {
      if i < a {
        assert s[i] == g.primary[i];
      } else if a < i < c {
        assert s[i] == g.secondary[i - a - 1];
      } else if c < i {
        assert s[i] == g.total[i - c - 1];
      }
    }
  }

  /** `(\d+)\+\d+=(\d+)` at `j`: the total. Every digit run is followed by a
      non-digit literal or is the last capture, so greedy is exact. */
  function SumAt(s: string, j: nat): Option<(nat, nat)> {
    var (_, a) :- Number(s, j);
    var b :- Lit(s, a, "+");
    var (_, c) :- Number(s, b);
    var d :- Lit(s, c, "=");
    Number(s, d)
  }

  function SumIn(s: string): nat -> Option<(nat, nat)> {
    (j: nat) => SumAt(s, j)
  }

  /** The total findMaxGleasonSum reads from a score text. */
  function GleasonSum(score: string): Option<nat> {
    Search(score, SumIn(score))
  }

  /** `Number` at `i` reads the digit run `s[i..k]`. */
  lemma NumberRun(s: string, i: nat, k: nat)
    requires i < k <= |s| && forall m :: i <= m < k ==> IsDigit(s[m])
    requires k == |s| || !IsDigit(s[k])
    ensures Number(s, i) == Some((DigitsValue(s[i..k]), k))
  {
    DigitRunEndAt(s, i, k);
  }

  /** "P+S=T" laid out in `s`, with "+" at `a` and "=" at `c`. */
  lemma SumAtShape(s: string, a: nat, c: nat)
    requires 0 < a && a + 1 < c && c + 1 < |s|
    requires forall m :: 0 <= m < |s| && m != a && m != c ==> IsDigit(s[m])
    requires s[a] == '+' && s[c] == '='
    ensures SumAt(s, 0) == Some((DigitsValue(s[c + 1..]), |s|))
  {
    SumSteps(s, a, c);
    SumAfterSteps(s, a, c);
    NumberRun(s, c + 1, |s|);
    assert s[c + 1..|s|] == s[c + 1..];
  }

  /** The steps of the sum phrasing on "P+S=T". */
  lemma SumSteps(s: string, a: nat, c: nat)
    requires 0 < a && a + 1 < c && c + 1 < |s|
    requires forall m :: 0 <= m < |s| && m != a && m != c ==> IsDigit(s[m])
    requires s[a] == '+' && s[c] == '='
    ensures Number(s, 0).Some? && Number(s, 0).value.1 == a && Lit(s, a, "+") == Some(a + 1)
    ensures Number(s, a + 1).Some? && Number(s, a + 1).value.1 == c && Lit(s, c, "=") == Some(c + 1)
  {
    NumberRun(s, 0, a);
    assert s[a..a + 1] == "+";
    NumberRun(s, a + 1, c);
    assert s[c..c + 1] == "=";
  }

  /** The sum phrasing reads the number after "=" once the earlier steps hold. */
  lemma SumAfterSteps(s: string, a: nat, c: nat)
    requires Number(s, 0).Some? && Number(s, 0).value.1 == a && Lit(s, a, "+") == Some(a + 1)
    requires Number(s, a + 1).Some? && Number(s, a + 1).value.1 == c && Lit(s, c, "=") == Some(c + 1)
    ensures SumAt(s, 0) == Number(s, c + 1)
  {
  }

  /** What extractGleasonScore writes, findMaxGleasonSum reads back: the
      stated total. */
  lemma GleasonSumRoundTrip(g: GleasonText)
    requires IsScore(g)
    ensures GleasonSum(ScoreText(g)) == Some(DigitsValue(g.total))
  {
    var s := ScoreText(g);
    var a := |g.primary|;
    var c := a + 1 + |g.secondary|;
    forall m | 0 <= m < |s| && m != a && m != c
      ensures IsDigit(s[m])
    {
      if m < a {
        assert s[m] == g.primary[m];
      } else if m < c {
        assert s[m] == g.secondary[m - a - 1];
      } else {
        assert s[m] == g.total[m - c - 1];
      }
    }
    assert s[c + 1..] == g.total;
    SumAtShape(s, a, c);
    assert SumIn(s)(0) == SumAt(s, 0);
  }

  // ---------------------------------------------------------------------
  // extractCoresPositive and formatCores (app_2.js:390-410)
  // ---------------------------------------------------------------------

  /** `(\d+)\s*of\s*(\d+)\s*cores` (`of`) or `(\d+)\/(\d+)\s*cores` at `i`. A
      digit given back would stand where `\s*of`, `/` or `\s*cores` must be. */
  function FractionAt(l: string, i: nat, of: bool): Option<((nat, nat), nat)> {
    var (x, a) :- Number(l, i);
    var b :- if of then Lit(l, Ws(l, a), "of") else Lit(l, a, "/");
    var (y, c) :- Number(l, if of then Ws(l, b) else b);
    var e :- Lit(l, Ws(l, c), "cores");
    Some(((x, y), e))
  }

  /** `involving\s*` followed by a fraction, at `j`. */
  function InvolvingAt(l: string, j: nat, of: bool): Option<((nat, nat), nat)> {
    var a :- Lit(l, j, "involving");
    FractionAt(l, Ws(l, a), of)
  }

  /** The four phrasings, in the order they are tried. */
  function Phrasing(l: string, k: nat): nat -> Option<((nat, nat), nat)>
    requires k < 4
  {
    (j: nat) =>
      if k == 0 then InvolvingAt(l, j, true)
      else if k == 1 then InvolvingAt(l, j, false)
      else if k == 2 then FractionAt(l, j, true)
      else FractionAt(l, j, false)
  }

  /** The phrasings from the `k`-th on: the first one that matches anywhere
      gives the fraction, and no earlier one matches. */
  function FirstFraction(l: string, k: nat): (r: Option<(nat, nat)>)
    requires k <= 4
    ensures r.Some? <==> exists i :: k <= i < 4 && Matches(l, Phrasing(l, i))
    ensures r.Some? ==> exists i :: k <= i < 4 && Search(l, Phrasing(l, i)) == r
                                    && forall i' :: k <= i' < i ==> !Matches(l, Phrasing(l, i'))
    decreases 4 - k
  {
    if k == 4 then None
    else
      var m := Search(l, Phrasing(l, k));
      if m.Some? then m else FirstFraction(l, k + 1)
  }

  /** extractCoresPositive: the first phrasing's fraction, formatted; "N/A"
      without a match or with 0 cores. What it writes, the aggregation's
      `^(\d+)\/(\d+)` reads back. */
  function ExtractCoresPositive(text: string): (r: string)
    ensures var f := FirstFraction(LowerStr(text), 0);
            && (r == "N/A" <==> f.None? || f.value.1 == 0)
            && (r != "N/A" ==> App2Js.ParseFraction(r) == f)
  ensures var f := FirstFraction(LowerStr(text), 0);
          f.Some? && f.value.1 != 0 ==>
            r == NatToString(f.value.0) + "/" + NatToString(f.value.1) + "("
                 + NatToString(App2Js.RoundPercent(f.value.0, f.value.1)) + "%)"
  {
    match FirstFraction(LowerStr(text), 0)
    case None => "N/A"
    case Some((x, y)) =>
      if y == 0 then App2Js.FormatCores(x, y)
      else App2Js.FormatCoresRoundTrip(x, y); App2Js.FormatCores(x, y)
  }

  // ---------------------------------------------------------------------
  // extractMaxCoreSize (app_2.js:412-424)
  // ---------------------------------------------------------------------

  /** `tumor\s+measures\s+(\d+)\s*mm\s+in\s+(\d+)\s*mm\s*core` at `j`: the
      tumour length. Every whitespace run is followed by a non-space literal
      and every digit run by a non-digit one, so greedy is exact. */
  function SizeAt(l: string, j: nat): (r: Option<(int, nat)>)
    ensures r.Some? ==> r.value.0 >= 0
  {
    var a :- Words(l, j, ["tumor", "measures"], true);
    var b :- Ws1(l, a);
    var (v, c) :- Number(l, b);
    var d :- Lit(l, Ws(l, c), "mm");
    var e :- Ws1(l, d);
    var f :- Lit(l, e, "in");
    var g :- Ws1(l, f);
    var (_, h) :- Number(l, g);
    var i :- Lit(l, Ws(l, h), "mm");
    var k :- Lit(l, Ws(l, i), "core");
    Some((v as int, k))
  }

  function SizeIn(l: string): nat -> Option<(int, nat)> {
    (j: nat) => SizeAt(l, j)
  }

  /** The tumour lengths of every match, in order. */
  function Sizes(text: string): (r: seq<int>)
    ensures forall k :: 0 <= k < |r| ==> r[k] >= 0
  {
    var l := LowerStr(text);
    HitValues(AllHits(SizeIn(l), 0, |l|))
  }

  /** The largest tumour length, None without a match. */
  function MaxCoreSize(text: string): (r: Option<nat>)
    ensures r.None? <==> Sizes(text) == []
    ensures r.Some? ==> r.value in Sizes(text) && forall k :: 0 <= k < |Sizes(text)| ==> Sizes(text)[k] <= r.value
  {
    match FoldMaxInt(None, Sizes(text))
    case None => None
    case Some(v) => Some(v as nat)
  }

  /** `${maxSize}mm`, or "N/A". */
  function SizeText(m: Option<nat>): (r: string)
    ensures r == "N/A" <==> m.None?
  {
    match m
    case None => "N/A"
    case Some(v) =>
      assert IsDigit((NatToString(v) + "mm")[0]);
      NatToString(v) + "mm"
  }

  /** extractMaxCoreSize: the running maximum of the `exec` loop, printed. */
  method ExtractMaxCoreSize(text: string) returns (r: string)
    ensures r == SizeText(MaxCoreSize(text))
  {
    var l := LowerStr(text);
    var m := MaxIntOverHits(SizeIn(l), |l|);
    if m.None? {
      r := "N/A";
    } else {
      r := NatToString(m.value as nat) + "mm";
    }
  }

  // ---------------------------------------------------------------------
  // finalizeSample and parseSamplesFromDx (app_2.js:291-352)
  // ---------------------------------------------------------------------

  /** One specimen as the page shows it. */
  datatype Sample = Sample(
    sampleLabel: char,
    location: string,
    diagnosis: ShortDx,
    gleasonScore: string,
    coresPositive: string,
    maxCoreSize: string)

  /** The record finalizeSample builds, `dx` being the file's diagnosis classifier. */
  function FinalizedWith(s: RawSample, dx: string -> ShortDx): (r: Sample)
    ensures r.sampleLabel == s.sampleLabel
  {
    var d := App2Js.DiagText(s.diagnosisLines);
    Sample(s.sampleLabel, ParseLocation(Join(s.locationLines, " "), s.sampleLabel),
           dx(d), ExtractGleasonScore(d), ExtractCoresPositive(d), SizeText(MaxCoreSize(d)))
  }

  function Finalizer(dx: string -> ShortDx): RawSample -> Sample {
    (s: RawSample) => FinalizedWith(s, dx)
  }

  /** finalizeSample */
  method FinalizeSample(s: RawSample, dx: string -> ShortDx) returns (r: Sample)
    ensures r == FinalizedWith(s, dx)
  {
    var d := App2Js.DiagText(s.diagnosisLines);
    var size := ExtractMaxCoreSize(d);
    r := Sample(s.sampleLabel, ParseLocation(Join(s.locationLines, " "), s.sampleLabel),
                dx(d), ExtractGleasonScore(d), ExtractCoresPositive(d), size);
  }

  /** The `finalizeSample` call made for each tokenised specimen. */
  method FinalizeAll(raw: seq<RawSample>, dx: string -> ShortDx) returns (samples: seq<Sample>)
    ensures samples == Map(Finalizer(dx), raw)
    ensures |samples| == |raw| && forall k :: 0 <= k < |raw| ==> samples[k].sampleLabel == raw[k].sampleLabel
  {
    samples := [];
    for i := 0 to |raw|
      invariant samples == Map(Finalizer(dx), raw[..i])
      invariant |samples| == i && forall k :: 0 <= k < i ==> samples[k].sampleLabel == raw[k].sampleLabel
    {
      var s := FinalizeSample(raw[i], dx);
      MapSnoc(Finalizer(dx), raw, i);
      samples := samples + [s];
    }
    assert raw[..|raw|] == raw;
  }

  /** parseSamplesFromDx with the classifier `dx`: tokenise on `A.` / `A)`
      headers (no colon), then finalise; one record per header line, in order. */
  method ParseSamplesWith(dxLines: seq<string>, dx: string -> ShortDx) returns (samples: seq<Sample>)
    ensures samples == Map(Finalizer(dx), TokenizeFrom(dxLines, LetterHeader, None))
    ensures var hs := HeaderLabels(dxLines, LetterHeader);
            |samples| == |hs| && forall k :: 0 <= k < |hs| ==> samples[k].sampleLabel == hs[k]
  {
    var raw := Tokenize(dxLines, LetterHeader);
    TokenizeLabels(dxLines, LetterHeader, None);
    samples := FinalizeAll(raw, dx);
    assert Labels(raw) == HeaderLabels(dxLines, LetterHeader);
  }

  /** parseSamplesFromDx of app_2.js. */
  method ParseSamplesFromDx(dxLines: seq<string>) returns (samples: seq<Sample>)
    ensures samples == Map(Finalizer(ParseShortDiagnosis), TokenizeFrom(dxLines, LetterHeader, None))
    ensures var hs := HeaderLabels(dxLines, LetterHeader);
            |samples| == |hs| && forall k :: 0 <= k < |hs| ==> samples[k].sampleLabel == hs[k]
  {
    samples := ParseSamplesWith(dxLines, ParseShortDiagnosis);
  }

  /** The sum findMaxGleasonSum takes from a score text, if any. */
  function ScoreSum(score: string): Option<nat> {
    if score == "" || score == "N/A" then None else GleasonSum(score)
  }

  /** Reading back a specimen's score gives exactly the total stated in the
      first Gleason phrase of its text, and nothing without one. */
  lemma ScoreSumOfExtracted(text: string)
    ensures var l := LowerStr(text);
            var m := Search(l, GleasonTextIn(l));
            ScoreSum(ExtractGleasonScore(text)) == if m.None? then None else Some(DigitsValue(m.value.total))
  {
    var l := LowerStr(text);
    var m := Search(l, GleasonTextIn(l));
    if m.Some? {
      GleasonSumRoundTrip(m.value);
    }
  }

  /** The sum carried by one sample's score, if any. */
  function SampleSum(s: Sample): Option<nat> {
    ScoreSum(s.gleasonScore)
  }

  /** findMaxGleasonSum: the largest sum read from the records, 0 when none reads. */
  method FindMaxGleasonSum(samples: seq<Sample>) returns (maxSum: nat)
    ensures forall k :: 0 <= k < |samples| && SampleSum(samples[k]).Some? ==>
              SampleSum(samples[k]).value <= maxSum
    ensures maxSum == 0 || exists k :: 0 <= k < |samples| && SampleSum(samples[k]) == Some(maxSum)
  {
    maxSum := MaxSome(samples, SampleSum);
  }

  // ---------------------------------------------------------------------
  // computePositiveCores (app_2.js:617-687)
  // ---------------------------------------------------------------------

  /** `diagnosis.toLowerCase().includes("adeno")`. */
  predicate IsAdeno(s: Sample) {
    Contains(LowerStr(DxName(s.diagnosis)), "adeno")
  }

  /** The per-site cap on the lower-cased location: apex 3, otherwise 2, and
      1 whenever "target" or "lesion" appears, whatever else does. */
  function SiteCap(loc: string): (cap: nat)
    ensures Contains(loc, "target") || Contains(loc, "lesion") ==> cap == 1
    ensures !Contains(loc, "target") && !Contains(loc, "lesion") && Contains(loc, "apex") ==> cap == 3
    ensures !Contains(loc, "target") && !Contains(loc, "lesion") && !Contains(loc, "apex") ==> cap == 2
  {
    var m := if Contains(loc, "apex") then 3
             else if Contains(loc, "mid") then 2
             else if Contains(loc, "base") then 2
             else 2;
    if Contains(loc, "target") || Contains(loc, "lesion") then 1 else m
  }

  /** The clamped (positive, total) a record contributes, or None when it is
      skipped: not adenocarcinoma, no fraction, an unreadable one, or 0 cores. */
  function Clamped(s: Sample): (r: Option<(nat, nat)>)
    ensures r.Some? <==> IsAdeno(s) && s.coresPositive != "" && s.coresPositive != "N/A"
                         && App2Js.ParseFraction(s.coresPositive).Some?
                         && App2Js.ParseFraction(s.coresPositive).value.1 != 0
    ensures r.Some? ==> 1 <= r.value.1 <= SiteCap(LowerStr(s.location)) && r.value.0 <= r.value.1
    ensures r.Some? ==> var (x, y) := App2Js.ParseFraction(s.coresPositive).value;
                        r.value.1 <= y && r.value.0 <= x
                        && (r.value.1 < y ==> r.value.1 == SiteCap(LowerStr(s.location)))
                        && (r.value.0 < x ==> r.value.0 == r.value.1)
  {
    if !IsAdeno(s) || s.coresPositive == "" || s.coresPositive == "N/A" then None
    else match App2Js.ParseFraction(s.coresPositive)
      case None => None
      case Some((x, y)) =>
        if y == 0 then None
        else
          var cap := SiteCap(LowerStr(s.location));
          var cy := if y > cap then cap else y;
          Some((if x > cy then cy else x, cy))
  }

  function Pos(s: Sample): nat {
    match Clamped(s)
    case Some((x, _)) => x
    case None => 0
  }

  function Total(s: Sample): nat {
    match Clamped(s)
    case Some((_, y)) => y
    case None => 0
  }

  /** A record adds no core exactly when it is skipped. */
  lemma TotalZeroIffSkipped(s: Sample)
    ensures Total(s) == 0 <==> Clamped(s).None?
  {
  }

  /** The totals sum to 0 exactly when every record is skipped, since a
      record that counts adds at least one core. */
  lemma TotalZeroIff(ss: seq<Sample>)
    ensures SumOf(Total, ss) == 0 <==> forall k :: 0 <= k < |ss| ==> Clamped(ss[k]).None?
  {
    SumOfZeroIff(Total, ss);
    forall k | 0 <= k < |ss| {
      TotalZeroIffSkipped(ss[k]);
    }
  }

  /** computePositiveCores: (0, 14) when the clamped totals sum to 0,
      otherwise the summed clamped positives over the summed clamped totals. */
  method ComputePositiveCores(samples: seq<Sample>) returns (posCores: nat, totalCores: nat)
    ensures SumOf(Total, samples) == 0 ==> posCores == 0 && totalCores == 14
    ensures SumOf(Total, samples) != 0 ==> posCores == SumOf(Pos, samples) && totalCores == SumOf(Total, samples)
    ensures posCores <= totalCores
  {
    var sumPos, sumTotal := 0, 0;
    for i := 0 to |samples|
      invariant sumPos == SumOf(Pos, samples[..i])
      invariant sumTotal == SumOf(Total, samples[..i])
      invariant sumPos <= sumTotal
    {
      var s := samples[i];
      SumOfSnoc(Pos, samples, i);
      SumOfSnoc(Total, samples, i);
      if !Contains(LowerStr(DxName(s.diagnosis)), "adeno") {
        continue;
      }
      if s.coresPositive == "" || s.coresPositive == "N/A" {
        continue;
      }
      var m := App2Js.ParseFraction(s.coresPositive);
      if m.None? {
        continue;
      }
      var x, y := m.value.0, m.value.1;
      if y == 0 {
        continue;
      }
      var maxForThisSample := SiteCap(LowerStr(s.location));
      if y > maxForThisSample {
        y := maxForThisSample;
      }
      if x > y {
        x := y;
      }
      assert Clamped(s) == Some((x, y));
      sumPos := sumPos + x;
      sumTotal := sumTotal + y;
    }
    assert samples[..|samples|] == samples;
    if sumTotal == 0 {
      posCores, totalCores := 0, 14;
    } else {
      posCores, totalCores := sumPos, sumTotal;
    }
  }

  // ---------------------------------------------------------------------
  // calcNCCNRiskGroup, gleasonSumToGGG, mapPsaRangeToNumeric,
  // getHighestNccnRisk (app_2.js:12-56, 448-477)
  // ---------------------------------------------------------------------

  /** The five RISK_ORDER levels. */
  datatype Risk = VeryLow | Low | Intermediate | High | VeryHigh

  function RiskName(r: Risk): string {
    match r
    case VeryLow => "Very Low"
    case Low => "Low"
    case Intermediate => "Intermediate"
    case High => "High"
    case VeryHigh => "Very High"
  }

  /** RISK_ORDER. */
  function RiskRank(r: Risk): (n: nat)
    ensures 1 <= n <= 5
  {
    match r
    case VeryLow => 1
    case Low => 2
    case Intermediate => 3
    case High => 4
    case VeryHigh => 5
  }

  /** The "Low" test: stage number at most 2, sum at most 6, PSA "<10". */
  predicate LowTest(psaRange: string, gleasonSum: nat, tStage: string) {
    ParseTStageNumber(tStage) <= 2 && gleasonSum <= 6 && psaRange == "<10"
  }

  predicate IntermediateTest(psaRange: string, gleasonSum: nat, tStage: string) {
    gleasonSum == 7 || psaRange == "10-20" || ParseTStageNumber(tStage) == 2
  }

  predicate HighTest(psaRange: string, gleasonSum: nat, tStage: string) {
    gleasonSum >= 8 || ParseTStageNumber(tStage) >= 3 || psaRange == ">20"
  }

  /** "T1c" has stage number 1. */
  lemma T1cStage()
    ensures ParseTStageNumber("T1c") == 1
  {
    var l := LowerStr("T1c");
    assert l[0] == 't' && l[1] == '1' && l[2] == 'c';
    DigitRunEndAt(l, 1, 2);
    assert l[1..2] == "1";
  }

  /** calcNCCNRiskGroup: Very Low needs the exact stage "T1c"; after the Very
      Low and Low tests, Gleason 7, PSA "10-20" or stage 2 gives Intermediate
      whatever the stage; Very High needs the exact stage "T3b" or "T4" with a
      high criterion; with no test passing the result is Low. */
  function CalcNccnRiskGroup(psaRange: string, gleasonSum: nat, tStage: string): (r: Risk)
    ensures r == VeryLow <==> tStage == "T1c" && gleasonSum <= 6 && psaRange == "<10"
    ensures r == Intermediate <==> !LowTest(psaRange, gleasonSum, tStage) && IntermediateTest(psaRange, gleasonSum, tStage)
    ensures r == VeryHigh <==> !LowTest(psaRange, gleasonSum, tStage) && !IntermediateTest(psaRange, gleasonSum, tStage)
                               && HighTest(psaRange, gleasonSum, tStage) && (tStage == "T3b" || tStage == "T4")
    ensures r == High <==> !LowTest(psaRange, gleasonSum, tStage) && !IntermediateTest(psaRange, gleasonSum, tStage)
                           && HighTest(psaRange, gleasonSum, tStage) && tStage != "T3b" && tStage != "T4"
    ensures r == Low <==> (LowTest(psaRange, gleasonSum, tStage) && tStage != "T1c")
                          || (!LowTest(psaRange, gleasonSum, tStage) && !IntermediateTest(psaRange, gleasonSum, tStage)
                              && !HighTest(psaRange, gleasonSum, tStage))
    ensures gleasonSum == 7 || psaRange == "10-20" ==> r == Intermediate
  {
    T1cStage();
    var stageNum := ParseTStageNumber(tStage);
    if tStage == "T1c" && gleasonSum <= 6 && psaRange == "<10" then VeryLow
    else if stageNum <= 2 && gleasonSum <= 6 && psaRange == "<10" then Low
    else if gleasonSum == 7 || psaRange == "10-20" || stageNum == 2 then Intermediate
    else if gleasonSum >= 8 || stageNum >= 3 || psaRange == ">20" then
      if tStage == "T3b" || tStage == "T4" then VeryHigh else High
    else Low
  }

  /** gleasonSumToGGG: the same conversion as app2.js's gleasonSumToGradeGroup. */
  function GleasonSumToGgg(sum: nat): (gg: nat)
    ensures gg == App2Js.GleasonSumToGradeGroup(sum)
    ensures sum <= 6 <==> gg == 1
    ensures 1 <= gg <= 5 && gg != 3
  {
    if sum <= 6 then 1 else if sum == 7 then 2 else if sum == 8 then 4 else 5
  }

  /** mapPsaRangeToNumeric: 5, 15 or 25 for the three ranges, 5 otherwise. */
  function MapPsaRangeToNumeric(rangeStr: string): (v: real)
    ensures v == 15.0 <==> rangeStr == "10-20"
    ensures v == 25.0 <==> rangeStr == ">20"
    ensures v == 5.0 <==> rangeStr != "10-20" && rangeStr != ">20"
  {
    if rangeStr == "<10" then 5.0
    else if rangeStr == "10-20" then 15.0
    else if rangeStr == ">20" then 25.0
    else 5.0
  }

  /** For every choice other than app2.js's manual "PSA" entry, the two
      generations send the nomogram the same number. */
  lemma PsaMapsAgree(rangeStr: string, manual: Option<real>)
    requires rangeStr != "PSA"
    ensures MapPsaRangeToNumeric(rangeStr) == App2Js.MapPsaRangeToNumeric(rangeStr, manual)
  {
  }

  /** getHighestNccnRisk over the reports' risk groups: the first of highest
      rank, "Low" for no reports. */
  method HighestNccnRisk(risks: seq<Risk>) returns (best: Risk)
    ensures risks == [] ==> best == Low
    ensures risks != [] ==> best in risks && forall k :: 0 <= k < |risks| ==> RiskRank(risks[k]) <= RiskRank(best)
  {
    best := HighestRisk(risks, RiskRank, Low);
    if risks != [] {
      assert RiskRank(risks[0]) > 0;
    }
  }
}
