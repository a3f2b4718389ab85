/** app.js: the first multi-report version. It tokenises every line of a
    report chunk (no final-diagnosis isolation), reduces a target-lesion
    location to "Target N", tags the diagnosis text with the features it
    mentions, and keeps a parsed chunk unless it has neither a specimen nor a
    collected date.

    extractGleasonScore, extractCoresPositive and formatCores are the same code
    as in app_2.js and are modelled once in App_2Js; chunkReports and
    parseCollectedDate are the ones in Reports. */
module AppJs {
  import opened Text
  import opened Scan
  import opened Reports
  import App2Js
  import App_2Js

  // ---------------------------------------------------------------------
  // parseShortDiagnosis (app.js:171-189)
  // ---------------------------------------------------------------------

  /** `electronically\s*signed\s*by`: each `\s*` is followed by a letter. */
  function SignedByIn(l: string): nat -> Option<((), nat)> {
    (j: nat) => Unit(Words(l, j, ["electronically", "signed", "by"], false))
  }

  /** `\bM\.?D\.?\b` on the lower-cased text. Taking the first optional dot
      when it is there is the only way on, since a dot is not a `d`. After
      the `d`, leaving the second dot out always satisfies `\b` when a dot
      follows, so the phrasing matches exactly when `\b` holds right after
      the `d`; the dot is kept when `\b` also holds after it. */
  function MdAt(l: string, j: nat): (r: Option<((), nat)>)
    ensures r.Some? ==> j < r.value.1 <= |l|
  {
    if j < |l| && l[j] == 'm' && Boundary(l, j) then
      var p := OptLit(l, j + 1, ".");
      if p < |l| && l[p] == 'd' && Boundary(l, p + 1) then
        Some(((), if OccursAt(l, ".", p + 1) && Boundary(l, p + 2) then p + 2 else p + 1))
      else None
    else None
  }

  function MdIn(l: string): nat -> Option<((), nat)> {
    (j: nat) => MdAt(l, j)
  }

  /** A signature line: "electronically signed by" or an M.D. token. */
  predicate IsSignature(l: string) {
    Matches(l, SignedByIn(l)) || Matches(l, MdIn(l))
  }

  datatype Tag = AdenoCA | SmallCell | Pni | Cribriform

  function TagName(t: Tag): string {
    match t
    case AdenoCA => "AdenoCA"
    case SmallCell => "SmallCell"
    case Pni => "PNI"
    case Cribriform => "Cribriform"
  }

  /** The order in which the tags are pushed. */
  function TagRank(t: Tag): nat {
    match t
    case AdenoCA => 0
    case SmallCell => 1
    case Pni => 2
    case Cribriform => 3
  }

  /** Whether the lower-cased text carries the phrase of tag `t`. */
  predicate Mentions(l: string, t: Tag) {
    match t
    case AdenoCA => Contains(l, "adenocarcinoma")
    case SmallCell => Contains(l, "small cell")
    case Pni => Contains(l, "perineural invasion")
    case Cribriform => Contains(l, "cribriform")
  }

  /** The `parts` list: a tag for each phrase present, pushed in a fixed
      order, so every present tag appears once, in that order. */
  function Tags(l: string): (parts: seq<Tag>)
    ensures forall t :: t in parts <==> Mentions(l, t)
    ensures forall i, k :: 0 <= i < k < |parts| ==> TagRank(parts[i]) < TagRank(parts[k])
  {
    (if Contains(l, "adenocarcinoma") then [AdenoCA] else [])
    + (if Contains(l, "small cell") then [SmallCell] else [])
    + (if Contains(l, "perineural invasion") then [Pni] else [])
    + (if Contains(l, "cribriform") then [Cribriform] else [])
  }

  /** The short diagnosis: "" for a signature, the tags joined with "; ",
      "Benign" or "N/A". */
  datatype ShortDx = Signature | Tagged(tags: seq<Tag>) | Benign | NotAvailable

  function DxText(d: ShortDx): string {
    match d
    case Signature => ""
    case Tagged(ts) => Join(Map(TagName, ts), "; ")
    case Benign => "Benign"
    case NotAvailable => "N/A"
  }

  /** parseShortDiagnosis: a signature gives ""; otherwise the tags present,
      in order; with no tag, "Benign" when the text says benign, else "N/A". */
  function ParseShortDiagnosis(txt: string): (d: ShortDx)
    ensures var l := LowerStr(txt);
            && (d == Signature <==> IsSignature(l))
            && (d.Tagged? <==> !IsSignature(l) && exists t :: Mentions(l, t))
            && (d.Tagged? ==> d.tags != [] && forall t :: t in d.tags <==> Mentions(l, t))
            && (d == Benign <==> !IsSignature(l) && (forall t :: !Mentions(l, t)) && Contains(l, "benign"))
            && (d == NotAvailable <==> !IsSignature(l) && (forall t :: !Mentions(l, t)) && !Contains(l, "benign"))
    ensures d.Tagged? ==> d.tags == Tags(LowerStr(txt))
  {
    var l := LowerStr(txt);
    if Matches(l, SignedByIn(l)) then Signature
    else if Matches(l, MdIn(l)) then Signature
    else
      var parts := Tags(l);
      if parts == [] then
        if Contains(l, "benign") then Benign else NotAvailable
      else
        assert Mentions(l, parts[0]);
        Tagged(parts)
  }

  /** A tag is never shown as anything but its own name, so a tagged
      diagnosis never reads as "", "Benign" or "N/A". */
  lemma TaggedTextIsDistinct(ts: seq<Tag>)
    requires ts != []
    ensures var s := DxText(Tagged(ts));
            s != [] && s != "Benign" && s != "N/A"
  {
    var names := Map(TagName, ts);
    var c := TagName(ts[0])[0];
    assert c != 'B' && c != 'N' by {
      match ts[0]
      case AdenoCA =>
      case SmallCell =>
      case Pni =>
      case Cribriform =>
    }
    JoinHead(names, "; ");
    assert DxText(Tagged(ts))[0] == c;
  }

  /** A join starts with the first part's first character. */
  lemma JoinHead(parts: seq<string>, sep: string)
    requires parts != [] && parts[0] != []
    ensures Join(parts, sep) != [] && Join(parts, sep)[0] == parts[0][0]
  {
  }

  // ---------------------------------------------------------------------
  // parseLocation (app.js:131-166)
  // ---------------------------------------------------------------------

  /** `PROSTATE[^,]*,\s*`: the run of non-commas stops at the first comma,
      which the phrasing then needs; with no comma there is no match. */
  function ProstateClauseAt(l: string, j: nat): Option<nat> {
    var a :- Lit(l, j, "prostate");
    match IndexOfChar(l, ',', a)
    case None => None
    case Some(k) => Some(Ws(l, k + 1))
  }

  /** `NEEDLE\s*CORE\s*BIOPSY` */
  function NeedleCoreBiopsyAt(l: string, j: nat): Option<nat> {
    Words(l, j, ["needle", "core", "biopsy"], false)
  }

  function LetterRunEnd(s: string, i: nat): (j: nat)
    ensures i <= j && (i <= |s| ==> j <= |s|)
    ensures forall k :: i <= k < j ==> k < |s| && IsLetter(s[k])
    decreases |s| - i
  {
    if i < |s| && IsLetter(s[i]) then LetterRunEnd(s, i + 1) else i
  }

  /** `LESION\s*ZONE\s*[A-Z]+\s*-\s*`: the letter run ends before a space or
      the dash, which no shorter run could reach either. */
  function LesionZoneAt(l: string, j: nat): Option<nat> {
    var a :- Words(l, j, ["lesion", "zone"], false);
    var b := Ws(l, a);
    var c := LetterRunEnd(l, b);
    if c == b then None
    else
      var d :- Lit(l, Ws(l, c), "-");
      Some(Ws(l, d))
  }

  /** `\bMRI\s*DIRECTED\s*(NEEDLE\s*CORE\s*BIOPSY)?`: the group is taken when
      it is there; nothing follows it, so leaving it out is never needed. */
  function MriDirectedAt(l: string, j: nat): Option<nat> {
    if !Boundary(l, j) then None
    else
      var a :- Words(l, j, ["mri", "directed"], false);
      var k := Ws(l, a);
      match Words(l, k, ["needle", "core", "biopsy"], false)
      case Some(e) => Some(e)
      case None => Some(k)
  }

  /** The location with its four boilerplate phrases removed (the first
      match of each), whitespace runs collapsed, trimmed. */
  function Cleaned(loc: string): string {
    var s1 := ReplaceFirstCI(loc, ProstateClauseAt, "");
    var s2 := ReplaceFirstCI(s1, NeedleCoreBiopsyAt, "");
    var s3 := ReplaceFirstCI(s2, LesionZoneAt, "");
    var s4 := ReplaceFirstCI(s3, MriDirectedAt, "");
    Trim(CollapseSpaces(s4))
  }

  /** `target\s*#(\d+)`: the number as text. */
  function TargetHashAt(l: string, j: nat): (r: Option<(string, nat)>)
    ensures r.Some? ==> j < r.value.1 <= |l| && |r.value.0| >= 1 && AllDigits(r.value.0)
  {
    var a :- Lit(l, j, "target");
    var b :- Lit(l, Ws(l, a), "#");
    DigitText(l, b)
  }

  function TargetHashIn(l: string): nat -> Option<(string, nat)> {
    (j: nat) => TargetHashAt(l, j)
  }

  /** `str.replace(/target\s*#(\d+)/i, "Target $1")`. */
  function RenameTarget(s: string): string {
    match FirstHit(TargetHashIn(LowerStr(s)), 0, |s|)
    case None => s
    case Some(h) => if h.end <= |s| then s[..h.start] + "Target " + h.value + s[h.end..] else s
  }

  /** Renaming a `target #N` leaves "Target N" where it stood, so the
      keep-only-the-target step of parseLocation always fires after it. */
  lemma RenamedHashIsTarget(s: string)
    requires Matches(LowerStr(s), TargetHashIn(LowerStr(s)))
    ensures TargetText(RenameTarget(s)).Some?
  {
    var l := LowerStr(s);
    var h := FirstHit(TargetHashIn(l), 0, |s|).value;
    assert TargetHashAt(l, h.start) == Some((h.value, h.end));
    var r := s[..h.start] + "Target " + h.value + s[h.end..];
    assert RenameTarget(s) == r;
    InsertedTarget(s[..h.start], h.value, s[h.end..]);
  }

  /** "Target " and a number spliced into a text make it a target. */
  lemma InsertedTarget(pre: string, n: string, post: string)
    requires n != [] && IsDigit(n[0])
    ensures TargetText(pre + "Target " + n + post).Some?
  {
    var r := pre + "Target " + n + post;
    var a := |pre|;
    assert r[a..a + 7] == "Target ";
    assert r[a + 7] == n[0];
    TargetAt(r, a);
  }

  /** "Target " followed by a digit anywhere makes the text a target. */
  lemma TargetAt(r: string, a: nat)
    requires a + 7 < |r| && r[a..a + 7] == "Target " && IsDigit(r[a + 7])
    ensures TargetText(r).Some?
  {
    var lr := LowerStr(r);
    forall k | 0 <= k < 6
      ensures lr[a + k] == "target"[k]
    {
      assert r[a + k] == "Target "[k];
    }
    assert lr[a..a + 6] == "target";
    assert OccursAt(lr, "target", a);
    assert IsDigit(lr[a + 7]);
    assert Ws(lr, a + 6) == a + 7;
    assert DigitRunEnd(lr, a + 7) > a + 7;
    assert LooseTargetIn(lr)(a).Some?;
  }

  /** `Target\s*\d+`, case-insensitive. */
  function LooseTargetAt(l: string, j: nat): Option<nat> {
    var a :- Lit(l, j, "target");
    var b := Ws(l, a);
    var c := DigitRunEnd(l, b);
    if c > b then Some(c) else None
  }

  /** The phrasing with the bounds of its match as the captured value. */
  function LooseTargetIn(l: string): nat -> Option<((nat, nat), nat)> {
    (j: nat) => match LooseTargetAt(l, j) case Some(e) => Some(((j, e), e)) case None => None
  }

  /** The text of the leftmost `Target\s*\d+` match, if any. */
  function TargetText(s: string): (r: Option<string>)
    ensures r.Some? <==> Matches(LowerStr(s), LooseTargetIn(LowerStr(s)))
    ensures r.Some? ==> |r.value| >= 7 && IsTargetWord(r.value) && IsDigit(r.value[|r.value| - 1])
  {
    var l := LowerStr(s);
    match Search(l, LooseTargetIn(l))
    case None => None
    case Some(bounds) =>
      var (a, e) := bounds;
      LeftmostBounds(l, LooseTargetIn(l));
      LooseTargetShape(s, a);
      Some(s[a..e])
  }

  /** The bounds Search hands back are those of a match of the phrasing. */
  lemma LeftmostBounds(l: string, f: nat -> Option<((nat, nat), nat)>)
    requires forall j: nat :: f(j).Some? ==> f(j).value.0 == (j, f(j).value.1)
    requires Search(l, f).Some?
    ensures var (a, e) := Search(l, f).value; f(a) == Some(((a, e), e))
  {
    var h := FirstHit(f, 0, |l|).value;
    assert f(h.start) == Some((h.value, h.end));
  }

  /** Starts with "target" in some mix of cases. */
  predicate IsTargetWord(t: string) {
    |t| >= 6 && LowerStr(t[..6]) == "target"
  }

  lemma LooseTargetShape(s: string, j: nat)
    requires LooseTargetAt(LowerStr(s), j).Some?
    ensures var e := LooseTargetAt(LowerStr(s), j).value;
            j + 7 <= e <= |s| && IsTargetWord(s[j..e]) && IsDigit(s[e - 1])
  {
    var l := LowerStr(s);
    var e := LooseTargetAt(l, j).value;
    var b := Ws(l, j + 6);
    assert IsDigit(l[e - 1]);
    assert LowerStr(s[j..e][..6]) == l[j..j + 6];
  }

  /** The steps of parseLocation after the rename: keep only the leftmost
      "Target N" when there is one, drop a trailing colon and a leading
      "label ". */
  function Tail(s6: string, letter: char): string {
    var s7 := match TargetText(s6) case Some(t) => t case None => s6;
    var s8 := ReplaceFirstCI(s7, App2Js.TrailingColon, "");
    App_2Js.DropLabel(s8, letter)
  }

  /** Everything parseLocation does before the final trim. */
  function Reduced(loc: string, letter: char): string {
    Tail(RenameTarget(Cleaned(loc)), letter)
  }

  /** parseLocation: the reduced location, trimmed, or "N/A" when nothing
      is left; never empty. */
  function ParseLocation(loc: string, letter: char): (r: string)
    ensures r != []
    ensures r == "N/A" || (!IsSpace(r[0]) && !IsSpace(r[|r| - 1]))
  {
    var t := Trim(Reduced(loc, letter));
    if t == [] then "N/A" else t
  }

  /** A string that already starts and ends with a non-space is its own trim. */
  lemma TrimNoop(s: string)
    requires s != [] && !IsSpace(s[0]) && !IsSpace(s[|s| - 1])
    ensures Trim(s) == s
  {
  }

  /** Text ending in a digit has no trailing colon to remove. */
  lemma NoTrailingColon(t: string)
    requires t != [] && IsDigit(t[|t| - 1])
    ensures ReplaceFirstCI(t, App2Js.TrailingColon, "") == t
  {
    var l := LowerStr(t);
    assert IsDigit(l[|l| - 1]);
    forall j: nat ensures App2Js.TrailingColon(l, j).None? {
      if j < |l| && l[j] == ':' {
        assert Ws(l, j + 1) <= |l| - 1;
      }
    }
    App_2Js.NoMatchNoChange(t, App2Js.TrailingColon);
  }

  /** A "Target N" text survives the last three steps unchanged: it ends in
      a digit, so no trailing colon, and its second letter is not a space,
      so no label prefix. */
  lemma TargetSurvivesTail(t: string, letter: char)
    requires |t| >= 7 && IsTargetWord(t) && IsDigit(t[|t| - 1])
    ensures Trim(App_2Js.DropLabel(ReplaceFirstCI(t, App2Js.TrailingColon, ""), letter)) == t
  {
    NoTrailingColon(t);
    assert LowerStr(t[..6])[1] == 'a';
    assert !HasPrefix(t, [letter, ' ']);
    TrimNoop(t);
  }

  /** Once "Target N" appears in any form, the tail steps leave exactly
      its leftmost mention. */
  lemma TailKeepsTarget(s6: string, letter: char)
    requires TargetText(s6).Some?
    ensures Trim(Tail(s6, letter)) == TargetText(s6).value
  {
    TargetSurvivesTail(TargetText(s6).value, letter);
  }

  /** When the cleaned location mentions "Target N" in any form, the result
      is exactly the leftmost such mention. */
  lemma TargetWins(loc: string, letter: char)
    requires TargetText(RenameTarget(Cleaned(loc))).Some?
    ensures ParseLocation(loc, letter) == TargetText(RenameTarget(Cleaned(loc))).value
  {
    var s6 := RenameTarget(Cleaned(loc));
    TailKeepsTarget(s6, letter);
    assert Trim(Reduced(loc, letter)) == TargetText(s6).value;
  }

  // ---------------------------------------------------------------------
  // extractMaxCoreSize (app.js:222-234)
  // ---------------------------------------------------------------------

  /** extractMaxCoreSize: whitespace runs are collapsed first, then the
      app_2.js exec loop runs on the result. */
  method ExtractMaxCoreSize(text: string) returns (r: string)
    ensures r == App_2Js.SizeText(App_2Js.MaxCoreSize(CollapseSpaces(text)))
    ensures r == "N/A" <==> App_2Js.Sizes(CollapseSpaces(text)) == []
  {
    r := App_2Js.ExtractMaxCoreSize(CollapseSpaces(text));
  }

  // ---------------------------------------------------------------------
  // parseSamples and finalizeSample (app.js:69-124)
  // ---------------------------------------------------------------------

  datatype Sample = Sample(sampleLabel: char, location: string, diagnosis: ShortDx,
                           gleasonScore: string, coresPositive: string, maxCoreSize: string)

  /** finalizeSample: the diagnosis lines are joined with single spaces and
      read as they are, without collapsing or trimming. */
  function Finalized(s: RawSample): (r: Sample)
    ensures r.sampleLabel == s.sampleLabel
  {
    var d := Join(s.diagnosisLines, " ");
    Sample(s.sampleLabel, ParseLocation(Join(s.locationLines, " "), s.sampleLabel),
           ParseShortDiagnosis(d), App_2Js.ExtractGleasonScore(d), App_2Js.ExtractCoresPositive(d),
           App_2Js.SizeText(App_2Js.MaxCoreSize(CollapseSpaces(d))))
  }

  method FinalizeSample(s: RawSample) returns (r: Sample)
    ensures r == Finalized(s)
  {
    var d := Join(s.diagnosisLines, " ");
    var size := ExtractMaxCoreSize(d);
    r := Sample(s.sampleLabel, ParseLocation(Join(s.locationLines, " "), s.sampleLabel),
                ParseShortDiagnosis(d), App_2Js.ExtractGleasonScore(d), App_2Js.ExtractCoresPositive(d), size);
  }

  /** `text.split(/\r?\n/)` with every line trimmed, as parseSamples reads it. */
  function ChunkLines(text: string): seq<string> {
    TrimAll(SplitLines(text))
  }

  /** The records parseSamples returns for a chunk. */
  function SamplesOf(text: string): seq<Sample> {
    Map(Finalized, TokenizeFrom(ChunkLines(text), LetterHeader, None))
  }

  /** parseSamples: every trimmed line of the chunk is tokenised, with no
      final-diagnosis isolation; one record per header line, in order. */
  method ParseSamples(text: string) returns (samples: seq<Sample>)
    ensures samples == SamplesOf(text)
    ensures var hs := HeaderLabels(ChunkLines(text), LetterHeader);
            |samples| == |hs| && forall k :: 0 <= k < |hs| ==> samples[k].sampleLabel == hs[k]
  {
    var raw := Tokenize(ChunkLines(text), LetterHeader);
    TokenizeLabels(ChunkLines(text), LetterHeader, None);
    samples := FinalizeAll(raw);
    forall k | 0 <= k < |raw|
      ensures samples[k].sampleLabel == raw[k].sampleLabel
    {
      assert samples[k] == Finalized(raw[k]);
    }
    assert Labels(raw) == HeaderLabels(ChunkLines(text), LetterHeader);
  }

  /** The samples pushed, each finalised as it is closed. */
  method FinalizeAll(raw: seq<RawSample>) returns (samples: seq<Sample>)
    ensures samples == Map(Finalized, raw)
  {
    samples := [];
    for i := 0 to |raw|
      invariant samples == Map(Finalized, raw[..i])
    {
      var s := FinalizeSample(raw[i]);
      MapSnoc(Finalized, raw, i);
      samples := samples + [s];
    }
    assert raw[..|raw|] == raw;
  }

  // ---------------------------------------------------------------------
  // parseSingleReport and the skip rule (app.js:13-42, 55-59)
  // ---------------------------------------------------------------------

  datatype Parsed = Parsed(collectedDate: string, samples: seq<Sample>)

  datatype Report = Report(date: string, samples: seq<Sample>)

  /** What parseSingleReport returns for a chunk. */
  function ParseOf(txt: string): Parsed {
    Parsed(ParseCollectedDate(txt), SamplesOf(txt))
  }

  method ParseSingleReport(txt: string) returns (p: Parsed)
    ensures p == ParseOf(txt)
  {
    var date := ParseCollectedDate(txt);
    var samples := ParseSamples(txt);
    p := Parsed(date, samples);
  }

  /** `parsed.collectedDate || "Unknown"` */
  function FinalDate(date: string): string {
    if date == [] then "Unknown" else date
  }

  /** The skip rule: a parsed chunk is dropped when it has no specimen and
      its date is unknown; otherwise it is pushed under its final date. */
  function KeptReport(p: Parsed): (r: Option<Report>)
    ensures r.None? <==> |p.samples| == 0 && FinalDate(p.collectedDate) == "Unknown"
    ensures r.Some? ==> r.value.samples == p.samples && (p.collectedDate != [] ==> r.value.date == p.collectedDate)
  {
    var date := FinalDate(p.collectedDate);
    if |p.samples| == 0 && date == "Unknown" then None else Some(Report(date, p.samples))
  }

  /** What the click handler pushes for one chunk. */
  function ReportOf(chunk: string): Option<Report> {
    KeptReport(ParseOf(chunk))
  }

  /** A chunk is dropped exactly when it has no header line and no
      collected date. */
  lemma ChunkDroppedIff(chunk: string)
    ensures ReportOf(chunk).None? <==> HeaderLabels(ChunkLines(chunk), LetterHeader) == [] && ParseCollectedDate(chunk) == []
  {
    TokenizeLabels(ChunkLines(chunk), LetterHeader, None);
    DateIsNotUnknown(ParseCollectedDate(chunk));
  }

  /** A collected date is made of digits, slashes and dashes, so it is never
      the word "Unknown": only a missing date counts as unknown. */
  lemma DateIsNotUnknown(date: string)
    requires forall k :: 0 <= k < |date| ==> IsDateChar(date[k])
    ensures FinalDate(date) == "Unknown" <==> date == []
  {
    if date != [] {
      assert IsDateChar(date[0]);
    }
  }

  /** What one parsed chunk contributes: its report, or nothing. */
  function Pushed(p: Parsed): seq<Report> {
    match KeptReport(p)
    case Some(rep) => [rep]
    case None => []
  }

  /** The reports pushed for a list of parsed chunks, in order. */
  function KeptAll(ps: seq<Parsed>): (r: seq<Report>)
    ensures |r| <= |ps|
    decreases |ps|
  {
    if ps == [] then [] else KeptAll(ps[..|ps| - 1]) + Pushed(ps[|ps| - 1])
  }

  /** One more parsed chunk adds what it contributes at the end. */
  lemma KeptAllSnoc(ps: seq<Parsed>, p: Parsed)
    ensures KeptAll(ps + [p]) == KeptAll(ps) + Pushed(p)
  {
    assert (ps + [p])[..|ps|] == ps;
  }

  /** The skip test decides what a parsed chunk contributes. */
  lemma PushedIs(p: Parsed)
    ensures var date := FinalDate(p.collectedDate);
            Pushed(p) == if |p.samples| == 0 && date == "Unknown" then [] else [Report(date, p.samples)]
  {
  }

  /** The reports pushed for a list of chunks. */
  function ReportsOf(chunks: seq<string>): seq<Report> {
    KeptAll(Map(ParseOf, chunks))
  }

  /** The `chunks.forEach` loop of the click handler: each chunk is parsed
      in turn and appended to the reports unless it is truly empty. */
  method PushReports(allReports: seq<Report>, chunks: seq<string>) returns (reports: seq<Report>)
    ensures reports == allReports + ReportsOf(chunks)
  {
    reports := allReports;
    ghost var ps: seq<Parsed> := [];
    for i := 0 to |chunks|
      invariant ps == Map(ParseOf, chunks[..i])
      invariant reports == allReports + KeptAll(ps)
    {
      var parsed := ParseSingleReport(chunks[i]);
      MapSnoc(ParseOf, chunks, i);
      KeptAllSnoc(ps, parsed);
      PushedIs(parsed);
      var finalDate := FinalDate(parsed.collectedDate);
      // a truly empty chunk is skipped
      if !(|parsed.samples| == 0 && finalDate == "Unknown") {
        AppendAssoc(allReports, KeptAll(ps), [Report(finalDate, parsed.samples)]);
        reports := reports + [Report(finalDate, parsed.samples)];
      } else {
        assert KeptAll(ps) + [] == KeptAll(ps);
      }
      ps := ps + [parsed];
    }
    assert chunks[..|chunks|] == chunks;
  }

  /** The click handler (app.js:13-42), with `allReports` passed in and
      out: blank input changes nothing; otherwise the trimmed text is split
      into chunks and every chunk that is not truly empty is appended. */
  method AddReports(allReports: seq<Report>, rawText: string) returns (reports: seq<Report>)
    ensures reports == if Trim(rawText) == [] then allReports
                       else allReports + ReportsOf(ChunkReports(Trim(rawText)))
  {
    var raw := Trim(rawText);
    if raw == [] {
      return allReports;
    }
    var chunks := ChunkReports(raw);
    if |chunks| == 0 {
      return allReports;
    }
    reports := PushReports(allReports, chunks);
  }
}
