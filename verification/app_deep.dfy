/** app_deep.js: the earliest prototype. One `g`/`s`-flagged regular
    expression walks a report, specimen by specimen; a specimen yields a table
    entry only when its details state a Gleason score, a cores phrase and a
    tumour length, all in upper case. The risk column comes from a small
    table keyed on the Gleason text.

    Every phrasing here is case-sensitive, so the matchers read the text as it
    is, without lower-casing. */
module AppDeepJs {
  import opened Text
  import opened Scan

  // ---------------------------------------------------------------------
  // The specimen phrasing (app_deep.js:29)
  //   ([A-Z]\)? PROSTATE(?: NEEDLE BX)? - ([A-Z\s]+)):(.*?)(?=\n[A-Z]\)|$)
  // ---------------------------------------------------------------------

  /** The three captures of one specimen match, already trimmed as
      extractDataFromReport trims them. */
  datatype SampleMatch = SampleMatch(sample: string, location: string, details: string)

  /** End of the `[A-Z\s]*` run starting at `i`. */
  function UpperOrSpaceRunEnd(s: string, i: nat): (j: nat)
    ensures i <= j && (i <= |s| ==> j <= |s|)
    ensures forall k :: i <= k < j ==> k < |s| && (IsUpper(s[k]) || IsSpace(s[k]))
    ensures j < |s| ==> !IsUpper(s[j]) && !IsSpace(s[j])
    decreases |s| - i
  {
    if i < |s| && (IsUpper(s[i]) || IsSpace(s[i])) then UpperOrSpaceRunEnd(s, i + 1) else i
  }

  /** The lookahead `(?=\n[A-Z]\))`: a newline, a capital and a parenthesis. */
  predicate NextHeaderAt(s: string, k: nat) {
    k + 2 < |s| && s[k] == '\n' && IsUpper(s[k + 1]) && s[k + 2] == ')'
  }

  /** Where the lazy `(.*?)` stops: the first position from `i` on where the
      next specimen header starts, or the end of the report (without the `m`
      flag, `$` is the end of the input; with the `s` flag, `.` crosses lines). */
  function DetailsEnd(s: string, i: nat): (k: nat)
    requires i <= |s|
    ensures i <= k <= |s|
    ensures k == |s| || NextHeaderAt(s, k)
    ensures forall m :: i <= m < k ==> !NextHeaderAt(s, m)
    decreases |s| - i
  {
    if i < |s| && !NextHeaderAt(s, i) then DetailsEnd(s, i + 1) else i
  }

  /** The specimen phrasing at `j`. Each optional part is taken when present:
      when `)` or ` NEEDLE BX` is there but the literal after it does not
      follow, leaving the option out puts that same character where the next
      literal must start, so that choice fails too. `[A-Z\s]+` stops at the
      first character outside its class, which must then be the colon. */
  function SampleAt(s: string, j: nat): (r: Option<(SampleMatch, nat)>)
    ensures r.Some? ==> j < r.value.1 <= |s|
  {
    if j < |s| && IsUpper(s[j]) then
      var a := OptLit(s, j + 1, ")");
      var b :- Lit(s, a, " PROSTATE");
      var c := OptLit(s, b, " NEEDLE BX");
      var d :- Lit(s, c, " - ");
      var e := UpperOrSpaceRunEnd(s, d);
      if d < e < |s| && s[e] == ':' then
        var k := DetailsEnd(s, e + 1);
        Some((SampleMatch(Trim(s[j..e]), Trim(s[d..e]), Trim(s[e + 1..k])), k))
      else None
    else None
  }

  function SampleIn(s: string): nat -> Option<(SampleMatch, nat)> {
    (j: nat) => SampleAt(s, j)
  }

  // ---------------------------------------------------------------------
  // The three detail phrasings (app_deep.js:37-39)
  // ---------------------------------------------------------------------

  // In each phrasing a digit run is followed by a literal that starts with a
  // space, so the greedy run is the only one that can succeed.

  /** `PROSTATIC ADENOCARCINOMA, GLEASON SCORE (\d+ \+ \d+ = \d+)`: the
      captured score text. */
  function GleasonAt(t: string, j: nat): (r: Option<(string, nat)>)
    ensures r.Some? ==> j < r.value.1 <= |t| && ScoreChars(r.value.0)
  {
    var a :- Lit(t, j, "PROSTATIC ADENOCARCINOMA, GLEASON SCORE ");
    var (_, b) :- DigitText(t, a);
    var c :- Lit(t, b, " + ");
    var (_, d) :- DigitText(t, c);
    var e :- Lit(t, d, " = ");
    var (_, f) :- DigitText(t, e);
    ScoreCharsAt(t, a, b, c, d, e, f);
    Some((t[a..f], f))
  }

  /** The characters a captured score is made of. */
  predicate ScoreChars(g: string) {
    forall i :: 0 <= i < |g| ==> IsDigit(g[i]) || g[i] in " +="
  }

  lemma ScoreCharsAt(t: string, a: nat, b: nat, c: nat, d: nat, e: nat, f: nat)
    requires a < b < c < d < e < f <= |t|
    requires forall i :: a <= i < b ==> IsDigit(t[i])
    requires c == b + 3 && t[b..c] == " + "
    requires forall i :: c <= i < d ==> IsDigit(t[i])
    requires e == d + 3 && t[d..e] == " = "
    requires forall i :: e <= i < f ==> IsDigit(t[i])
    ensures ScoreChars(t[a..f])
  {
    forall i | a <= i < f
      ensures IsDigit(t[i]) || t[i] in " +="
    {
      if b <= i < c {
        assert t[i] == t[b..c][i - b];
      } else if d <= i < e {
        assert t[i] == t[d..e][i - d];
      }
    }
  }

  function GleasonIn(t: string): nat -> Option<(string, nat)> {
    (j: nat) => GleasonAt(t, j)
  }

  /** `INVOLVING (\d+) OF (\d+) CORES`: both digit runs as text. */
  function CoresAt(t: string, j: nat): (r: Option<((string, string), nat)>)
    ensures r.Some? ==> var (x, y) := r.value.0;
            |x| >= 1 && AllDigits(x) && |y| >= 1 && AllDigits(y)
  {
    var a :- Lit(t, j, "INVOLVING ");
    var (x, b) :- DigitText(t, a);
    var c :- Lit(t, b, " OF ");
    var (y, d) :- DigitText(t, c);
    var e :- Lit(t, d, " CORES");
    Some(((x, y), e))
  }

  function CoresIn(t: string): nat -> Option<((string, string), nat)> {
    (j: nat) => CoresAt(t, j)
  }

  /** `TUMOR MEASURES (\d+) MM`: the length as text. */
  function LengthAt(t: string, j: nat): (r: Option<(string, nat)>)
    ensures r.Some? ==> |r.value.0| >= 1 && AllDigits(r.value.0)
  {
    var a :- Lit(t, j, "TUMOR MEASURES ");
    var (v, b) :- DigitText(t, a);
    var c :- Lit(t, b, " MM");
    Some((v, c))
  }

  function LengthIn(t: string): nat -> Option<(string, nat)> {
    (j: nat) => LengthAt(t, j)
  }

  // ---------------------------------------------------------------------
  // calculateNCCNRiskGroup (app_deep.js:61-75)
  // ---------------------------------------------------------------------

  datatype DeepRisk = Low | IntermediateFav | IntermediateUnfav | High | Unknown

  function DeepRiskName(r: DeepRisk): string {
    match r
    case Low => "Low"
    case IntermediateFav => "Intermediate Fav"
    case IntermediateUnfav => "Intermediate Unfav"
    case High => "High"
    case Unknown => "Unknown"
  }

  /** `(x / y) * 100 < 50` for the numbers the digit runs denote. With y = 0
      the quotient is Infinity (x > 0) or NaN (x = 0), and neither is below 50. */
  predicate Below50(x: nat, y: nat) {
    y > 0 && 2 * x < y
  }

  /** The first `includes` test that passes decides; the core percentage is
      consulted only for "Gleason 3 + 3". */
  function CalculateNccnRiskGroup(diagnosis: string, x: nat, y: nat): (r: DeepRisk)
    ensures var c33 := Contains(diagnosis, "Gleason 3 + 3");
            var c34 := Contains(diagnosis, "Gleason 3 + 4");
            var c43 := Contains(diagnosis, "Gleason 4 + 3");
            var hi := Contains(diagnosis, "Gleason 4 + 4") || Contains(diagnosis, "Gleason 5");
            && (r == Low <==> c33 && Below50(x, y))
            && (r == IntermediateFav <==> (c33 && !Below50(x, y)) || (!c33 && c34))
            && (r == IntermediateUnfav <==> !c33 && !c34 && c43)
            && (r == High <==> !c33 && !c34 && !c43 && hi)
            && (r == Unknown <==> !c33 && !c34 && !c43 && !hi)
  {
    if Contains(diagnosis, "Gleason 3 + 3") then
      (if Below50(x, y) then Low else IntermediateFav)
    else if Contains(diagnosis, "Gleason 3 + 4") then IntermediateFav
    else if Contains(diagnosis, "Gleason 4 + 3") then IntermediateUnfav
    else if Contains(diagnosis, "Gleason 4 + 4") || Contains(diagnosis, "Gleason 5") then High
    else Unknown
  }

  /** Outside "Gleason 3 + 3" the core counts make no difference. */
  lemma PercentOnlyFor33(diagnosis: string, x: nat, y: nat, x': nat, y': nat)
    requires !Contains(diagnosis, "Gleason 3 + 3")
    ensures CalculateNccnRiskGroup(diagnosis, x, y) == CalculateNccnRiskGroup(diagnosis, x', y')
  {
  }

  /** The path summary is "Gleason " followed by the captured score, and a
      score has no capital G, so a test `includes("Gleason " + p)` reads only
      the front of the score: it passes exactly when the score starts with `p`. */
  lemma {:induction false} SummaryReadsScorePrefix(g: string, p: string)
    requires ScoreChars(g)
    ensures Contains("Gleason " + g, "Gleason " + p) <==> HasPrefix(g, p)
  {
    var s := "Gleason " + g;
    var q := "Gleason " + p;
    ContainsIff(s, q);
    if HasPrefix(g, p) {
      assert s[..|q|] == q;
      assert OccursAt(s, q, 0);
    }
    if i: nat :| OccursAt(s, q, i) {
      assert s[i] == 'G' by { assert s[i..i + |q|][0] == s[i]; }
      assert i == 0;
      assert g[..|p|] == s[8..|q|];
    }
  }

  /** For an entry's summary the table reads only the front of the score:
      3 + 3 is Low below half the cores and Intermediate Fav otherwise, 3 + 4
      is Intermediate Fav, 4 + 3 Intermediate Unfav, 4 + 4 or a leading 5
      High, and anything else Unknown. */
  lemma ScoreRisk(g: string, x: nat, y: nat)
    requires ScoreChars(g)
    ensures var r := CalculateNccnRiskGroup("Gleason " + g, x, y);
            var p33 := HasPrefix(g, "3 + 3");
            var p34 := HasPrefix(g, "3 + 4");
            var p43 := HasPrefix(g, "4 + 3");
            var hi := HasPrefix(g, "4 + 4") || HasPrefix(g, "5");
            && (r == Low <==> p33 && Below50(x, y))
            && (r == IntermediateFav <==> (p33 && !Below50(x, y)) || (!p33 && p34))
            && (r == IntermediateUnfav <==> !p33 && !p34 && p43)
            && (r == High <==> !p33 && !p34 && !p43 && hi)
            && (r == Unknown <==> !p33 && !p34 && !p43 && !hi)
  {
    SummaryReadsScorePrefix(g, "3 + 3");
    SummaryReadsScorePrefix(g, "3 + 4");
    SummaryReadsScorePrefix(g, "4 + 3");
    SummaryReadsScorePrefix(g, "4 + 4");
    SummaryReadsScorePrefix(g, "5");
    assert "Gleason " + "3 + 3" == "Gleason 3 + 3";
    assert "Gleason " + "3 + 4" == "Gleason 3 + 4";
    assert "Gleason " + "4 + 3" == "Gleason 4 + 3";
    assert "Gleason " + "4 + 4" == "Gleason 4 + 4";
    assert "Gleason " + "5" == "Gleason 5";
  }

  /** A 4 + 5 score matches none of the table's tests: it is "Unknown". */
  lemma FourPlusFiveIsUnknown(g: string, x: nat, y: nat)
    requires ScoreChars(g) && HasPrefix(g, "4 + 5")
    ensures CalculateNccnRiskGroup("Gleason " + g, x, y) == Unknown
  {
    ScoreRisk(g, x, y);
    assert g[..5] == "4 + 5";
  }

  // ---------------------------------------------------------------------
  // extractDataFromReport (app_deep.js:27-59)
  // ---------------------------------------------------------------------

  datatype Entry = Entry(sample: string, location: string, pathSummary: string,
                         coresPositive: string, maxLengthCore: string, nccnRiskGroup: DeepRisk)

  /** The entry one specimen match yields: present only when all three detail
      phrasings match. */
  function EntryOf(m: SampleMatch): (r: Option<Entry>)
    ensures var t := m.details;
            r.Some? <==> Matches(t, GleasonIn(t)) && Matches(t, CoresIn(t)) && Matches(t, LengthIn(t))
    ensures r.Some? ==> r.value.sample == m.sample && r.value.location == m.location
  {
    var t := m.details;
    match (Search(t, GleasonIn(t)), Search(t, CoresIn(t)), Search(t, LengthIn(t)))
    case (Some(g), Some(xy), Some(v)) =>
      var (x, y) := xy;
      var dx := "Gleason " + g;
      Some(Entry(m.sample, m.location, dx, x + "/" + y, v + " mm",
                 CalculateNccnRiskGroup(dx, DigitsValue(x), DigitsValue(y))))
    case _ => None
  }

  /** A pair of digit runs, as the cores phrasing captures them. */
  predicate DigitPair(xy: (string, string)) {
    AllDigits(xy.0) && AllDigits(xy.1)
  }

  /** An entry carries the first score, cores and length phrases of its
      details: the summary is "Gleason " and a score of digits, spaces, `+`
      and `=`, the cores column is the two digit runs around a slash, and the
      risk is the table's answer for that summary and those two numbers. */
  lemma EntryFields(m: SampleMatch)
    requires EntryOf(m).Some?
    ensures var t := m.details;
            var e := EntryOf(m).value;
            var g := Search(t, GleasonIn(t)).value;
            var xy := Search(t, CoresIn(t)).value;
            && ScoreChars(g) && DigitPair(xy)
            && e.pathSummary == "Gleason " + g
            && e.coresPositive == xy.0 + "/" + xy.1
            && e.maxLengthCore == Search(t, LengthIn(t)).value + " mm"
            && e.nccnRiskGroup == CalculateNccnRiskGroup(e.pathSummary, DigitsValue(xy.0), DigitsValue(xy.1))
  {
    var t := m.details;
    SearchKeeps(t, GleasonIn(t), ScoreChars);
    SearchKeeps(t, CoresIn(t), DigitPair);
  }

  /** The `exec` loop of extractDataFromReport: every specimen match is
      examined in order and those whose details carry all three phrases are
      pushed. */
  method ExtractDataFromReport(report: string) returns (entries: seq<Entry>)
    ensures entries == Picked(AllHits(SampleIn(report), 0, |report|), EntryOf)
    ensures |entries| <= |AllHits(SampleIn(report), 0, |report|)|
  {
    entries := PickHits(SampleIn(report), |report|, EntryOf);
  }

  /** A report with no specimen phrasing gives no entries. */
  lemma NoSpecimenNoEntries(report: string)
    requires forall j :: 0 <= j <= |report| ==> SampleAt(report, j).None?
    ensures Picked(AllHits(SampleIn(report), 0, |report|), EntryOf) == []
  {
    AllHitsEmptyIff(SampleIn(report), |report|);
  }
}
