# Prostate biopsy pathology parser — a Dafny model

The repository is a browser tool. A clinician pastes one or more prostate
needle-biopsy pathology reports into it. The tool splits the text into
reports at each line starting with "Provider:". In each report it finds the
FINAL PATHOLOGIC DIAGNOSIS block and cuts that block into specimens
("A.", "B)", …). For every specimen it extracts:

- a short location, such as "Left Apex" or "Target 1";
- a short diagnosis label;
- the Gleason score or grade group;
- the positive-core fraction, as "X/Y(P%)";
- the longest tumour length.

It then counts the positive cores of a report, clamping each site. From these
figures and the user's PSA range and clinical T stage it assigns a
simplified NCCN risk group.

The repository holds five generations of this engine, one per script. Each
script redefines the same function names with different rules, so each one
is a module of its own here:

| module | file | what differs |
|---|---|---|
| `App2Js` | app2.js | the most complete pipeline: "See"/"Comment" line merge, 16-label diagnosis cascade, grade groups, five core-fraction phrasings, eight tumour-size phrasings with a "less than" correction, core lengths, ancillary features, per-site clamped aggregation over 14 cores, six-level risk tree over a numeric PSA |
| `App_2Js` | app_2.js | Gleason-sum pipeline: whitespace-free "P+S=T" scores, four fraction phrasings, integer tumour sizes, aggregation over the clamped totals, five-level risk tree over PSA buckets |
| `AJs` | a.js | app_2.js with a two-label diagnosis classifier; the code it shares word for word with app_2.js is that module's |
| `AppJs` | app.js | no diagnosis block: the whole chunk is tokenised; locations reduce to exactly "Target N"; the diagnosis is a "; "-joined tag list; empty chunks are skipped when reports are appended |
| `AppDeepJs` | app_deep.js | one case-sensitive specimen expression, three upper-case detail phrasings, and a risk table keyed on the Gleason text |

Three shared modules hold what the scripts have in common:

- `Text` holds the JavaScript string built-ins the scripts use: ASCII
  `toLowerCase`, `trim`, `split`, `includes`, `join` and number printing.
- `Scan` holds the building blocks of the regular expressions. It has
  literals, `\s*`, `\s+`, `\d+`, decimals and `\b`, leftmost search (`match`)
  and the global `exec` loop, plus the running-maximum and collection loops
  over all matches.
- `Reports` holds the code that several scripts share:
  - `chunkReports`, `parseCollectedDate`, `parseDob` and `parseTStageNumber`;
  - the capture state machine of `extractFinalDxLines`;
  - the specimen tokeniser behind `parseSamplesFromDx` and `parseSamples`;
  - the worst-risk loop of `getHighestNccnRisk`.

Each regular expression the scripts use is written as a matcher function
over the lower-cased text. A matcher returns the captured values and the end
of the match. Most phrasings are built so that greedy matching without
backtracking finds the same match as the JavaScript engine. Where that is
not so (a `\b` after an optional group, a lazy `(.*?)`), the matcher spells
out the backtracking choice, and a comment next to it explains why the
choice is exact. Loops in the scripts are methods, each proved against a
function that states what the loop computes. That function's properties are
lemmas.

Some behaviours of the code are easy to miss; each is stated as a lemma:

- chunkReports on a text with no "Provider:" line gives back the whole
  trimmed text as one report, not an empty list (`Reports.ChunksWithoutProvider`).
- app2.js tests ASAP and HGPIN before the focal variants, so "Focal HGPIN"
  can never be returned (`App2Js.FocalHgpinUnreachable`).
- In app2.js's parseCoreLengths, the `<?` stands outside the captured
  number. The "less than" correction therefore never applies to a core
  length (`App2Js.LessThanLengthUncorrected`).
- app2.js's page passes a number as `psaRange`. The PSA-bucket tests of
  calcNCCNRiskGroup then never hold. As a result, "Very Low" never comes
  out, and the Low test of app2.js:472 never holds (`App2Js.PageNeverVeryLow`).
- app2.js's positive-core count can exceed its total of 14 plus targets
  (`App2Js.PositiveCanExceedTotal`).
- app_deep.js's table has no row for "Gleason 4 + 5": such a report is
  "Unknown" (`AppDeepJs.FourPlusFiveIsUnknown`).

## Model

| member | source | states |
|---|---|---|
| Reports.ChunkReports | app2.js:87-89 | every report text is non-empty and trimmed at both ends, and there is at most one more report than there are lines starting "Provider:"; the cut points and the coverage of the text are stated by `Reports.ChunksCutAtProvider` and `Reports.ChunksKeepText` |
| Reports.SplitAtShape | app2.js:88 | the pieces of the lookahead split concatenate back to the input, and there is exactly one more piece than there are cut points |
| Reports.ChunksWithoutProvider | app2.js:88 | with no line starting "Provider:", the result is the trimmed text alone, or nothing when the text is blank |
| Reports.ChunksKeepText | app2.js:87-89 | the reports cover the text: put back together they hold exactly its non-whitespace characters, in order, so split, trim and filter lose only whitespace |
| Reports.ChunksCutAtProvider | app2.js:87-89 | no report holds a "Provider:" line start after its first character, and every report after the first begins with "Provider:" |
| Reports.ParseCollectedDate | app2.js:91-94 | the result holds only digits, '/' and '-'; a non-empty result is the run captured by the leftmost "Collected:" match |
| Reports.CollectedDateMissing | app2.js:91-94 | the date is "" exactly when no "Collected:" label is followed by a date |
| Reports.ParseDob | app2.js:96-101 | no date exactly when neither the "DOB:" nor the "DOB/Age:" phrasing matches; a date found is never empty; when "DOB:" matches anywhere the date is its leftmost capture, otherwise the leftmost "DOB/Age:" capture |
| Reports.ParseTStageNumber | app2.js:451-454 | 1 unless the stage starts with "T" (either case) and a digit; otherwise the value of the whole digit run right after the "T", which stops at the first non-digit |
| Reports.KindOfMeaning | app2.js:134-149 | the header test wins over the terminator tests, and those win over the noise tests; a content line is non-blank and mentions no disclaimer, immunohistochemistry or electronic sign-off |
| Reports.CaptureFinalDx | app2.js:131-152 | the capture loop keeps exactly the lines the capture function describes |
| Reports.CaptureWindow | app2.js:131-152 | nothing when no line is a FINAL PATHOLOGIC DIAGNOSIS header; otherwise, in their order, the content lines after the first header and before the first terminator that follows it |
| Reports.TerminatorBound | app2.js:139-145 | capture ends no later than any terminator line after the header |
| Reports.CapturedAreContent | app2.js:146-150 | every captured line is a content line |
| Reports.LetterHeader | app_2.js:294 | a line opens a specimen exactly when it starts with an upper-case letter followed by '.' or ')' |
| Reports.StripDashes | app_2.js:313 | a line starting with '-' loses its dashes and the whitespace after them, and only those; any other line is unchanged |
| Reports.AddLine | app_2.js:311-320 | the label is kept; the diagnosis flag is set by a '-' line and never reverts; once it is set, the location lines no longer change |
| Reports.Tokenize | app_2.js:291-329 | the tokenising loop, with its open `current` record, emits exactly the specimens the tokeniser function describes |
| Reports.TokenizeLabels | app_2.js:297-309 | one specimen per header line, in order, labelled with that header's letter |
| Reports.TokenizeDropsPreamble | app_2.js:310 | lines before the first header contribute nothing |
| Reports.TokenizeSegment | app_2.js:310-321 | the non-header lines after a header all go into that header's specimen |
| Reports.AddLinesInDiagnosis | app_2.js:311-319 | once in diagnosis mode, every further line is appended to the diagnosis lines (a '-' line with its dashes stripped) and nothing else changes |
| Reports.AddLinesSplit | app_2.js:311-319 | the lines before the first '-' line go to the location, and the rest go to the diagnosis |
| Reports.HighestRisk | app2.js:16-27 | the fallback when no risk has a positive rank; otherwise a risk from the list whose rank no other risk exceeds |
| Reports.MaxSome | app_2.js:429-443 | at least every value read from an element, and either 0 or a value read from one of them |
| App2Js.MergeSeeComment | app2.js:123-130 | blank lines are dropped: every merged line is non-empty; where the join and keep rules apply is stated by `App2Js.MergeKeepsJoin` and `App2Js.MergeKeepsLine` |
| App2Js.MergedLineOrigin | app2.js:123-130 | every merged line is a non-blank input line, or a line ending in the word "see" joined by one space to the line right after it, which starts with the word "comment" |
| App2Js.MergeWithoutJoinsIsNonBlank | app2.js:123-130 | with no "see" line followed by a "comment" line, the merge is exactly the non-blank lines, in their order |
| App2Js.MergeNeverLonger | app2.js:123-130 | the merge never has more lines than there are non-blank input lines |
| App2Js.MergeSplit | app2.js:123-130 | at a line the line before it does not absorb, the merge restarts: it is the merge of the lines before followed by the merge of the lines from there on |
| App2Js.MergeKeepsJoin | app2.js:125-127 | the join happens: a line ending in "see" whose own predecessor does not join it, followed by a line starting "comment" becomes the single merged line `see-line + " " + comment-line`, in its place, and the merge goes on after the absorbed line; that merged line is no bare "Comment" heading, so the absorbed line cannot trigger the `^comment\s*$` terminator of app2.js:139 |
| App2Js.MergeKeepsLine | app2.js:123-130 | a non-blank line that neither joins the next line nor is joined by the line before survives the merge unchanged, in its place |
| App2Js.MergeLines | app2.js:120-130 | the loop that skips past an absorbed "Comment" line computes the merge function |
| App2Js.SeeMergeIsNoCommentHeading | app2.js:126-139 | a string `a + " " + c` with `a` ending in the word "see" is never a bare "Comment" heading (`App2Js.MergeKeepsJoin` applies it to the merged line) |
| App2Js.ExtractFinalDxLines | app2.js:119-153 | the merge pass, then the capture pass; every returned line is non-blank and is no disclaimer or sign-off line |
| App2Js.SampleHeader | app2.js:158 | after leading whitespace, a header is an upper-case letter followed by '.', ')' or ':' |
| App2Js.CapitalizeWordsOnlyRecases | app2.js:44-49 | capitalizeWords changes only letter case: lower-cased, it is the lower-cased input with whitespace runs collapsed to one space |
| App2Js.CapitalizeWordsKeepsNoSeparator | app2.js:44-49 | capitalizeWords introduces no '-' or ',' |
| App2Js.TargetAt | app2.js:193 | a target match lies inside the text and captures one or more digits |
| App2Js.TargetLocation | app2.js:194-200 | the main location of a target is "Target " followed by exactly the captured digits |
| App2Js.NormalizedHasNoSeparator | app2.js:183-192 | after the separator replacement and the trim, the location holds no '-' or ',' |
| App2Js.ParseLocation | app2.js:182-203 | isTarget exactly when the target phrasing matches the normalised location; then the main location is "Target " and the digits of its leftmost match, and the leftover site is capitalizeWords of the location with the matched text removed once and trimmed; otherwise the leftover site is "", and the main location is capitalizeWords of the normalised location and holds no '-' or ',' |
| App2Js.CarcinomaOf | app2.js:207-213 | the first seven tests give only carcinoma labels; each of Acinar, Ductal, Transitional Cell, Squamous Cell, Small Cell, Large Cell and plain AdenoCA exactly when its phrase occurs and no earlier test's phrase does; none exactly when neither "adenocarcinoma" nor the transitional, squamous, small cell or large cell phrases occur |
| App2Js.LesionOf | app2.js:214-222 | never a carcinoma label; each of ASAP, HGPIN, Focal ASAP, Focal HGPIN, Prostatitis, Inflammation, Benign and BPH exactly when its phrase occurs and no earlier test's phrase does; "N/A" exactly when no phrase of the cascade occurs |
| App2Js.LaterLesionOf | app2.js:216-222 | the tail of the cascade after HGPIN: each of Focal ASAP, Focal HGPIN, Prostatitis, Inflammation, Benign and BPH exactly when its phrase occurs and no earlier one of these does; "N/A" when none occurs |
| App2Js.ParseShortDiagnosis | app2.js:205-223 | a carcinoma label exactly when one of the seven carcinoma tests holds, and then that test's label (first test wins); otherwise the lesion cascade's label (first test wins); AdenoCA only when "adenocarcinoma" occurs; ASAP exactly when no carcinoma test holds and "asap" occurs; "N/A" exactly when no test holds |
| App2Js.AdenocarcinomaWins | app2.js:205-213 | any text saying "adenocarcinoma" gets a carcinoma label, whatever else it mentions |
| App2Js.FocalPhraseHasGeneral | app2.js:215-217 | text containing the focal HGPIN phrase contains the general HGPIN phrase |
| App2Js.FocalHgpinUnreachable | app2.js:205-223 | parseShortDiagnosis never returns "Focal HGPIN" |
| App2Js.ExtractGradeGroup | app2.js:67-71 | at most 5; non-zero exactly when the first "grade group N" mention has N from 1 to 5, and then it is N |
| App2Js.GradeGroupToGleasonSum | app2.js:73-82 | the sum is 6 to 9 |
| App2Js.GleasonSumToGradeGroup | app2.js:330-335 | the grade group is 1 to 5 and never 3 |
| App2Js.GradeGroupSumRoundTrip | app2.js:73-82 | group to sum to group gives back groups 1, 2, 4 and 5, and turns group 3 into 2; sum to group to sum is the identity on sums 6 to 9 |
| App2Js.ExtractGleasonScore | app2.js:317-328 | 0 without a Gleason mention; the stated total when the first mention has one; primary plus secondary otherwise |
| App2Js.MaxGradeGroupFrom | app2.js:414-416 | the reduce result is at least the start value and every grade group, and equals one of them |
| App2Js.FirstFraction | app2.js:339-346 | a fraction exactly when one of the phrasings matches somewhere; then it is the leftmost match of one phrasing, and no earlier phrasing matches anywhere |
| App2Js.CoresFraction | app2.js:337-353 | when a numeric phrasing matches, its fraction is the one formatted; no fraction exactly when no numeric phrasing matches, the text lacks either "a small focus" or "adenocarcinoma", and the case-sensitive fragmented-cores sentence does not match; without a numeric match the fraction is 1/1 |
| App2Js.RoundPercent | app2.js:360 | Math.round of 100·X/Y, halves rounded up: 2Y·P ≤ 200X + Y < 2Y·(P+1) |
| App2Js.FormatCores | app2.js:356-364 | "N/A" exactly when Y is 0; otherwise "X/Y(P%)" with P the rounded percentage |
| App2Js.FormatCoresRoundTrip | app2.js:356-361 | reading "X/Y" back from the formatted text gives (X, Y) |
| App2Js.ExtractCoresPositive | app2.js:337-354 | "N/A" exactly when no fraction is found or its total is 0; otherwise the fraction formatted as "X/Y(P%)", and reading "X/Y" back gives that fraction |
| App2Js.FormatOneOfOne | app2.js:350 | formatCores("1", "1") is "1/1(100%)" |
| App2Js.SmallFocusIsOneOfOne | app2.js:349-350 | with no numeric phrasing, "a small focus" together with "adenocarcinoma" gives "1/1(100%)" |
| App2Js.InterpretLess | app2.js:291-293 | the corrected value is at least 0.1, is V−0.1 when V ≥ 0.2, and never exceeds V unless V < 0.2 |
| App2Js.ExtractMaxCoreSize | app2.js:366-412 | the eight `exec` loops compute the running maximum over all sizes read: none exactly when no phrasing matches, otherwise the largest size read |
| App2Js.LessSizesAtLeastTenth | app2.js:375-409 | every size read by a "less than" phrasing is at least 0.1 |
| App2Js.ParseCoreLengths | app2.js:251-275 | one pair per match, standard phrasing matches first, then fragmented ones, each in text order |
| App2Js.LessThanLengthUncorrected | app2.js:254-263 | the tumour length of a standard match is the number as written, even after "<" |
| App2Js.Features | app2.js:226-231 | a tag is present exactly when its word occurs, there are no other tags, and the tags come in the order PNI, LVI, Cribriform, Intraductal, none twice |
| App2Js.ParseAncillaryFeatures | app2.js:225-233 | "None" exactly when none of the four words occurs; otherwise the tags joined with ", ", "PNI" first when "perineural" occurs |
| App2Js.ParsePatternDistribution | app2.js:235-246 | null exactly when none of the three phrasings matches; otherwise the notes of the first pattern 4, pattern 5 and tertiary matches joined with ", ", a pattern 4 note first as "Pattern 4=…" |
| App2Js.PatternNotes | app2.js:240-244 | one note per capture found and no other: "Pattern 4=…" first, then "Pattern 5=…", then "Tertiary Tert…=…" last |
| App2Js.Finalized | app2.js:298-315 | the record keeps its specimen's label |
| App2Js.FinalizeSample | app2.js:298-315 | the method builds the record the finalize function describes |
| App2Js.FinalizedFields | app2.js:298-315 | grade group ≤ 5; never "Focal HGPIN"; size "N/A" exactly when no size phrasing matches; a target's location starts "Target "; otherwise no leftover site and no '-' or ',' in the location |
| App2Js.ParseSamplesFromDx | app2.js:155-180 | one finalised record per header line, in order, labelled with its letter |
| App2Js.FinalizeAll | app2.js:162-178 | every tokenised specimen is finalised, in order |
| App2Js.SiteCap | app2.js:428-434 | target 1, else apex 3, else 2 |
| App2Js.Clamped | app2.js:421-444 | skipped exactly when the diagnosis is not an adenocarcinoma or the fraction cannot be read; then x ≤ y ≤ site cap; at a target y is 1 and x is 1 or 0 as the stated positives are non-zero or zero; elsewhere y is the smaller of the stated total and the cap, and x the smaller of the stated positives and y |
| App2Js.ComputePositiveCoresFromSamples | app2.js:418-449 | (0, 14) without adenocarcinoma; otherwise the sum of the clamped positives over 14 plus the targets with a fraction |
| App2Js.FullSitesSum | app2.js:437-447 | specimens away from a target, each clamped to 2 of 2, add two positives each and no target core |
| App2Js.PositiveCanExceedTotal | app2.js:442-447 | eight non-target specimens at 2 of 2 give more positive cores than the total |
| App2Js.RiskRank | app2.js:7-14 | every risk has a rank from 1 to 6 |
| App2Js.RiskRankInjective | app2.js:7-14 | different risks have different ranks |
| App2Js.CustomPsa | app2.js:459-461 | a number is used as it is; the buckets "<10", "10-20" and ">20" count as 5, 15 and 25; any other bucket counts as 0 |
| App2Js.CalcNccnRiskGroup | app2.js:456-482 | Very High exactly when two of stage T3a/T3b/T4, group ≥ 4 and PSA ≥ 40 hold; High exactly when fewer do but one of them, PSA ≥ 20 or the ">20" bucket holds; Very Low exactly when no high criterion holds and the "<10" bucket, group 1 and a stage starting T1c (stage number 1) do; never Very Low for a number; when neither the high nor the low branch is taken, Low exactly with no intermediate factor, Favorable exactly with one factor, group 1 or 2 and under half the cores positive; Low exactly when no high criterion holds and either the low test of app2.js:472 does (stage number ≤ 2, group 1, "<10") without the Very Low stage, or the low test fails and there is no intermediate factor |
| App2Js.MapPsaRangeToNumeric | app2.js:29-42 | always positive; "PSA" gives the manual value when it is a positive number and 10 otherwise; "<10", "10-20" and ">20" give 5, 15 and 25; any other value gives 5 |
| App2Js.PageNeverVeryLow | app2.js:469-472 | with the number the page passes, the result is never Very Low and PSA never counts as an intermediate factor |
| App_2Js.ExtractFinalDxLines | app_2.js:257-286 | the capture pass over the trimmed lines, with no merge; every returned line is non-blank and is no disclaimer or sign-off line |
| App_2Js.CommentIsNotHeader | app_2.js:263 | a bare "Comment" line is no FINAL PATHOLOGIC DIAGNOSIS header |
| App_2Js.CommentIsTerminator | app_2.js:270 | a bare "Comment" line is a terminator |
| App_2Js.CommentHeadingEndsCapture | app_2.js:262-270 | any bare "Comment" line after the header ends the capture |
| App_2Js.DropLabel | app_2.js:358-360 | the text, or the text without its first two characters |
| App_2Js.StripLocationIsPiece | app_2.js:354-360 | the stripped location is a contiguous piece of the input |
| App_2Js.ParseLocation | app_2.js:353-362 | the result is trimmed and is a contiguous piece of the input |
| App_2Js.NoMatchNoChange | app_2.js:355-357 | a replace whose pattern matches nowhere changes nothing |
| App_2Js.NeedleBxNeedsProstate | app_2.js:355 | the first prefix is removed only from text starting "PROSTATE" |
| App_2Js.CoreBiopsyNeedsProstate | app_2.js:356 | the second prefix is removed only from text starting "PROSTATE" |
| App_2Js.NoColonNoMatch | app_2.js:357 | without a colon the trailing-colon pattern matches nowhere |
| App_2Js.ParseLocationPlain | app_2.js:353-362 | text with no "PROSTATE" prefix, no colon and no "label " prefix is only trimmed |
| App_2Js.NeedleBxHeadRemoved | app_2.js:355 | the "PROSTATE NEEDLE BX - " head, in any casing, is removed together with the blanks after it |
| App_2Js.CoreBiopsyHeadRemoved | app_2.js:355-356 | the "PROSTATE, NEEDLE CORE BIOPSY - " head, in any casing, is left alone by the NEEDLE BX replace and removed by its own, with the blanks after it |
| App_2Js.NeedleBxHeadCut | app_2.js:353-362 | a line starting "PROSTATE NEEDLE BX - " reads as the location of what follows, when that starts with neither a blank nor "prostate" |
| App_2Js.CoreBiopsyHeadCut | app_2.js:353-362 | a line starting "PROSTATE, NEEDLE CORE BIOPSY - " reads as the location of what follows, when that starts with neither a blank nor "prostate" |
| App_2Js.TrailingColonCut | app_2.js:357 | a trailing colon is cut off: the location is the trimmed text before it |
| App_2Js.LabelHeadCut | app_2.js:358-360 | the specimen's label letter and a space at the start are cut off: the location is the trimmed rest |
| App_2Js.ParseShortDiagnosis | app_2.js:369-379 | AdenoCA, Prostatitis, Inflammation, Benign, ASAP, HGPIN and BPH each exactly when their word occurs and no earlier word of that list does; "N/A" exactly when none of the seven words occurs |
| App_2Js.GleasonTextAt | app_2.js:382 | a match captures three non-empty digit runs |
| App_2Js.ExtractGleasonScore | app_2.js:381-385 | "N/A" exactly when there is no Gleason phrase; otherwise the first phrase's "P+S=T" without whitespace |
| App_2Js.ScoreTextShape | app_2.js:383 | a score text starts with a digit and holds no whitespace |
| App_2Js.GleasonSumRoundTrip | app_2.js:433-435 | findMaxGleasonSum reads back the total T of a "P+S=T" text |
| App_2Js.ScoreSumOfExtracted | app_2.js:432-435 | the sum read from a specimen's score is the total of the first Gleason phrase of its text, and none without one |
| App_2Js.FirstFraction | app_2.js:391-398 | the first of the four phrasings that matches anywhere gives the fraction |
| App_2Js.ExtractCoresPositive | app_2.js:390-410 | "N/A" exactly when no phrasing matches or the total is 0; otherwise "X/Y(P%)" with P the rounded percentage, and reading "X/Y" back gives the fraction found |
| App_2Js.SizeAt | app_2.js:413 | a size read is never negative |
| App_2Js.Sizes | app_2.js:413-421 | every size read is non-negative |
| App_2Js.MaxCoreSize | app_2.js:412-424 | none exactly when no size is read; otherwise a size read and at least every other |
| App_2Js.SizeText | app_2.js:422-423 | "N/A" exactly when there is no size |
| App_2Js.ExtractMaxCoreSize | app_2.js:412-424 | the running maximum of the `exec` loop, printed as "Nmm" or "N/A" |
| App_2Js.FinalizedWith | app_2.js:331-351 | the record keeps its specimen's label |
| App_2Js.FinalizeSample | app_2.js:331-351 | the method builds the record the finalize function describes |
| App_2Js.FinalizeAll | app_2.js:300-327 | every specimen is finalised, in order, keeping its label |
| App_2Js.ParseSamplesWith | app_2.js:291-329 | one record per `A.`/`A)` header line, in order, labelled with its letter, for any diagnosis classifier |
| App_2Js.ParseSamplesFromDx | app_2.js:291-329 | one record per `A.`/`A)` header line, in order, labelled with its letter |
| App_2Js.FindMaxGleasonSum | app_2.js:429-443 | at least every sum read from a score, and either 0 or one of them |
| App_2Js.SiteCap | app_2.js:645-659 | 1 whenever the location says target or lesion, even with apex, mid or base; else 3 for apex; else 2 |
| App_2Js.Clamped | app_2.js:621-668 | skipped for a non-adenocarcinoma, a missing or "N/A" fraction, an unreadable one or a total of 0; otherwise 1 ≤ y ≤ cap and x ≤ y, each lowered only to its bound |
| App_2Js.TotalZeroIffSkipped | app_2.js:641-672 | a specimen adds 0 to the total exactly when it is skipped |
| App_2Js.TotalZeroIff | app_2.js:675-678 | the clamped totals sum to 0 exactly when every specimen is skipped |
| App_2Js.ComputePositiveCores | app_2.js:617-687 | (0, 14) when the clamped totals sum to 0; otherwise the clamped sums; never more positives than total |
| App_2Js.RiskRank | app_2.js:12-18 | every risk has a rank from 1 to 5 |
| App_2Js.T1cStage | app_2.js:479-483 | the stage "T1c" has stage number 1 |
| App_2Js.CalcNccnRiskGroup | app_2.js:448-477 | Very Low exactly for stage "T1c", sum ≤ 6 and "<10"; Low exactly for the rest of the low test (stage number ≤ 2, sum ≤ 6, "<10") and when no test holds; Intermediate exactly when the low test fails and sum 7, "10-20" or stage number 2 holds; Very High and High exactly when only the high test (sum ≥ 8, stage number ≥ 3, ">20") holds, split on the exact stages "T3b" and "T4"; sum 7 or "10-20" always gives Intermediate |
| App_2Js.GleasonSumToGgg | app_2.js:39-44 | agrees with app2.js's gleasonSumToGradeGroup: group 1 exactly for sums up to 6, never 3 |
| App_2Js.MapPsaRangeToNumeric | app_2.js:49-56 | 15 exactly for "10-20", 25 exactly for ">20", 5 for everything else |
| App_2Js.PsaMapsAgree | app_2.js:49-56 | for any choice but "PSA", the app_2.js and app2.js mappings agree |
| App_2Js.HighestNccnRisk | app_2.js:23-34 | "Low" for no reports; otherwise a risk from the list with the largest rank |
| AJs.ParseShortDiagnosis | a.js:268-272 | "AdenoCA" exactly when the text says adenocarcinoma; "Benign" exactly when it does not but says benign; "N/A" otherwise |
| AJs.AdenoAgreesWithApp_2 | a.js:268-272 | a.js and app_2.js call the same texts "AdenoCA"; every text app_2.js calls benign a.js calls benign too |
| AJs.ParseSamplesFromDx | a.js:185-223 | one record per header line, in order, labelled with its letter, with a diagnosis among AdenoCA, Benign and N/A |
| AppJs.MdAt | app.js:174 | an M.D. token lies inside the text |
| AppJs.Tags | app.js:179-182 | a tag is present exactly when its phrase occurs, in the fixed order AdenoCA, SmallCell, PNI, Cribriform |
| AppJs.ParseShortDiagnosis | app.js:171-189 | "" exactly for a signature text; otherwise, when a tag phrase occurs, exactly the tags present in their push order, joined with "; "; "Benign" exactly with no tag and the word benign; "N/A" exactly with neither |
| AppJs.TaggedTextIsDistinct | app.js:184-188 | a joined tag list is never "", "Benign" or "N/A" |
| AppJs.TargetHashAt | app.js:144 | a "target #N" match lies inside the text and captures digits |
| AppJs.RenamedHashIsTarget | app.js:144-148 | after "target #N" is renamed, the "Target N" test holds |
| AppJs.TargetText | app.js:148-153 | a target text is found exactly when the loose target phrasing matches; it starts with "target" in any case and ends in a digit |
| AppJs.LooseTargetShape | app.js:150 | the match starts with the word target and ends in a digit |
| AppJs.TailKeepsTarget | app.js:156-165 | the trailing-colon, label and trim steps leave a target text unchanged |
| AppJs.TargetWins | app.js:131-166 | when the target test holds, the result is exactly the "Target N" text |
| AppJs.ParseLocation | app.js:131-166 | never empty: "N/A" or a text trimmed at both ends |
| AppJs.ExtractMaxCoreSize | app.js:222-234 | after whitespace is collapsed, the integer maximum as "Nmm", "N/A" exactly when no phrasing matches |
| AppJs.Finalized | app.js:107-124 | the record keeps its specimen's label |
| AppJs.FinalizeSample | app.js:107-124 | the method builds the record the finalize function describes |
| AppJs.ParseSamples | app.js:69-102 | every trimmed line of the whole chunk is tokenised: one record per header line, in order, with its letter |
| AppJs.FinalizeAll | app.js:79-100 | every specimen is finalised, in order |
| AppJs.ParseSingleReport | app.js:55-59 | the collected date and the samples of the chunk |
| AppJs.KeptReport | app.js:28-36 | a chunk is dropped exactly when it has no samples and no date; a kept report carries its samples and its date |
| AppJs.ChunkDroppedIff | app.js:26-37 | a chunk is dropped exactly when it has no header line and no collected date |
| AppJs.DateIsNotUnknown | app.js:28 | a parsed date falls back to "Unknown" only when it is empty |
| AppJs.PushReports | app.js:26-37 | the loop appends the kept reports of the chunks, in order, to the reports already there |
| AppJs.AddReports | app.js:13-42 | blank input changes nothing; otherwise the kept reports of the trimmed text's chunks are appended |
| AppDeepJs.DetailsEnd | app_deep.js:29 | the lazy details stop at the first next-specimen header or at the end |
| AppDeepJs.SampleAt | app_deep.js:29 | a specimen match lies inside the report |
| AppDeepJs.GleasonAt | app_deep.js:38 | the captured score holds only digits, spaces, '+' and '=' |
| AppDeepJs.CoresAt | app_deep.js:39 | both captures are non-empty digit runs |
| AppDeepJs.LengthAt | app_deep.js:40 | the capture is a non-empty digit run |
| AppDeepJs.CalculateNccnRiskGroup | app_deep.js:62-75 | the first of "Gleason 3 + 3", "3 + 4", "4 + 3", "4 + 4"/"5" the text contains decides, each exactly: Low for 3 + 3 under 50 % of the cores, Intermediate Fav for 3 + 3 otherwise or 3 + 4, Intermediate Unfav for 4 + 3, High for 4 + 4 or 5, Unknown when none occurs |
| AppDeepJs.PercentOnlyFor33 | app_deep.js:63-65 | the core counts matter only for "Gleason 3 + 3" |
| AppDeepJs.SummaryReadsScorePrefix | app_deep.js:43 | a built summary contains "Gleason P" exactly when its score starts with P |
| AppDeepJs.ScoreRisk | app_deep.js:62-75 | for a built summary, the risk is decided by which known prefix the score starts with |
| AppDeepJs.FourPlusFiveIsUnknown | app_deep.js:70-74 | a "4 + 5" score is Unknown |
| AppDeepJs.EntryOf | app_deep.js:38-56 | an entry exactly when all three detail phrasings match; it keeps the specimen and location |
| AppDeepJs.EntryFields | app_deep.js:42-55 | the summary is "Gleason " and the score, the cores column "X/Y", the length "N mm", and the risk is the table's answer for them |
| AppDeepJs.ExtractDataFromReport | app_deep.js:27-60 | the `exec` loop pushes the entries of the specimen matches, in order, at most one per match |
| AppDeepJs.NoSpecimenNoEntries | app_deep.js:32-59 | a report with no specimen phrasing gives no entries |

## Left out

- The pages themselves are not modelled: DOM reads and writes, event wiring,
  `buildComparisonTable`, `showCoresPopup`, `hideCoresPopup`, the click
  handlers of app2.js, app_2.js and a.js, and app_deep.js's
  `processReports` and `runNomogram`. Those handlers' per-chunk loops are
  left out too, including the first-DOB-wins rule and the overall maximum
  Gleason. The one handler modelled is app.js's, as `AppJs.AddReports`,
  with `allReports` passed in and returned.
- nomogram.js is not part of this model. It is floating-point logistic and
  survival arithmetic that only reads and writes the page.
- `calcAgeFromDob` reads the clock and is not modelled.
- `sortReportsByDateDesc` relies on `Date.parse` and is not modelled.
- AppJs.AddReports: does not model the sort by date after appending (app.js:40) or the clearing of the input box.
- app2.js's `mapPsaRangeToNumeric` reads the manual PSA from the page. That
  value is a parameter here, with None for a value that does not parse.
- Regular expressions are not modelled in general. Only the phrasings the
  scripts use are modelled, each as its own matcher. `i` is ASCII
  lower-casing, `\s` is ASCII whitespace and `\b` is an ASCII word boundary.
  Unicode case mapping is left out.
- Numbers are exact. `parseInt` gives unbounded naturals, so precision lost
  on very long digit runs is not modelled. `parseFloat` of a decimal phrase
  is an exact `real`. `Math.round` is rounding half up over rationals.
- App2Js.ExtractMaxCoreSize: returns the maximum as a number rather than the `${maxSize}mm` text, because JavaScript's printing of fractional numbers is not modelled; the sizes of App_2Js and AppJs are integers and are printed.
- App_2Js.CommentHeadingEndsCapture: is stated over the list of trimmed lines rather than over the report text.
- App2Js.MergeKeepsJoin: stated for a "see" line whose predecessor does not itself join it; in a run "…see / Comment…see / Comment" the middle line is absorbed by the first, and the second join is then covered only by `App2Js.MergedLineOrigin` and `App2Js.MergeLines`.
- Reports.ChunkReports: the trim and the `filter(Boolean)` are one pass over the pieces, which gives the same list as the map followed by the filter.
- app2.js's `extractGleasonScore` and `gleasonSumToGradeGroup` are modelled
  although the page never calls them. The same holds for the `ParseDob`
  result, which only feeds the left-out handler.
