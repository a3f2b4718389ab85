/** a.js: the same pipeline as app_2.js except for the diagnosis classifier,
    which knows only adenocarcinoma and benign tissue. Everything else in a.js
    is textually the same code as app_2.js and is modelled once, in App_2Js
    (extractFinalDxLines, parseLocation, extractGleasonScore,
    extractCoresPositive, formatCores, extractMaxCoreSize, findMaxGleasonSum,
    calcNCCNRiskGroup) and Reports (chunkReports, parseTStageNumber). */
module AJs {
  import opened Text
  import opened Reports
  import App_2Js

  /** parseShortDiagnosis (a.js:268-272): "AdenoCA" when the text mentions
      adenocarcinoma, else "Benign" when it mentions benign, else "N/A". */
  function ParseShortDiagnosis(txt: string): (d: App_2Js.ShortDx)
    ensures var l := LowerStr(txt);
            && (d == App_2Js.AdenoCA <==> Contains(l, "adenocarcinoma"))
            && (d == App_2Js.Benign <==> !Contains(l, "adenocarcinoma") && Contains(l, "benign"))
            && (d == App_2Js.NotAvailable <==> !Contains(l, "adenocarcinoma") && !Contains(l, "benign"))
  {
    var l := LowerStr(txt);
    if Contains(l, "adenocarcinoma") then App_2Js.AdenoCA
    else if Contains(l, "benign") then App_2Js.Benign
    else App_2Js.NotAvailable
  }

  /** The two classifiers agree on cancer: a.js calls a text "AdenoCA"
      exactly when app_2.js does. Where app_2.js finds prostatitis or
      inflammation in a benign text, a.js still says "Benign". */
  lemma AdenoAgreesWithApp_2(txt: string)
    ensures ParseShortDiagnosis(txt) == App_2Js.AdenoCA <==> App_2Js.ParseShortDiagnosis(txt) == App_2Js.AdenoCA
    ensures App_2Js.ParseShortDiagnosis(txt) == App_2Js.Benign ==> ParseShortDiagnosis(txt) == App_2Js.Benign
  {
  }

  /** parseSamplesFromDx (a.js:185-223) with finalizeSample (a.js:228-254):
      one record per `A.`/`A)` header line, in order, classified by a.js's
      own parseShortDiagnosis. */
  method ParseSamplesFromDx(dxLines: seq<string>) returns (samples: seq<App_2Js.Sample>)
    ensures samples == Map(App_2Js.Finalizer(ParseShortDiagnosis), TokenizeFrom(dxLines, LetterHeader, None))
    ensures var hs := HeaderLabels(dxLines, LetterHeader);
            |samples| == |hs| && forall k :: 0 <= k < |hs| ==> samples[k].sampleLabel == hs[k]
    ensures forall k :: 0 <= k < |samples| ==> samples[k].diagnosis in {App_2Js.AdenoCA, App_2Js.Benign, App_2Js.NotAvailable}
  {
    samples := App_2Js.ParseSamplesWith(dxLines, ParseShortDiagnosis);
    forall k | 0 <= k < |samples|
      ensures samples[k].diagnosis in {App_2Js.AdenoCA, App_2Js.Benign, App_2Js.NotAvailable}
    {
      var raw := TokenizeFrom(dxLines, LetterHeader, None);
      assert samples[k] == App_2Js.FinalizedWith(raw[k], ParseShortDiagnosis);
    }
  }
}
