/** The leaf diagnosis screen (pages/LeafCheck.tsx): the chosen image, the
    scan handler with its payload extraction and simulated fallback, and the
    choice of what the result column shows. */
module LeafCheck {

  import opened Types
  import opened Strings
  import GeminiService

  const SIMULATED_NAME_HI := "लीफ ब्लाइट (सिमुलेटेड)"
  const SIMULATED_NAME_EN := "Leaf Blight (Simulated)"
  const SIMULATED_TREATMENT_EN := "Mancozeb 2g/L spray. Ensure proper drainage."
  const SIMULATED_TREATMENT_HI := "मैंकोजेब 2 ग्राम/लीटर का छिड़काव करें।"

  /** The diagnosis the screen substitutes when the analysis throws. */
  function SimulatedBlight(lang: Language): (r: DiseaseResult)
    ensures r.isLeaf == Some(true) && r.confidence == 87 && !r.isHealthy
    ensures r.diseaseName == (if lang == Hi then SIMULATED_NAME_HI else SIMULATED_NAME_EN)
    ensures r.treatmentEn == SIMULATED_TREATMENT_EN && r.treatmentHi == SIMULATED_TREATMENT_HI
  {
    DiseaseResult(Some(true),
                  if lang == Hi then SIMULATED_NAME_HI else SIMULATED_NAME_EN,
                  87, SIMULATED_TREATMENT_EN, SIMULATED_TREATMENT_HI, false)
  }

  /** The result the scan stores: the analysis when it resolves, the
      simulated blight when it throws. */
  function ScanResult(analysis: Outcome<DiseaseResult>, lang: Language): (r: DiseaseResult)
    ensures analysis.Returned? ==> r == analysis.value
    ensures analysis.Threw? ==> r == SimulatedBlight(lang)
  {
    match analysis
    case Returned(d) => d
    case Threw => SimulatedBlight(lang)
  }

  /** The base64 part of a data URL: `url.split(',')[1]`. */
  function ImagePayload(url: string): (r: Option<string>)
    ensures r.None? <==> ',' !in url
    ensures r.Some? ==> ',' !in r.value
  {
    SecondField(url, ',')
  }

  /** For a data URL `header,data` whose parts hold no comma, the payload is
      exactly the data part. */
  lemma {:induction false} PayloadOfDataUrl(header: string, data: string)
    requires ',' !in header && ',' !in data
    ensures ImagePayload(header + "," + data) == Some(data)
  {
    var url := header + "," + data;
    BeforeFirstJoin(header, ',', data);
    assert url[|header| + 1..] == data;
    var r := ImagePayload(url);
    assert r.Some?;
    var field := r.value;
    assert url[|header| + 1..|header| + 1 + |field|] == field;
    assert field == data[..|field|] == data;
  }

  datatype Badge = HealthyBadge | DiseaseBadge

  datatype Treatment = Treatment(en: string, hi: string)

  /** The body of a report: the not-a-leaf notice, or the diagnosis with the
      treatment panel (when unhealthy) and the healthy note (when healthy). */
  datatype ReportBody =
    | NotALeafNotice
    | Diagnosis(name: string, confidence: int, treatment: Option<Treatment>, healthyNote: bool)

  /** What the result column shows. */
  datatype Panel = Analyzing | Report(badge: Badge, body: ReportBody) | Placeholder

  /** The result column for the screen's `loading` flag and stored result. */
  function ResultPanel(loading: bool, result: Option<DiseaseResult>): (p: Panel)
    ensures p.Analyzing? <==> loading
    ensures p.Placeholder? <==> !loading && result.None?
    ensures p.Report? ==>
              var d := result.value;
              && (p.badge == HealthyBadge <==> d.isHealthy)
              && (p.body.NotALeafNotice? <==> d.isLeaf != Some(true))
    ensures p.Report? && p.body.Diagnosis? ==>
              var d := result.value;
              && p.body.name != ""
              && (d.diseaseName != "" ==> p.body.name == d.diseaseName)
              && (d.diseaseName == "" ==> p.body.name == "Unknown")
              && p.body.confidence == d.confidence
              && (p.body.treatment.Some? <==> !d.isHealthy)
              && (p.body.treatment.Some? ==> p.body.treatment.value == Treatment(d.treatmentEn, d.treatmentHi))
              && (p.body.healthyNote <==> d.isHealthy)
  {
    if loading then Analyzing
    else match result
      case None => Placeholder
      case Some(d) =>
        var badge := if d.isHealthy then HealthyBadge else DiseaseBadge;
        if d.isLeaf != Some(true) then Report(badge, NotALeafNotice)
        else Report(badge, Diagnosis(OrStr(Some(d.diseaseName), "Unknown"), d.confidence,
                                     if d.isHealthy then None else Some(Treatment(d.treatmentEn, d.treatmentHi)),
                                     d.isHealthy))
  }

  /** Without a key, or when the model call fails, the service's canned
      diagnosis carries no leaf flag, so the screen shows the not-a-leaf
      notice under the disease badge instead of the blight it names. */
  lemma ServiceFallbackShowsNotALeaf(apiKey: Option<string>, reply: Outcome<DiseaseResult>, lang: Language)
    requires !GeminiService.CheckApiKey(apiKey) || reply.Threw?
    ensures ResultPanel(false, Some(ScanResult(Returned(GeminiService.AnalyzeLeafImage(apiKey, reply)), lang)))
            == Report(DiseaseBadge, NotALeafNotice)
  {
    GeminiService.DummyLeafIsBlight();
  }

  /** The screen's own fallback is a leaf: it shows the blight with its
      treatment. */
  lemma SimulatedBlightShowsTreatment(lang: Language)
    ensures ResultPanel(false, Some(ScanResult(Threw, lang))) ==
            Report(DiseaseBadge, Diagnosis(SimulatedBlight(lang).diseaseName, 87,
                                           Some(Treatment(SIMULATED_TREATMENT_EN, SIMULATED_TREATMENT_HI)), false))
  {
  }

  class LeafCheckScreen {
    var image: Option<string>
    var loading: bool
    var result: Option<DiseaseResult>

    /** What the result column shows now. */
    function Shown(): Panel
      reads this
    {
      ResultPanel(loading, result)
    }

    constructor ()
      ensures image.None? && !loading && result.None?
      ensures Shown() == Placeholder
    {
      image := None;
      loading := false;
      result := None;
    }

    /** `handleFileChange`: `file` is `None` when the picker was closed
        without a file; otherwise it is how the reader's read ended:
        `Returned` with the data URL, or `Threw` for a failed read, whose
        `loadend` still fires with a null result and so clears the image. */
    method HandleFileChange(file: Option<Outcome<string>>)
      modifies this
      ensures file.Some? ==> result.None?
      ensures file.Some? && file.value.Returned? ==> image == Some(file.value.value)
      ensures file.Some? && file.value.Threw? ==> image.None? && (!loading ==> Shown() == Placeholder)
      ensures file.None? ==> image == old(image) && result == old(result)
      ensures loading == old(loading)
    {
      if file.Some? {
        image := if file.value.Returned? then Some(file.value.value) else None;
        result := None;
      }
    }

    /** `handleScan`: `analysis` is what the awaited analysis call produced.
        Returns whether a request was made and the payload it carried. */
    method HandleScan(lang: Language, analysis: Outcome<DiseaseResult>)
      returns (sent: bool, payload: Option<string>)
      modifies this
      ensures sent <==> old(image).Some? && old(image).value != ""
      ensures !sent ==> image == old(image) && loading == old(loading) && result == old(result)
      ensures sent ==> payload == ImagePayload(old(image).value)
      ensures sent ==> image == old(image) && !loading && result == Some(ScanResult(analysis, lang))
    {
      payload := None;
      if image.None? || image.value == "" {
        return false, payload;
      }
      sent := true;
      loading := true;
      payload := ImagePayload(image.value);
      result := Some(ScanResult(analysis, lang));
      loading := false;
    }
  }
}
