/** The analysis path of the backend (backend/server.py): cleaning the
    model's reply, building a `DiseaseAnalysis` from it, and the way the two
    analysis endpoints turn the outcome into a response or an HTTP error.
    The Gemini call, `json.loads` and the database writes are outcomes given
    as parameters. */
module Server {
  import opened Wrappers
  import opened Text
  import opened Diagnosis

  /** A value produced by `json.loads`. */
  datatype Json =
    | JNull
    | JBool(b: bool)
    | JNumber(x: real)
    | JString(s: string)
    | JArray(items: seq<Json>)
    | JObject(fields: map<string, Json>)

  /** Outcome of `json.loads`: a value, or `json.JSONDecodeError`. */
  datatype Decoded = Parsed(value: Json) | DecodeError

  /** Outcome of the Gemini call: the text of its reply, or the message of
      the exception it raised. */
  datatype ModelReply = ReplyText(text: string) | ModelFailure(message: string)

  /** FastAPI's `HTTPException`. */
  datatype HttpError = HttpError(status: nat, detail: string) {
    /** `str(e)`: Starlette renders an HTTP exception as "<status>: <detail>". */
    function Text(): string {
      DecimalText(status) + ": " + detail
    }
  }

  /** `AnalysisResponse`, with its declared defaults `analysis=None` and
      `message=""`. */
  datatype AnalysisResponse = AnalysisResponse(
    success: bool,
    analysis: Option<DiseaseAnalysis> := None,
    message: string := "")

  const JsonFence: string := "```json"
  const FailurePrefix: string := "Analysis failed: "
  const SuccessMessage: string := "Analysis completed successfully"
  const NotAnImage: string := "File must be an image"

  /** The reply cleaning of `analyze_plant_image`: strip the reply and, when
      it opens with "```json", delete every "```json" and every "```" and
      strip again. Either way the result has no whitespace at its ends; a
      fenced reply is left without any "```"; any other reply is only
      stripped. */
  function CleanReply(reply: string): (r: string)
    ensures Trimmed(r)
    ensures StartsWith(Strip(reply), JsonFence) ==> NoFence(r)
    ensures !StartsWith(Strip(reply), JsonFence) ==> r == Strip(reply)
  {
    var t := Strip(reply);
    if StartsWith(t, JsonFence) then
      var u := RemoveAll(RemoveAll(t, JsonFence), Fence);
      RemoveFencesLeavesNone(RemoveAll(t, JsonFence));
      StripKeepsNoFence(u);
      Strip(u)
    else
      t
  }

  /** No backtick anywhere in `s`. */
  predicate NoBacktick(s: string) {
    forall i :: 0 <= i < |s| ==> s[i] != '`'
  }

  /** The two deletions of the cleaning take "```json" + body + "```" back
      to the body, when the body has no backtick of its own. */
  lemma RemoveFencesAround(body: string)
    requires NoBacktick(body)
    ensures RemoveAll(RemoveAll(JsonFence + body + Fence, JsonFence), Fence) == body
  {
    assert JsonFence + body + Fence == JsonFence + (body + Fence);
    RemoveAllPrefix(JsonFence, body + Fence);
    RemoveAllKeepsPlain(body, Fence, JsonFence);
    assert RemoveAll(Fence, JsonFence) == Fence;
    RemoveAllKeepsPlain(body, Fence, Fence);
    RemoveAllPrefix(Fence, []);
    assert Fence + [] == Fence;
    assert body + [] == body;
  }

  /** A reply made of optional whitespace, "```json", a JSON body, "```" and
      optional whitespace is cleaned to exactly the stripped body: the
      cleaning keeps everything between the fences. */
  lemma CleanReplyUnwraps(w1: string, body: string, w2: string)
    requires AllSpace(w1) && AllSpace(w2)
    requires NoBacktick(body)
    ensures CleanReply(w1 + JsonFence + body + Fence + w2) == Strip(body)
  {
    var m := JsonFence + body + Fence;
    var reply := w1 + JsonFence + body + Fence + w2;
    assert reply == w1 + m + w2;
    FencedTrimmed(body);
    StripSurrounded(w1, m, w2);
    CleanFencedReply(reply);
    RemoveFencesAround(body);
  }

  /** What the cleaning does to a reply that opens with "```json". */
  lemma CleanFencedReply(reply: string)
    requires StartsWith(Strip(reply), JsonFence)
    ensures CleanReply(reply) == Strip(RemoveAll(RemoveAll(Strip(reply), JsonFence), Fence))
  {
  }

  /** "```json" + body + "```" opens with "```json" and has no whitespace
      at its ends. */
  lemma FencedTrimmed(body: string)
    ensures StartsWith(JsonFence + body + Fence, JsonFence)
    ensures Trimmed(JsonFence + body + Fence)
  {
    var m := JsonFence + body + Fence;
    assert m[0] == '`';
    assert m[|m| - 1] == '`';
  }

  /** Fence-free text does not open with "```json". */
  lemma NoFenceNotJsonFenced(r: string)
    requires NoFence(r)
    ensures !StartsWith(r, JsonFence)
  {
    if |r| >= |JsonFence| {
      assert !FenceAt(r, 0);
      assert r[..3] != JsonFence[..3];
    }
  }

  /** Cleaning a cleaned reply changes nothing. */
  lemma CleanReplyIdempotent(reply: string)
    ensures CleanReply(CleanReply(reply)) == CleanReply(reply)
  {
    var r := CleanReply(reply);
    if StartsWith(Strip(reply), JsonFence) {
      NoFenceNotJsonFenced(r);
    }
    assert Strip(r) == r;
    assert !StartsWith(Strip(r), JsonFence);
  }

  /** `float(v)` on what `json.loads` can yield: numbers and booleans
      convert; null, arrays and objects raise. */
  function FloatOf(v: Json): (r: Option<real>)
    ensures r.Some? <==> v.JNumber? || v.JBool?
  {
    match v
    case JNumber(x) => Some(x)
    case JBool(b) => Some(if b then 1.0 else 0.0)
    case _ => None
  }

  /** Validation of a `List[str]` field: every item must be a string. */
  function StringsOf(items: seq<Json>): (r: Option<seq<string>>)
    ensures r.Some? <==> forall i :: 0 <= i < |items| ==> items[i].JString?
    ensures r.Some? ==> |r.value| == |items| && forall i :: 0 <= i < |items| ==> items[i] == JString(r.value[i])
  {
    if items == [] then
      Some([])
    else
      match (items[0], StringsOf(items[1..]))
      case (JString(s), Some(rest)) => Some([s] + rest)
      case _ => None
  }

  /** The JSON array of the given strings. */
  function JStrings(xs: seq<string>): (r: seq<Json>)
    ensures |r| == |xs|
  {
    seq(|xs|, i requires 0 <= i < |xs| => JString(xs[i]))
  }

  /** `parsed.get(key, default)` for a `str` field. */
  function TextField(fields: map<string, Json>, key: string, default: string): Option<string> {
    if key !in fields then Some(default)
    else if fields[key].JString? then Some(fields[key].s)
    else None
  }

  /** `float(parsed.get(key, default))`. */
  function NumberField(fields: map<string, Json>, key: string, default: real): Option<real> {
    if key !in fields then Some(default) else FloatOf(fields[key])
  }

  /** `parsed.get(key, [])` for a `List[str]` field. */
  function ListField(fields: map<string, Json>, key: string): Option<seq<string>> {
    if key !in fields then Some([])
    else if fields[key].JArray? then StringsOf(fields[key].items)
    else None
  }

  /** A JSON array whose every item is a string. */
  predicate IsStringArray(j: Json) {
    j.JArray? && forall i :: 0 <= i < |j.items| ==> j.items[i].JString?
  }

  /** The reply object's present fields have the types `DiseaseAnalysis`
      accepts: strings for the name and the severity, a number or a boolean
      for the confidence, arrays of strings for the three lists. */
  predicate WellTyped(f: map<string, Json>) {
    && ("disease_name" in f ==> f["disease_name"].JString?)
    && ("confidence" in f ==> f["confidence"].JNumber? || f["confidence"].JBool?)
    && ("severity" in f ==> f["severity"].JString?)
    && ("symptoms" in f ==> IsStringArray(f["symptoms"]))
    && ("treatment" in f ==> IsStringArray(f["treatment"]))
    && ("prevention" in f ==> IsStringArray(f["prevention"]))
  }

  /** The `DiseaseAnalysis(...)` construction. A missing key takes its
      default ("Unknown", 0.0, "Unknown", [], [], []); a present value is
      taken as it is (a confidence is not clamped to [0, 1]); a reply that
      is not an object, or a value of the wrong type, makes it raise. */
  function BuildAnalysis(v: Json): (r: Result<DiseaseAnalysis, string>)
    ensures !v.JObject? ==> r.Failure?
    ensures v.JObject? ==> (r.Success? <==> WellTyped(v.fields))
    ensures r.Success? ==> var f := v.fields; var a := r.value;
      && (if "disease_name" in f then f["disease_name"] == JString(a.diseaseName) else a.diseaseName == "Unknown")
      && (if "confidence" in f then FloatOf(f["confidence"]) == Some(a.confidence) else a.confidence == 0.0)
      && (if "severity" in f then f["severity"] == JString(a.severity) else a.severity == "Unknown")
      && (if "symptoms" in f then f["symptoms"] == JArray(JStrings(a.symptoms)) else a.symptoms == [])
      && (if "treatment" in f then f["treatment"] == JArray(JStrings(a.treatment)) else a.treatment == [])
      && (if "prevention" in f then f["prevention"] == JArray(JStrings(a.prevention)) else a.prevention == [])
  {
    if !v.JObject? then
      Failure("reply is not a JSON object")
    else
      var f := v.fields;
      match (TextField(f, "disease_name", "Unknown"), NumberField(f, "confidence", 0.0),
             TextField(f, "severity", "Unknown"), ListField(f, "symptoms"),
             ListField(f, "treatment"), ListField(f, "prevention"))
      case (Some(name), Some(confidence), Some(severity), Some(symptoms), Some(treatment), Some(prevention)) =>
        Success(DiseaseAnalysis(name, confidence, severity, symptoms, treatment, prevention))
      case _ =>
        Failure("reply field has the wrong type")
  }

  /** An empty reply object yields the all-default analysis. */
  lemma BuildAnalysisEmptyObject()
    ensures BuildAnalysis(JObject(map[])) == Success(DiseaseAnalysis("Unknown", 0.0, "Unknown", [], [], []))
  {
  }

  /** The JSON object the prompt asks the model to answer with. */
  function ToJson(a: DiseaseAnalysis): Json {
    JObject(map[
      "disease_name" := JString(a.diseaseName),
      "confidence" := JNumber(a.confidence),
      "severity" := JString(a.severity),
      "symptoms" := JArray(JStrings(a.symptoms)),
      "treatment" := JArray(JStrings(a.treatment)),
      "prevention" := JArray(JStrings(a.prevention))])
  }

  lemma StringsRoundTrip(xs: seq<string>)
    ensures StringsOf(JStrings(xs)) == Some(xs)
  {
    var r := StringsOf(JStrings(xs));
    assert r.Some?;
    assert r.value == xs;
  }

  /** A reply in exactly the requested format yields that analysis, whatever
      its values (a confidence outside [0, 1] included). */
  lemma BuildAnalysisRoundTrip(a: DiseaseAnalysis)
    ensures BuildAnalysis(ToJson(a)) == Success(a)
  {
    StringsRoundTrip(a.symptoms);
    StringsRoundTrip(a.treatment);
    StringsRoundTrip(a.prevention);
  }

  /** The analysis returned when the cleaned reply is not valid JSON. */
  const FallbackAnalysis: DiseaseAnalysis := DiseaseAnalysis(
    "Analysis completed",
    0.8,
    "Moderate",
    ["AI analysis completed - check detailed response"],
    ["Consult with agricultural specialist", "Monitor plant condition"],
    ["Regular plant inspection", "Proper watering and care"])

  /** `if not api_key`: unset or empty. */
  predicate KeyConfigured(apiKey: Option<string>) {
    apiKey.Some? && apiKey.value != ""
  }

  /** The HTTP 500 into which `analyze_plant_image` turns any exception. */
  function Internal(message: string): HttpError {
    HttpError(500, FailurePrefix + message)
  }

  /** `analyze_plant_image`. Every error, the missing API key included,
      ends as an HTTP 500 whose detail starts with "Analysis failed: "; a
      reply that is not valid JSON gives the fixed fallback analysis; a
      decoded reply gives what `BuildAnalysis` gives. */
  function AnalyzePlantImage(apiKey: Option<string>, reply: ModelReply, decode: string -> Decoded): (r: Result<DiseaseAnalysis, HttpError>)
    ensures r.Failure? ==> r.error.status == 500 && StartsWith(r.error.detail, FailurePrefix)
    ensures !KeyConfigured(apiKey) || reply.ModelFailure? ==> r.Failure?
    ensures KeyConfigured(apiKey) && reply.ReplyText? ==>
      match decode(CleanReply(reply.text))
      case DecodeError => r == Success(FallbackAnalysis)
      case Parsed(v) => r.Success? == BuildAnalysis(v).Success? && (r.Success? ==> r.value == BuildAnalysis(v).value)
  {
    if !KeyConfigured(apiKey) then
      Failure(Internal(HttpError(500, "API key not configured").Text()))
    else
      match reply
      case ModelFailure(m) => Failure(Internal(m))
      case ReplyText(text) =>
        match decode(CleanReply(text))
        case DecodeError => Success(FallbackAnalysis)
        case Parsed(v) =>
          match BuildAnalysis(v)
          case Success(a) => Success(a)
          case Failure(m) => Failure(Internal(m))
  }

  /** How the missing-key exception reads once rendered as text. */
  lemma MissingKeyText()
    ensures HttpError(500, "API key not configured").Text() == "500: API key not configured"
  {
    assert DecimalText(500) == "500" by {
      assert DecimalText(5) == "5";
      assert DecimalText(50) == "50";
    }
  }

  /** The missing-key error, as the outer handler re-wraps it: an HTTP 500
      with detail "Analysis failed: 500: API key not configured". */
  lemma MissingKeyDetail(apiKey: Option<string>, reply: ModelReply, decode: string -> Decoded)
    requires !KeyConfigured(apiKey)
    ensures AnalyzePlantImage(apiKey, reply, decode) == Failure(Internal("500: API key not configured"))
  {
    MissingKeyText();
  }

  /** The `plant_analyses` collection. Whether a write fails, and with what
      message, is given by the caller. */
  class AnalysisStore {
    var analyses: seq<DiseaseAnalysis>

    constructor ()
      ensures analyses == []
    {
      analyses := [];
    }

    /** `insert_one`: the record is stored unless the driver reports a failure. */
    method InsertOne(a: DiseaseAnalysis, failure: Option<string>) returns (error: Option<string>)
      modifies this
      ensures error == failure
      ensures analyses == if failure.None? then old(analyses) + [a] else old(analyses)
    {
      error := failure;
      if failure.None? {
        analyses := analyses + [a];
      }
    }
  }

  /** `POST /api/analyze` (`analyze_plant_disease`). It never raises: an
      analysis error becomes `success=False` with no analysis and a message
      starting with "Analysis failed: ". The response does not depend on the
      store at all: without one, or when the write fails, it is the same
      success response. */
  method AnalyzePlantDisease(apiKey: Option<string>, reply: ModelReply, decode: string -> Decoded,
                             db: AnalysisStore?, storeFailure: Option<string>)
    returns (response: AnalysisResponse)
    modifies db
    ensures var outcome := AnalyzePlantImage(apiKey, reply, decode);
      && (response.success <==> outcome.Success?)
      && (outcome.Success? ==> response == AnalysisResponse(true, Some(outcome.value), SuccessMessage))
      && (outcome.Failure? ==> response == AnalysisResponse(false, message := FailurePrefix + outcome.error.Text()))
    ensures !response.success ==> response.analysis == None && StartsWith(response.message, FailurePrefix)
    ensures db != null ==>
      (db.analyses == if response.success && storeFailure.None? then old(db.analyses) + [response.analysis.value] else old(db.analyses))
  {
    var outcome := AnalyzePlantImage(apiKey, reply, decode);
    match outcome
    case Failure(e) =>
      response := AnalysisResponse(false, message := FailurePrefix + e.Text());
    case Success(analysis) =>
      if db != null {
        var error := db.InsertOne(analysis, storeFailure);
        // a failed write is only logged
      }
      response := AnalysisResponse(true, Some(analysis), SuccessMessage);
  }

  /** Python's message for an attribute read on `None`. */
  function NoneAttribute(name: string): string {
    "'NoneType' object has no attribute '" + name + "'"
  }

  /** `POST /api/analyze-upload` (`analyze_uploaded_image`). A declared type
      that is not "image/..." is an HTTP 400; the HTTP error of the analysis
      is re-raised unchanged; every other error (no declared type, a failed
      read, no store, a failed write) becomes `success=False` with a
      message starting with "Analysis failed: ". Unlike `/analyze`, the
      write is part of the outcome. */
  method AnalyzeUploadedImage(contentType: Option<string>, readFailure: Option<string>,
                              apiKey: Option<string>, reply: ModelReply, decode: string -> Decoded,
                              db: AnalysisStore?, storeFailure: Option<string>)
    returns (r: Result<AnalysisResponse, HttpError>)
    modifies db
    ensures contentType.None? ==>
      r == Success(AnalysisResponse(false, message := FailurePrefix + NoneAttribute("startswith")))
    ensures contentType.Some? && !IsImageType(contentType.value) ==>
      r == Failure(HttpError(400, NotAnImage))
    ensures contentType.Some? && IsImageType(contentType.value) ==>
      var outcome := AnalyzePlantImage(apiKey, reply, decode);
      && (readFailure.Some? ==>
            r == Success(AnalysisResponse(false, message := FailurePrefix + readFailure.value)))
      && (readFailure.None? && outcome.Failure? ==> r == Failure(outcome.error))
      && (readFailure.None? && outcome.Success? && db == null ==>
            r == Success(AnalysisResponse(false, message := FailurePrefix + NoneAttribute("plant_analyses"))))
      && (readFailure.None? && outcome.Success? && db != null && storeFailure.Some? ==>
            r == Success(AnalysisResponse(false, message := FailurePrefix + storeFailure.value)))
      && (readFailure.None? && outcome.Success? && db != null && storeFailure.None? ==>
            r == Success(AnalysisResponse(true, Some(outcome.value), SuccessMessage)))
    ensures r.Success? ==> (r.value.success <==> r.value.analysis.Some?)
    ensures r.Success? && !r.value.success ==> StartsWith(r.value.message, FailurePrefix)
    ensures db != null ==>
      (db.analyses == if r.Success? && r.value.success then old(db.analyses) + [r.value.analysis.value] else old(db.analyses))
  {
    if contentType.None? {
      return Success(AnalysisResponse(false, message := FailurePrefix + NoneAttribute("startswith")));
    }
    if !IsImageType(contentType.value) {
      return Failure(HttpError(400, NotAnImage));
    }
    if readFailure.Some? {
      return Success(AnalysisResponse(false, message := FailurePrefix + readFailure.value));
    }
    var outcome := AnalyzePlantImage(apiKey, reply, decode);
    if outcome.Failure? {
      return Failure(outcome.error);
    }
    if db == null {
      return Success(AnalysisResponse(false, message := FailurePrefix + NoneAttribute("plant_analyses")));
    }
    var error := db.InsertOne(outcome.value, storeFailure);
    if error.Some? {
      return Success(AnalysisResponse(false, message := FailurePrefix + error.value));
    }
    r := Success(AnalysisResponse(true, Some(outcome.value), SuccessMessage));
  }
}
