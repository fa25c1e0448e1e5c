/** What the backend and the frontend exchange: the diagnosis record and the
    MIME-type test both of them apply to an uploaded file. */
module Diagnosis {
  import opened Text

  /** `DiseaseAnalysis` (backend/server.py), without the generated `id` and
      `timestamp`. `confidence` is not range-checked anywhere. */
  datatype DiseaseAnalysis = DiseaseAnalysis(
    diseaseName: string,
    confidence: real,
    severity: string,
    symptoms: seq<string>,
    treatment: seq<string>,
    prevention: seq<string>)

  /** A MIME type accepted as an image: it starts with "image/". */
  predicate IsImageType(mime: string) {
    StartsWith(mime, "image/")
  }
}
