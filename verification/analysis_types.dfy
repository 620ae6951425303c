/** The value types of the dashboard (Frontend/src/types/analysis.ts) and the
    envelope the live feed carries. Confidences are kept as `real` and are
    only carried around, never computed with. */
module AnalysisTypes {
  import opened Text

  // `label` is a reserved word in Dafny, so label fields are named `lbl`.

  datatype ModelType = Nivell | Tap | Level

  /** One single-shot classification, as kept in the client-side history. */
  datatype AnalysisResult = AnalysisResult(
    id: string,
    model: ModelType,
    lbl: string,
    confidence: real,
    timestamp: string,
    imageName: string,
    imagePreview: string,
    responseTime: Option<real>)

  /** The outcome of one sub-check (tap or level) of a bottle. */
  datatype AnalysisData = AnalysisData(lbl: string, confidence: real, image: string)

  datatype Status = PASS | FAIL

  /** One inspected bottle as the client holds it. `hasAlert` is recomputed by
      the client; whatever arrived on the wire is overwritten. */
  datatype BottleAnalysis = BottleAnalysis(
    id: string,
    bottleId: string,
    timestamp: string,
    tap: AnalysisData,
    level: AnalysisData,
    status: Status,
    bottlesProcessed: int,
    hasAlert: bool)

  /** A decoded socket message. `data` is `None` when the payload has no
      usable `data` object (reading `data.tap.label` would throw). */
  datatype WebSocketMessage = WebSocketMessage(msgType: string, data: Option<BottleAnalysis>)

  const AnalysisResultType: string := "analysis_result"
}
