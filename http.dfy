/**
 * The JSON responses the controllers and the error handler send.
 */
module Http {
  import opened Wrappers
  import opened Json
  import opened Store

  /** The `data` member of a response, when there is one. */
  datatype Payload = NoPayload | AnalysisData(result: JsonValue) | HistoryEntry(entry: MatchRecord)

  /** `res.status(statusCode).json({ success, status, message, data })`; `status` only in the error handler's bodies. */
  datatype Response = Response(statusCode: int, success: bool, status: Option<string>, message: string, payload: Payload)
}
