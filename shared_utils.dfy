/**
 * Shared helpers of the tools: the default page sizes and the uniform error
 * response `{"success": false, "error": "<type>: <message>", "error_type": <type>, ...}`.
 */
module SharedUtils {
  import opened Values

  const DefaultLimit: int := 100
  const DefaultSearchLimit: int := 50
  const DefaultSemanticResults: int := 10

  /**
   * build_error_response. The extra keyword fields come last in the dict
   * display, so they win over `success` and `error`; `error_type` and
   * `message` cannot be passed as extra fields because they name the
   * function's own parameters.
   */
  function BuildErrorResponse(errorType: string, message: string, extra: Dict): (r: Dict)
    requires "error_type" !in extra && "message" !in extra
    ensures r.Keys == {"success", "error", "error_type"} + extra.Keys
    ensures r["error_type"] == JStr(errorType)
    ensures "success" !in extra ==> r["success"] == JBool(false)
    ensures "error" !in extra ==> r["error"] == JStr(errorType + ": " + message)
    ensures forall k :: k in extra ==> r[k] == extra[k]
  {
    map["success" := JBool(false), "error" := JStr(errorType + ": " + message), "error_type" := JStr(errorType)] + extra
  }

  /** Without extra fields the response is exactly the three standard fields, with `success` false. */
  lemma PlainErrorResponse(errorType: string, message: string)
    ensures BuildErrorResponse(errorType, message, map[]) ==
      map["success" := JBool(false), "error" := JStr(errorType + ": " + message), "error_type" := JStr(errorType)]
    ensures !Truthy(BuildErrorResponse(errorType, message, map[])["success"])
  {
  }
}
