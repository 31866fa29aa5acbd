/**
 * The reply a script sends back on `__script_result`, reduced to the one of
 * two shapes `execute_js` hands to its caller:
 * `{"success": true, "data": …}` or `{"success": false, "error": "…"}`.
 */
module ScriptResult {
  import opened Wrappers
  import opened Json

  const UnknownError: string := "Unknown error"

  /** `{"success": true, "data": data}` */
  function SuccessJson(data: Value): Value {
    Object(map["success" := Bool(true), "data" := data])
  }

  /** `{"success": false, "error": error}` */
  function FailureJson(error: string): Value {
    Object(map["success" := Bool(false), "error" := String(error)])
  }

  /** The two shapes a normalised reply can take. */
  predicate IsSuccessShape(v: Value) {
    v.Object? && v.fields.Keys == {"success", "data"} && v.fields["success"] == Bool(true)
  }

  predicate IsFailureShape(v: Value) {
    && v.Object? && v.fields.Keys == {"success", "error"}
    && v.fields["success"] == Bool(false) && v.fields["error"].String?
  }

  /** The payload's `success` field read as a boolean; absent or non-boolean is `false`. */
  function Succeeded(payload: map<string, Value>): bool {
    match Get(payload, "success")
    case Some(v) => (match AsBool(v) case Some(b) => b case None => false)
    case None => false
  }

  /**
   * The listener's normalisation: a success reply carries `data` (or `null`
   * when it is absent), a failure carries `error` when it is a string and
   * "Unknown error" otherwise.
   */
  function Normalize(payload: map<string, Value>): (r: Value)
    ensures IsSuccessShape(r) || IsFailureShape(r)
    ensures !("data" in r.fields && "error" in r.fields)
    ensures IsSuccessShape(r) <==> "success" in payload && payload["success"] == Bool(true)
  {
    if Succeeded(payload) then
      SuccessJson(match Get(payload, "data") case Some(d) => d case None => Null)
    else
      FailureJson(
        match Get(payload, "error")
        case Some(e) => (match AsStr(e) case Some(s) => s case None => UnknownError)
        case None => UnknownError)
  }

  /** What a success reply carries. */
  lemma NormalizeSuccess(payload: map<string, Value>)
    requires "success" in payload && payload["success"] == Bool(true)
    ensures Normalize(payload)
            == SuccessJson(if "data" in payload then payload["data"] else Null)
  {
  }

  /** What a failure reply carries. */
  lemma NormalizeFailure(payload: map<string, Value>)
    requires !("success" in payload && payload["success"] == Bool(true))
    ensures Normalize(payload)
            == FailureJson(
                 if "error" in payload && payload["error"].String?
                 then payload["error"].s else UnknownError)
  {
  }

  /** A normalised reply, received again as a payload, normalises to itself. */
  lemma NormalizeIdempotent(payload: map<string, Value>)
    ensures Normalize(Normalize(payload).fields) == Normalize(payload)
  {
    var r := Normalize(payload);
    if IsSuccessShape(r) {
      NormalizeSuccess(r.fields);
    } else {
      NormalizeFailure(r.fields);
    }
  }

  /** Every reply of either shape is the normalisation of itself. */
  lemma ShapesAreFixedPoints(v: Value)
    requires IsSuccessShape(v) || IsFailureShape(v)
    ensures Normalize(v.fields) == v
  {
    if IsSuccessShape(v) {
      NormalizeSuccess(v.fields);
      assert v.fields == map["success" := Bool(true), "data" := v.fields["data"]];
    } else {
      NormalizeFailure(v.fields);
      assert v.fields == map["success" := Bool(false), "error" := v.fields["error"]];
    }
  }
}
