/**
 * The response envelope every endpoint returns and the webhook signature
 * check (app/utils/helpers.py). HMAC-SHA256 is a parameter `mac(secret,
 * payload)` standing for the lowercase hex digest; the clock reading that
 * stamps the envelope is the parameter `now`.
 */
module Helpers {
  import opened Wrappers
  import opened Values
  import Text

  /** format_api_response: success, message and timestamp always; data and errors only when given. */
  function FormatApiResponse(success: bool, message: string, data: Option<map<string, Json>>,
                             errors: Option<map<string, Json>>, now: real): (r: map<string, Json>)
    ensures "success" in r && r["success"] == JBool(success)
    ensures "message" in r && r["message"] == JStr(message)
    ensures "timestamp" in r && r["timestamp"] == JReal(now)
    ensures "data" in r <==> data.Some?
    ensures data.Some? ==> r["data"] == JObj(data.value)
    ensures "errors" in r <==> errors.Some?
    ensures errors.Some? ==> r["errors"] == JObj(errors.value)
    ensures r.Keys <= {"success", "message", "timestamp", "data", "errors"}
  {
    var base := map["success" := JBool(success), "message" := JStr(message), "timestamp" := JReal(now)];
    var withData := if data.Some? then base["data" := JObj(data.value)] else base;
    if errors.Some? then withData["errors" := JObj(errors.value)] else withData
  }

  /** format_success_response: a successful envelope, never with an errors key. */
  function FormatSuccessResponse(message: string, data: Option<map<string, Json>>, now: real): (r: map<string, Json>)
    ensures "success" in r && "message" in r && r["success"] == JBool(true) && r["message"] == JStr(message)
    ensures "errors" !in r
    ensures "data" in r <==> data.Some?
  {
    FormatApiResponse(true, message, data, None, now)
  }

  /** format_error_response: a failed envelope, never with a data key. */
  function FormatErrorResponse(message: string, errors: Option<map<string, Json>>, now: real): (r: map<string, Json>)
    ensures "success" in r && "message" in r && r["success"] == JBool(false) && r["message"] == JStr(message)
    ensures "data" !in r
    ensures "errors" in r <==> errors.Some?
  {
    FormatApiResponse(false, message, None, errors, now)
  }

  /** What an endpoint answers: the HTTP status code and the JSON body. */
  datatype Response = Response(status: int, body: map<string, Json>)

  /** A returned success envelope. */
  function SuccessResponse(status: int, message: string, data: map<string, Json>, now: real): (r: Response)
    ensures r.status == status && r.body == FormatSuccessResponse(message, Some(data), now)
    ensures r.body["data"] == JObj(data)
  {
    Response(status, FormatSuccessResponse(message, Some(data), now))
  }

  /** An HTTPException whose detail is an error envelope: FastAPI answers `{"detail": detail}`. */
  function ErrorResponse(status: int, message: string, now: real): (r: Response)
    ensures r.status == status && r.body.Keys == {"detail"}
    ensures r.body["detail"] == JObj(FormatErrorResponse(message, None, now))
  {
    Response(status, map["detail" := JObj(FormatErrorResponse(message, None, now))])
  }

  /** What hexdigest() returns for SHA-256: 64 lowercase hexadecimal digits. */
  predicate IsHexDigest(s: string) {
    |s| == 64 && forall i :: 0 <= i < |s| ==> ('0' <= s[i] <= '9' || 'a' <= s[i] <= 'f')
  }

  /**
   * validate_webhook_signature: hmac.compare_digest(signature, expected).
   * compare_digest raises TypeError on a str holding a non-ASCII character;
   * the except clause turns that into False.
   */
  function ValidateWebhookSignature(payload: string, signature: string, secret: string,
                                    mac: (string, string) -> string): (valid: bool)
    ensures valid ==> signature == mac(secret, payload)
    ensures !Text.IsAscii(signature) ==> !valid
  {
    var expected := mac(secret, payload);
    if !Text.IsAscii(signature) || !Text.IsAscii(expected) then false
    else signature == expected
  }

  /**
   * With a digest of the proper form, the check accepts exactly the signature
   * equal to the HMAC of the payload under the secret.
   */
  lemma SignatureValidIffEqualsDigest(payload: string, signature: string, secret: string,
                                      mac: (string, string) -> string)
    requires IsHexDigest(mac(secret, payload))
    ensures ValidateWebhookSignature(payload, signature, secret, mac) <==> signature == mac(secret, payload)
  {
    var expected := mac(secret, payload);
    assert Text.IsAscii(expected) by {
      forall i | 0 <= i < |expected| ensures expected[i] as int < 128 {
        assert '0' <= expected[i] <= '9' || 'a' <= expected[i] <= 'f';
      }
    }
  }
}
