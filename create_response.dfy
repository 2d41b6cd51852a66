/**
 * The HTTP response envelope and its builder (src/application/api/create-response.ts,
 * with the `Response` and `RequestHeaders` shapes of src/application/api/response.ts).
 */
module Api {

  import opened Wrappers
  import opened JsValues

  /** The `HttpStatus` members the helpers use, with their HTTP codes. */
  const HttpOk: int := 200
  const HttpBadRequest: int := 400
  const HttpUnauthorized: int := 401

  const AccessControlAllowOrigin: string := "Access-Control-Allow-Origin"

  /** The response body: `null`, `undefined` (what `JSON.stringify(undefined)` gives) or JSON text. */
  datatype Body = NullBody | UndefinedBody | Text(json: string)

  datatype Response = Response(statusCode: int, headers: map<string, string>, body: Body)

  /**
   * `createResponse(body, statusCode, reqHeaders)`. The host's `JSON.stringify` is the
   * parameter `stringify`, whose `None` is its `undefined` result.
   */
  function CreateResponse(
    stringify: JsValue -> Option<string>,
    body: JsValue,
    statusCode: int := HttpOk,
    reqHeaders: map<string, string> := map[]
  ): (r: Response)
    ensures r.statusCode == statusCode
    ensures r.headers.Keys == reqHeaders.Keys + {AccessControlAllowOrigin}
    ensures forall k :: k in reqHeaders ==> r.headers[k] == reqHeaders[k]
    ensures AccessControlAllowOrigin !in reqHeaders ==> r.headers[AccessControlAllowOrigin] == "*"
    ensures r.body.NullBody? <==> body == Null
    ensures body != Null ==> (r.body.Text? <==> stringify(body).Some?)
    ensures r.body.Text? ==> stringify(body) == Some(r.body.json)
  {
    var accessControlAllowOriginHeader := map[AccessControlAllowOrigin := "*"];
    Response(
      statusCode,
      accessControlAllowOriginHeader + reqHeaders,
      if body == Null then NullBody
      else match stringify(body)
           case Some(json) => Text(json)
           case None => UndefinedBody)
  }

  /** With the default arguments: status 200 and the CORS header alone. */
  lemma DefaultResponse(stringify: JsValue -> Option<string>, body: JsValue)
    ensures CreateResponse(stringify, body).statusCode == HttpOk
    ensures CreateResponse(stringify, body).headers == map[AccessControlAllowOrigin := "*"]
  {
  }

  /** A caller-supplied CORS header replaces the default one. */
  lemma CallerHeaderWins(stringify: JsValue -> Option<string>, body: JsValue, statusCode: int, value: string)
    ensures CreateResponse(stringify, body, statusCode, map[AccessControlAllowOrigin := value]).headers
            == map[AccessControlAllowOrigin := value]
  {
  }
}
