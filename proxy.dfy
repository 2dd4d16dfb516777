/** The serverless route `/api/pix/charge`: it adds the CORS headers, lets
    only POST through, refuses to run without its credentials, forwards the
    request body to the Fruitfy gateway with the credentials attached, and
    hands back the gateway's status and JSON body, or a 500 envelope when the
    call or the parse fails. */
module ChargeProxy {
  import opened Wrappers
  import opened JsonValues

  /** The incoming request: its method and its parsed body, if any. */
  datatype ProxyRequest = ProxyRequest(verb: string, body: Option<Json>)

  /** The server's environment entries `FRUITFY_TOKEN` and `FRUITFY_STORE_ID`. */
  datatype ProxyEnv = ProxyEnv(token: Option<string>, storeId: Option<string>)

  /** What the gateway does with the forwarded call: the network fails, or it
      answers with a status and a body that parses as JSON (`Some`) or not
      (`None`, the case where `response.json()` throws). */
  datatype Upstream = NetworkError | Answered(status: int, body: Option<Json>)

  /** The call made to the gateway. */
  datatype Outbound = Outbound(url: string, verb: string, headers: map<string, string>, body: Option<Json>)

  /** A response body: `end()` with nothing, or `json(v)`. */
  datatype ReplyBody = Empty | JsonBody(value: Json)

  datatype Reply = Reply(headers: map<string, string>, status: int, body: ReplyBody)

  /** The reply and, when the gateway was called, the call made. */
  datatype ProxyResult = ProxyResult(reply: Reply, forwarded: Option<Outbound>)

  const GatewayUrl := "https://api.fruitfy.io/api/pix/charge"

  const CorsHeaders: map<string, string> := map[
    "Access-Control-Allow-Origin" := "*",
    "Access-Control-Allow-Methods" := "POST, OPTIONS",
    "Access-Control-Allow-Headers" := "Content-Type"]

  const MethodNotAllowed := "Method not allowed"
  const ConfigurationError := "Erro de configuração do servidor de pagamentos."
  const ConnectionError := "Erro de conexão com o servidor de pagamentos. Tente novamente."

  /** The `{ success: false, message }` envelope. */
  function Failure(message: string): (j: Json)
    ensures Get(j, "success") == Some(Bool(false)) && Get(j, "message") == Some(Str(message))
  {
    var members := [("success", Bool(false)), ("message", Str(message))];
    assert "message"[0] != "success"[0];
    assert members[..1] == [("success", Bool(false))];
    assert Lookup(members[..1], "success") == Some(Bool(false));
    Obj(members)
  }

  /** A configuration entry that is missing or empty counts as absent. */
  predicate Present(v: Option<string>) {
    v.Some? && v.value != ""
  }

  /** The headers sent to the gateway. */
  function GatewayHeaders(token: string, storeId: string): (h: map<string, string>)
    ensures h.Keys == {"Authorization", "Store-Id", "Content-Type", "Accept", "Accept-Language"}
    ensures h["Authorization"] == "Bearer " + token && h["Store-Id"] == storeId
    ensures h["Content-Type"] == "application/json" && h["Accept"] == "application/json"
    ensures h["Accept-Language"] == "pt_BR"
  {
    map["Authorization" := "Bearer " + token,
        "Store-Id" := storeId,
        "Content-Type" := "application/json",
        "Accept" := "application/json",
        "Accept-Language" := "pt_BR"]
  }

  /** The decision table of `handler`. */
  function Handle(req: ProxyRequest, env: ProxyEnv, upstream: Upstream): (r: ProxyResult)
    ensures r.reply.headers == CorsHeaders
    ensures r.forwarded.Some? <==> req.verb == "POST" && Present(env.token) && Present(env.storeId)
  {
    if req.verb == "OPTIONS" then
      ProxyResult(Reply(CorsHeaders, 200, Empty), None)
    else if req.verb != "POST" then
      ProxyResult(Reply(CorsHeaders, 405, JsonBody(Failure(MethodNotAllowed))), None)
    else if !Present(env.token) || !Present(env.storeId) then
      ProxyResult(Reply(CorsHeaders, 500, JsonBody(Failure(ConfigurationError))), None)
    else
      var call := Outbound(GatewayUrl, "POST", GatewayHeaders(env.token.value, env.storeId.value), req.body);
      match upstream
      case Answered(status, Some(data)) => ProxyResult(Reply(CorsHeaders, status, JsonBody(data)), Some(call))
      case _ => ProxyResult(Reply(CorsHeaders, 500, JsonBody(Failure(ConnectionError))), Some(call))
  }

  /** A preflight request is answered 200 with an empty body. */
  lemma PreflightAnswered(req: ProxyRequest, env: ProxyEnv, upstream: Upstream)
    requires req.verb == "OPTIONS"
    ensures Handle(req, env, upstream) == ProxyResult(Reply(CorsHeaders, 200, Empty), None)
  {
  }

  /** Every other method but POST gets 405, whatever the configuration and
      the gateway would do: neither is consulted. */
  lemma OtherMethodsRefused(req: ProxyRequest, env: ProxyEnv, upstream: Upstream,
                            env': ProxyEnv, upstream': Upstream)
    requires req.verb != "OPTIONS" && req.verb != "POST"
    ensures Handle(req, env, upstream).reply.status == 405
    ensures Handle(req, env, upstream).reply.body == JsonBody(Failure(MethodNotAllowed))
    ensures Handle(req, env, upstream) == Handle(req, env', upstream')
  {
  }

  /** Without both credentials the route answers 500 without calling the
      gateway, and the answer is the same for every incomplete
      configuration, so it reveals nothing about which entry is missing. */
  lemma MissingCredentialsRefused(req: ProxyRequest, env: ProxyEnv, upstream: Upstream,
                                  env': ProxyEnv, upstream': Upstream)
    requires req.verb == "POST"
    requires !Present(env.token) || !Present(env.storeId)
    requires !Present(env'.token) || !Present(env'.storeId)
    ensures Handle(req, env, upstream).reply.status == 500
    ensures Handle(req, env, upstream).reply.body == JsonBody(Failure(ConfigurationError))
    ensures Handle(req, env, upstream).forwarded.None?
    ensures Handle(req, env, upstream) == Handle(req, env', upstream')
  {
  }

  /** A configured POST is forwarded to the gateway with exactly the five
      headers of the route, the credentials among them, and the request body
      as it came. */
  lemma ForwardedCall(req: ProxyRequest, env: ProxyEnv, upstream: Upstream)
    requires req.verb == "POST" && Present(env.token) && Present(env.storeId)
    ensures var call := Handle(req, env, upstream).forwarded.value;
      && call.url == GatewayUrl && call.verb == "POST" && call.body == req.body
      && call.headers == GatewayHeaders(env.token.value, env.storeId.value)
      && call.headers.Keys == {"Authorization", "Store-Id", "Content-Type", "Accept", "Accept-Language"}
      && call.headers["Authorization"] == "Bearer " + env.token.value
      && call.headers["Store-Id"] == env.storeId.value
      && call.headers["Content-Type"] == "application/json" && call.headers["Accept"] == "application/json"
      && call.headers["Accept-Language"] == "pt_BR"
  {
  }

  /** The forwarded call does not depend on what the gateway answers. */
  lemma ForwardIndependentOfAnswer(req: ProxyRequest, env: ProxyEnv, upstream: Upstream, upstream': Upstream)
    ensures Handle(req, env, upstream).forwarded == Handle(req, env, upstream').forwarded
  {
  }

  /** A JSON answer from the gateway is passed back with its own status. */
  lemma AnswerPassedThrough(req: ProxyRequest, env: ProxyEnv, status: int, data: Json)
    requires req.verb == "POST" && Present(env.token) && Present(env.storeId)
    ensures Handle(req, env, Answered(status, Some(data))).reply == Reply(CorsHeaders, status, JsonBody(data))
  {
  }

  /** A network failure or an answer that is not JSON becomes the 500
      connection envelope. */
  lemma GatewayFailureEnveloped(req: ProxyRequest, env: ProxyEnv, upstream: Upstream)
    requires req.verb == "POST" && Present(env.token) && Present(env.storeId)
    requires upstream.NetworkError? || upstream.body.None?
    ensures Handle(req, env, upstream).reply == Reply(CorsHeaders, 500, JsonBody(Failure(ConnectionError)))
  {
  }

  /** Every status the route itself chooses is 200, 405 or 500; any other
      status is the gateway's. */
  lemma StatusOrigin(req: ProxyRequest, env: ProxyEnv, upstream: Upstream)
    ensures var s := Handle(req, env, upstream).reply.status;
      s == 200 || s == 405 || s == 500 || (upstream.Answered? && s == upstream.status)
  {
  }

  // ------------------------------------------------- the response object

  /** The part of the platform's response object the route writes to. */
  class ServerResponse {
    var headers: map<string, string>
    var statusCode: int
    var body: ReplyBody
    var finished: bool

    /** A fresh response: no headers, status 200, nothing sent. */
    constructor ()
      ensures headers == map[] && statusCode == 200 && body == Empty && !finished
    {
      headers := map[];
      statusCode := 200;
      body := Empty;
      finished := false;
    }

    /** `res.setHeader(name, value)`. */
    method SetHeader(name: string, value: string)
      requires !finished
      modifies this
      ensures headers == old(headers)[name := value]
      ensures statusCode == old(statusCode) && body == old(body) && finished == old(finished)
    {
      headers := headers[name := value];
    }

    /** `res.status(code)`. */
    method Status(code: int)
      requires !finished
      modifies this
      ensures statusCode == code
      ensures headers == old(headers) && body == old(body) && finished == old(finished)
    {
      statusCode := code;
    }

    /** `res.json(value)`: sends the value and finishes the response. */
    method Json(value: Json)
      requires !finished
      modifies this
      ensures body == JsonBody(value) && finished
      ensures headers == old(headers) && statusCode == old(statusCode)
    {
      body := JsonBody(value);
      finished := true;
    }

    /** `res.end()`: finishes the response with no body. */
    method End()
      requires !finished
      modifies this
      ensures body == Empty && finished
      ensures headers == old(headers) && statusCode == old(statusCode)
    {
      body := Empty;
      finished := true;
    }
  }

  /** `handler(req, res)`: writes the reply `Handle` describes into `res`,
      keeping whatever headers `res` already carried, and returns the call
      made to the gateway, if any. */
  method Handler(req: ProxyRequest, env: ProxyEnv, upstream: Upstream, res: ServerResponse)
    returns (forwarded: Option<Outbound>)
    requires !res.finished
    modifies res
    ensures res.finished
    ensures res.headers == old(res.headers) + Handle(req, env, upstream).reply.headers
    ensures res.statusCode == Handle(req, env, upstream).reply.status
    ensures res.body == Handle(req, env, upstream).reply.body
    ensures forwarded == Handle(req, env, upstream).forwarded
  {
    res.SetHeader("Access-Control-Allow-Origin", "*");
    res.SetHeader("Access-Control-Allow-Methods", "POST, OPTIONS");
    res.SetHeader("Access-Control-Allow-Headers", "Content-Type");
    assert res.headers == old(res.headers) + CorsHeaders;

    if req.verb == "OPTIONS" {
      res.Status(200);
      res.End();
      return None;
    }

    if req.verb != "POST" {
      res.Status(405);
      res.Json(Failure(MethodNotAllowed));
      return None;
    }

    var token := env.token;
    var storeId := env.storeId;
    if !Present(token) || !Present(storeId) {
      res.Status(500);
      res.Json(Failure(ConfigurationError));
      return None;
    }

    forwarded := Some(Outbound(GatewayUrl, "POST", GatewayHeaders(token.value, storeId.value), req.body));
    match upstream {
      case Answered(status, Some(data)) =>
        res.Status(status);
        res.Json(data);
      case _ =>
        res.Status(500);
        res.Json(Failure(ConnectionError));
    }
  }
}
