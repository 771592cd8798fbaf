/**
 * Callers of the handler that rely on nothing but its contracts: a skipped
 * health check, a logged order, and the round trip of a request body
 * through the middleware.
 */
module Scenarios {
  import opened Wrappers
  import opened Http
  import opened Effects
  import opened PluginConfig
  import opened Capture
  import opened Records
  import opened Handler

  /** `enabled: true`, `skip_paths: ["/health"]`, `log_header_keys: ["X-Request-Id"]`. */
  function HealthCheckSettings(): map<string, Value>
  {
    map[PluginName := VMap(map[
      "enabled" := VBool(true),
      "skip_paths" := VList([VString("/health")]),
      "log_header_keys" := VList([VString("X-Request-Id")])])]
  }

  lemma HealthCheckConfig()
    ensures ExtractConfig(HealthCheckSettings()).enabled
    ensures ExtractConfig(HealthCheckSettings()).skipPaths == ["/health"]
  {
    var section := MapAt(HealthCheckSettings(), PluginName);
    assert BoolAt(section, "enabled") == Some(true);
    assert ListAt(section, "skip_paths") == Some([VString("/health")]);
    StringsOfAllStrings([VString("/health")]);
  }

  /** `enabled: true`, `skip_paths: []`, no header keys and no Kafka section. */
  function OrderSettings(): map<string, Value>
  {
    map[PluginName := VMap(map["enabled" := VBool(true), "skip_paths" := VList([])])]
  }

  lemma OrderConfig()
    ensures ExtractConfig(OrderSettings()).enabled
    ensures ExtractConfig(OrderSettings()).skipPaths == []
    ensures ExtractConfig(OrderSettings()).logHeaderKeys == []
    ensures !ExtractConfig(OrderSettings()).kafka.enabled
  {
    var section := MapAt(OrderSettings(), PluginName);
    assert BoolAt(section, "enabled") == Some(true);
    assert ListAt(section, "skip_paths") == Some([]);
    assert ListAt(section, "log_header_keys") == None;
    assert !HasMap(section, "kafka");
  }

  /** Without header keys, the REQUEST record is the fixed fields plus the body. */
  lemma PlainRequestRecord(cfg: Config, req: RequestView, ids: SpanIds)
    requires cfg.logHeaderKeys == []
    ensures var r := RequestRecord(cfg, req, ids);
      && "method" in r && r["method"] == Text(req.verb)
      && "path" in r && r["path"] == Text(req.path)
      && RequestBodyKey in r && r[RequestBodyKey] == Blob(req.body)
      && "span_id" in r && r["span_id"] == Text(ids.spanId)
      && "trace_id" in r && r["trace_id"] == Text(ids.traceId)
  {
  }

  /** The RESPONSE record's fields by name. */
  lemma ResponseRecordFields(ids: SpanIds, status: int, body: seq<byte>, headers: Header)
    ensures var r := ResponseRecord(ids, status, body, headers);
      && "response_status_code" in r && r["response_status_code"] == Number(status)
      && "response_body" in r && r["response_body"] == Blob(body)
      && "span_id" in r && r["span_id"] == Text(ids.spanId)
      && "trace_id" in r && r["trace_id"] == Text(ids.traceId)
  {
  }

  /**
   * Configured with `skip_paths: ["/health"]`, a request for /health is
   * forwarded as it is, no record is emitted, and the real writer receives
   * exactly what the wrapped handler wrote.
   */
  method HealthCheckIsNotLogged(
    body: seq<byte>, calls: seq<WriterCall>, ids: SpanIds, dialed: Option<Pusher>,
    serialize: Record -> string, publish: (Pusher, string) -> Option<string>)
    returns (steps: seq<Step>, delivered: seq<WriterCall>)
    ensures steps == [ForwardStep("/health", body)]
    ensures delivered == calls
  {
    var extra := HealthCheckSettings();
    HealthCheckConfig();
    var m := new Middleware(extra);
    var req := new Request("GET", "gateway.local", "/health", "", map[], body);
    var sink := new ResponseSink();
    var n := |m.trace|;
    ghost var view := req.View();
    m.Serve(req, sink, calls, ids, dialed, serialize, publish);
    HandlerSteps(m.cfg, None, dialed, view, calls, map[], ids, serialize, publish);
    steps := Steps(m.trace[n..]);
    delivered := sink.calls;
  }

  /**
   * With logging on and nothing skipped, `POST /orders` emits a REQUEST
   * record holding its method, path and body, is forwarded with that same
   * body, then emits a RESPONSE record holding the status and body the
   * wrapped handler wrote; both records carry the request's span and trace ids.
   */
  method OrderIsLogged(
    body: seq<byte>, calls: seq<WriterCall>, ids: SpanIds, dialed: Option<Pusher>,
    serialize: Record -> string, publish: (Pusher, string) -> Option<string>)
    returns (emitted: seq<Effect>, request: Record, response: Record)
    ensures Steps(emitted) == [EmitStep("REQUEST"), ForwardStep("/orders", body), EmitStep("RESPONSE")]
    ensures Emit("REQUEST", request) in emitted
    ensures "method" in request && request["method"] == Text("POST")
    ensures "path" in request && request["path"] == Text("/orders")
    ensures RequestBodyKey in request && request[RequestBodyKey] == Blob(body)
    ensures Emit("RESPONSE", response) in emitted
    ensures "response_status_code" in response && response["response_status_code"] == Number(CapturedStatus(calls))
    ensures "response_body" in response && response["response_body"] == Blob(CapturedBody(calls))
    ensures "span_id" in request && "span_id" in response && request["span_id"] == response["span_id"] == Text(ids.spanId)
    ensures "trace_id" in request && "trace_id" in response && request["trace_id"] == response["trace_id"] == Text(ids.traceId)
  {
    var extra := OrderSettings();
    OrderConfig();
    var m := new Middleware(extra);
    var req := new Request("POST", "gateway.local", "/orders", "", map[], body);
    var sink := new ResponseSink();
    var n := |m.trace|;
    var view := req.View();
    request := RequestRecord(m.cfg, view, ids);
    response := ResponseRecord(ids, CapturedStatus(calls), CapturedBody(calls), HeadersAfter(map[], calls));
    ResponseRecordFields(ids, CapturedStatus(calls), CapturedBody(calls), HeadersAfter(map[], calls));
    PlainRequestRecord(m.cfg, view, ids);
    m.Serve(req, sink, calls, ids, dialed, serialize, publish);
    emitted := m.trace[n..];
    HandlerSteps(m.cfg, None, dialed, view, calls, map[], ids, serialize, publish);
    HandlerRecords(m.cfg, None, dialed, view, calls, map[], ids, serialize, publish);
  }

  /**
   * Whatever the configuration and path, the reader the request carries
   * after the middleware, the one the wrapped handler is handed, holds every
   * byte of the body, the empty body included.
   */
  method BodySurvivesMiddleware(
    extra: map<string, Value>, path: string, body: seq<byte>, calls: seq<WriterCall>, ids: SpanIds,
    dialed: Option<Pusher>, serialize: Record -> string, publish: (Pusher, string) -> Option<string>)
    returns (read: seq<byte>)
    ensures read == body
  {
    var m := new Middleware(extra);
    var req := new Request("POST", "gateway.local", path, "", map[], body);
    var sink := new ResponseSink();
    m.Serve(req, sink, calls, ids, dialed, serialize, publish);
    read := req.body.ReadAll();
  }
}
