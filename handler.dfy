/**
 * The handler registerHandlers returns: pass the request straight through
 * when logging is off or the path is skipped; otherwise create the Kafka
 * producer if there is none yet, log the request, forward it through a
 * capturing writer, and log the response.
 */
module Handler {
  import opened Wrappers
  import opened Http
  import opened Effects
  import opened PluginConfig
  import opened SkipPaths
  import opened Capture
  import opened Emission
  import opened Records

  /** The request is forwarded untouched and not logged. */
  predicate PassesThrough(cfg: Config, path: string) {
    !cfg.enabled || path in cfg.skipPaths
  }

  /** A logged request finds no producer while Kafka is enabled, so it dials one. */
  predicate Dials(cfg: Config, pusher: Option<Pusher>, path: string) {
    !PassesThrough(cfg, path) && pusher.None? && cfg.kafka.enabled
  }

  /**
   * The producer after one request, given the outcome `dialed` of a dial
   * (None when it failed). An existing producer is kept; a failed dial leaves
   * none, so the next logged request dials again.
   */
  function NextPusher(cfg: Config, pusher: Option<Pusher>, dialed: Option<Pusher>, path: string): (p: Option<Pusher>)
    ensures pusher.Some? ==> p == pusher
    ensures PassesThrough(cfg, path) || !cfg.kafka.enabled ==> p == pusher
    ensures p != pusher ==> Dials(cfg, pusher, path) && p == dialed
    ensures Dials(cfg, pusher, path) ==> p == dialed
  {
    if Dials(cfg, pusher, path) then dialed else pusher
  }

  /**
   * What the handler does for a request it logs. `calls` are the calls the
   * wrapped handler makes on the response writer it is given, `header0` the
   * response header map before it runs, `ids` the span of the request.
   */
  function LoggedTrace(
    cfg: Config, pusher: Option<Pusher>, dialed: Option<Pusher>, req: RequestView,
    calls: seq<WriterCall>, header0: Header, ids: SpanIds,
    serialize: Record -> string, publish: (Pusher, string) -> Option<string>): seq<Effect>
  {
    var p := NextPusher(cfg, pusher, dialed, req.path);
    var response := ResponseRecord(ids, CapturedStatus(calls), CapturedBody(calls), HeadersAfter(header0, calls));
    (if Dials(cfg, pusher, req.path) then [Dial(cfg.kafka.brokers, cfg.kafka.topic)] else [])
    + WriteLogTrace("REQUEST", RequestRecord(cfg, req, ids), cfg.stdout, [p], serialize, publish)
    + [Forward(req.path, req.body)]
    + WriteLogTrace("RESPONSE", response, cfg.stdout, [p], serialize, publish)
  }

  /** Everything the handler does for one request. */
  function HandlerTrace(
    cfg: Config, pusher: Option<Pusher>, dialed: Option<Pusher>, req: RequestView,
    calls: seq<WriterCall>, header0: Header, ids: SpanIds,
    serialize: Record -> string, publish: (Pusher, string) -> Option<string>): seq<Effect>
  {
    if PassesThrough(cfg, req.path) then [Forward(req.path, req.body)]
    else LoggedTrace(cfg, pusher, dialed, req, calls, header0, ids, serialize, publish)
  }

  /** The skeleton of a logged request's trace, from the skeletons of its parts. */
  lemma LoggedSteps(dial: seq<Effect>, request: seq<Effect>, forward: Effect, response: seq<Effect>)
    requires Steps(dial) == [] && Steps(request) == [EmitStep("REQUEST")] && Steps(response) == [EmitStep("RESPONSE")]
    requires forward.Forward?
    ensures Steps(dial + request + [forward] + response) ==
      [EmitStep("REQUEST"), ForwardStep(forward.path, forward.body), EmitStep("RESPONSE")]
  {
    StepsAppend(dial + request + [forward], response);
    StepsAppend(dial + request, [forward]);
    StepsAppend(dial, request);
  }

  /**
   * A disabled plugin or a skipped path forwards once and emits no record;
   * any other request emits REQUEST, is forwarded, then emits RESPONSE. In
   * both cases the wrapped handler sees the request's own path and body.
   */
  lemma HandlerSteps(
    cfg: Config, pusher: Option<Pusher>, dialed: Option<Pusher>, req: RequestView,
    calls: seq<WriterCall>, header0: Header, ids: SpanIds,
    serialize: Record -> string, publish: (Pusher, string) -> Option<string>)
    ensures Steps(HandlerTrace(cfg, pusher, dialed, req, calls, header0, ids, serialize, publish)) ==
      if PassesThrough(cfg, req.path) then [ForwardStep(req.path, req.body)]
      else [EmitStep("REQUEST"), ForwardStep(req.path, req.body), EmitStep("RESPONSE")]
  {
    if !PassesThrough(cfg, req.path) {
      var p := NextPusher(cfg, pusher, dialed, req.path);
      var request := RequestRecord(cfg, req, ids);
      var response := ResponseRecord(ids, CapturedStatus(calls), CapturedBody(calls), HeadersAfter(header0, calls));
      var dial := if Dials(cfg, pusher, req.path) then [Dial(cfg.kafka.brokers, cfg.kafka.topic)] else [];
      WriteLogSteps("REQUEST", request, cfg.stdout, [p], serialize, publish);
      WriteLogSteps("RESPONSE", response, cfg.stdout, [p], serialize, publish);
      LoggedSteps(dial,
        WriteLogTrace("REQUEST", request, cfg.stdout, [p], serialize, publish),
        Forward(req.path, req.body),
        WriteLogTrace("RESPONSE", response, cfg.stdout, [p], serialize, publish));
    }
  }

  /** Where the dials of a logged request's trace are, from where the dials of its parts are. */
  lemma LoggedDials(dial: seq<Effect>, request: seq<Effect>, forward: Effect, response: seq<Effect>)
    requires |dial| <= 1 && forall e | e in dial :: e.Dial?
    requires forall e | e in request :: !e.Dial?
    requires forall e | e in response :: !e.Dial?
    requires !forward.Dial?
    ensures var t := dial + request + [forward] + response;
      && ((exists e | e in t :: e.Dial?) <==> dial != [])
      && (forall i, j | 0 <= i < j < |t| :: !(t[i].Dial? && t[j].Dial?))
  {
    var t := dial + request + [forward] + response;
    forall i | |dial| <= i < |t| ensures !t[i].Dial? {
      if i < |dial| + |request| {
        assert t[i] == request[i - |dial|] && request[i - |dial|] in request;
      } else if i > |dial| + |request| {
        assert t[i] == response[i - |dial| - |request| - 1] && response[i - |dial| - |request| - 1] in response;
      }
    }
    if dial != [] {
      assert t[0] == dial[0] && dial[0] in dial && t[0] in t;
    }
  }

  /**
   * The producer is dialled at most once per request, and only by a logged
   * request that finds none while Kafka is enabled.
   */
  lemma HandlerDials(
    cfg: Config, pusher: Option<Pusher>, dialed: Option<Pusher>, req: RequestView,
    calls: seq<WriterCall>, header0: Header, ids: SpanIds,
    serialize: Record -> string, publish: (Pusher, string) -> Option<string>)
    ensures var t := HandlerTrace(cfg, pusher, dialed, req, calls, header0, ids, serialize, publish);
      && ((exists e | e in t :: e.Dial?) <==> Dials(cfg, pusher, req.path))
      && (forall i, j | 0 <= i < j < |t| :: !(t[i].Dial? && t[j].Dial?))
  {
    if !PassesThrough(cfg, req.path) {
      var p := NextPusher(cfg, pusher, dialed, req.path);
      var request := RequestRecord(cfg, req, ids);
      var response := ResponseRecord(ids, CapturedStatus(calls), CapturedBody(calls), HeadersAfter(header0, calls));
      var dial := if Dials(cfg, pusher, req.path) then [Dial(cfg.kafka.brokers, cfg.kafka.topic)] else [];
      WriteLogKinds("REQUEST", request, cfg.stdout, [p], serialize, publish);
      WriteLogKinds("RESPONSE", response, cfg.stdout, [p], serialize, publish);
      LoggedDials(dial,
        WriteLogTrace("REQUEST", request, cfg.stdout, [p], serialize, publish),
        Forward(req.path, req.body),
        WriteLogTrace("RESPONSE", response, cfg.stdout, [p], serialize, publish));
    }
  }

  /**
   * A logged request emits the record built from the request as the handler
   * received it, and the record of what the wrapped handler wrote: the last
   * status code (0 if none), the last chunk written, and the header map.
   */
  lemma HandlerRecords(
    cfg: Config, pusher: Option<Pusher>, dialed: Option<Pusher>, req: RequestView,
    calls: seq<WriterCall>, header0: Header, ids: SpanIds,
    serialize: Record -> string, publish: (Pusher, string) -> Option<string>)
    requires !PassesThrough(cfg, req.path)
    ensures var t := HandlerTrace(cfg, pusher, dialed, req, calls, header0, ids, serialize, publish);
      && Emit("REQUEST", RequestRecord(cfg, req, ids)) in t
      && Emit("RESPONSE", ResponseRecord(ids, CapturedStatus(calls), CapturedBody(calls), HeadersAfter(header0, calls))) in t
  {
  }

  /**
   * A producer is created only while there is none: once a dial succeeds,
   * the next request, whatever it is, dials nothing and keeps that producer.
   */
  lemma ProducerKeptAfterDial(
    cfg: Config, pusher: Option<Pusher>, dialed: Option<Pusher>, path: string,
    dialed2: Option<Pusher>, req2: RequestView, calls2: seq<WriterCall>, header2: Header, ids2: SpanIds,
    serialize: Record -> string, publish: (Pusher, string) -> Option<string>)
    requires Dials(cfg, pusher, path) && dialed.Some?
    ensures var p := NextPusher(cfg, pusher, dialed, path);
      && p == dialed
      && (forall e | e in HandlerTrace(cfg, p, dialed2, req2, calls2, header2, ids2, serialize, publish) :: !e.Dial?)
      && NextPusher(cfg, p, dialed2, req2.path) == p
  {
    HandlerDials(cfg, dialed, dialed2, req2, calls2, header2, ids2, serialize, publish);
  }

  /** The module-level state the handler closure shares between requests. */
  class Middleware {
    const cfg: Config
    var pusher: Option<Pusher>   // kfPusher
    var trace: seq<Effect>       // what the plugin has logged, pushed, dialled and forwarded so far

    /**
     * registerHandlers: read the configuration, log its diagnostics and the
     * skip list. No producer exists yet.
     */
    constructor (extra: map<string, Value>)
      ensures cfg == ExtractConfig(extra) && pusher == None
      ensures trace == Diagnostics(MapAt(extra, PluginName))
        + [Info(Tagged("config for [skip_paths]: [" + ListSkipPath(cfg) + "]"))]
    {
      var c, diagnostics := ConfigGetter(extra);
      cfg := c;
      pusher := None;
      trace := diagnostics + [Info(Tagged("config for [skip_paths]: [" + ListSkipPath(c) + "]"))];
    }

    /**
     * The handler closure for one request. The wrapped handler is modelled by
     * the writer calls it makes; `dialed` is what newPusher would return.
     * Whatever the path taken, the real writer receives exactly the wrapped
     * handler's calls and the request keeps its body.
     */
    method Serve(
      req: Request, sink: ResponseSink, calls: seq<WriterCall>, ids: SpanIds, dialed: Option<Pusher>,
      serialize: Record -> string, publish: (Pusher, string) -> Option<string>)
      modifies this, req, req.body, sink
      ensures trace == old(trace) + HandlerTrace(cfg, old(pusher), dialed, old(req.View()), calls, old(sink.header), ids, serialize, publish)
      ensures pusher == NextPusher(cfg, old(pusher), dialed, old(req.path))
      ensures sink.calls == old(sink.calls) + calls
      ensures sink.header == HeadersAfter(old(sink.header), calls)
      ensures req.path == old(req.path) && req.body.unread == old(req.body.unread)
      ensures req.body == old(req.body) || fresh(req.body)
      ensures req.View() == old(req.View())
    {
      if !cfg.enabled {
        PassThrough(req, sink, calls);
        return;
      }
      var path := req.path;
      var skip := IsSkipped(cfg, path);
      if skip {
        PassThrough(req, sink, calls);
        return;
      }
      ServeLogged(req, sink, calls, ids, dialed, serialize, publish);
    }

    /** `h.ServeHTTP(w, req)` on the original writer and request. */
    method PassThrough(req: Request, sink: ResponseSink, calls: seq<WriterCall>)
      modifies this`trace, sink
      ensures trace == old(trace) + [Forward(req.path, req.body.unread)]
      ensures sink.calls == old(sink.calls) + calls
      ensures sink.header == HeadersAfter(old(sink.header), calls)
    {
      trace := trace + [Forward(req.path, req.body.unread)];
      ServeDirect(sink, calls);
    }

    /** The logged path of the handler closure. */
    method ServeLogged(
      req: Request, sink: ResponseSink, calls: seq<WriterCall>, ids: SpanIds, dialed: Option<Pusher>,
      serialize: Record -> string, publish: (Pusher, string) -> Option<string>)
      requires !PassesThrough(cfg, req.path)
      modifies this, req, req.body, sink
      ensures trace == old(trace) + LoggedTrace(cfg, old(pusher), dialed, old(req.View()), calls, old(sink.header), ids, serialize, publish)
      ensures pusher == NextPusher(cfg, old(pusher), dialed, old(req.path))
      ensures sink.calls == old(sink.calls) + calls
      ensures sink.header == HeadersAfter(old(sink.header), calls)
      ensures req.path == old(req.path) && req.body.unread == old(req.body.unread)
      ensures req.body == old(req.body) || fresh(req.body)
      ensures req.View() == old(req.View())
    {
      ghost var view := req.View();
      ghost var header0 := sink.header;
      var dial: seq<Effect> := [];
      if pusher.None? && cfg.kafka.enabled {
        dial := [Dial(cfg.kafka.brokers, cfg.kafka.topic)];
        pusher := dialed;
      }
      var requestEffects := LogRequest(cfg, ids, req, [pusher], serialize, publish);
      var w := new CapturingWriter(sink);
      var forward := Forward(req.path, req.body.unread);
      ServeCaptured(w, calls);
      var responseEffects := LogResponse(cfg, ids, w.status, w.body, sink.header, [pusher], serialize, publish);
      trace := trace + (dial + requestEffects + [forward] + responseEffects);

      assert LoggedTrace(cfg, old(pusher), dialed, view, calls, header0, ids, serialize, publish)
        == dial + requestEffects + [forward] + responseEffects;
    }
  }
}
