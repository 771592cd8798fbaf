/**
 * The two log records of a logged request (logRequest, logResponse): what
 * they hold, and the draining and restoring of the request body.
 */
module Records {
  import opened Wrappers
  import opened Http
  import opened Effects
  import opened PluginConfig
  import opened Emission

  /** The span and trace identifiers of the request's tracing span, as hex strings. */
  datatype SpanIds = SpanIds(spanId: string, traceId: string)

  const RequestBodyKey: string := "request_body"

  /** The fields logRequest always writes, before any configured header. */
  function FixedRequestFields(req: RequestView, ids: SpanIds): Record {
    map[
      "method" := Text(req.verb),
      "host" := Text(req.host),
      "path" := Text(req.path),
      "user_agent" := Text(HeaderGet(req.header, "User-Agent")),
      "header" := Headers(req.header),
      "query" := Text(req.rawQuery),
      "span_id" := Text(ids.spanId),
      "trace_id" := Text(ids.traceId)]
  }

  /** `record` after `record[hk] = Header.Get(hk)` for each configured key, in order. */
  function WithHeaderKeys(record: Record, keys: seq<string>, h: Header): Record {
    if keys == [] then record
    else
      var k := keys[|keys| - 1];
      WithHeaderKeys(record, keys[..|keys| - 1], h)[k := Text(HeaderGet(h, k))]
  }

  /**
   * Every configured key ends up holding its header value, even when it names
   * a fixed field; every other field is left alone; no other field appears.
   */
  lemma {:induction false} WithHeaderKeysMeaning(record: Record, keys: seq<string>, h: Header)
    ensures var r := WithHeaderKeys(record, keys, h);
      && (forall k :: k in r <==> k in record || k in keys)
      && (forall k | k in keys :: k in r && r[k] == Text(HeaderGet(h, k)))
      && (forall k | k in record && k !in keys :: k in r && r[k] == record[k])
  {
    if keys != [] {
      var front := keys[..|keys| - 1];
      assert keys == front + [keys[|keys| - 1]];
      WithHeaderKeysMeaning(record, front, h);
    }
  }

  /** The REQUEST record: the fixed fields, then the configured headers, then the body that was read. */
  function RequestRecord(cfg: Config, req: RequestView, ids: SpanIds): Record {
    WithHeaderKeys(FixedRequestFields(req, ids), cfg.logHeaderKeys, req.header)[RequestBodyKey := Blob(req.body)]
  }

  /**
   * What the REQUEST record holds: the body that was read, under a key no
   * header can take over; the value of every other configured header, even
   * where it replaces a fixed field such as "path"; every fixed field that
   * no configured header names.
   */
  lemma RequestRecordFields(cfg: Config, req: RequestView, ids: SpanIds)
    ensures var r := RequestRecord(cfg, req, ids);
      && RequestBodyKey in r && r[RequestBodyKey] == Blob(req.body)
      && (forall k | k in cfg.logHeaderKeys && k != RequestBodyKey ::
            k in r && r[k] == Text(HeaderGet(req.header, k)))
      && (forall k | k in FixedRequestFields(req, ids) && k !in cfg.logHeaderKeys ::
            k in r && r[k] == FixedRequestFields(req, ids)[k])
  {
    WithHeaderKeysMeaning(FixedRequestFields(req, ids), cfg.logHeaderKeys, req.header);
  }

  /** The RESPONSE record: what the capturing writer holds and the response headers. */
  function ResponseRecord(ids: SpanIds, status: int, body: seq<byte>, headers: Header): Record {
    map[
      "span_id" := Text(ids.spanId),
      "trace_id" := Text(ids.traceId),
      "response_status_code" := Number(status),
      "response_body" := Blob(body),
      "response_headers" := Headers(headers)]
  }

  /** The loop of logRequest over the configured header keys. */
  method AddHeaderKeys(record: Record, keys: seq<string>, h: Header) returns (r: Record)
    ensures r == WithHeaderKeys(record, keys, h)
  {
    r := record;
    for i := 0 to |keys|
      invariant r == WithHeaderKeys(record, keys[..i], h)
    {
      assert keys[..i + 1][..i] == keys[..i];
      r := r[keys[i] := Text(HeaderGet(h, keys[i]))];
    }
    assert keys[..|keys|] == keys;
  }

  /**
   * logRequest: builds the REQUEST record, drains the body into it, hands the
   * record to WriteLog, then gives the request a fresh reader over exactly
   * the bytes read, so that the wrapped handler reads the same body.
   */
  method LogRequest(
    cfg: Config, ids: SpanIds, req: Request, pushers: seq<Option<Pusher>>,
    serialize: Record -> string, publish: (Pusher, string) -> Option<string>)
    returns (effects: seq<Effect>)
    modifies req, req.body
    ensures fresh(req.body) && req.body.unread == old(req.body.unread)
    ensures req.verb == old(req.verb) && req.host == old(req.host) && req.path == old(req.path)
    ensures req.rawQuery == old(req.rawQuery) && req.header == old(req.header)
    ensures effects == WriteLogTrace("REQUEST", RequestRecord(cfg, old(req.View()), ids), cfg.stdout, pushers, serialize, publish)
  {
    var record := FixedRequestFields(req.View(), ids);
    record := AddHeaderKeys(record, cfg.logHeaderKeys, req.header);
    var b := req.body.ReadAll();
    record := record[RequestBodyKey := Blob(b)];
    effects := WriteLog("REQUEST", record, cfg.stdout, pushers, serialize, publish);
    req.body := new BodyReader(b);
  }

  /** logResponse: the RESPONSE record from the wrapper's status and body and the writer's headers. */
  method LogResponse(
    cfg: Config, ids: SpanIds, status: int, body: seq<byte>, headers: Header, pushers: seq<Option<Pusher>>,
    serialize: Record -> string, publish: (Pusher, string) -> Option<string>)
    returns (effects: seq<Effect>)
    ensures effects == WriteLogTrace("RESPONSE", ResponseRecord(ids, status, body, headers), cfg.stdout, pushers, serialize, publish)
  {
    var record := ResponseRecord(ids, status, body, headers);
    effects := WriteLog("RESPONSE", record, cfg.stdout, pushers, serialize, publish);
  }
}
