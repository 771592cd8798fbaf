# klog-plugin, modelled in Dafny

klog-plugin is an HTTP handler plugin for an API gateway. Its handler wraps
the gateway's own handler. For every request that is neither disabled nor on
the skip list it:

- emits a REQUEST record: method, host, path, user agent, headers, query,
  span ids, the configured header keys and the request body;
- forwards the request with the body restored;
- emits a RESPONSE record holding what the wrapped handler wrote: the status
  code, the body and the response headers.

Each record is printed as a tagged log line when `stdout` is on. It is also
pushed to a Kafka producer, which the plugin dials the first time a logged
request finds none while Kafka is enabled.

The model describes a run of the plugin as a trace of effects (`Effects.Effect`):

- log lines at each level;
- emitted records;
- pushes to a producer;
- dials;
- forwards to the wrapped handler.

The handler itself is the class `Handler.Middleware`. Its fields are the
configuration, the producer and the trace so far. `Serve` handles one
request and is proved against the pure function `Handler.HandlerTrace`. The
properties the plugin promises are lemmas about that function:

- which requests are logged;
- records come in the order REQUEST, forward, RESPONSE;
- what each record holds;
- how often the producer is dialled;
- where records are pushed.

The parts of main.go map to modules as follows:

| part of main.go | module | file |
|---|---|---|
| configGetter, defaultConfigGetter | `PluginConfig` | config.dfy |
| isSkipped, listSkipPath | `SkipPaths` | skip.dfy |
| loggingResponseWriter | `Capture` | writer.dfy |
| WriteLog | `Emission` | emission.dfy |
| logRequest, logResponse | `Records` | records.dfy |
| registerHandlers and its closure | `Handler` | handler.dfy |

The Go runtime pieces the plugin relies on are modelled in `Http`
(http.dfy):

- `Header.Get` with canonical header names;
- a request whose body is a reader that drains;
- the real response writer.

`Scenarios` (scenarios.dfy) holds callers of the handler that rely on its
contracts alone.

Things outside the program are parameters:

- `serialize` stands for JSON encoding.
- `publish` stands for a broker's answer to a push: `None` on success, the
  error otherwise.
- `dialed` stands for the outcome of dialling a producer: `None` when the
  dial fails.
- `ids` stands for the span and trace ids of the request.
- `calls` stands for the wrapped handler: the sequence of calls it makes on
  the response writer it is given.

Where the behaviour described for the plugin and the code differ, the model
follows the code:

- A response whose handler never calls `WriteHeader` is logged with status 0,
  not 200. The wrapper's `status` field starts at zero (main.go:267-276).
- The logged response body is the last chunk written, not the concatenation
  of all chunks. `Write` overwrites `w.body` (main.go:278-281).
- A failed dial is not remembered. `kfPusher` stays nil, so the next logged
  request dials again (main.go:82-84, kafka.go:16-21).
- A missing or mistyped `enabled` turns logging off. The default `true` is
  overwritten by the zero value of the failed type assertion
  (main.go:173-177).
- Assigning `cfg.KafkaConfig = kconfig` twice (main.go:220, 225) has the
  effect of one assignment. The partition is included.

## Model

| member | source | states |
|---|---|---|
| PluginConfig.ExtractConfig | main.go:170-227 | stdout is always on. Logging is enabled iff the plugin's section has `enabled: true`. A path is skipped, and a header key is logged, iff it is a string element of the corresponding list. The Kafka part comes from the `kafka` sub-map, and is off with no brokers when that sub-map is missing. |
| PluginConfig.ExtractKafka | main.go:197-225 | Kafka is enabled iff `enabled` is `true`. The brokers are exactly the string elements of `broker_urls`. The topic is the string `topic` when there is one, else "". The partition is the int `partition` when there is one, else 0. An empty section gives the default Kafka settings. |
| PluginConfig.MissingSectionDisables | main.go:170-177 | Without the plugin's entry, the configuration is the default one with logging switched off, although the default has it on (main.go:239-246). |
| PluginConfig.StringsOf | main.go:182-186 | Keeps exactly the string elements of a raw list and never grows it. |
| PluginConfig.StringsOfAppend | main.go:182-186 | Filtering distributes over concatenation. |
| PluginConfig.StringsOfAllStrings | main.go:182-186 | A list made only of strings is kept whole and in order. |
| PluginConfig.AppendStrings | main.go:182-186 | The append loop adds to the accumulator exactly the filtered string elements, in order. |
| PluginConfig.Diagnostics | main.go:173-199 | A warning appears iff `enabled`, `skip_paths` or `log_header_keys` is missing or mistyped. An info line appears iff the `kafka` map is absent. No other line appears, and there are at most four. |
| PluginConfig.KafkaGetter | main.go:201-225 | The step-by-step Kafka defaults and overrides yield `ExtractKafka`. |
| PluginConfig.ConfigGetter | main.go:170-227 | The step-by-step configGetter yields `ExtractConfig` and logs exactly `Diagnostics`. |
| SkipPaths.IsSkipped | main.go:228-237 | The early-exit loop answers true iff the path equals an element of the skip list, and false for an empty list. |
| SkipPaths.JoinSplit | main.go:249-251 | Splitting the comma-joined list logged at start-up and joining it again gives back the same text. |
| SkipPaths.SplitJoin | main.go:249-251 | For a non-empty list of comma-free paths, the joined text splits back into the same list. |
| Http.HeaderGetIgnoresCase | main.go:106-113 | Looking up a header by a token name does not depend on the name's letter case. Both spellings resolve to the same canonical key. |
| Http.CanonicalFromIgnoresCase | main.go:113 | Canonicalising two names that differ only in letter case gives the same result. |
| Http.CanonicalFromIdempotent | main.go:113 | Canonicalising twice is canonicalising once, and a token stays a token. |
| Http.CanonicalKeyIdempotent | main.go:113 | A canonical header key is its own canonical key. |
| Http.BodyReader.ReadAll | main.go:116-118 | Reading the body hands out everything left unread and leaves the reader drained. |
| Capture.LastCodeNone | main.go:267-276 | The wrapper has no recorded code iff the handler never called `WriteHeader`, so the logged status stays 0. |
| Capture.LastCodeWins | main.go:273-276 | The last `WriteHeader` call decides the recorded status. |
| Capture.LastWriteWins | main.go:278-281 | The last `Write` call decides the recorded body. |
| Capture.CapturingWriter.constructor | main.go:90-92 | A new wrapper has status 0 and an empty body, and delegates to the given writer. |
| Capture.CapturingWriter.WriteHeader | main.go:273-276 | Records the code and passes the call through, with the body unchanged. |
| Capture.CapturingWriter.Write | main.go:278-281 | Replaces the body with the chunk, passes the call through and returns the real writer's result. |
| Capture.ServeDirect | main.go:74 | The real writer receives exactly the wrapped handler's calls. |
| Capture.ServeCaptured | main.go:94 | Through the wrapper, the real writer still receives exactly the handler's calls. The wrapper ends with the last code and last chunk, or keeps its own when there were none. |
| Emission.WriteLog | main.go:140-154 | The loop over the producers yields `WriteLogTrace`: the record, the stdout line when enabled, then for each live producer a notice, a push and any push error. |
| Emission.PushTraceShape | main.go:146-153 | Exactly the non-nil producers receive the entry, in order. Every effect of the loop is such a push, the notice line or an error line. |
| Emission.WriteLogSteps | main.go:140-154 | One WriteLog call emits exactly one record and forwards nothing. |
| Emission.WriteLogStdout | main.go:143-145 | The tagged line `prefix: entry` is logged iff stdout is on. |
| Emission.WriteLogPushes | main.go:146-153 | The entry is pushed to exactly the non-nil producers, and every push carries that entry. |
| Emission.PushErrors | main.go:146-153 | The push loop logs an error exactly for each error a non-nil producer answers with. |
| Emission.WriteLogErrors | main.go:149-151 | WriteLog logs the error of every failed push, and every error it logs comes from a failed push of the serialised record. |
| Emission.WriteLogKinds | main.go:140-154 | WriteLog only emits, logs, pushes or reports errors. It never dials and never forwards. |
| Records.WithHeaderKeysMeaning | main.go:112-114 | Each configured key holds its header's value, even when it replaces a fixed field. Every other field is unchanged, and no field outside the two sets appears. |
| Records.AddHeaderKeys | main.go:112-114 | The loop over the header keys yields `WithHeaderKeys`. |
| Records.RequestRecordFields | main.go:102-122 | The REQUEST record holds the body that was read, each configured header value, and every fixed field that no configured key overrides. |
| Records.LogRequest | main.go:100-125 | Logs the REQUEST record of the request as received. It then gives the request a new reader over exactly the bytes read, leaving every other request field unchanged. |
| Records.LogResponse | main.go:127-138 | Logs the RESPONSE record of the given status, body and headers. |
| Handler.NextPusher | main.go:82-84 | An existing producer is kept. A skipped or disabled request, or disabled Kafka, leaves the producer as it was. A request that dials adopts the dial's outcome, and the producer changes only through a dial. |
| Handler.ProducerKeptAfterDial | main.go:82-84 | Once a dial succeeds, the next request, whatever it is, dials nothing and keeps that producer. |
| Handler.HandlerSteps | main.go:72-97 | A disabled plugin or skipped path forwards once and emits nothing. Any other request emits REQUEST, is forwarded with its own path and body, then emits RESPONSE. |
| Handler.HandlerDials | main.go:82-84 | A request dials iff it is logged, finds no producer and Kafka is enabled, and it dials at most once. |
| Handler.HandlerRecords | main.go:88-96 | A logged request emits the record of the request as received. It also emits the record of the last status (0 if none), the last chunk and the response headers the handler left. |
| Handler.Middleware.constructor | main.go:47-49 | Setup extracts the configuration, logs its diagnostics and the joined skip list, and starts with no producer. |
| Handler.Middleware.Serve | main.go:72-97 | Handling a request appends `HandlerTrace` to the trace and updates the producer by `NextPusher`. The real writer receives exactly the handler's calls. The request keeps its method, host, path, query and headers, and an unread body with the same bytes. |
| Handler.Middleware.PassThrough | main.go:73-80 | A request that is not logged is forwarded as it is, and the writer receives the handler's calls. |
| Handler.Middleware.ServeLogged | main.go:82-96 | A logged request appends `LoggedTrace`: an optional dial, REQUEST, the forward, then RESPONSE. The request keeps every field and an unread body with the same bytes. |
| Scenarios.HealthCheckIsNotLogged | main.go:78-80 | With `/health` on the skip list, a request for it is forwarded with its body and emits no record. The writer receives exactly the handler's calls. |
| Scenarios.OrderIsLogged | main.go:82-96 | With nothing skipped, `POST /orders` emits one REQUEST record holding its method, path and body, is forwarded with that body, then emits one RESPONSE record. The RESPONSE record holds the status and body the handler wrote, and both records carry the request's span and trace ids. |
| Scenarios.BodySurvivesMiddleware | main.go:116-124 | Under any configuration, the body handed to the wrapped handler holds every byte, the empty body included. |

## Left out

- kafka.go is not part of this model beyond a dial's outcome and a push's result. Both are parameters, and the model does not log the error line that a failed dial writes (kafka.go:19).
- A configuration with Kafka enabled and an empty `broker_urls` is not modelled as a crash. `newPusher` indexes `Brokers[0]` and would panic (kafka.go:17).
- `newPusher(ctx, cfg.KafkaConfig)` at main.go:83 passes two arguments to a one-parameter function (kafka.go:16). The model reads it as the one-argument call.
- OpenTelemetry is left out: the tracer provider, spans, span attributes and events (main.go:65-70, 85-87, 93-95). Span and trace ids are parameters.
- The shutdown goroutine that closes the producer on SIGINT/SIGTERM (main.go:51-63) is left out, because signals are outside the model.
- The wrapped handler neither reads nor changes the request in the model; it is only the calls it makes on the response writer. In Go it reads the same reader the middleware restores (`req.Clone` at main.go:89 keeps `Body`), so after the closure returns the body is drained whenever the handler read it. In the model the body left unread after `Serve` stands for what the handler is handed, and `Forward(path, body)` records it.
- Concurrent requests sharing `kfPusher` are left out. `Serve` handles one request at a time.
- Sharing of `kfPusher` between handler instances is not modelled. It is a package-level variable (main.go:25), so a second registration would start with the first one's producer and push its records there even with its own Kafka disabled. In the model each `Middleware` owns its producer and starts with none.
- The configured `partition` never reaches the dial: `newPusher` always dials partition 1 (kafka.go:17). The model keeps the partition in the configuration only.
- Errors while reading the body (main.go:119-121) are left out. The body reader always succeeds.
- `req.Clone(newCtx)` (main.go:89) is not modelled, because it changes only the context.
- The copy of the response headers (`Header().Clone()`) is modelled as the header value itself.
- JSON encoding and its ignored error (main.go:141) are the `serialize` parameter.
- Numbers are assumed to arrive as `int`. A host that decodes JSON numbers as float64 would make `partition` fall back to 0 (main.go:222); the model writes such values as `VOther`.
- Http.ResponseSink.Write: transport errors of the real writer are left out, so it always accepts the whole chunk.
- Http.HeaderGet: Go's table of interned common header names is left out. Canonicalisation is the ASCII case rule for token names; other names are used as they are.
- Plugin registration (`RegisterLogger`, `RegisterHandlers`), `init` and `main` (main.go:27-45, 252-256) are left out, because they are the host's loading protocol. The model assumes a logger was registered: `logger` stays nil unless `RegisterLogger` receives a `Logger` (main.go:29-37), and the first log call (in configGetter, or at main.go:49) would then panic.
