# link: a verified model of the ingestion core

`link` is the ingestion component of an IoT platform. Devices report readings
over MQTT, over HTTP, or through the TheThingsNetwork and LoRa integrations.
Every reading becomes a `State` (raw value, time, thing, asset, project).
The application's pipeline then moves each state through three stages:

1. it looks up the thing's project when the state carries none;
2. it files the raw value under one field of `Value`, by its Go type, and
   republishes it on the state topic;
3. it inserts it into the collection `data.{project}.{thing}`.

Around this pipeline sit the broker's authorization webhooks, the per-thing
token check of the HTTP adapter, the owner lookup with its five-minute
cache, the older pipeline of package `app`, and the LoRa uplink handlers
with their bridge to the per-project decoder service.

The model is written in Dafny, one module per component:

| module | models |
|---|---|
| `Core` | the pipeline `Application` and its three stages |
| `Normalize` | the type switch of the decode stage |
| `Pm` | the thing resolver and its cache |
| `Vernemq` | the broker webhooks |
| `HttpAdapter` | the HTTP middleware and handler |
| `Ttn` | the TheThingsNetwork handler |
| `MqttService` | the MQTT ingestion service |
| `Legacy` | the older pipeline and protocol handler |
| `Lora` | the LoRa uplink handlers |
| `Decoder` | the decoder bridge |

Shared modules:

- `Types`: records and payloads.
- `Text`: `strings.Split` and an ASCII `strings.ToLower`.
- `Web`: HTTP statuses and Go's panic messages.
- `Wrappers`: `Option` and `Result`.

How the model is built:

- Objects whose fields the Go code updates are Dafny classes. These are the
  pipeline application, the resolver cache, the legacy application, the
  LoRa collections and the MQTT service. Their methods are proved against
  specification functions.
- A channel is a `seq` of records plus a closed flag.
- A worker's loop is one method per record (`ResolveStep`, `DecodeStep`,
  `InsertStep`) plus one method for the worker's return (`ProjectWorkerExit`
  and the rest). The return methods carry the single-slot "first to exit
  closes downstream" rule.
- Everything outside the process is a function parameter of the model:
  - the MQTT broker, MongoDB and the `pm` service;
  - the decoder's HTTP endpoint;
  - JSON/CBOR decoding, `fmt`'s `%v` and the clock.
- Outputs to the broker and to MongoDB are recorded as traces
  (`published`, `inserted`).
- Go map iteration order is an input: a decoded map is given as a sequence
  of its entries.

Four behaviours of the code as written are stated as they are:

- **The array case of the decode stage is dead.** `case interface{}` comes
  before `case []interface{}` and matches every non-nil value, so a slice
  lands in `Value.Object`. `Normalize.Dispatch` models the switch in source
  order. `Normalize.DocumentedDispatch` is the order the `// array` case
  label implies (slice before the catch-all). `Normalize.DispatchDiffersOnlyOnSlices`
  proves that the two agree on every payload except a slice.
- **A second `Run` after `Exit` panics.** `Run` recreates the two close
  signals but `New` alone creates the streams. So after a restart whose
  broker and database connections both succeed, the first project worker
  to return finds an empty signal for a decode stream that is already
  closed, and closing it again panics. If either connection fails, the
  process ends in `Fatalf` before any worker starts. Both cases are proved
  by `Core.RestartPanics`. The comment in `Run` says that one application
  is meant to be run and stopped many times. `Core.Application.RunAfresh`
  is that intended `Run`: it makes the three streams again before running.
  `Core.SecondLifetime` proves that under it a second lifetime stops
  without a panic and closes each downstream stream exactly once.
- **`Exit` before any `Run` panics.** `New` creates no broker client, and
  `Exit` calls `Disconnect` on it. The model gives `Exit` the outcome
  `NilClient` then, and the project stream stays open.
- **Malformed topics panic.** A topic with no second `/` piece makes the
  broker webhooks and the MQTT handler take an index that is out of range
  (`Vernemq.FlatTopicPanics`, `MqttService.Handler`). A related panic: once
  the project stream is closed and the application has been `Run` again,
  the adapters' call to `Data` passes the `IsRun` check and panics on a
  send to a closed channel (`Core.Panics`). After a plain `Exit`, `IsRun`
  is false, so `Data` returns its "not running" error instead.

On the owner lookup: `pm/pm.go` defines `Thing` without connectivities, yet
`actions/ttn.go` matches the `ttn` connectivity of the things that
`pm.ThingsByProject` returns. `ThingsByProject` is not part of this model.
To carry what the matching reads, `Pm.Thing` has a `ttn` field (absent,
undecodable, or the device EUI and application id).

## Model

| member | source | states |
|---|---|---|
| Text.Split | actions/mqtt.go:89 | `strings.Split` on one separator: there is at least one piece, and no piece contains the separator |
| Text.SplitJoin | core/pipeline.go:160 | splitting a join of separator-free pieces gives the pieces back |
| Text.JoinSplit | actions/mqtt.go:89 | joining the pieces of a split gives the string back |
| Text.Segment | mqtt/mqtt.go:54 | the `i`-th piece of a split, which exists exactly when `i` is below the piece count; it never contains the separator |
| Text.Lower | actions/ttn.go:75 | lowering keeps the length and lowers each character |
| Text.LowerIdempotent | actions/ttn.go:75 | lowering twice is lowering once |
| Core.Guard | core/app.go:150-160 | `Data` admits a state exactly when the application runs and the state has a non-nil raw value, a non-zero time, and non-empty thing and asset; otherwise the first failing check (running, then raw/at, then identity) names the error |
| Core.Admitted | core/app.go:150-163 | the states that calling `Data` on each state in turn lets through: only admissible ones, drawn from the input, and none on a stopped application |
| Core.AdmissibleOnly | core/app.go:154-160 | the reference filter: it keeps only admissible states of the input, and every admissible state of the input is kept |
| Core.AdmittedIsFilter | core/app.go:150-163 | on a running application `Data` lets through exactly the admissible states, in their order (equal to the reference filter), and nothing on a stopped one |
| Core.AdmittedAll | core/app.go:150-163 | on a running application, a sequence of admissible states gets through entirely and in order |
| Core.TopicNamesRecord | core/pipeline.go:124 | splitting the republish topic on `/` gives `i1820`, `projects`, the project, `things`, the thing, `assets`, the asset and `state`, given slash-free names |
| Core.CollectionNamesRecord | core/pipeline.go:160 | splitting the collection name on `.` gives `data`, the project and the thing, given dot-free names |
| Core.Application.constructor | core/app.go:65-84 | `New` makes three open, empty streams, no close signals, no workers and a stopped application |
| Core.Application.Run | core/app.go:87-129 | fresh empty close signals and a broker client on every call; a broker or database failure is fatal, is checked in that order, and starts nothing; otherwise one worker per stage and one wait-group count per processor, then `IsRun`; the streams are untouched, so the signals match them again only if no stream was closed |
| Core.Application.StartWorkers | core/app.go:121-126 | the start loop adds exactly `workers` workers to each stage and `workers` counts to the wait group |
| Core.Application.RunAfresh | core/app.go:88-129 | `Run` as its comment intends: with no worker left, the three streams are made again, empty and open, so the close signals match the streams; the outcomes and the workers started are those of `Run` |
| Core.Application.Exit | core/app.go:132-145 | `IsRun` is cleared; with no broker client (no `Run` yet) `Disconnect` panics and the stream stays open; otherwise the project stream is closed, and closing an already closed stream panics |
| Core.Application.Data | core/app.go:150-164 | the result is the guard's error, or a panic when the stream is closed, or a send; only a send appends the state, exactly once |
| Core.Application.SubmitEach | actions/http.go:82-91 | the adapters' loop of `Data` calls appends exactly the admitted states when the stream is open, appends nothing when it is closed, and panics exactly when an admitted state meets a closed stream |
| Core.Application.ResolveStep | core/pipeline.go:36-51 | a record with a project is forwarded unchanged with no lookup and the cache untouched; otherwise the resolver is asked (one store query on a cache miss, none on a hit), a failure drops the record, and a success forwards it with the thing's project |
| Core.Application.DecodeStep | core/pipeline.go:75-137 | the record is normalized by the type switch, republished on its state topic (the record stands for its JSON bytes) and forwarded to the insert stream |
| Core.Application.InsertStep | core/pipeline.go:159-173 | the record is inserted into `data.{project}.{thing}` |
| Core.Application.ProjectWorkerExit | core/pipeline.go:57-61 | a returning project worker that fills the empty slot closes the decode stream, or panics if it is already closed; a full slot means it does nothing; matching signals rule out the panic |
| Core.Application.DecodeWorkerExit | core/pipeline.go:143-147 | the same rule between the decode and the insert stream |
| Core.Application.InsertWorkerExit | core/pipeline.go:178 | every insert worker takes exactly one count off the wait group |
| Core.Application.StopProjectStage | core/pipeline.go:57-61 | however many project workers return, the decode stream is closed at most once, by the first of them |
| Core.DrainProjectStage | core/pipeline.go:36-61 | a lone project worker forwards a record that has a project and closes the decode stream |
| Core.DrainDecodeStage | core/pipeline.go:75-147 | a lone decode worker normalizes the record, forwards it and closes the insert stream |
| Core.DrainInsertStage | core/pipeline.go:159-178 | a lone insert worker stores the record and leaves the wait group |
| Core.DrainSingle | core/pipeline.go:36-178 | one record with a preset project in a stopped application passes all three stages; it is inserted once, normalized, into its collection, and the wait group reaches zero |
| Core.SubmitThenExit | core/app_test.go:33-44 | `New`, `Run`, one `Data` and `Exit` leave the state alone in the closed project stream |
| Core.PipelineTest | core/app_test.go:32-56 | the pipeline test: 18.20 with project `her` is stored once, in `data.her.el-thing`, with its time and asset and with `Value.Number == 18.20` |
| Core.FirstLifetime | core/app.go:87-145 | run, stop and drain: the first project worker closes the decode stream, and every stage ends without workers |
| Core.RestartPanics | core/app.go:88-117 | a second `Run` starts exactly when both of its connections succeed; then the first returning project worker panics on closing the decode stream again; otherwise no worker runs |
| Core.SecondLifetime | core/app.go:88-145 | after a first lifetime, `RunAfresh`, `Exit` and one worker per stage: `Exit` closes the new project stream without a panic, and the project and decode workers each close their downstream stream |
| Normalize.Dispatch | core/pipeline.go:76-109 | no case for nil; the array case is never taken; slices, maps and other values go to `Object` |
| Normalize.Normalized | core/pipeline.go:76-109 | a string sets `String`, a bool `Boolean` and each of the twelve numeric kinds `Number`; any other non-nil value sets `Object`; nil changes nothing; `Array` is never written |
| Normalize.AtMostOneField | core/pipeline.go:76-109 | the stage changes at most one field of `Value`, the one the dispatch chose |
| Normalize.DocumentedDispatch | core/pipeline.go:105-108 | in the order the `// array` label implies, a payload goes to `Array` exactly when it is a slice |
| Normalize.DispatchDiffersOnlyOnSlices | core/pipeline.go:105-108 | the switch as written differs from the documented order exactly on slices, which it sends to `Object` |
| Normalize.NumberReading | core/app_test.go:56 | a float64 18.20 is stored in `Number`, and every other field keeps its zero value |
| Normalize.SliceReading | core/pipeline.go:105-108 | a mixed slice is stored in `Object` while `Array` stays empty |
| Pm.HasToken | actions/http.go:45-49 | the token loop succeeds exactly when the credential is one of the thing's tokens |
| Pm.Query | pm/pm.go:59-70 | the store answers only an active document with that `_id`; a missing one gives `Thing {id} not found`; a store failure is returned as it is |
| Pm.CacheAfter | pm/pm.go:55-75 | a lookup changes the cache at most at the bare id, and a failed lookup leaves it unchanged |
| Pm.Resolver.constructor | pm/cache.go:27 | the cache starts empty |
| Pm.Resolver.ThingByID | pm/pm.go:53-76 | a fresh cache entry is answered without a query; a miss queries the store once and caches a found thing for five minutes |
| Pm.HitWithinTtl | pm/pm.go:73 | a found thing is served from the cache for the whole five-minute window, whatever the store holds by then |
| Pm.FailureNotCached | pm/pm.go:65-70 | a failed lookup leaves no trace, so the next lookup asks the store again |
| Pm.LookupTwice | pm/pm.go:53-76 | two lookups within the window give the same answer; a hit costs one query and a failure two |
| Decoder.New | decoder/decoder.go:26-30 | the decoder keeps the address it was given |
| Decoder.Decode | decoder/decoder.go:33-49 | no error exactly for a 200 with a readable body, whose text is the result; transport and read errors pass through; a 404 gives the body as the error; any other status gives `unkown status code "{body}"`; every error comes with an empty result |
| Decoder.UrlNamesThing | decoder/decoder.go:34 | the request URL is the address followed by the pieces `api`, `decode` and the id |
| Vernemq.OnRegister | actions/mqtt.go:67-69 | every client may register |
| Vernemq.TokenCheck | actions/mqtt.go:89-103 | a panic exactly when the topic has no second piece; a 500 exactly when the lookup of that piece fails; allowed for an hour exactly when the username is one of the thing's tokens; denied otherwise |
| Vernemq.OnSubscribe | actions/mqtt.go:72-104 | a bad body gives 400; a privileged client is allowed for a day; anything other than one topic is denied; otherwise that topic's token check decides |
| Vernemq.OnPublish | actions/mqtt.go:107-134 | a bad body gives 400; a privileged client is allowed for a day; otherwise the publish topic's token check decides |
| Vernemq.PublishAllowedExactly | actions/mqtt.go:113-131 | a publish is allowed exactly when the client is privileged (for a day) or the username is a token of the thing the topic names (for an hour) |
| Vernemq.SubscribeAgreesWithPublish | actions/mqtt.go:85-103 | subscribing to the one topic is decided as publishing on it |
| Vernemq.OwnTopicUsesOwnTokens | actions/mqtt.go:119-133 | a publish on `{prefix}/{id}/{rest}` is judged by the tokens of thing `id` |
| Vernemq.Privileged | actions/mqtt.go:78 | the mountpoint `i1820` makes a client privileged, and so does the broker's own username, each on its own |
| Vernemq.FlatTopicPanics | actions/mqtt.go:85-119 | a topic without `/` makes the unprivileged publish handler panic, and the subscribe handler too when it is the only topic |
| HttpAdapter.Authorize | actions/http.go:33-53 | a lookup failure gives 500 and no context; otherwise the context is set before the check; `next` runs exactly when the header equals a token, and otherwise the answer is 401 |
| HttpAdapter.CodecFor | actions/http.go:62-70 | JSON exactly for `application/json`, CBOR exactly for `application/cbor`, and nothing for any other type |
| HttpAdapter.HTTPHandler | actions/http.go:57-94 | an unsupported type gives 400 and submits nothing; a decode failure gives 200 and submits nothing; otherwise each entry is submitted, the answer is 200, and it panics only on a closed stream |
| HttpAdapter.EntryStatesFollowContext | actions/http.go:82-91 | one state per entry, with the entry's value as raw, `%v` of its key as asset, and the context's thing and project |
| HttpAdapter.EveryEntryAdmitted | actions/http.go:82-91 | on a running application, a body of complete entries reaches the pipeline entry for entry |
| Ttn.Matches | actions/ttn.go:72-75 | a thing with no decodable `ttn` connectivity never matches; one whose device EUI and application id equal the request's does |
| Ttn.LastMatch | actions/ttn.go:71-80 | the loop leaves the id of the last matching thing in list order, or "" when none matches; any id it returns belongs to a matching thing |
| Ttn.TTNHandler | actions/ttn.go:50-105 | answers 400 on a bind error, 200 on a nil payload, 500 on a lookup error, 404 when no thing matches, and 200 on invalid CBOR, none of which submits anything; otherwise it submits one state per entry with the metadata time, the matched thing and the path's project |
| Ttn.MatchIgnoresCase | actions/ttn.go:75 | the match does not depend on the case of the request's serial and application id |
| Ttn.LaterDuplicateWins | actions/ttn.go:71-80 | of two things naming the same device, the later one is chosen |
| Ttn.UnlinkedThingsNotFound | actions/ttn.go:72-74 | things without a decodable `ttn` connectivity never match |
| MqttService.Handler | mqtt/mqtt.go:53-81 | the thing is the topic's second piece and is taken before parsing, so a topic without one panics; a parse failure submits nothing; otherwise each entry is submitted |
| MqttService.StateTopicNamesThing | mqtt/mqtt.go:52-80 | on `things/{id}/state` the thing is `id`; each entry gives one state with the entry's time, value and asset and no project |
| MqttService.Service.constructor | mqtt/mqtt.go:44-49 | the service wraps a fresh, stopped application and has no client yet |
| MqttService.Service.Run | mqtt/mqtt.go:84-112 | a connect error is returned before the application is started and leaves it unchanged; otherwise the application's `Run` decides: its fatal errors, or one worker per stage and processor, fresh close signals and `IsRun`; a fatal result starts no worker; streams and traces are untouched |
| Legacy.Tagged | app/handler.go:28-37 | a marshal error sends nothing; otherwise the record is the marshalled one with `Protocol` set to the protocol's name |
| Legacy.Resolved | app/pipeline.go:36-44 | a failed lookup keeps the record as it is; a found thing supplies project and model; nothing else changes |
| Legacy.NeedsDecode | app/pipeline.go:78-79 | a `generic` record is never decoded, nor one without a project or with data already set |
| Legacy.RawPublications | app/pipeline.go:47-61 | the project stage publishes at most once: exactly when the record has a project, the record itself on `i1820/project/{project}/raw` |
| Legacy.DataPublications | app/pipeline.go:78-102 | the decode stage publishes at most once: exactly when the record passed the guard, the decoded record on `i1820/project/{project}/data`; never for a `generic` model |
| Legacy.Decoded | app/pipeline.go:78-87 | only a record with a project, no data and a non-generic model is decoded, and only by a known model; nothing else changes |
| Legacy.LegacyApplication.MqttHandler | app/handler.go:22-44 | exactly one tagged record per marshalled message, and none on a marshal error |
| Legacy.LegacyApplication.ProjectStep | app/pipeline.go:34-64 | the resolved record is forwarded whatever the lookup answered, and republished raw only when it has a project |
| Legacy.LegacyApplication.DecodeStep | app/pipeline.go:76-105 | the record is decoded as `Decoded` says, published on the data topic when it passed the guard, and always forwarded |
| Legacy.LegacyApplication.InsertStep | app/pipeline.go:117-127 | every record is inserted, unchanged, into the single `data` collection |
| Legacy.ResolvedIdempotent | app/pipeline.go:36-44 | resolving twice with the same lookup changes nothing more |
| Legacy.DecodedIdempotent | app/pipeline.go:78-87 | decoding twice changes nothing more |
| Legacy.GenericPassesThrough | app/pipeline.go:79 | a `generic` record is neither decoded nor published on the data topic |
| Legacy.UnknownModelStillPublished | app/pipeline.go:80-104 | an unknown model leaves the data unset, but the record is still published and forwarded |
| Legacy.UnresolvedStoredRaw | app/pipeline.go:46-63 | a record without a project whose lookup fails is neither published nor decoded |
| Legacy.OneMessage | app/pipeline.go:34-118 | one message through the three stages is stored once, into `data`, tagged, resolved and decoded, or not at all on a marshal error |
| Lora.DecodedData | actions/app.go:203-220 | the stored data is the parsed decoder output when both decoding and parsing succeed, and nil otherwise |
| Lora.Uplink.Rx | actions/app.go:145-221 | an unreadable message or a failed project lookup stores nothing; otherwise exactly one document is inserted on every return path, with the message's raw bytes, device, radio info, the project's name and the decoded data |
| Lora.Uplink.Error | actions/app.go:110-140 | a parse failure stores nothing; otherwise one document with the error, type, frame count and application name |
| Lora.DecoderUrlNamesDevice | actions/app.go:204 | the rx flow's request goes to `http:`, `""`, `127.0.0.1:{port}`, `api`, `decode`, then the device EUI |
| Lora.FailedDecodeStoresRaw | actions/app.go:207-213 | a decoder answering with a non-200 status leaves the stored data nil |

## Left out

- Concurrency is not modelled: goroutines, `runtime.LockOSThread`, channel
  blocking and backpressure, and the detached publish goroutine. Each stage
  step handles one record atomically, and the close rule is a sequential
  state machine. The race between workers of one stage is therefore not
  modelled.
- Core.Application.Exit: of the `Disconnect` of the broker client only the
  nil-client panic is modelled; the quiesce wait and the broker side are
  not. The wait on the wait group is not a blocking call; it is the
  predicate `Drained` (all insert workers have returned).
- Core.Application.Data: the send never blocks; it is an append to the
  project stream.
- Core.Application.Run: creating the MQTT client is not modelled (options,
  random client id). The broker and database outcomes are inputs.
- Core.Application.InsertStep: a failed Mongo insert is only logged in the
  source, so the model records every insertion attempt.
- Legacy.LegacyApplication.ProjectStep, Legacy.LegacyApplication.DecodeStep,
  Legacy.RawPublications, Legacy.DataPublications, Core.Application.DecodeStep:
  a publication records the record, which stands for its JSON bytes. In
  the source a failed `json.Marshal` is only logged, and the publish still
  runs, with nil bytes. For example, a CBOR body with a nested map decodes
  to a map with interface keys, which `encoding/json` refuses. The model
  does not promise what such a publication carries; the marshal error is
  not modelled.
- Normalize.Normalized: widening integers and float32 to float64 is
  modelled as exact (`Normalize.Widen`). Floating-point rounding is not a
  target.
- Text.Lower: ASCII lowercase only; Unicode case mapping is not modelled.
- Ttn.Matches: `mapstructure` decoding of the `ttn` connectivity is
  collapsed into `Pm.TtnLink` (decodable or not).
- MqttService.Service.Run: the on-connect handler, which subscribes to
  `$share/i1820-link/things/+/state` and ends the process with `Fatalf` on
  a subscribe error, is not modelled. Messages reach the model only
  through `MqttService.Handler`.
- Vernemq.TokenCheck, Vernemq.OnSubscribe, Vernemq.OnPublish,
  HttpAdapter.Authorize: the lookup of the thing
  (`pm.ThingByID`) is modelled as a pure function parameter. In the
  source it also fills the process-wide thing cache, which the resolve
  stage of the pipeline reads later in the same process. That cache update
  is not modelled for these adapters; only `Core.Application.ResolveStep`
  goes through `Pm.Resolver`.
- External systems are parameters of the model: MQTT connect, subscribe
  and publish; Mongo connect, insert and index creation; buffalo binding
  and rendering; `http.Post`; the `pm` client (`ThingsShow`,
  `GetThingProject`, `ThingsByProject`).
- JSON, CBOR and `%v` formatting are parameters of the model. The decoded
  map is given as its entries, in an order that is an input (Go map order).
- Clocks are inputs: `time.Now()` is `clock(i)` for the i-th HTTP entry and
  a `now` argument elsewhere.
- The go-cache janitor (the ten-minute sweep) and its locking are not
  modelled. Expiry is a comparison of instants.
- main.go, configuration loading (`configor`, `envy`) and logging are left
  out. Defaults are constants (`ella`, `127.0.0.1`).
- The construction of the legacy application (app/app.go) is not part of
  this model.
- The LoRa `App` setup (session, indexes, subscription) is left out. Only
  the two message handlers are modelled.
- Declaration-only files (lora/messages.go, app/protocol.go, app/model.go)
  appear only as datatypes.
