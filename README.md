# go-plugins adapters: a Dafny model

This project models the decision logic of three plugin adapters of a Go
microservice framework:

- the NATS message-broker adapter (`broker/nats/nats.go`);
- the zap logging adapter (`logger/zap/zap.go`);
- the logrus logging adapter (`logger/logrus/logrus.go`).

The adapters wrap foreign client libraries. The model keeps what the
adapters decide themselves:

- NATS: server-address normalisation (`setAddrs`); the broker's connection
  state (`Connect`, `Disconnect`, `Init`, `Address`); the TLS/secure rule
  for dialing; subscribe-option defaulting; the choice between a queue-group
  and a plain subscription; and the codec steps around publishing and
  delivery.
- zap: the two level tables; the stored level behind `SetLevel`/`Level`;
  the early-return rule of `Log`/`Error`; the three-way choice of message
  format; and how `Init` resolves configuration and level from the context.
- logrus: the two level tables; option resolution in `Init`, including the
  takeover of an external logrus logger and the one-way caller-reporting
  override; and the derived loggers of `Fields`/`Error`.

Every call into a foreign library is either a function parameter or a
symbolic value. This covers the NATS dial, the connection's publish and
subscribe, the codec's marshal and unmarshal, zap's `Build`, and
`fmt.Sprint`/`Sprintf`. Context lookups (`ctx.Value(key).(T)`) are optional
fields of a per-adapter `Context` record. Option mutators are total
functions, applied left to right (`Common.ApplyAll`).

Files:

- `common.dfy`: `Option`, `Result`, `Error` and the ordered application of
  option mutators.
- `micro_logger.dfy`: the framework's `logger.Level` and `logger.Options`.
- `nats.dfy`, `zap.dfy`, `logrus.dfy`: one module per adapter.

Modelling choices:

- **Framework levels.** The framework's `logger.Level` is an integer type.
  Its numeric values do not appear in the adapters. The model uses the
  seven named levels plus `Unnamed(code)`, which stands for any other value
  and reaches the switches' `default` branches.
- **Library levels.** `zapcore.Level` (int8) and `logrus.Level` (uint32)
  are newtypes with the libraries' own constants:
  - zap: Debug -1, Info 0, Warn 1, Error 2, DPanic 3, Panic 4, Fatal 5;
  - logrus: Panic 0, Fatal 1, Error 2, Warn 3, Info 4, Debug 5, Trace 6.

  The zap values matter for the `lvl < DPanicLevel` test.
- **zap's level check.** `Core().Enabled(lvl)` is modelled as "`lvl` is at
  or above the stored atomic level". This is how zap's `AtomicLevel`
  behaves for a logger built from the configuration that holds it. The
  model keeps the atomic level as a plain field of `Zap.ZapLog`.
- **Default server URL.** The source names the NATS client library's
  `nats.DefaultURL` without giving its value, which depends on the client
  release. The model takes `nats://localhost:4222`. The proofs use only
  two facts about it: it is non-empty and it starts with `nats://`.

Two behaviours of the code are easy to misread:

- **Disconnect.** `Disconnect` (`broker/nats/nats.go:128-131`) closes the
  connection handle but does not clear it. The model therefore keeps a
  closed handle that is no longer connected, and a later `Connect` returns
  nil without dialing.
- **Default address.** An empty or all-blank address list yields exactly
  `[DefaultURL]` (`Nats.NormalizedShape`). The converse does not hold:
  the non-blank list `[DefaultURL]` also yields `[DefaultURL]`
  (`Nats.DefaultFromNonBlankInput`). The "if and only if" is proved for the
  list collected before the default is substituted (`Nats.KeptEmptyIff`).

## Model

Reference definitions without a contract of their own (`Common.ApplyAll`,
`Nats.Kept`, `Nats.Normalized`, `Logrus.Resolve` and the like) are
described in the row of the member whose contract is stated through
them.

| member | source | states |
|---|---|---|
| `Common.ApplyAllConcat` | broker/nats/nats.go:134-136 | Option mutators are applied strictly in order: applying a list and then another equals applying their concatenation, so the order is kept and nothing is merged. `Common.ApplyAll` is that fold; it stands for the option loops at broker/nats/nats.go:134-136, 158-160 and 207-209, logger/zap/zap.go:21-23 and logger/logrus/logrus.go:25-27 |
| `Nats.WithScheme` | broker/nats/nats.go:76-78 | The rewritten address always starts with `nats://`, ends with the original address, and equals it when it already had the scheme |
| `Nats.SetAddrs` | broker/nats/nats.go:70-85 | The loop of `setAddrs` returns exactly the normalised list: blank entries dropped, the scheme added, `[DefaultURL]` when nothing is left. That list is `Nats.Normalized` (nats.go:70-85), the collected list `Nats.Kept` or `[DefaultURL]` in its place |
| `Nats.KeptConcat` | broker/nats/nats.go:71-80 | The list the loop collects from a concatenation is what it collects from each part, concatenated; the loop neither reorders nor merges entries. The default substitution after the loop (nats.go:81-83) does not distribute this way |
| `Nats.KeptIsSchemedNonBlank` | broker/nats/nats.go:71-80 | The collected list has one entry per non-empty input, in input order, each being that input with the scheme added when missing. The collected list is `Nats.Kept`, the loop of nats.go:71-80 before the default is substituted |
| `Nats.KeptSchemed` | broker/nats/nats.go:72-80 | Every collected entry is non-empty and starts with `nats://` |
| `Nats.NormalizedSchemed` | broker/nats/nats.go:76-83 | Every entry of the result, the default included, is non-empty and starts with `nats://` |
| `Nats.KeptContains` | broker/nats/nats.go:72-80 | Every non-empty input appears in the result, with the scheme added when it was missing |
| `Nats.KeptEmptyIff` | broker/nats/nats.go:71-80 | The collected list is empty if and only if every input entry is empty, including the empty input |
| `Nats.NormalizedShape` | broker/nats/nats.go:81-83 | The result is never empty. It is `[DefaultURL]` when every input is blank. Otherwise it is the collected list, and its length is the number of non-empty inputs |
| `Nats.DefaultFromNonBlankInput` | broker/nats/nats.go:76-83 | A non-blank input, `[DefaultURL]` itself, also produces exactly `[DefaultURL]`, so the default appears not only for blank input |
| `Nats.KeptFixesSchemed` | broker/nats/nats.go:76-79 | A list of non-empty entries that already carry the scheme passes through unchanged |
| `Nats.NormalizedIdempotent` | broker/nats/nats.go:70-85 | `setAddrs` is idempotent: normalising a normalised list gives it back |
| `Nats.DialOptionsFor` | broker/nats/nats.go:92-116 | The dial uses the broker's addresses and TLS config. `Secure` is forced on when a TLS config is present and otherwise equals the configured `Secure` |
| `Nats.RegistrationFor` | broker/nats/nats.go:173-177 | A queue-group subscription is chosen exactly when the queue name is non-empty, with that queue and the topic; otherwise a plain subscription on the topic. Either way the given callback is registered |
| `Nats.SubscribeDefaults` | broker/nats/nats.go:154-156 | Before any caller option, subscribe options have auto-ack on and no queue, which selects a plain subscription |
| `Nats.Encode` | broker/nats/nats.go:145-150 | Publishing sends the codec's bytes on the topic exactly when marshalling succeeds; otherwise the codec's error is returned |
| `Nats.Decode` | broker/nats/nats.go:162-168 | A message whose unmarshalling fails never reaches the handler; otherwise the handler gets the message's subject as topic and the decoded message |
| `Nats.PublishDeliverRoundTrip` | broker/nats/nats.go:145-168 | With a codec that round-trips a message, what is published on a topic is delivered to the handler with the same topic and the same message |
| `Nats.Broker.constructor` | broker/nats/nats.go:188-216 | `NewBroker` applies the options in order to the defaults, normalises the addresses and starts with no connection. The defaults are `Nats.DefaultOptions` (nats.go:201-205): the given codec, no addresses, not secure, no TLS configuration |
| `Nats.Broker.Address` | broker/nats/nats.go:59-68 | The connected URL while connected, else the first address, else `""`. With normalised addresses and no live connection it is a non-empty `nats://` URL |
| `Nats.Broker.Connect` | broker/nats/nats.go:87-126 | With a connection present it returns nil and changes nothing. Otherwise it dials once: on success the connection is kept, on failure the error is returned and the connection stays nil. Options and addresses are untouched |
| `Nats.Broker.Disconnect` | broker/nats/nats.go:128-131 | Closes the connection and returns nil. The handle stays set and is no longer connected; options and addresses are untouched |
| `Nats.Broker.Init` | broker/nats/nats.go:133-139 | The options become the old options with each mutator applied in order. The addresses are recomputed by `setAddrs` and the connection is untouched |
| `Nats.Broker.Deliver` | broker/nats/nats.go:162-168 | The registered callback, on a message's arrival, decodes it with the broker's codec as it is then. A message that fails to decode is dropped; otherwise the subscription's handler is called with the message's subject and the decoded message |
| `Nats.Broker.Publish` | broker/nats/nats.go:145-151 | A codec error is returned without sending anything. Otherwise the encoded message is sent and the transport's answer is returned. When the broker's codec decodes the sent bytes back to the message, every subscription's callback hands the handler that same topic and message |
| `Nats.Broker.Subscribe` | broker/nats/nats.go:153-182 | Options start from auto-ack on and run in order. The queue-or-plain registration follows the queue name and installs the callback that decodes with the broker's codec and calls the caller's handler. The subscriber carries the resolved options, or the registration error is returned |
| `Zap.LoggerToZap` | logger/zap/zap.go:130-147 | Total: every framework level maps to one of zap's six tabled levels (so never DPanic), and an unnamed level maps to Info |
| `Zap.ZapToLogger` | logger/zap/zap.go:149-166 | Total: every zap level maps to a named framework level other than Trace, and every zap level outside the table (DPanic included) maps to Info |
| `Zap.TraceCollapsesToDebug` | logger/zap/zap.go:130-134 | Trace and Debug both map to zap's Debug |
| `Zap.LoggerToZapMonotone` | logger/zap/zap.go:130-147 | The table preserves severity order among the named levels |
| `Zap.LoggerRoundTrip` | logger/zap/zap.go:130-166 | Debug, Info, Warn, Error, Panic and Fatal read back as themselves; Trace reads back as Debug; unnamed levels as Info |
| `Zap.ZapRoundTrip` | logger/zap/zap.go:130-166 | The six tabled zap levels survive the trip through the framework's levels; any other zap level comes back as Info |
| `Zap.GateRule` | logger/zap/zap.go:74-77 | An entry passes the early return exactly when it is at or above DPanic or enabled. The framework's Panic and Fatal, the only levels at or above DPanic, are never cut off. The rule is `Zap.PassesGate` over `Zap.Enabled`, the test of zap.go:75 and 99: an entry is cut off only when it is below DPanic and not enabled |
| `Zap.Format` | logger/zap/zap.go:80-85 | The template verbatim exactly when there are no arguments; Sprint of the arguments exactly when the template is empty and there are arguments; Sprintf of template and arguments otherwise |
| `Zap.ConfigFor` | logger/zap/zap.go:25-33 | The configuration comes from the context when given, else the production default. The context's encoder configuration replaces its own when given |
| `Zap.InitialLevel` | logger/zap/zap.go:35-38 | The fresh atomic level is Info unless the context provides a level, in which case it is that level translated |
| `Zap.ZapLog.constructor` | logger/zap/zap.go:122 | A new adapter has no configuration and no engine |
| `Zap.ZapLog.Init` | logger/zap/zap.go:17-63 | Options start fresh and run in order; configuration and level come from the context. A build error is returned with the adapter unchanged. On success the configuration, the fresh level and the engine are installed, with the context's fields and then its namespace attached. The fresh options are `Zap.InitOptions` (zap.go:20), and the attaching of fields and namespace is `Zap.Decorate` (zap.go:45-55) |
| `Zap.ZapLog.SetLevel` | logger/zap/zap.go:65-71 | Only the stored level changes, to the translated level, and `Level()` then returns `zapToLoggerLevel(loggerToZapLevel(x))` |
| `Zap.ZapLog.Log` | logger/zap/zap.go:73-95 | Returns early exactly when the translated level is below DPanic and not enabled. Otherwise it hands over an entry at the translated level with the chosen message and the fields |
| `Zap.ZapLog.Error` | logger/zap/zap.go:97-114 | The same early return and message choice as `Log`, with the error as the only field |
| `Zap.ZapLog.Level` | logger/zap/zap.go:69-71 | The stored level read back through `zapToLoggerLevel`: a named level other than Trace, which translates back to the stored level when that is tabled, and Info otherwise |
| `Zap.NewLogger` | logger/zap/zap.go:121-128 | A fresh initialised adapter when the build succeeds, the build error otherwise |
| `Logrus.LoggerToLogrus` | logger/logrus/logrus.go:112-129 | Total: every framework level maps to a tabled logrus level (one of Fatal, Error, Warn, Info, Debug, Trace). Panic and unnamed levels map to Info |
| `Logrus.LogrusToLogger` | logger/logrus/logrus.go:131-148 | Total: every logrus level maps to one of the six mapped framework levels. Levels outside the table, Panic included, map to Info |
| `Logrus.LoggerToLogrusInjective` | logger/logrus/logrus.go:112-129 | The table is injective on Trace, Debug, Info, Warn, Error and Fatal |
| `Logrus.LoggerToLogrusAntitone` | logger/logrus/logrus.go:112-129 | The table preserves severity order, into logrus's numbering where more severe is lower |
| `Logrus.LoggerRoundTrip` | logger/logrus/logrus.go:112-148 | The six mapped levels read back as themselves; Panic and unnamed levels read back as Info |
| `Logrus.LogrusRoundTrip` | logger/logrus/logrus.go:112-148 | The six tabled logrus levels survive the round trip through the framework's levels |
| `Logrus.ContextOverrides` | logger/logrus/logrus.go:29-40 | The context's formatter, hooks and exit function replace the options' own when present; caller reporting ends up on iff it was on or the context holds `true` |
| `Logrus.TakeoverAdoptsExternal` | logger/logrus/logrus.go:43-52 | With an external logger in the context, the options take its level through the table and its output, formatter, hooks, caller reporting and exit function. That logger becomes the engine; fields and context are kept. This is the takeover branch of `Logrus.Resolve` and `Logrus.EngineFor` |
| `Logrus.ReportCallerOnlyTurnsOn` | logger/logrus/logrus.go:35-37 | Without takeover, the context can only turn caller reporting on; a `false` or no value leaves it unchanged. This is the no-takeover branch of `Logrus.Resolve` |
| `Logrus.FreshEngineFollowsOptions` | logger/logrus/logrus.go:53-60 | Without takeover, the fresh engine gets the translated level, output, formatter, hooks, caller reporting and exit function of the resolved options. This is the no-takeover branch of `Logrus.EngineFor` |
| `Logrus.LevelAgreesWithEngine` | logger/logrus/logrus.go:42-60 | The options' level reads back the engine's level whenever it is one of the six mapped levels, which it always is when `Init` returns from a takeover |
| `Logrus.ResolveIdempotent` | logger/logrus/logrus.go:24-65 | Resolving resolved options changes neither the options nor the engine chosen |
| `Logrus.NewLoggerDefaults` | logger/logrus/logrus.go:93-110 | Without options the defaults survive `Init`: level Info, no fields, no caller reporting, a fresh engine at logrus Info on standard error. The defaults are `Logrus.DefaultOptions` (logrus.go:95-106): level Info, no fields, standard error, text formatter, no hooks, no caller reporting, `os.Exit` |
| `Logrus.LogrusLogger.constructor` | logger/logrus/logrus.go:93-110 | `NewLogger` starts from the defaults and runs `Init`, whose result is ignored |
| `Logrus.LogrusLogger.Init` | logger/logrus/logrus.go:24-65 | The mutators run in order on the base options. The options are then resolved from the context and the engine is the external logger or a fresh one. No error is reported. The options after the mutators are `Logrus.Applied` (logrus.go:25-27), the resolved options `Logrus.Resolve` (logrus.go:29-51) and the engine `Logrus.EngineFor` (logrus.go:42-60) |
| `Logrus.LogrusLogger.Derived` | logger/logrus/logrus.go:72 | The `&logrusLogger{…}` literal built by `Fields` and `Error`: the new logger holds exactly the given engine and the given options |
| `Logrus.LogrusLogger.Fields` | logger/logrus/logrus.go:71-73 | A new logger with the same options, over the engine with the fields attached; the receiver is not modified |
| `Logrus.LogrusLogger.Error` | logger/logrus/logrus.go:75-77 | A new logger with the same options, over the engine with the error attached; the receiver is not modified |
| `Logrus.LogrusLogger.Log` | logger/logrus/logrus.go:79-81 | Forwards the arguments unchanged to the engine at the translated, always tabled, level |
| `Logrus.LogrusLogger.Logf` | logger/logrus/logrus.go:83-85 | Forwards format and arguments unchanged to the engine at the translated, always tabled, level |
| `Logrus.LogrusLogger.Options` | logger/logrus/logrus.go:87-90 | Returns the framework's part of the options only, without formatter, hooks, caller reporting or exit function |

## Left out

- The NATS client is not modelled. The dial is a function parameter of
  `Connect`. The connection's publish, subscribe and queue-subscribe calls
  are parameters of `Publish` and `Subscribe`. `Close`, `IsConnected` and
  `ConnectedUrl` appear only as a snapshot `Conn(id, connected,
  connectedUrl)`.
- Nats.Broker.Address: reads a snapshot of the connection status. The real
  status changes asynchronously, for example on reconnects.
- Nats.Broker.Subscribe: the handler is an opaque value. The model
  states which callback is registered and, through `Nats.Broker.Deliver`,
  what that callback hands the handler; it does not model the client
  invoking callbacks or the handler's own effects.
- Nats.Broker.Publish, Nats.Broker.Subscribe: take the transport as a
  parameter. They do not model the Go nil dereference when called before
  `Connect`.
- Unsubscribing is not modelled; `subscriber.Unsubscribe` forwards to the
  client.
- The JSON codec is a pair of foreign partial functions (`Nats.Codec`).
- `Connect` also copies these pass-through settings into the dial options:
  reconnect, ping, timeout, buffer, name, callback and credential settings
  (`broker/nats/nats.go:96-111`). So are the `natsOptions` defaults of
  `NewBroker` and the context value that carries them. There is nothing to
  decide in a field copy.
- The `init` registration of the broker under the name "nats" is process
  start-up plumbing.
- These getters and constants are left out; each returns a field or a
  constant:
  - `publication.Topic`, `publication.Message` and `publication.Ack`
    (always nil; nothing is acknowledged upstream);
  - `subscriber.Options` and `subscriber.Topic`;
  - `nbroker.Options`;
  - the `String` methods ("nats", "zap", "logrus").
- The zap and logrus engines are symbolic `Engine` values. This covers
  zap's `Build`, `With`, `zap.Any` and `Check`/`Write`, and logrus's `New`,
  setters, `WithFields`, `WithError`, `Log` and `Logf`.
- Zap.ZapLog.Log: returns the entry handed to `Check`. Whether zap then
  writes it (sampling, sinks) is not modelled. Field flattening is not
  modelled either; Go's map order is unspecified.
- `fmt.Sprint` and `fmt.Sprintf` stay symbolic message constructors.
- Logrus.LevelAgreesWithEngine: after a takeover the adopted logrus logger
  is shared with the caller, who can still change its level, output or
  hooks, and the engine follows those changes while the options keep the
  copy made by `Init`. The model treats the external logger as a value, so
  the agreement is stated for the moment `Init` returns.
- zap's production configuration is a parameter of `Init`, and the
  configuration's settings other than the encoder are opaque.
- Zap.ZapLog.SetLevel: treats the atomic level as a plain field, so
  concurrent access is not modelled.
- Zap.InitOptions: the framework options `Init` starts from have zero-value
  fields that the adapter never reads. Their concrete zero level is not
  part of this model.
