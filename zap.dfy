/** The zap logger adapter: the two level tables, the stored (atomic)
    level, the early-return rule and the choice of message format. The zap
    engine itself is represented by symbolic values. */
module Zap {
  import opened Common
  import Logger = MicroLogger

  /** `zapcore.Level`, a signed 8-bit integer, with zap's named levels. */
  newtype ZapLevel = x: int | -128 <= x < 128

  const DebugLevel: ZapLevel := -1
  const InfoLevel: ZapLevel := 0
  const WarnLevel: ZapLevel := 1
  const ErrorLevel: ZapLevel := 2
  const DPanicLevel: ZapLevel := 3
  const PanicLevel: ZapLevel := 4
  const FatalLevel: ZapLevel := 5

  /** The six zap levels the adapter's tables name (all but DPanic). */
  predicate Tabled(z: ZapLevel) {
    z == DebugLevel || z == InfoLevel || z == WarnLevel || z == ErrorLevel || z == PanicLevel || z == FatalLevel
  }

  /** `loggerToZapLevel`: Trace and Debug share zap's Debug, and any level
      outside the table is Info; the result is always a tabled zap level,
      never DPanic. */
  function LoggerToZap(level: Logger.Level): (z: ZapLevel)
    ensures Tabled(z)
    ensures level.Unnamed? ==> z == InfoLevel
  {
    match level
    case TraceLevel => DebugLevel
    case DebugLevel => DebugLevel
    case InfoLevel => InfoLevel
    case WarnLevel => WarnLevel
    case ErrorLevel => ErrorLevel
    case PanicLevel => PanicLevel
    case FatalLevel => FatalLevel
    case Unnamed(_) => InfoLevel
  }

  /** `zapToLoggerLevel`: a named level other than Trace for each tabled zap
      level, Info for every other zap level (DPanic included). */
  function ZapToLogger(z: ZapLevel): (level: Logger.Level)
    ensures !level.Unnamed? && level != Logger.TraceLevel
    ensures !Tabled(z) ==> level == Logger.InfoLevel
  {
    if z == DebugLevel then Logger.DebugLevel
    else if z == InfoLevel then Logger.InfoLevel
    else if z == WarnLevel then Logger.WarnLevel
    else if z == ErrorLevel then Logger.ErrorLevel
    else if z == PanicLevel then Logger.PanicLevel
    else if z == FatalLevel then Logger.FatalLevel
    else Logger.InfoLevel
  }

  /** Trace and Debug collapse to zap's Debug. */
  lemma TraceCollapsesToDebug()
    ensures LoggerToZap(Logger.TraceLevel) == LoggerToZap(Logger.DebugLevel) == DebugLevel
  {
  }

  /** The table keeps severity order among the named levels. */
  lemma LoggerToZapMonotone(a: Logger.Level, b: Logger.Level)
    requires !a.Unnamed? && !b.Unnamed?
    requires Logger.Severity(a) <= Logger.Severity(b)
    ensures LoggerToZap(a) <= LoggerToZap(b)
  {
  }

  /** A named level other than Trace reads back as itself; Trace reads
      back as Debug; an unnamed level reads back as Info. */
  lemma LoggerRoundTrip(level: Logger.Level)
    ensures !level.Unnamed? && level != Logger.TraceLevel ==> ZapToLogger(LoggerToZap(level)) == level
    ensures level == Logger.TraceLevel ==> ZapToLogger(LoggerToZap(level)) == Logger.DebugLevel
    ensures level.Unnamed? ==> ZapToLogger(LoggerToZap(level)) == Logger.InfoLevel
  {
  }

  /** A tabled zap level survives the trip through the framework's levels;
      every other zap level (such as DPanic) comes back as Info. */
  lemma ZapRoundTrip(z: ZapLevel)
    ensures Tabled(z) ==> LoggerToZap(ZapToLogger(z)) == z
    ensures !Tabled(z) ==> LoggerToZap(ZapToLogger(z)) == InfoLevel
  {
  }

  /** The engine's level check `Core().Enabled(lvl)`: the core built from
      the configuration is enabled at and above the stored atomic level. */
  predicate Enabled(lvl: ZapLevel, atomic: ZapLevel) {
    atomic <= lvl
  }

  /** The early-return rule of `Log` and `Error`: an entry is cut off only
      when it is below DPanic and the core is not enabled for it. */
  predicate PassesGate(lvl: ZapLevel, atomic: ZapLevel) {
    !(lvl < DPanicLevel && !Enabled(lvl, atomic))
  }

  /** An entry passes exactly when it is at or above DPanic or at or above
      the stored level; so the framework's Panic and Fatal always pass,
      whatever the stored level. */
  lemma GateRule(level: Logger.Level, atomic: ZapLevel)
    ensures PassesGate(LoggerToZap(level), atomic) <==> DPanicLevel <= LoggerToZap(level) || atomic <= LoggerToZap(level)
    ensures DPanicLevel <= LoggerToZap(level) <==> level == Logger.PanicLevel || level == Logger.FatalLevel
    ensures level == Logger.PanicLevel || level == Logger.FatalLevel ==> PassesGate(LoggerToZap(level), atomic)
  {
  }

  /** The message of an entry: the template verbatim, the arguments
      concatenated (`fmt.Sprint`) or the template filled in with them
      (`fmt.Sprintf`). The formatting itself is foreign and stays symbolic. */
  datatype Message = Verbatim(text: string) | Sprint(args: seq<Logger.Value>) | Sprintf(format: string, args: seq<Logger.Value>)

  /** The three-way choice of message format. */
  function Format(template: string, fmtArgs: seq<Logger.Value>): (m: Message)
    ensures m.Verbatim? <==> |fmtArgs| == 0
    ensures m.Verbatim? ==> m.text == template
    ensures !m.Verbatim? ==> m.args == fmtArgs
    ensures m.Sprint? <==> template == "" && |fmtArgs| > 0
    ensures m.Sprintf? ==> m.format == template
  {
    if template == "" && |fmtArgs| > 0 then Sprint(fmtArgs)
    else if template != "" && |fmtArgs| > 0 then Sprintf(template, fmtArgs)
    else Verbatim(template)
  }

  /** What an entry carries besides its message. */
  datatype Payload = Fields(fields: map<string, Logger.Value>) | ErrorField(err: Error)

  /** An entry handed to the engine's `Check`/`Write`. */
  datatype Entry = Entry(level: ZapLevel, message: Message, payload: Payload)

  datatype EncoderConfig = EncoderConfig(id: nat)

  /** `zap.Config` apart from its level: the encoder configuration and the
      remaining settings, kept opaque. */
  datatype Config = Config(encoder: EncoderConfig, settings: nat)

  /** The values the adapter looks up in the options' context. */
  datatype Context = Context(
    config: Option<Config>,
    encoderConfig: Option<EncoderConfig>,
    level: Option<Logger.Level>,
    fields: Option<map<string, Logger.Value>>,
    namespace: Option<string>)

  type Options = Logger.Options<Context>

  /** The options `Init` starts from: only a background context is set;
      the other fields keep their zero values and are not read. */
  const InitOptions: Options :=
    Logger.Options(Logger.InfoLevel, map[], Logger.NilWriter, Context(None, None, None, None, None))

  /** A built zap logger, possibly extended with fields and a namespace. */
  datatype Engine = Built(id: nat) | WithFields(parent: Engine, fields: map<string, Logger.Value>) | WithNamespace(parent: Engine, namespace: string)

  /** The configuration `Init` builds from: the context's configuration,
      else the production default, with the context's encoder
      configuration in place of its own when one is given. */
  function ConfigFor(production: Config, ctx: Context): (c: Config)
    ensures c.settings == ctx.config.GetOr(production).settings
    ensures ctx.encoderConfig.Some? ==> c.encoder == ctx.encoderConfig.value
    ensures ctx.encoderConfig.None? ==> c == ctx.config.GetOr(production)
  {
    var base := ctx.config.GetOr(production);
    if ctx.encoderConfig.Some? then base.(encoder := ctx.encoderConfig.value) else base
  }

  /** The level of the fresh atomic level `Init` installs: zap's default
      Info, unless the context gives a level. */
  function InitialLevel(ctx: Context): (z: ZapLevel)
    ensures ctx.level.None? ==> z == InfoLevel
    ensures ctx.level.Some? ==> z == LoggerToZap(ctx.level.value)
  {
    if ctx.level.Some? then LoggerToZap(ctx.level.value) else InfoLevel
  }

  /** The built engine with the context's fields and then its namespace
      attached. */
  function Decorate(z: Engine, ctx: Context): Engine {
    var withFields := if ctx.fields.Some? then WithFields(z, ctx.fields.value) else z;
    if ctx.namespace.Some? then WithNamespace(withFields, ctx.namespace.value) else withFields
  }

  /** The adapter (`zaplog`): its configuration, the configuration's atomic
      level (a plain field here), and the engine; both nil until `Init`
      succeeds. */
  class ZapLog {
    var cfg: Option<Config>
    var level: ZapLevel
    var engine: Option<Engine>

    ghost predicate Valid()
      reads this
    {
      cfg.Some? && engine.Some?
    }

    /** `&zaplog{}`: nothing configured yet. */
    constructor ()
      ensures cfg == None && engine == None
    {
      cfg := None;
      level := InfoLevel;
      engine := None;
    }

    /** `Init`: applies the options to fresh options, resolves the
        configuration and the level from the context and builds the engine;
        a build failure returns its error and leaves the adapter as it was. */
    method Init(os: seq<Options -> Options>, production: Config, build: Config -> Result<Engine>)
      returns (err: Option<Error>)
      modifies this
      ensures var ctx := ApplyAll(InitOptions, os).context;
        var c := ConfigFor(production, ctx);
        match build(c)
        case Err(e) =>
          err == Some(e) && cfg == old(cfg) && level == old(level) && engine == old(engine)
        case Ok(z) =>
          err == None && Valid() && cfg == Some(c) && level == InitialLevel(ctx) && engine == Some(Decorate(z, ctx))
    {
      var options := InitOptions;
      for i := 0 to |os|
        invariant options == ApplyAll(InitOptions, os[..i])
        invariant unchanged(this)
      {
        assert os[..i + 1] == os[..i] + [os[i]];
        ApplyAllConcat(InitOptions, os[..i], [os[i]]);
        options := os[i](options);
      }
      assert os[..|os|] == os;

      var zapConfig := production;
      if options.context.config.Some? {
        zapConfig := options.context.config.value;
      }
      if options.context.encoderConfig.Some? {
        zapConfig := zapConfig.(encoder := options.context.encoderConfig.value);
      }

      var atomic := InfoLevel;
      if options.context.level.Some? {
        atomic := LoggerToZap(options.context.level.value);
      }

      var built := build(zapConfig);
      if built.Err? {
        return Some(built.error);
      }
      var log := built.value;
      if options.context.fields.Some? {
        log := WithFields(log, options.context.fields.value);
      }
      if options.context.namespace.Some? {
        log := WithNamespace(log, options.context.namespace.value);
      }

      cfg := Some(zapConfig);
      level := atomic;
      engine := Some(log);
      return None;
    }

    /** `SetLevel`: stores the translated level; the engine, built on the
        same atomic level, follows it without being rebuilt. */
    method SetLevel(l: Logger.Level)
      requires Valid()
      modifies this`level
      ensures Valid() && level == LoggerToZap(l)
      ensures Level() == ZapToLogger(LoggerToZap(l))
    {
      level := LoggerToZap(l);
    }

    /** `Level`: the stored level read back through the table: a named
        level other than Trace, which translates back to the stored level
        when that is tabled, and Info otherwise. */
    function Level(): (r: Logger.Level)
      reads this
      ensures !r.Unnamed? && r != Logger.TraceLevel
      ensures Tabled(level) ==> LoggerToZap(r) == level
      ensures !Tabled(level) ==> r == Logger.InfoLevel
    {
      ZapRoundTrip(level);
      ZapToLogger(level)
    }

    /** `Log`: returns early for an entry cut off by the gate; otherwise
        formats the message and hands the entry, with the fields, to the
        engine. */
    method Log(l: Logger.Level, template: string, fmtArgs: seq<Logger.Value>, fields: map<string, Logger.Value>)
      returns (entry: Option<Entry>)
      requires Valid()
      ensures entry.None? <==> !PassesGate(LoggerToZap(l), level)
      ensures entry.Some? ==> entry.value == Entry(LoggerToZap(l), Format(template, fmtArgs), Fields(fields))
    {
      var lvl := LoggerToZap(l);
      if lvl < DPanicLevel && !(level <= lvl) {
        return None;
      }

      // The message is the template itself, its arguments joined, or the
      // template filled in with them.
      var msg := Verbatim(template);
      if template == "" && |fmtArgs| > 0 {
        msg := Sprint(fmtArgs);
      } else if template != "" && |fmtArgs| > 0 {
        msg := Sprintf(template, fmtArgs);
      }

      return Some(Entry(lvl, msg, Fields(fields)));
    }

    /** `Error`: the same gate and message choice as `Log`, with a single
        error field as payload. */
    method Error(l: Logger.Level, template: string, fmtArgs: seq<Logger.Value>, err: Common.Error)
      returns (entry: Option<Entry>)
      requires Valid()
      ensures entry.None? <==> !PassesGate(LoggerToZap(l), level)
      ensures entry.Some? ==> entry.value == Entry(LoggerToZap(l), Format(template, fmtArgs), ErrorField(err))
    {
      var lvl := LoggerToZap(l);
      if lvl < DPanicLevel && !(level <= lvl) {
        return None;
      }

      // The message is the template itself, its arguments joined, or the
      // template filled in with them.
      var msg := Verbatim(template);
      if template == "" && |fmtArgs| > 0 {
        msg := Sprint(fmtArgs);
      } else if template != "" && |fmtArgs| > 0 {
        msg := Sprintf(template, fmtArgs);
      }

      return Some(Entry(lvl, msg, ErrorField(err)));
    }
  }

  /** `NewLogger`: a fresh adapter initialised with the options, or the
      build error. */
  method NewLogger(os: seq<Options -> Options>, production: Config, build: Config -> Result<Engine>)
    returns (r: Result<ZapLog>)
    ensures var ctx := ApplyAll(InitOptions, os).context;
      var c := ConfigFor(production, ctx);
      match build(c)
      case Err(e) => r == Err(e)
      case Ok(z) =>
        r.Ok? && fresh(r.value) && r.value.Valid() && r.value.cfg == Some(c)
        && r.value.level == InitialLevel(ctx) && r.value.engine == Some(Decorate(z, ctx))
  {
    var l := new ZapLog();
    var err := l.Init(os, production, build);
    if err.Some? {
      return Err(err.value);
    }
    return Ok(l);
  }
}
