/** The logrus logger adapter: the two level tables, the resolution of its
    options from the context (including the takeover of an existing logrus
    logger), and the derived loggers of `Fields` and `Error`. The logrus
    engine itself is represented by symbolic values. */
module Logrus {
  import opened Common
  import Logger = MicroLogger

  /** `logrus.Level`, an unsigned 32-bit integer, with logrus's named
      levels (Panic most severe). */
  newtype LogrusLevel = x: int | 0 <= x < 0x1_0000_0000

  const PanicLevel: LogrusLevel := 0
  const FatalLevel: LogrusLevel := 1
  const ErrorLevel: LogrusLevel := 2
  const WarnLevel: LogrusLevel := 3
  const InfoLevel: LogrusLevel := 4
  const DebugLevel: LogrusLevel := 5
  const TraceLevel: LogrusLevel := 6

  /** The six logrus levels the adapter's tables name: Fatal to Trace. */
  predicate Tabled(l: LogrusLevel) {
    FatalLevel <= l <= TraceLevel
  }

  /** The six framework levels the adapter's tables name: every named level
      but Panic. */
  predicate Mapped(level: Logger.Level) {
    !level.Unnamed? && level != Logger.PanicLevel
  }

  /** `loggerToLogrusLevel`: always a tabled logrus level; the framework's
      Panic and any unnamed level fall to Info. */
  function LoggerToLogrus(level: Logger.Level): (l: LogrusLevel)
    ensures Tabled(l)
    ensures !Mapped(level) ==> l == InfoLevel
  {
    match level
    case TraceLevel => TraceLevel
    case DebugLevel => DebugLevel
    case InfoLevel => InfoLevel
    case WarnLevel => WarnLevel
    case ErrorLevel => ErrorLevel
    case FatalLevel => FatalLevel
    case _ => InfoLevel
  }

  /** `logrusToLoggerLevel`: always one of the six mapped framework levels;
      a logrus level outside the table (Panic, or any unnamed value) is
      Info. */
  function LogrusToLogger(l: LogrusLevel): (level: Logger.Level)
    ensures Mapped(level)
    ensures !Tabled(l) ==> level == Logger.InfoLevel
  {
    if l == TraceLevel then Logger.TraceLevel
    else if l == DebugLevel then Logger.DebugLevel
    else if l == InfoLevel then Logger.InfoLevel
    else if l == WarnLevel then Logger.WarnLevel
    else if l == ErrorLevel then Logger.ErrorLevel
    else if l == FatalLevel then Logger.FatalLevel
    else Logger.InfoLevel
  }

  /** No two mapped framework levels share a logrus level. */
  lemma LoggerToLogrusInjective(a: Logger.Level, b: Logger.Level)
    requires Mapped(a) && Mapped(b)
    requires LoggerToLogrus(a) == LoggerToLogrus(b)
    ensures a == b
  {
  }

  /** The table reverses into logrus's numbering, most severe lowest. */
  lemma LoggerToLogrusAntitone(a: Logger.Level, b: Logger.Level)
    requires Mapped(a) && Mapped(b)
    requires Logger.Severity(a) <= Logger.Severity(b)
    ensures LoggerToLogrus(b) <= LoggerToLogrus(a)
  {
  }

  /** A mapped framework level survives the round trip; Panic and unnamed
      levels come back as Info. */
  lemma LoggerRoundTrip(level: Logger.Level)
    ensures Mapped(level) ==> LogrusToLogger(LoggerToLogrus(level)) == level
    ensures !Mapped(level) ==> LogrusToLogger(LoggerToLogrus(level)) == Logger.InfoLevel
  {
  }

  /** A tabled logrus level survives the round trip (every other logrus
      level reads as the framework's Info, as `LogrusToLogger` states). */
  lemma LogrusRoundTrip(l: LogrusLevel)
    ensures Tabled(l) ==> LoggerToLogrus(LogrusToLogger(l)) == l
  {
  }

  datatype Formatter = TextFormatter | OtherFormatter(id: nat)
  datatype Hook = Hook(id: nat)

  /** `logrus.LevelHooks`. */
  type Hooks = map<LogrusLevel, seq<Hook>>

  /** The function a Fatal entry exits through. */
  datatype ExitFunc = OsExit | OtherExit(id: nat)

  /** An already-built `*logrus.Logger` handed over through the context. */
  datatype ExternalLogger = ExternalLogger(
    id: nat,
    level: LogrusLevel,
    out: Logger.Writer,
    formatter: Formatter,
    hooks: Hooks,
    reportCaller: bool,
    exitFunc: ExitFunc)

  /** The values the adapter looks up in the options' context. */
  datatype Context = Context(
    formatter: Option<Formatter>,
    hooks: Option<Hooks>,
    reportCaller: Option<bool>,
    exitFunc: Option<ExitFunc>,
    logger: Option<ExternalLogger>)

  const EmptyContext := Context(None, None, None, None, None)

  type BaseOptions = Logger.Options<Context>

  /** The adapter's `Options`: the framework's options plus the logrus
      settings. */
  datatype LogrusOptions = LogrusOptions(
    base: BaseOptions,
    formatter: Formatter,
    hooks: Hooks,
    reportCaller: bool,
    exitFunc: ExitFunc)

  /** The options `NewLogger` starts from. */
  const DefaultOptions: LogrusOptions :=
    LogrusOptions(Logger.Options(Logger.InfoLevel, map[], Logger.Stderr, EmptyContext), TextFormatter, map[], false, OsExit)

  /** The logrus engine: a fresh logger set up from the options, an adopted
      external one, or one of these carrying fields or an error. */
  datatype Engine =
    | Fresh(level: LogrusLevel, out: Logger.Writer, formatter: Formatter, hooks: Hooks, reportCaller: bool, exitFunc: ExitFunc)
    | Adopted(logger: ExternalLogger)
    | WithFields(parent: Engine, fields: map<string, Logger.Value>)
    | WithError(parent: Engine, err: Error)

  /** The level the engine at the root of a chain logs at. */
  function RootLevel(e: Engine): LogrusLevel {
    match e
    case Fresh(l, _, _, _, _, _) => l
    case Adopted(ll) => ll.level
    case WithFields(p, _) => RootLevel(p)
    case WithError(p, _) => RootLevel(p)
  }

  /** A call forwarded to the engine by `Log` (no format) or `Logf`. */
  datatype Call = Call(target: Engine, level: LogrusLevel, format: Option<string>, args: seq<Logger.Value>)

  /** The options after the caller's mutators ran on the base options. */
  function Applied(o: LogrusOptions, os: seq<BaseOptions -> BaseOptions>): LogrusOptions {
    o.(base := ApplyAll(o.base, os))
  }

  /** The context's formatter, hooks and exit function replace the
      options' own; its caller-reporting value can only switch reporting
      on. */
  function ContextOverrides(o: LogrusOptions): (r: LogrusOptions)
    ensures r.base == o.base
    ensures r.formatter == o.base.context.formatter.GetOr(o.formatter)
    ensures r.hooks == o.base.context.hooks.GetOr(o.hooks)
    ensures r.exitFunc == o.base.context.exitFunc.GetOr(o.exitFunc)
    ensures r.reportCaller <==> o.reportCaller || o.base.context.reportCaller == Some(true)
  {
    var ctx := o.base.context;
    o.(formatter := ctx.formatter.GetOr(o.formatter),
       hooks := ctx.hooks.GetOr(o.hooks),
       reportCaller := if ctx.reportCaller == Some(true) then true else o.reportCaller,
       exitFunc := ctx.exitFunc.GetOr(o.exitFunc))
  }

  /** The options `Init` leaves: the context overrides, and then, when the
      context holds an external logger, that logger's settings. */
  function Resolve(o: LogrusOptions): LogrusOptions {
    var c := ContextOverrides(o);
    match o.base.context.logger
    case None => c
    case Some(ll) =>
      c.(base := c.base.(level := LogrusToLogger(ll.level), out := ll.out),
         formatter := ll.formatter, hooks := ll.hooks,
         reportCaller := ll.reportCaller, exitFunc := ll.exitFunc)
  }

  /** The engine `Init` installs. */
  function EngineFor(o: LogrusOptions): Engine {
    match o.base.context.logger
    case Some(ll) => Adopted(ll)
    case None =>
      var r := Resolve(o);
      Fresh(LoggerToLogrus(r.base.level), r.base.out, r.formatter, r.hooks, r.reportCaller, r.exitFunc)
  }

  /** Takeover: with an external logger in the context, its level (through
      the table), output, formatter, hooks, caller reporting and exit
      function become the options', it becomes the engine, and the fields
      and the context are kept. */
  lemma TakeoverAdoptsExternal(o: LogrusOptions)
    requires o.base.context.logger.Some?
    ensures var ll := o.base.context.logger.value; var r := Resolve(o);
      && r.base.level == LogrusToLogger(ll.level)
      && r.base.out == ll.out
      && r.formatter == ll.formatter
      && r.hooks == ll.hooks
      && r.reportCaller == ll.reportCaller
      && r.exitFunc == ll.exitFunc
      && r.base.fields == o.base.fields
      && r.base.context == o.base.context
      && EngineFor(o) == Adopted(ll)
  {
  }

  /** Without an external logger, a `true` in the context switches caller
      reporting on, and a `false` leaves the options' value as it was. */
  lemma ReportCallerOnlyTurnsOn(o: LogrusOptions)
    requires o.base.context.logger.None?
    ensures o.reportCaller ==> Resolve(o).reportCaller
    ensures o.base.context.reportCaller == Some(true) ==> Resolve(o).reportCaller
    ensures o.base.context.reportCaller != Some(true) ==> Resolve(o).reportCaller == o.reportCaller
  {
  }

  /** Without an external logger, the fresh engine is set up from the
      resolved options, its level translated by the table. */
  lemma FreshEngineFollowsOptions(o: LogrusOptions)
    requires o.base.context.logger.None?
    ensures var r := Resolve(o);
      EngineFor(o) == Fresh(LoggerToLogrus(r.base.level), r.base.out, r.formatter, r.hooks, r.reportCaller, r.exitFunc)
      && r.base == o.base
  {
  }

  /** The options' level reads back the engine's level whenever it is one
      of the mapped levels; after a takeover it always is. */
  lemma LevelAgreesWithEngine(o: LogrusOptions)
    ensures o.base.context.logger.Some? ==> Mapped(Resolve(o).base.level)
    ensures Mapped(Resolve(o).base.level) ==> LogrusToLogger(RootLevel(EngineFor(o))) == Resolve(o).base.level
  {
  }

  /** Resolving again changes nothing: `Init` with no further options is
      idempotent on the options. */
  lemma ResolveIdempotent(o: LogrusOptions)
    ensures Resolve(Resolve(o)) == Resolve(o)
    ensures EngineFor(Resolve(o)) == EngineFor(o)
  {
  }

  /** With no options and an empty context, `NewLogger` keeps its defaults:
      level Info, no fields, no caller reporting, a fresh engine at logrus
      Info. */
  lemma NewLoggerDefaults()
    ensures Resolve(Applied(DefaultOptions, [])) == DefaultOptions
    ensures DefaultOptions.base.level == Logger.InfoLevel && DefaultOptions.base.fields == map[]
    ensures !DefaultOptions.reportCaller
    ensures EngineFor(Applied(DefaultOptions, [])) == Fresh(InfoLevel, Logger.Stderr, TextFormatter, map[], false, OsExit)
  {
  }

  /** The adapter (`logrusLogger`): the engine (nil until `Init`) and the
      options. */
  class LogrusLogger {
    var engine: Option<Engine>
    var opts: LogrusOptions

    /** `NewLogger`: the default options, then `Init` with the caller's
        options; `Init` reports no error. */
    constructor (os: seq<BaseOptions -> BaseOptions>)
      ensures opts == Resolve(Applied(DefaultOptions, os))
      ensures engine == Some(EngineFor(Applied(DefaultOptions, os)))
    {
      opts := DefaultOptions;
      engine := None;
      new;
      var _ := Init(os);
    }

    /** The `&logrusLogger{…}` literal of `Fields` and `Error`: a new
        logger sharing the given options over the given engine. */
    constructor Derived(e: Engine, o: LogrusOptions)
      ensures engine == Some(e) && opts == o
    {
      engine := Some(e);
      opts := o;
    }

    /** `Init`: the mutators run on the base options in order; then the
        context values are applied field by field, and the engine is either
        the external logger from the context or a fresh one set up from
        the options. */
    method Init(os: seq<BaseOptions -> BaseOptions>) returns (err: Option<Error>)
      modifies this
      ensures err == None
      ensures opts == Resolve(Applied(old(opts), os))
      ensures engine == Some(EngineFor(Applied(old(opts), os)))
    {
      ghost var start := opts;
      for i := 0 to |os|
        invariant opts == Applied(start, os[..i])
      {
        assert os[..i + 1] == os[..i] + [os[i]];
        ApplyAllConcat(start.base, os[..i], [os[i]]);
        opts := opts.(base := os[i](opts.base));
      }
      assert os[..|os|] == os;
      ghost var applied := opts;

      var ctx := opts.base.context;
      if ctx.formatter.Some? {
        opts := opts.(formatter := ctx.formatter.value);
      }
      if ctx.hooks.Some? {
        opts := opts.(hooks := ctx.hooks.value);
      }
      if ctx.reportCaller.Some? && ctx.reportCaller.value {
        opts := opts.(reportCaller := ctx.reportCaller.value);
      }
      if ctx.exitFunc.Some? {
        opts := opts.(exitFunc := ctx.exitFunc.value);
      }
      assert opts == ContextOverrides(applied);

      var log: Engine;
      if ctx.logger.Some? {
        // The external logger's settings replace the resolved ones.
        var ll := ctx.logger.value;
        opts := opts.(base := opts.base.(level := LogrusToLogger(ll.level)));
        opts := opts.(base := opts.base.(out := ll.out));
        opts := opts.(formatter := ll.formatter);
        opts := opts.(hooks := ll.hooks);
        opts := opts.(reportCaller := ll.reportCaller);
        opts := opts.(exitFunc := ll.exitFunc);
        log := Adopted(ll);
      } else {
        log := Fresh(LoggerToLogrus(opts.base.level), opts.base.out, opts.formatter, opts.hooks, opts.reportCaller, opts.exitFunc);
      }
      engine := Some(log);
      return None;
    }

    /** `Fields`: a new logger over the engine with the fields attached and
        the same options; the receiver is not modified. */
    method Fields(fields: map<string, Logger.Value>) returns (derived: LogrusLogger)
      requires engine.Some?
      ensures fresh(derived)
      ensures derived.opts == opts && derived.engine == Some(WithFields(engine.value, fields))
    {
      derived := new LogrusLogger.Derived(WithFields(engine.value, fields), opts);
    }

    /** `Error`: a new logger over the engine with the error attached and
        the same options; the receiver is not modified. */
    method Error(err: Common.Error) returns (derived: LogrusLogger)
      requires engine.Some?
      ensures fresh(derived)
      ensures derived.opts == opts && derived.engine == Some(WithError(engine.value, err))
    {
      derived := new LogrusLogger.Derived(WithError(engine.value, err), opts);
    }

    /** `Log`: forwards the arguments to the engine at the translated
        level. */
    method Log(level: Logger.Level, args: seq<Logger.Value>) returns (call: Call)
      requires engine.Some?
      ensures call.target == engine.value && call.format == None && call.args == args
      ensures call.level == LoggerToLogrus(level) && Tabled(call.level)
    {
      call := Call(engine.value, LoggerToLogrus(level), None, args);
    }

    /** `Logf`: forwards the format and the arguments to the engine at the
        translated level. */
    method Logf(level: Logger.Level, format: string, args: seq<Logger.Value>) returns (call: Call)
      requires engine.Some?
      ensures call.target == engine.value && call.format == Some(format) && call.args == args
      ensures call.level == LoggerToLogrus(level) && Tabled(call.level)
    {
      call := Call(engine.value, LoggerToLogrus(level), Some(format), args);
    }

    /** `Options`: the framework's part of the options only; the logrus
        settings are not returned. */
    function Options(): (o: BaseOptions)
      reads this
      ensures o == opts.base
    {
      opts.base
    }
  }
}
