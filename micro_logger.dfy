/** The host framework's logger interface types that both logger adapters
    translate from: the abstract level enumeration and the base option set. */
module MicroLogger {

  /** The framework's `logger.Level`. The seven named levels, in increasing
      severity, and any other value of the underlying integer type, which
      the adapters' switches send to their `default` branch. */
  datatype Level = TraceLevel | DebugLevel | InfoLevel | WarnLevel | ErrorLevel | PanicLevel | FatalLevel | Unnamed(code: int)

  /** An arbitrary Go `interface{}` value (a log argument or a field value);
      the adapters never look inside one. */
  datatype Value = Value(id: nat)

  /** An `io.Writer` destination: nil, the process's standard error, or
      another writer. */
  datatype Writer = NilWriter | Stderr | OtherWriter(id: nat)

  /** The framework's `logger.Options`. `C` is the adapter's view of the
      carried `context.Context`: one optional value per private key. */
  datatype Options<C> = Options(level: Level, fields: map<string, Value>, out: Writer, context: C)

  /** Severity rank of a named level (Trace lowest, Fatal highest). */
  function Severity(l: Level): nat
    requires !l.Unnamed?
  {
    match l
    case TraceLevel => 0
    case DebugLevel => 1
    case InfoLevel => 2
    case WarnLevel => 3
    case ErrorLevel => 4
    case PanicLevel => 5
    case FatalLevel => 6
  }
}
