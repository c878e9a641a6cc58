/**
 The parts of the host logger and of Go's `context` package that the hook
 touches: severity levels, the dynamically typed values stored in an entry's
 fields, and the entry itself, whose field map the hook rewrites in place.
 */
module Logrus {

  /** Present-or-absent; `None` stands for Go's `nil`. */
  datatype Option<+T> = None | Some(value: T)

  /**
   The value of an entry field (Go's `interface{}`).  A `Ctx` is a value that
   satisfies `context.Context`; of that interface only `Value(key)` is
   consumed, modelled as a total lookup that may answer `nil`.  Every other
   dynamic value is an `Other`, identified by an opaque text.
   */
  datatype Value = Ctx(lookup: string -> Option<Value>) | Other(text: string)

  /** The severity levels the logger defines, most severe first. */
  datatype Level = PanicLevel | FatalLevel | ErrorLevel | WarnLevel | InfoLevel | DebugLevel | TraceLevel

  /** The logger's numeric value of a level: lower is more severe. */
  function Severity(l: Level): (n: nat) {
    match l
    case PanicLevel => 0
    case FatalLevel => 1
    case ErrorLevel => 2
    case WarnLevel => 3
    case InfoLevel => 4
    case DebugLevel => 5
    case TraceLevel => 6
  }

  /** One log record as a hook sees it: its structured fields. */
  class Entry {
    var data: map<string, Value>

    constructor (data: map<string, Value>)
      ensures this.data == data
    {
      this.data := data;
    }
  }
}
