/** The Java exceptions the event bus raises or passes on. */
module Exceptions {
  import opened Wrappers

  datatype Exception =
    | Raised(message: Option<string>)    // thrown by a collaborator (store, bus, broker, queue, decoder) and passed on as is
    | ClassNotFound(className: string)   // ClassLoader.loadClass of a name it does not know
    | NotAnEvent(className: string)      // IllegalStateException("Not an event: " + name)
    | SendFailed(cause: Option<string>)  // RuntimeException("Unable to send event: " + message of the cause)
    | Unsupported                        // new UnsupportedOperationException()
    | NullPointer                        // a dereference of a field that is still null

  /** Java's string concatenation of a possibly null string. */
  function Concat(prefix: string, s: Option<string>): (r: string)
    ensures |r| >= |prefix| && r[..|prefix|] == prefix
  {
    prefix + match s { case None => "null" case Some(v) => v }
  }

  /** `getMessage()`: `None` is a null message. */
  function Message(e: Exception): (m: Option<string>)
    ensures e.ClassNotFound? ==> m == Some(e.className)
    ensures e.NotAnEvent? || e.SendFailed? ==> m.Some?
    ensures e.Unsupported? || e.NullPointer? ==> m.None?
  {
    match e
    case Raised(msg) => msg
    case ClassNotFound(name) => Some(name)
    case NotAnEvent(name) => Some("Not an event: " + name)
    case SendFailed(cause) => Some(Concat("Unable to send event: ", cause))
    case Unsupported => None
    case NullPointer => None
  }
}
