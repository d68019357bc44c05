/**
 * Values the pipeline passes around, and minimal stand-ins for the request, the
 * response and the transport's writer.  The files that define vox's Request,
 * Response and Handler types are not part of this model: only the fields that
 * application.go reads or writes appear here.
 */
module Http {

  newtype byte = x: int | 0 <= x < 256

  /** A Go value of any dynamic type other than []byte and string; only the JSON encoder looks inside it. */
  type Value(==)

  /** The response body as respond's type switch sees it. */
  datatype Body =
    | Bytes(data: seq<byte>)    // a []byte
    | Text(text: seq<byte>)     // a string; a Go string already is its byte sequence
    | Other(value: Value)       // anything else, handed to the JSON encoder

  /** What reaches the transport's writer, in order. */
  datatype Event = WriteHeader(status: int) | Write(data: seq<byte>)

  /** One step of a middleware, the only effects a middleware has on the pipeline. */
  datatype Action =
    | CallNext                       // req.Next()
    | SetStatus(status: int)         // res.Status = ...
    | SetBody(body: Body)            // res.Body = ...
    | SetDontRespond(flag: bool)     // res.DontRespond = ...
    | RawHeader(status: int)         // res.Writer.WriteHeader(...)
    | RawWrite(data: seq<byte>)      // res.Writer.Write(...)

  /** A middleware, abstracted as the finite script of actions it performs. */
  type Handler = seq<Action>

  /**
   * A continuation as compose builds it: the no-op that ends the chain, or the
   * wrapper for middleware `index`, which captures the continuation that follows
   * it (`nenext`).
   */
  datatype Cont = Noop | Wrap(index: nat, nenext: Cont)

  /** The number of wrappers a continuation still has to pass through. */
  function Depth(c: Cont): nat
  {
    match c
    case Noop => 0
    case Wrap(_, rest) => 1 + Depth(rest)
  }

  /** The transport's response writer, reduced to the events it has received. */
  class Writer {
    var events: seq<Event>

    constructor ()
      ensures events == []
    {
      events := [];
    }
  }

  class Request {
    /** req.Next; a fresh request holds Noop, standing for the unset (nil) continuation. */
    var next: Cont
    /** The middlewares entered so far, in order (instrumentation, not program state). */
    ghost var entered: seq<nat>

    constructor ()
      ensures next == Noop && entered == []
    {
      next := Noop;
      entered := [];
    }
  }

  class Response {
    var status: int
    var body: Body
    var dontRespond: bool
    var writer: Writer
    var request: Request?

    /** createResponse is not part of this model: the initial status, body and flag are its choice. */
    constructor (w: Writer, status0: int, body0: Body, dontRespond0: bool)
      ensures writer == w && status == status0 && body == body0 && dontRespond == dontRespond0
      ensures request == null
    {
      writer := w;
      status := status0;
      body := body0;
      dontRespond := dontRespond0;
      request := null;
    }
  }
}
