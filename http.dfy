/**
 * The pieces of Go's net/http that the authorization gate touches: an incoming
 * request (its header map and the result of its `BasicAuth()` call) and the
 * response writer the handler answers through.
 */
module Http {
  import opened Headers

  datatype Option<+T> = None | Some(value: T)

  /** A Basic credential pair as `Request.BasicAuth()` returns it. */
  datatype Credentials = Credentials(user: string, pass: string)

  /**
   * What a response writer holds: the header map the handler fills, whether
   * the status line was written, the status, and the body written so far.
   */
  datatype Response = Response(header: Header, wroteHeader: bool, status: int, body: string)

  /** The writer the server hands to a handler: nothing written yet. */
  function FreshResponse(): (w: Response)
    ensures !w.wroteHeader && w.header == map[] && w.body == []
  {
    Response(map[], false, 0, [])
  }

  /**
   * `WriteHeader(code)`: the first call fixes the status; any later call is
   * superfluous and leaves it as it was.
   */
  function StatusWritten(w: Response, code: int): (r: Response)
    ensures r.wroteHeader
    ensures r.status == (if w.wroteHeader then w.status else code)
    ensures r.header == w.header && r.body == w.body
  {
    if w.wroteHeader then w else w.(wroteHeader := true, status := code)
  }

  /**
   * `Write(data)`: appends to the body; a write before any `WriteHeader`
   * first writes status 200.
   */
  function BodyWritten(w: Response, data: string): (r: Response)
    ensures r.wroteHeader
    ensures r.status == (if w.wroteHeader then w.status else 200)
    ensures r.header == w.header && r.body == w.body + data
  {
    StatusWritten(w, 200).(body := w.body + data)
  }

  /** An incoming request, owned by the one handler call that serves it. */
  class Request {
    var header: Header
    /** The outcome of `BasicAuth()`: the pair, or `None` when the header is absent or unparsable. */
    const basicAuth: Option<Credentials>

    constructor (header: Header, basicAuth: Option<Credentials>)
      ensures this.header == header && this.basicAuth == basicAuth
    {
      this.header := header;
      this.basicAuth := basicAuth;
    }
  }

  class ResponseWriter {
    var header: Header
    var wroteHeader: bool
    var status: int
    var body: string

    constructor ()
      ensures Snapshot() == FreshResponse()
    {
      header, wroteHeader, status, body := map[], false, 0, [];
    }

    /** The writer's state as a value. */
    function Snapshot(): Response
      reads this
    {
      Response(header, wroteHeader, status, body)
    }

    /** `w.Header().Add(key, value)`. */
    method AddHeader(key: string, value: string)
      modifies this
      ensures Snapshot() == old(Snapshot()).(header := Add(old(header), key, value))
    {
      header := Add(header, key, value);
    }

    /** `w.WriteHeader(code)`. */
    method WriteHeader(code: int)
      modifies this
      ensures Snapshot() == StatusWritten(old(Snapshot()), code)
    {
      if !wroteHeader {
        wroteHeader, status := true, code;
      }
    }

    /** `w.Write(data)`. */
    method Write(data: string)
      modifies this
      ensures Snapshot() == BodyWritten(old(Snapshot()), data)
    {
      WriteHeader(200);
      body := body + data;
    }
  }
}
