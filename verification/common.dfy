/**
 Shared vocabulary of the `gapit trace` model: optional values, results whose
 failure side is the verb's error, the errors the verb can return, and the
 opaque device paths handed around by the device-side collaborators.
 */
module Common {

  /** A value that may be absent (a nil pointer or a nil error in the Go code). */
  datatype Option<+T> = None | Some(value: T)

  /** Either a value or the error the verb returns instead of it. */
  datatype Result<+T> = Ok(value: T) | Err(error: Error)

  /** Opaque identifier of a device, as produced by device enumeration. */
  datatype DevicePath = DevicePath(id: string)

  /** Every error the decision logic of the verb can produce or pass on. */
  datatype Error =
    | Remote(message: string)   // returned by a collaborator and passed on unchanged
    | EndOfStream               // the status stream's io.EOF
    | NoLocalDevice             // port mode, but the server has no local device
    | NoMatchingDevice          // the filtered device list is empty
    | NotFound(spec: string)    // no device offers a target matching the spec
    | Ambiguous(listing: string)// several candidates; the listing names them all
    | UnknownApi(api: string)   // the API flag is none of the known literals
    | ConnectFailed(cause: Error) // the server could not be reached; wraps the connection's error

  /** The message a failed connection to the server is reported under. */
  const ConnectFailedMessage := "Failed to connect to the GAPIS server"

  /** `sub` occurs in `s` starting at index `i`. */
  predicate OccursAt(s: string, sub: string, i: int)
  {
    0 <= i <= |s| - |sub| && s[i..i + |sub|] == sub
  }

  /**
   The text the verb reports for an error: a collaborator's error and the
   ambiguity listing are passed on unchanged, a failed connection is reported
   under a message of its own, the spec and the API value appear in the
   messages about them, and no message is empty.
   */
  function Message(e: Error): (r: string)
    ensures e.Remote? ==> r == e.message
    ensures e.Ambiguous? ==> r == e.listing
    ensures e.NotFound? ==> exists i :: OccursAt(r, e.spec, i)
    ensures e.UnknownApi? ==> |r| >= |e.api| && r[|r| - |e.api|..] == e.api
    ensures e.ConnectFailed? ==> |r| >= |ConnectFailedMessage| && r[..|ConnectFailedMessage|] == ConnectFailedMessage
    ensures !e.Remote? && !e.Ambiguous? ==> |r| > 0
  {
    match e
    case Remote(m) => m
    case EndOfStream => "EOF"
    case NoLocalDevice => "The server was not started with a local device for tracing"
    case NoMatchingDevice => "Could not find matching device"
    case NotFound(spec) =>
      var head := "Could not find ";
      var r := head + spec + " to trace on any device";
      assert OccursAt(r, spec, |head|);
      r
    case Ambiguous(listing) => listing
    case UnknownApi(api) => "Unknown API " + api
    case ConnectFailed(_) => ConnectFailedMessage
  }
}
