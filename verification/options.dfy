/**
 Construction of the trace options from the resolved target and the flags:
 the local save path, the application selector (a uri or a port, never both)
 and the list of graphics APIs to trace.
 */
module Options {
  import opened Common

  /** Extension of a capture file. */
  const CaptureExtension := ".gfxtrace"

  /** Save path used when neither the flags nor a resolved target name one. */
  const DefaultOutput := "capture.gfxtrace"

  const Uint32Modulus := 0x1_0000_0000

  type Uint32 = x: int | 0 <= x < Uint32Modulus

  /** Go's conversion of an int to uint32: the low 32 bits, so it wraps around. */
  function ToUint32(x: int): (r: Uint32)
    ensures 0 <= x < Uint32Modulus ==> r == x
    ensures (x - r) % Uint32Modulus == 0
  {
    x % Uint32Modulus
  }

  /** The application to trace: launched from a uri, or already listening on a local port. */
  datatype App = Uri(uri: string) | Port(port: Uint32)

  /** The uri variant whenever a uri was resolved, the port variant otherwise. */
  function SelectApp(uri: string, port: Uint32): (a: App)
    ensures a.Uri? <==> uri != ""
    ensures a.Uri? ==> a.uri == uri
    ensures a.Port? ==> a.port == port
  {
    if uri != "" then Uri(uri) else Port(port)
  }

  /**
   The local save path: the output flag when given; otherwise the resolved
   target's display name with the capture extension; otherwise the default.
   */
  function OutputPath(flagOut: string, chosenName: Option<string>): (r: string)
    ensures r != ""
    ensures flagOut != "" ==> r == flagOut
    ensures flagOut == "" ==> |r| >= |CaptureExtension| && r[|r| - |CaptureExtension|..] == CaptureExtension
    ensures flagOut == "" && chosenName.Some? ==> r[..|r| - |CaptureExtension|] == chosenName.value
    ensures flagOut == "" && chosenName.None? ==> r == DefaultOutput
  {
    var fallback := match chosenName
      case Some(name) => name + CaptureExtension
      case None => DefaultOutput;
    if flagOut != "" then flagOut else fallback
  }

  const Vulkan := "Vulkan"
  const OpenGLES := "OpenGLES"
  const GVR := "GVR"

  /** The API names the trace is restricted to, for each accepted value of the API flag. */
  function ApiNames(api: string): (r: Result<seq<string>>)
    ensures r.Ok? <==> api == "vulkan" || api == "gles" || api == ""
    ensures r.Err? ==> r.error == UnknownApi(api)
    ensures r.Ok? ==> |r.value| > 0 && forall n :: n in r.value ==> n == Vulkan || n == OpenGLES || n == GVR
    ensures api == "vulkan" ==> r == Ok([Vulkan])
    ensures api == "gles" ==> r == Ok([OpenGLES, GVR])
    ensures api == "" ==> r == Ok([Vulkan, OpenGLES, GVR])
  {
    if api == "vulkan" then Ok([Vulkan])
    else if api == "gles" then Ok([OpenGLES, GVR])
    else if api == "" then Ok([Vulkan, OpenGLES, GVR])
    else Err(UnknownApi(api))
  }

  /** The empty flag enables every API the named values enable, and nothing else. */
  lemma ApiDefaultEnablesAll()
    ensures ApiNames("").Ok? && ApiNames("vulkan").Ok? && ApiNames("gles").Ok?
    ensures ApiNames("").value == ApiNames("vulkan").value + ApiNames("gles").value
    ensures forall api :: ApiNames(api).Ok? ==> forall n :: n in ApiNames(api).value ==> n in ApiNames("").value
  {
  }
}
