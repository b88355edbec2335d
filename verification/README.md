# `gapit trace`: decision logic of the trace verb

This project models the pure decisions that `traceVerb.Run` in
`cmd/gapit/trace.go` takes before and while it drives a capture session
against the GAPIS server. It does not model the I/O itself. The outcome of
connecting, the answers of the server, of device filtering and of the status
stream are inputs.

- **Spec selection** (`Trace.SelectSpec`): the `--uri` flag. If that flag is
  empty and no `--port` is given, the single positional argument. With any
  other argument count the verb prints usage and returns no error
  (`ShowUsage`).
- **Target selection** (`Trace.SelectTarget`). Port mode takes the server's
  local device and converts the port to `uint32`, keeping the low 32 bits.
  Uri mode resolves the spec against the filtered devices
  (`Resolution.Resolve`). That walk works as follows:
  - A device whose target query fails is skipped.
  - A device whose lookup fails aborts the walk with that error.
  - Every target of the remaining devices becomes a candidate.
  - A candidate's display name is the first non-empty of: friendly
    application name, friendly executable name, raw name.
- **Resolution outcome**:
  - no device: `NoMatchingDevice`;
  - no candidate: `NotFound(spec)`;
  - exactly one candidate: that candidate;
  - more than one: `Ambiguous(listing)`.
  The listing (`Ambiguity.Report`) is a title line, then each candidate's uri
  in collection order. A device-name header comes before a candidate when it
  is the first one or when its device name differs from the previous
  candidate's.
- **Options** (`Options`):
  - the save path is the `--out` flag, else the display name plus
    `.gfxtrace`, else `capture.gfxtrace`;
  - the application selector `App` is a sum type, `Uri(uri)` when a
    non-empty uri was resolved and `Port(port)` otherwise;
  - the API flag maps `vulkan`, `gles` and the empty string to fixed name
    lists, and any other value fails with `UnknownApi`.
  `Trace.Run` composes these in the order `traceVerb.Run` uses. A resolution
  error therefore wins over an unknown API value.
- **Poll step** (`Poll.PollStep`) is the body of the closure passed to
  `task.Retry`. It maps one status read to the closure's `(retry, err)` pair:
  - EOF gives `(true, nil)`;
  - any other error gives `(true, err)`;
  - a nil status gives `(true, nil)`;
  - `Done` gives `(true, nil)`;
  - anything else gives `(false, nil)`.
  The step also updates the one-shot `handlerInstalled` latch. The latch is
  set by the first status with `BytesCaptured > 0`, even if that status is
  `Done`. The lemmas over sequences of reads show that the handler is started
  at most once, and exactly at the first read that shows bytes.

Edge cases of the Go code that the model keeps as written:

- A nil status returns `(true, nil)`, the same pair as end of stream and
  `Done`. The Go code names the flag `retry`. The helper that reads the flag
  is not part of this model, so the model reproduces the pair and does not
  interpret it.
- `traceDevice` is set only in port mode, so a uri-mode session has no trace
  device (`Trace.RunUriMode`).
- If the single candidate has an empty uri, the selector becomes `Port(0)`,
  because `port` is still zero in uri mode (`Trace.RunUriMode`).
- A non-zero port flag that is a multiple of 2^32 selects port mode, and its
  `uint32` conversion is 0 (`Options.ToUint32`).
- A failed connection to the server ends the verb before it decides on usage.
  The verb returns a new error: it carries the message "Failed to connect to
  the GAPIS server" and keeps the connection's error as its cause
  (`Trace.RunConnectFailure`).

## Model

| member | source | states |
|---|---|---|
| Trace.SelectSpec | cmd/gapit/trace.go:56-64 | no spec, which means usage, exactly when the uri flag is empty, no port is given and there is not exactly one argument; otherwise the flag, or the lone argument when no port is given |
| Trace.SelectTarget | cmd/gapit/trace.go:71-153 | port mode succeeds exactly when the server reports a local device, and then selects that device, the port's low 32 bits, no uri and no name; it passes on a server-info error and fails with NoLocalDevice otherwise; uri mode succeeds exactly when resolution does, with no trace device, port 0 and the resolved candidate's uri and display name, and otherwise returns the resolution error |
| Trace.Run | cmd/gapit/trace.go:49-199 | a started session always carries the API list of a known API flag and a non-empty save path; the save path is the output flag whenever that flag is given |
| Trace.RunConnectFailure | cmd/gapit/trace.go:50-53 | whatever the flags and arguments, a failed connection ends the verb with a new error; that error keeps the connection's error as its cause, and its message starts with "Failed to connect to the GAPIS server" |
| Trace.RunUsage | cmd/gapit/trace.go:58-62 | the verb shows usage and does nothing else exactly when the connection succeeded and no spec can be chosen |
| Trace.RunPortMode | cmd/gapit/trace.go:71-80 | port mode fails without a local device and passes on a server-info error; otherwise it targets the local device with the port's low 32 bits and saves to the flag or capture.gfxtrace |
| Trace.RunUriMode | cmd/gapit/trace.go:150-187 | in uri mode a session starts exactly when resolution succeeds and the API is known; it has no trace device, selects the candidate's uri (Port(0) if that uri is empty) and saves to the flag or name + .gfxtrace |
| Trace.RunResolutionFailure | cmd/gapit/trace.go:92-152 | every resolution error ends the verb with that error before a session exists, whatever the API flag |
| Trace.RunUnknownApi | cmd/gapit/trace.go:197-198 | an unknown API value never starts a session; once a target is selected, it is the error returned |
| Trace.RunAppSelector | cmd/gapit/trace.go:179-187 | the selector is Uri exactly in uri mode with a non-empty resolved uri, carrying that uri; otherwise Port with the converted port |
| Targets.FirstNonEmpty | cmd/gapit/trace.go:117-123 | the result is the first non-empty preference, with every earlier one empty, or the fallback when all are empty |
| Targets.DisplayName | cmd/gapit/trace.go:117-123 | friendly application name if non-empty, else friendly executable name if non-empty, else the raw name |
| Targets.DeviceCandidates | cmd/gapit/trace.go:116-131 | one candidate per target, in target order, each carrying its target's uri, the device and the device's name |
| Targets.Collect | cmd/gapit/trace.go:101-132 | the walk fails exactly when some device answers its target query but fails its lookup, with the first such device's error; otherwise it yields one candidate per target of the answering devices, and nothing else |
| Targets.CollectAppend | cmd/gapit/trace.go:101-132 | walking a + b is walking a then b: the first error wins, otherwise a's candidates precede b's (device order) |
| Targets.CollectSkipsFailedQuery | cmd/gapit/trace.go:102-108 | a device whose target query fails contributes nothing wherever it stands, even if its lookup would fail |
| Targets.CollectOne | cmd/gapit/trace.go:116-131 | one answering device yields its targets' candidates in target order, carrying its device and its name |
| Resolution.Resolve | cmd/gapit/trace.go:92-152 | a device-filtering error is returned unchanged; success implies a non-empty device list, no aborting device, exactly one target in all, and a result that is the candidate of one of those targets |
| Resolution.ResolveNoDevice | cmd/gapit/trace.go:97-99 | an empty device list fails with NoMatchingDevice |
| Resolution.ResolveLookupFailure | cmd/gapit/trace.go:110-113 | the first device that answers its query but fails its lookup decides the error |
| Resolution.ResolveNotFound | cmd/gapit/trace.go:134-136 | no target across all devices (including when every query fails) fails with NotFound naming the spec |
| Resolution.ResolveNotFoundMessage | cmd/gapit/trace.go:134-136 | in that case the message of the error the verb reports contains the spec |
| Resolution.ResolveSoleCandidate | cmd/gapit/trace.go:150-152 | one device with one target among silent devices resolves to that target's candidate, uri unchanged |
| Resolution.ResolveAmbiguous | cmd/gapit/trace.go:138-148 | two or more candidates fail with the listing of all of them, each attributed to its own device |
| Ambiguity.Listing | cmd/gapit/trace.go:141-146 | between one and two lines per candidate, never a title line, and a header for the first candidate's device first |
| Ambiguity.Report | cmd/gapit/trace.go:139-146 | the title naming the spec comes first and nowhere else, followed by at least one line per candidate |
| Ambiguity.Text | cmd/gapit/trace.go:139-147 | at least one character per line, and a non-empty text ends with a line break |
| Ambiguity.TextAppend | cmd/gapit/trace.go:139-147 | lines are rendered independently and in order: the text of a + b is a's text followed by b's |
| Ambiguity.ReportTextTitle | cmd/gapit/trace.go:140 | the reported text opens with "Found <spec> candidates: " and a line break |
| Ambiguity.ListingCurrentDevice | cmd/gapit/trace.go:142-143 | after the listing the header in effect is the last candidate's device |
| Ambiguity.ListingAttribution | cmd/gapit/trace.go:139-146 | reading the listing back attributes each candidate's uri to its own device name, once per candidate, in collection order |
| Ambiguity.ListingUris | cmd/gapit/trace.go:141-146 | the uris listed are exactly the candidates' uris, in collection order |
| Ambiguity.ListingHeadersMinimal | cmd/gapit/trace.go:142-144 | every device header is directly followed by a uri and names a device other than the one already in effect |
| Common.Message | cmd/gapit/trace.go:52-198 | collaborator errors and the ambiguity listing are reported unchanged; the connect failure's message (line 52) starts with "Failed to connect to the GAPIS server"; the not-found message (line 135) contains the spec; the unknown-API message (line 198) ends with the value; the fixed messages of lines 78 and 98 are non-empty |
| Options.ToUint32 | cmd/gapit/trace.go:80 | the conversion keeps values in range and otherwise differs from its input by a multiple of 2^32 |
| Options.SelectApp | cmd/gapit/trace.go:179-187 | exactly one variant: Uri carrying the uri iff it is non-empty, else Port carrying the port |
| Options.OutputPath | cmd/gapit/trace.go:155-157 | never empty; the output flag wins; otherwise the display name (or the default capture.gfxtrace of line 67) with the .gfxtrace extension |
| Options.ApiNames | cmd/gapit/trace.go:189-199 | accepted exactly for vulkan, gles and the empty string, with their fixed lists over Vulkan, OpenGLES and GVR; any other value fails with UnknownApi naming it |
| Options.ApiDefaultEnablesAll | cmd/gapit/trace.go:195-196 | the empty flag enables vulkan's list followed by gles's list, a superset of every accepted list |
| Poll.PollStep | cmd/gapit/trace.go:219-252 | EOF and nil status give (true, nil); another error gives (true, err); the flag is false exactly for a non-Done status; the latch becomes set iff it was set or bytes > 0, even on Done; the handler starts iff the latch flips |
| Poll.LatchSetIff | cmd/gapit/trace.go:232-246 | after any sequence of reads the latch is set iff it was set before or some read showed bytes |
| Poll.LatchNeverResets | cmd/gapit/trace.go:232-246 | a latch set after a prefix of the reads stays set after all of them |
| Poll.SpawnAtMostOnce | cmd/gapit/trace.go:232-246 | over any sequence of reads the handler is started at most once, and only when the latch flips from clear to set |
| Poll.SpawnIffBytes | cmd/gapit/trace.go:232-246 | from a clear latch, the handler is started once iff some read shows bytes, and never otherwise |
| Poll.SpawnAtFirstPositive | cmd/gapit/trace.go:232-246 | read k starts the handler iff it is the first read that shows bytes |
| Poll.ScriptedStream | cmd/gapit/trace.go:219-252 | on nil, (0, running), (5, running), (9, Done) the pairs are (true, nil), (false, nil), (false, nil), (true, nil), and the handler starts on the third read only |

## Left out

- `getGapis`, `GetServerInfo`, `FindTraceTargets`, `client.Get`, device filtering, `client.Trace`, `Initialize` and `Event`: these are remote calls. Their results are inputs to the model (`Trace.Collaborators`, `Poll.EventRead`); the connection is reduced to its failure, if any.
- Failures of `client.Trace` and `Initialize` happen after the options are built. They only pass on the remote error, so `Trace.Run` stops at the options (`StartTrace`).
- `task.Retry`: the loop, its 3-second delay and its reading of the returned flag live in a package that is not part of this model. Only the closure's step is modelled.
- The goroutine started by `crash.Go`: the stdin prompts and the `Begin`/`Stop` events it sends are concurrency and terminal I/O. The model records only that the step starts it (`spawned`).
- `app.AddInterruptHandler` and `handler.Dispose`: process signals. `Dispose` can be reached from both the deferred call and the interrupt handler, so the model makes no claim that it runs exactly once.
- The `dd.(*device.Instance)` type assertion: the model takes the looked-up device's name directly, so a wrong dynamic type (a panic in Go) cannot occur.
- `Duration` (a `float32` conversion), and the other flag fields of the options: working directory, environment and extra arguments are copied, the observation frequencies, start frame and frame count are copied through a `uint32` conversion that keeps the low 32 bits (as `Options.ToUint32` does for the port), and the boolean capture flags are copied.
- Common.Message: the text of a `ConnectFailed` error is only the message `log.Err` is given at trace.go:52. How `log.Err` renders the cause after that message is defined in the log package, which is not part of this model. The cause itself is kept (`ConnectFailed.cause`).
- Common.Message: `EndOfStream` gets the text of Go's `io.EOF`, `"EOF"`. The verb never reports it, because the poll step turns EOF into `(true, nil)` (`Poll.PollStep`).
- Logging, `fmt.Printf`/`println` output, the text printed by `app.Usage`, flag parsing and verb registration in `init`.
- Poll.TraceStatus: only `Done` is told apart. The other lifecycle tags are carried as an opaque code because the step never compares against them.
- Poll.SpawnAtMostOnce and the other sequence lemmas apply the step to every read they are given. They say nothing about when `task.Retry` stops calling the closure.
