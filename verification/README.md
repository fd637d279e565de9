# go-probe wrapper core, modelled in Dafny

go-probe runs the external `ffprobe` media-inspection tool as a subprocess. It
probes a path or URL, or the bytes of a reader piped to the tool's stdin. It
then turns what the tool left behind into either decoded probe data or a
`ProbeError`. This project models the deterministic parts of that wrapper:

- `wrappers.dfy`: module `Wrappers`, the `Option` type that stands for Go's nil-able results.
- `ffprobe.dfy`: module `FFProbe`.
  - `BuildArgs` is the argument builder. `SplitArgs` reads a complete argument list (built arguments plus target) back into the extras and the target.
  - `RunProbe` is the response classifier: first match wins among the tool's embedded error, a failed run, a non-empty error stream and a failed decode.
  - The class `Prober` holds the executable path `binPath` (initially `"ffprobe"`). One `Prober` instance stands for the package-level variable. Its `SetFFProbeBinPath` changes it. Its `ProbeURL` and `ProbeReader` build the command from the current path and classify the run's outcome.
- `probe_error.dfy`: module `ProbeErrors`. It holds `ProbeError` and the two message matchers `HTTPErrorCode` and `IsInternalServerError`.
- `probedata_test.dfy`: module `ProbeDataTest`. Each assertion of the repository's matcher tests is one lemma here.

Running the process and decoding JSON are foreign. A probe method therefore takes a `RunOutcome`, which says what running the command produced:
- whether stdout decoded as the tool's error envelope, and with which message;
- the run error's text, if any;
- the error-stream text;
- the result of decoding stdout as full probe data. A failed decode still carries the partially filled data.

The decoded probe data itself is the type parameter `D`.

The source of `HTTPErrorCode` and `IsInternalServerError` is not part of this model. Only their tests are. The model uses the narrowest rules that agree with every asserted case:
- `HTTPErrorCode` returns the value of the leftmost `returned DDD ` pattern, where `DDD` is three ASCII digits followed by a space. It returns 0 when the message has no such pattern.
- `IsInternalServerError` holds exactly when the message contains the case-sensitive literal `5XX`.

The doc comments at `ffprobe.go:20` and `ffprobe.go:36` speak of a context, and `example/example.go:23` passes one, but `ProbeURL` and `ProbeReader` (`ffprobe.go:22`, `ffprobe.go:38`) take none, so the model has none either.

## Model

| member | source | states |
|---|---|---|
| `FFProbe.BuildArgs` | ffprobe.go:90-99 | The arguments are the 7 fixed flags `-loglevel fatal -print_format json -show_format -show_streams -show_error`, followed by every extra option in the caller's order. The length is 7 plus the number of extras. |
| `FFProbe.SplitBuildArgs` | ffprobe.go:23-26 | Building the arguments and appending a target can be read back uniquely into the same extra options and the same target. |
| `FFProbe.BuildSplitArgs` | ffprobe.go:23-26 | Conversely, any argument list that splits into extras and a target is exactly the built arguments for those extras followed by that target. |
| `FFProbe.RunProbe` | ffprobe.go:52-88 | A probe never returns nil data together with a nil error. Data is nil exactly when the tool embedded an error, the run failed, or the error stream is non-empty. |
| `FFProbe.EmbeddedErrorWins` | ffprobe.go:61-65 | A non-empty error message embedded in the tool's JSON is returned with nil data. Changing the run error or the error stream does not change the response. |
| `FFProbe.RunFailureReported` | ffprobe.go:67-71 | Without an embedded error, a failed run gives nil data and the message `"error running " + binPath + " [" + stderr + "] " + runError`. |
| `FFProbe.ErrorStreamReported` | ffprobe.go:73-77 | A successful run with a non-empty error stream gives nil data and the message `"ffprobe error: " + stderr`. |
| `FFProbe.DecodeFailureKeepsPartialData` | ffprobe.go:79-85 | When only the payload decode fails, the partially filled data is returned, non-nil, with the message `"error parsing ffprobe output: " + reason`. |
| `FFProbe.CleanRunSucceeds` | ffprobe.go:79-87 | The error is nil exactly when there is no embedded error, no run error and no error-stream text, and the payload decodes. The decoded data is then returned. |
| `FFProbe.BinPathOnlyInRunFailure` | ffprobe.go:67-71 | The configured executable path affects the response only through the run-failure message. |
| `FFProbe.Prober.constructor` | ffprobe.go:11 | The executable path starts as `"ffprobe"`. |
| `FFProbe.Prober.SetFFProbeBinPath` | ffprobe.go:13-16 | After the call, the executable path is the new one. `ProbeURL` and `ProbeReader` read the path at call time, so every command built afterwards names it as its executable. Their arguments do not depend on the path. |
| `FFProbe.Prober.ProbeURL` | ffprobe.go:22-32 | The command runs the current executable path with no stdin wired. Its arguments are `BuildArgs(extras)` followed by the target, and they split back into exactly those extras and that target. The response is the classifier's verdict, with the current path in the run-failure message. |
| `FFProbe.Prober.ProbeReader` | ffprobe.go:38-49 | The command runs the current executable path with the reader wired to stdin. Its arguments are `BuildArgs(extras)` followed by `"-"`, and they split back into those extras and `"-"`. The response is the classifier's verdict. |
| `ProbeErrors.HTTPErrorCode` | probedata_test.go:9-20 | The result is below 1000. It is 0 when no `returned DDD ` pattern occurs. Otherwise it is the decimal value of the digits of the leftmost such pattern. |
| `ProbeErrors.IsInternalServerError` | probedata_test.go:22-33 | True if and only if the message contains the literal `5XX` at some position. |
| `ProbeDataTest.HTTPErrorCode404` | probedata_test.go:10-13 | `"Server returned 404 Not Found"` has code 404. |
| `ProbeDataTest.HTTPErrorCode503` | probedata_test.go:15-16 | `"Server returned 503 Service not available"` has code 503. |
| `ProbeDataTest.HTTPErrorCode5xx` | probedata_test.go:18-19 | `"Server returned 5xx Internal server error"` has code 0, because `5xx` is not three digits. |
| `ProbeDataTest.NotInternalServerError404` | probedata_test.go:23-26 | `"Server returned 404 Not Found"` is not an internal server error. |
| `ProbeDataTest.InternalServerError5XX` | probedata_test.go:28-29 | `"Server returned 5XX Internal server error"` is an internal server error. |
| `ProbeDataTest.NotInternalServerError7XX` | probedata_test.go:31-32 | `"Server returned 7XX Internal server error"` is not an internal server error. |

## Left out

- Process execution is left out because it is operating-system plumbing: `exec.Command`, `cmd.Run`, the process attributes, piping the reader into stdin, and filling the stdout and stderr buffers (`ffprobe.go:28-29`, `44-46`, `53-59`). A probe method returns the `Command` it would run. The method takes the run's result as a `RunOutcome` parameter.
- JSON decoding (`json.Unmarshal` at `ffprobe.go:62` and `80`) is a foreign library. Only its outcomes are modelled: the embedded error message or a failed envelope decode, and a decoded or partially decoded payload. The model does not capture that both decodes read the same stdout bytes.
- `ProbeData` and its accessors (`FirstVideoStream`, `StreamType`, `Format.Duration`, `Format.StartTime`) are not part of this model. The probe data is an abstract type parameter.
- The `rootError` envelope type is not part of this model. Only the message it yields enters the classifier.
- Cancellation and timeouts are left out because the probe functions take no context.
- Concurrent access to the process-wide executable path is left out. The model is single-threaded object state.
- `example/example.go` is a command-line demonstration and is not part of this model.
- `ProbeErrors.HTTPErrorCode` and `ProbeErrors.IsInternalServerError` use the narrowest rules that reproduce the tested cases, because their implementing file is not part of this model. Their behaviour on other messages is a modelling choice, not taken from that file.
- `FFProbe.Prober.ProbeReader` always wires the reader to stdin. A nil Go reader, which leaves `cmd.Stdin` nil (`ffprobe.go:45`), is not modelled, because `Reader` has no nil value. The tool sees empty input in both cases.
- Each `Prober` instance has its own path, whereas the source has one package variable (`ffprobe.go:11`). The model relies on using a single instance.
- `ProbeError`'s `Error()` method is not part of this model. Messages are carried as plain strings.
