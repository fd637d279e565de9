/**
  The probe wrapper: how a probe call assembles the command line of the
  external ffprobe tool, and how it turns what the finished process left
  behind into either data or an error.

  Running the process and decoding its JSON output are outside this model.
  Their outcome enters as a `RunOutcome`, and the decoded media description
  is the type parameter `D`.
 */
module FFProbe {
  import opened Wrappers
  import opened ProbeErrors

  /** The executable used until the path is changed. */
  const DefaultBinPath: string := "ffprobe"

  /** The flags every probe passes first: fatal-only logging, JSON output, format, streams and error sections. */
  const FixedFlags: seq<string> :=
    ["-loglevel", "fatal", "-print_format", "json", "-show_format", "-show_streams", "-show_error"]

  /** The positional argument that makes the tool read its input from stdin. */
  const StdinPlaceholder: string := "-"

  /** The bytes a reader yields until it is exhausted. */
  type Reader = seq<bv8>

  /** One invocation of the tool: executable, arguments, and the reader wired to its stdin, if any. */
  datatype Command = Command(executable: string, args: seq<string>, stdin: Option<Reader>)

  /** The fixed flags followed by the caller's extra options. */
  function BuildArgs(extras: seq<string>): (args: seq<string>)
    ensures |args| == |FixedFlags| + |extras|
    ensures forall i :: 0 <= i < |FixedFlags| ==> args[i] == FixedFlags[i]
    ensures forall i :: 0 <= i < |extras| ==> args[|FixedFlags| + i] == extras[i]
  {
    FixedFlags + extras
  }

  /**
    Reads a complete argument list back into its extra options and its
    final positional target; None when it does not start with the fixed flags
    or has no target.
   */
  function SplitArgs(args: seq<string>): (r: Option<(seq<string>, string)>)
    ensures r.Some? ==> |args| > |FixedFlags| && args[|args| - 1] == r.value.1
    ensures r.Some? ==> |r.value.0| == |args| - |FixedFlags| - 1
  {
    if |args| > |FixedFlags| && args[..|FixedFlags|] == FixedFlags then
      Some((args[|FixedFlags|..|args| - 1], args[|args| - 1]))
    else
      None
  }

  /** Building the arguments and then reading them back gives the extra options and the target. */
  lemma SplitBuildArgs(extras: seq<string>, target: string)
    ensures SplitArgs(BuildArgs(extras) + [target]) == Some((extras, target))
  {
  }

  /** An argument list that splits into extras and a target is the built arguments followed by the target. */
  lemma BuildSplitArgs(args: seq<string>, extras: seq<string>, target: string)
    requires SplitArgs(args) == Some((extras, target))
    ensures args == BuildArgs(extras) + [target]
  {
  }

  /** The result of decoding stdout as the full probe data. */
  datatype PayloadDecode<D> =
    | Decoded(data: D)
      /** The decoder failed with `reason`, after filling `partial` as far as it got. */
    | DecodeFailed(partial: D, reason: string)

  /**
    The outcome of running a command.
    `rootError` is Some(m) when stdout decodes as the tool's error envelope,
    whose message `m` may be empty; None when that decode fails.
    `runError` is the text of the run failure (spawn failure, non-zero exit, kill), if any.
    `stderr` is everything the tool wrote to its error stream.
    `payload` is the result of decoding stdout as the full probe data.
   */
  datatype RunOutcome<D> = RunOutcome(
    rootError: Option<string>,
    runError: Option<string>,
    stderr: string,
    payload: PayloadDecode<D>)

  /** The result of a probe: Go's `(data, err)` pair, where None stands for nil. */
  datatype Response<D> = Response(data: Option<D>, err: Option<ProbeError>)

  /** The tool reported its own error in its JSON output. */
  predicate EmbeddedError<D>(out: RunOutcome<D>) {
    out.rootError.Some? && out.rootError.value != ""
  }

  /**
    The response classifier: first match wins among the tool's embedded error,
    a failed run, a non-empty error stream, and a failed payload decode.
    Never answers nil data together with a nil error.
   */
  function RunProbe<D>(binPath: string, out: RunOutcome<D>): (resp: Response<D>)
    ensures resp.data.Some? || resp.err.Some?
    ensures resp.data.None? <==> EmbeddedError(out) || out.runError.Some? || out.stderr != ""
  {
    if EmbeddedError(out) then
      Response(None, Some(ProbeError(out.rootError.value)))
    else if out.runError.Some? then
      Response(None, Some(ProbeError("error running " + binPath + " [" + out.stderr + "] " + out.runError.value)))
    else if out.stderr != "" then
      Response(None, Some(ProbeError("ffprobe error: " + out.stderr)))
    else
      match out.payload
      case DecodeFailed(partial, reason) =>
        Response(Some(partial), Some(ProbeError("error parsing ffprobe output: " + reason)))
      case Decoded(data) =>
        Response(Some(data), None)
  }

  /** An error the tool embedded in its output wins, whatever the run error and the error stream. */
  lemma EmbeddedErrorWins<D>(binPath: string, out: RunOutcome<D>, runError: Option<string>, stderr: string)
    requires EmbeddedError(out)
    ensures RunProbe(binPath, out) == Response(None, Some(ProbeError(out.rootError.value)))
    ensures RunProbe(binPath, out.(runError := runError, stderr := stderr)) == RunProbe(binPath, out)
  {
  }

  /** Without an embedded error, a failed run yields nil data and names the executable, the error stream and the failure. */
  lemma RunFailureReported<D>(binPath: string, out: RunOutcome<D>)
    requires !EmbeddedError(out) && out.runError.Some?
    ensures RunProbe(binPath, out).data == None
    ensures RunProbe(binPath, out).err ==
      Some(ProbeError("error running " + binPath + " [" + out.stderr + "] " + out.runError.value))
  {
  }

  /** A successful run that wrote to its error stream still fails, with the error stream as the message. */
  lemma ErrorStreamReported<D>(binPath: string, out: RunOutcome<D>)
    requires !EmbeddedError(out) && out.runError.None? && out.stderr != ""
    ensures RunProbe(binPath, out) == Response(None, Some(ProbeError("ffprobe error: " + out.stderr)))
  {
  }

  /** A failed payload decode still returns the partially filled data, beside the parse error. */
  lemma DecodeFailureKeepsPartialData<D>(binPath: string, out: RunOutcome<D>)
    requires !EmbeddedError(out) && out.runError.None? && out.stderr == "" && out.payload.DecodeFailed?
    ensures RunProbe(binPath, out) ==
      Response(Some(out.payload.partial), Some(ProbeError("error parsing ffprobe output: " + out.payload.reason)))
  {
  }

  /** The error is nil exactly when no branch fires and the payload decodes, and then the decoded data is returned. */
  lemma CleanRunSucceeds<D>(binPath: string, out: RunOutcome<D>)
    ensures RunProbe(binPath, out).err.None? <==>
      !EmbeddedError(out) && out.runError.None? && out.stderr == "" && out.payload.Decoded?
    ensures RunProbe(binPath, out).err.None? ==> RunProbe(binPath, out).data == Some(out.payload.data)
  {
  }

  /** The executable path shows up only in the run-failure message. */
  lemma BinPathOnlyInRunFailure<D>(p: string, q: string, out: RunOutcome<D>)
    requires EmbeddedError(out) || out.runError.None?
    ensures RunProbe(p, out) == RunProbe(q, out)
  {
  }

  /**
    The probe configuration: the executable path, read by every probe at call
    time. One instance stands for the package-level path variable.
   */
  class Prober {
    var binPath: string

    /** The initial configuration uses "ffprobe" from the search path. */
    constructor ()
      ensures binPath == DefaultBinPath
    {
      binPath := DefaultBinPath;
    }

    /** Every probe started after this call runs `newBinPath`. */
    method SetFFProbeBinPath(newBinPath: string)
      modifies this
      ensures binPath == newBinPath
    {
      binPath := newBinPath;
    }

    /**
      Probes a path or URL: the target is the last argument and no stdin is wired.
      `run` is what executing the returned command produced.
     */
    method ProbeURL<D>(fileURL: string, extras: seq<string>, run: RunOutcome<D>) returns (cmd: Command, resp: Response<D>)
      ensures cmd.executable == binPath && cmd.stdin == None
      ensures cmd.args == BuildArgs(extras) + [fileURL]
      ensures SplitArgs(cmd.args) == Some((extras, fileURL))
      ensures resp == RunProbe(binPath, run)
    {
      var args := BuildArgs(extras);
      args := args + [fileURL];
      SplitBuildArgs(extras, fileURL);
      cmd := Command(binPath, args, None);
      resp := RunProbe(binPath, run);
    }

    /**
      Probes the bytes of a reader: the last argument is the stdin placeholder
      and the reader is wired to the tool's stdin.
      `run` is what executing the returned command produced.
     */
    method ProbeReader<D>(reader: Reader, extras: seq<string>, run: RunOutcome<D>) returns (cmd: Command, resp: Response<D>)
      ensures cmd.executable == binPath && cmd.stdin == Some(reader)
      ensures cmd.args == BuildArgs(extras) + [StdinPlaceholder]
      ensures SplitArgs(cmd.args) == Some((extras, StdinPlaceholder))
      ensures resp == RunProbe(binPath, run)
    {
      var args := BuildArgs(extras);
      args := args + [StdinPlaceholder];
      SplitBuildArgs(extras, StdinPlaceholder);
      cmd := Command(binPath, args, Some(reader));
      resp := RunProbe(binPath, run);
    }
  }
}
