/** `get_wifi_data`: the outcome of running the scan command, as a decision
    over what the process run reports. The process run itself and the JSON
    decoder are inputs. */
module Acquisition {
  import opened Observation
  import opened PyText

  /** What running `termux-wifi-scaninfo` produced: either the executable was
      not found, or it finished with an exit status and captured text. */
  datatype Capture =
    | CommandMissing
    | Finished(status: int, stdout: string, stderr: string)

  /** How acquisition ends. Every case except `Ok` stops the program. */
  datatype Outcome =
    | NoNetworks
    | MissingDependency
    | LocationDisabled
    | Unexpected(message: string)
    | Malformed
    | Ok(networks: seq<Network>)
  {
    /** The process exit status: `sys.exit(0)` for no networks, `sys.exit(1)`
        for the four errors, and a normal (zero) end after printing the table. */
    function ExitCode(): int {
      match this
      case NoNetworks | Ok(_) => 0
      case MissingDependency | LocationDisabled | Unexpected(_) | Malformed => 1
    }
  }

  /** The text whose presence in stderr identifies disabled location services. */
  const LocationText: string := "Location is disabled"

  /** The decision of `get_wifi_data`. `json` is the result of decoding the
      command's stdout: `None` when the decoder raises. A non-zero exit status
      is checked before stdout is looked at, and blank stdout before it is
      decoded. */
  function Acquire(capture: Capture, json: Option<seq<Network>>): (o: Outcome)
    ensures capture.CommandMissing? ==> o == MissingDependency
    ensures capture.Finished? && capture.status != 0 ==>
      (o == LocationDisabled <==> Contains(capture.stderr, LocationText))
    ensures capture.Finished? && capture.status != 0 && !Contains(capture.stderr, LocationText) ==>
      o == Unexpected(Strip(capture.stderr))
    ensures o == NoNetworks <==> capture.Finished? && capture.status == 0 && Blank(capture.stdout)
    ensures o == Malformed <==>
      capture.Finished? && capture.status == 0 && !Blank(capture.stdout) && json.None?
    ensures o.Ok? <==> capture.Finished? && capture.status == 0 && !Blank(capture.stdout) && json.Some?
    ensures o.Ok? ==> o.networks == json.value
  {
    match capture
    case CommandMissing => MissingDependency
    case Finished(status, stdout, stderr) =>
      StripEmptyIffBlank(stdout);
      ContainsAfterStrip(stderr, LocationText);
      if status != 0 then
        var message := Strip(stderr);
        if Contains(message, LocationText) then LocationDisabled else Unexpected(message)
      else if Strip(stdout) == [] then NoNetworks
      else
        match json
        case None => Malformed
        case Some(networks) => Ok(networks)
  }

  /** The program exits with 0 exactly when the command ran successfully and
      either printed nothing but whitespace or printed valid JSON. */
  lemma ExitZeroIff(capture: Capture, json: Option<seq<Network>>)
    ensures Acquire(capture, json).ExitCode() == 0 <==>
      capture.Finished? && capture.status == 0 && (Blank(capture.stdout) || json.Some?)
  {
  }

  /** The location check does not depend on what else stderr says: any
      stderr containing the text, wherever and with whatever around it. */
  lemma LocationRegardlessOfContext(status: int, stdout: string, pre: string, post: string, json: Option<seq<Network>>)
    requires status != 0
    ensures Acquire(Finished(status, stdout, pre + LocationText + post), json) == LocationDisabled
  {
    var e := pre + LocationText + post;
    assert LocationText <= e[|pre|..];
  }

  /** An unexpected failure carries stderr verbatim up to surrounding
      whitespace: a stderr already free of it is reported unchanged. */
  lemma UnexpectedVerbatim(status: int, stdout: string, stderr: string, json: Option<seq<Network>>)
    requires status != 0 && !Contains(stderr, LocationText)
    requires stderr != [] ==> !IsSpace(stderr[0]) && !IsSpace(stderr[|stderr| - 1])
    ensures Acquire(Finished(status, stdout, stderr), json) == Unexpected(stderr)
  {
  }
}
