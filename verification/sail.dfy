/**
 * src/commands/Sail.ts: the per-service commands (`start`, `stop`, `kill`,
 * `pause`, `unpause`, `stats`) and `ps`, which turns the line-delimited JSON
 * of `sail ps` into container records with a derived run status.
 */
module SailCommands {
  import opened Wrappers
  import opened Js
  import opened Host
  import Utils

  const DEFAULT_SAIL_PATH := "./vendor/bin/sail"
  /** What `JSON.parse` throws on a line that is not JSON. */
  const LINE_SYNTAX_ERROR := "SyntaxError: Unexpected token in JSON"
  /** What `container.Status.includes` throws when a record has no `Status`. */
  const NO_STATUS_ERROR := "TypeError: Cannot read properties of undefined (reading 'includes')"

  // ------------------------------------------------------------ service commands

  datatype Action = Start | Stop | Kill | Pause | Unpause | Stats

  /** The sail sub-command each action runs. */
  function Verb(a: Action): (v: string)
    ensures |v| >= 2
  {
    match a
    case Start => "up"
    case Stop => "down"
    case Kill => "kill"
    case Pause => "pause"
    case Unpause => "unpause"
    case Stats => "stats"
  }

  /** The title of the task each action submits. */
  function Title(a: Action, service: string): string
  {
    match a
    case Start => "Starting " + service
    case Stop => "Stopping " + service
    case Kill => "Killing " + service
    case Pause => "Pausing " + service
    case Unpause => "Unpausing " + service
    case Stats => "Showing stats for " + service
  }

  /** Every action but `stats` announces a status change once its task succeeds. */
  predicate FiresStatus(a: Action) {
    !a.Stats?
  }

  function ActionCommand(sailCommand: string, a: Action, service: string): string
  {
    sailCommand + " " + Verb(a) + " " + service
  }

  /**
   * The effects of one action: the task, then, only if the task resolved and the
   * action is not `stats`, one status event.
   */
  function ActionTrace(sailCommand: string, a: Action, service: string, taskOutcome: Settlement): seq<Effect>
  {
    [RunTask(ActionCommand(sailCommand, a, service), Title(a, service))]
    + (if FiresStatus(a) && taskOutcome.Resolved? then [FireStatus] else [])
  }

  /**
   * An action submits its one command first, and fires one status event, last,
   * exactly when it is one that fires and its task succeeded.
   */
  lemma ActionTraceFacts(sailCommand: string, a: Action, service: string, taskOutcome: Settlement)
    ensures var trace := ActionTrace(sailCommand, a, service, taskOutcome);
      && |trace| >= 1 && trace[0] == RunTask(ActionCommand(sailCommand, a, service), Title(a, service))
      && Commands(trace) == [ActionCommand(sailCommand, a, service)]
      && Fires(trace) == (if FiresStatus(a) && taskOutcome.Resolved? then 1 else 0)
      && (Fires(trace) == 1 ==> trace[|trace| - 1] == FireStatus)
      && Questions(trace) == []
  {
    var task := RunTask(ActionCommand(sailCommand, a, service), Title(a, service));
    var tail := if FiresStatus(a) && taskOutcome.Resolved? then [FireStatus] else [];
    SingleCounts(task);
    SingleCounts(FireStatus);
    CountsAppend([task], tail);
  }

  /** Different actions, or different services, never produce the same command line. */
  lemma ActionCommandInjective(sailCommand: string, a: Action, b: Action, s1: string, s2: string)
    requires ActionCommand(sailCommand, a, s1) == ActionCommand(sailCommand, b, s2)
    ensures a == b && s1 == s2
  {
    var x := ActionCommand(sailCommand, a, s1);
    var y := ActionCommand(sailCommand, b, s2);
    var n := |sailCommand|;
    assert x[n + 1] == Verb(a)[0] && x[n + 2] == Verb(a)[1];
    assert y[n + 1] == Verb(b)[0] && y[n + 2] == Verb(b)[1];
    assert a == b;
    var m := n + |Verb(a)| + 2;
    assert x[m..] == s1;
    assert y[m..] == s2;
  }

  /** The command and title the unit tests pin for `start`, with the default sail path and service `mysql`. */
  lemma StartAsTested()
    ensures ActionCommand(DEFAULT_SAIL_PATH, Start, "mysql") == "./vendor/bin/sail up mysql"
    ensures Title(Start, "mysql") == "Starting mysql"
  {
  }

  lemma StopAsTested()
    ensures ActionCommand(DEFAULT_SAIL_PATH, Stop, "mysql") == "./vendor/bin/sail down mysql"
    ensures Title(Stop, "mysql") == "Stopping mysql"
  {
  }

  lemma KillAsTested()
    ensures ActionCommand(DEFAULT_SAIL_PATH, Kill, "mysql") == "./vendor/bin/sail kill mysql"
    ensures Title(Kill, "mysql") == "Killing mysql"
  {
  }

  lemma PauseAsTested()
    ensures ActionCommand(DEFAULT_SAIL_PATH, Pause, "mysql") == "./vendor/bin/sail pause mysql"
    ensures Title(Pause, "mysql") == "Pausing mysql"
  {
  }

  lemma UnpauseAsTested()
    ensures ActionCommand(DEFAULT_SAIL_PATH, Unpause, "mysql") == "./vendor/bin/sail unpause mysql"
    ensures Title(Unpause, "mysql") == "Unpausing mysql"
  {
  }

  lemma StatsAsTested()
    ensures ActionCommand(DEFAULT_SAIL_PATH, Stats, "mysql") == "./vendor/bin/sail stats mysql"
    ensures Title(Stats, "mysql") == "Showing stats for mysql"
  {
  }

  // ------------------------------------------------------------------------ ps

  datatype Publisher = Publisher(url: string, targetPort: int, publishedPort: int, protocol: string)

  /** One parsed line of `sail ps --format json`; `status` is None when the line has no `Status`. */
  datatype PsEntry = PsEntry(
    service: string,
    names: string,
    state: string,
    publishers: seq<Publisher>,
    image: string,
    status: Option<string>)

  datatype RunStatus = Paused | Killed | Running {
    /** The string `ps` stores. */
    function Name(): string {
      match this
      case Paused => "paused"
      case Killed => "killed"
      case Running => "running"
    }
  }

  /** A record of `ps()`; `state` is copied verbatim, `status` is derived from the free-text status. */
  datatype Container = Container(service: string, state: string, ports: seq<Publisher>, image: string, status: RunStatus)

  /**
   * The run status of a free-text status: `Paused` anywhere wins, then `Exited`
   * anywhere, and any other text means running. The test is case-sensitive.
   */
  function Classify(status: string): (r: RunStatus)
    ensures r == Paused <==> exists i: nat :: OccursAt(status, "Paused", i)
    ensures r == Killed <==> (exists i: nat :: OccursAt(status, "Exited", i)) && !(exists i: nat :: OccursAt(status, "Paused", i))
    ensures r == Running <==> !(exists i: nat :: OccursAt(status, "Exited", i)) && !(exists i: nat :: OccursAt(status, "Paused", i))
  {
    if Includes(status, "Paused") then Paused
    else if Includes(status, "Exited") then Killed
    else Running
  }

  /** A text lacking one of the characters of `sub` does not include `sub`. */
  lemma MissingCharExcludes(s: string, sub: string, k: nat)
    requires k < |sub| && sub[k] !in s
    ensures !Includes(s, sub)
  {
  }

  lemma ClassifyRunning()
    ensures Classify("Up 2 hours") == Running
  {
    MissingCharExcludes("Up 2 hours", "Paused", 0);
    MissingCharExcludes("Up 2 hours", "Exited", 0);
  }

  lemma ClassifyPaused()
    ensures Classify("Paused") == Paused
    ensures Classify("Up 5 minutes (Paused)") == Paused
  {
    assert OccursAt("Paused", "Paused", 0);
    assert OccursAt("Up 5 minutes (Paused)", "Paused", 14);
  }

  lemma ClassifyKilled()
    ensures Classify("Exited (0) 3 seconds ago") == Killed
  {
    assert OccursAt("Exited (0) 3 seconds ago", "Exited", 0);
    MissingCharExcludes("Exited (0) 3 seconds ago", "Paused", 0);
  }

  /** The query `ps` runs. */
  function PsQuery(sailCommand: string): string
  {
    sailCommand + " ps --all --format json"
  }

  /** `output.trim().split('\n')`: one line per newline-separated piece of the trimmed output. */
  function OutputLines(output: string): (lines: seq<string>)
    ensures |lines| == Occurrences(Trim(output), '\n') + 1
    ensures Join(lines, '\n') == Trim(output)
    ensures forall i :: 0 <= i < |lines| ==> '\n' !in lines[i]
  {
    var t := Trim(output);
    JoinSplit(t, '\n');
    SplitCount(t, '\n');
    Split(t, '\n')
  }

  /** `lines.map(line => JSON.parse(line))`: every line parses, or the first that does not throws. */
  function ParseLines<T>(lines: seq<string>, parse: string -> Option<T>): (r: Result<seq<T>>)
    ensures r.Ok? <==> forall i :: 0 <= i < |lines| ==> parse(lines[i]).Some?
    ensures r.Ok? ==> |r.value| == |lines| && forall i :: 0 <= i < |lines| ==> parse(lines[i]) == Some(r.value[i])
    ensures r.Err? ==> r.message == LINE_SYNTAX_ERROR
  {
    if lines == [] then Ok([])
    else match parse(lines[0])
      case None => Err(LINE_SYNTAX_ERROR)
      case Some(x) =>
        match ParseLines(lines[1..], parse)
        case Err(e) => Err(e)
        case Ok(xs) =>
          assert forall i :: 1 <= i < |lines| ==> lines[i] == lines[1..][i - 1];
          Ok([x] + xs)
  }

  /** The record of one parsed line. */
  function ToContainer(e: PsEntry): (r: Result<Container>)
    ensures r.Ok? <==> e.status.Some?
    ensures r.Ok? ==> r.value == Container(e.service, e.state, e.publishers, e.image, Classify(e.status.value))
  {
    match e.status
    case None => Err(NO_STATUS_ERROR)
    case Some(s) => Ok(Container(e.service, e.state, e.publishers, e.image, Classify(s)))
  }

  /** The field mapping over all entries; it throws at the first entry without a status. */
  function ToContainers(entries: seq<PsEntry>): (r: Result<seq<Container>>)
    ensures r.Ok? <==> forall i :: 0 <= i < |entries| ==> entries[i].status.Some?
    ensures r.Ok? ==> |r.value| == |entries| && forall i :: 0 <= i < |entries| ==> ToContainer(entries[i]) == Ok(r.value[i])
  {
    if entries == [] then Ok([])
    else match ToContainer(entries[0])
      case Err(e) => Err(e)
      case Ok(c) =>
        match ToContainers(entries[1..])
        case Err(e) => Err(e)
        case Ok(cs) =>
          assert forall i :: 1 <= i < |entries| ==> entries[i] == entries[1..][i - 1];
          Ok([c] + cs)
  }

  /** `ps()` given what `runCommand` produced: its error, or every line parsed and then mapped. */
  function ParsePs(commandResult: Result<string>, parse: string -> Option<PsEntry>): (r: Result<seq<Container>>)
    ensures commandResult.Err? ==> r == Err(commandResult.message)
  {
    match commandResult
    case Err(e) => Err(e)
    case Ok(output) =>
      match ParseLines(OutputLines(output), parse)
      case Err(e) => Err(e)
      case Ok(entries) => ToContainers(entries)
  }

  /** `ps` succeeds exactly when every line parses and has a status. */
  lemma PsSucceedsIff(output: string, parse: string -> Option<PsEntry>)
    ensures var lines := OutputLines(output);
      ParsePs(Ok(output), parse).Ok? <==>
        forall i :: 0 <= i < |lines| ==> parse(lines[i]).Some? && parse(lines[i]).value.status.Some?
  {
    var lines := OutputLines(output);
    var p := ParseLines(lines, parse);
    if p.Ok? {
      assert forall i :: 0 <= i < |lines| ==> parse(lines[i]).value == p.value[i];
    }
  }

  /**
   * A successful `ps` gives one record per line of the trimmed output, in order,
   * each copying its line's fields and classifying its status.
   */
  lemma PsOneRecordPerLine(output: string, parse: string -> Option<PsEntry>, cs: seq<Container>)
    requires ParsePs(Ok(output), parse) == Ok(cs)
    ensures var lines := OutputLines(output);
      && |cs| == |lines| == Occurrences(Trim(output), '\n') + 1
      && forall i :: 0 <= i < |lines| ==>
           && parse(lines[i]).Some?
           && var e := parse(lines[i]).value;
              e.status.Some? && cs[i] == Container(e.service, e.state, e.publishers, e.image, Classify(e.status.value))
  {
    var lines := OutputLines(output);
    var p := ParseLines(lines, parse);
    assert p.Ok?;
    assert forall i :: 0 <= i < |lines| ==> ToContainer(p.value[i]) == Ok(cs[i]);
  }

  /** Blank output is one empty line, which does not parse: `ps` fails rather than returning no records. */
  lemma PsBlankOutputFails(output: string, parse: string -> Option<PsEntry>)
    requires parse("") == None
    requires forall i :: 0 <= i < |output| ==> IsSpace(output[i])
    ensures ParsePs(Ok(output), parse) == Err(LINE_SYNTAX_ERROR)
  {
    BlankTrimsToEmpty(output);
    assert OutputLines(output) == [""];
  }

  /**
   * The Sail command class: the configured sail path and the effects its
   * commands have had so far.
   */
  class Sail {
    const sailCommand: string
    var trace: seq<Effect>

    /** `sailPath` falls back to `./vendor/bin/sail` only when the setting is unset. */
    constructor(sailPath: Option<string>)
      ensures sailCommand == ConfigGet(sailPath, DEFAULT_SAIL_PATH)
      ensures trace == []
    {
      sailCommand := ConfigGet(sailPath, DEFAULT_SAIL_PATH);
      trace := [];
    }

    /** `await runTask(...)`, then, unless the action is `stats`, fire the status event. */
    method Perform(a: Action, service: string, taskOutcome: Settlement) returns (result: Settlement)
      modifies this
      ensures trace == old(trace) + ActionTrace(sailCommand, a, service, taskOutcome)
      ensures result == taskOutcome
    {
      trace := trace + [RunTask(ActionCommand(sailCommand, a, service), Title(a, service))];
      if taskOutcome.Rejected? {
        return taskOutcome;
      }
      if FiresStatus(a) {
        trace := trace + [FireStatus];
      }
      result := Resolved;
    }

    method Start(service: string, taskOutcome: Settlement) returns (result: Settlement)
      modifies this
      ensures trace == old(trace) + ActionTrace(sailCommand, Action.Start, service, taskOutcome)
      ensures result == taskOutcome
    {
      result := Perform(Action.Start, service, taskOutcome);
    }

    method Stop(service: string, taskOutcome: Settlement) returns (result: Settlement)
      modifies this
      ensures trace == old(trace) + ActionTrace(sailCommand, Action.Stop, service, taskOutcome)
      ensures result == taskOutcome
    {
      result := Perform(Action.Stop, service, taskOutcome);
    }

    method Kill(service: string, taskOutcome: Settlement) returns (result: Settlement)
      modifies this
      ensures trace == old(trace) + ActionTrace(sailCommand, Action.Kill, service, taskOutcome)
      ensures result == taskOutcome
    {
      result := Perform(Action.Kill, service, taskOutcome);
    }

    method Pause(service: string, taskOutcome: Settlement) returns (result: Settlement)
      modifies this
      ensures trace == old(trace) + ActionTrace(sailCommand, Action.Pause, service, taskOutcome)
      ensures result == taskOutcome
    {
      result := Perform(Action.Pause, service, taskOutcome);
    }

    method Unpause(service: string, taskOutcome: Settlement) returns (result: Settlement)
      modifies this
      ensures trace == old(trace) + ActionTrace(sailCommand, Action.Unpause, service, taskOutcome)
      ensures result == taskOutcome
    {
      result := Perform(Action.Unpause, service, taskOutcome);
    }

    method Stats(service: string, taskOutcome: Settlement) returns (result: Settlement)
      modifies this
      ensures trace == old(trace) + ActionTrace(sailCommand, Action.Stats, service, taskOutcome)
      ensures result == taskOutcome
    {
      result := Perform(Action.Stats, service, taskOutcome);
    }

    /** `ps()`: runs the query in the workspace and parses what it prints. */
    function Ps(folders: Option<seq<Folder>>, exec: Utils.Invocation -> Utils.ExecResult, parse: string -> Option<PsEntry>)
      : (r: Result<seq<Container>>)
      ensures Utils.RunCommand(folders, PsQuery(sailCommand), exec).Err? ==> r == Err(Utils.RunCommand(folders, PsQuery(sailCommand), exec).message)
    {
      ParsePs(Utils.RunCommand(folders, PsQuery(sailCommand), exec), parse)
    }
  }
}
