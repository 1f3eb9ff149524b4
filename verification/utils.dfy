/**
 * The shared runners and project predicates of src/utils.ts: the outcome of
 * `runCommand`, the one-shot end-of-task listener behind `runTask`, the PHP
 * command prefix of `runPHPTask`, the error sink `runTaskWithProgress`, and
 * the composer.json checks `isLaravelProject` and `isSailInstalled`.
 */
module Utils {
  import opened Wrappers
  import opened Js
  import opened Host

  const NO_WORKSPACE := "No workspace folder found"
  /** What `workspaceFolders[0].uri` throws when the folder list is empty. */
  const NO_FIRST_FOLDER := "Cannot read properties of undefined (reading 'uri')"
  /** What `JSON.parse` throws on a composer.json that is not JSON. */
  const JSON_SYNTAX_ERROR := "Unexpected token in JSON"
  const TASK_FAILED := "Task failed with exit code "
  const DEFAULT_PHP := "php"

  /** A shell command line and the directory it runs in. */
  datatype Invocation = Invocation(command: string, cwd: string)

  /** What `exec` hands its callback: an error, if any, and the two output streams. */
  datatype ExecResult = ExecResult(error: Option<string>, stdout: string, stderr: string)

  // ---------------------------------------------------------------- runCommand

  /**
   * `runCommand(command)`: throws without a workspace, otherwise runs `command`
   * in the first folder's fsPath; an exec error wins over a non-empty error
   * stream, which wins over the standard output.
   */
  function RunCommand(folders: Option<seq<Folder>>, command: string, exec: Invocation -> ExecResult): (r: Result<string>)
    ensures folders.None? ==> r == Err(NO_WORKSPACE)
    ensures folders == Some([]) ==> r == Err(NO_FIRST_FOLDER)
    ensures folders.Some? && |folders.value| > 0 ==>
      var x := exec(Invocation(command, folders.value[0].fsPath));
      && (r.Ok? <==> x.error.None? && x.stderr == "")
      && (r.Ok? ==> r.value == x.stdout)
      && (x.error.Some? ==> r == Err(x.error.value))
      && (x.error.None? && x.stderr != "" ==> r == Err(x.stderr))
  {
    if folders.None? then Err(NO_WORKSPACE)
    else if |folders.value| == 0 then Err(NO_FIRST_FOLDER)
    else
      var x := exec(Invocation(command, folders.value[0].fsPath));
      if x.error.Some? then Err(x.error.value)
      else if x.stderr != "" then Err(x.stderr)
      else Ok(x.stdout)
  }

  // ------------------------------------------------- one-shot end-of-task listener

  /** A task-process end event: which task (or execution) ended, and its exit code, if known. */
  datatype EndEvent = EndEvent(source: nat, exitCode: Option<int>)

  /** Some event in `events` is the end of `target`. */
  predicate Ends(target: nat, events: seq<EndEvent>) {
    exists i :: 0 <= i < |events| && events[i].source == target
  }

  /** `events[i]` is the first end of `target`. */
  predicate EndsFirstAt(target: nat, events: seq<EndEvent>, i: nat) {
    i < |events| && events[i].source == target && forall j :: 0 <= j < i ==> events[j].source != target
  }

  /** The position of the first end of `target`. */
  function FirstEnd(target: nat, events: seq<EndEvent>): (i: nat)
    requires Ends(target, events)
    ensures EndsFirstAt(target, events, i)
  {
    if events[0].source == target then 0
    else
      assert Ends(target, events[1..]) by {
        var k :| 0 <= k < |events| && events[k].source == target;
        assert events[1..][k - 1] == events[k];
      }
      1 + FirstEnd(target, events[1..])
  }

  lemma FirstEndUnique(target: nat, events: seq<EndEvent>, i: nat)
    requires EndsFirstAt(target, events, i)
    ensures Ends(target, events) && FirstEnd(target, events) == i
  {
    var k := FirstEnd(target, events);
    assert !(k < i) && !(i < k);
  }

  /** The verdict a one-shot listener reaches: that of the first end of `target`, if any. */
  function FirstVerdict<S>(target: nat, verdict: Option<int> -> S, events: seq<EndEvent>): (r: Option<S>)
    ensures !Ends(target, events) ==> r == None
    ensures Ends(target, events) ==> r == Some(verdict(events[FirstEnd(target, events)].exitCode))
  {
    if events == [] then None
    else if events[0].source == target then Some(verdict(events[0].exitCode))
    else
      var r := FirstVerdict(target, verdict, events[1..]);
      assert Ends(target, events) <==> Ends(target, events[1..]) by {
        if Ends(target, events) {
          var k :| 0 <= k < |events| && events[k].source == target;
          assert events[1..][k - 1] == events[k];
        }
      }
      if Ends(target, events) then
        var k := FirstEnd(target, events[1..]);
        assert EndsFirstAt(target, events, k + 1);
        FirstEndUnique(target, events, k + 1);
        r
      else
        r
  }

  lemma {:induction false} EndsSnoc(target: nat, events: seq<EndEvent>, e: EndEvent)
    ensures Ends(target, events + [e]) <==> Ends(target, events) || e.source == target
    ensures Ends(target, events) ==> FirstEnd(target, events + [e]) == FirstEnd(target, events)
  {
    var s := events + [e];
    if Ends(target, events) {
      var k := FirstEnd(target, events);
      assert s[k] == events[k];
      assert EndsFirstAt(target, s, k);
      FirstEndUnique(target, s, k);
    } else if e.source == target {
      assert s[|events|] == e;
    }
  }

  /**
   * The listener registered with `onDidEndTaskProcess`: armed until the first end
   * event of its target, which it answers with `verdict` and then disposes itself.
   * `outcome` is the promise it settles: only the first settlement counts.
   */
  class EndListener<S> {
    const target: nat
    const verdict: Option<int> -> S
    var armed: bool
    var disposals: nat
    var outcome: Option<S>

    constructor(target: nat, verdict: Option<int> -> S)
      ensures this.target == target && this.verdict == verdict
      ensures armed && disposals == 0 && outcome == None
    {
      this.target := target;
      this.verdict := verdict;
      armed := true;
      disposals := 0;
      outcome := None;
    }

    /** `resolve` / `reject`: a promise that has settled stays as it is. */
    method Settle(s: S)
      modifies this`outcome
      ensures outcome == if old(outcome).None? then Some(s) else old(outcome)
    {
      if outcome.None? {
        outcome := Some(s);
      }
    }

    /** One end event reaches the listener. */
    method Notify(e: EndEvent)
      modifies this
      ensures old(armed) && e.source == target ==>
        && !armed && disposals == old(disposals) + 1
        && outcome == (if old(outcome).None? then Some(verdict(e.exitCode)) else old(outcome))
      ensures !(old(armed) && e.source == target) ==>
        armed == old(armed) && disposals == old(disposals) && outcome == old(outcome)
    {
      if armed && e.source == target {
        armed := false;
        disposals := disposals + 1;
        Settle(verdict(e.exitCode));
      }
    }

    /** A stream of end events reaches the listener, in order. */
    method Feed(events: seq<EndEvent>)
      modifies this
      ensures armed == (old(armed) && !Ends(target, events))
      ensures disposals == old(disposals) + (if old(armed) && Ends(target, events) then 1 else 0)
      ensures outcome == if old(armed) && old(outcome).None? then FirstVerdict(target, verdict, events) else old(outcome)
    {
      var i := 0;
      while i < |events|
        invariant 0 <= i <= |events|
        invariant armed == (old(armed) && !Ends(target, events[..i]))
        invariant disposals == old(disposals) + (if old(armed) && Ends(target, events[..i]) then 1 else 0)
        invariant outcome == if old(armed) && old(outcome).None? then FirstVerdict(target, verdict, events[..i]) else old(outcome)
      {
        EndsSnoc(target, events[..i], events[i]);
        assert events[..i + 1] == events[..i] + [events[i]];
        if Ends(target, events[..i]) {
          assert events[..i + 1][FirstEnd(target, events[..i])] == events[..i][FirstEnd(target, events[..i])];
        } else if events[i].source == target {
          assert EndsFirstAt(target, events[..i + 1], i);
          FirstEndUnique(target, events[..i + 1], i);
        }
        Notify(events[i]);
        i := i + 1;
      }
      assert events[..i] == events;
    }
  }

  // ------------------------------------------------------------------ runTask

  /** How JavaScript writes `e.exitCode` in a template string. */
  function ExitCodeText(exitCode: Option<int>): string
  {
    match exitCode
    case None => "undefined"
    case Some(c) => IntToString(c)
  }

  /** `runTask`'s answer to the end of its task: exit code 0 resolves, anything else rejects. */
  function RunTaskVerdict(exitCode: Option<int>): (s: Settlement)
    ensures s.Resolved? <==> exitCode == Some(0)
    ensures s.Rejected? ==> s.message == TASK_FAILED + ExitCodeText(exitCode)
  {
    if exitCode == Some(0) then Resolved else Rejected(TASK_FAILED + ExitCodeText(exitCode))
  }

  /**
   * `runTask(command, name)` for the task `task`: the listener is registered first,
   * then the task is executed; a rejected `executeTask` rejects the call, otherwise
   * the first end of the task decides. Returns how the call settled (None while
   * pending) and how often the listener was disposed.
   */
  method RunTask(task: nat, executeError: Option<string>, events: seq<EndEvent>)
    returns (outcome: Option<Settlement>, disposals: nat)
    ensures executeError.Some? ==> outcome == Some(Rejected(executeError.value))
    ensures executeError.None? ==> outcome == FirstVerdict(task, RunTaskVerdict, events)
    ensures disposals == if Ends(task, events) then 1 else 0
  {
    var listener := new EndListener(task, RunTaskVerdict);
    if executeError.Some? {
      listener.Settle(Rejected(executeError.value));
    }
    listener.Feed(events);
    outcome := listener.outcome;
    disposals := listener.disposals;
  }

  /** `runTask` resolves exactly when the first end of its task reports exit code 0. */
  lemma RunTaskResolvesIff(task: nat, events: seq<EndEvent>)
    ensures FirstVerdict(task, RunTaskVerdict, events) == Some(Resolved)
      <==> exists i :: 0 <= i < |events| && EndsFirstAt(task, events, i) && events[i].exitCode == Some(0)
  {
    if exists i :: 0 <= i < |events| && EndsFirstAt(task, events, i) && events[i].exitCode == Some(0) {
      var i :| 0 <= i < |events| && EndsFirstAt(task, events, i) && events[i].exitCode == Some(0);
      FirstEndUnique(task, events, i);
    }
  }

  /** A non-zero exit code `c` rejects with the message `Task failed with exit code c`. */
  lemma RunTaskRejectsWithCode(task: nat, events: seq<EndEvent>, i: nat, c: int)
    requires EndsFirstAt(task, events, i) && events[i].exitCode == Some(c) && c != 0
    ensures FirstVerdict(task, RunTaskVerdict, events) == Some(Rejected(TASK_FAILED + IntToString(c)))
  {
    FirstEndUnique(task, events, i);
  }

  /** The end events of one task only. */
  function EventsOf(target: nat, events: seq<EndEvent>): (r: seq<EndEvent>)
    ensures forall i :: 0 <= i < |r| ==> r[i].source == target
  {
    if events == [] then []
    else (if events[0].source == target then [events[0]] else []) + EventsOf(target, events[1..])
  }

  /** End events of other tasks do not change what a listener decides. */
  lemma {:induction false} OtherTasksIgnored<S>(target: nat, verdict: Option<int> -> S, events: seq<EndEvent>)
    ensures FirstVerdict(target, verdict, events) == FirstVerdict(target, verdict, EventsOf(target, events))
  {
    if events != [] {
      OtherTasksIgnored(target, verdict, events[1..]);
      var rest := EventsOf(target, events[1..]);
      if events[0].source == target {
        var f := [events[0]] + rest;
        assert f[0] == events[0];
        assert EndsFirstAt(target, f, 0) && EndsFirstAt(target, events, 0);
        FirstEndUnique(target, f, 0);
        FirstEndUnique(target, events, 0);
      } else {
        assert EventsOf(target, events) == rest;
        if Ends(target, events) {
          var k := FirstEnd(target, events);
          assert EndsFirstAt(target, events[1..], k - 1);
          FirstEndUnique(target, events[1..], k - 1);
        } else {
          assert !Ends(target, events[1..]);
        }
      }
    }
  }

  /** The failure message of the unit test: exit code 1. */
  lemma RunTaskExitCodeOneMessage()
    ensures RunTaskVerdict(Some(1)) == Rejected("Task failed with exit code 1")
  {
  }

  // --------------------------------------------------------- runPHPTask / progress

  /** `runPHPTask`: the configured PHP binary, or `php` when the setting is unset or empty, before the command. */
  function PhpCommand(phpPath: Option<string>, command: string): (r: string)
    ensures Truthy(phpPath) ==> r == phpPath.value + " " + command
    ensures !Truthy(phpPath) ==> r == DEFAULT_PHP + " " + command
  {
    OrDefault(phpPath, DEFAULT_PHP) + " " + command
  }

  /**
   * `runTaskWithProgress(command, title, usePHP)`: runs the task, through the PHP
   * prefix iff `usePHP`, and turns a rejection into an error message. It never
   * rejects, so its callers always continue.
   */
  function RunTaskWithProgress(command: string, title: string, usePHP: bool, phpPath: Option<string>, taskOutcome: Settlement)
    : seq<Effect>
  {
    [Effect.RunTask(if usePHP then PhpCommand(phpPath, command) else command, title)]
    + (if taskOutcome.Rejected? then [ShowErrorMessage(taskOutcome.message)] else [])
  }

  /**
   * The progress-wrapped task is submitted first, through the PHP prefix iff
   * `usePHP`; a rejection adds only an error message; it fires no event and asks nothing.
   */
  lemma ProgressFacts(command: string, title: string, usePHP: bool, phpPath: Option<string>, taskOutcome: Settlement)
    ensures var trace := RunTaskWithProgress(command, title, usePHP, phpPath, taskOutcome);
      && |trace| >= 1 && trace[0] == Effect.RunTask(if usePHP then PhpCommand(phpPath, command) else command, title)
      && Commands(trace) == [trace[0].command]
      && Fires(trace) == 0 && Questions(trace) == []
      && trace[1..] == if taskOutcome.Rejected? then [ShowErrorMessage(taskOutcome.message)] else []
  {
    var task := Effect.RunTask(if usePHP then PhpCommand(phpPath, command) else command, title);
    var tail := if taskOutcome.Rejected? then [ShowErrorMessage(taskOutcome.message)] else [];
    SingleCounts(task);
    if taskOutcome.Rejected? {
      SingleCounts(ShowErrorMessage(taskOutcome.message));
    }
    CountsAppend([task], tail);
    assert ([task] + tail)[1..] == tail;
  }

  // ------------------------------------------------------- composer.json checks

  /** `section?.[name]`: the constraint a dependency section gives a package, if any. */
  function Dependency(section: Option<map<string, string>>, name: string): Option<string>
  {
    if section.Some? && name in section.value then Some(section.value[name]) else None
  }

  /** The workspace has a first folder. */
  predicate HasFirstFolder(ws: Workspace) {
    ws.folders.Some? && |ws.folders.value| > 0
  }

  /** Reading composer.json throws: an empty folder list, or a file that is not JSON. */
  predicate ComposerReadThrows(ws: Workspace) {
    ws.folders == Some([]) || (HasFirstFolder(ws) && ws.composerJson.Malformed?)
  }

  /** The parsed composer.json of the first folder, if there is one. */
  function ReadComposer(ws: Workspace): (r: Result<Option<ComposerFile>>)
    ensures r.Err? <==> ComposerReadThrows(ws)
    ensures r.Ok? && r.value.Some? <==> HasFirstFolder(ws) && ws.composerJson.Parsed?
    ensures r.Ok? && r.value.Some? ==> r.value.value == ws.composerJson
  {
    if ws.folders.None? then Ok(None)
    else if |ws.folders.value| == 0 then Err(NO_FIRST_FOLDER)
    else match ws.composerJson
      case Missing => Ok(None)
      case Malformed => Err(JSON_SYNTAX_ERROR)
      case Parsed(_, _) => Ok(Some(ws.composerJson))
  }

  /** `isLaravelProject()`: `laravel/framework` is required. */
  function IsLaravelProject(ws: Workspace): (r: Result<bool>)
    ensures r.Err? <==> ComposerReadThrows(ws)
    ensures r == Ok(true) <==>
      HasFirstFolder(ws) && ws.composerJson.Parsed? && Truthy(Dependency(ws.composerJson.require, "laravel/framework"))
  {
    match ReadComposer(ws)
    case Err(e) => Err(e)
    case Ok(None) => Ok(false)
    case Ok(Some(c)) => Ok(Truthy(Dependency(c.require, "laravel/framework")))
  }

  /** `isSailInstalled()`: `laravel/sail` is required, in `require` or in `require-dev`. */
  function IsSailInstalled(ws: Workspace): (r: Result<bool>)
    ensures r.Err? <==> ComposerReadThrows(ws)
    ensures r == Ok(true) <==>
      HasFirstFolder(ws) && ws.composerJson.Parsed?
      && (Truthy(Dependency(ws.composerJson.require, "laravel/sail"))
          || Truthy(Dependency(ws.composerJson.requireDev, "laravel/sail")))
  {
    match ReadComposer(ws)
    case Err(e) => Err(e)
    case Ok(None) => Ok(false)
    case Ok(Some(c)) =>
      Ok(Truthy(Dependency(c.require, "laravel/sail")) || Truthy(Dependency(c.requireDev, "laravel/sail")))
  }
}
