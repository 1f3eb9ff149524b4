/**
 * src/utils/ExecuteAsTask.ts: runs a shell command as an editor task, built
 * from optional settings, and settles once the task's execution ends.
 */
module ExecuteAsTask {
  import opened Wrappers
  import opened Js
  import opened Host
  import Utils

  const TASK_SOURCE := "Laravel Sail"

  /** The options object; every member may be absent. */
  datatype Options = Options(
    workspaceFolder: Option<Folder>,
    cwd: Option<string>,
    alwaysRunNew: Option<bool>,
    rejectOnError: Option<bool>,
    focus: Option<bool>)

  const NO_OPTIONS := Options(None, None, None, None, None)

  datatype Scope = FolderScope(folder: Folder) | WorkspaceScope

  /**
   * The task handed to the editor. `randomized` stands for the random
   * `idRandomizer` added to its definition; `presentationFocus` is None while
   * the presentation options are unset.
   */
  datatype TaskSpec = TaskSpec(
    scope: Scope,
    name: string,
    source: string,
    command: string,
    cwd: string,
    randomized: bool,
    presentationFocus: Option<bool>)

  predicate IsTrue(b: Option<bool>) {
    b == Some(true)
  }

  /** `options ?? {}`. */
  function Effective(options: Option<Options>): (o: Options)
    ensures options.None? ==> o == NO_OPTIONS
    ensures options.Some? ==> o == options.value
  {
    options.GetOr(NO_OPTIONS)
  }

  /** The working directory: a non-empty `cwd`, else a non-empty folder path, else the home directory. */
  function TaskCwd(o: Options, home: string): (cwd: string)
    ensures Truthy(o.cwd) ==> cwd == o.cwd.value
    ensures !Truthy(o.cwd) && o.workspaceFolder.Some? && o.workspaceFolder.value.fsPath != "" ==> cwd == o.workspaceFolder.value.fsPath
    ensures !Truthy(o.cwd) && (o.workspaceFolder.None? || o.workspaceFolder.value.fsPath == "") ==> cwd == home
  {
    if Truthy(o.cwd) then o.cwd.value
    else if o.workspaceFolder.Some? && o.workspaceFolder.value.fsPath != "" then o.workspaceFolder.value.fsPath
    else home
  }

  /**
   * The task `executeAsTask(command, name, options)` builds: scoped to the given
   * folder or else the workspace, from the `Laravel Sail` source, randomized
   * only for `alwaysRunNew`, focused only for `focus`.
   */
  function MakeTask(command: string, name: string, options: Option<Options>, home: string): (t: TaskSpec)
    ensures t.command == command && t.name == name && t.source == TASK_SOURCE
    ensures t.scope == (if Effective(options).workspaceFolder.Some? then FolderScope(Effective(options).workspaceFolder.value) else WorkspaceScope)
    ensures t.cwd == TaskCwd(Effective(options), home)
    ensures t.randomized <==> options.Some? && IsTrue(options.value.alwaysRunNew)
    ensures t.presentationFocus.Some? <==> options.Some? && IsTrue(options.value.focus)
    ensures t.presentationFocus.Some? ==> t.presentationFocus.value
  {
    var o := Effective(options);
    var scope := if o.workspaceFolder.Some? then FolderScope(o.workspaceFolder.value) else WorkspaceScope;
    TaskSpec(scope, name, TASK_SOURCE, command, TaskCwd(o, home), IsTrue(o.alwaysRunNew), if IsTrue(o.focus) then Some(true) else None)
  }

  /** How the call settles: resolved, rejected with the exit code, or rejected by `executeTask`. */
  datatype TaskOutcome = Done | FailedWith(exitCode: int) | ExecuteFailed(message: string)

  /** The answer to the end of the execution: reject with a truthy exit code when asked to, else resolve. */
  function Verdict(rejectOnError: Option<bool>, exitCode: Option<int>): (r: TaskOutcome)
    ensures r.FailedWith? <==> IsTrue(rejectOnError) && exitCode.Some? && exitCode.value != 0
    ensures r.FailedWith? ==> r.exitCode == exitCode.value
    ensures !r.ExecuteFailed?
  {
    if IsTrue(rejectOnError) && exitCode.Some? && exitCode.value != 0 then FailedWith(exitCode.value) else Done
  }

  /** The verdict as the listener applies it. */
  function ExitVerdict(rejectOnError: Option<bool>): Option<int> -> TaskOutcome
  {
    (exitCode: Option<int>) => Verdict(rejectOnError, exitCode)
  }

  /**
   * `executeAsTask(command, name, options)`: `execution` is what `executeTask`
   * answers (the execution's identity, or its rejection); `events` are the
   * end events that follow. Returns the task, how the call settled (None while
   * pending) and how often the listener was disposed.
   */
  method Run(command: string, name: string, options: Option<Options>, home: string,
             execution: Result<nat>, events: seq<Utils.EndEvent>)
    returns (task: TaskSpec, outcome: Option<TaskOutcome>, disposals: nat)
    ensures task == MakeTask(command, name, options, home)
    ensures execution.Err? ==> outcome == Some(ExecuteFailed(execution.message)) && disposals == 0
    ensures execution.Ok? ==>
      && outcome == Utils.FirstVerdict(execution.value, ExitVerdict(Effective(options).rejectOnError), events)
      && disposals == if Utils.Ends(execution.value, events) then 1 else 0
  {
    var o := Effective(options);
    task := MakeTask(command, name, options, home);
    match execution {
      case Err(e) =>
        outcome := Some(ExecuteFailed(e));
        disposals := 0;
      case Ok(id) =>
        var listener := new Utils.EndListener(id, ExitVerdict(o.rejectOnError));
        listener.Feed(events);
        outcome := listener.outcome;
        disposals := listener.disposals;
    }
  }

  /**
   * Once the execution has ended, the call rejects exactly when `rejectOnError`
   * is set and the first end of the execution reports a non-zero exit code.
   */
  lemma RejectsIff(options: Option<Options>, id: nat, events: seq<Utils.EndEvent>)
    requires Utils.Ends(id, events)
    ensures var r := Utils.FirstVerdict(id, ExitVerdict(Effective(options).rejectOnError), events);
      r.Some? && (r.value.FailedWith? <==>
        && IsTrue(Effective(options).rejectOnError)
        && events[Utils.FirstEnd(id, events)].exitCode.Some?
        && events[Utils.FirstEnd(id, events)].exitCode.value != 0)
  {
  }

  /** Without options nothing ever rejects on an exit code. */
  lemma NoOptionsNeverFails(id: nat, events: seq<Utils.EndEvent>)
    ensures forall code :: Utils.FirstVerdict(id, ExitVerdict(Effective(None).rejectOnError), events) != Some(FailedWith(code))
    ensures Utils.Ends(id, events) ==> Utils.FirstVerdict(id, ExitVerdict(Effective(None).rejectOnError), events) == Some(Done)
  {
  }
}
