/**
 * The extension's view of its host editor: the workspace it is opened on,
 * the `laravelSail` settings, and the observable effects its commands have
 * (tasks submitted, status events fired, messages and questions shown, views
 * re-rendered), recorded in order as a trace.
 */
module Host {
  import opened Wrappers

  /** A workspace folder; `fsPath` is the platform path, `path` the URI path. */
  datatype Folder = Folder(fsPath: string, path: string)

  /** The first folder's composer.json: absent, not valid JSON, or its two dependency sections. */
  datatype ComposerFile =
    | Missing
    | Malformed
    | Parsed(require: Option<map<string, string>>, requireDev: Option<map<string, string>>)

  /** `workspaceFolders` is undefined when no folder is open; it may also be an empty list. */
  datatype Workspace = Workspace(folders: Option<seq<Folder>>, composerJson: ComposerFile)

  /** The `laravelSail` settings; None is an unset key. */
  datatype Config = Config(
    sailPath: Option<string>,
    composerPath: Option<string>,
    artisanPath: Option<string>,
    phpPath: Option<string>)

  const UNSET: Config := Config(None, None, None, None)

  /** How a `Promise<void>` settles: resolved, or rejected with an Error carrying a message. */
  datatype Settlement = Resolved | Rejected(message: string)

  datatype Effect =
    | RunTask(command: string, title: string)   // a shell task submitted through runTask
    | FireStatus                                // EventBus.fireDidChangeStatus()
    | ShowErrorMessage(message: string)         // window.showErrorMessage
    | AskPick(placeHolder: string)              // a Yes/No quick pick
    | UpdateView                                // updateWebviewContent of the resolved view
    | ShowSailInstalled                         // the "Sail scaffolding installed" page

  /** The number of status events in a trace. */
  function Fires(trace: seq<Effect>): nat
  {
    if trace == [] then 0 else (if trace[0] == FireStatus then 1 else 0) + Fires(trace[1..])
  }

  /** The commands of the tasks in a trace, in submission order. */
  function Commands(trace: seq<Effect>): seq<string>
  {
    if trace == [] then []
    else (if trace[0].RunTask? then [trace[0].command] else []) + Commands(trace[1..])
  }

  /** The counts of a one-effect trace. */
  lemma SingleCounts(e: Effect)
    ensures Fires([e]) == if e == FireStatus then 1 else 0
    ensures Commands([e]) == if e.RunTask? then [e.command] else []
    ensures Questions([e]) == if e.AskPick? then [e.placeHolder] else []
  {
    assert [e][1..] == [];
  }

  lemma {:induction false} FiresAppend(a: seq<Effect>, b: seq<Effect>)
    ensures Fires(a + b) == Fires(a) + Fires(b)
  {
    if a != [] {
      assert (a + b)[1..] == a[1..] + b;
      FiresAppend(a[1..], b);
    } else {
      assert a + b == b;
    }
  }

  lemma {:induction false} CommandsAppend(a: seq<Effect>, b: seq<Effect>)
    ensures Commands(a + b) == Commands(a) + Commands(b)
  {
    if a != [] {
      assert (a + b)[1..] == a[1..] + b;
      CommandsAppend(a[1..], b);
    } else {
      assert a + b == b;
    }
  }

  /** The questions asked in a trace, in order. */
  function Questions(trace: seq<Effect>): seq<string>
  {
    if trace == [] then []
    else (if trace[0].AskPick? then [trace[0].placeHolder] else []) + Questions(trace[1..])
  }

  lemma {:induction false} QuestionsAppend(a: seq<Effect>, b: seq<Effect>)
    ensures Questions(a + b) == Questions(a) + Questions(b)
  {
    if a != [] {
      assert (a + b)[1..] == a[1..] + b;
      QuestionsAppend(a[1..], b);
    } else {
      assert a + b == b;
    }
  }

  /** All three counts of a concatenation. */
  lemma CountsAppend(a: seq<Effect>, b: seq<Effect>)
    ensures Fires(a + b) == Fires(a) + Fires(b)
    ensures Commands(a + b) == Commands(a) + Commands(b)
    ensures Questions(a + b) == Questions(a) + Questions(b)
  {
    FiresAppend(a, b);
    CommandsAppend(a, b);
    QuestionsAppend(a, b);
  }
}
