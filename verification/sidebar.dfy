/**
 * src/providers/SailSidebarProvider.ts: the older sidebar view. It offers to
 * install Sail in a Laravel project that lacks it, and runs the install with
 * fixed commands rather than the configured paths.
 */
module Sidebar {
  import opened Wrappers
  import opened Js
  import opened Host
  import Utils
  import Dashboard

  const INSTALL_DEV_COMMAND := "composer require laravel/sail --dev"
  const INSTALL_COMMAND := "composer require laravel/sail"
  const INSTALL_TITLE := "Installing Laravel Sail"
  const PUBLISH_COMMAND := "php artisan sail:install"
  const PUBLISH_TITLE := "Publishing Docker Compose and Updating .env"

  // ------------------------------------------------------------ project checks

  /** The view's own copy of `isLaravelProject`, reading composer.json itself. */
  function IsLaravelProject(ws: Workspace): Result<bool>
  {
    match ws.folders
    case None => Ok(false)
    case Some(folders) =>
      if |folders| == 0 then Err(Utils.NO_FIRST_FOLDER)
      else match ws.composerJson
        case Missing => Ok(false)
        case Malformed => Err(Utils.JSON_SYNTAX_ERROR)
        case Parsed(require, _) => Ok(Truthy(Utils.Dependency(require, "laravel/framework")))
  }

  /** The view's own copy of `isSailInstalled`. */
  function IsSailInstalled(ws: Workspace): Result<bool>
  {
    match ws.folders
    case None => Ok(false)
    case Some(folders) =>
      if |folders| == 0 then Err(Utils.NO_FIRST_FOLDER)
      else match ws.composerJson
        case Missing => Ok(false)
        case Malformed => Err(Utils.JSON_SYNTAX_ERROR)
        case Parsed(require, requireDev) =>
          Ok(Truthy(Utils.Dependency(require, "laravel/sail")) || Truthy(Utils.Dependency(requireDev, "laravel/sail")))
  }

  /** The duplicated checks agree with the shared ones on every workspace, errors included. */
  lemma DuplicatedChecksAgree(ws: Workspace)
    ensures IsLaravelProject(ws) == Utils.IsLaravelProject(ws)
    ensures IsSailInstalled(ws) == Utils.IsSailInstalled(ws)
  {
    var r := Utils.ReadComposer(ws);
    if r.Ok? && r.value.Some? {
      assert ws.composerJson.Parsed?;
    }
  }

  // ------------------------------------------------------------------- pages

  datatype SidebarPage = InstallPrompt | AlreadyInstalledOrNotLaravel

  /**
   * `updateWebviewContent`: the install prompt exactly for a Laravel project
   * without Sail, the fixed paragraph otherwise; the Sail check is skipped when
   * the project is not Laravel.
   */
  function SelectSidebarPage(ws: Workspace): (r: Result<SidebarPage>)
    ensures r.Err? <==> Utils.ComposerReadThrows(ws)
    ensures r == Ok(InstallPrompt) <==> Utils.IsLaravelProject(ws) == Ok(true) && Utils.IsSailInstalled(ws) == Ok(false)
    ensures r == Ok(AlreadyInstalledOrNotLaravel) <==>
      !Utils.ComposerReadThrows(ws) && !(Utils.IsLaravelProject(ws) == Ok(true) && Utils.IsSailInstalled(ws) == Ok(false))
  {
    DuplicatedChecksAgree(ws);
    match IsLaravelProject(ws)
    case Err(e) => Err(e)
    case Ok(false) => Ok(AlreadyInstalledOrNotLaravel)
    case Ok(true) =>
      match IsSailInstalled(ws)
      case Err(e) => Err(e)
      case Ok(installed) => Ok(if installed then AlreadyInstalledOrNotLaravel else InstallPrompt)
  }

  function Render(page: Option<SidebarPage>, ws: Workspace): Option<SidebarPage>
  {
    match SelectSidebarPage(ws)
    case Ok(p) => Some(p)
    case Err(_) => page
  }

  // ---------------------------------------------------------------- messages

  datatype Message = Install | Reload | Other(command: string)

  /** The answers to the two quick picks (None: dismissed) and how the two tasks settle. */
  datatype Answers = Answers(installInDev: Option<string>, publishCompose: Option<string>, installTask: Settlement, publishTask: Settlement)

  /** The install command the first answer picks: dev for `Yes`, plain for any other answer. */
  function InstallCommandFor(answer: string): (c: string)
    ensures c == INSTALL_DEV_COMMAND <==> answer == "Yes"
    ensures c == INSTALL_COMMAND <==> answer != "Yes"
  {
    if answer == "Yes" then INSTALL_DEV_COMMAND else INSTALL_COMMAND
  }

  /** The publish step, when the second answer is `Yes`. */
  function PublishStep(a: Answers): seq<Effect>
  {
    if a.publishCompose == Some("Yes") then Utils.RunTaskWithProgress(PUBLISH_COMMAND, PUBLISH_TITLE, false, None, a.publishTask) else []
  }

  /**
   * Whether a render throws. The sidebar renders synchronously, so a
   * composer.json that cannot be read throws out of `updateWebviewContent`
   * into whatever called it.
   */
  predicate RenderThrows(ws: Workspace) {
    SelectSidebarPage(ws).Err?
  }

  /**
   * The effects of the install flow after the install task: the refresh and,
   * unless that threw, which ends the handler, the publish question and step.
   */
  function AfterInstall(a: Answers, ws: Workspace): seq<Effect>
  {
    if RenderThrows(ws) then [UpdateView]
    else [UpdateView, AskPick(Dashboard.PUBLISH_QUESTION)] + PublishStep(a)
  }

  /** The effects of the install flow after its first question. */
  function InstallFlow(a: Answers, ws: Workspace): seq<Effect>
  {
    if Truthy(a.installInDev) then
      Utils.RunTaskWithProgress(InstallCommandFor(a.installInDev.value), INSTALL_TITLE, false, None, a.installTask)
      + AfterInstall(a, ws)
    else []
  }

  /** The publish step runs its one fixed command exactly on `Yes`, and asks nothing. */
  lemma PublishStepFacts(a: Answers)
    ensures Commands(PublishStep(a)) == if a.publishCompose == Some("Yes") then [PUBLISH_COMMAND] else []
    ensures Questions(PublishStep(a)) == [] && Fires(PublishStep(a)) == 0
  {
    Utils.ProgressFacts(PUBLISH_COMMAND, PUBLISH_TITLE, false, None, a.publishTask);
  }

  /** The effects of one message handled by a listening view; `ws` is the workspace its renders see. */
  function MessageTrace(msg: Message, a: Answers, ws: Workspace): seq<Effect>
  {
    match msg
    case Install => [AskPick(Dashboard.INSTALL_QUESTION)] + InstallFlow(a, ws)
    case Reload => [UpdateView]
    case Other(_) => []
  }

  /**
   * The steps after the install task refresh first. When the refresh throws
   * nothing follows; otherwise the publish question is asked once and only the
   * publish command can run.
   */
  lemma AfterInstallFacts(a: Answers, ws: Workspace)
    ensures |AfterInstall(a, ws)| >= 1 && AfterInstall(a, ws)[0] == UpdateView
    ensures Fires(AfterInstall(a, ws)) == 0
    ensures RenderThrows(ws) ==> AfterInstall(a, ws) == [UpdateView]
    ensures Commands(AfterInstall(a, ws)) ==
      if !RenderThrows(ws) && a.publishCompose == Some("Yes") then [PUBLISH_COMMAND] else []
    ensures Questions(AfterInstall(a, ws)) == if RenderThrows(ws) then [] else [Dashboard.PUBLISH_QUESTION]
  {
    SingleCounts(UpdateView);
    if !RenderThrows(ws) {
      var ask: seq<Effect> := [AskPick(Dashboard.PUBLISH_QUESTION)];
      assert AfterInstall(a, ws) == [UpdateView] + (ask + PublishStep(a));
      SingleCounts(AskPick(Dashboard.PUBLISH_QUESTION));
      PublishStepFacts(a);
      CountsAppend(ask, PublishStep(a));
      CountsAppend([UpdateView], ask + PublishStep(a));
    }
  }

  /**
   * The install flow: no event, the install command then what follows the
   * refresh, which ends the flow.
   */
  lemma InstallFlowFacts(a: Answers, ws: Workspace)
    ensures !Truthy(a.installInDev) ==> InstallFlow(a, ws) == []
    ensures Truthy(a.installInDev) ==>
      && Fires(InstallFlow(a, ws)) == 0
      && Commands(InstallFlow(a, ws)) == [InstallCommandFor(a.installInDev.value)] + Commands(AfterInstall(a, ws))
      && Questions(InstallFlow(a, ws)) == Questions(AfterInstall(a, ws))
      && |InstallFlow(a, ws)| >= |AfterInstall(a, ws)|
      && InstallFlow(a, ws)[|InstallFlow(a, ws)| - |AfterInstall(a, ws)|..] == AfterInstall(a, ws)
  {
    AfterInstallFacts(a, ws);
    if Truthy(a.installInDev) {
      var install := Utils.RunTaskWithProgress(InstallCommandFor(a.installInDev.value), INSTALL_TITLE, false, None, a.installTask);
      Utils.ProgressFacts(InstallCommandFor(a.installInDev.value), INSTALL_TITLE, false, None, a.installTask);
      CountsAppend(install, AfterInstall(a, ws));
      assert (install + AfterInstall(a, ws))[|install|..] == AfterInstall(a, ws);
    }
  }

  /**
   * The `install` message when the first pick is dismissed or the refresh
   * throws: nothing runs past the install command, and no publish question is
   * asked.
   */
  lemma InstallMessageStopsFacts(a: Answers, ws: Workspace)
    ensures Fires(MessageTrace(Install, a, ws)) == 0
    ensures !Truthy(a.installInDev) ==>
      Commands(MessageTrace(Install, a, ws)) == [] && Questions(MessageTrace(Install, a, ws)) == [Dashboard.INSTALL_QUESTION]
    ensures Truthy(a.installInDev) && RenderThrows(ws) ==>
      && Commands(MessageTrace(Install, a, ws)) == [InstallCommandFor(a.installInDev.value)]
      && Questions(MessageTrace(Install, a, ws)) == [Dashboard.INSTALL_QUESTION]
      && MessageTrace(Install, a, ws)[|MessageTrace(Install, a, ws)| - 1] == UpdateView
  {
    var ask: seq<Effect> := [AskPick(Dashboard.INSTALL_QUESTION)];
    var t := ask + InstallFlow(a, ws);
    assert MessageTrace(Install, a, ws) == t;
    SingleCounts(AskPick(Dashboard.INSTALL_QUESTION));
    InstallFlowFacts(a, ws);
    AfterInstallFacts(a, ws);
    CountsAppend(ask, InstallFlow(a, ws));
    if Truthy(a.installInDev) && RenderThrows(ws) {
      var i := 1 + |InstallFlow(a, ws)| - |AfterInstall(a, ws)|;
      assert t[i..] == [UpdateView];
    }
  }

  /**
   * The `install` message when the install command runs and the refresh
   * renders: the publish question follows, and only on a second `Yes` does
   * `php artisan sail:install` run, after the refresh.
   */
  lemma InstallMessageProceedsFacts(a: Answers, ws: Workspace)
    requires Truthy(a.installInDev) && !RenderThrows(ws)
    ensures Commands(MessageTrace(Install, a, ws)) ==
      [InstallCommandFor(a.installInDev.value)] + (if a.publishCompose == Some("Yes") then [PUBLISH_COMMAND] else [])
    ensures Questions(MessageTrace(Install, a, ws)) == [Dashboard.INSTALL_QUESTION, Dashboard.PUBLISH_QUESTION]
    ensures exists i ::
      && 0 <= i < |MessageTrace(Install, a, ws)| && MessageTrace(Install, a, ws)[i] == UpdateView
      && Commands(MessageTrace(Install, a, ws)[i..]) == (if a.publishCompose == Some("Yes") then [PUBLISH_COMMAND] else [])
  {
    var ask: seq<Effect> := [AskPick(Dashboard.INSTALL_QUESTION)];
    var t := ask + InstallFlow(a, ws);
    assert MessageTrace(Install, a, ws) == t;
    SingleCounts(AskPick(Dashboard.INSTALL_QUESTION));
    InstallFlowFacts(a, ws);
    AfterInstallFacts(a, ws);
    CountsAppend(ask, InstallFlow(a, ws));
    var i := 1 + |InstallFlow(a, ws)| - |AfterInstall(a, ws)|;
    assert t[i..] == AfterInstall(a, ws);
    assert t[i] == UpdateView;
  }

  /**
   * What each message does: `install` as in the two lemmas above, `reload` one refresh, anything
   * else nothing. Nothing here fires a status event.
   */
  lemma MessageTraceFacts(msg: Message, a: Answers, ws: Workspace)
    ensures Fires(MessageTrace(msg, a, ws)) == 0
    ensures msg.Reload? ==> MessageTrace(msg, a, ws) == [UpdateView]
    ensures msg.Other? ==> MessageTrace(msg, a, ws) == []
  {
    SingleCounts(UpdateView);
    if msg.Install? {
      InstallMessageStopsFacts(a, ws);
    }
  }

  /**
   * The sidebar view: whether a view has been resolved, whether the view has a
   * message handler (registered only after a first render that did not throw),
   * the page it shows, and the effects so far.
   */
  class SidebarView {
    var resolved: bool
    var listening: bool
    var page: Option<SidebarPage>
    var trace: seq<Effect>

    constructor()
      ensures !resolved && !listening && page == None && trace == []
    {
      resolved := false;
      listening := false;
      page := None;
      trace := [];
    }

    /** `updateWebviewContent`: a render that throws leaves the page and reports the throw. */
    method UpdateWebviewContent(ws: Workspace) returns (threw: bool)
      modifies this`page, this`trace
      ensures threw <==> RenderThrows(ws)
      ensures page == Render(old(page), ws)
      ensures trace == old(trace) + [UpdateView]
    {
      match SelectSidebarPage(ws) {
        case Ok(p) =>
          page := Some(p);
          threw := false;
        case Err(_) =>
          threw := true;
      }
      trace := trace + [UpdateView];
    }

    /** `resolveWebviewView`: keep the view, render, and register the handler only if the render did not throw. */
    method ResolveWebviewView(ws: Workspace) returns (threw: bool)
      modifies this
      ensures resolved
      ensures threw <==> RenderThrows(ws)
      ensures listening <==> !RenderThrows(ws)
      ensures page == Render(old(page), ws)
      ensures trace == old(trace) + [UpdateView]
    {
      resolved := true;
      threw := UpdateWebviewContent(ws);
      listening := !threw;
    }

    /** `refresh()`: re-render, or nothing at all before a view is resolved. */
    method Refresh(ws: Workspace) returns (threw: bool)
      modifies this`page, this`trace
      ensures threw <==> old(resolved) && RenderThrows(ws)
      ensures old(resolved) ==> page == Render(old(page), ws) && trace == old(trace) + [UpdateView]
      ensures !old(resolved) ==> page == old(page) && trace == old(trace)
    {
      threw := false;
      if resolved {
        threw := UpdateWebviewContent(ws);
      }
    }

    /** The `install` branch of the message handler; `threw` when the refresh throws and ends it. */
    method HandleInstall(a: Answers, ws: Workspace) returns (threw: bool)
      requires resolved && listening
      modifies this`page, this`trace
      ensures trace == old(trace) + ([AskPick(Dashboard.INSTALL_QUESTION)] + InstallFlow(a, ws))
      ensures threw <==> Truthy(a.installInDev) && RenderThrows(ws)
      ensures Truthy(a.installInDev) ==> page == Render(old(page), ws)
      ensures !Truthy(a.installInDev) ==> page == old(page)
    {
      ghost var before := trace;
      trace := trace + [AskPick(Dashboard.INSTALL_QUESTION)];
      threw := false;
      if Truthy(a.installInDev) {
        var install := Utils.RunTaskWithProgress(InstallCommandFor(a.installInDev.value), INSTALL_TITLE, false, None, a.installTask);
        trace := trace + install;
        threw := Refresh(ws);
        if threw {
          assert InstallFlow(a, ws) == install + [UpdateView];
          assert trace == before + [AskPick(Dashboard.INSTALL_QUESTION)] + install + [UpdateView];
        } else {
          trace := trace + [AskPick(Dashboard.PUBLISH_QUESTION)];
          if a.publishCompose == Some("Yes") {
            trace := trace + Utils.RunTaskWithProgress(PUBLISH_COMMAND, PUBLISH_TITLE, false, None, a.publishTask);
          }
          assert InstallFlow(a, ws) == install + ([UpdateView, AskPick(Dashboard.PUBLISH_QUESTION)] + PublishStep(a));
          assert trace == before + [AskPick(Dashboard.INSTALL_QUESTION)] + install + [UpdateView] + [AskPick(Dashboard.PUBLISH_QUESTION)] + PublishStep(a);
          Dashboard.InstallSteps(before, install, PublishStep(a));
        }
      } else {
        assert InstallFlow(a, ws) == [];
      }
    }

    /**
     * The message handler of a listening view; `ws` is the workspace its renders
     * see, and `threw` says whether the handler's promise rejects.
     */
    method HandleMessage(msg: Message, a: Answers, ws: Workspace) returns (threw: bool)
      requires resolved && listening
      modifies this`page, this`trace
      ensures trace == old(trace) + MessageTrace(msg, a, ws)
      ensures threw <==> RenderThrows(ws) && ((msg.Install? && Truthy(a.installInDev)) || msg.Reload?)
      ensures msg.Install? && Truthy(a.installInDev) ==> page == Render(old(page), ws)
      ensures msg.Reload? ==> page == Render(old(page), ws)
      ensures msg.Other? || (msg.Install? && !Truthy(a.installInDev)) ==> page == old(page)
    {
      threw := false;
      match msg {
        case Install =>
          threw := HandleInstall(a, ws);
        case Reload =>
          threw := UpdateWebviewContent(ws);
        case Other(_) =>
      }
    }
  }
}
