/**
 * src/providers/DashboardWebViewProvider.ts: the main dashboard view. It
 * classifies the containers into an aggregate status, picks which page to
 * show, and answers the buttons of its pages.
 *
 * The container list and whether Docker runs come from src/extension.ts,
 * which is not part of this model; they are inputs here, with the workspace
 * and the existence of docker-compose.yml, bundled as an `Env`.
 */
module Dashboard {
  import opened Wrappers
  import opened Js
  import opened Host
  import Utils
  import SailCommands
  import HtmlProvider
  import ComposerCommands
  import ArtisanCommands

  type Container = SailCommands.Container

  const INSTALL_QUESTION := "Do you want to install Laravel Sail in the dev dependencies?"
  const PUBLISH_QUESTION := "Do you want to publish the Docker Compose file and update the .env file?"
  const MIGRATE_QUESTION := "Do you want to run the database migrations?"

  // ------------------------------------------------------------------ status

  predicate IsRunning(c: Container) {
    c.state == "running"
  }

  /** The number of containers whose state is `running`. */
  function RunningCount(cs: seq<Container>): (n: nat)
    ensures n <= |cs|
    ensures n == 0 <==> forall i :: 0 <= i < |cs| ==> !IsRunning(cs[i])
    ensures n == |cs| <==> forall i :: 0 <= i < |cs| ==> IsRunning(cs[i])
  {
    if cs == [] then 0
    else
      var rest := RunningCount(cs[1..]);
      assert forall i :: 1 <= i < |cs| ==> cs[i] == cs[1..][i - 1];
      (if IsRunning(cs[0]) then 1 else 0) + rest
  }

  /**
   * `getSailStatus()`: green when there are containers and all run, yellow when
   * some but not all run, red when none runs (the empty list included).
   */
  function GetSailStatus(cs: seq<Container>): (s: string)
    ensures s == "green" <==> |cs| > 0 && forall i :: 0 <= i < |cs| ==> IsRunning(cs[i])
    ensures s == "yellow" <==> (exists i :: 0 <= i < |cs| && IsRunning(cs[i])) && (exists i :: 0 <= i < |cs| && !IsRunning(cs[i]))
    ensures s == "red" <==> forall i :: 0 <= i < |cs| ==> !IsRunning(cs[i])
  {
    var up := RunningCount(cs);
    if up == |cs| && up > 0 then "green"
    else if up > 0 then "yellow"
    else "red"
  }

  /** The status words the status page is written against: working, warning, stopped. */
  function IntendedStatus(cs: seq<Container>): (s: string)
    ensures s == "working" <==> GetSailStatus(cs) == "green"
    ensures s == "warning" <==> GetSailStatus(cs) == "yellow"
    ensures s == "stopped" <==> GetSailStatus(cs) == "red"
  {
    match GetSailStatus(cs)
    case "green" => "working"
    case "yellow" => "warning"
    case _ => "stopped"
  }

  // ------------------------------------------------------------------- pages

  datatype Page =
    | DockerNotRunningPage
    | NotLaravelPage
    | InstallPage          // getHtmlForWebview: the "install Laravel Sail" page
    | SailInstalledPage
    | StatusPage(view: HtmlProvider.StatusView)

  /** The world a render sees. */
  datatype Env = Env(dockerRunning: bool, ws: Workspace, containers: seq<Container>, composeFileExists: bool)

  /** The status page as the dashboard calls it: its own status string and a boolean for the compose path. */
  function DashboardStatusView(env: Env): HtmlProvider.StatusView
  {
    HtmlProvider.SailStatusView(GetSailStatus(env.containers), HtmlProvider.JsBool(env.composeFileExists))
  }

  /**
   * `updateWebviewContent`: the Docker check first, then not Laravel, then Sail
   * not installed, then the status page. A composer.json that cannot be read
   * throws out of the first project check.
   */
  function SelectPage(env: Env): (r: Result<Page>)
    ensures !env.dockerRunning ==> r == Ok(DockerNotRunningPage)
    ensures env.dockerRunning ==> (r.Err? <==> Utils.ComposerReadThrows(env.ws))
    ensures r == Ok(NotLaravelPage) <==> env.dockerRunning && Utils.IsLaravelProject(env.ws) == Ok(false)
    ensures r == Ok(InstallPage) <==>
      env.dockerRunning && Utils.IsLaravelProject(env.ws) == Ok(true) && Utils.IsSailInstalled(env.ws) == Ok(false)
    ensures r.Ok? && r.value.StatusPage? <==>
      env.dockerRunning && Utils.IsLaravelProject(env.ws) == Ok(true) && Utils.IsSailInstalled(env.ws) == Ok(true)
    ensures r.Ok? && r.value.StatusPage? ==> r.value.view == DashboardStatusView(env)
  {
    if !env.dockerRunning then Ok(DockerNotRunningPage)
    else match Utils.IsLaravelProject(env.ws)
      case Err(e) => Err(e)
      case Ok(false) => Ok(NotLaravelPage)
      case Ok(true) =>
        match Utils.IsSailInstalled(env.ws)
        case Err(e) => Err(e)
        case Ok(false) => Ok(InstallPage)
        case Ok(true) => Ok(StatusPage(DashboardStatusView(env)))
  }

  /** A render replaces the page, unless it throws, which leaves the old one. */
  function Render(page: Option<Page>, env: Env): (r: Option<Page>)
  {
    match SelectPage(env)
    case Ok(p) => Some(p)
    case Err(_) => page
  }

  /**
   * The status strings drift apart: the dashboard passes green/yellow/red, the
   * page tests for working/warning/stopped. So the status line is always red
   * with an error icon, and a project with a compose file is always offered the
   * buttons of a running Sail, even when no container runs.
   */
  lemma DashboardStatusDrift(env: Env)
    ensures DashboardStatusView(env).color == "red"
    ensures DashboardStatusView(env).icon == "error"
    ensures env.composeFileExists ==>
      HtmlProvider.SailOpen in DashboardStatusView(env).actions && HtmlProvider.SailUp !in DashboardStatusView(env).actions
  {
    var s := GetSailStatus(env.containers);
    assert s == "green" || s == "yellow" || s == "red";
  }

  /** Concretely: Docker up, Sail installed, a compose file, one exited container, yet no "Up" button. */
  lemma DashboardDriftWitness(ws: Workspace)
    requires Utils.IsLaravelProject(ws) == Ok(true) && Utils.IsSailInstalled(ws) == Ok(true)
    ensures var env := Env(true, ws, [SailCommands.Container("mysql", "exited", [], "mysql", SailCommands.Killed)], true);
      && SelectPage(env).Ok? && SelectPage(env).value.StatusPage?
      && HtmlProvider.SailUp !in SelectPage(env).value.view.actions
  {
    var env := Env(true, ws, [SailCommands.Container("mysql", "exited", [], "mysql", SailCommands.Killed)], true);
    DashboardStatusDrift(env);
  }

  /** The status page with the status words it tests for. */
  function IntendedStatusView(env: Env): HtmlProvider.StatusView
  {
    HtmlProvider.SailStatusView(IntendedStatus(env.containers), HtmlProvider.JsBool(env.composeFileExists))
  }

  /**
   * With the intended words the page tracks the containers: green exactly when
   * all of at least one run, yellow when some do, and the "Up" buttons exactly
   * when a compose file exists and none runs.
   */
  lemma IntendedStatusViewTracksContainers(env: Env)
    ensures var cs := env.containers;
      && (IntendedStatusView(env).color == "green" <==> |cs| > 0 && forall i :: 0 <= i < |cs| ==> IsRunning(cs[i]))
      && (IntendedStatusView(env).color == "yellow" <==>
            (exists i :: 0 <= i < |cs| && IsRunning(cs[i])) && (exists i :: 0 <= i < |cs| && !IsRunning(cs[i])))
      && (HtmlProvider.SailUp in IntendedStatusView(env).actions <==>
            env.composeFileExists && forall i :: 0 <= i < |cs| ==> !IsRunning(cs[i]))
  {
    var s := IntendedStatus(env.containers);
    assert s == "working" || s == "warning" || s == "stopped";
  }

  // ---------------------------------------------------------------- messages

  datatype Message = Install | Reload | SailUp | Publish | Other(command: string)

  /** The user's answers to the quick picks (None: dismissed) and how each task settles. */
  datatype Answers = Answers(
    installInDev: Option<string>,
    publishCompose: Option<string>,
    runMigration: Option<string>,
    installTask: Settlement,
    publishTask: Settlement,
    migrateTask: Settlement,
    startTask: Settlement)

  /** The migration, when the third answer is `Yes`. */
  function MigrateStep(config: Config, a: Answers): seq<Effect>
  {
    if a.runMigration == Some("Yes") then ArtisanCommands.Migrate(config, a.migrateTask) else []
  }

  /** The effects of the install flow after its second question. */
  function PublishFlow(config: Config, a: Answers): seq<Effect>
  {
    if a.publishCompose == Some("Yes") then
      ArtisanCommands.SailInstall(config, a.publishTask) + ([ShowSailInstalled, AskPick(MIGRATE_QUESTION)] + MigrateStep(config, a))
    else []
  }

  /** The effects of the install flow after its first question. */
  function InstallFlow(config: Config, a: Answers): seq<Effect>
  {
    if Truthy(a.installInDev) then
      ComposerCommands.InstallSail(config, a.installInDev == Some("Yes"), a.installTask)
      + ([UpdateView, AskPick(PUBLISH_QUESTION)] + PublishFlow(config, a))
    else []
  }

  /** The effects of one message from a resolved view. */
  function MessageTrace(config: Config, msg: Message, a: Answers): seq<Effect>
  {
    match msg
    case Install => [AskPick(INSTALL_QUESTION)] + InstallFlow(config, a)
    case Reload => [UpdateView]
    case SailUp =>
      SailCommands.ActionTrace(ConfigGet(config.sailPath, SailCommands.DEFAULT_SAIL_PATH), SailCommands.Start, "", a.startTask)
      + (if a.startTask.Resolved? then [UpdateView] else [])
    case Publish => ArtisanCommands.SailInstall(config, a.publishTask) + [UpdateView]
    case Other(_) => []
  }

  /** The commands migrating runs: the migration on `Yes`, otherwise none. */
  function MigrateCommands(config: Config, a: Answers): seq<string>
  {
    if a.runMigration == Some("Yes") then [ArtisanCommands.MigrateCommand(config)] else []
  }

  /** The commands publishing runs: sail:install through PHP, then the migration, only on `Yes`. */
  function PublishCommands(config: Config, a: Answers): seq<string>
  {
    if a.publishCompose == Some("Yes") then
      [Utils.PhpCommand(config.phpPath, ArtisanCommands.SailInstallCommand(config))] + MigrateCommands(config, a)
    else []
  }

  lemma MigrateStepFacts(config: Config, a: Answers)
    ensures Commands(MigrateStep(config, a)) == MigrateCommands(config, a)
    ensures Questions(MigrateStep(config, a)) == [] && Fires(MigrateStep(config, a)) == 0
  {
    ArtisanCommands.MigrateFacts(config, a.migrateTask);
  }

  /** After a `Yes` to publishing, the migrate question is the only one asked, and no event fires. */
  lemma PublishFlowFacts(config: Config, a: Answers)
    ensures Commands(PublishFlow(config, a)) == PublishCommands(config, a)
    ensures Questions(PublishFlow(config, a)) == if a.publishCompose == Some("Yes") then [MIGRATE_QUESTION] else []
    ensures Fires(PublishFlow(config, a)) == 0
  {
    if a.publishCompose == Some("Yes") {
      var sailInstall := ArtisanCommands.SailInstall(config, a.publishTask);
      var middle: seq<Effect> := [ShowSailInstalled, AskPick(MIGRATE_QUESTION)];
      var migrate := MigrateStep(config, a);
      ArtisanCommands.SailInstallFacts(config, a.publishTask);
      MigrateStepFacts(config, a);
      SingleCounts(ShowSailInstalled);
      SingleCounts(AskPick(MIGRATE_QUESTION));
      assert middle == [ShowSailInstalled] + [AskPick(MIGRATE_QUESTION)];
      CountsAppend([ShowSailInstalled], [AskPick(MIGRATE_QUESTION)]);
      assert Commands(middle) == [] && Questions(middle) == [MIGRATE_QUESTION] && Fires(middle) == 0;
      CountsAppend(middle, migrate);
      assert Commands(middle + migrate) == Commands(migrate);
      assert Questions(middle + migrate) == [MIGRATE_QUESTION];
      CountsAppend(sailInstall, middle + migrate);
      assert PublishFlow(config, a) == sailInstall + (middle + migrate);
    }
  }

  /**
   * A dismissed first pick runs nothing. Otherwise the install command runs,
   * as a dev dependency exactly on `Yes`, then the publish question is asked,
   * and on `Yes` publishing and the migrate question follow. No event fires
   * but the install's own.
   */
  lemma InstallFlowFacts(config: Config, a: Answers)
    ensures !Truthy(a.installInDev) ==> InstallFlow(config, a) == []
    ensures Truthy(a.installInDev) ==>
      && Commands(InstallFlow(config, a)) ==
           [ComposerCommands.InstallSailCommand(ComposerCommands.ComposerCommand(config), a.installInDev == Some("Yes"))]
           + PublishCommands(config, a)
      && Questions(InstallFlow(config, a)) == [PUBLISH_QUESTION] + (if a.publishCompose == Some("Yes") then [MIGRATE_QUESTION] else [])
      && Fires(InstallFlow(config, a)) == 1
  {
    if Truthy(a.installInDev) {
      var install := ComposerCommands.InstallSail(config, a.installInDev == Some("Yes"), a.installTask);
      var rest := [UpdateView, AskPick(PUBLISH_QUESTION)] + PublishFlow(config, a);
      assert InstallFlow(config, a) == install + rest;
      ComposerCommands.InstallSailFacts(config, a.installInDev == Some("Yes"), a.installTask);
      AfterInstallFacts(config, a);
      CountsAppend(install, rest);
    }
  }

  /** After the install task: a refresh, the publish question, then the publish flow. */
  lemma AfterInstallFacts(config: Config, a: Answers)
    ensures var rest := [UpdateView, AskPick(PUBLISH_QUESTION)] + PublishFlow(config, a);
      && Commands(rest) == PublishCommands(config, a)
      && Questions(rest) == [PUBLISH_QUESTION] + (if a.publishCompose == Some("Yes") then [MIGRATE_QUESTION] else [])
      && Fires(rest) == 0
  {
    var middle: seq<Effect> := [UpdateView, AskPick(PUBLISH_QUESTION)];
    PublishFlowFacts(config, a);
    SingleCounts(UpdateView);
    SingleCounts(AskPick(PUBLISH_QUESTION));
    assert middle == [UpdateView] + [AskPick(PUBLISH_QUESTION)];
    CountsAppend([UpdateView], [AskPick(PUBLISH_QUESTION)]);
    CountsAppend(middle, PublishFlow(config, a));
  }

  /**
   * An `install` message asks first; a dismissed pick runs nothing, otherwise
   * the install flow follows.
   */
  lemma InstallMessageFacts(config: Config, a: Answers)
    ensures var t := MessageTrace(config, Install, a);
      && (!Truthy(a.installInDev) ==> Commands(t) == [] && Questions(t) == [INSTALL_QUESTION] && Fires(t) == 0)
      && (Truthy(a.installInDev) ==>
            && Commands(t) ==
                 [ComposerCommands.InstallSailCommand(ComposerCommands.ComposerCommand(config), a.installInDev == Some("Yes"))]
                 + PublishCommands(config, a)
            && Questions(t) == [INSTALL_QUESTION, PUBLISH_QUESTION] + (if a.publishCompose == Some("Yes") then [MIGRATE_QUESTION] else [])
            && Fires(t) == 1)
  {
    var ask: seq<Effect> := [AskPick(INSTALL_QUESTION)];
    var flow := InstallFlow(config, a);
    assert MessageTrace(config, Install, a) == ask + flow;
    InstallFlowFacts(config, a);
    SingleCounts(AskPick(INSTALL_QUESTION));
    CountsAppend(ask, flow);
    assert Commands(ask + flow) == Commands(flow);
    assert Questions(ask + flow) == [INSTALL_QUESTION] + Questions(flow);
  }

  /** `sailUp` starts every service and re-renders only when that task succeeds. */
  lemma SailUpMessageFacts(config: Config, a: Answers)
    ensures var t := MessageTrace(config, SailUp, a);
      && Commands(t) == [SailCommands.ActionCommand(ConfigGet(config.sailPath, SailCommands.DEFAULT_SAIL_PATH), SailCommands.Start, "")]
      && (t[|t| - 1] == UpdateView <==> a.startTask.Resolved?)
  {
    var sailCommand := ConfigGet(config.sailPath, SailCommands.DEFAULT_SAIL_PATH);
    var start := SailCommands.ActionTrace(sailCommand, SailCommands.Start, "", a.startTask);
    var tail: seq<Effect> := if a.startTask.Resolved? then [UpdateView] else [];
    assert MessageTrace(config, SailUp, a) == start + tail;
    SailCommands.ActionTraceFacts(sailCommand, SailCommands.Start, "", a.startTask);
    SingleCounts(UpdateView);
    CountsAppend(start, tail);
    if a.startTask.Rejected? {
      assert start + tail == start;
      assert start[|start| - 1] != UpdateView;
    }
  }

  /** `publish` publishes through PHP and always re-renders. */
  lemma PublishMessageFacts(config: Config, a: Answers)
    ensures var t := MessageTrace(config, Publish, a);
      && Commands(t) == [Utils.PhpCommand(config.phpPath, ArtisanCommands.SailInstallCommand(config))]
      && t[|t| - 1] == UpdateView
  {
    var run := ArtisanCommands.SailInstall(config, a.publishTask);
    assert MessageTrace(config, Publish, a) == run + [UpdateView];
    ArtisanCommands.SailInstallFacts(config, a.publishTask);
    SingleCounts(UpdateView);
    CountsAppend(run, [UpdateView]);
  }

  /** The publish branch's effects, appended one step at a time, are its flow appended at once. */
  lemma PublishSteps(before: seq<Effect>, install: seq<Effect>, migrate: seq<Effect>)
    ensures before + [AskPick(PUBLISH_QUESTION)] + install + [ShowSailInstalled] + [AskPick(MIGRATE_QUESTION)] + migrate
      == before + [AskPick(PUBLISH_QUESTION)] + (install + ([ShowSailInstalled, AskPick(MIGRATE_QUESTION)] + migrate))
  {
  }

  /** The install branch's effects, appended one step at a time, are its flow appended at once. */
  lemma InstallSteps(before: seq<Effect>, install: seq<Effect>, publish: seq<Effect>)
    ensures before + [AskPick(INSTALL_QUESTION)] + install + [UpdateView] + [AskPick(PUBLISH_QUESTION)] + publish
      == before + ([AskPick(INSTALL_QUESTION)] + (install + ([UpdateView, AskPick(PUBLISH_QUESTION)] + publish)))
  {
  }

  /** The page after one message from a resolved view, given the world its re-render sees. */
  function MessagePage(page: Option<Page>, msg: Message, a: Answers, env: Env): (r: Option<Page>)
    ensures msg.Other? ==> r == page
    ensures msg.Install? && !Truthy(a.installInDev) ==> r == page
    ensures msg.Install? && Truthy(a.installInDev) && a.publishCompose == Some("Yes") ==> r == Some(SailInstalledPage)
    ensures msg.SailUp? && a.startTask.Rejected? ==> r == page
  {
    match msg
    case Install =>
      if !Truthy(a.installInDev) then page
      else if a.publishCompose == Some("Yes") then Some(SailInstalledPage)
      else Render(page, env)
    case Reload => Render(page, env)
    case SailUp => if a.startTask.Resolved? then Render(page, env) else page
    case Publish => Render(page, env)
    case Other(_) => page
  }

  /** The dashboard view: whether a view has been resolved, the page it shows, and the effects so far. */
  class DashboardWebView {
    const config: Config
    var resolved: bool
    var page: Option<Page>
    var trace: seq<Effect>

    constructor(config: Config)
      ensures this.config == config && !resolved && page == None && trace == []
    {
      this.config := config;
      resolved := false;
      page := None;
      trace := [];
    }

    method UpdateWebviewContent(env: Env)
      modifies this
      ensures resolved == old(resolved)
      ensures page == Render(old(page), env)
      ensures trace == old(trace) + [UpdateView]
    {
      match SelectPage(env) {
        case Ok(p) => page := Some(p);
        case Err(_) =>
      }
      trace := trace + [UpdateView];
    }

    /** `resolveWebviewView`: remember the view and render it. */
    method ResolveWebviewView(env: Env)
      modifies this
      ensures resolved
      ensures page == Render(old(page), env)
      ensures trace == old(trace) + [UpdateView]
    {
      resolved := true;
      UpdateWebviewContent(env);
    }

    /** `refresh()`: re-render, or nothing at all before a view is resolved. */
    method Refresh(env: Env)
      modifies this
      ensures resolved == old(resolved)
      ensures old(resolved) ==> page == Render(old(page), env) && trace == old(trace) + [UpdateView]
      ensures !old(resolved) ==> page == old(page) && trace == old(trace)
    {
      if resolved {
        UpdateWebviewContent(env);
      }
    }

    method ShowSailInstalledMessage()
      modifies this
      ensures resolved == old(resolved)
      ensures old(resolved) ==> page == Some(SailInstalledPage) && trace == old(trace) + [ShowSailInstalled]
      ensures !old(resolved) ==> page == old(page) && trace == old(trace)
    {
      if resolved {
        page := Some(SailInstalledPage);
        trace := trace + [ShowSailInstalled];
      }
    }

    /** The `install` branch after its first question, from the second question on. */
    method PublishAndMigrate(a: Answers)
      requires resolved
      modifies this
      ensures resolved
      ensures trace == old(trace) + [AskPick(PUBLISH_QUESTION)] + PublishFlow(config, a)
      ensures a.publishCompose == Some("Yes") ==> page == Some(SailInstalledPage)
      ensures a.publishCompose != Some("Yes") ==> page == old(page)
    {
      ghost var before := trace;
      trace := trace + [AskPick(PUBLISH_QUESTION)];
      if a.publishCompose == Some("Yes") {
        var install := ArtisanCommands.SailInstall(config, a.publishTask);
        trace := trace + install;
        ShowSailInstalledMessage();
        trace := trace + [AskPick(MIGRATE_QUESTION)];
        if a.runMigration == Some("Yes") {
          trace := trace + ArtisanCommands.Migrate(config, a.migrateTask);
        } else {
          assert trace == trace + MigrateStep(config, a);
        }
        PublishSteps(before, install, MigrateStep(config, a));
      } else {
        assert trace == trace + PublishFlow(config, a);
      }
    }

    /** The `install` branch of the message handler. */
    method HandleInstall(a: Answers, env: Env)
      requires resolved
      modifies this
      ensures resolved
      ensures trace == old(trace) + ([AskPick(INSTALL_QUESTION)] + InstallFlow(config, a))
      ensures page == MessagePage(old(page), Install, a, env)
    {
      ghost var before := trace;
      trace := trace + [AskPick(INSTALL_QUESTION)];
      if Truthy(a.installInDev) {
        var install := ComposerCommands.InstallSail(config, a.installInDev == Some("Yes"), a.installTask);
        trace := trace + install;
        Refresh(env);
        PublishAndMigrate(a);
        assert InstallFlow(config, a) == install + ([UpdateView, AskPick(PUBLISH_QUESTION)] + PublishFlow(config, a));
        InstallSteps(before, install, PublishFlow(config, a));
      } else {
        assert InstallFlow(config, a) == [];
      }
    }

    /** The message handler `resolveWebviewView` installs; `env` is the world its re-render sees. */
    method HandleMessage(msg: Message, a: Answers, env: Env)
      requires resolved
      modifies this
      ensures resolved
      ensures trace == old(trace) + MessageTrace(config, msg, a)
      ensures page == MessagePage(old(page), msg, a, env)
    {
      match msg {
        case Install =>
          HandleInstall(a, env);
          assert MessageTrace(config, msg, a) == [AskPick(INSTALL_QUESTION)] + InstallFlow(config, a);
        case Reload =>
          UpdateWebviewContent(env);
        case SailUp =>
          var sailCommand := ConfigGet(config.sailPath, SailCommands.DEFAULT_SAIL_PATH);
          var start := SailCommands.ActionTrace(sailCommand, SailCommands.Start, "", a.startTask);
          trace := trace + start;
          if a.startTask.Resolved? {
            UpdateWebviewContent(env);
            assert MessageTrace(config, msg, a) == start + [UpdateView];
          } else {
            assert MessageTrace(config, msg, a) == start;
          }
        case Publish =>
          var run := ArtisanCommands.SailInstall(config, a.publishTask);
          trace := trace + run;
          UpdateWebviewContent(env);
          assert MessageTrace(config, msg, a) == run + [UpdateView];
        case Other(_) =>
      }
    }
  }
}
