/**
 * src/providers/HtmlProvider.ts, without its markup: the colour and icon a
 * status string gets, the compose-file badge, and the ordered list of action
 * buttons of the status page's sidebar.
 */
module HtmlProvider {

  /** The values the status page is called with: the compose path is declared a string or null, the dashboard passes a boolean. */
  datatype JsValue = JsNull | JsBool(b: bool) | JsStr(s: string) {
    predicate Truthy() {
      match this
      case JsNull => false
      case JsBool(b) => b
      case JsStr(s) => s != ""
    }
  }

  /** `working` is green, `warning` yellow, any other string red. */
  function StatusColor(status: string): (c: string)
    ensures c == "green" <==> status == "working"
    ensures c == "yellow" <==> status == "warning"
    ensures c == "red" <==> status != "working" && status != "warning"
  {
    if status == "working" then "green" else if status == "warning" then "yellow" else "red"
  }

  /** `working` shows a check, `warning` an alert, any other string an error. */
  function StatusIcon(status: string): (i: string)
    ensures i == "check" <==> status == "working"
    ensures i == "alert" <==> status == "warning"
    ensures i == "error" <==> status != "working" && status != "warning"
  {
    if status == "working" then "check" else if status == "warning" then "alert" else "error"
  }

  datatype Badge = Badge(text: string, color: string, icon: string)

  const COMPOSE_EXISTS := Badge("Exists", "green", "check")
  const COMPOSE_NOT_FOUND := Badge("Not Found", "red", "error")

  /** The compose-file line: present exactly when the path is truthy. */
  function ComposeFileBadge(composePath: JsValue): (b: Badge)
    ensures b == COMPOSE_EXISTS <==> composePath.Truthy()
    ensures b == COMPOSE_NOT_FOUND <==> !composePath.Truthy()
  {
    if composePath.Truthy() then COMPOSE_EXISTS else COMPOSE_NOT_FOUND
  }

  /** The sidebar buttons, each posting its id as the message command. */
  datatype ActionId =
    | SailUp | SailUpDetached
    | SailOpen | SailDown | SailRestart | Migrate | SailShell | SailBash | SailTinker
    | OpenDockerCompose
    | SailInstall
  {
    function Id(): string {
      match this
      case SailUp => "sailUp"
      case SailUpDetached => "sailUpDetached"
      case SailOpen => "sailOpen"
      case SailDown => "sailDown"
      case SailRestart => "sailRestart"
      case Migrate => "migrate"
      case SailShell => "sailShell"
      case SailBash => "sailBash"
      case SailTinker => "sailTinker"
      case OpenDockerCompose => "openDockerCompose"
      case SailInstall => "sailInstall"
    }
  }

  /** Different buttons post different commands. */
  lemma ActionIdsDistinct(a: ActionId, b: ActionId)
    requires a.Id() == b.Id()
    ensures a == b
  {
    assert a.Id()[|a.Id()| - 1] == b.Id()[|b.Id()| - 1];
    assert |a.Id()| == |b.Id()|;
    assert a.Id()[4] == b.Id()[4];
  }

  /** The buttons for a stopped Sail. */
  const STOPPED_ACTIONS: seq<ActionId> := [SailUp, SailUpDetached]
  /** The buttons for any other status. */
  const RUNNING_ACTIONS: seq<ActionId> := [SailOpen, SailDown, SailRestart, Migrate, SailShell, SailBash, SailTinker]

  /**
   * `getSidebarHtml(status, composePath)` as the ordered list of its buttons:
   * with a compose path, the stopped or the running set followed by
   * `openDockerCompose`; without one, only `sailInstall`.
   */
  function SidebarActions(status: string, composePath: JsValue): (acts: seq<ActionId>)
    ensures OpenDockerCompose in acts <==> composePath.Truthy()
    ensures SailInstall in acts <==> !composePath.Truthy()
    ensures SailUp in acts <==> composePath.Truthy() && status == "stopped"
    ensures SailOpen in acts <==> composePath.Truthy() && status != "stopped"
    ensures composePath.Truthy() ==> acts[|acts| - 1] == OpenDockerCompose
    ensures !composePath.Truthy() ==> |acts| == 1
    ensures forall i, j :: 0 <= i < j < |acts| ==> acts[i] != acts[j]
  {
    if composePath.Truthy() then
      (if status == "stopped" then STOPPED_ACTIONS else RUNNING_ACTIONS) + [OpenDockerCompose]
    else
      [SailInstall]
  }

  /** The same list built the way the source builds its markup: one `html +=` per group of buttons. */
  method GetSidebarActions(status: string, composePath: JsValue) returns (acts: seq<ActionId>)
    ensures acts == SidebarActions(status, composePath)
  {
    acts := [];
    if composePath.Truthy() {
      if status == "stopped" {
        acts := acts + STOPPED_ACTIONS;
      } else {
        acts := acts + RUNNING_ACTIONS;
      }
      acts := acts + [OpenDockerCompose];
    } else {
      acts := acts + [SailInstall];
    }
  }

  /** What `getSailStatusHtml` shows, without its markup. */
  datatype StatusView = StatusView(status: string, color: string, icon: string, compose: Badge, actions: seq<ActionId>)

  function SailStatusView(status: string, composePath: JsValue): StatusView
  {
    StatusView(status, StatusColor(status), StatusIcon(status), ComposeFileBadge(composePath), SidebarActions(status, composePath))
  }
}
