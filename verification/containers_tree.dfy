/**
 * src/providers/ContainersTreeViewProvider.ts: the containers tree. The root
 * lists the containers of `sail ps`, a container lists its published ports.
 * Unlike `Sail.ps`, fetching never fails: any failure gives an empty list.
 */
module ContainersTree {
  import opened Wrappers
  import opened Js
  import opened Host
  import Utils
  import SailCommands

  type Publisher = SailCommands.Publisher

  /** The tree's own query: a fixed sail path and no `--all`. */
  const TREE_QUERY := "./vendor/bin/sail ps --format json"

  /** One parsed line of the query's output, as the tree reads it. */
  datatype TreeLine = TreeLine(names: string, state: string, publishers: seq<Publisher>, image: string)

  /** A record of `getSailContainers`. */
  datatype TreeRecord = TreeRecord(name: string, state: string, ports: seq<Publisher>, image: string)

  function ToRecord(l: TreeLine): TreeRecord {
    TreeRecord(l.names, l.state, l.publishers, l.image)
  }

  function ToRecords(ls: seq<TreeLine>): (rs: seq<TreeRecord>)
    ensures |rs| == |ls| && forall i :: 0 <= i < |ls| ==> rs[i] == ToRecord(ls[i])
  {
    if ls == [] then [] else [ToRecord(ls[0])] + ToRecords(ls[1..])
  }

  /**
   * `getSailContainers` given what `runCommand` produced: one record per line of
   * the trimmed output when every line parses, and `[]` on any failure.
   */
  function GetSailContainers(commandResult: Result<string>, parse: string -> Option<TreeLine>): (r: seq<TreeRecord>)
    ensures commandResult.Err? ==> r == []
    ensures commandResult.Ok? ==>
      var lines := SailCommands.OutputLines(commandResult.value);
      if forall i :: 0 <= i < |lines| ==> parse(lines[i]).Some? then
        |r| == |lines| && forall i :: 0 <= i < |lines| ==> r[i] == ToRecord(parse(lines[i]).value)
      else
        r == []
  {
    match commandResult
    case Err(_) => []
    case Ok(output) =>
      match SailCommands.ParseLines(SailCommands.OutputLines(output), parse)
      case Err(_) => []
      case Ok(ls) => ToRecords(ls)
  }

  /** Blank output is one unparseable line, so the tree shows no containers. */
  lemma TreeBlankOutputEmpty(output: string, parse: string -> Option<TreeLine>)
    requires parse("") == None
    requires forall i :: 0 <= i < |output| ==> IsSpace(output[i])
    ensures GetSailContainers(Ok(output), parse) == []
  {
    BlankTrimsToEmpty(output);
    assert SailCommands.OutputLines(output) == [""];
  }

  /**
   * The two readers of `sail ps` fail differently on the same output: where a
   * line does not parse, `ps` reports the error and the tree shows nothing.
   */
  lemma PsFailsWhereTreeIsEmpty(output: string, psParse: string -> Option<SailCommands.PsEntry>,
                                treeParse: string -> Option<TreeLine>, k: nat)
    requires k < |SailCommands.OutputLines(output)|
    requires psParse(SailCommands.OutputLines(output)[k]) == None
    requires treeParse(SailCommands.OutputLines(output)[k]) == None
    ensures SailCommands.ParsePs(Ok(output), psParse) == Err(SailCommands.LINE_SYNTAX_ERROR)
    ensures GetSailContainers(Ok(output), treeParse) == []
  {
  }

  // -------------------------------------------------------------------- items

  datatype ThemeIcon = ThemeIcon(id: string, color: Option<string>)

  datatype TreeItem = TreeItem(
    caption: string,
    collapsible: bool,
    contextValue: string,
    description: Option<string>,
    icon: ThemeIcon)

  datatype Node = ContainerNode(record: TreeRecord) | PortNode(port: Publisher)

  /** A container node: labelled with the name, collapsed, described by its image, lit green only when running. */
  function ContainerItem(c: TreeRecord): (item: TreeItem)
    ensures item.caption == c.name && item.collapsible && item.contextValue == "sailContainer"
    ensures item.description == Some(c.image)
    ensures item.icon.id == "circle-filled" <==> c.state == "running"
    ensures item.icon.id == "circle-outline" <==> c.state != "running"
    ensures item.icon.color == Some("charts.green") <==> c.state == "running"
    ensures item.icon.color == Some("charts.red") <==> c.state != "running"
  {
    var running := c.state == "running";
    TreeItem(c.name, true, "sailContainer", Some(c.image),
      ThemeIcon(if running then "circle-filled" else "circle-outline",
                Some(if running then "charts.green" else "charts.red")))
  }

  /** `URL:PublishedPort -> TargetPort/Protocol`. */
  function PortLabel(p: Publisher): string
  {
    p.url + ":" + IntToString(p.publishedPort) + " -> " + IntToString(p.targetPort) + "/" + p.protocol
  }

  /**
   * Every port label starts with the URL and a colon; when the URL has no colon
   * of its own, the label gives that URL back before its first colon.
   */
  lemma PortLabelUrl(p: Publisher)
    ensures |PortLabel(p)| > |p.url| && PortLabel(p)[..|p.url| + 1] == p.url + ":"
    ensures ':' !in p.url ==> Split(PortLabel(p), ':')[0] == p.url
  {
    var rest := IntToString(p.publishedPort) + " -> " + IntToString(p.targetPort) + "/" + p.protocol;
    assert PortLabel(p) == (p.url + ":") + rest;
    if ':' !in p.url {
      assert PortLabel(p) == p.url + (":" + rest);
      SplitPrefix(p.url, ":" + rest, ':');
      assert Split(":" + rest, ':')[0] == "";
    }
  }

  /** A port node: the label above, a plug icon, nothing beneath it. */
  function PortItem(p: Publisher): (item: TreeItem)
    ensures item.caption == PortLabel(p) && !item.collapsible && item.contextValue == "sailPort"
    ensures item.description == None && item.icon == ThemeIcon("plug", None)
  {
    TreeItem(PortLabel(p), false, "sailPort", None, ThemeIcon("plug", None))
  }

  function GetTreeItem(n: Node): (item: TreeItem)
    ensures n.ContainerNode? ==> item == ContainerItem(n.record)
    ensures n.PortNode? ==> item == PortItem(n.port)
  {
    match n
    case ContainerNode(c) => ContainerItem(c)
    case PortNode(p) => PortItem(p)
  }

  /**
   * `getChildren`: a container's children are its ports, one node each, in order;
   * the root's are the fetched containers, one node each, in order.
   */
  function GetChildren(element: Option<TreeRecord>, folders: Option<seq<Folder>>,
                       exec: Utils.Invocation -> Utils.ExecResult, parse: string -> Option<TreeLine>): (r: seq<Node>)
    ensures element.Some? ==>
      |r| == |element.value.ports| && forall i :: 0 <= i < |r| ==> r[i] == PortNode(element.value.ports[i])
    ensures element.None? ==>
      var fetched := GetSailContainers(Utils.RunCommand(folders, TREE_QUERY, exec), parse);
      |r| == |fetched| && forall i :: 0 <= i < |r| ==> r[i] == ContainerNode(fetched[i])
  {
    match element
    case Some(c) => seq(|c.ports|, i requires 0 <= i < |c.ports| => PortNode(c.ports[i]))
    case None =>
      var fetched := GetSailContainers(Utils.RunCommand(folders, TREE_QUERY, exec), parse);
      seq(|fetched|, i requires 0 <= i < |fetched| => ContainerNode(fetched[i]))
  }
}
