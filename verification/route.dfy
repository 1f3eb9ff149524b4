/**
 * src/commands/artisan/Route.ts: the route list. `sail artisan route:list`
 * prints JSON records, which are flattened into a table of headers and rows
 * and shown in one webview panel that a 5-second interval keeps refreshing.
 * The class keeps its state in static fields: the table, the current panel,
 * whether the interval is on, and the handle of the last interval armed.
 */
module ArtisanRoute {
  import opened Wrappers
  import Utils
  import Host
  import Common

  const LIST_COMMAND := "route:list -v --json"
  const LIST_ERROR := "The route list could not be generated"

  /**
   * What one listing does outside the panel, in `run` and in every tick alike:
   * the artisan command runs, and on an error its callback shows the error
   * message with the process error.
   */
  function ListEffects(folders: Option<seq<Host.Folder>>, platform: string, info: Utils.ExecResult): seq<Common.CommonEffect>
  {
    Common.ExecArtisanCmd(LIST_COMMAND, folders, platform, info)
      + (if info.error.Some? then Common.ShowError(LIST_ERROR, info.error).1 else [])
  }

  /**
   * A listing runs `sail artisan route:list -v --json` in the first folder and
   * calls back once; the error message is shown, with the console hint and the
   * process error logged, exactly when the command fails.
   */
  lemma ListEffectsFacts(folders: Option<seq<Host.Folder>>, platform: string, info: Utils.ExecResult)
    ensures |ListEffects(folders, platform, info)| == if info.error.Some? then 7 else 3
    ensures ListEffects(folders, platform, info)[1] ==
      Common.Exec(Common.ShellLine(platform, Common.WorkingPath(folders), Common.ARTISAN_PREFIX + LIST_COMMAND), Common.MAX_BUFFER)
    ensures info.error.None? ==>
      forall e :: e in ListEffects(folders, platform, info) ==> !e.ErrorMessage? && !e.ConsoleError?
    ensures info.error.Some? ==>
      && ListEffects(folders, platform, info)[5] == Common.ConsoleError(info.error.value + Common.CONSOLE_HINT)
      && ListEffects(folders, platform, info)[6] == Common.ErrorMessage(LIST_ERROR + Common.CONSOLE_HINT)
  {
    var run := Common.ExecArtisanCmd(LIST_COMMAND, folders, platform, info);
    if info.error.None? {
      assert ListEffects(folders, platform, info) == run;
    } else {
      var shown := Common.ShowError(LIST_ERROR, info.error).1;
      assert shown == [Common.ConsoleError(info.error.value + Common.CONSOLE_HINT), Common.ErrorMessage(LIST_ERROR + Common.CONSOLE_HINT)];
      assert ListEffects(folders, platform, info) == run + shown;
    }
  }

  // ------------------------------------------------------------------ table

  /** A value of a route record; anything but null is shown as its text. */
  datatype RouteValue = Null | Text(text: string)

  /** A route record: its keys with their values, in the record's own key order. */
  type Record = seq<(string, RouteValue)>

  datatype Table = Table(headers: seq<string>, rows: seq<seq<string>>)

  function Keys(r: Record): seq<string>
  {
    seq(|r|, i requires 0 <= i < |r| => r[i].0)
  }

  /** `value !== null ? value : '-'`. */
  function CellText(v: RouteValue): string
  {
    if v.Null? then "-" else v.text
  }

  /** One row per record, in order, each holding that record's values in its key order, null as `-`. */
  predicate RowsOf(records: seq<Record>, rows: seq<seq<string>>)
  {
    && |rows| == |records|
    && (forall i :: 0 <= i < |records| ==> |rows[i]| == |records[i]|)
    && (forall i, j :: 0 <= i < |records| && 0 <= j < |records[i]| ==> rows[i][j] == CellText(records[i][j].1))
  }

  /** The table of a non-empty record list: the first record's keys as headers, and the rows above. */
  predicate TableOf(records: seq<Record>, t: Table)
  {
    |records| > 0 && t.headers == Keys(records[0]) && RowsOf(records, t.rows)
  }

  /** The `forEach`/`push` loops of `parseJson` that build the rows. */
  method FlattenRows(records: seq<Record>) returns (rows: seq<seq<string>>)
    ensures RowsOf(records, rows)
  {
    rows := [];
    var i := 0;
    while i < |records|
      invariant 0 <= i <= |records|
      invariant |rows| == i
      invariant forall k :: 0 <= k < i ==> |rows[k]| == |records[k]|
      invariant forall k, j :: 0 <= k < i && 0 <= j < |records[k]| ==> rows[k][j] == CellText(records[k][j].1)
    {
      var arr: seq<string> := [];
      var j := 0;
      while j < |records[i]|
        invariant 0 <= j <= |records[i]|
        invariant |arr| == j
        invariant forall m :: 0 <= m < j ==> arr[m] == CellText(records[i][m].1)
      {
        var value := records[i][j].1;
        var val := if value != Null then value.text else "-";
        arr := arr + [val];
        j := j + 1;
      }
      rows := rows + [arr];
      i := i + 1;
    }
  }

  // ------------------------------------------------------------------- html

  function HeaderCell(header: string): string
  {
    "<th>" + header + "</th>"
  }

  function DataCell(item: string): string
  {
    "<td>" + item + "</td>"
  }

  /** The `<th>` cells of some headers, one after another. */
  function HeaderCells(headers: seq<string>): string
  {
    if headers == [] then "" else HeaderCells(headers[..|headers| - 1]) + HeaderCell(headers[|headers| - 1])
  }

  /** The `<td>` cells of a row, one after another. */
  function DataCells(row: seq<string>): string
  {
    if row == [] then "" else DataCells(row[..|row| - 1]) + DataCell(row[|row| - 1])
  }

  function RowHtml(row: seq<string>): string
  {
    "<tr>" + DataCells(row) + "</tr>"
  }

  /** One `<tr>` per row, one after another; empty for no rows. */
  function RowsHtml(rows: seq<seq<string>>): string
  {
    if rows == [] then "" else RowsHtml(rows[..|rows| - 1]) + RowHtml(rows[|rows| - 1])
  }

  /** The cells of two header lists side by side are the cells of each, side by side. */
  lemma {:induction false} HeaderCellsAppend(a: seq<string>, b: seq<string>)
    ensures HeaderCells(a + b) == HeaderCells(a) + HeaderCells(b)
    decreases |b|
  {
    if b == [] {
      assert a + b == a;
    } else {
      var b' := b[..|b| - 1];
      var last := HeaderCell(b[|b| - 1]);
      assert (a + b)[..|a + b| - 1] == a + b';
      assert (a + b)[|a + b| - 1] == b[|b| - 1];
      HeaderCellsAppend(a, b');
      assert HeaderCells(a + b) == (HeaderCells(a) + HeaderCells(b')) + last;
      assert HeaderCells(b) == HeaderCells(b') + last;
    }
  }

  /** The html of two row lists in sequence is the html of each, in sequence. */
  lemma {:induction false} RowsHtmlAppend(a: seq<seq<string>>, b: seq<seq<string>>)
    ensures RowsHtml(a + b) == RowsHtml(a) + RowsHtml(b)
    decreases |b|
  {
    if b == [] {
      assert a + b == a;
    } else {
      var b' := b[..|b| - 1];
      var last := RowHtml(b[|b| - 1]);
      assert (a + b)[..|a + b| - 1] == a + b';
      assert (a + b)[|a + b| - 1] == b[|b| - 1];
      RowsHtmlAppend(a, b');
      assert RowsHtml(a + b) == (RowsHtml(a) + RowsHtml(b')) + last;
      assert RowsHtml(b) == RowsHtml(b') + last;
    }
  }

  /** The total length of the header texts. */
  function TextLength(headers: seq<string>): nat
  {
    if headers == [] then 0 else TextLength(headers[..|headers| - 1]) + |headers[|headers| - 1]|
  }

  /** Each header adds its own text and nine characters of markup. */
  lemma {:induction false} HeaderCellsLength(headers: seq<string>)
    ensures |HeaderCells(headers)| == 9 * |headers| + TextLength(headers)
    decreases |headers|
  {
    if headers != [] {
      var init := headers[..|headers| - 1];
      HeaderCellsLength(init);
      assert |HeaderCell(headers[|headers| - 1])| == |headers[|headers| - 1]| + 9;
      assert |HeaderCells(headers)| == |HeaderCells(init)| + |HeaderCell(headers[|headers| - 1])|;
    }
  }

  /** `drawHeaders`: `<tr>`, a `<th>` per header, `</tr>`. */
  method DrawHeaders(headers: seq<string>) returns (headerRows: string)
    ensures headerRows == "<tr>" + HeaderCells(headers) + "</tr>"
  {
    headerRows := "<tr>";
    var i := 0;
    while i < |headers|
      invariant 0 <= i <= |headers|
      invariant headerRows == "<tr>" + HeaderCells(headers[..i])
    {
      assert headers[..i + 1][..i] == headers[..i];
      headerRows := headerRows + "<th>" + headers[i] + "</th>";
      assert headerRows == "<tr>" + (HeaderCells(headers[..i]) + HeaderCell(headers[i]));
      i := i + 1;
    }
    assert headers[..i] == headers;
    headerRows := headerRows + "</tr>";
  }

  /** The inner loop of `drawRows`: `<tr>`, a `<td>` per item, `</tr>`. */
  method DrawRow(row: seq<string>) returns (rowHtml: string)
    ensures rowHtml == RowHtml(row)
  {
    rowHtml := "<tr>";
    var j := 0;
    while j < |row|
      invariant 0 <= j <= |row|
      invariant rowHtml == "<tr>" + DataCells(row[..j])
    {
      assert row[..j + 1][..j] == row[..j];
      rowHtml := rowHtml + "<td>" + row[j] + "</td>";
      assert rowHtml == "<tr>" + (DataCells(row[..j]) + DataCell(row[j]));
      j := j + 1;
    }
    assert row[..j] == row;
    rowHtml := rowHtml + "</tr>";
  }

  /** `drawRows`: one row after another; empty for no rows. */
  method DrawRows(rows: seq<seq<string>>) returns (bodyRows: string)
    ensures bodyRows == RowsHtml(rows)
  {
    bodyRows := "";
    var i := 0;
    while i < |rows|
      invariant 0 <= i <= |rows|
      invariant bodyRows == RowsHtml(rows[..i])
    {
      var rowHtml := DrawRow(rows[i]);
      bodyRows := bodyRows + rowHtml;
      assert rows[..i + 1][..i] == rows[..i];
      i := i + 1;
    }
    assert rows[..i] == rows;
  }

  // ------------------------------------------------------------ panel state

  /**
   * The static state of the command as written. Panels and interval handles are
   * named by numbers drawn from `nextId`; `timers` maps each live interval to
   * the panel it captured when it was armed.
   */
  class Route {
    var records: Option<Table>
    var panel: Option<nat>
    var intervalOn: bool
    var timeout: Option<nat>
    var timers: map<nat, nat>
    var nextId: nat

    /** Every live interval, the handle and the panel were created earlier. */
    predicate Valid()
      reads this
    {
      && (panel.Some? ==> panel.value < nextId)
      && (timeout.Some? ==> timeout.value < nextId)
      && (forall t :: t in timers ==> t < nextId && timers[t] < nextId)
    }

    constructor()
      ensures Valid()
      ensures records == None && panel == None && !intervalOn && timeout == None && timers == map[] && nextId == 0
    {
      records := None;
      panel := None;
      intervalOn := false;
      timeout := None;
      timers := map[];
      nextId := 0;
    }

    /** `parseJson`: throws (and leaves the table) on text that does not parse or on an empty list. */
    method ParseJson(jsonData: string, parse: string -> Option<seq<Record>>) returns (ok: bool)
      modifies this`records
      ensures ok <==> parse(jsonData).Some? && |parse(jsonData).value| > 0
      ensures ok ==> records.Some? && TableOf(parse(jsonData).value, records.value)
      ensures !ok ==> records == old(records)
    {
      var parsed := parse(jsonData);
      if parsed.None? || |parsed.value| == 0 {
        return false;
      }
      var headers := Keys(parsed.value[0]);
      var rows := FlattenRows(parsed.value);
      records := Some(Table(headers, rows));
      ok := true;
    }

    /** `openVirtualHtmlFile`: reveal the current panel, or create one when there is none. */
    method OpenVirtualHtmlFile() returns (p: nat)
      requires Valid()
      modifies this`panel, this`nextId
      ensures Valid()
      ensures old(panel).Some? ==> panel == old(panel) && nextId == old(nextId) && p == old(panel).value
      ensures old(panel).None? ==> panel == Some(old(nextId)) && nextId == old(nextId) + 1 && p == old(nextId)
    {
      if panel.Some? {
        p := panel.value;
      } else {
        p := nextId;
        panel := Some(p);
        nextId := nextId + 1;
      }
    }

    /** `ping`: arm an interval on the current panel, only with a panel and the flag off; the flag is left as it is. */
    method Ping()
      requires Valid()
      modifies this`timeout, this`timers, this`nextId
      ensures Valid()
      ensures old(panel).Some? && !old(intervalOn) ==>
        && timers == old(timers)[old(nextId) := old(panel).value]
        && timeout == Some(old(nextId)) && nextId == old(nextId) + 1
      ensures !(old(panel).Some? && !old(intervalOn)) ==>
        timers == old(timers) && timeout == old(timeout) && nextId == old(nextId)
    {
      if panel.Some? && !intervalOn {
        var t := nextId;
        timers := timers[t := panel.value];
        timeout := Some(t);
        nextId := nextId + 1;
      }
    }

    /** One tick of the live interval `t`: fetch the list again, re-parse on success, and set the flag. */
    method Tick(t: nat, folders: Option<seq<Host.Folder>>, platform: string, info: Utils.ExecResult, parse: string -> Option<seq<Record>>)
      returns (effects: seq<Common.CommonEffect>)
      requires Valid() && t in timers
      modifies this`records, this`intervalOn
      ensures Valid()
      ensures intervalOn
      ensures effects == ListEffects(folders, platform, info)
      ensures info.error.None? && parse(info.stdout).Some? && |parse(info.stdout).value| > 0 ==>
        records.Some? && TableOf(parse(info.stdout).value, records.value)
      ensures !(info.error.None? && parse(info.stdout).Some? && |parse(info.stdout).value| > 0) ==> records == old(records)
    {
      effects := ListEffects(folders, platform, info);
      if info.error.None? {
        var _ := ParseJson(info.stdout, parse);
      }
      intervalOn := true;
    }

    /** The panel's dispose handler: clear the last interval armed, reset the flag, forget the panel. */
    method DisposePanel()
      requires Valid() && panel.Some?
      modifies this`timers, this`intervalOn, this`panel
      ensures Valid()
      ensures panel == None && !intervalOn
      ensures timers == if old(timeout).Some? then old(timers) - {old(timeout).value} else old(timers)
    {
      if timeout.Some? {
        timers := timers - {timeout.value};
      }
      intervalOn := false;
      panel := None;
    }

    /**
     * `run()`: list the routes; on success parse them, open the panel and ping.
     * The progress notification ends only on that path: an error only shows a
     * message, and a list that does not parse throws before `resolve`.
     */
    method Run(folders: Option<seq<Host.Folder>>, platform: string, info: Utils.ExecResult, parse: string -> Option<seq<Record>>)
      returns (progressEnded: bool, effects: seq<Common.CommonEffect>)
      requires Valid()
      modifies this`records, this`panel, this`timeout, this`timers, this`nextId
      ensures Valid()
      ensures effects == ListEffects(folders, platform, info)
      ensures progressEnded <==> info.error.None? && parse(info.stdout).Some? && |parse(info.stdout).value| > 0
      ensures progressEnded ==> panel.Some? && records.Some? && TableOf(parse(info.stdout).value, records.value)
      ensures progressEnded ==> (if old(panel).Some? then panel == old(panel) else panel == Some(old(nextId)))
      ensures progressEnded && !intervalOn ==>
        && timeout.Some? && timeout.value >= old(nextId)
        && timers == old(timers)[timeout.value := panel.value]
      ensures progressEnded && intervalOn ==> timers == old(timers)
      ensures !progressEnded ==> panel == old(panel) && timers == old(timers) && timeout == old(timeout) && records == old(records)
    {
      effects := ListEffects(folders, platform, info);
      if info.error.Some? {
        return false, effects;
      }
      var ok := ParseJson(info.stdout, parse);
      if !ok {
        return false, effects;
      }
      var _ := OpenVirtualHtmlFile();
      Ping();
      progressEnded := true;
    }
  }

  /** A route list of one route, for the scenarios below. */
  function OneRoute(jsonData: string): Option<seq<Record>>
  {
    Some([[("uri", Text("/")), ("name", Null)]])
  }

  const LISTED := Utils.ExecResult(None, "[{\"uri\":\"/\",\"name\":null}]", "")
  const FAILED := Utils.ExecResult(Some("Command failed"), "", "")

  /**
   * The command as written, run twice within one refresh period and then closed:
   * both runs arm an interval, closing clears only the second, and the first
   * keeps ticking. Its tick turns the flag back on with no panel open, so the
   * next panel opened is never refreshed.
   */
  method TimerLeak(platform: string) returns (leaked: nat, nextPanelRefreshed: bool)
    ensures leaked == 1
    ensures !nextPanelRefreshed
  {
    var r, first := RunTwiceThenClose(platform);
    leaked := |r.timers|;
    nextPanelRefreshed := TickThenReopen(r, first, platform);
  }

  /** The first half of `TimerLeak`: after two runs and a close, the first interval is still live, on panel 0. */
  method RunTwiceThenClose(platform: string) returns (r: Route, first: nat)
    ensures fresh(r) && r.Valid()
    ensures r.timers == map[first := 0] && r.panel == None && r.nextId > 0
  {
    r := new Route();
    var _, _ := r.Run(None, platform, LISTED, OneRoute);
    first := r.timeout.value;
    var _, _ := r.Run(None, platform, LISTED, OneRoute);
    r.DisposePanel();
  }

  /** The second half of `TimerLeak`: the leaked interval ticks, and the panel opened next gets no interval of its own. */
  method TickThenReopen(r: Route, first: nat, platform: string) returns (refreshed: bool)
    requires r.Valid() && r.timers == map[first := 0] && r.panel == None && r.nextId > 0
    modifies r
    ensures !refreshed
  {
    var _ := r.Tick(first, None, platform, FAILED, OneRoute);
    var _, _ := r.Run(None, platform, LISTED, OneRoute);
    var p := r.panel.value;
    assert r.timers == map[first := 0] && p != 0;
    refreshed := p in r.timers.Values;
  }


  /**
   * The same state with the flag set when an interval is armed, as the guard in
   * `ping` evidently intends: at most one interval is ever live, it refreshes
   * the current panel, and closing the panel clears it.
   */
  class GuardedRoute {
    var records: Option<Table>
    var panel: Option<nat>
    var intervalOn: bool
    var timeout: Option<nat>
    var timers: map<nat, nat>
    var nextId: nat

    predicate Valid()
      reads this
    {
      && (panel.Some? ==> panel.value < nextId)
      && (intervalOn ==> panel.Some? && timeout.Some? && timers == map[timeout.value := panel.value])
      && (!intervalOn ==> timers == map[])
    }

    constructor()
      ensures Valid()
      ensures records == None && panel == None && !intervalOn && timers == map[]
    {
      records := None;
      panel := None;
      intervalOn := false;
      timeout := None;
      timers := map[];
      nextId := 0;
    }

    method ParseJson(jsonData: string, parse: string -> Option<seq<Record>>) returns (ok: bool)
      modifies this`records
      ensures ok <==> parse(jsonData).Some? && |parse(jsonData).value| > 0
      ensures ok ==> records.Some? && TableOf(parse(jsonData).value, records.value)
      ensures !ok ==> records == old(records)
    {
      var parsed := parse(jsonData);
      if parsed.None? || |parsed.value| == 0 {
        return false;
      }
      var rows := FlattenRows(parsed.value);
      records := Some(Table(Keys(parsed.value[0]), rows));
      ok := true;
    }

    method OpenVirtualHtmlFile() returns (p: nat)
      requires Valid()
      modifies this`panel, this`nextId
      ensures Valid()
      ensures old(panel).Some? ==> panel == old(panel) && p == old(panel).value
      ensures old(panel).None? ==> panel == Some(old(nextId)) && p == old(nextId)
      ensures timers == old(timers)
    {
      if panel.Some? {
        p := panel.value;
      } else {
        p := nextId;
        panel := Some(p);
        nextId := nextId + 1;
      }
    }

    /** Arm an interval on the current panel unless one is on, and set the flag at once. */
    method Ping()
      requires Valid()
      modifies this`intervalOn, this`timeout, this`timers, this`nextId
      ensures Valid()
      ensures panel.Some? ==> intervalOn && timers.Values == {panel.value}
      ensures panel.None? ==> timers == old(timers)
    {
      if panel.Some? && !intervalOn {
        var t := nextId;
        timers := map[t := panel.value];
        timeout := Some(t);
        nextId := nextId + 1;
        intervalOn := true;
      }
      if panel.Some? {
        assert timeout.value in timers;
      }
    }

    method Tick(t: nat, folders: Option<seq<Host.Folder>>, platform: string, info: Utils.ExecResult, parse: string -> Option<seq<Record>>)
      returns (effects: seq<Common.CommonEffect>)
      requires Valid() && t in timers
      modifies this`records
      ensures Valid()
      ensures effects == ListEffects(folders, platform, info)
      ensures info.error.None? && parse(info.stdout).Some? && |parse(info.stdout).value| > 0 ==>
        records.Some? && TableOf(parse(info.stdout).value, records.value)
      ensures !(info.error.None? && parse(info.stdout).Some? && |parse(info.stdout).value| > 0) ==> records == old(records)
    {
      effects := ListEffects(folders, platform, info);
      if info.error.None? {
        var _ := ParseJson(info.stdout, parse);
      }
    }

    method DisposePanel()
      requires Valid() && panel.Some?
      modifies this`timers, this`intervalOn, this`panel
      ensures Valid()
      ensures panel == None && !intervalOn && timers == map[]
    {
      if timeout.Some? {
        timers := timers - {timeout.value};
      }
      intervalOn := false;
      panel := None;
    }

    method Run(folders: Option<seq<Host.Folder>>, platform: string, info: Utils.ExecResult, parse: string -> Option<seq<Record>>)
      returns (progressEnded: bool, effects: seq<Common.CommonEffect>)
      requires Valid()
      modifies this`records, this`panel, this`intervalOn, this`timeout, this`timers, this`nextId
      ensures Valid()
      ensures effects == ListEffects(folders, platform, info)
      ensures progressEnded <==> info.error.None? && parse(info.stdout).Some? && |parse(info.stdout).value| > 0
      ensures progressEnded ==> panel.Some? && intervalOn && timers.Values == {panel.value}
      ensures !progressEnded ==> panel == old(panel) && timers == old(timers) && records == old(records)
    {
      effects := ListEffects(folders, platform, info);
      if info.error.Some? {
        return false, effects;
      }
      var ok := ParseJson(info.stdout, parse);
      if !ok {
        return false, effects;
      }
      var _ := OpenVirtualHtmlFile();
      Ping();
      progressEnded := true;
    }
  }

  /** The scenario of `TimerLeak` on the guarded state: nothing is left ticking and the next panel is refreshed. */
  method GuardedNoLeak(platform: string) returns (leaked: nat, nextPanelRefreshed: bool)
    ensures leaked == 0
    ensures nextPanelRefreshed
  {
    var r := new GuardedRoute();
    var _, _ := r.Run(None, platform, LISTED, OneRoute);
    var _, _ := r.Run(None, platform, LISTED, OneRoute);
    r.DisposePanel();
    leaked := |r.timers|;
    var _, _ := r.Run(None, platform, LISTED, OneRoute);
    var p := r.panel.value;
    nextPanelRefreshed := p in r.timers.Values;
  }
}
