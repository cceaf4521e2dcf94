/** The state of the settings screen and its reaction to every message (settings-tui/model.go). */
module SettingsModel {
  import opened Identity

  datatype Conn = Checking | Live | Partial | Unreachable

  datatype RowState =
    | RowChecking | RowRunning | RowPending | RowTerminating | RowError | RowNotCreated | RowUnavailable | RowForbidden

  datatype Dialog = NoDialog | ConfirmDelete | Deleting

  /** What the detail pane prints about a pod; kept and cleared as one. */
  datatype Details = Details(started: string, image: string, runtimeClass: string, restarts: int, requests: string, limits: string)

  const NO_DETAILS := Details("", "", "", 0, "", "")

  datatype PodInfo = PodInfo(deleting: bool, phase: string, details: Details)

  datatype Row = Row(template: string, name: string, state: RowState, stale: bool, reconnect: bool, phase: string, details: Details)

  /** One template's outcome of a refresh round. */
  datatype RowResult = GotPod(pod: PodInfo) | NotFound | Refused | OtherError

  datatype DeleteOutcome = Deleted | DeleteRefused | DeleteFailed

  /** The message line; only which message matters. */
  datatype Notice =
    | NoNotice | NoticeRefused | NoticeFailed | NoticeNoTemplates | NoticeNotLive | NoticeNotCreated | NoticeCancelled

  datatype Key = Up | Down | KeyR | KeyD | KeyY | KeyN | Esc | KeyQ | CtrlC | OtherKey

  datatype Msg =
    | WindowSize(width: int, height: int)
    | Tick
    | RefreshDone(results: seq<RowResult>)
    | DeleteDone(outcome: DeleteOutcome)
    | KeyPress(key: Key)

  datatype Cmd = TickCmd | RefreshCmd(names: seq<string>) | DeleteCmd(name: string) | Quit

  datatype State = State(maxBoxes: int, rows: seq<Row>, selected: int, conn: Conn, dialog: Dialog,
                         notice: Notice, width: int, height: int, refreshing: bool)

  /** Does the row stand for a pod the screen has seen? */
  predicate BoxExists(r: Row) {
    r.state != RowNotCreated && r.state != RowChecking && r.state != RowUnavailable && r.state != RowForbidden
  }

  /** What every reachable state satisfies and the code relies on when it indexes the rows. */
  predicate Indexed(s: State) {
    && (if s.rows == [] then s.selected == 0 else 0 <= s.selected < |s.rows|)
    && (s.dialog != NoDialog ==> s.rows != [])
  }

  function Names(rows: seq<Row>): (names: seq<string>)
    ensures |names| == |rows|
  {
    if rows == [] then [] else Names(rows[..|rows| - 1]) + [rows[|rows| - 1].name]
  }

  // ---- one row ----

  function ShowPod(r: Row, pod: PodInfo): Row {
    r.(stale := false, reconnect := false, phase := pod.phase, details := pod.details,
       state := if pod.deleting then RowTerminating
                else if pod.phase == "Running" then RowRunning
                else if pod.phase == "" || pod.phase == "Pending" then RowPending
                else RowError)
  }

  function ApplyResult(r: Row, result: RowResult): Row {
    match result
    case GotPod(pod) => ShowPod(r, pod)
    case NotFound => r.(state := RowNotCreated, stale := false, reconnect := false, phase := "", details := NO_DETAILS)
    case Refused =>
      r.(reconnect := true, stale := r.phase != "", state := if r.state == RowChecking then RowForbidden else r.state)
    case OtherError =>
      r.(reconnect := false, stale := r.phase != "", state := if r.state == RowChecking then RowUnavailable else r.state)
  }

  function ApplyResults(rows: seq<Row>, results: seq<RowResult>): (r: seq<Row>)
    requires |rows| == |results|
    ensures |r| == |rows|
    ensures forall i :: 0 <= i < |rows| ==> r[i] == ApplyResult(rows[i], results[i])
  {
    if rows == [] then []
    else ApplyResults(rows[..|rows| - 1], results[..|rows| - 1]) + [ApplyResult(rows[|rows| - 1], results[|rows| - 1])]
  }

  predicate IsFailure(result: RowResult) {
    result == Refused || result == OtherError
  }

  function Failures(results: seq<RowResult>): (n: nat)
    ensures n <= |results|
  {
    if results == [] then 0
    else Failures(results[..|results| - 1]) + if IsFailure(results[|results| - 1]) then 1 else 0
  }

  function ConnAfter(results: seq<RowResult>): Conn {
    if Failures(results) == 0 then Live else if Failures(results) == |results| then Unreachable else Partial
  }

  // ---- the whole screen ----

  function Clamp(index: int, length: int): int {
    if length == 0 then 0 else if index < 0 then 0 else if index >= length then length - 1 else index
  }

  function ApplyRefresh(s: State, results: seq<RowResult>): State {
    if |results| != |s.rows| then s
    else
      var conn := ConnAfter(results);
      s.(rows := ApplyResults(s.rows, results), conn := conn,
         notice := if conn == Live then NoNotice else s.notice,
         selected := Clamp(s.selected, |s.rows|))
  }

  function StartRefresh(s: State): (State, seq<Cmd>) {
    (s.(refreshing := true), [RefreshCmd(Names(s.rows))])
  }

  function ListKey(s: State, key: Key): (State, seq<Cmd>)
    requires Indexed(s)
  {
    match key
    case KeyQ => (s, [Quit])
    case CtrlC => (s, [Quit])
    case Up => (if s.selected > 0 then s.(selected := s.selected - 1) else s, [])
    case Down => (if s.selected < |s.rows| - 1 then s.(selected := s.selected + 1) else s, [])
    case KeyR => if !s.refreshing && |s.rows| > 0 then StartRefresh(s) else (s, [])
    case KeyD =>
      (if s.rows == [] then s.(notice := NoticeNoTemplates)
       else if s.conn != Live then s.(notice := NoticeNotLive)
       else if !BoxExists(s.rows[s.selected]) then s.(notice := NoticeNotCreated)
       else s.(notice := NoNotice, dialog := ConfirmDelete), [])
    case _ => (s, [])
  }

  function DialogKey(s: State, key: Key): (State, seq<Cmd>)
    requires Indexed(s) && s.dialog != NoDialog
  {
    if s.dialog == Deleting then (s, [])
    else match key
      case KeyY =>
        if s.conn != Live then (s.(dialog := NoDialog, notice := NoticeCancelled), [])
        else (s.(dialog := Deleting), [DeleteCmd(s.rows[s.selected].name)])
      case KeyN => (s.(dialog := NoDialog), [])
      case Esc => (s.(dialog := NoDialog), [])
      case KeyQ => (s.(dialog := NoDialog), [])
      case CtrlC => (s.(dialog := NoDialog), [])
      case _ => (s, [])
  }

  function UpdateState(s: State, msg: Msg): (State, seq<Cmd>)
    requires Indexed(s)
  {
    match msg
    case WindowSize(w, h) => (s.(width := w, height := h), [])
    case Tick =>
      if !s.refreshing && |s.rows| > 0 then (s.(refreshing := true), [TickCmd, RefreshCmd(Names(s.rows))])
      else (s, [TickCmd])
    case RefreshDone(results) => (ApplyRefresh(s.(refreshing := false), results), [])
    case DeleteDone(outcome) =>
      var s' := s.(dialog := NoDialog,
                   notice := match outcome case Deleted => NoNotice case DeleteRefused => NoticeRefused case DeleteFailed => NoticeFailed);
      if |s.rows| > 0 then StartRefresh(s') else (s', [])
    case KeyPress(key) => if s.dialog == NoDialog then ListKey(s, key) else DialogKey(s, key)
  }

  function NewRows(sha: Digest, owner: string, templates: seq<string>): (rows: seq<Row>)
    ensures |rows| == |templates|
    ensures forall i :: 0 <= i < |rows| ==> rows[i] == Row(templates[i], BoxPodName(sha, owner, templates[i]), RowChecking, false, false, "", NO_DETAILS)
  {
    if templates == [] then []
    else
      var t := templates[|templates| - 1];
      NewRows(sha, owner, templates[..|templates| - 1]) + [Row(t, BoxPodName(sha, owner, t), RowChecking, false, false, "", NO_DETAILS)]
  }

  function NewState(rows: seq<Row>, maxBoxes: int, width: int, height: int): State {
    State(maxBoxes, rows, 0, Checking, NoDialog, NoNotice, width, height, false)
  }

  function InitCmds(s: State): seq<Cmd> {
    [RefreshCmd(Names(s.rows)), TickCmd]
  }

  function CreatedCount(rows: seq<Row>): (n: nat)
    ensures n <= |rows|
  {
    if rows == [] then 0
    else CreatedCount(rows[..|rows| - 1]) + if BoxExists(rows[|rows| - 1]) then 1 else 0
  }

  /** The model the program runs: the rows are one array, updated in place. */
  class Model {
    const maxBoxes: int
    const rows: array<Row>
    var selected: int
    var conn: Conn
    var dialog: Dialog
    var notice: Notice
    var width: int
    var height: int
    var refreshing: bool

    ghost function View(): State
      reads this, rows
    {
      State(maxBoxes, rows[..], selected, conn, dialog, notice, width, height, refreshing)
    }

    constructor (sha: Digest, owner: string, templates: seq<string>, maxBoxes: int, width: int, height: int)
      ensures View() == NewState(NewRows(sha, owner, templates), maxBoxes, width, height)
      ensures fresh(rows)
    {
      this.maxBoxes := maxBoxes;
      var initial := NewRows(sha, owner, templates);
      rows := new Row[|initial|](i requires 0 <= i < |initial| => initial[i]);
      selected, conn, dialog, notice, refreshing := 0, Checking, NoDialog, NoNotice, false;
      this.width, this.height := width, height;
      new;
      assert rows[..] == initial;
    }

    method RowNames() returns (names: seq<string>)
      ensures names == Names(rows[..])
    {
      names := [];
      for i := 0 to rows.Length
        invariant names == Names(rows[..i])
      {
        assert rows[..i + 1][..i] == rows[..i];
        names := names + [rows[i].name];
      }
      assert rows[..rows.Length] == rows[..];
    }

    /** Fold one refresh round into the rows, in place, and count how many names answered. */
    method ApplyRows(results: seq<RowResult>) returns (ok: nat, failed: nat)
      requires |results| == rows.Length
      modifies rows
      ensures rows[..] == ApplyResults(old(rows[..]), results)
      ensures failed == Failures(results) && ok + failed == |results|
    {
      ok, failed := 0, 0;
      ghost var before := rows[..];
      for i := 0 to |results|
        invariant forall k :: 0 <= k < i ==> rows[k] == ApplyResult(before[k], results[k])
        invariant forall k :: i <= k < rows.Length ==> rows[k] == before[k]
        invariant failed == Failures(results[..i]) && ok + failed == i
      {
        assert results[..i + 1][..i] == results[..i];
        match results[i] {
          case GotPod(pod) =>
            ok := ok + 1;
            rows[i] := ShowPod(rows[i], pod);
          case NotFound =>
            ok := ok + 1;
            rows[i] := rows[i].(state := RowNotCreated, stale := false, reconnect := false, phase := "", details := NO_DETAILS);
          case Refused =>
            failed := failed + 1;
            rows[i] := rows[i].(reconnect := true, stale := rows[i].phase != "");
            if rows[i].state == RowChecking { rows[i] := rows[i].(state := RowForbidden); }
          case OtherError =>
            failed := failed + 1;
            rows[i] := rows[i].(reconnect := false, stale := rows[i].phase != "");
            if rows[i].state == RowChecking { rows[i] := rows[i].(state := RowUnavailable); }
        }
      }
      assert results[..|results|] == results;
    }

    method RefreshRows(results: seq<RowResult>)
      modifies this, rows
      ensures View() == ApplyRefresh(old(View()), results)
    {
      if |results| != rows.Length { return; }
      var ok, failed := ApplyRows(results);
      if failed == 0 {
        conn := Live;
      } else if ok == 0 {
        conn := Unreachable;
      } else {
        conn := Partial;
      }
      if conn == Live { notice := NoNotice; }
      selected := Clamp(selected, rows.Length);
    }

    method PressInList(key: Key) returns (cmds: seq<Cmd>)
      requires Indexed(View())
      modifies this
      ensures (View(), cmds) == ListKey(old(View()), key)
    {
      cmds := [];
      match key
      case KeyQ => cmds := [Quit];
      case CtrlC => cmds := [Quit];
      case Up => if selected > 0 { selected := selected - 1; }
      case Down => if selected < rows.Length - 1 { selected := selected + 1; }
      case KeyR =>
        if !refreshing && rows.Length > 0 {
          refreshing := true;
          var names := RowNames();
          cmds := [RefreshCmd(names)];
        }
      case KeyD =>
        if rows.Length == 0 { notice := NoticeNoTemplates; return; }
        if conn != Live { notice := NoticeNotLive; return; }
        if !BoxExists(rows[selected]) { notice := NoticeNotCreated; return; }
        notice := NoNotice;
        dialog := ConfirmDelete;
      case _ =>
    }

    method PressInDialog(key: Key) returns (cmds: seq<Cmd>)
      requires Indexed(View()) && dialog != NoDialog
      modifies this
      ensures (View(), cmds) == DialogKey(old(View()), key)
    {
      cmds := [];
      if dialog == Deleting { return; }
      match key
      case KeyY =>
        if conn != Live {
          dialog := NoDialog;
          notice := NoticeCancelled;
          return;
        }
        dialog := Deleting;
        cmds := [DeleteCmd(rows[selected].name)];
      case KeyN => dialog := NoDialog;
      case Esc => dialog := NoDialog;
      case KeyQ => dialog := NoDialog;
      case CtrlC => dialog := NoDialog;
      case _ =>
    }

    method Update(msg: Msg) returns (cmds: seq<Cmd>)
      requires Indexed(View())
      modifies this, rows
      ensures (View(), cmds) == UpdateState(old(View()), msg) && Indexed(View())
    {
      cmds := [];
      match msg
      case WindowSize(w, h) => width, height := w, h;
      case Tick =>
        cmds := [TickCmd];
        if !refreshing && rows.Length > 0 {
          refreshing := true;
          var names := RowNames();
          cmds := [TickCmd, RefreshCmd(names)];
        }
      case RefreshDone(results) =>
        refreshing := false;
        RefreshRows(results);
      case DeleteDone(outcome) =>
        dialog := NoDialog;
        if outcome == Deleted {
          notice := NoNotice;
        } else {
          notice := if outcome == DeleteRefused then NoticeRefused else NoticeFailed;
        }
        if rows.Length > 0 {
          refreshing := true;
          var names := RowNames();
          cmds := [RefreshCmd(names)];
        }
      case KeyPress(key) =>
        if dialog == NoDialog { cmds := PressInList(key); } else { cmds := PressInDialog(key); }
    }
  }
}
