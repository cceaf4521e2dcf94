/** Every run of the settings screen: keys, resizes and ticks at any time, and completions of the
    commands that are outstanding, in any order (settings-tui/model.go). */
module SettingsRuns {
  import opened Identity
  import opened SettingsModel

  /** A refresh on its way. `epoch` counts the deletes completed when it was issued. */
  datatype Refresh = Refresh(names: seq<string>, epoch: nat)

  /** A refresh round that was applied: when it was issued, and its answers. */
  datatype Round = NoRound | Answered(epoch: nat, results: seq<RowResult>)

  /** `dialogRow` remembers the row on which `d` opened the current dialog, `shown` the round applied last,
      and `sinceOpen` the round applied last since `d` opened the dialog. */
  datatype World = World(state: State, refreshes: multiset<Refresh>, deletes: multiset<string>, deletesDone: nat, dialogRow: int,
                         shown: Round, sinceOpen: Round)

  datatype Event =
    | Press(key: Key)
    | Resize(width: int, height: int)
    | TickFires
    | RefreshReturns(refresh: Refresh, results: seq<RowResult>)
    | DeleteReturns(name: string, outcome: DeleteOutcome)

  /** A completion arrives only for an outstanding command; a refresh answers every name it asked for. */
  predicate Enabled(w: World, e: Event) {
    match e
    case RefreshReturns(r, results) => r in w.refreshes && |results| == |r.names|
    case DeleteReturns(name, _) => name in w.deletes
    case _ => true
  }

  function MsgOf(e: Event): Msg {
    match e
    case Press(key) => KeyPress(key)
    case Resize(w, h) => WindowSize(w, h)
    case TickFires => Tick
    case RefreshReturns(_, results) => RefreshDone(results)
    case DeleteReturns(_, outcome) => DeleteDone(outcome)
  }

  function NewRefreshes(cmds: seq<Cmd>, epoch: nat): multiset<Refresh>
    decreases |cmds|
  {
    if cmds == [] then multiset{}
    else (if cmds[0].RefreshCmd? then multiset{Refresh(cmds[0].names, epoch)} else multiset{}) + NewRefreshes(cmds[1..], epoch)
  }

  function NewDeletes(cmds: seq<Cmd>): multiset<string>
    decreases |cmds|
  {
    if cmds == [] then multiset{}
    else (if cmds[0].DeleteCmd? then multiset{cmds[0].name} else multiset{}) + NewDeletes(cmds[1..])
  }

  function CmdsOf(w: World, e: Event): seq<Cmd>
    requires Indexed(w.state)
  {
    UpdateState(w.state, MsgOf(e)).1
  }

  /** The round an event applies, if any; an answer of the wrong length is dropped. */
  function RoundOf(w: World, e: Event): Round {
    if e.RefreshReturns? && |e.results| == |w.state.rows| then Answered(e.refresh.epoch, e.results) else NoRound
  }

  function Latest(round: Round, before: Round): Round {
    if round.Answered? then round else before
  }

  predicate Opens(before: State, after: State) {
    before.dialog == NoDialog && after.dialog == ConfirmDelete
  }

  /** The world after an event. An event that is not enabled does not happen. */
  function Happen(w: World, e: Event): World
    requires Indexed(w.state)
  {
    if !Enabled(w, e) then w
    else
      var (s', cmds) := UpdateState(w.state, MsgOf(e));
      var done := if e.DeleteReturns? then w.deletesDone + 1 else w.deletesDone;
      World(s',
            (if e.RefreshReturns? then w.refreshes - multiset{e.refresh} else w.refreshes) + NewRefreshes(cmds, done),
            (if e.DeleteReturns? then w.deletes - multiset{e.name} else w.deletes) + NewDeletes(cmds),
            done,
            if Opens(w.state, s') then s'.selected else w.dialogRow,
            Latest(RoundOf(w, e), w.shown),
            if Opens(w.state, s') then NoRound else Latest(RoundOf(w, e), w.sinceOpen))
  }

  function Start(s: State): World {
    World(s, NewRefreshes(InitCmds(s), 0), NewDeletes(InitCmds(s)), 0, 0, NoRound, NoRound)
  }

  /** A screen as `newModel` builds it. */
  ghost predicate Initial(s: State) {
    && s.selected == 0 && s.conn == Checking && s.dialog == NoDialog && !s.refreshing
    && forall i :: 0 <= i < |s.rows| ==> s.rows[i].state == RowChecking && !s.rows[i].stale && !s.rows[i].reconnect && s.rows[i].phase == ""
  }

  /** The screen the program builds has one row per template, with the owner's box name, and is one from
      which every run property applies. */
  lemma NewScreenIsInitial(sha: Digest, owner: string, templates: seq<string>, maxBoxes: int, width: int, height: int)
    ensures var s := NewState(NewRows(sha, owner, templates), maxBoxes, width, height);
      && Indexed(s) && Initial(s) && |s.rows| == |templates| && s.maxBoxes == maxBoxes
      && forall i :: 0 <= i < |templates| ==> s.rows[i].template == templates[i] && s.rows[i].name == BoxPodName(sha, owner, templates[i])
  {
    hide BoxPodName;
  }

  lemma StepStaysIndexed(w: World, e: Event)
    requires Indexed(w.state)
    ensures Indexed(Happen(w, e).state)
  {
    if Enabled(w, e) { UpdateStaysIndexed(w.state, MsgOf(e)); }
    hide UpdateState, MsgOf, NewRefreshes, NewDeletes, Indexed;
  }

  lemma UpdateStaysIndexed(s: State, msg: Msg)
    requires Indexed(s)
    ensures Indexed(UpdateState(s, msg).0)
  {
    hide Names, ConnAfter;
  }

  function Run(s: State, events: seq<Event>): (w: World)
    requires Indexed(s)
    ensures Indexed(w.state)
  {
    if events == [] then Start(s)
    else
      StepStaysIndexed(Run(s, events[..|events| - 1]), events[|events| - 1]);
      Happen(Run(s, events[..|events| - 1]), events[|events| - 1])
  }

  // ---- what every reachable state satisfies ----

  /** The row's state was confirmed by the latest refresh. */
  predicate VouchedFor(r: Row) {
    !r.stale && !r.reconnect &&
    (r.state == RowRunning || r.state == RowPending || r.state == RowTerminating || r.state == RowError || r.state == RowNotCreated)
  }

  ghost predicate SameRows(rows: seq<Row>, rows0: seq<Row>) {
    |rows| == |rows0| && forall i :: 0 <= i < |rows| ==> rows[i].template == rows0[i].template && rows[i].name == rows0[i].name
  }

  ghost predicate Honest(s: State) {
    && (s.conn == Live ==> forall i :: 0 <= i < |s.rows| ==> VouchedFor(s.rows[i]))
    && (forall i :: 0 <= i < |s.rows| ==> (s.rows[i].stale ==> s.rows[i].phase != ""))
  }

  ghost predicate DialogSound(w: World) {
    && (w.state.dialog != NoDialog ==> w.dialogRow == w.state.selected && 0 <= w.dialogRow < |w.state.rows|)
    && w.deletes == if w.state.dialog == Deleting then multiset{w.state.rows[w.dialogRow].name} else multiset{}
  }

  ghost predicate RefreshesSound(w: World) {
    && (forall r :: r in w.refreshes ==> |r.names| == |w.state.rows| && r.epoch <= w.deletesDone)
    && |w.refreshes| <= 1 + w.deletesDone + (if w.state.refreshing then 1 else 0)
  }

  ghost predicate Sound(w: World, rows0: seq<Row>) {
    Indexed(w.state) && SameRows(w.state.rows, rows0) && Honest(w.state) && DialogSound(w) && RefreshesSound(w)
  }

  lemma {:induction false} NoFailuresMeansAnswered(results: seq<RowResult>)
    requires Failures(results) == 0
    ensures forall i :: 0 <= i < |results| ==> !IsFailure(results[i])
  {
    if results != [] { NoFailuresMeansAnswered(results[..|results| - 1]); }
  }

  lemma RefreshStaysHonest(s: State, results: seq<RowResult>)
    requires Indexed(s) && Honest(s) && |results| == |s.rows|
    ensures var s' := ApplyRefresh(s, results);
      && Honest(s') && SameRows(s'.rows, s.rows)
      && s'.selected == s.selected && s'.dialog == s.dialog && s'.refreshing == s.refreshing
  {
    if Failures(results) == 0 { NoFailuresMeansAnswered(results); }
  }

  lemma CommandCounts(names: seq<string>, name: string, epoch: nat)
    ensures NewRefreshes([], epoch) == multiset{} && NewDeletes([]) == multiset{}
    ensures NewRefreshes([TickCmd], epoch) == multiset{} && NewDeletes([TickCmd]) == multiset{}
    ensures NewRefreshes([Quit], epoch) == multiset{} && NewDeletes([Quit]) == multiset{}
    ensures NewRefreshes([RefreshCmd(names)], epoch) == multiset{Refresh(names, epoch)} && NewDeletes([RefreshCmd(names)]) == multiset{}
    ensures NewRefreshes([TickCmd, RefreshCmd(names)], epoch) == multiset{Refresh(names, epoch)} && NewDeletes([TickCmd, RefreshCmd(names)]) == multiset{}
    ensures NewRefreshes([RefreshCmd(names), TickCmd], epoch) == multiset{Refresh(names, epoch)} && NewDeletes([RefreshCmd(names), TickCmd]) == multiset{}
    ensures NewRefreshes([DeleteCmd(name)], epoch) == multiset{} && NewDeletes([DeleteCmd(name)]) == multiset{name}
  {
    assert [TickCmd, RefreshCmd(names)][1..] == [RefreshCmd(names)];
    assert [RefreshCmd(names), TickCmd][1..] == [TickCmd];
  }

  /** The events that send a refresh, and the one that sends a delete. */
  predicate SendsRefresh(s: State, e: Event) {
    && s.rows != []
    && match e
       case TickFires => !s.refreshing
       case Press(key) => key == KeyR && s.dialog == NoDialog && !s.refreshing
       case DeleteReturns(_, _) => true
       case _ => false
  }

  predicate SendsDelete(s: State, e: Event) {
    e == Press(KeyY) && s.dialog == ConfirmDelete && s.conn == Live
  }

  lemma CommandsSent(w: World, e: Event)
    requires Indexed(w.state)
    ensures var cmds := CmdsOf(w, e);
      && (SendsDelete(w.state, e) ==> cmds == [DeleteCmd(w.state.rows[w.state.selected].name)])
      && (SendsRefresh(w.state, e) ==> cmds == [RefreshCmd(Names(w.state.rows))] || cmds == [TickCmd, RefreshCmd(Names(w.state.rows))])
      && (!SendsDelete(w.state, e) && !SendsRefresh(w.state, e) ==> cmds == [] || cmds == [TickCmd] || cmds == [Quit])
  {
    hide ApplyRefresh;
  }

  lemma Effects(w: World, e: Event)
    requires Indexed(w.state) && Enabled(w, e)
    ensures var w' := Happen(w, e);
      && w'.refreshes == (if e.RefreshReturns? then w.refreshes - multiset{e.refresh} else w.refreshes)
                         + (if SendsRefresh(w.state, e) then multiset{Refresh(Names(w.state.rows), w'.deletesDone)} else multiset{})
      && w'.deletes == (if e.DeleteReturns? then w.deletes - multiset{e.name} else w.deletes)
                       + (if SendsDelete(w.state, e) then multiset{w.state.rows[w.state.selected].name} else multiset{})
      && w'.deletesDone == w.deletesDone + (if e.DeleteReturns? then 1 else 0)
      && w'.state == UpdateState(w.state, MsgOf(e)).0
  {
    CommandsSent(w, e);
    HappenSends(w, e);
    var w', cmds := Happen(w, e), CmdsOf(w, e);
    var name := if SendsDelete(w.state, e) then w.state.rows[w.state.selected].name else "";
    CommandCounts(Names(w.state.rows), name, w'.deletesDone);
    hide Happen, CmdsOf, UpdateState, NewRefreshes, NewDeletes, SendsRefresh, SendsDelete, Names;
  }

  lemma HappenSends(w: World, e: Event)
    requires Indexed(w.state) && Enabled(w, e)
    ensures var w' := Happen(w, e);
      && w'.refreshes == (if e.RefreshReturns? then w.refreshes - multiset{e.refresh} else w.refreshes) + NewRefreshes(CmdsOf(w, e), w'.deletesDone)
      && w'.deletes == (if e.DeleteReturns? then w.deletes - multiset{e.name} else w.deletes) + NewDeletes(CmdsOf(w, e))
      && w'.deletesDone == w.deletesDone + (if e.DeleteReturns? then 1 else 0)
      && w'.state == UpdateState(w.state, MsgOf(e)).0
  {
    hide UpdateState, NewRefreshes, NewDeletes;
  }

  lemma UpdateKeepsRows(s: State, e: Event, rows0: seq<Row>)
    requires Indexed(s) && Honest(s) && SameRows(s.rows, rows0)
    requires e.RefreshReturns? ==> |e.results| == |s.rows|
    ensures var s' := UpdateState(s, MsgOf(e)).0;
      Honest(s') && SameRows(s'.rows, rows0)
  {
    if e.RefreshReturns? {
      RefreshStaysHonest(s.(refreshing := false), e.results);
      hide ApplyRefresh;
    }
  }

  /** How one event moves the dialog, the selection and the refreshing flag. */
  lemma ScreenMoves(s: State, e: Event)
    requires Indexed(s) && Honest(s)
    requires e.RefreshReturns? ==> |e.results| == |s.rows|
    ensures var s' := UpdateState(s, MsgOf(e)).0;
      && (s'.dialog == Deleting <==> SendsDelete(s, e) || (s.dialog == Deleting && !e.DeleteReturns?))
      && (s.dialog != NoDialog && s'.dialog != NoDialog ==> s'.dialog == s.dialog || SendsDelete(s, e))
      && (s.dialog != NoDialog ==> s'.selected == s.selected)
      && (s.dialog == NoDialog && s'.dialog != NoDialog ==> s'.dialog == ConfirmDelete && s'.selected == s.selected && s.rows != [])
      && s'.refreshing == (SendsRefresh(s, e) || (s.refreshing && !e.RefreshReturns?))
  {
    if e.RefreshReturns? {
      RefreshStaysHonest(s.(refreshing := false), e.results);
      hide ApplyRefresh;
    }
  }

  /** What an event does to the dialog, the outstanding delete and the remembered row. */
  lemma DialogKept(w: World, w': World, opens: bool, sent: bool, done: bool)
    requires DialogSound(w) && Indexed(w.state) && Indexed(w'.state) && SameRows(w'.state.rows, w.state.rows)
    requires done ==> w.state.dialog == Deleting && w'.state.dialog == NoDialog
    requires sent ==> w.state.dialog == ConfirmDelete && w'.state.dialog == Deleting
    requires opens <==> Opens(w.state, w'.state)
    requires !opens && !sent && !done && w'.state.dialog != NoDialog ==> w'.state.dialog == w.state.dialog
    requires w.state.dialog != NoDialog ==> w'.state.selected == w.state.selected
    requires !opens ==> !(w.state.dialog == NoDialog && w'.state.dialog != NoDialog)
    requires w.state.dialog == Deleting ==> done || w'.state.dialog == Deleting
    requires w'.dialogRow == if opens then w'.state.selected else w.dialogRow
    requires w'.deletes == (if done then multiset{} else w.deletes) + (if sent then multiset{w.state.rows[w.state.selected].name} else multiset{})
    ensures DialogSound(w')
  {}

  lemma StepKeepsDialog(w: World, e: Event, rows0: seq<Row>)
    requires Sound(w, rows0) && Enabled(w, e) && SameRows(UpdateState(w.state, MsgOf(e)).0.rows, w.state.rows)
    requires e.RefreshReturns? ==> |e.results| == |w.state.rows|
    ensures DialogSound(Happen(w, e))
  {
    Effects(w, e);
    ScreenMoves(w.state, e);
    StepStaysIndexed(w, e);
    var w' := Happen(w, e);
    assert w'.dialogRow == if Opens(w.state, w'.state) then w'.state.selected else w.dialogRow;
    assert e.DeleteReturns? ==> w.deletes == multiset{e.name} && w'.state.dialog == NoDialog;
    hide UpdateState, Happen, NewRefreshes, NewDeletes, Honest, RefreshesSound, SameRows, SendsRefresh;
    DialogKept(w, w', Opens(w.state, w'.state), SendsDelete(w.state, e), e.DeleteReturns?);
  }

  /** What an event does to the refreshes on their way. */
  lemma RefreshesKept(w: World, w': World, back: bool, r: Refresh, sent: bool)
    requires RefreshesSound(w) && |w'.state.rows| == |w.state.rows| && w.deletesDone <= w'.deletesDone
    requires (back ==> r in w.refreshes) && !(back && sent)
    requires w'.state.refreshing == (sent || (w.state.refreshing && !back))
    requires sent && w.state.refreshing ==> w.deletesDone < w'.deletesDone
    requires w'.refreshes == (if back then w.refreshes - multiset{r} else w.refreshes) +
                             (if sent then multiset{Refresh(Names(w.state.rows), w'.deletesDone)} else multiset{})
    ensures RefreshesSound(w')
  {
    Tally(w.refreshes, back, r, sent, Refresh(Names(w.state.rows), w'.deletesDone));
    hide Names;
  }

  lemma StepKeepsRefreshes(w: World, e: Event, rows0: seq<Row>)
    requires Sound(w, rows0) && Enabled(w, e) && SameRows(UpdateState(w.state, MsgOf(e)).0.rows, w.state.rows)
    requires e.RefreshReturns? ==> |e.results| == |w.state.rows|
    ensures RefreshesSound(Happen(w, e))
  {
    Effects(w, e);
    ScreenMoves(w.state, e);
    var w' := Happen(w, e);
    assert |w'.state.rows| == |w.state.rows|;
    hide UpdateState, Happen, NewRefreshes, NewDeletes, Honest, DialogSound, RefreshesSound, SameRows, Names, SendsDelete;
    RefreshesKept(w, w', e.RefreshReturns?, if e.RefreshReturns? then e.refresh else Refresh([], 0), SendsRefresh(w.state, e));
  }

  /** Counting commands out and back in. */
  lemma Tally(before: multiset<Refresh>, answered: bool, r: Refresh, sent: bool, s: Refresh)
    requires answered ==> r in before
    ensures var after := (if answered then before - multiset{r} else before) + (if sent then multiset{s} else multiset{});
      && |after| == |before| - (if answered then 1 else 0) + (if sent then 1 else 0)
      && forall x :: x in after ==> x in before || (sent && x == s)
  {}

  lemma StepStaysSound(w: World, e: Event, rows0: seq<Row>)
    requires Sound(w, rows0)
    ensures Sound(Happen(w, e), rows0)
  {
    if Enabled(w, e) {
      assert e.RefreshReturns? ==> |e.results| == |w.state.rows|;
      UpdateKeepsRows(w.state, e, rows0);
      UpdateKeepsRows(w.state, e, w.state.rows);
      StepKeepsDialog(w, e, rows0);
      StepKeepsRefreshes(w, e, rows0);
      StepStaysIndexed(w, e);
      hide UpdateState, DialogSound, RefreshesSound;
    }
  }

  lemma {:induction false} RunStaysSound(s: State, events: seq<Event>)
    requires Indexed(s) && Initial(s)
    ensures Sound(Run(s, events), s.rows)
  {
    if events == [] {
      CommandCounts(Names(s.rows), "", 0);
    } else {
      RunStaysSound(s, events[..|events| - 1]);
      StepStaysSound(Run(s, events[..|events| - 1]), events[|events| - 1], s.rows);
    }
  }

  // ---- the properties ----

  /** Live means every row is vouched for. In every reachable state: a Live screen shows only rows
      the latest refresh confirmed; rows keep their template and pod name; the selection is in
      range; and only a row with a known phase is called stale. */
  lemma {:induction false} LiveMeansVouchedFor(s: State, events: seq<Event>, i: nat)
    requires Indexed(s) && Initial(s) && i < |s.rows|
    ensures var w := Run(s, events).state;
      && |w.rows| == |s.rows| && 0 <= w.selected < |w.rows|
      && w.rows[i].template == s.rows[i].template && w.rows[i].name == s.rows[i].name
      && (w.conn == Live ==> VouchedFor(w.rows[i]))
      && (w.rows[i].stale ==> w.rows[i].phase != "")
  {
    RunStaysSound(s, events);
  }

  /** Delete safety. In every run, a step that issues a delete is the key `y`, pressed in an open
      confirmation while the screen is Live; it names the pod of the row on which `d` opened the
      dialog, that row is neither stale nor waiting for a reconnect, and no other delete is
      outstanding. Conversely `y` in such a dialog always issues it. */
  lemma {:induction false} DeleteSafety(s: State, events: seq<Event>, e: Event, name: string)
    requires Indexed(s) && Initial(s)
    ensures var w := Run(s, events);
      DeleteCmd(name) in CmdsOf(w, e) <==>
      && e == Press(KeyY) && w.state.dialog == ConfirmDelete && w.state.conn == Live
      && 0 <= w.dialogRow < |s.rows| && name == s.rows[w.dialogRow].name
    ensures var w := Run(s, events);
      w.state.dialog == ConfirmDelete && w.state.conn == Live ==>
      && 0 <= w.dialogRow < |w.state.rows|
      && !w.state.rows[w.dialogRow].stale && !w.state.rows[w.dialogRow].reconnect
      && w.deletes == multiset{}
  {
    RunStaysSound(s, events);
    var w := Run(s, events);
    CommandsSent(w, e);
    hide Run, UpdateState;
  }

  /** At most one delete is in flight, and the screen says Deleting exactly while one is. */
  lemma {:induction false} OneDeleteInFlight(s: State, events: seq<Event>)
    requires Indexed(s) && Initial(s)
    ensures var w := Run(s, events);
      |w.deletes| == if w.state.dialog == Deleting then 1 else 0
  {
    RunStaysSound(s, events);
  }

  /** The row a dialog is about cannot change under it. */
  lemma {:induction false} DialogKeepsItsRow(s: State, events: seq<Event>, e: Event)
    requires Indexed(s) && Initial(s)
    requires Run(s, events).state.dialog != NoDialog
    ensures var w, w' := Run(s, events), Happen(Run(s, events), e);
      w.dialogRow == w.state.selected && (w'.state.dialog != NoDialog ==> w'.dialogRow == w.dialogRow == w'.state.selected)
  {
    RunStaysSound(s, events);
    StepStaysSound(Run(s, events), e, s.rows);
  }

  /** The refresh backlog is bounded: `Init` sends one refresh without setting the flag and every
      completed delete sends one regardless of it, but nothing else exceeds the flag. */
  lemma {:induction false} BoundedBacklog(s: State, events: seq<Event>)
    requires Indexed(s) && Initial(s)
    ensures var w := Run(s, events);
      |w.refreshes| <= 2 + w.deletesDone && (!w.state.refreshing ==> |w.refreshes| <= 1 + w.deletesDone)
  {
    RunStaysSound(s, events);
  }
}
