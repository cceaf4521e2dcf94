/** Which refresh round the rows of the settings screen come from, and what that means for deletes
    (settings-tui/model.go). */
module AfterDelete {
  import opened SettingsModel
  import opened SettingsRuns

  // ---- the rows are those of the round applied last ----

  /** The row reads as this answer leaves it, whatever it was before. */
  predicate Reads(r: Row, result: RowResult) {
    r == ApplyResult(r, result)
  }

  ghost predicate ShowsRound(s: State, round: Round) {
    match round
    case NoRound => s.conn == Checking
    case Answered(_, results) =>
      && |results| == |s.rows| && s.conn == ConnAfter(results)
      && forall i :: 0 <= i < |results| ==> IsFailure(results[i]) || Reads(s.rows[i], results[i])
  }

  /** What `d` saw is still what the dialog is about, unless a round came in between. */
  ghost predicate DialogRemembers(w: World) {
    w.state.dialog != NoDialog && 0 <= w.dialogRow < |w.state.rows| ==>
      if w.sinceOpen.Answered? then w.sinceOpen == w.shown
      else w.state.conn == Live && BoxExists(w.state.rows[w.dialogRow])
  }

  ghost predicate Placed(w: World) {
    && ShowsRound(w.state, w.shown) && DialogRemembers(w)
    && (w.shown.Answered? ==> w.shown.epoch <= w.deletesDone)
  }

  lemma AppliedRoundIsShown(s: State, results: seq<RowResult>, epoch: nat)
    requires |results| == |s.rows|
    ensures ShowsRound(ApplyRefresh(s, results), Answered(epoch, results))
  {
    hide Failures;
  }

  lemma OthersKeepRows(s: State, e: Event)
    requires Indexed(s) && !e.RefreshReturns?
    ensures var s' := UpdateState(s, MsgOf(e)).0;
      && s'.rows == s.rows && s'.conn == s.conn
      && (s.dialog == NoDialog && s'.dialog != NoDialog ==> s.conn == Live && BoxExists(s.rows[s.selected]))
  {
    hide Names;
  }

  lemma StepStaysPlaced(w: World, e: Event, rows0: seq<Row>)
    requires Sound(w, rows0) && Placed(w)
    ensures Placed(Happen(w, e))
  {
    if Enabled(w, e) {
      var w' := Happen(w, e);
      ScreenMoves(w.state, e);
      if e.RefreshReturns? {
        AppliedRoundIsShown(w.state.(refreshing := false), e.results, e.refresh.epoch);
        hide ApplyRefresh, ShowsRound, NewRefreshes, NewDeletes;
      } else {
        OthersKeepRows(w.state, e);
        hide UpdateState, NewRefreshes, NewDeletes;
      }
    }
  }

  lemma {:induction false} RunStaysPlaced(s: State, events: seq<Event>)
    requires Indexed(s) && Initial(s)
    ensures Placed(Run(s, events))
  {
    if events != [] {
      var init := events[..|events| - 1];
      RunStaysPlaced(s, init);
      RunStaysSound(s, init);
      StepStaysPlaced(Run(s, init), events[|events| - 1], s.rows);
    }
  }

  /** In every reachable state a Live screen shows, in every row, exactly what the round applied last
      answered for it. */
  lemma {:induction false} LiveShowsLastRound(s: State, events: seq<Event>, i: nat)
    requires Indexed(s) && Initial(s) && i < |s.rows|
    ensures var w := Run(s, events);
      w.state.conn == Live ==>
      && w.shown.Answered? && |w.shown.results| == |w.state.rows| == |s.rows|
      && !IsFailure(w.shown.results[i]) && Reads(w.state.rows[i], w.shown.results[i])
  {
    RunStaysPlaced(s, events);
    RunStaysSound(s, events);
    var w := Run(s, events);
    if w.state.conn == Live {
      assert Failures(w.shown.results) == 0;
      NoFailuresMeansAnswered(w.shown.results);
    }
  }

  lemma RunOn(s: State, events: seq<Event>, e: Event)
    requires Indexed(s)
    ensures Run(s, events + [e]) == Happen(Run(s, events), e)
  {
    assert (events + [e])[..|events|] == events;
  }

  // ---- does the box a confirmation deletes still exist? ----

  /** Deleting what is gone, exactly. In every run, when `y` is about to send the delete, the box named is
      one the screen sees, unless the latest round applied since `d` opened the dialog found it missing.
      In particular it is there when no round came in between. */
  lemma {:induction false} DeletedBoxExists(s: State, events: seq<Event>)
    requires Indexed(s) && Initial(s)
    ensures var w := Run(s, events);
      SendsDelete(w.state, Press(KeyY)) ==>
      && 0 <= w.dialogRow < |w.state.rows|
      && (w.sinceOpen.Answered? ==> |w.sinceOpen.results| == |w.state.rows|)
      && (BoxExists(w.state.rows[w.dialogRow]) <==>
            !(w.sinceOpen.Answered? && w.sinceOpen.results[w.dialogRow] == NotFound))
  {
    RunStaysPlaced(s, events);
    RunStaysSound(s, events);
    var w := Run(s, events);
    hide Run, Sound, Placed;
    if SendsDelete(w.state, Press(KeyY)) { ConfirmedRow(w, s.rows); }
  }

  lemma ConfirmedRow(w: World, rows0: seq<Row>)
    requires Sound(w, rows0) && Placed(w) && w.state.dialog == ConfirmDelete && w.state.conn == Live
    ensures 0 <= w.dialogRow < |w.state.rows|
    ensures w.sinceOpen == NoRound ==> BoxExists(w.state.rows[w.dialogRow])
    ensures w.sinceOpen.Answered? ==>
      && |w.sinceOpen.results| == |w.state.rows|
      && (BoxExists(w.state.rows[w.dialogRow]) <==> w.sinceOpen.results[w.dialogRow] != NotFound)
  {
    hide Honest, RefreshesSound, SameRows;
    if w.sinceOpen.Answered? {
      hide Failures;
      NoFailuresMeansAnswered(w.shown.results);
      AnsweredRowExists(w.state.rows[w.dialogRow], w.shown.results[w.dialogRow]);
    }
  }

  lemma AnsweredRowExists(r: Row, result: RowResult)
    requires Reads(r, result) && !IsFailure(result)
    ensures BoxExists(r) <==> result != NotFound
  {}

  // ---- are the rows from after the latest delete? ----

  /** The round applied last was issued after the latest delete completed. */
  predicate Fresh(w: World) {
    w.shown.Answered? && w.shown.epoch == w.deletesDone
  }

  /** A refresh sent after the latest delete completed. */
  predicate UpToDate(w: World, r: Refresh) {
    r.epoch == w.deletesDone
  }

  /** The k-th event is a round that arrived and was applied. */
  ghost predicate RoundAt(s: State, events: seq<Event>, k: nat)
    requires Indexed(s) && k < |events|
  {
    events[k].RefreshReturns? && Enabled(Run(s, events[..k]), events[k])
  }

  /** The last round of the run is the k-th event. */
  ghost predicate LastRoundAt(s: State, events: seq<Event>, k: nat)
    requires Indexed(s) && k < |events|
  {
    RoundAt(s, events, k) && forall j :: k < j < |events| ==> !RoundAt(s, events, j)
  }

  lemma RoundAtPrefix(s: State, events: seq<Event>, more: seq<Event>, k: nat)
    requires Indexed(s) && k < |events|
    ensures RoundAt(s, events + more, k) == RoundAt(s, events, k)
  {
    assert (events + more)[..k] == events[..k];
  }

  lemma LastRoundNext(s: State, events: seq<Event>, e: Event)
    requires Indexed(s)
    ensures RoundAt(s, events + [e], |events|) == (e.RefreshReturns? && Enabled(Run(s, events), e))
    ensures RoundAt(s, events + [e], |events|) ==> LastRoundAt(s, events + [e], |events|)
    ensures !RoundAt(s, events + [e], |events|) ==>
      forall k :: 0 <= k < |events| ==> LastRoundAt(s, events + [e], k) == LastRoundAt(s, events, k)
  {
    assert (events + [e])[..|events|] == events;
    forall k | 0 <= k < |events| ensures RoundAt(s, events + [e], k) == RoundAt(s, events, k) { RoundAtPrefix(s, events, [e], k); }
    hide RoundAt;
  }

  ghost predicate FreshRoundIn(s: State, events: seq<Event>)
    requires Indexed(s)
  {
    exists k :: 0 <= k < |events| && LastRoundAt(s, events, k) && events[k].RefreshReturns? &&
      UpToDate(Run(s, events), events[k].refresh)
  }

  /** Only a round changes what is shown, and only a completed delete changes what counts as old. */
  lemma StepShows(w: World, e: Event, rows0: seq<Row>)
    requires Sound(w, rows0)
    ensures var w' := Happen(w, e);
      && w'.shown == (if e.RefreshReturns? && Enabled(w, e) then Answered(e.refresh.epoch, e.results) else w.shown)
      && w'.deletesDone == w.deletesDone + (if e.DeleteReturns? && Enabled(w, e) then 1 else 0)
  {
    hide UpdateState, NewRefreshes, NewDeletes;
  }


  lemma {:induction false} ShownIsLastRound(s: State, events: seq<Event>) returns (k: int)
    requires Indexed(s) && Initial(s)
    ensures var w := Run(s, events);
      if w.shown == NoRound then k == -1 && forall j :: 0 <= j < |events| ==> !LastRoundAt(s, events, j)
      else
        && 0 <= k < |events| && LastRoundAt(s, events, k) && events[k].RefreshReturns?
        && w.shown == Answered(events[k].refresh.epoch, events[k].results)
        && forall j :: 0 <= j < |events| && LastRoundAt(s, events, j) ==> j == k
  {
    k := -1;
    if events != [] {
      var init, e := events[..|events| - 1], events[|events| - 1];
      assert events == init + [e];
      var k0 := ShownIsLastRound(s, init);
      RunStaysSound(s, init);
      StepShows(Run(s, init), e, s.rows);
      LastRoundNext(s, init, e);
      hide Run, Happen, LastRoundAt;
      if RoundAt(s, events, |init|) {
        k := |init|;
        forall j | 0 <= j < |events| && LastRoundAt(s, events, j) ensures j == k { LaterRoundIsLast(s, events, j, k); }
      } else {
        k := k0;
        NoRoundNotLast(s, events, |init|);
      }
    }
  }

  lemma LaterRoundIsLast(s: State, events: seq<Event>, j: nat, k: nat)
    requires Indexed(s) && j < |events| && k < |events| && LastRoundAt(s, events, j) && LastRoundAt(s, events, k)
    ensures j == k
  {
    hide RoundAt;
  }

  lemma NoRoundNotLast(s: State, events: seq<Event>, k: nat)
    requires Indexed(s) && k < |events| && !RoundAt(s, events, k)
    ensures !LastRoundAt(s, events, k)
  {
    hide RoundAt;
  }

  /** What is shown, over a whole run: the rows are from after the latest delete exactly when some round
      arrived, and the last one that did was sent after that delete completed. */
  lemma {:induction false} ShownSinceDelete(s: State, events: seq<Event>)
    requires Indexed(s) && Initial(s)
    ensures Fresh(Run(s, events)) <==> FreshRoundIn(s, events)
  {
    var k := ShownIsLastRound(s, events);
    hide Run, LastRoundAt;
  }

  // ---- what can still be shown, and done, after a delete completed ----

  /** No further delete completes. */
  ghost predicate Quiet(events: seq<Event>) {
    forall e :: e in events ==> !e.DeleteReturns?
  }

  ghost predicate NothingOlder(w: World) {
    forall r :: r in w.refreshes ==> UpToDate(w, r)
  }

  lemma StepStaysNewer(w: World, e: Event, rows0: seq<Row>)
    requires Sound(w, rows0) && NothingOlder(w) && !e.DeleteReturns?
    ensures var w' := Happen(w, e);
      NothingOlder(w') && (w'.shown == w.shown || Fresh(w'))
  {
    StepShows(w, e, rows0);
    if Enabled(w, e) {
      Effects(w, e);
      hide Happen, SendsRefresh, SendsDelete, UpdateState, Names;
    }
  }

  /** While nothing older is on its way and no further delete completes, what is shown is what was shown or
      something newer than the delete. */
  lemma {:induction false} QuietStaysNewer(s: State, events: seq<Event>, more: seq<Event>)
    requires Indexed(s) && Initial(s) && Quiet(more) && NothingOlder(Run(s, events))
    ensures var w, w' := Run(s, events), Run(s, events + more);
      NothingOlder(w') && (w'.shown == w.shown || Fresh(w')) && w'.deletesDone == w.deletesDone
  {
    if more == [] {
      assert events + more == events;
    } else {
      var init, e := more[..|more| - 1], more[|more| - 1];
      assert e in more && forall d :: d in init ==> d in more;
      QuietStaysNewer(s, events, init);
      assert (events + more)[..|events + more| - 1] == events + init && (events + more)[|events + more| - 1] == e;
      var w1 := Run(s, events + init);
      RunStaysSound(s, events + init);
      StepStaysNewer(w1, e, s.rows);
      StepShows(w1, e, s.rows);
      assert Run(s, events + more) == Happen(w1, e);
      hide Run, Happen, NothingOlder;
    }
  }

  lemma DeleteCompletes(w: World, name: string, outcome: DeleteOutcome, rows0: seq<Row>)
    requires Sound(w, rows0) && name in w.deletes
    ensures var w' := Happen(w, DeleteReturns(name, outcome));
      && w'.state.rows == w.state.rows && w'.state.conn == w.state.conn && w'.state.dialog == NoDialog && w.state.rows != []
      && w'.shown == w.shown && w'.deletesDone == w.deletesDone + 1
      && w'.refreshes == w.refreshes + multiset{Refresh(Names(w.state.rows), w'.deletesDone)}
  {
    var e := DeleteReturns(name, outcome);
    Effects(w, e);
    StepShows(w, e, rows0);
    OthersKeepRows(w.state, e);
    ScreenMoves(w.state, e);
    hide Happen, NewRefreshes, NewDeletes;
  }

  function Uniform(result: RowResult, n: nat): (results: seq<RowResult>)
    ensures |results| == n && forall i :: 0 <= i < n ==> results[i] == result
  {
    if n == 0 then [] else Uniform(result, n - 1) + [result]
  }

  /** From the end of this run to the next completed delete, only rows newer than the latest delete can
      replace what is shown. */
  ghost predicate OnlyNewerFollow(s: State, events: seq<Event>)
    requires Indexed(s)
  {
    forall more :: Quiet(more) ==> Run(s, events + more).shown == Run(s, events).shown || Fresh(Run(s, events + more))
  }

  lemma {:induction false} NewerFollow(s: State, events: seq<Event>)
    requires Indexed(s) && Initial(s) && NothingOlder(Run(s, events))
    ensures OnlyNewerFollow(s, events)
  {
    hide Run, Fresh, NothingOlder;
    forall more | Quiet(more) ensures Run(s, events + more).shown == Run(s, events).shown || Fresh(Run(s, events + more)) {
      QuietStaysNewer(s, events, more);
    }
  }

  lemma {:induction false} OlderFollows(s: State, events: seq<Event>, r: Refresh)
    requires Indexed(s) && Initial(s) && s.rows != []
    requires r in Run(s, events).refreshes && !UpToDate(Run(s, events), r)
    ensures !OnlyNewerFollow(s, events)
  {
    var w := Run(s, events);
    RunStaysSound(s, events);
    var e := AnotherAnswer(w, r, s.rows);
    RunOn(s, events, e);
    StepShows(w, e, s.rows);
    hide Run, Happen;
    assert Run(s, events + [e]).shown != w.shown && !Fresh(Run(s, events + [e]));
    assert Quiet([e]);
  }

  /** An outstanding refresh can come back with answers that are not those shown. */
  lemma AnotherAnswer(w: World, r: Refresh, rows0: seq<Row>) returns (e: Event)
    requires Sound(w, rows0) && rows0 != [] && r in w.refreshes
    ensures e.RefreshReturns? && e.refresh == r && Enabled(w, e) && w.shown != Answered(r.epoch, e.results)
  {
    var n := |rows0|;
    assert Uniform(NotFound, n)[0] != Uniform(OtherError, n)[0];
    e := RefreshReturns(r, if w.shown == Answered(r.epoch, Uniform(NotFound, n)) then Uniform(OtherError, n) else Uniform(NotFound, n));
  }

  /** After a completed delete the screen still shows the rows from before it, every time, until a round
      arrives. Whether it can go back to such rows afterwards is decided at that moment: only newer
      rows follow exactly when no refresh was on its way when the delete completed. */
  lemma {:induction false} ShownAfterDelete(s: State, events: seq<Event>, name: string, outcome: DeleteOutcome)
    requires Indexed(s) && Initial(s) && name in Run(s, events).deletes
    ensures var done := events + [DeleteReturns(name, outcome)];
      var w, w' := Run(s, events), Run(s, done);
      && w'.state.rows == w.state.rows && w'.state.conn == w.state.conn && w'.shown == w.shown && !Fresh(w')
      && (OnlyNewerFollow(s, done) <==> w.refreshes == multiset{})
  {
    var done := events + [DeleteReturns(name, outcome)];
    var w, w' := Run(s, events), Run(s, done);
    RunOn(s, events, DeleteReturns(name, outcome));
    RunStaysSound(s, events);
    RunStaysPlaced(s, events);
    DeleteCompletes(w, name, outcome, s.rows);
    assert !Fresh(w');
    hide Run, Happen, Placed, OnlyNewerFollow;
    if w.refreshes == multiset{} {
      NewerFollow(s, done);
    } else {
      var r :| r in w.refreshes;
      OlderFollows(s, done, r);
    }
  }

  // ---- acting on rows from before the delete ----

  /** `d` would open a dialog on some row. */
  ghost predicate CanDelete(s: State) {
    s.conn == Live && exists i :: 0 <= i < |s.rows| && BoxExists(s.rows[i])
  }

  ghost predicate StillOld(w: World, first: State) {
    && w.state.rows == first.rows && w.state.conn == first.conn
    && (w.state.dialog == ConfirmDelete ==> CanDelete(first))
  }

  /** One event of a quiet stretch with nothing older on its way. */
  lemma StepStaysOldOrFresh(w: World, e: Event, rows0: seq<Row>, first: State)
    requires Sound(w, rows0) && NothingOlder(w) && !e.DeleteReturns? && (Fresh(w) || StillOld(w, first))
    ensures Fresh(Happen(w, e)) || StillOld(Happen(w, e), first)
  {
    StepStaysNewer(w, e, rows0);
    StepShows(w, e, rows0);
    if Enabled(w, e) && !e.RefreshReturns? && !Fresh(w) {
      OthersKeepRows(w.state, e);
      ScreenMoves(w.state, e);
      Effects(w, e);
    }
    hide Happen, UpdateState, NothingOlder, SendsRefresh, SendsDelete;
  }

  lemma {:induction false} QuietStaysOldOrFresh(s: State, events: seq<Event>, more: seq<Event>)
    requires Indexed(s) && Initial(s) && Quiet(more) && NothingOlder(Run(s, events)) && Run(s, events).state.dialog == NoDialog
    ensures Fresh(Run(s, events + more)) || StillOld(Run(s, events + more), Run(s, events).state)
  {
    hide Run, Happen, NothingOlder, Fresh, Sound;
    if more == [] {
      assert events + more == events;
      assert StillOld(Run(s, events), Run(s, events).state);
    } else {
      hide StillOld;
      var init, e := more[..|more| - 1], more[|more| - 1];
      assert e in more && forall d :: d in init ==> d in more;
      QuietStaysOldOrFresh(s, events, init);
      QuietStaysNewer(s, events, init);
      RunStaysSound(s, events + init);
      assert events + more == (events + init) + [e];
      RunOn(s, events + init, e);
      StepStaysOldOrFresh(Run(s, events + init), e, s.rows, Run(s, events).state);
    }
  }

  lemma KeyMoves(w: World, i: nat)
    requires Indexed(w.state) && w.state.dialog == NoDialog && i < |w.state.rows| && i != w.state.selected
    ensures Happen(w, Press(if w.state.selected < i then Down else Up)) ==
            w.(state := w.state.(selected := if w.state.selected < i then w.state.selected + 1 else w.state.selected - 1))
  {
    var e := Press(if w.state.selected < i then Down else Up);
    Effects(w, e);
    hide NewRefreshes, NewDeletes, Names;
  }

  /** Keys that bring the selection to a row, with no dialog open. */
  lemma {:induction false} SelectionReaches(s: State, events: seq<Event>, i: nat) returns (keys: seq<Event>)
    requires Indexed(s) && Run(s, events).state.dialog == NoDialog && i < |Run(s, events).state.rows|
    ensures Quiet(keys) && Run(s, events + keys) == Run(s, events).(state := Run(s, events).state.(selected := i))
    decreases if Run(s, events).state.selected < i then i - Run(s, events).state.selected else Run(s, events).state.selected - i
  {
    hide Run, Happen;
    var w := Run(s, events);
    if w.state.selected == i {
      keys := [];
      assert events + keys == events;
    } else {
      var e := Press(if w.state.selected < i then Down else Up);
      RunOn(s, events, e);
      KeyMoves(w, i);
      var rest := SelectionReaches(s, events + [e], i);
      keys := [e] + rest;
      assert events + keys == (events + [e]) + rest;
    }
  }

  /** `d` then `y` on a Live screen whose selected box is seen. */
  lemma PressingDeletes(w: World)
    requires Indexed(w.state) && w.state.dialog == NoDialog && w.state.rows != []
    requires w.state.conn == Live && BoxExists(w.state.rows[w.state.selected])
    ensures var w' := Happen(w, Press(KeyD));
      && w'.shown == w.shown && w'.deletesDone == w.deletesDone
      && w'.state == w.state.(dialog := ConfirmDelete, notice := NoNotice)
      && CmdsOf(w', Press(KeyY)) == [DeleteCmd(w.state.rows[w.state.selected].name)]
  {}

  /** Before the next delete completes, keys and answers exist by which `y` deletes from rows that are not
      fresh. */
  ghost predicate OldRowsCanBeDeleted(s: State, events: seq<Event>)
    requires Indexed(s)
  {
    exists more, name :: Quiet(more) && !Fresh(Run(s, events + more)) && DeleteCmd(name) in CmdsOf(Run(s, events + more), Press(KeyY))
  }

  lemma {:induction false} OldRowIsDeleted(s: State, events: seq<Event>, before: seq<Event>, i: nat)
    requires Indexed(s) && Quiet(before) && !Fresh(Run(s, events + before)) && Run(s, events + before).state.dialog == NoDialog
    requires var now := Run(s, events + before).state;
      now.conn == Live && i < |now.rows| && BoxExists(now.rows[i])
    ensures OldRowsCanBeDeleted(s, events)
  {
    hide Run, Happen;
    var start := events + before;
    var keys := SelectionReaches(s, start, i);
    RunOn(s, start + keys, Press(KeyD));
    PressingDeletes(Run(s, start + keys));
    hide CmdsOf, BoxExists;
    var more := before + keys + [Press(KeyD)];
    assert events + more == (start + keys) + [Press(KeyD)];
    var name := Run(s, start).state.rows[i].name;
    assert Quiet(more) && DeleteCmd(name) in CmdsOf(Run(s, events + more), Press(KeyY));
  }

  /** An outstanding refresh can come back with a running pod for every row. */
  lemma PodsAnswered(w: World, r: Refresh, rows0: seq<Row>, pod: PodInfo) returns (e: Event)
    requires Sound(w, rows0) && rows0 != [] && r in w.refreshes && w.state.dialog == NoDialog
    ensures e.RefreshReturns? && e.refresh == r && Enabled(w, e)
    ensures var now := Happen(w, e).state;
      now.dialog == NoDialog && now.conn == Live && |now.rows| == |rows0| && BoxExists(now.rows[0])
  {
    hide Happen, Honest, Uniform, ApplyRefresh, DialogSound, CmdsOf;
    var results := Uniform(GotPod(pod), |rows0|);
    e := RefreshReturns(r, results);
    PodsApplied(w.state.(refreshing := false), pod);
    HappenSends(w, e);
  }

  lemma PodsApplied(s: State, pod: PodInfo)
    requires s.rows != []
    ensures var now := ApplyRefresh(s, Uniform(GotPod(pod), |s.rows|));
      now.dialog == s.dialog && now.conn == Live && |now.rows| == |s.rows| && BoxExists(now.rows[0])
  {
    hide Failures, Uniform;
    var results := Uniform(GotPod(pod), |s.rows|);
    UniformPodsDoNotFail(pod, |s.rows|);
    assert ApplyResults(s.rows, results)[0] == ApplyResult(s.rows[0], results[0]);
    hide ApplyResults;
  }

  lemma {:induction false} UniformPodsDoNotFail(pod: PodInfo, n: nat)
    ensures Failures(Uniform(GotPod(pod), n)) == 0
  {
    if n > 0 {
      UniformPodsDoNotFail(pod, n - 1);
      assert Uniform(GotPod(pod), n)[..n - 1] == Uniform(GotPod(pod), n - 1);
    }
  }

  /** Acting on rows from before a delete, exactly. After a delete completes and until the next one does, `y`
      can still delete from rows that are not newer than it if and only if the screen is Live and sees
      some box at that moment, or some refresh was on its way: then its answer makes it so. */
  lemma {:induction false} ActsAfterDelete(s: State, events: seq<Event>, name: string, outcome: DeleteOutcome)
    requires Indexed(s) && Initial(s) && name in Run(s, events).deletes
    ensures OldRowsCanBeDeleted(s, events + [DeleteReturns(name, outcome)]) <==>
            CanDelete(Run(s, events).state) || Run(s, events).refreshes != multiset{}
  {
    hide Run, Happen, OldRowsCanBeDeleted;
    var done := events + [DeleteReturns(name, outcome)];
    var w, w' := Run(s, events), Run(s, done);
    DeleteLeavesOldRows(s, events, name, outcome);
    assert done + [] == done;
    if CanDelete(w.state) {
      var i: nat :| i < |w.state.rows| && BoxExists(w.state.rows[i]);
      OldRowIsDeleted(s, done, [], i);
    } else if w.refreshes != multiset{} {
      var r :| r in w.refreshes;
      OldRoundIsDeletedFrom(s, done, r);
    } else {
      hide CanDelete;
      SameRowsSameDeletes(w.state, w'.state);
      OldRowsStayUndeletable(s, done);
    }
  }

  lemma SameRowsSameDeletes(a: State, b: State)
    requires a.rows == b.rows && a.conn == b.conn
    ensures CanDelete(a) == CanDelete(b)
  {}

  lemma {:induction false} DeleteLeavesOldRows(s: State, events: seq<Event>, name: string, outcome: DeleteOutcome)
    requires Indexed(s) && Initial(s) && name in Run(s, events).deletes
    ensures var w, w' := Run(s, events), Run(s, events + [DeleteReturns(name, outcome)]);
      && w'.state.rows == w.state.rows && w'.state.conn == w.state.conn && w'.state.dialog == NoDialog && !Fresh(w')
      && s.rows != [] && (forall r :: r in w.refreshes ==> r in w'.refreshes && !UpToDate(w', r))
      && (w.refreshes == multiset{} ==> NothingOlder(w'))
  {
    RunOn(s, events, DeleteReturns(name, outcome));
    RunStaysSound(s, events);
    RunStaysPlaced(s, events);
    DeleteCompletes(Run(s, events), name, outcome, s.rows);
    hide Run, Happen, ShowsRound, DialogRemembers, Honest, DialogSound;
  }

  lemma {:induction false} OldRoundIsDeletedFrom(s: State, events: seq<Event>, r: Refresh)
    requires Indexed(s) && Initial(s) && s.rows != [] && Run(s, events).state.dialog == NoDialog
    requires r in Run(s, events).refreshes && !UpToDate(Run(s, events), r)
    ensures OldRowsCanBeDeleted(s, events)
  {
    var w := Run(s, events);
    RunStaysSound(s, events);
    var e := PodsAnswered(w, r, s.rows, PodInfo(false, "Running", NO_DETAILS));
    RunOn(s, events, e);
    StepShows(w, e, s.rows);
    hide Run, Happen, OldRowsCanBeDeleted, Sound;
    assert Quiet([e]);
    OldRowIsDeleted(s, events, [e], 0);
  }

  lemma {:induction false} OldRowsStayUndeletable(s: State, events: seq<Event>)
    requires Indexed(s) && Initial(s) && NothingOlder(Run(s, events)) && Run(s, events).state.dialog == NoDialog
    requires !CanDelete(Run(s, events).state)
    ensures !OldRowsCanBeDeleted(s, events)
  {
    forall more, name | Quiet(more) && !Fresh(Run(s, events + more)) ensures DeleteCmd(name) !in CmdsOf(Run(s, events + more), Press(KeyY)) {
      QuietStaysOldOrFresh(s, events, more);
      CommandsSent(Run(s, events + more), Press(KeyY));
      hide Run, CanDelete, CmdsOf;
    }
  }
}
