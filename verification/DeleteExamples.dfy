/** Short runs of a one-row screen that show what `AfterDelete` cannot rule out
    (settings-tui/model.go). */
module DeleteExamples {
  import opened SettingsModel
  import opened SettingsRuns
  import opened AfterDelete

  function Seen(s: State, pod: PodInfo): State
    requires |s.rows| == 1
  {
    s.(rows := [ShowPod(s.rows[0], pod)], conn := Live, notice := NoNotice, refreshing := false)
  }

  lemma OneAnswer(s: State, pod: PodInfo)
    requires |s.rows| == 1 && s.selected == 0
    ensures ApplyRefresh(s.(refreshing := false), [GotPod(pod)]) == Seen(s, pod)
    ensures Names(s.rows) == [s.rows[0].name]
  {
    assert [GotPod(pod)][..0] == [] && s.rows[..0] == [];
    assert Failures([GotPod(pod)]) == 0;
  }

  lemma AnswerArrives(w: World, r: Refresh, pod: PodInfo)
    requires Indexed(w.state) && |w.state.rows| == 1 && r in w.refreshes && |r.names| == 1
    ensures Happen(w, RefreshReturns(r, [GotPod(pod)])) ==
            w.(state := Seen(w.state, pod), refreshes := w.refreshes - multiset{r}, shown := Answered(r.epoch, [GotPod(pod)]), sinceOpen := Answered(r.epoch, [GotPod(pod)]))
  {
    OneAnswer(w.state, pod);
    Effects(w, RefreshReturns(r, [GotPod(pod)]));
    hide ApplyRefresh, NewRefreshes, NewDeletes;
  }

  lemma TickSends(w: World)
    requires Indexed(w.state) && |w.state.rows| == 1 && !w.state.refreshing
    ensures Happen(w, TickFires) ==
            w.(state := w.state.(refreshing := true), refreshes := w.refreshes + multiset{Refresh([w.state.rows[0].name], w.deletesDone)})
  {
    assert w.state.rows[..0] == [] && Names(w.state.rows) == [w.state.rows[0].name];
    Effects(w, TickFires);
    hide NewRefreshes, NewDeletes, Names;
  }

  lemma DialogOpens(w: World)
    requires Indexed(w.state) && |w.state.rows| == 1 && w.state.dialog == NoDialog && w.state.conn == Live && BoxExists(w.state.rows[0])
    ensures Happen(w, Press(KeyD)) == w.(state := w.state.(dialog := ConfirmDelete, notice := NoNotice), dialogRow := 0, sinceOpen := NoRound)
  {
    Effects(w, Press(KeyD));
    hide NewRefreshes, NewDeletes;
  }

  lemma DeleteSent(w: World)
    requires Indexed(w.state) && |w.state.rows| == 1 && SendsDelete(w.state, Press(KeyY))
    ensures Happen(w, Press(KeyY)) == w.(state := w.state.(dialog := Deleting), deletes := w.deletes + multiset{w.state.rows[0].name})
  {
    Effects(w, Press(KeyY));
    hide NewRefreshes, NewDeletes;
  }

  lemma DeleteDoneAlone(w: World, name: string)
    requires Indexed(w.state) && |w.state.rows| == 1 && name in w.deletes
    ensures Happen(w, DeleteReturns(name, Deleted)) ==
            w.(state := w.state.(dialog := NoDialog, notice := NoNotice, refreshing := true),
               refreshes := w.refreshes + multiset{Refresh([w.state.rows[0].name], w.deletesDone + 1)},
               deletes := w.deletes - multiset{name}, deletesDone := w.deletesDone + 1)
  {
    assert w.state.rows[..0] == [] && Names(w.state.rows) == [w.state.rows[0].name];
    Effects(w, DeleteReturns(name, Deleted));
    hide NewRefreshes, NewDeletes, Names;
  }

  lemma StartsWithOne(s: State)
    requires Indexed(s) && Initial(s) && |s.rows| == 1
    ensures Run(s, []) == World(s, multiset{Refresh([s.rows[0].name], 0)}, multiset{}, 0, 0, NoRound, NoRound)
  {
    assert s.rows[..0] == [] && Names(s.rows) == [s.rows[0].name];
    CommandCounts(Names(s.rows), "", 0);
    hide NewRefreshes, NewDeletes, Names;
  }

  /** The first round is answered. */
  lemma FirstAnswer(s: State, pod: PodInfo) returns (events: seq<Event>)
    requires Indexed(s) && Initial(s) && |s.rows| == 1
    ensures Run(s, events) == World(Seen(s, pod), multiset{}, multiset{}, 0, 0, Answered(0, [GotPod(pod)]), Answered(0, [GotPod(pod)]))
  {
    var first := Refresh([s.rows[0].name], 0);
    var e := RefreshReturns(first, [GotPod(pod)]);
    var none: seq<Event> := [];
    events := none + [e];
    RunOn(s, none, e);
    StartsWithOne(s);
    hide Run, Happen, Names;
    AnswerArrives(Run(s, none), first, pod);
  }

  lemma DialogReached(s: State, pod: PodInfo) returns (events: seq<Event>)
    requires Indexed(s) && Initial(s) && |s.rows| == 1
    ensures Run(s, events) ==
            World(Seen(s, pod).(refreshing := true, dialog := ConfirmDelete), multiset{Refresh([s.rows[0].name], 0)}, multiset{}, 0, 0,
                  Answered(0, [GotPod(pod)]), NoRound)
  {
    hide Run, Happen, Names;
    var e1 := FirstAnswer(s, pod);
    var e2 := e1 + [TickFires];
    events := e2 + [Press(KeyD)];
    RunOn(s, e1, TickFires);
    RunOn(s, e2, Press(KeyD));
    TickSends(Run(s, e1));
    DialogOpens(Run(s, e2));
  }

  /** A reachable case: a refresh sent before the delete is answered after it, the screen is Live and
      shows the deleted pod again, while the refresh that would correct it is still on its way. */
  lemma OldAnswerAfterDelete(s: State, pod: PodInfo) returns (events: seq<Event>)
    requires Indexed(s) && Initial(s) && |s.rows| == 1
    ensures var w := Run(s, events);
      && w.deletesDone == 1 && w.state.conn == Live && w.state.rows == [ShowPod(s.rows[0], pod)]
      && w.refreshes == multiset{Refresh([s.rows[0].name], 1)}
  {
    hide Run, Happen;
    var name := s.rows[0].name;
    var first := Refresh([name], 0);
    var e0 := DialogReached(s, pod);
    var e1 := e0 + [Press(KeyY)];
    var e2 := e1 + [DeleteReturns(name, Deleted)];
    events := e2 + [RefreshReturns(first, [GotPod(pod)])];
    RunOn(s, e0, Press(KeyY));
    RunOn(s, e1, DeleteReturns(name, Deleted));
    RunOn(s, e2, RefreshReturns(first, [GotPod(pod)]));
    DeleteSent(Run(s, e0));
    DeleteDoneAlone(Run(s, e1), name);
    AnswerArrives(Run(s, e2), first, pod);
  }

  /** `y` only asks whether the screen is Live. A box that a refresh reports gone while its dialog is
      open is deleted all the same; the API's answer that it is missing then counts as success. */
  lemma VanishedBoxIsStillDeleted(s: State, pod: PodInfo) returns (events: seq<Event>)
    requires Indexed(s) && Initial(s) && |s.rows| == 1
    ensures var w := Run(s, events);
      |w.state.rows| == 1 && w.state.rows[0].state == RowNotCreated && CmdsOf(w, Press(KeyY)) == [DeleteCmd(s.rows[0].name)]
  {
    var first := Refresh([s.rows[0].name], 0);
    var e0 := DialogReached(s, pod);
    events := e0 + [RefreshReturns(first, [NotFound])];
    RunOn(s, e0, RefreshReturns(first, [NotFound]));
    hide Run, Happen;
    GoneAnswered(Run(s, e0), first);
  }

  lemma GoneAnswered(w: World, r: Refresh)
    requires Indexed(w.state) && |w.state.rows| == 1 && w.state.dialog == ConfirmDelete && r in w.refreshes && |r.names| == 1
    ensures var w' := Happen(w, RefreshReturns(r, [NotFound]));
      |w'.state.rows| == 1 && w'.state.rows[0].state == RowNotCreated && Indexed(w'.state)
      && CmdsOf(w', Press(KeyY)) == [DeleteCmd(w.state.rows[0].name)]
  {
    assert [NotFound][..0] == [] && Failures([NotFound]) == 0;
    assert w.state.rows[..0] == [];
    Effects(w, RefreshReturns(r, [NotFound]));
    hide NewRefreshes, NewDeletes;
  }

  /** The box is deleted with nothing else on its way. */
  lemma DeletedOnce(s: State, pod: PodInfo) returns (events: seq<Event>)
    requires Indexed(s) && Initial(s) && |s.rows| == 1
    ensures Run(s, events) ==
            World(Seen(s, pod).(refreshing := true), multiset{Refresh([s.rows[0].name], 1)}, multiset{}, 1, 0,
                  Answered(0, [GotPod(pod)]), NoRound)
  {
    hide Run, Happen, Names;
    var name := s.rows[0].name;
    var e1 := FirstAnswer(s, pod);
    var e2 := e1 + [Press(KeyD)];
    var e3 := e2 + [Press(KeyY)];
    events := e3 + [DeleteReturns(name, Deleted)];
    RunOn(s, e1, Press(KeyD));
    RunOn(s, e2, Press(KeyY));
    RunOn(s, e3, DeleteReturns(name, Deleted));
    DialogOpens(Run(s, e1));
    DeleteSent(Run(s, e2));
    DeleteDoneAlone(Run(s, e3), name);
  }

  /** Nothing is on its way when the delete completes, and still the screen is Live, shows the pod from
      before it, and deletes the same box again. */
  lemma SameBoxDeletedTwice(s: State, pod: PodInfo) returns (events: seq<Event>)
    requires Indexed(s) && Initial(s) && |s.rows| == 1
    ensures var w := Run(s, events);
      && w.deletesDone == 1 && !Fresh(w) && w.state.conn == Live && w.state.rows == [ShowPod(s.rows[0], pod)]
      && w.refreshes == multiset{Refresh([s.rows[0].name], 1)}
      && CmdsOf(w, Press(KeyY)) == [DeleteCmd(s.rows[0].name)]
  {
    hide Run, Happen, CmdsOf;
    var done := DeletedOnce(s, pod);
    events := done + [Press(KeyD)];
    RunOn(s, done, Press(KeyD));
    DialogOpens(Run(s, done));
    PressingDeletes(Run(s, done));
  }
}
