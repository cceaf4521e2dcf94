/** What the settings screen shows and does, effect by effect and without reference to the functions that
    compute it (settings-tui/model.go). */
module ScreenMeaning {
  import opened SettingsModel
  import opened SettingsRuns
  import opened AfterDelete

  // ---- rows ----

  /** The row is about this pod: its phase and details, and the state they mean. */
  ghost predicate ShowsThePod(r: Row, pod: PodInfo) {
    && r.phase == pod.phase && r.details == pod.details && !r.stale && !r.reconnect
    && (r.state == RowTerminating <==> pod.deleting)
    && (r.state == RowRunning <==> !pod.deleting && pod.phase == "Running")
    && (r.state == RowPending <==> !pod.deleting && (pod.phase == "" || pod.phase == "Pending"))
    && (r.state == RowError <==> !pod.deleting && pod.phase != "Running" && pod.phase != "" && pod.phase != "Pending")
  }

  /** The row is about a box that is not created: nothing is left of a pod. */
  ghost predicate ShowsNoPod(r: Row) {
    r.state == RowNotCreated && r.phase == "" && r.details == Details("", "", "", 0, "", "") && !r.stale && !r.reconnect
  }

  /** The row keeps what it last knew, marked stale if it knew a phase; a row that never knew anything says
      why. */
  ghost predicate KeepsLastKnown(r: Row, before: Row, forbidden: bool) {
    && r.phase == before.phase && r.details == before.details && r.reconnect == forbidden
    && (r.stale <==> before.phase != "")
    && (before.state != RowChecking ==> r.state == before.state)
    && (before.state == RowChecking ==> r.state == if forbidden then RowForbidden else RowUnavailable)
  }

  ghost predicate ShowsAnswer(r: Row, before: Row, result: RowResult) {
    && r.template == before.template && r.name == before.name
    && match result
       case GotPod(pod) => ShowsThePod(r, pod)
       case NotFound => ShowsNoPod(r)
       case Refused => KeepsLastKnown(r, before, true)
       case OtherError => KeepsLastKnown(r, before, false)
  }

  lemma ResultIsShown(r: Row, result: RowResult)
    ensures ShowsAnswer(ApplyResult(r, result), r, result)
  {}

  /** A Live screen, row by row. In every reachable state in which the screen is Live, a row whose pod the
      round applied last found shows that pod, and a row whose pod it did not find shows none; there
      is no third case. */
  lemma {:induction false} LiveRowsSpelledOut(s: State, events: seq<Event>, i: nat)
    requires Indexed(s) && Initial(s) && i < |s.rows|
    ensures var w := Run(s, events);
      w.state.conn == Live ==>
      && w.shown.Answered? && |w.shown.results| == |w.state.rows| == |s.rows|
      && match w.shown.results[i]
         case GotPod(pod) => ShowsThePod(w.state.rows[i], pod)
         case NotFound => ShowsNoPod(w.state.rows[i])
         case _ => false
  {
    LiveShowsLastRound(s, events, i);
    var w := Run(s, events);
    hide Run;
    if w.state.conn == Live {
      ResultIsShown(w.state.rows[i], w.shown.results[i]);
    }
  }

  // ---- one round ----

  lemma {:induction false} FailuresCounted(results: seq<RowResult>)
    ensures Failures(results) == 0 <==> forall i :: 0 <= i < |results| ==> !IsFailure(results[i])
    ensures Failures(results) == |results| <==> forall i :: 0 <= i < |results| ==> IsFailure(results[i])
  {
    if results != [] {
      var init := results[..|results| - 1];
      FailuresCounted(init);
      assert forall i :: 0 <= i < |init| ==> init[i] == results[i];
    }
  }

  ghost predicate Answers(result: RowResult) {
    result.GotPod? || result.NotFound?
  }

  /** One refresh round. A round of the wrong length only ends the refresh. Any other shows each answer in
      its row, and is Live when every name answered, Unreachable when there were names and none did,
      Partial otherwise; a Live round clears the message; nothing else changes and nothing is sent. */
  lemma RoundSpelledOut(s: State, results: seq<RowResult>)
    requires Indexed(s)
    ensures var (s', cmds) := UpdateState(s, RefreshDone(results));
      && cmds == [] && !s'.refreshing
      && s'.selected == s.selected && s'.dialog == s.dialog && s'.maxBoxes == s.maxBoxes && s'.width == s.width && s'.height == s.height
      && (|results| != |s.rows| ==> s'.rows == s.rows && s'.conn == s.conn && s'.notice == s.notice)
      && (|results| == |s.rows| ==>
            && |s'.rows| == |s.rows| && (forall i :: 0 <= i < |s.rows| ==> ShowsAnswer(s'.rows[i], s.rows[i], results[i]))
            && (s'.conn == Live <==> forall i :: 0 <= i < |results| ==> Answers(results[i]))
            && (s'.conn == Unreachable <==> results != [] && forall i :: 0 <= i < |results| ==> !Answers(results[i]))
            && s'.conn != Checking
            && s'.notice == if s'.conn == Live then NoNotice else s.notice)
  {
    hide ShowsAnswer, Failures, ApplyResult;
    if |results| == |s.rows| {
      FailuresCounted(results);
      forall i | 0 <= i < |results| ensures Answers(results[i]) <==> !IsFailure(results[i]) {}
      forall i | 0 <= i < |s.rows| ensures ShowsAnswer(ApplyResult(s.rows[i], results[i]), s.rows[i], results[i]) {
        ResultIsShown(s.rows[i], results[i]);
      }
    }
  }

  // ---- everything else ----

  /** The screen has seen the box of this row. */
  predicate SeesBox(r: Row) {
    r.state == RowRunning || r.state == RowPending || r.state == RowTerminating || r.state == RowError
  }

  /** One key, effect by effect: where the selection goes, when a dialog opens, confirms and closes, what is
      sent, and which message is left. Rows, connection and size never change. */
  lemma KeySpelledOut(s: State, key: Key)
    requires Indexed(s)
    ensures var (s', cmds) := UpdateState(s, KeyPress(key));
      var listing, n := s.dialog == NoDialog, |s.rows|;
      var seen := n > 0 && SeesBox(s.rows[s.selected]);
      && s'.rows == s.rows && s'.conn == s.conn && s'.width == s.width && s'.height == s.height && s'.maxBoxes == s.maxBoxes
      && s'.selected == (if listing && key == Up && s.selected > 0 then s.selected - 1
                         else if listing && key == Down && s.selected < n - 1 then s.selected + 1
                         else s.selected)
      && (s'.dialog == ConfirmDelete <==>
            || (listing && key == KeyD && n > 0 && s.conn == Live && seen)
            || (s.dialog == ConfirmDelete && (key == Up || key == Down || key == KeyR || key == KeyD || key == OtherKey)))
      && (s'.dialog == Deleting <==> s.dialog == Deleting || (s.dialog == ConfirmDelete && key == KeyY && s.conn == Live))
      && (Quit in cmds <==> listing && (key == KeyQ || key == CtrlC))
      && (cmds == [DeleteCmd(if n > 0 then s.rows[s.selected].name else "")] <==> s.dialog == ConfirmDelete && key == KeyY && s.conn == Live)
      && (cmds == [RefreshCmd(Names(s.rows))] <==> listing && key == KeyR && !s.refreshing && n > 0)
      && |cmds| <= 1 && (s'.refreshing <==> s.refreshing || cmds == [RefreshCmd(Names(s.rows))])
      && s'.notice == (if listing && key == KeyD then
                         if n == 0 then NoticeNoTemplates else if s.conn != Live then NoticeNotLive
                         else if !seen then NoticeNotCreated else NoNotice
                       else if s.dialog == ConfirmDelete && key == KeyY && s.conn != Live then NoticeCancelled
                       else s.notice)
  {
    hide Names;
  }

  /** Size changes, ticks and completed deletes. */
  lemma MessageSpelledOut(s: State, width: int, height: int, outcome: DeleteOutcome)
    requires Indexed(s)
    ensures UpdateState(s, WindowSize(width, height)) == (s.(width := width, height := height), [])
    ensures var (s', cmds) := UpdateState(s, Tick);
      && TickCmd in cmds && (RefreshCmd(Names(s.rows)) in cmds <==> !s.refreshing && s.rows != [])
      && s' == s.(refreshing := s.refreshing || s.rows != [])
    ensures var (s', cmds) := UpdateState(s, DeleteDone(outcome));
      && (s.rows != [] ==> cmds == [RefreshCmd(Names(s.rows))]) && (s.rows == [] ==> cmds == [])
      && s'.dialog == NoDialog && s'.rows == s.rows && s'.conn == s.conn && s'.selected == s.selected
      && s'.refreshing == (s.refreshing || s.rows != [])
      && (s'.notice == NoNotice <==> outcome == Deleted)
      && (s'.notice == NoticeRefused <==> outcome == DeleteRefused)
      && (s'.notice == NoticeFailed <==> outcome == DeleteFailed)
  {
    hide Names;
  }

  function SeenRows(rows: seq<Row>): set<int> {
    set i | 0 <= i < |rows| && SeesBox(rows[i])
  }

  /** The number the cap line shows is that of the rows whose box the screen sees. */
  lemma {:induction false} CreatedCountSpelledOut(rows: seq<Row>)
    ensures CreatedCount(rows) == |SeenRows(rows)|
  {
    if rows == [] {
      assert SeenRows(rows) == {};
    } else {
      var init, last := rows[..|rows| - 1], |rows| - 1;
      CreatedCountSpelledOut(init);
      assert SeenRows(rows) == SeenRows(init) + if SeesBox(rows[last]) then {last} else {};
    }
  }

  /** What the program sends first: one refresh, for all names. */
  lemma {:induction false} StartSpelledOut(s: State)
    ensures Start(s).refreshes == multiset{Refresh(Names(s.rows), 0)} && Start(s).deletes == multiset{}
  {
    CommandCounts(Names(s.rows), "", 0);
    hide NewRefreshes, NewDeletes, Names;
  }
}
