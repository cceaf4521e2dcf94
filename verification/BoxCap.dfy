/** The per-owner cap on live boxes: list first, create later (config-server/persistent.go). */
module BoxCap {
  import opened Sets

  datatype PodPhase = Pending | Running | Unknown | Succeeded | Failed

  datatype Pod = Pod(label_: string, terminating: bool, phase: PodPhase)

  /** A live box: not being deleted and not in a terminal phase. */
  predicate Live(p: Pod) {
    !p.terminating && p.phase != Succeeded && p.phase != Failed
  }

  // ---- the cap check ----

  datatype Item = Item(name: string, pod: Pod)

  /** The answer of the list call: the pods carrying the owner label, or a failure. */
  datatype Listing = Listed(items: seq<Item>) | ListFailed

  datatype Verdict = Admit | AtCap | CannotList

  function LiveItems(items: seq<Item>): seq<string> {
    if items == [] then []
    else LiveItems(items[..|items| - 1]) +
         if Live(items[|items| - 1].pod) then [items[|items| - 1].name] else []
  }

  function CapVerdict(cap: int, listing: Listing, pod: string): Verdict {
    if cap <= 0 then Admit
    else match listing
      case ListFailed => CannotList
      case Listed(items) =>
        if pod in LiveItems(items) || |LiveItems(items)| < cap then Admit else AtCap
  }

  method LivePodNamesForOwner(items: seq<Item>) returns (names: seq<string>)
    ensures names == LiveItems(items)
  {
    names := [];
    for i := 0 to |items|
      invariant names == LiveItems(items[..i])
    {
      assert items[..i + 1][..i] == items[..i];
      var pod := items[i].pod;
      if !(pod.terminating || pod.phase == Succeeded || pod.phase == Failed) {
        names := names + [items[i].name];
      }
    }
    assert items[..|items|] == items;
  }

  method EnforceCap(cap: int, listing: Listing, podName: string) returns (verdict: Verdict)
    ensures verdict == CapVerdict(cap, listing, podName)
  {
    if cap <= 0 { return Admit; }
    if listing.ListFailed? { return CannotList; }
    var names := LivePodNamesForOwner(listing.items);
    for i := 0 to |names|
      invariant podName !in names[..i]
    {
      if names[i] == podName { return Admit; }
    }
    assert names[..|names|] == names;
    if |names| >= cap { return AtCap; }
    return Admit;
  }

  // ---- every interleaving of requests, pod creations and pod deaths ----

  datatype Stage = Asking | Admitted | Closed

  datatype Request = Request(label_: string, pod: string, stage: Stage)

  datatype World = World(pods: map<string, Pod>, requests: seq<Request>)

  /** `Create` is the gateway's step: it makes the named pod if there is none. `Age` is any change of a
      pod that does not bring it back to life. */
  datatype Event =
    | Arrive(label_: string, pod: string)
    | List(i: nat, fails: bool)
    | Create(i: nat)
    | Abandon(i: nat)
    | Age(name: string, now: Pod)
    | Remove(name: string)

  function LiveNames(pods: map<string, Pod>, label_: string): set<string> {
    set n | n in pods && pods[n].label_ == label_ && Live(pods[n])
  }

  predicate Admits(cap: int, pods: map<string, Pod>, r: Request) {
    cap <= 0 || r.pod in LiveNames(pods, r.label_) || |LiveNames(pods, r.label_)| < cap
  }

  predicate Enabled(w: World, e: Event) {
    match e
    case Arrive(_, _) => true
    case List(i, _) => i < |w.requests| && w.requests[i].stage == Asking
    case Create(i) => i < |w.requests| && w.requests[i].stage == Admitted
    case Abandon(i) => i < |w.requests|
    case Age(n, pod) => n in w.pods && pod.label_ == w.pods[n].label_ && (Live(pod) ==> Live(w.pods[n]))
    case Remove(_) => true
  }

  function SetStage(w: World, i: nat, stage: Stage): World
    requires i < |w.requests|
  {
    World(w.pods, w.requests[i := w.requests[i].(stage := stage)])
  }

  function Happen(cap: int, w: World, e: Event): World {
    if !Enabled(w, e) then w
    else match e
      case Arrive(l, p) => World(w.pods, w.requests + [Request(l, p, Asking)])
      case List(i, fails) => SetStage(w, i, if (cap > 0 && fails) || !Admits(cap, w.pods, w.requests[i]) then Closed else Admitted)
      case Create(i) =>
        var r, w' := w.requests[i], SetStage(w, i, Closed);
        if r.pod in w.pods then w' else World(w.pods[r.pod := Pod(r.label_, false, Pending)], w'.requests)
      case Abandon(i) => SetStage(w, i, Closed)
      case Age(n, pod) => World(w.pods[n := pod], w.requests)
      case Remove(n) => World(w.pods - {n}, w.requests)
  }

  function Run(cap: int, w: World, events: seq<Event>): World {
    if events == [] then w else Happen(cap, Run(cap, w, events[..|events| - 1]), events[|events| - 1])
  }

  /** The requests of a label that are past their list call but whose pod is not there yet. */
  function Between(w: World, label_: string): set<nat> {
    set i: nat | i < |w.requests| && w.requests[i].label_ == label_ && w.requests[i].stage == Admitted
  }

  function BetweenNames(w: World, label_: string): set<string> {
    set i: nat | i < |w.requests| && w.requests[i].label_ == label_ && w.requests[i].stage == Admitted :: w.requests[i].pod
  }

  /** Boxes that are live or can still become live without another list call. */
  function Claimed(w: World, label_: string): set<string> {
    LiveNames(w.pods, label_) + BetweenNames(w, label_)
  }

  // ---- the check is the one the interleaving uses ----

  ghost predicate Enumerates(items: seq<Item>, pods: map<string, Pod>, label_: string) {
    && (forall i, j :: 0 <= i < j < |items| ==> items[i].name != items[j].name)
    && (forall i :: 0 <= i < |items| ==> items[i].name in pods && pods[items[i].name] == items[i].pod && items[i].pod.label_ == label_)
    && (forall n :: n in pods && pods[n].label_ == label_ ==> Item(n, pods[n]) in items)
  }

  ghost predicate LiveAt(items: seq<Item>, n: string, i: int) {
    0 <= i < |items| && items[i].name == n && Live(items[i].pod)
  }

  lemma {:induction false} LiveItemsMembers(items: seq<Item>, n: string)
    ensures n in LiveItems(items) <==> exists i :: LiveAt(items, n, i)
  {
    if items == [] {
    } else {
      var init, last := items[..|items| - 1], items[|items| - 1];
      LiveItemsMembers(init, n);
      if i :| LiveAt(init, n, i) { assert LiveAt(items, n, i); }
      if i :| LiveAt(items, n, i) && i < |init| { assert LiveAt(init, n, i); }
      if last.name == n && Live(last.pod) { assert LiveAt(items, n, |init|); }
    }
  }

  lemma {:induction false} LiveItemsCount(items: seq<Item>)
    requires forall i, j :: 0 <= i < j < |items| ==> items[i].name != items[j].name
    ensures |LiveItems(items)| == |set n | n in LiveItems(items)|
  {
    if items != [] {
      var init, last := items[..|items| - 1], items[|items| - 1];
      LiveItemsCount(init);
      LiveItemsMembers(init, last.name);
      var names, names' := LiveItems(init), LiveItems(items);
      if Live(last.pod) {
        assert forall i :: !LiveAt(init, last.name, i);
        assert (set n | n in names') == (set n | n in names) + {last.name};
      } else {
        assert names' == names;
      }
    }
  }

  /** Whatever order the API lists an owner's pods in, the check admits exactly what `Admits` says. */
  lemma VerdictIsAdmits(cap: int, items: seq<Item>, pods: map<string, Pod>, r: Request)
    requires Enumerates(items, pods, r.label_)
    ensures CapVerdict(cap, Listed(items), r.pod) == Admit <==> Admits(cap, pods, r)
  {
    LiveItemsCount(items);
    var names := LiveItems(items);
    hide LiveItems;
    assert (set n | n in names) == LiveNames(pods, r.label_) by {
      forall n ensures n in names <==> n in LiveNames(pods, r.label_) {
        LiveItemsMembers(items, n);
        if i :| LiveAt(items, n, i) { assert items[i].name == n; }
        if n in LiveNames(pods, r.label_) {
          var i :| 0 <= i < |items| && items[i] == Item(n, pods[n]);
          assert LiveAt(items, n, i);
        }
      }
    }
  }

  // ---- the bound ----

  lemma NamesAreFewer(w: World, label_: string)
    ensures |BetweenNames(w, label_)| <= |Between(w, label_)|
  {
    FewerNames(w, Between(w, label_));
    assert BetweenNames(w, label_) == set i | i in Between(w, label_) :: w.requests[i].pod;
  }

  lemma {:induction false} FewerNames(w: World, s: set<nat>)
    requires forall i :: i in s ==> i < |w.requests|
    ensures |set i | i in s :: w.requests[i].pod| <= |s|
  {
    if s != {} {
      var k :| k in s;
      FewerNames(w, s - {k});
      assert (set i | i in s :: w.requests[i].pod) == (set i | i in s - {k} :: w.requests[i].pod) + {w.requests[k].pod};
    }
  }

  /** Only a list call that admits a new box can enlarge the claimed set. */
  lemma OnlyNewBoxesEnlarge(cap: int, w: World, e: Event, label_: string)
    ensures var w' := Happen(cap, w, e);
      || Claimed(w', label_) <= Claimed(w, label_)
      || (cap > 0 ==> LiveNames(w'.pods, label_) == LiveNames(w.pods, label_) && |LiveNames(w.pods, label_)| < cap)
  {
    if Enabled(w, e) && e.List? {
      ListEnlarges(cap, w, e.i, e.fails, label_);
    } else {
      var w' := Happen(cap, w, e);
      assert LiveNames(w'.pods, label_) <= Claimed(w, label_);
      assert BetweenNames(w', label_) <= BetweenNames(w, label_);
    }
  }

  lemma ListEnlarges(cap: int, w: World, i: nat, fails: bool, label_: string)
    requires i < |w.requests| && w.requests[i].stage == Asking
    ensures var w' := Happen(cap, w, List(i, fails));
      || Claimed(w', label_) <= Claimed(w, label_)
      || (cap > 0 ==> w'.pods == w.pods && |LiveNames(w.pods, label_)| < cap)
  {
    var w' := Happen(cap, w, List(i, fails));
    var r := w.requests[i];
    hide LiveNames;
    if r.label_ != label_ || w'.requests[i].stage == Closed || r.pod in LiveNames(w.pods, label_) {
      assert BetweenNames(w', label_) <= BetweenNames(w, label_) + LiveNames(w.pods, label_);
    }
  }

  /** The cap under races. If at most `width` requests of an owner label are ever between their list
      call and their pod's creation, then the boxes that are live or can still become live never
      exceed cap - 1 + width; with one request at a time, never the cap. Reconnects, deletions,
      failures and other owners may interleave freely. */
  lemma {:induction false} CapUnderRaces(cap: int, width: nat, pods: map<string, Pod>, label_: string, events: seq<Event>)
    requires cap > 0 && width >= 1 && |LiveNames(pods, label_)| <= cap
    requires forall n :: 0 <= n <= |events| ==> |Between(Run(cap, World(pods, []), events[..n]), label_)| <= width
    ensures |Claimed(Run(cap, World(pods, []), events), label_)| <= cap - 1 + width
  {
    var w0 := World(pods, []);
    if events == [] {
      assert BetweenNames(w0, label_) == {};
    } else {
      var init, e := events[..|events| - 1], events[|events| - 1];
      assert forall n :: 0 <= n <= |init| ==> init[..n] == events[..n];
      CapUnderRaces(cap, width, pods, label_, init);
      var w, w' := Run(cap, w0, init), Run(cap, w0, events);
      OnlyNewBoxesEnlarge(cap, w, e, label_);
      if Claimed(w', label_) <= Claimed(w, label_) {
        SubsetSize(Claimed(w', label_), Claimed(w, label_));
      } else {
        assert events[..|events|] == events;
        NamesAreFewer(w', label_);
      }
    }
  }

  // ---- the bound is exact ----

  /** Distinct pod names for the run below. */
  function Numbered(n: nat): (name: string)
    ensures |name| == n
  {
    if n == 0 then "" else Numbered(n - 1) + "x"
  }

  function StageAfter(j: nat, listed: nat, created: nat): Stage {
    if j < created then Closed else if j < listed then Admitted else Asking
  }

  /** So many new boxes have been asked for, listed and created, one owner, cap - 1 boxes before. */
  ghost predicate Rush(w: World, cap: int, label_: string, asked: nat, listed: nat, created: nat)
    requires cap > 0
  {
    && |w.requests| == asked
    && (forall j :: 0 <= j < asked ==> w.requests[j] == Request(label_, Numbered(cap - 1 + j), StageAfter(j, listed, created)))
    && NumberedPods(w.pods, label_, cap - 1 + created)
  }

  ghost predicate NumberedPods(pods: map<string, Pod>, label_: string, count: nat) {
    && (forall n :: n in pods <==> |n| < count && n == Numbered(|n|))
    && (forall n :: n in pods ==> pods[n] == Pod(label_, false, Pending))
  }

  lemma {:induction false} NumberedLive(pods: map<string, Pod>, label_: string, count: nat)
    requires NumberedPods(pods, label_, count)
    ensures |LiveNames(pods, label_)| == count
  {
    hide Numbered;
    if count == 0 {
      assert LiveNames(pods, label_) == {};
    } else {
      var last := Numbered(count - 1);
      NumberedLive(pods - {last}, label_, count - 1);
      assert LiveNames(pods, label_) == LiveNames(pods - {last}, label_) + {last};
    }
  }

  lemma RushBetween(w: World, cap: int, label_: string, asked: nat, listed: nat, created: nat)
    requires cap > 0 && Rush(w, cap, label_, asked, listed, created)
    ensures |Between(w, label_)| <= asked
  {
    assert Between(w, label_) <= Below(asked);
    SubsetSize(Between(w, label_), Below(asked));
  }

  /** The n-th event of the rush: everyone arrives, everyone lists, everyone's pod is created. */
  function RushEvent(cap: int, width: nat, label_: string, n: nat): Event
    requires cap > 0
  {
    if n < width then Arrive(label_, Numbered(cap - 1 + n))
    else if n < 2 * width then List(n - width, false)
    else Create(n - 2 * width)
  }

  function RushEvents(cap: int, width: nat, label_: string, n: nat): (events: seq<Event>)
    requires cap > 0
    ensures |events| == n
  {
    if n == 0 then [] else RushEvents(cap, width, label_, n - 1) + [RushEvent(cap, width, label_, n - 1)]
  }

  function Clip(n: int, width: nat): nat {
    if n < 0 then 0 else if n > width then width else n
  }

  lemma RushArrives(cap: int, width: nat, label_: string, w: World, n: nat)
    requires cap > 0 && n < width && Rush(w, cap, label_, n, 0, 0)
    ensures Rush(Happen(cap, w, Arrive(label_, Numbered(cap - 1 + n))), cap, label_, n + 1, 0, 0)
  {
    hide Numbered, NumberedPods;
  }

  lemma AdmittedBy(cap: int, w: World, i: nat)
    requires i < |w.requests| && w.requests[i].stage == Asking && Admits(cap, w.pods, w.requests[i])
    ensures Happen(cap, w, List(i, false)) == World(w.pods, w.requests[i := w.requests[i].(stage := Admitted)])
  {}

  lemma RushLists(cap: int, width: nat, label_: string, w: World, i: nat)
    requires cap > 0 && i < width && Rush(w, cap, label_, width, i, 0)
    ensures Rush(Happen(cap, w, List(i, false)), cap, label_, width, i + 1, 0)
  {
    hide Numbered, NumberedPods, Happen, LiveNames;
    NumberedLive(w.pods, label_, cap - 1);
    AdmittedBy(cap, w, i);
  }

  lemma RushCreates(cap: int, width: nat, label_: string, w: World, i: nat)
    requires cap > 0 && i < width && Rush(w, cap, label_, width, width, i)
    ensures Rush(Happen(cap, w, Create(i)), cap, label_, width, width, i + 1)
  {
    hide Numbered;
    var name := Numbered(cap - 1 + i);
    assert w.requests[i] == Request(label_, name, Admitted) && |name| == cap - 1 + i;
    var w' := Happen(cap, w, Create(i));
    assert w'.pods == w.pods[name := Pod(label_, false, Pending)];
    forall n ensures n in w'.pods <==> |n| < cap + i && n == Numbered(|n|) {}
  }

  lemma RushStep(cap: int, width: nat, label_: string, w: World, n: nat)
    requires cap > 0 && n < 3 * width
    requires Rush(w, cap, label_, Clip(n, width), Clip(n - width, width), Clip(n - 2 * width, width))
    ensures Rush(Happen(cap, w, RushEvent(cap, width, label_, n)), cap, label_,
                 Clip(n + 1, width), Clip(n + 1 - width, width), Clip(n + 1 - 2 * width, width))
  {
    hide Rush, Happen;
    if n < width { RushArrives(cap, width, label_, w, n); }
    else if n < 2 * width { RushLists(cap, width, label_, w, n - width); }
    else { RushCreates(cap, width, label_, w, n - 2 * width); }
  }

  lemma {:induction false} RushRun(cap: int, width: nat, label_: string, pods: map<string, Pod>, n: nat)
    requires cap > 0 && n <= 3 * width && Rush(World(pods, []), cap, label_, 0, 0, 0)
    ensures Rush(Run(cap, World(pods, []), RushEvents(cap, width, label_, n)), cap, label_,
                 Clip(n, width), Clip(n - width, width), Clip(n - 2 * width, width))
  {
    hide Rush, Happen, RushEvent;
    if n > 0 {
      RushRun(cap, width, label_, pods, n - 1);
      var events := RushEvents(cap, width, label_, n);
      assert events[..|events| - 1] == RushEvents(cap, width, label_, n - 1);
      RushStep(cap, width, label_, Run(cap, World(pods, []), events[..|events| - 1]), n - 1);
    }
  }

  lemma {:induction false} RushPrefix(cap: int, width: nat, label_: string, n: nat, m: nat)
    requires cap > 0 && m <= n
    ensures RushEvents(cap, width, label_, n)[..m] == RushEvents(cap, width, label_, m)
  {
    if m < n {
      RushPrefix(cap, width, label_, n - 1, m);
      assert RushEvents(cap, width, label_, n)[..m] == RushEvents(cap, width, label_, n - 1)[..m];
    }
  }

  /** A cluster with so many boxes of one owner. */
  function NumberedBoxes(label_: string, count: nat): map<string, Pod> {
    if count == 0 then map[] else NumberedBoxes(label_, count - 1)[Numbered(count - 1) := Pod(label_, false, Pending)]
  }

  lemma OneMoreNumbered(pods: map<string, Pod>, label_: string, count: nat)
    requires NumberedPods(pods, label_, count)
    ensures NumberedPods(pods[Numbered(count) := Pod(label_, false, Pending)], label_, count + 1)
  {
    var last := Numbered(count);
    var more := pods[last := Pod(label_, false, Pending)];
    hide Numbered;
    forall n ensures n in more <==> |n| < count + 1 && n == Numbered(|n|) {
      assert n in more <==> n in pods || n == last;
      assert |n| == count ==> (n == Numbered(|n|) <==> n == last);
    }
  }

  lemma {:induction false} NumberedBoxesAreNumbered(label_: string, count: nat)
    ensures NumberedPods(NumberedBoxes(label_, count), label_, count)
  {
    hide Numbered;
    if count > 0 {
      hide NumberedPods;
      NumberedBoxesAreNumbered(label_, count - 1);
      OneMoreNumbered(NumberedBoxes(label_, count - 1), label_, count - 1);
    }
  }

  /** Nothing smaller would do: for every cap and every width there is a cluster with cap - 1 boxes of the
      owner and a run within `CapUnderRaces`' hypotheses in which cap - 1 + width boxes are live at once.
      The cap itself is a bound exactly when requests of one owner do not overlap. */
  lemma CapBoundIsReached(cap: int, width: nat, label_: string) returns (pods: map<string, Pod>, events: seq<Event>)
    requires cap > 0 && width >= 1
    ensures |LiveNames(pods, label_)| == cap - 1
    ensures forall n :: 0 <= n <= |events| ==> |Between(Run(cap, World(pods, []), events[..n]), label_)| <= width
    ensures |LiveNames(Run(cap, World(pods, []), events).pods, label_)| == cap - 1 + width
  {
    hide Run, Between, LiveNames, NumberedPods, NumberedBoxes, RushEvents, Rush;
    pods := NumberedBoxes(label_, cap - 1);
    RushCanStart(cap, label_);
    NumberedBoxesAreNumbered(label_, cap - 1);
    NumberedLive(pods, label_, cap - 1);
    events := RushEvents(cap, width, label_, 3 * width);
    forall n | 0 <= n <= |events| ensures |Between(Run(cap, World(pods, []), events[..n]), label_)| <= width {
      RushStaysNarrow(cap, width, label_, pods, n);
    }
    RushEnds(cap, width, label_, pods);
  }

  lemma RushCanStart(cap: int, label_: string)
    requires cap > 0
    ensures Rush(World(NumberedBoxes(label_, cap - 1), []), cap, label_, 0, 0, 0)
  {
    NumberedBoxesAreNumbered(label_, cap - 1);
    hide NumberedPods, NumberedBoxes;
  }

  lemma RushStaysNarrow(cap: int, width: nat, label_: string, pods: map<string, Pod>, n: nat)
    requires cap > 0 && n <= 3 * width && Rush(World(pods, []), cap, label_, 0, 0, 0)
    ensures |Between(Run(cap, World(pods, []), RushEvents(cap, width, label_, 3 * width)[..n]), label_)| <= width
  {
    hide Run, Between, Rush, RushEvents;
    RushPrefix(cap, width, label_, 3 * width, n);
    RushRun(cap, width, label_, pods, n);
    RushBetween(Run(cap, World(pods, []), RushEvents(cap, width, label_, n)), cap, label_,
                Clip(n, width), Clip(n - width, width), Clip(n - 2 * width, width));
  }

  lemma RushEnds(cap: int, width: nat, label_: string, pods: map<string, Pod>)
    requires cap > 0 && Rush(World(pods, []), cap, label_, 0, 0, 0)
    ensures |LiveNames(Run(cap, World(pods, []), RushEvents(cap, width, label_, 3 * width)).pods, label_)| == cap - 1 + width
  {
    hide Run, LiveNames, RushEvents, NumberedPods;
    RushRun(cap, width, label_, pods, 3 * width);
    NumberedLive(Run(cap, World(pods, []), RushEvents(cap, width, label_, 3 * width)).pods, label_, cap - 1 + width);
  }
}
