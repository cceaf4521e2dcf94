/** Any number of settings logins reconciling owner objects at the same time
    (config-server/owner_access.go), with other writers and faults in between. */
module OwnerAccessRuns {
  import opened Sets
  import opened Strings
  import opened Identity
  import opened KubeApi
  import opened OwnerAccess

  /** One login: the goals it works through, how far it is, and the API calls it has made. */
  datatype Caller = Caller(goals: seq<Goal>, stage: nat, progress: Progress, calls: nat) {
    predicate Working() { stage < |goals| && !progress.Finished() }
    predicate Succeeded() { stage >= |goals| }
    predicate Denied() { stage < |goals| && progress.phase == Refused }
  }

  datatype World = World(store: AccessStore, callers: seq<Caller>)

  datatype Event = Arrive(goals: seq<Goal>) | Operate(act: Act<Key, Content>) | Advance(i: nat, fault: Fault)

  function CallerAfter(c: Caller, limit: nat, reply: Reply<Content>): Caller
    requires c.Working()
  {
    var p := AfterReply(c.goals[c.stage], limit, c.progress, reply);
    if p.phase == Met then Caller(c.goals, c.stage + 1, START, c.calls + 1)
    else Caller(c.goals, c.stage, p, c.calls + 1)
  }

  function AdvanceCaller(limit: nat, w: World, i: nat, fault: Fault): World
    requires i < |w.callers| && w.callers[i].Working()
  {
    var c := w.callers[i];
    var served := ServeWithFault(w.store, fault, NextCall(c.goals[c.stage], c.progress));
    World(served.0, w.callers[i := CallerAfter(c, limit, served.1)])
  }

  predicate Enabled(w: World, e: Event) {
    e.Advance? ==> e.i < |w.callers| && w.callers[e.i].Working()
  }

  /** The world after an event. An event that is not enabled does not happen. */
  function Happen(limit: nat, w: World, e: Event): World {
    if !Enabled(w, e) then w
    else match e
      case Arrive(goals) => World(w.store, w.callers + [Caller(goals, 0, START, 0)])
      case Operate(act) => World(Perform(w.store, act), w.callers)
      case Advance(i, fault) => AdvanceCaller(limit, w, i, fault)
  }

  function Run(limit: nat, w: World, events: seq<Event>): World {
    if events == [] then w else Happen(limit, Run(limit, w, events[..|events| - 1]), events[|events| - 1])
  }

  // ---- what the server writes, whatever anyone else does ----

  /** A pending update carries the version of an object that was not foreign. Every write hands out a
      new version, so as long as the version still matches, the object is still not foreign. */
  ghost predicate Sighted(s: AccessStore, c: Caller) {
    c.Working() && c.progress.phase.Updating? ==>
      var goal := c.goals[c.stage];
      && c.progress.phase.version < s.clock
      && (goal.key in s.objs && s.objs[goal.key].version == c.progress.phase.version ==> !Blocked(goal, s))
  }

  ghost predicate AllSighted(w: World) {
    WellFormed(w.store) && forall i :: 0 <= i < |w.callers| ==> Sighted(w.store, w.callers[i])
  }

  /** A store change hands a new version to every object it touches. */
  ghost predicate Moves(s: AccessStore, s': AccessStore) {
    && s.clock <= s'.clock
    && forall k :: k in s'.objs ==> (k in s.objs && s'.objs[k] == s.objs[k]) || s'.objs[k].version >= s.clock
  }

  lemma MovingKeepsSight(s: AccessStore, s': AccessStore, c: Caller)
    requires Moves(s, s') && Sighted(s, c)
    ensures Sighted(s', c)
  {}

  lemma CallKeepsSight(limit: nat, s: AccessStore, c: Caller, fault: Fault)
    requires WellFormed(s) && Sighted(s, c) && c.Working()
    ensures var served := ServeWithFault(s, fault, NextCall(c.goals[c.stage], c.progress));
      Moves(s, served.0) && Sighted(served.0, CallerAfter(c, limit, served.1))
  {}

  lemma AdvanceKeepsSight(limit: nat, w: World, i: nat, fault: Fault)
    requires AllSighted(w) && i < |w.callers| && w.callers[i].Working()
    ensures AllSighted(AdvanceCaller(limit, w, i, fault))
  {
    var c := w.callers[i];
    var served := ServeWithFault(w.store, fault, NextCall(c.goals[c.stage], c.progress));
    ServePreservesWellFormed(w.store, fault, NextCall(c.goals[c.stage], c.progress));
    CallKeepsSight(limit, w.store, c, fault);
    hide WellFormed, ServeWithFault, CallerAfter, NextCall, Sighted, Moves;
    forall j | 0 <= j < |w.callers| ensures Sighted(served.0, w.callers[j]) {
      MovingKeepsSight(w.store, served.0, w.callers[j]);
    }
  }

  lemma {:induction false} RunKeepsSight(limit: nat, w: World, events: seq<Event>)
    requires AllSighted(w)
    ensures AllSighted(Run(limit, w, events))
  {
    if events != [] {
      var w1, e := Run(limit, w, events[..|events| - 1]), events[|events| - 1];
      RunKeepsSight(limit, w, events[..|events| - 1]);
      if Enabled(w1, e) {
        match e
        case Arrive(_) =>
        case Operate(act) =>
          PerformPreservesWellFormed(w1.store, act);
          forall i | 0 <= i < |w1.callers| ensures Sighted(Perform(w1.store, act), w1.callers[i]) {
            MovingKeepsSight(w1.store, Perform(w1.store, act), w1.callers[i]);
          }
        case Advance(i, fault) => AdvanceKeepsSight(limit, w1, i, fault);
      }
    }
  }

  /** In every run, with any other writers and faults, a step of a login changes at most the object
      its current goal names, leaves it exactly as the goal wants it, and never touches a foreign
      object: a binding to another role stays as it is. */
  lemma WritesAreWanted(limit: nat, store: AccessStore, events: seq<Event>, i: nat, fault: Fault, key: Key)
    requires WellFormed(store)
    requires var w := Run(limit, World(store, []), events);
      i < |w.callers| && w.callers[i].Working()
    ensures var w := Run(limit, World(store, []), events);
      var s, s' := w.store, AdvanceCaller(limit, w, i, fault).store;
      var goal := w.callers[i].goals[w.callers[i].stage];
      SameAt(key, s, s') || (key == goal.key && Held(goal, s') && !Blocked(goal, s))
  {
    RunKeepsSight(limit, World(store, []), events);
    assert Sighted(Run(limit, World(store, []), events).store, Run(limit, World(store, []), events).callers[i]);
  }

  // ---- how many objects the server makes ----

  function GoalKeys(goals: seq<Goal>): set<Key> {
    set g | g in goals :: g.key
  }

  function ArrivedKeys(events: seq<Event>): set<Key> {
    if events == [] then {}
    else
      var e := events[|events| - 1];
      ArrivedKeys(events[..|events| - 1]) + if e.Arrive? then GoalKeys(e.goals) else {}
  }

  function OperatorKeys(events: seq<Event>): set<Key> {
    if events == [] then {}
    else
      var e := events[|events| - 1];
      OperatorKeys(events[..|events| - 1]) + if e.Operate? then {e.act.key} else {}
  }

  /** Objects appear only under keys some login named or another writer used. */
  lemma {:induction false} KeysGrowByGoals(limit: nat, store: AccessStore, events: seq<Event>)
    ensures var w := Run(limit, World(store, []), events);
      && w.store.objs.Keys <= store.objs.Keys + OperatorKeys(events) + ArrivedKeys(events)
      && forall i :: 0 <= i < |w.callers| ==> GoalKeys(w.callers[i].goals) <= ArrivedKeys(events)
  {
    if events != [] {
      KeysGrowByGoals(limit, store, events[..|events| - 1]);
      var w, e := Run(limit, World(store, []), events[..|events| - 1]), events[|events| - 1];
      if e.Advance? && Enabled(w, e) {
        var c := w.callers[e.i];
        assert c.goals[c.stage].key in GoalKeys(c.goals);
      }
    }
  }

  /** Every login asks for the three objects of one of these owners. */
  ghost predicate LoginsOf(sha: Digest, owners: set<string>, events: seq<Event>) {
    forall e :: e in events && e.Arrive? ==>
      exists o, rules :: o in owners && e.goals == OwnerGoals(OwnerObjectName(sha, o), rules)
  }

  function NamesOf(sha: Digest, owners: set<string>): set<string> {
    set o | o in owners :: OwnerObjectName(sha, o)
  }

  lemma ArrivalNamesOwner(sha: Digest, owners: set<string>, o: string, rules: seq<Rule>)
    requires o in owners
    ensures forall k :: k in GoalKeys(OwnerGoals(OwnerObjectName(sha, o), rules)) ==> k.name in NamesOf(sha, owners)
  {
    hide OwnerObjectName;
  }

  lemma {:induction false} ArrivalsNameOwners(sha: Digest, owners: set<string>, events: seq<Event>)
    requires LoginsOf(sha, owners, events)
    ensures forall k :: k in ArrivedKeys(events) ==> k.name in NamesOf(sha, owners)
  {
    if events != [] {
      hide OwnerGoals, OwnerObjectName, GoalKeys, NamesOf;
      var init, e := events[..|events| - 1], events[|events| - 1];
      assert forall d :: d in init ==> d in events;
      ArrivalsNameOwners(sha, owners, init);
      if e.Arrive? {
        assert e in events;
        var o, rules :| o in owners && e.goals == OwnerGoals(OwnerObjectName(sha, o), rules);
        ArrivalNamesOwner(sha, owners, o, rules);
      }
    }
  }

  lemma {:induction false} AtMostThreeKinds(keys: set<Key>, names: set<string>)
    requires forall k :: k in keys ==> k.name in names
    ensures |keys| <= 3 * |names|
    decreases |names|
  {
    if names == {} {
      assert keys == {};
    } else {
      var n :| n in names;
      var of := {Key(ServiceAccount, n), Key(Role, n), Key(RoleBinding, n)};
      forall k | k in keys - of ensures k.name in names - {n} {
        assert k.kind.ServiceAccount? || k.kind.Role? || k.kind.RoleBinding?;
      }
      AtMostThreeKinds(keys - of, names - {n});
      SubsetSize(keys, (keys - of) + of);
    }
  }

  function TrimmedOwners(owners: set<string>): set<string> {
    set o | o in owners :: TrimSpace(o)
  }

  function NamesOfTrimmed(sha: Digest, trimmed: set<string>): set<string> {
    set t | t in trimmed :: NameOfTrimmed(sha, t)
  }

  lemma {:induction false} OneNameEach(sha: Digest, trimmed: set<string>)
    ensures |NamesOfTrimmed(sha, trimmed)| <= |trimmed|
  {
    hide NameOfTrimmed;
    if trimmed != {} {
      var t :| t in trimmed;
      OneNameEach(sha, trimmed - {t});
      assert NamesOfTrimmed(sha, trimmed) == NamesOfTrimmed(sha, trimmed - {t}) + {NameOfTrimmed(sha, t)};
    }
  }

  /** Owners that trim to the same string share their objects. */
  lemma FewerNamesThanOwners(sha: Digest, owners: set<string>)
    ensures |NamesOf(sha, owners)| <= |TrimmedOwners(owners)|
  {
    hide NameOfTrimmed, TrimSpace;
    OneNameEach(sha, TrimmedOwners(owners));
    forall n | n in NamesOf(sha, owners) ensures n in NamesOfTrimmed(sha, TrimmedOwners(owners)) {
      var o :| o in owners && n == OwnerObjectName(sha, o);
      assert TrimSpace(o) in TrimmedOwners(owners);
    }
    SubsetSize(NamesOf(sha, owners), NamesOfTrimmed(sha, TrimmedOwners(owners)));
  }

  /** However often the owners log in, and however those logins interleave, the cluster gains at most
      one ServiceAccount, one Role and one RoleBinding per distinct trimmed owner. */
  lemma {:induction false} ThreeObjectsPerOwner(sha: Digest, limit: nat, store: AccessStore, owners: set<string>, events: seq<Event>)
    requires LoginsOf(sha, owners, events)
    ensures |Run(limit, World(store, []), events).store.objs.Keys - store.objs.Keys - OperatorKeys(events)|
            <= 3 * |TrimmedOwners(owners)|
  {
    hide OwnerObjectName, TrimSpace, Run;
    KeysGrowByGoals(limit, store, events);
    ArrivalsNameOwners(sha, owners, events);
    AtMostThreeKinds(Run(limit, World(store, []), events).store.objs.Keys - store.objs.Keys - OperatorKeys(events), NamesOf(sha, owners));
    FewerNamesThanOwners(sha, owners);
  }

  // ---- concurrent logins that want the same thing ----

  /** Logins of one owner with one template list, no faults, and no other writer of these objects. */
  predicate Peaceful(goals: seq<Goal>, e: Event) {
    match e
    case Arrive(g) => g == goals
    case Operate(act) => forall g :: g in goals ==> g.key != act.key
    case Advance(_, fault) => fault == NoFault
  }

  /** What is known of a login at each program point: an object it is about to create is still absent
      or already right, an object it is about to update is unchanged or already right, and after a
      conflict the object is right. */
  ghost predicate OnTrack(goals: seq<Goal>, s: AccessStore, c: Caller) {
    && c.goals == goals && c.stage <= |goals|
    && (forall j :: 0 <= j < c.stage ==> Held(goals[j], s))
    && (c.stage == |goals| ==> c.calls <= 3 * c.stage && c.progress == START)
    && (c.stage < |goals| ==> GoalOnTrack(goals[c.stage], s, c.progress) && c.calls <= 3 * c.stage + CallsBefore(c.progress))
  }

  function CallsBefore(p: Progress): nat {
    if p.phase != Reading then 1 else if p.attempt == 0 then 0 else 2
  }

  ghost predicate GoalOnTrack(goal: Goal, s: AccessStore, p: Progress) {
    match p.phase
    case Reading => p.attempt == 0 || (p.attempt == 1 && Held(goal, s))
    case Creating => p.attempt == 0 && (goal.key !in s.objs || Held(goal, s))
    case Updating(v) => p.attempt == 0 && goal.key in s.objs && (s.objs[goal.key].version == v || Held(goal, s))
    case _ => false
  }

  ghost predicate NoneBlocked(goals: seq<Goal>, s: AccessStore) {
    forall i :: 0 <= i < |goals| ==> !Blocked(goals[i], s)
  }

  ghost predicate AllOnTrack(goals: seq<Goal>, w: World) {
    NoneBlocked(goals, w.store) && forall i :: 0 <= i < |w.callers| ==> OnTrack(goals, w.store, w.callers[i])
  }

  /** Each goal's object is left alone or made right. */
  ghost predicate Improves(goals: seq<Goal>, s: AccessStore, s': AccessStore) {
    forall i :: 0 <= i < |goals| ==> SameAt(goals[i].key, s, s') || Held(goals[i], s')
  }

  predicate Consistent(goals: seq<Goal>) {
    DistinctKeys(goals) && forall i :: 0 <= i < |goals| ==> !Foreign(goals[i], goals[i].wanted)
  }

  lemma ImprovementKeepsTrack(goals: seq<Goal>, s: AccessStore, s': AccessStore, c: Caller)
    requires Improves(goals, s, s') && OnTrack(goals, s, c)
    ensures OnTrack(goals, s', c)
  {
    hide Satisfied;
    if c.stage < |goals| {
      var goal := goals[c.stage];
      assert SameAt(goal.key, s, s') || Held(goal, s');
    }
  }

  /** One call of a login that is on track: it improves the store, cannot fail, and needs a second
      attempt only when the object has meanwhile been made right. */
  lemma OneCall(goal: Goal, limit: nat, s: AccessStore, p: Progress)
    requires limit >= 2 && GoalOnTrack(goal, s, p) && !Blocked(goal, s) && !Foreign(goal, goal.wanted)
    ensures var served := Serve(s, NextCall(goal, p));
      var p' := AfterReply(goal, limit, p, served.1);
      && (SameAt(goal.key, s, served.0) || Held(goal, served.0))
      && (forall k :: k != goal.key ==> SameAt(k, s, served.0))
      && (p'.phase == Met ==> Held(goal, served.0))
      && (p'.phase != Met ==> GoalOnTrack(goal, served.0, p') && CallsBefore(p') == CallsBefore(p) + 1)
  {}

  lemma AdvanceStaysOnTrack(goals: seq<Goal>, limit: nat, w: World, i: nat)
    requires limit >= 2 && Consistent(goals) && AllOnTrack(goals, w)
    requires i < |w.callers| && w.callers[i].Working()
    ensures AllOnTrack(goals, AdvanceCaller(limit, w, i, NoFault))
  {
    var c := w.callers[i];
    assert OnTrack(goals, w.store, c);
    var goal := goals[c.stage];
    OneCall(goal, limit, w.store, c.progress);
    var served := Serve(w.store, NextCall(goal, c.progress));
    var c' := CallerAfter(c, limit, served.1);
    hide Serve, NextCall, AfterReply, Satisfied, Foreign, GoalOnTrack;
    assert Improves(goals, w.store, served.0);
    assert NoneBlocked(goals, served.0) by {
      forall j | 0 <= j < |goals| ensures !Blocked(goals[j], served.0) { HeldIsNotBlocked(goals[j], served.0); }
    }
    assert OnTrack(goals, served.0, c') by {
      ImprovementKeepsTrack(goals, w.store, served.0, c);
      if c'.stage == c.stage + 1 && c'.stage < |goals| { FreshStart(goals[c'.stage], served.0); }
    }
    forall j | 0 <= j < |w.callers| ensures OnTrack(goals, served.0, w.callers[j]) {
      ImprovementKeepsTrack(goals, w.store, served.0, w.callers[j]);
    }
  }

  lemma HeldIsNotBlocked(goal: Goal, s: AccessStore)
    requires !Foreign(goal, goal.wanted)
    ensures Held(goal, s) ==> !Blocked(goal, s)
  {}

  lemma FreshStart(goal: Goal, s: AccessStore)
    ensures GoalOnTrack(goal, s, START) && CallsBefore(START) == 0
  {}

  lemma {:induction false} RunStaysOnTrack(goals: seq<Goal>, limit: nat, store: AccessStore, events: seq<Event>)
    requires limit >= 2 && Consistent(goals) && NoneBlocked(goals, store)
    requires forall e :: e in events ==> Peaceful(goals, e)
    ensures AllOnTrack(goals, Run(limit, World(store, []), events))
  {
    if events != [] {
      var init, e := events[..|events| - 1], events[|events| - 1];
      assert e in events && forall d :: d in init ==> d in events;
      RunStaysOnTrack(goals, limit, store, init);
      var w := Run(limit, World(store, []), init);
      if Enabled(w, e) {
        match e
        case Arrive(_) =>
        case Operate(act) =>
          var s' := Perform(w.store, act);
          forall j | 0 <= j < |goals| ensures SameAt(goals[j].key, w.store, s') {
            assert goals[j] in goals;
          }
          forall i | 0 <= i < |w.callers| ensures OnTrack(goals, s', w.callers[i]) {
            ImprovementKeepsTrack(goals, w.store, s', w.callers[i]);
          }
        case Advance(i, _) => AdvanceStaysOnTrack(goals, limit, w, i);
      }
    }
  }

  /** Reconcile convergence. Let any number of logins wanting the same objects run concurrently, with a
      retry limit of at least two. Whatever the interleaving, no login is refused, none needs a third
      attempt at an object, each has succeeded by its third API call per object, and once one
      has succeeded every object is, and stays, as wanted. */
  lemma {:induction false} ReconcileConverges(goals: seq<Goal>, limit: nat, store: AccessStore, events: seq<Event>, i: nat)
    requires limit >= 2 && Consistent(goals) && NoneBlocked(goals, store)
    requires forall e :: e in events ==> Peaceful(goals, e)
    requires i < |Run(limit, World(store, []), events).callers|
    ensures var w := Run(limit, World(store, []), events);
      var c := w.callers[i];
      && !c.Denied()
      && c.progress.attempt <= 1
      && (c.calls >= 3 * |goals| ==> c.Succeeded())
      && (c.Succeeded() ==> forall j :: 0 <= j < |goals| ==> Held(goals[j], w.store))
  {
    RunStaysOnTrack(goals, limit, store, events);
    var w := Run(limit, World(store, []), events);
    assert OnTrack(goals, w.store, w.callers[i]);
  }

  lemma OwnerGoalsFit(name: string, rules: seq<Rule>, s: AccessStore)
    ensures Consistent(OwnerGoals(name, rules))
    ensures NoneBlocked(OwnerGoals(name, rules), s) <==> !Obstructed(s, name)
  {
    var goals := OwnerGoals(name, rules);
    assert NoneBlocked(goals, s) <==> !Blocked(goals[0], s) && !Blocked(goals[1], s) && !Blocked(goals[2], s);
  }

  /** What a login does with an answer. A failed call ends it, whether or not the call took effect. A conflict,
      or an object that turns out to exist, starts the attempt over while the limit allows another and
      ends the login otherwise; nothing else is ever tried again. */
  lemma OnlyConflictsAreRetried(limit: nat, w: World, i: nat, fault: Fault)
    requires i < |w.callers| && w.callers[i].Working()
    ensures var c, c' := w.callers[i], AdvanceCaller(limit, w, i, fault).callers[i];
      var reply := ServeWithFault(w.store, fault, NextCall(c.goals[c.stage], c.progress)).1;
      && c'.goals == c.goals && c'.calls == c.calls + 1
      && (fault != NoFault ==> c'.Denied())
      && (reply == Conflict || reply == AlreadyExists ==>
            if c.progress.attempt + 1 < limit then c'.stage == c.stage && c'.progress == Progress(c.progress.attempt + 1, Reading)
            else c'.Denied())
      && (reply != Conflict && reply != AlreadyExists && !c'.Denied() ==>
            c'.stage == c.stage + 1 || (c'.stage == c.stage && c'.progress.attempt == c.progress.attempt && c'.progress.phase != Reading))
  {}

  // ---- authority over whole runs ----

  /** One settings login: who, and the templates the walk listed for it. */
  datatype Login = Login(owner: string, templates: seq<string>)

  function GoalsOf(sha: Digest, l: Login): seq<Goal> {
    OwnerGoals(OwnerObjectName(sha, l.owner), OwnerRules(sha, l.owner, l.templates))
  }

  function RoleOf(sha: Digest, l: Login): Key {
    Key(Role, OwnerObjectName(sha, l.owner))
  }

  /** The object is a Role that allows get and delete on the pods of the login's owner and listed
      templates, and nothing else. */
  ghost predicate AllowsExactly(sha: Digest, c: Content, l: Login) {
    c.Grant? && forall verb, group, resource, pod ::
      Allows(c.rules, verb, group, resource, pod) <==>
      && (verb == "get" || verb == "delete") && group == "" && resource == "pods"
      && exists t :: t in l.templates && pod == BoxPodName(sha, TrimSpace(l.owner), t)
  }

  lemma WantedRoleIsExact(sha: Digest, l: Login)
    ensures AllowsExactly(sha, GoalsOf(sha, l)[1].wanted, l)
  {
    hide OwnerRules, BoxPodName, OwnerObjectName, TrimSpace;
    forall verb, group, resource, pod
      ensures Allows(OwnerRules(sha, l.owner, l.templates), verb, group, resource, pod) <==>
        && (verb == "get" || verb == "delete") && group == "" && resource == "pods"
        && exists t :: t in l.templates && pod == BoxPodName(sha, TrimSpace(l.owner), t)
    {
      ExactAuthority(sha, l.owner, l.templates, verb, group, resource, pod);
    }
  }

  /** Every arrival is a settings login: of any owner, with any list. */
  ghost predicate AllLogins(sha: Digest, events: seq<Event>) {
    forall e :: e in events && e.Arrive? ==> exists l: Login :: e.goals == GoalsOf(sha, l)
  }

  lemma {:induction false} CallersArrived(limit: nat, w: World, events: seq<Event>)
    requires w.callers == []
    ensures forall i :: 0 <= i < |Run(limit, w, events).callers| ==> Arrive(Run(limit, w, events).callers[i].goals) in events
  {
    if events != [] {
      var init, e := events[..|events| - 1], events[|events| - 1];
      CallersArrived(limit, w, init);
      assert forall d :: d in init ==> d in events;
      assert e in events;
      CallersAfter(limit, Run(limit, w, init), e);
    }
  }

  lemma CallersAfter(limit: nat, w: World, e: Event)
    ensures var w' := Happen(limit, w, e);
      forall i :: 0 <= i < |w'.callers| ==>
        (i < |w.callers| && w'.callers[i].goals == w.callers[i].goals) || e == Arrive(w'.callers[i].goals)
  {
    hide NextCall, ServeWithFault, AfterReply;
  }

  lemma StepIsALogin(sha: Digest, limit: nat, store: AccessStore, events: seq<Event>, i: nat) returns (l: Login)
    requires AllLogins(sha, events) && i < |Run(limit, World(store, []), events).callers|
    ensures Run(limit, World(store, []), events).callers[i].goals == GoalsOf(sha, l)
    ensures Arrive(GoalsOf(sha, l)) in events
  {
    hide Run, GoalsOf;
    CallersArrived(limit, World(store, []), events);
    var goals := Run(limit, World(store, []), events).callers[i].goals;
    l :| goals == GoalsOf(sha, l);
  }

  /** Exact authority, step by step. In every run of settings logins, with any other writers and faults, a
      login's step that changes a Role changes the Role of that login's owner, and leaves it allowing
      exactly get and delete on the pods of that owner and that login's templates. */
  lemma RoleWritesAreExact(sha: Digest, limit: nat, store: AccessStore, events: seq<Event>, i: nat, fault: Fault, key: Key) returns (l: Login)
    requires WellFormed(store) && AllLogins(sha, events) && key.kind.Role?
    requires var w := Run(limit, World(store, []), events);
      i < |w.callers| && w.callers[i].Working()
    ensures var w := Run(limit, World(store, []), events);
      var s, s' := w.store, AdvanceCaller(limit, w, i, fault).store;
      && w.callers[i].goals == GoalsOf(sha, l) && Arrive(GoalsOf(sha, l)) in events
      && (!SameAt(key, s, s') ==> key == RoleOf(sha, l) && key in s'.objs && AllowsExactly(sha, s'.objs[key].content, l))
  {
    l := StepIsALogin(sha, limit, store, events, i);
    WritesAreWanted(limit, store, events, i, fault, key);
    WantedRoleIsExact(sha, l);
    hide Run, AdvanceCaller, AllowsExactly, OwnerRules, OwnerObjectName;
  }

  lemma AdvanceHappens(limit: nat, w: World, e: Event)
    requires e.Advance? && Enabled(w, e)
    ensures Happen(limit, w, e) == AdvanceCaller(limit, w, e.i, e.fault)
  {
    hide AdvanceCaller;
  }

  lemma OthersKeepRole(limit: nat, w: World, e: Event, key: Key)
    requires !(e.Advance? && Enabled(w, e)) && (e.Operate? ==> e.act.key != key)
    ensures SameAt(key, w.store, Happen(limit, w, e).store)
  {
    hide AdvanceCaller;
  }

  /** Exact authority over whole runs. In every reachable cluster, a Role that no other writer touched is
      as it was at the start, or allows exactly what one of the logins so far was to be allowed. */
  lemma {:induction false} StoredRolesAreExact(sha: Digest, limit: nat, store: AccessStore, events: seq<Event>, key: Key) returns (l: Login)
    requires WellFormed(store) && AllLogins(sha, events) && key.kind.Role? && key !in OperatorKeys(events)
    ensures var s := Run(limit, World(store, []), events).store;
      || SameAt(key, store, s)
      || (Arrive(GoalsOf(sha, l)) in events && key == RoleOf(sha, l) && key in s.objs && AllowsExactly(sha, s.objs[key].content, l))
  {
    l := Login("", []);
    if events != [] {
      var init, e := events[..|events| - 1], events[|events| - 1];
      assert forall d :: d in init ==> d in events;
      l := StoredRolesAreExact(sha, limit, store, init, key);
      var w := Run(limit, World(store, []), init);
      var w' := Happen(limit, w, e);
      assert w' == Run(limit, World(store, []), events);
      if e.Advance? && Enabled(w, e) {
        hide Run, AllowsExactly, GoalsOf, RoleOf, Happen, AdvanceCaller;
        var l' := RoleWritesAreExact(sha, limit, store, init, e.i, e.fault, key);
        AdvanceHappens(limit, w, e);
        if !SameAt(key, w.store, w'.store) { l := l'; }
      } else {
        OthersKeepRole(limit, w, e, key);
        hide Run, AllowsExactly, GoalsOf, RoleOf, Happen;
      }
    }
  }

  /** Concurrent logins of one owner with one list: the convergence result for the objects the server
      really reconciles, from any cluster in which nothing stands in their way. */
  lemma {:induction false} LoginsConverge(sha: Digest, limit: nat, store: AccessStore, events: seq<Event>, l: Login, i: nat)
    requires limit >= 2 && !Obstructed(store, OwnerObjectName(sha, l.owner))
    requires forall e :: e in events ==> Peaceful(GoalsOf(sha, l), e)
    requires i < |Run(limit, World(store, []), events).callers|
    ensures var w := Run(limit, World(store, []), events);
      var c := w.callers[i];
      && !c.Denied() && c.progress.attempt <= 1 && (c.calls >= 9 ==> c.Succeeded())
      && (c.Succeeded() ==>
            && RoleOf(sha, l) in w.store.objs && AllowsExactly(sha, w.store.objs[RoleOf(sha, l)].content, l)
            && AccountReady(sha, w.store, l.owner, l.templates))
  {
    var goals := GoalsOf(sha, l);
    OwnerGoalsFit(OwnerObjectName(sha, l.owner), OwnerRules(sha, l.owner, l.templates), store);
    ReconcileConverges(goals, limit, store, events, i);
    WantedRoleIsExact(sha, l);
    hide Run, AllowsExactly, OwnerRules, OwnerObjectName, Consistent, NoneBlocked, Peaceful, AccountReady;
    assert goals[1].key == RoleOf(sha, l);
    var w := Run(limit, World(store, []), events);
    if w.callers[i].Succeeded() { HeldGoalsMakeReady(sha, l.owner, l.templates, w.store); }
  }
}
