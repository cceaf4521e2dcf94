/** The per-owner ServiceAccount, Role and RoleBinding: what they grant and how concurrent settings
    logins reconcile them (config-server/owner_access.go). */
module OwnerAccess {
  import opened Strings
  import opened Identity
  import opened KubeApi

  // ---- what a Role grants ----

  datatype Rule = Rule(apiGroups: seq<string>, resources: seq<string>, verbs: seq<string>, resourceNames: seq<string>)

  /** Kubernetes RBAC: a rule without resourceNames covers every name. */
  ghost predicate Grants(rule: Rule, verb: string, group: string, resource: string, name: string) {
    && verb in rule.verbs && group in rule.apiGroups && resource in rule.resources
    && (rule.resourceNames == [] || name in rule.resourceNames)
  }

  ghost predicate Allows(rules: seq<Rule>, verb: string, group: string, resource: string, name: string) {
    exists rule :: rule in rules && Grants(rule, verb, group, resource, name)
  }

  /** The box names of an owner, in template order. */
  function BoxNames(sha: Digest, owner: string, templates: seq<string>): (names: seq<string>)
    ensures |names| == |templates|
  {
    if templates == [] then []
    else BoxNames(sha, owner, templates[..|templates| - 1]) + [BoxPodName(sha, TrimSpace(owner), templates[|templates| - 1])]
  }

  function OwnerRules(sha: Digest, owner: string, templates: seq<string>): seq<Rule> {
    if templates == [] then []
    else [Rule([""], ["pods"], ["get", "delete"], Sort(BoxNames(sha, owner, templates)))]
  }

  lemma {:induction false} BoxNamesAt(sha: Digest, owner: string, templates: seq<string>)
    ensures var names := BoxNames(sha, owner, templates);
      forall i :: 0 <= i < |templates| ==> names[i] == BoxPodName(sha, TrimSpace(owner), templates[i])
  {
    hide BoxPodName, TrimSpace;
    if templates != [] {
      BoxNamesAt(sha, owner, templates[..|templates| - 1]);
    }
  }

  lemma GrantedNames(sha: Digest, owner: string, templates: seq<string>, pod: string)
    ensures pod in Sort(BoxNames(sha, owner, templates)) <==>
            exists t :: t in templates && pod == BoxPodName(sha, TrimSpace(owner), t)
  {
    hide BoxPodName, BoxNames, Sort, TrimSpace;
    var names := BoxNames(sha, owner, templates);
    BoxNamesAt(sha, owner, templates);
    SortKeepsElements(names);
    if pod in names {
      var i :| 0 <= i < |names| && names[i] == pod;
      assert templates[i] in templates;
    }
    if t :| t in templates && pod == BoxPodName(sha, TrimSpace(owner), t) {
      var i :| 0 <= i < |templates| && templates[i] == t;
      assert names[i] == pod;
    }
  }

  lemma OneRuleAllows(rule: Rule, verb: string, group: string, resource: string, pod: string)
    ensures Allows([rule], verb, group, resource, pod) <==> Grants(rule, verb, group, resource, pod)
  {
    assert rule in [rule];
  }

  /** A pod name is granted exactly when it belongs to a listed template of this owner, and only for
      get and delete on core pods. With no templates there are no rules at all, because a rule
      with an empty name list would grant every pod. */
  lemma ExactAuthority(sha: Digest, owner: string, templates: seq<string>, verb: string, group: string, resource: string, pod: string)
    ensures Allows(OwnerRules(sha, owner, templates), verb, group, resource, pod) <==>
      && (verb == "get" || verb == "delete") && group == "" && resource == "pods"
      && exists t :: t in templates && pod == BoxPodName(sha, TrimSpace(owner), t)
  {
    GrantedNames(sha, owner, templates, pod);
    hide BoxPodName, BoxNames, Sort;
    if templates != [] {
      var names := Sort(BoxNames(sha, owner, templates));
      SortKeepsElements(BoxNames(sha, owner, templates));
      assert |names| == |templates|;
      OneRuleAllows(OwnerRules(sha, owner, templates)[0], verb, group, resource, pod);
    }
  }

  /** Why the empty case is separate: one rule with no names would allow deleting any pod. */
  lemma EmptyNamesGrantEverything(pod: string)
    ensures Allows([Rule([""], ["pods"], ["get", "delete"], [])], "delete", "", "pods", pod)
  {
    var rule := Rule([""], ["pods"], ["get", "delete"], []);
    assert rule in [rule] && Grants(rule, "delete", "", "pods", pod);
  }

  // ---- the three objects ----

  datatype Kind = ServiceAccount | Role | RoleBinding

  datatype Key = Key(kind: Kind, name: string)

  datatype Automount = Unset | On | Off

  /** A Role is referred to by its name and a subject is a ServiceAccount; only these occur. */
  datatype Content =
    | Account(automount: Automount)
    | Grant(rules: seq<Rule>)
    | Binding(roleRef: string, subjects: seq<string>)

  datatype Goal = Goal(key: Key, wanted: Content)

  function OwnerGoals(name: string, rules: seq<Rule>): seq<Goal> {
    [Goal(Key(ServiceAccount, name), Account(Off)),
     Goal(Key(Role, name), Grant(rules)),
     Goal(Key(RoleBinding, name), Binding(name, [name]))]
  }

  /** An object this goal must not touch: a binding to another role (roleRef is immutable). The typed
      API never returns another kind of object; if it did, it would be foreign too. */
  predicate Foreign(goal: Goal, c: Content) {
    match goal.wanted
    case Account(_) => !c.Account?
    case Grant(_) => !c.Grant?
    case Binding(ref, _) => !c.Binding? || c.roleRef != ref
  }

  predicate Satisfied(goal: Goal, c: Content) {
    c == goal.wanted
  }

  type AccessStore = Store<Key, Content>
  type AccessTurn = Turn<Key, Content>

  // ---- one object: read, then create or update, and again on a conflict ----

  datatype Phase = Reading | Creating | Updating(version: nat) | Met | Refused

  datatype Progress = Progress(attempt: nat, phase: Phase) {
    predicate Finished() { phase.Met? || phase.Refused? }
  }

  const START := Progress(0, Reading)

  function NextCall(goal: Goal, p: Progress): Call<Key, Content>
    requires !p.Finished()
  {
    match p.phase
    case Creating => Create(goal.key, goal.wanted)
    case Updating(version) => Update(goal.key, version, goal.wanted)
    case _ => Get(goal.key)
  }

  /** `limit` is the number of attempts the retry helper allows. */
  function Retried(limit: nat, p: Progress): Progress {
    if p.attempt + 1 < limit then Progress(p.attempt + 1, Reading) else p.(phase := Refused)
  }

  function AfterReply(goal: Goal, limit: nat, p: Progress, reply: Reply<Content>): Progress
    requires !p.Finished()
  {
    match reply
    case Found(o) =>
      if !p.phase.Reading? then p.(phase := Met)
      else if Foreign(goal, o.content) then p.(phase := Refused)
      else if Satisfied(goal, o.content) then p.(phase := Met)
      else p.(phase := Updating(o.version))
    case Missing => p.(phase := if p.phase.Reading? then Creating else Refused)
    case AlreadyExists => if p.phase.Reading? then p.(phase := Refused) else Retried(limit, p)
    case Conflict => if p.phase.Reading? then p.(phase := Refused) else Retried(limit, p)
    case Failed => p.(phase := Refused)
  }

  datatype GoalRun = GoalRun(store: AccessStore, script: seq<AccessTurn>, progress: Progress)

  function StepGoal(goal: Goal, limit: nat, r: GoalRun): GoalRun
    requires !r.progress.Finished()
  {
    var served := ServeTurn(r.store, FirstTurn(r.script), NextCall(goal, r.progress));
    GoalRun(served.0, LaterTurns(r.script), AfterReply(goal, limit, r.progress, served.1))
  }

  function Remaining(limit: nat, p: Progress): nat {
    if p.Finished() then 0
    else (if p.attempt < limit then 2 * (limit - p.attempt) else 0) + if p.phase.Reading? then 2 else 1
  }

  function RunGoal(goal: Goal, limit: nat, r: GoalRun): GoalRun
    decreases Remaining(limit, r.progress)
  {
    if r.progress.Finished() then r else RunGoal(goal, limit, StepGoal(goal, limit, r))
  }

  datatype Attempted = Done | Again | Failure

  /** The source's closure, the same for all three kinds: read, then create or update. */
  method Attempt(server: Server<Key, Content>, goal: Goal, ghost limit: nat, ghost attempt: nat) returns (result: Attempted)
    modifies server
    ensures var r := RunGoal(goal, limit, GoalRun(old(server.store), old(server.script), Progress(attempt, Reading)));
      match result
      case Done => r == GoalRun(server.store, server.script, Progress(attempt, Met))
      case Failure => r == GoalRun(server.store, server.script, Progress(attempt, Refused))
      case Again => exists phase :: r == RunGoal(goal, limit, GoalRun(server.store, server.script, Retried(limit, Progress(attempt, phase))))
  {
    ghost var r := GoalRun(server.store, server.script, Progress(attempt, Reading));
    ghost var run := RunGoal(goal, limit, r);
    var reply := server.Do(Get(goal.key));
    r := StepGoal(goal, limit, r);
    assert run == RunGoal(goal, limit, r);
    if reply == Missing {
      reply := server.Do(Create(goal.key, goal.wanted));
    } else if !reply.Found? || Foreign(goal, reply.obj.content) {
      return Failure;
    } else if Satisfied(goal, reply.obj.content) {
      return Done;
    } else {
      reply := server.Do(Update(goal.key, reply.obj.version, goal.wanted));
    }
    ghost var phase := r.progress.phase;
    r := StepGoal(goal, limit, r);
    assert run == RunGoal(goal, limit, r);
    if reply.Found? { return Done; }
    if reply != AlreadyExists && reply != Conflict { return Failure; }
    assert r == GoalRun(server.store, server.script, Retried(limit, Progress(attempt, phase)));
    return Again;
  }

  /** `retry.OnError`: the closure is tried again on a conflict, up to the limit. */
  method Reconcile(server: Server<Key, Content>, goal: Goal, limit: nat) returns (ok: bool)
    requires limit >= 1
    modifies server
    ensures var r := RunGoal(goal, limit, GoalRun(old(server.store), old(server.script), START));
      server.store == r.store && server.script == r.script && ok == r.progress.phase.Met?
  {
    hide StepGoal;
    var attempt := 0;
    ghost var run := RunGoal(goal, limit, GoalRun(server.store, server.script, START));
    while true
      invariant attempt < limit
      invariant run == RunGoal(goal, limit, GoalRun(server.store, server.script, Progress(attempt, Reading)))
      decreases limit - attempt
    {
      var result := Attempt(server, goal, limit, attempt);
      if result.Done? { return true; }
      if result.Failure? || attempt + 1 >= limit { return false; }
      attempt := attempt + 1;
    }
  }

  /** Success means the wanted content was stored when the last call of the goal was answered. */
  lemma MetMeansStored(goal: Goal, limit: nat, r: GoalRun)
    requires !r.progress.Finished()
    ensures var r' := RunGoal(goal, limit, r);
      r'.progress.phase.Met? ==> goal.key in r'.store.objs && Satisfied(goal, r'.store.objs[goal.key].content)
    decreases Remaining(limit, r.progress)
  {
    var next := StepGoal(goal, limit, r);
    if !next.progress.Finished() { MetMeansStored(goal, limit, next); }
  }

  // ---- the three objects of one settings login ----

  datatype AccessRun = AccessRun(store: AccessStore, script: seq<AccessTurn>, ok: bool)

  function RunGoals(goals: seq<Goal>, limit: nat, store: AccessStore, script: seq<AccessTurn>): AccessRun {
    if goals == [] then AccessRun(store, script, true)
    else
      var first := RunGoal(goals[0], limit, GoalRun(store, script, START));
      if !first.progress.phase.Met? then AccessRun(first.store, first.script, false)
      else RunGoals(goals[1..], limit, first.store, first.script)
  }

  datatype AccessResult = Granted(account: string) | NotConfigured | NotReconciled

  method EnsureOwnerAccess(sha: Digest, server: Server<Key, Content>, configured: bool, limit: nat,
                           owner: string, templates: seq<string>) returns (result: AccessResult)
    requires limit >= 1
    modifies server
    ensures !configured ==> result == NotConfigured && unchanged(server)
    ensures configured ==>
      var name := OwnerObjectName(sha, owner);
      var r := RunGoals(OwnerGoals(name, OwnerRules(sha, owner, templates)), limit, old(server.store), old(server.script));
      && server.store == r.store && server.script == r.script
      && result == if r.ok then Granted(name) else NotReconciled
    ensures configured && old(server.script) == [] ==>
      && (result.Granted? <==> !Obstructed(old(server.store), OwnerObjectName(sha, owner)))
      && (result.Granted? ==> result.account == OwnerObjectName(sha, owner) && AccountReady(sha, server.store, owner, templates))
  {
    if !configured { return NotConfigured; }
    hide OwnerObjectName, OwnerRules, RunGoal, RunGoals, Obstructed, AccountReady;
    LoginMakesAccountReady(sha, owner, templates, limit, server.store);
    var name := OwnerObjectName(sha, owner);
    var rules := BuildRules(sha, owner, templates);
    var goals := OwnerGoals(name, rules);
    ThreeGoals(goals, limit, server.store, server.script);
    var ok := Reconcile(server, goals[0], limit);
    if !ok { return NotReconciled; }
    ok := Reconcile(server, goals[1], limit);
    if !ok { return NotReconciled; }
    ok := Reconcile(server, goals[2], limit);
    return if ok then Granted(name) else NotReconciled;
  }

  lemma ThreeGoals(goals: seq<Goal>, limit: nat, store: AccessStore, script: seq<AccessTurn>)
    requires |goals| == 3
    ensures RunGoals(goals, limit, store, script) ==
            var a := RunGoal(goals[0], limit, GoalRun(store, script, START));
            if !a.progress.phase.Met? then AccessRun(a.store, a.script, false) else
            var b := RunGoal(goals[1], limit, GoalRun(a.store, a.script, START));
            if !b.progress.phase.Met? then AccessRun(b.store, b.script, false) else
            var c := RunGoal(goals[2], limit, GoalRun(b.store, b.script, START));
            AccessRun(c.store, c.script, c.progress.phase.Met?)
  {
    hide RunGoal;
    assert goals[1..][0] == goals[1] && goals[1..][1..] == goals[2..];
    assert goals[2..][0] == goals[2] && goals[2..][1..] == [];
    var a := RunGoal(goals[0], limit, GoalRun(store, script, START));
    if a.progress.phase.Met? {
      assert RunGoals(goals, limit, store, script) == RunGoals(goals[1..], limit, a.store, a.script);
      var b := RunGoal(goals[1], limit, GoalRun(a.store, a.script, START));
      if b.progress.phase.Met? {
        assert RunGoals(goals[1..], limit, a.store, a.script) == RunGoals(goals[2..], limit, b.store, b.script);
      }
    }
  }

  method BuildRules(sha: Digest, owner: string, templates: seq<string>) returns (rules: seq<Rule>)
    ensures rules == OwnerRules(sha, owner, templates)
  {
    rules := [];
    if |templates| > 0 {
      var names := [];
      for i := 0 to |templates|
        invariant names == BoxNames(sha, owner, templates[..i])
      {
        assert templates[..i + 1][..i] == templates[..i];
        names := names + [BoxPodName(sha, TrimSpace(owner), templates[i])];
      }
      assert templates[..|templates|] == templates;
      rules := [Rule([""], ["pods"], ["get", "delete"], Sort(names))];
    }
  }

  // ---- one login nobody interferes with ----

  /** The goal's object exists and says what the goal wants. */
  predicate Held(goal: Goal, s: AccessStore) {
    goal.key in s.objs && Satisfied(goal, s.objs[goal.key].content)
  }

  predicate Blocked(goal: Goal, s: AccessStore) {
    goal.key in s.objs && Foreign(goal, s.objs[goal.key].content)
  }

  function Settle(goal: Goal, s: AccessStore): AccessStore {
    if goal.key !in s.objs then Add(s, goal.key, goal.wanted)
    else if Satisfied(goal, s.objs[goal.key].content) then s
    else Change(s, goal.key, goal.wanted)
  }

  /** Alone, a goal is met in one attempt unless the object is foreign, and then nothing changes. */
  lemma UndisturbedGoal(goal: Goal, limit: nat, s: AccessStore)
    requires limit >= 1 && !Foreign(goal, goal.wanted)
    ensures var r := RunGoal(goal, limit, GoalRun(s, [], START));
      && r.script == []
      && r.progress.phase == (if Blocked(goal, s) then Refused else Met)
      && r.store == (if Blocked(goal, s) then s else Settle(goal, s))
  {
    var start := GoalRun(s, [], START);
    var r := StepGoal(goal, limit, start);
    assert RunGoal(goal, limit, start) == RunGoal(goal, limit, r);
    if !r.progress.Finished() {
      var last := StepGoal(goal, limit, r);
      assert last.progress.Finished() && RunGoal(goal, limit, r) == last;
    }
  }

  predicate DistinctKeys(goals: seq<Goal>) {
    forall i, j :: 0 <= i < j < |goals| ==> goals[i].key != goals[j].key
  }

  ghost predicate SameAt(key: Key, s: AccessStore, s': AccessStore) {
    (key in s.objs <==> key in s'.objs) && (key in s.objs ==> s'.objs[key] == s.objs[key])
  }

  lemma SettleChangesOneKey(goal: Goal, s: AccessStore, key: Key)
    requires key != goal.key
    ensures SameAt(key, s, Settle(goal, s))
  {}

  lemma {:induction false} UndisturbedGoals(goals: seq<Goal>, limit: nat, s: AccessStore)
    requires limit >= 1 && DistinctKeys(goals) && forall g :: g in goals ==> !Foreign(g, g.wanted)
    ensures var r := RunGoals(goals, limit, s, []);
      && (r.ok <==> forall g :: g in goals ==> !Blocked(g, s))
      && (r.ok ==> forall g :: g in goals ==> Held(g, r.store))
      && (forall k :: (forall g :: g in goals ==> g.key != k) ==> SameAt(k, s, r.store))
  {
    if goals != [] {
      var g, rest := goals[0], goals[1..];
      UndisturbedGoal(g, limit, s);
      hide RunGoal, Settle, Foreign, Satisfied;
      assert goals == [g] + rest;
      if !Blocked(g, s) {
        var s' := Settle(g, s);
        assert Held(g, s') by { SettleHolds(g, s); }
        UndisturbedGoals(rest, limit, s');
        forall h | h in rest ensures h.key != g.key && (Blocked(h, s) <==> Blocked(h, s')) {
          SettleChangesOneKey(g, s, h.key);
        }
        var r := RunGoals(goals, limit, s, []);
        assert r == RunGoals(rest, limit, s', []);
        forall k | forall h :: h in goals ==> h.key != k ensures SameAt(k, s, r.store) {
          assert g in goals && forall h :: h in rest ==> h in goals;
          SettleChangesOneKey(g, s, k);
          assert forall h :: h in rest ==> h.key != k;
          assert SameAt(k, s', r.store);
        }
        assert SameAt(g.key, s', r.store);
      } else {
        assert g in goals;
      }
    }
  }

  lemma SettleHolds(goal: Goal, s: AccessStore)
    ensures Held(goal, Settle(goal, s))
  {}

  /** Alone, a settings login succeeds exactly when no binding to another role stands in the way, and
      then the Role it leaves behind allows exactly the owner's listed boxes. */
  lemma LoginGrantsExactly(sha: Digest, owner: string, templates: seq<string>, limit: nat, s: AccessStore)
    requires limit >= 1
    ensures var name := OwnerObjectName(sha, owner);
      var goals := OwnerGoals(name, OwnerRules(sha, owner, templates));
      var r := RunGoals(goals, limit, s, []);
      && (r.ok <==> !Blocked(goals[0], s) && !Blocked(goals[1], s) && !Blocked(goals[2], s))
      && (r.ok ==>
            && Held(goals[0], r.store) && Held(goals[1], r.store) && Held(goals[2], r.store)
            && forall verb, group, resource, pod ::
                 Allows(r.store.objs[Key(Role, name)].content.rules, verb, group, resource, pod) <==>
                 && (verb == "get" || verb == "delete") && group == "" && resource == "pods"
                 && exists t :: t in templates && pod == BoxPodName(sha, TrimSpace(owner), t))
  {
    var name, rules := OwnerObjectName(sha, owner), OwnerRules(sha, owner, templates);
    var goals := OwnerGoals(name, rules);
    hide OwnerObjectName, OwnerRules, BoxPodName, RunGoals;
    assert goals[0] in goals && goals[1] in goals && goals[2] in goals;
    UndisturbedGoals(goals, limit, s);
    forall verb, group, resource, pod
      ensures Allows(rules, verb, group, resource, pod) <==>
        && (verb == "get" || verb == "delete") && group == "" && resource == "pods"
        && exists t :: t in templates && pod == BoxPodName(sha, TrimSpace(owner), t)
    {
      ExactAuthority(sha, owner, templates, verb, group, resource, pod);
    }
  }

  // ---- what the account may do ----

  /** What stands in the way of an owner's objects: something else under their names, or a binding to
      another role. */
  predicate Obstructed(s: AccessStore, name: string) {
    var account, role, binding := Key(ServiceAccount, name), Key(Role, name), Key(RoleBinding, name);
    || (account in s.objs && !s.objs[account].content.Account?)
    || (role in s.objs && !s.objs[role].content.Grant?)
    || (binding in s.objs && (!s.objs[binding].content.Binding? || s.objs[binding].content.roleRef != name))
  }

  /** The account may do this through this binding: it is one of the binding's subjects, and the Role the
      binding refers to is stored and allows it. */
  ghost predicate Through(s: AccessStore, account: string, binding: string, verb: string, group: string, resource: string, pod: string) {
    var b := Key(RoleBinding, binding);
    && b in s.objs && s.objs[b].content.Binding? && account in s.objs[b].content.subjects
    && var role := Key(Role, s.objs[b].content.roleRef);
    role in s.objs && s.objs[role].content.Grant? && Allows(s.objs[role].content.rules, verb, group, resource, pod)
  }

  ghost predicate May(s: AccessStore, account: string, verb: string, group: string, resource: string, pod: string) {
    exists binding :: Through(s, account, binding, verb, group, resource, pod)
  }

  /** Get or delete of a pod of the owner's listed boxes. */
  ghost predicate OwnBox(sha: Digest, owner: string, templates: seq<string>, verb: string, group: string, resource: string, pod: string) {
    && (verb == "get" || verb == "delete") && group == "" && resource == "pods"
    && exists t :: t in templates && pod == BoxPodName(sha, TrimSpace(owner), t)
  }

  /** The owner's account is there, mounts no token by itself, and through the owner's binding it, and no
      other account, may do exactly that. */
  ghost predicate AccountReady(sha: Digest, s: AccessStore, owner: string, templates: seq<string>) {
    var name := OwnerObjectName(sha, owner);
    && Key(ServiceAccount, name) in s.objs && s.objs[Key(ServiceAccount, name)].content == Account(Off)
    && forall account, verb, group, resource, pod ::
         Through(s, account, name, verb, group, resource, pod) <==>
         account == name && OwnBox(sha, owner, templates, verb, group, resource, pod)
  }

  lemma HeldGoalsMakeReady(sha: Digest, owner: string, templates: seq<string>, s: AccessStore)
    requires var goals := OwnerGoals(OwnerObjectName(sha, owner), OwnerRules(sha, owner, templates));
      Held(goals[0], s) && Held(goals[1], s) && Held(goals[2], s)
    ensures AccountReady(sha, s, owner, templates)
  {
    var name, rules := OwnerObjectName(sha, owner), OwnerRules(sha, owner, templates);
    hide OwnerObjectName, OwnerRules, BoxPodName, TrimSpace, Allows;
    var goals := OwnerGoals(name, rules);
    assert s.objs[Key(RoleBinding, name)].content == Binding(name, [name]) && s.objs[Key(Role, name)].content == Grant(rules);
    forall account, verb, group, resource, pod
      ensures Through(s, account, name, verb, group, resource, pod) <==>
        account == name && OwnBox(sha, owner, templates, verb, group, resource, pod)
    {
      ExactAuthority(sha, owner, templates, verb, group, resource, pod);
      assert account in [name] <==> account == name;
    }
  }

  lemma UnblockedMeansUnobstructed(name: string, rules: seq<Rule>, s: AccessStore)
    ensures var goals := OwnerGoals(name, rules);
      Obstructed(s, name) <==> Blocked(goals[0], s) || Blocked(goals[1], s) || Blocked(goals[2], s)
  {}

  /** A settings login nobody interferes with succeeds exactly when nothing stands in its way. Then the
      owner's account is ready, and a login gives it nothing else: whatever more it may do, it could do
      before, through some other binding. */
  lemma LoginMakesAccountReady(sha: Digest, owner: string, templates: seq<string>, limit: nat, s: AccessStore)
    requires limit >= 1
    ensures var name := OwnerObjectName(sha, owner);
      var r := RunGoals(OwnerGoals(name, OwnerRules(sha, owner, templates)), limit, s, []);
      && (r.ok <==> !Obstructed(s, name))
      && (r.ok ==>
            && AccountReady(sha, r.store, owner, templates)
            && forall verb, group, resource, pod ::
                 May(r.store, name, verb, group, resource, pod) ==>
                 OwnBox(sha, owner, templates, verb, group, resource, pod) || May(s, name, verb, group, resource, pod))
  {
    var name, rules := OwnerObjectName(sha, owner), OwnerRules(sha, owner, templates);
    var goals := OwnerGoals(name, rules);
    hide OwnerObjectName, OwnerRules, BoxPodName, RunGoals, TrimSpace;
    LoginGrantsExactly(sha, owner, templates, limit, s);
    UnblockedMeansUnobstructed(name, rules, s);
    var r := RunGoals(goals, limit, s, []);
    if r.ok {
      HeldGoalsMakeReady(sha, owner, templates, r.store);
      assert forall g :: g in goals ==> !Foreign(g, g.wanted);
      UndisturbedGoals(goals, limit, s);
      forall k: Key | k.name != name ensures SameAt(k, s, r.store) {
        assert forall g :: g in goals ==> g.key != k;
      }
      hide OwnerGoals, AccountReady, Held, Blocked;
      forall verb, group, resource, pod | May(r.store, name, verb, group, resource, pod)
        ensures OwnBox(sha, owner, templates, verb, group, resource, pod) || May(s, name, verb, group, resource, pod)
      {
        var b :| Through(r.store, name, b, verb, group, resource, pod);
        NothingElseNew(sha, owner, templates, s, r.store, b, verb, group, resource, pod);
      }
    }
  }

  lemma NothingElseNew(sha: Digest, owner: string, templates: seq<string>, s: AccessStore, s': AccessStore, b: string,
                       verb: string, group: string, resource: string, pod: string)
    requires AccountReady(sha, s', owner, templates)
    requires forall k: Key :: k.name != OwnerObjectName(sha, owner) ==> SameAt(k, s, s')
    requires var name := OwnerObjectName(sha, owner);
      Key(RoleBinding, name) in s'.objs && s'.objs[Key(RoleBinding, name)].content == Binding(name, [name])
    requires Through(s', OwnerObjectName(sha, owner), b, verb, group, resource, pod)
    ensures OwnBox(sha, owner, templates, verb, group, resource, pod) || May(s, OwnerObjectName(sha, owner), verb, group, resource, pod)
  {
    var name := OwnerObjectName(sha, owner);
    hide OwnerObjectName, OwnBox, Allows;
    var binding := Key(RoleBinding, b);
    if b != name {
      assert SameAt(binding, s, s');
      var ref := s'.objs[binding].content.roleRef;
      if ref == name {
        assert Through(s', name, name, verb, group, resource, pod);
      } else {
        assert SameAt(Key(Role, ref), s, s');
        assert Through(s, name, b, verb, group, resource, pod);
      }
    }
  }

  // ---- a login that fails half-way ----

  /** Only the connection itself fails; nobody else writes. */
  predicate OnlyFaults(script: seq<AccessTurn>) {
    forall t :: t in script ==> t.acts == []
  }

  /** Where a goal can stand under faults alone: what it read is still what is stored. */
  ghost predicate Current(goal: Goal, s: AccessStore, p: Progress) {
    match p.phase
    case Creating => goal.key !in s.objs
    case Updating(v) => goal.key in s.objs && s.objs[goal.key].version == v && !Satisfied(goal, s.objs[goal.key].content)
    case _ => true
  }

  lemma {:induction false} FaultyGoal(goal: Goal, limit: nat, s: AccessStore, script: seq<AccessTurn>, p: Progress)
    requires OnlyFaults(script) && !p.Finished() && Current(goal, s, p)
    ensures var r := RunGoal(goal, limit, GoalRun(s, script, p));
      && OnlyFaults(r.script) && (r.store == s || r.store == Settle(goal, s))
      && (r.progress.phase.Met? ==> Held(goal, r.store))
    decreases Remaining(limit, p)
  {
    var turn := FirstTurn(script);
    assert turn.acts == [] && OnlyFaults(LaterTurns(script));
    var r := GoalRun(s, script, p);
    var next := StepGoal(goal, limit, r);
    assert RunGoal(goal, limit, r) == RunGoal(goal, limit, next);
    if !next.progress.Finished() {
      assert next.store == s;
      FaultyGoal(goal, limit, s, next.script, next.progress);
    }
  }

  /** The order of a login. If the connection fails half-way, a Role has been written only with the account
      in place, and a binding only with account and Role in place: at no point does a binding lead to a
      Role that is not the wanted one. */
  lemma FailedLoginLeavesPrefix(sha: Digest, owner: string, templates: seq<string>, limit: nat, s: AccessStore, script: seq<AccessTurn>)
    requires OnlyFaults(script)
    ensures var name := OwnerObjectName(sha, owner);
      var goals := OwnerGoals(name, OwnerRules(sha, owner, templates));
      var r := RunGoals(goals, limit, s, script);
      && (!SameAt(Key(Role, name), s, r.store) ==> Held(goals[0], r.store))
      && (!SameAt(Key(RoleBinding, name), s, r.store) ==> Held(goals[0], r.store) && Held(goals[1], r.store))
  {
    hide OwnerObjectName, OwnerRules, RunGoals, Held, SameAt;
    FaultyGoals(OwnerGoals(OwnerObjectName(sha, owner), OwnerRules(sha, owner, templates)), limit, s, script);
  }

  lemma FaultyGoals(goals: seq<Goal>, limit: nat, s: AccessStore, script: seq<AccessTurn>)
    requires OnlyFaults(script) && |goals| == 3
    requires goals[0].key != goals[1].key && goals[0].key != goals[2].key && goals[1].key != goals[2].key
    ensures var r := RunGoals(goals, limit, s, script);
      && (!SameAt(goals[1].key, s, r.store) ==> Held(goals[0], r.store))
      && (!SameAt(goals[2].key, s, r.store) ==> Held(goals[0], r.store) && Held(goals[1], r.store))
  {
    hide RunGoal, RunGoals, Settle, OnlyFaults, Held, SameAt;
    ThreeGoals(goals, limit, s, script);
    FaultyGoal(goals[0], limit, s, script, START);
    var a := RunGoal(goals[0], limit, GoalRun(s, script, START));
    OtherKeyStands(goals[0], s, a.store, goals[1]);
    OtherKeyStands(goals[0], s, a.store, goals[2]);
    if a.progress.phase.Met? {
      FaultyGoal(goals[1], limit, a.store, a.script, START);
      var b := RunGoal(goals[1], limit, GoalRun(a.store, a.script, START));
      OtherKeyStands(goals[1], a.store, b.store, goals[0]);
      OtherKeyStands(goals[1], a.store, b.store, goals[2]);
      SameAgain(goals[2].key, s, a.store, b.store);
      if b.progress.phase.Met? {
        FaultyGoal(goals[2], limit, b.store, b.script, START);
        var c := RunGoal(goals[2], limit, GoalRun(b.store, b.script, START));
        OtherKeyStands(goals[2], b.store, c.store, goals[0]);
        OtherKeyStands(goals[2], b.store, c.store, goals[1]);
      }
    }
  }

  lemma SameAgain(key: Key, s: AccessStore, s1: AccessStore, s2: AccessStore)
    requires SameAt(key, s, s1) && SameAt(key, s1, s2)
    ensures SameAt(key, s, s2)
  {}

  lemma OtherKeyStands(goal: Goal, s: AccessStore, s': AccessStore, other: Goal)
    requires (s' == s || s' == Settle(goal, s)) && other.key != goal.key
    ensures SameAt(other.key, s, s') && Held(other, s') == Held(other, s)
  {}
}
