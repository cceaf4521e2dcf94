/** Retained claims: creation, the AlreadyExists race and identity verification
    (config-server/storage.go). */
module Claims {
  import opened Strings
  import opened Identity
  import opened KubeApi

  const OWNER_KEY := "dev.box/owner"
  const TEMPLATE_KEY := "dev.box/template"
  const CLAIM_KEY := "dev.box/claim"

  /** A stored PersistentVolumeClaim; uid and version live in the `Obj` around it. */
  datatype Claim = Claim(terminating: bool, ownerRefs: nat, labels: map<string, string>,
                         annotations: map<string, string>, spec: string)

  /** One entry of a template's volumeClaimTemplates. */
  datatype ClaimDecl = ClaimDecl(name: string, labels: map<string, string>,
                                 annotations: map<string, string>, spec: string, positiveStorage: bool)

  /** One claim of one connection: who connects, to which template, and the declaration. */
  datatype ClaimRequest = ClaimRequest(user: string, template: string, decl: ClaimDecl)

  datatype ClaimIdentity = ClaimIdentity(owner: string, template: string, claim: string)

  type ClaimStore = Store<string, Claim>
  type ClaimTurn = Turn<string, Claim>

  function Lookup(m: map<string, string>, key: string): string {
    if key in m then m[key] else ""
  }

  function WantedIdentity(req: ClaimRequest): ClaimIdentity {
    ClaimIdentity(TrimSpace(req.user), req.template, req.decl.name)
  }

  function AnnotatedIdentity(c: Claim): ClaimIdentity {
    ClaimIdentity(Lookup(c.annotations, OWNER_KEY), Lookup(c.annotations, TEMPLATE_KEY), Lookup(c.annotations, CLAIM_KEY))
  }

  function LabelledIdentity(c: Claim): ClaimIdentity {
    ClaimIdentity(Lookup(c.labels, OWNER_KEY), Lookup(c.labels, TEMPLATE_KEY), Lookup(c.labels, CLAIM_KEY))
  }

  function LabelsOf(sha: Digest, id: ClaimIdentity): ClaimIdentity {
    ClaimIdentity(OwnerLabel(sha, id.owner), OwnerLabel(sha, id.template), id.claim)
  }

  function AsMap(id: ClaimIdentity): map<string, string> {
    map[OWNER_KEY := id.owner, TEMPLATE_KEY := id.template, CLAIM_KEY := id.claim]
  }

  /** What one `ensureClaim` call is about to do. The protocol below works on arbitrary plans: it
      never uses how the PVC name or the labels were derived. */
  datatype Plan = Plan(key: string, identity: ClaimIdentity, labels: ClaimIdentity, desired: Claim)

  function PlanOf(sha: Digest, req: ClaimRequest): Plan {
    var id := WantedIdentity(req);
    Plan(ClaimName(BoxPodName(sha, id.owner, id.template), id.claim), id, LabelsOf(sha, id), DesiredClaim(sha, req))
  }

  /** The object the server creates: fresh metadata, the declaration's own labels and annotations,
      and the identity over them. */
  function DesiredClaim(sha: Digest, req: ClaimRequest): Claim {
    var id := WantedIdentity(req);
    Claim(false, 0, req.decl.labels + AsMap(LabelsOf(sha, id)), req.decl.annotations + AsMap(id), req.decl.spec)
  }

  datatype Denial = ApiError | Terminating | NotRetained | IdentityMismatch

  /** Where one `ensureClaim` call stands. */
  datatype ClaimState = Looking | Creating | LookingAgain | Accepted(uid: nat) | Denied(reason: Denial) {
    predicate Finished() { Accepted? || Denied? }
  }

  function Judge(plan: Plan, o: Obj<Claim>): ClaimState {
    if o.content.terminating then Denied(Terminating)
    else if o.content.ownerRefs != 0 then Denied(NotRetained)
    else if AnnotatedIdentity(o.content) == plan.identity && LabelledIdentity(o.content) == plan.labels then Accepted(o.uid)
    else Denied(IdentityMismatch)
  }

  function NextCall(plan: Plan, s: ClaimState): Call<string, Claim>
    requires !s.Finished()
  {
    if s == Creating then Create(plan.key, plan.desired) else Get(plan.key)
  }

  function AfterReply(plan: Plan, s: ClaimState, reply: Reply<Claim>): ClaimState
    requires !s.Finished()
  {
    if reply.Found? then Judge(plan, reply.obj)
    else if s == Looking && reply == Missing then Creating
    else if s == Creating && reply == AlreadyExists then LookingAgain
    else Denied(ApiError)
  }

  /** A claim the server creates passes the server's own verification, whatever labels and
      annotations the template declares on it. */
  lemma CreatedClaimIsAccepted(sha: Digest, req: ClaimRequest, uid: nat, version: nat)
    ensures var plan := PlanOf(sha, req);
      Judge(plan, Obj(uid, version, plan.desired)) == Accepted(uid)
  {
    hide LabelsOf, WantedIdentity, Lookup, AsMap;
    var id := WantedIdentity(req);
    OverlayReadsBack(req.decl.annotations, id);
    OverlayReadsBack(req.decl.labels, LabelsOf(sha, id));
  }

  /** `m` is `declared` with these three identity entries over it: every other declared entry is there as
      declared, and nothing else is. */
  ghost predicate Overlaid(m: map<string, string>, declared: map<string, string>, owner: string, template: string, claim: string) {
    && "dev.box/owner" in m && m["dev.box/owner"] == owner
    && "dev.box/template" in m && m["dev.box/template"] == template
    && "dev.box/claim" in m && m["dev.box/claim"] == claim
    && forall k :: k != "dev.box/owner" && k != "dev.box/template" && k != "dev.box/claim" ==>
         (k in m <==> k in declared) && (k in declared ==> m[k] == declared[k])
  }

  /** A new claim, spelled out: the declared specification, fresh metadata, the declared labels and
      annotations, and over them the identity, as label values and in plain. */
  ghost predicate AsDeclared(sha: Digest, c: Claim, req: ClaimRequest) {
    && c.spec == req.decl.spec && !c.terminating && c.ownerRefs == 0
    && Overlaid(c.labels, req.decl.labels, OwnerLabel(sha, TrimSpace(req.user)), OwnerLabel(sha, req.template), req.decl.name)
    && Overlaid(c.annotations, req.decl.annotations, TrimSpace(req.user), req.template, req.decl.name)
  }

  lemma OverlayIsOverlaid(declared: map<string, string>, id: ClaimIdentity)
    ensures Overlaid(declared + AsMap(id), declared, id.owner, id.template, id.claim)
  {
    DistinctKeys();
  }

  /** What a call asks the API to create is the declaration, whole. */
  lemma RequestedAsDeclared(sha: Digest, req: ClaimRequest)
    ensures AsDeclared(sha, PlanOf(sha, req).desired, req)
  {
    hide Overlaid, AsMap, OwnerLabel, TrimSpace;
    var id := WantedIdentity(req);
    OverlayIsOverlaid(req.decl.annotations, id);
    OverlayIsOverlaid(req.decl.labels, LabelsOf(sha, id));
  }

  /** The three identity keys win over anything already in the map. */
  lemma OverlayReadsBack(m: map<string, string>, id: ClaimIdentity)
    ensures var r := m + AsMap(id);
      Lookup(r, OWNER_KEY) == id.owner && Lookup(r, TEMPLATE_KEY) == id.template && Lookup(r, CLAIM_KEY) == id.claim
  {
    DistinctKeys();
  }

  lemma DistinctKeys()
    ensures OWNER_KEY != TEMPLATE_KEY && OWNER_KEY != CLAIM_KEY && TEMPLATE_KEY != CLAIM_KEY
  {
    assert OWNER_KEY[8] != TEMPLATE_KEY[8] && OWNER_KEY[8] != CLAIM_KEY[8] && TEMPLATE_KEY[8] != CLAIM_KEY[8];
  }

  // ---- one call, against any script of turns ----

  datatype ClaimRun = ClaimRun(store: ClaimStore, script: seq<ClaimTurn>, state: ClaimState)

  function Remaining(s: ClaimState): nat {
    match s case Looking => 3 case Creating => 2 case LookingAgain => 1 case _ => 0
  }

  function StepClaim(plan: Plan, r: ClaimRun): ClaimRun
    requires !r.state.Finished()
  {
    var served := ServeTurn(r.store, FirstTurn(r.script), NextCall(plan, r.state));
    ClaimRun(served.0, LaterTurns(r.script), AfterReply(plan, r.state, served.1))
  }

  function RunClaim(plan: Plan, r: ClaimRun): ClaimRun
    decreases Remaining(r.state)
  {
    if r.state.Finished() then r else RunClaim(plan, StepClaim(plan, r))
  }

  method EnsureClaim(claims: Server<string, Claim>, plan: Plan) returns (outcome: ClaimState)
    modifies claims
    ensures ClaimRun(claims.store, claims.script, outcome) ==
            RunClaim(plan, ClaimRun(old(claims.store), old(claims.script), Looking))
  {
    ghost var start := ClaimRun(claims.store, claims.script, Looking);
    ghost var r := start;
    var current := claims.Do(Get(plan.key));
    r := StepClaim(plan, r);
    assert RunClaim(plan, start) == RunClaim(plan, r);
    if current == Missing {
      current := claims.Do(Create(plan.key, plan.desired));
      r := StepClaim(plan, r);
      assert RunClaim(plan, start) == RunClaim(plan, r);
      if current == AlreadyExists {
        current := claims.Do(Get(plan.key));
        r := StepClaim(plan, r);
      }
    }
    outcome := if current.Found? then Judge(plan, current.obj) else Denied(ApiError);
    assert r == ClaimRun(claims.store, claims.script, outcome);
    assert RunClaim(plan, r) == r;
  }

  // ---- every interleaving of any number of calls ----

  datatype Thread = Thread(plan: Plan, state: ClaimState)

  datatype World = World(store: ClaimStore, threads: seq<Thread>)

  datatype Event = Arrive(plan: Plan) | Operate(act: Act<string, Claim>) | Advance(i: nat, fault: Fault)

  /** Operators may delete claims, create any claim, and edit anything but identity annotations. */
  predicate Enabled(w: World, e: Event) {
    match e
    case Arrive(_) => true
    case Operate(Delete(_)) => true
    case Operate(Put(key, content)) =>
      key in w.store.objs ==> AnnotatedIdentity(content) == AnnotatedIdentity(w.store.objs[key].content)
    case Advance(i, _) => i < |w.threads| && !w.threads[i].state.Finished()
  }

  function AdvanceThread(w: World, i: nat, fault: Fault): World
    requires i < |w.threads| && !w.threads[i].state.Finished()
  {
    var t := w.threads[i];
    var served := ServeWithFault(w.store, fault, NextCall(t.plan, t.state));
    World(served.0, w.threads[i := Thread(t.plan, AfterReply(t.plan, t.state, served.1))])
  }

  /** The world after an event. An event that is not enabled does not happen. */
  function Happen(w: World, e: Event): World {
    if !Enabled(w, e) then w
    else match e
      case Arrive(plan) => World(w.store, w.threads + [Thread(plan, Looking)])
      case Operate(act) => World(Perform(w.store, act), w.threads)
      case Advance(i, fault) => AdvanceThread(w, i, fault)
  }

  function Run(w: World, events: seq<Event>): World {
    if events == [] then w else Happen(Run(w, events[..|events| - 1]), events[|events| - 1])
  }

  ghost predicate Vouches(s: ClaimStore, t: Thread) {
    t.state.Accepted? ==>
      && t.state.uid < s.clock
      && forall k :: k in s.objs && s.objs[k].uid == t.state.uid ==>
           AnnotatedIdentity(s.objs[k].content) == t.plan.identity
  }

  ghost predicate Agree(t: Thread, u: Thread) {
    t.state.Accepted? && u.state == t.state ==> t.plan.identity == u.plan.identity
  }

  /** An accepted uid determines the identity it was accepted for, and the object that still carries
      the uid, if there is one, says so itself. */
  ghost predicate Isolated(w: World) {
    && WellFormed(w.store)
    && (forall i :: 0 <= i < |w.threads| ==> Vouches(w.store, w.threads[i]))
    && (forall i, j :: 0 <= i < |w.threads| && 0 <= j < |w.threads| ==> Agree(w.threads[i], w.threads[j]))
  }

  /** What a call does to the store: nothing, or add one object under a new uid. */
  ghost predicate OnlyAdds(s: ClaimStore, s': ClaimStore, key: string, content: Claim) {
    s' == s || (key !in s.objs && s' == Add(s, key, content))
  }

  lemma CallsOnlyAdd(s: ClaimStore, fault: Fault, plan: Plan, state: ClaimState)
    requires !state.Finished()
    ensures var served := ServeWithFault(s, fault, NextCall(plan, state));
      && OnlyAdds(s, served.0, plan.key, plan.desired)
      && (served.1.Found? ==> plan.key in served.0.objs && served.0.objs[plan.key] == served.1.obj)
  {}

  lemma AddingKeepsVouching(s: ClaimStore, s': ClaimStore, key: string, content: Claim, t: Thread)
    requires OnlyAdds(s, s', key, content) && Vouches(s, t)
    ensures Vouches(s', t)
  {}

  lemma PerformKeepsVouching(s: ClaimStore, act: Act<string, Claim>, t: Thread)
    requires Vouches(s, t)
    requires act.Put? && act.key in s.objs ==> AnnotatedIdentity(act.content) == AnnotatedIdentity(s.objs[act.key].content)
    ensures Vouches(Perform(s, act), t)
  {}

  lemma AdvancePreservesIsolation(w: World, i: nat, fault: Fault)
    requires Isolated(w) && i < |w.threads| && !w.threads[i].state.Finished()
    ensures Isolated(AdvanceThread(w, i, fault))
  {
    var t := w.threads[i];
    var w' := AdvanceThread(w, i, fault);
    CallsOnlyAdd(w.store, fault, t.plan, t.state);
    ServePreservesWellFormed(w.store, fault, NextCall(t.plan, t.state));
    var t' := w'.threads[i];
    hide ServeWithFault, NextCall, AnnotatedIdentity;
    forall j | 0 <= j < |w.threads| ensures Vouches(w'.store, w.threads[j]) {
      AddingKeepsVouching(w.store, w'.store, t.plan.key, t.plan.desired, w.threads[j]);
    }
    if t'.state.Accepted? {
      var o := w'.store.objs[t.plan.key];
      assert o.uid == t'.state.uid && AnnotatedIdentity(o.content) == t.plan.identity;
      forall j | 0 <= j < |w.threads| ensures Agree(t', w.threads[j]) && Agree(w.threads[j], t') {
        assert Vouches(w'.store, w.threads[j]);
      }
    }
  }

  lemma HappenPreservesIsolation(w: World, e: Event)
    requires Isolated(w)
    ensures Isolated(Happen(w, e))
  {
    if Enabled(w, e) {
      match e
      case Arrive(_) =>
      case Operate(act) =>
        PerformPreservesWellFormed(w.store, act);
        forall i | 0 <= i < |w.threads| ensures Vouches(Perform(w.store, act), w.threads[i]) {
          PerformKeepsVouching(w.store, act, w.threads[i]);
        }
      case Advance(i, fault) => AdvancePreservesIsolation(w, i, fault);
    }
  }

  lemma {:induction false} RunPreservesIsolation(w: World, events: seq<Event>)
    requires Isolated(w)
    ensures Isolated(Run(w, events))
  {
    if events != [] {
      RunPreservesIsolation(w, events[..|events| - 1]);
      HappenPreservesIsolation(Run(w, events[..|events| - 1]), events[|events| - 1]);
    }
  }

  /** Claim isolation. Start from any cluster with no request under way and let any requests,
      operators and faults interleave. One claim object is only ever accepted for one (trimmed
      owner, template, claim). The PVC names in the plans are arbitrary, so this holds even when two
      boxes collide on a name. */
  lemma ClaimIsolation(store: ClaimStore, events: seq<Event>, i: nat, j: nat)
    requires WellFormed(store)
    requires var w := Run(World(store, []), events);
      && i < |w.threads| && j < |w.threads|
      && w.threads[i].state.Accepted? && w.threads[j].state == w.threads[i].state
    ensures var w := Run(World(store, []), events);
      w.threads[i].plan.identity == w.threads[j].plan.identity
  {
    RunPreservesIsolation(World(store, []), events);
    assert Agree(Run(World(store, []), events).threads[i], Run(World(store, []), events).threads[j]);
  }

  predicate OperatorTouches(e: Event, key: string) {
    e.Operate? && e.act.key == key
  }

  /** The claim under `key` is one that a request asked for, as it asked for it. */
  ghost predicate Requested(w: World, key: string) {
    && key in w.store.objs
    && exists i :: 0 <= i < |w.threads| && w.threads[i].plan.key == key && w.store.objs[key].content == w.threads[i].plan.desired
  }

  /** One event keeps a claim that operators leave alone, and brings in only a requested one. */
  ghost predicate Retains(w: World, w': World, key: string) {
    && (key in w.store.objs ==> key in w'.store.objs && w'.store.objs[key] == w.store.objs[key])
    && (key in w'.store.objs && key !in w.store.objs ==> Requested(w', key))
    && |w.threads| <= |w'.threads|
    && forall i :: 0 <= i < |w.threads| ==> w'.threads[i].plan == w.threads[i].plan
  }

  lemma HappenRetains(w: World, e: Event, key: string)
    requires !OperatorTouches(e, key)
    ensures Retains(w, Happen(w, e), key)
  {
    if Enabled(w, e) && e.Advance? {
      var t := w.threads[e.i];
      CallsOnlyAdd(w.store, e.fault, t.plan, t.state);
      hide ServeWithFault, NextCall, AfterReply;
      assert Happen(w, e).threads[e.i].plan == t.plan;
    }
  }

  /** Retained claims are monotone. Over any run, a claim that no operator touches stays exactly as it
      was, uid, version and contents; and if it was not there at the start, then it is what some
      request asked for. No step of the server edits or removes a claim. */
  lemma {:induction false} ClaimsAreRetained(w: World, events: seq<Event>, key: string)
    requires forall e :: e in events ==> !OperatorTouches(e, key)
    ensures Retains(w, Run(w, events), key)
  {
    if events != [] {
      var init, e := events[..|events| - 1], events[|events| - 1];
      ClaimsAreRetained(w, init, key);
      HappenRetains(Run(w, init), e, key);
      assert e in events;
      hide Happen, OperatorTouches;
      RetainsTransitively(w, Run(w, init), Run(w, events), key);
    }
  }

  lemma RetainsTransitively(w: World, w1: World, w2: World, key: string)
    requires Retains(w, w1, key) && Retains(w1, w2, key)
    ensures Retains(w, w2, key)
  {
    if key in w1.store.objs && key !in w.store.objs {
      var i :| 0 <= i < |w1.threads| && w1.threads[i].plan.key == key && w1.store.objs[key].content == w1.threads[i].plan.desired;
      assert w2.threads[i].plan == w1.threads[i].plan;
    }
  }

  // ---- all claims of one connection, and the retry after a failure ----

  /** The claims are ensured one after the other, up to the first that is refused. */
  function RunClaims(plans: seq<Plan>, store: ClaimStore, script: seq<ClaimTurn>): ClaimRun {
    if plans == [] then ClaimRun(store, script, Accepted(0))
    else
      var first := RunClaim(plans[0], ClaimRun(store, script, Looking));
      if first.state.Denied? then first else RunClaims(plans[1..], first.store, first.script)
  }

  /** Only the connection itself fails; nobody else writes. */
  predicate OnlyFaults(script: seq<ClaimTurn>) {
    forall t :: t in script ==> t.acts == []
  }

  predicate SelfAccepting(plan: Plan) {
    && !plan.desired.terminating && plan.desired.ownerRefs == 0
    && AnnotatedIdentity(plan.desired) == plan.identity && LabelledIdentity(plan.desired) == plan.labels
  }

  /** The store and the verdict of one call nobody interferes with. */
  function Ensured(plan: Plan, s: ClaimStore): ClaimStore {
    if plan.key in s.objs then s else Add(s, plan.key, plan.desired)
  }

  function Verdict(plan: Plan, s: ClaimStore): ClaimState
    requires plan.key in s.objs
  {
    Judge(plan, s.objs[plan.key])
  }

  function EnsuredAll(plans: seq<Plan>, s: ClaimStore): ClaimStore {
    if plans == [] then s else EnsuredAll(plans[1..], Ensured(plans[0], s))
  }

  lemma UndisturbedCall(plan: Plan, s: ClaimStore)
    requires SelfAccepting(plan)
    ensures RunClaim(plan, ClaimRun(s, [], Looking)) == ClaimRun(Ensured(plan, s), [], Verdict(plan, Ensured(plan, s)))
  {
    var start := ClaimRun(s, [], Looking);
    var r := StepClaim(plan, start);
    assert RunClaim(plan, start) == RunClaim(plan, r);
    if plan.key !in s.objs {
      var last := StepClaim(plan, r);
      assert last.state.Finished() && RunClaim(plan, r) == last;
    }
  }

  /** With faults, a call leaves the store as it was or as an undisturbed call leaves it, and it
      accepts only what an undisturbed call accepts. */
  lemma {:induction false} FaultyCall(plan: Plan, s: ClaimStore, script: seq<ClaimTurn>, state: ClaimState)
    requires OnlyFaults(script) && !state.Finished()
    requires state == Creating ==> plan.key !in s.objs
    requires state == LookingAgain ==> plan.key in s.objs
    ensures var r := RunClaim(plan, ClaimRun(s, script, state));
      && OnlyFaults(r.script)
      && (r.store == s || r.store == Ensured(plan, s))
      && r.state.Finished()
      && (r.state.Accepted? ==> r.store == Ensured(plan, s) && Verdict(plan, r.store).Accepted?)
    decreases Remaining(state)
  {
    var turn := FirstTurn(script);
    var served := ServeTurn(s, turn, NextCall(plan, state));
    var state' := AfterReply(plan, state, served.1);
    assert turn.acts == [];
    assert OnlyFaults(LaterTurns(script));
    if !state'.Finished() {
      assert served.0 == s;
      FaultyCall(plan, s, LaterTurns(script), state');
    }
  }

  /** A failed connection leaves exactly a prefix of its claims in place, all of them if it
      succeeded, and rolls nothing back. */
  lemma {:induction false} FailureLeavesPrefix(plans: seq<Plan>, s: ClaimStore, script: seq<ClaimTurn>) returns (k: nat)
    requires OnlyFaults(script)
    ensures k <= |plans|
    ensures var r := RunClaims(plans, s, script);
      && r.store == EnsuredAll(plans[..k], s)
      && (r.state.Accepted? ==> k == |plans|)
  {
    k := 0;
    if plans != [] {
      FaultyCall(plans[0], s, script, Looking);
      var first := RunClaim(plans[0], ClaimRun(s, script, Looking));
      if first.state.Accepted? {
        k := FailureLeavesPrefix(plans[1..], first.store, first.script);
        k := k + 1;
        assert plans[..k][1..] == plans[1..][..k - 1];
      } else if first.store != s {
        k := 1;
        assert EnsuredAll(plans[..1], s) == EnsuredAll([], Ensured(plans[0], s));
      }
    }
  }

  ghost predicate Keeps(s: ClaimStore, s': ClaimStore) {
    forall k :: k in s.objs ==> k in s'.objs && s'.objs[k] == s.objs[k]
  }

  lemma {:induction false} FaultyRunKeeps(plans: seq<Plan>, s: ClaimStore, script: seq<ClaimTurn>)
    requires OnlyFaults(script)
    ensures Keeps(s, RunClaims(plans, s, script).store)
  {
    if plans != [] {
      FaultyCall(plans[0], s, script, Looking);
      var first := RunClaim(plans[0], ClaimRun(s, script, Looking));
      if first.state.Accepted? {
        FaultyRunKeeps(plans[1..], first.store, first.script);
      }
    }
  }

  /** Retry converges: whatever faults a connection met, connecting again without faults ends in the
      very store, and with the very verdict, of one connection that was never interrupted. */
  lemma {:induction false} RetryConverges(plans: seq<Plan>, s: ClaimStore, script: seq<ClaimTurn>)
    requires OnlyFaults(script) && forall p :: p in plans ==> SelfAccepting(p)
    ensures RunClaims(plans, RunClaims(plans, s, script).store, []) == RunClaims(plans, s, [])
  {
    if plans != [] {
      var first := RunClaim(plans[0], ClaimRun(s, script, Looking));
      var s1 := RunClaims(plans, s, script).store;
      var e := Ensured(plans[0], s);
      FaultyCall(plans[0], s, script, Looking);
      UndisturbedCall(plans[0], s);
      UndisturbedCall(plans[0], s1);
      if first.state.Accepted? {
        FaultyRunKeeps(plans[1..], e, first.script);
        assert Ensured(plans[0], s1) == s1;
        RetryConverges(plans[1..], e, first.script);
      }
    }
  }

  /** The plans of real requests qualify. */
  lemma PlansAreSelfAccepting(sha: Digest, req: ClaimRequest)
    ensures SelfAccepting(PlanOf(sha, req))
  {
    CreatedClaimIsAccepted(sha, req, 0, 0);
  }

  /** A call that fails, whichever it is and whether or not it took effect, ends the request with an error;
      nothing is tried again. */
  lemma FaultEndsRequest(w: World, i: nat, fault: Fault)
    requires i < |w.threads| && !w.threads[i].state.Finished() && fault != NoFault
    ensures AdvanceThread(w, i, fault).threads[i].state == Denied(ApiError)
  {}

  // ---- what verification accepts ----

  ghost predicate NoFaults(script: seq<ClaimTurn>) {
    forall t :: t in script ==> t.fault == NoFault
  }

  /** A map reads a value under a key; a missing key reads as empty. */
  ghost predicate HasEntry(m: map<string, string>, key: string, value: string) {
    if key in m then m[key] == value else value == ""
  }

  /** A stored claim that a request may use: live, owned by nothing, and saying in annotations and labels
      whose it is. */
  ghost predicate Usable(sha: Digest, c: Claim, req: ClaimRequest) {
    && !c.terminating && c.ownerRefs == 0
    && HasEntry(c.annotations, "dev.box/owner", TrimSpace(req.user))
    && HasEntry(c.annotations, "dev.box/template", req.template)
    && HasEntry(c.annotations, "dev.box/claim", req.decl.name)
    && HasEntry(c.labels, "dev.box/owner", OwnerLabel(sha, TrimSpace(req.user)))
    && HasEntry(c.labels, "dev.box/template", OwnerLabel(sha, req.template))
    && HasEntry(c.labels, "dev.box/claim", req.decl.name)
  }

  lemma JudgedByEntries(sha: Digest, req: ClaimRequest, key: string, o: Obj<Claim>)
    ensures var plan := PlanOf(sha, req).(key := key);
      && (Judge(plan, o) == Accepted(o.uid) <==> Usable(sha, o.content, req))
      && (Judge(plan, o) == Denied(Terminating) <==> o.content.terminating)
      && (Judge(plan, o) == Denied(NotRetained) <==> !o.content.terminating && o.content.ownerRefs != 0)
  {
    hide OwnerLabel, TrimSpace, DesiredClaim, Lookup, HasEntry;
    var owner := TrimSpace(req.user);
    ReadsAs(o.content.annotations, owner, req.template, req.decl.name);
    ReadsAs(o.content.labels, OwnerLabel(sha, owner), OwnerLabel(sha, req.template), req.decl.name);
  }

  lemma ReadsAs(m: map<string, string>, owner: string, template: string, claim: string)
    ensures Lookup(m, OWNER_KEY) == owner <==> HasEntry(m, "dev.box/owner", owner)
    ensures Lookup(m, TEMPLATE_KEY) == template <==> HasEntry(m, "dev.box/template", template)
    ensures Lookup(m, CLAIM_KEY) == claim <==> HasEntry(m, "dev.box/claim", claim)
  {}

  lemma {:induction false} FaultFreeCall(plan: Plan, s: ClaimStore, script: seq<ClaimTurn>, state: ClaimState)
    requires NoFaults(script) && !state.Finished()
    ensures var r := RunClaim(plan, ClaimRun(s, script, state));
      r.state == if plan.key in r.store.objs then Judge(plan, r.store.objs[plan.key]) else Denied(ApiError)
    decreases Remaining(state)
  {
    var turn := FirstTurn(script);
    assert turn.fault == NoFault && NoFaults(LaterTurns(script));
    hide PerformAll, Judge;
    var served := ServeTurn(s, turn, NextCall(plan, state));
    var state' := AfterReply(plan, state, served.1);
    if !state'.Finished() {
      FaultFreeCall(plan, served.0, LaterTurns(script), state');
    }
  }

  /** The verdict of a call no fault touches, whatever other writers do between its steps, a racing creator
      included: it is that of the object stored when the call ends, and the object is accepted exactly
      when it is usable. Only a claim that vanishes in the middle is an API error. */
  lemma VerdictOfStored(sha: Digest, req: ClaimRequest, key: string, s: ClaimStore, script: seq<ClaimTurn>)
    requires NoFaults(script)
    ensures var r := RunClaim(PlanOf(sha, req).(key := key), ClaimRun(s, script, Looking));
      && (r.state.Accepted? <==> key in r.store.objs && Usable(sha, r.store.objs[key].content, req))
      && (r.state == Denied(ApiError) <==> key !in r.store.objs)
  {
    var plan := PlanOf(sha, req).(key := key);
    FaultFreeCall(plan, s, script, Looking);
    var r := RunClaim(plan, ClaimRun(s, script, Looking));
    hide RunClaim, PlanOf, Usable;
    if key in r.store.objs { JudgedByEntries(sha, req, key, r.store.objs[key]); }
  }
}
