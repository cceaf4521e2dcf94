/** What one connection to a template is answered, as values: identity and cap first, then retained
    claims, then the rewritten pod (config-server/handler.go, persistent.go, storage.go). */
module Serving {
  import opened Strings
  import opened Identity
  import opened KubeApi
  import opened Claims
  import opened TemplateCache
  import opened Templates
  import BoxCap

  datatype Reason =
    | NoTemplate | BrokenTemplate
    | NoIdentity | CapReached | CannotListPods
    | ClaimsNotConfigured | ClaimDenied(why: Denial)
    | NoSettingsImage | TemplatesUnreadable | AccessNotConfigured | AccessNotReconciled

  datatype Outcome<+T> = Served(value: T) | Refused(reason: Reason)

  /** The answers of the pod list call, by owner label. */
  type PodLists = string -> BoxCap.Listing

  /** Does this template get a named box that outlives the connection? */
  predicate Personal(persistent: bool, mode: string) {
    persistent && !SelectsNonPersistent(mode)
  }

  /** Why identity or cap refuse a box, if they do. */
  function Gate(sha: Digest, maxPods: int, pods: PodLists, user: string, template: string): Option<Reason> {
    var owner := TrimSpace(user);
    if owner == "" then Some(NoIdentity)
    else match BoxCap.CapVerdict(maxPods, pods(OwnerLabel(sha, owner)), BoxPodName(sha, owner, template))
      case Admit => None
      case AtCap => Some(CapReached)
      case CannotList => Some(CannotListPods)
  }

  function Injected(sha: Digest, c: ConfigData, user: string, template: string): ConfigData {
    var owner := TrimSpace(user);
    c.(podName := BoxPodName(sha, owner, template), createMissing := true,
       labels := IdentityLabels(sha, c.labels, owner, template))
  }

  /** A template's labels with the identity labels over them. */
  function IdentityLabels(sha: Digest, labels: map<string, string>, owner: string, template: string): map<string, string> {
    labels[OWNER_KEY := OwnerLabel(sha, owner)][TEMPLATE_KEY := OwnerLabel(sha, template)]
  }

  function StoragePlan(sha: Digest, pod: string, user: string, template: string, decl: ClaimDecl): Plan {
    PlanOf(sha, ClaimRequest(user, template, decl)).(key := ClaimName(pod, decl.name))
  }

  /** The claims to ensure, in declaration order, for a pod of the given name. */
  function StoragePlans(sha: Digest, pod: string, user: string, template: string, decls: seq<ClaimDecl>): (plans: seq<Plan>)
    ensures |plans| == |decls| && forall i :: 0 <= i < |decls| ==> plans[i] == StoragePlan(sha, pod, user, template, decls[i])
  {
    hide StoragePlan;
    if decls == [] then []
    else
      var last := |decls| - 1;
      StoragePlans(sha, pod, user, template, decls[..last]) + [StoragePlan(sha, pod, user, template, decls[last])]
  }

  /** Declared claim name to PVC name. */
  function ClaimNames(pod: string, decls: seq<ClaimDecl>): map<string, string> {
    if decls == [] then map[]
    else ClaimNames(pod, decls[..|decls| - 1])[decls[|decls| - 1].name := ClaimName(pod, decls[|decls| - 1].name)]
  }

  function Mounted(c: ConfigData, decls: seq<ClaimDecl>): ConfigData {
    c.(volumes := RewriteVolumes(c.volumes, ClaimNames(c.podName, decls)))
  }

  datatype Answer = Answer(outcome: Outcome<ConfigData>, store: ClaimStore, script: seq<ClaimTurn>)

  function WithStorage(sha: Digest, configured: bool, c: ConfigData, decls: seq<ClaimDecl>, user: string, template: string,
                       store: ClaimStore, script: seq<ClaimTurn>): Answer {
    if !configured then Answer(Refused(ClaimsNotConfigured), store, script)
    else
      var run := RunClaims(StoragePlans(sha, c.podName, user, template, decls), store, script);
      Answer(if run.state.Denied? then Refused(ClaimDenied(run.state.reason)) else Served(Mounted(c, decls)), run.store, run.script)
  }

  /** Identity and cap, for a personal template; any other is served as it is. */
  function Prepare(sha: Digest, persistent: bool, maxPods: int, pods: PodLists, c: ConfigData, user: string, template: string): Outcome<ConfigData> {
    if !Personal(persistent, c.mode) then Served(c)
    else
      var gate := Gate(sha, maxPods, pods, user, template);
      if gate.Some? then Refused(gate.value) else Served(Injected(sha, c, user, template))
  }

  /** The whole answer to a connection whose template holds `data`. */
  function AnswerBox(sha: Digest, persistent: bool, maxPods: int, configured: bool, pods: PodLists, data: TemplateData,
                     user: string, template: string, store: ClaimStore, script: seq<ClaimTurn>): Answer {
    match Prepare(sha, persistent, maxPods, pods, data.config, user, template)
    case Refused(reason) => Answer(Refused(reason), store, script)
    case Served(c) =>
      if data.claims == [] then Answer(Served(c), store, script)
      else WithStorage(sha, configured, c, data.claims, user, template, store, script)
  }

  // ---- claims imply a verified box ----

  lemma {:induction false} ClaimNamesMeaning(pod: string, decls: seq<ClaimDecl>, name: string)
    ensures name in ClaimNames(pod, decls) <==> exists i :: 0 <= i < |decls| && decls[i].name == name
    ensures name in ClaimNames(pod, decls) ==> ClaimNames(pod, decls)[name] == ClaimName(pod, name)
  {
    if decls != [] {
      var init := decls[..|decls| - 1];
      ClaimNamesMeaning(pod, init, name);
      if i :| 0 <= i < |decls| && decls[i].name == name && i < |init| { assert init[i].name == name; }
      if i :| 0 <= i < |init| && init[i].name == name { assert decls[i].name == name; }
    }
  }

  lemma {:induction false} AcceptedPlansAreStored(plans: seq<Plan>, s: ClaimStore, script: seq<ClaimTurn>, i: nat)
    requires OnlyFaults(script) && !RunClaims(plans, s, script).state.Denied? && i < |plans|
    ensures var store := RunClaims(plans, s, script).store;
      plans[i].key in store.objs && Verdict(plans[i], store).Accepted?
  {
    FaultyCall(plans[0], s, script, Looking);
    var first := RunClaim(plans[0], ClaimRun(s, script, Looking));
    if i > 0 {
      AcceptedPlansAreStored(plans[1..], first.store, first.script, i - 1);
    } else {
      FaultyRunKeeps(plans[1..], first.store, first.script);
    }
  }

  /** The volume, naming this pod's PVC if it named a declared claim. */
  ghost function ReferTo(v: VolumeData, pod: string, decls: seq<ClaimDecl>): VolumeData {
    if v.claim.Some? && exists k :: 0 <= k < |decls| && decls[k].name == v.claim.value
    then VolumeData(v.name, Some(ClaimName(pod, v.claim.value)))
    else v
  }

  /** A template with claims is served, or touches the claim store at all, only for a non-empty
      identity that the cap admits. What is then served carries the pod name of that identity and
      template, and each volume that named a declared claim names the PVC of this pod and that
      claim; every other volume is as the template has it. */
  lemma ClaimsImplyVerifiedBox(sha: Digest, persistent: bool, maxPods: int, configured: bool, pods: PodLists, data: TemplateData,
                               user: string, template: string, store: ClaimStore, script: seq<ClaimTurn>)
    requires ClaimsAccepted(data, persistent) && data.claims != []
    ensures var a := AnswerBox(sha, persistent, maxPods, configured, pods, data, user, template, store, script);
      var owner := TrimSpace(user);
      var pod := BoxPodName(sha, owner, template);
      && (a.outcome.Served? || a.store != store || a.script != script ==>
            owner != "" && BoxCap.CapVerdict(maxPods, pods(OwnerLabel(sha, owner)), pod) == BoxCap.Admit)
      && (a.outcome.Served? ==>
            && a.outcome.value.podName == pod && |a.outcome.value.volumes| == |data.config.volumes|
            && forall i :: 0 <= i < |data.config.volumes| ==>
                 a.outcome.value.volumes[i] == ReferTo(data.config.volumes[i], pod, data.claims))
  {
    hide TrimSpace, OwnerLabel, BoxPodName, BoxCap.CapVerdict, ClaimName, RunClaims, StoragePlans, ClaimNames, RewriteVolume;
    var pod := BoxPodName(sha, TrimSpace(user), template);
    forall i | 0 <= i < |data.config.volumes|
      ensures RewriteVolume(data.config.volumes[i], ClaimNames(pod, data.claims)) == ReferTo(data.config.volumes[i], pod, data.claims)
    {
      VolumeRefers(data.config.volumes[i], pod, data.claims);
    }
  }

  lemma VolumeRefers(v: VolumeData, pod: string, decls: seq<ClaimDecl>)
    ensures RewriteVolume(v, ClaimNames(pod, decls)) == ReferTo(v, pod, decls)
  {
    hide ClaimNames;
    if v.claim.Some? { ClaimNamesMeaning(pod, decls, v.claim.value); }
  }

  /** If only the connection to the API can fail, every claim of a served box is in the store when the
      box is served, neither terminating nor owned, and its annotations and labels say it belongs
      to this trimmed owner, this template and this claim. */
  lemma ServedClaimsAreOwned(sha: Digest, persistent: bool, maxPods: int, configured: bool, pods: PodLists, data: TemplateData,
                             user: string, template: string, store: ClaimStore, script: seq<ClaimTurn>, k: nat)
    requires ClaimsAccepted(data, persistent) && OnlyFaults(script) && k < |data.claims|
    requires AnswerBox(sha, persistent, maxPods, configured, pods, data, user, template, store, script).outcome.Served?
    ensures var a := AnswerBox(sha, persistent, maxPods, configured, pods, data, user, template, store, script);
      var key := ClaimName(a.outcome.value.podName, data.claims[k].name);
      && key in a.store.objs
      && !a.store.objs[key].content.terminating && a.store.objs[key].content.ownerRefs == 0
      && var id := ClaimIdentity(TrimSpace(user), template, data.claims[k].name);
      && AnnotatedIdentity(a.store.objs[key].content) == id
      && LabelledIdentity(a.store.objs[key].content) == LabelsOf(sha, id)
  {
    hide LabelledIdentity, LabelsOf, TrimSpace, OwnerLabel, BoxPodName, BoxCap.CapVerdict, ClaimName, RunClaims, DesiredClaim, ClaimNames, AnnotatedIdentity;
    var pod := BoxPodName(sha, TrimSpace(user), template);
    AcceptedPlansAreStored(StoragePlans(sha, pod, user, template, data.claims), store, script, k);
  }

  lemma StoragePlansSelfAccept(sha: Digest, pod: string, user: string, template: string, decls: seq<ClaimDecl>)
    ensures forall p :: p in StoragePlans(sha, pod, user, template, decls) ==> SelfAccepting(p)
  {
    hide PlanOf, SelfAccepting;
    var plans := StoragePlans(sha, pod, user, template, decls);
    forall p | p in plans ensures SelfAccepting(p) {
      var i :| 0 <= i < |plans| && plans[i] == p;
      var req := ClaimRequest(user, template, decls[i]);
      PlansAreSelfAccepting(sha, req);
      OtherKeySelfAccepts(PlanOf(sha, req), p.key);
    }
  }

  lemma OtherKeySelfAccepts(plan: Plan, key: string)
    ensures SelfAccepting(plan.(key := key)) == SelfAccepting(plan)
  {}

  /** Connecting again after a connection that failed part-way gets the answer, and leaves the claims, of
      one connection that never failed. */
  lemma RetriedConnectionConverges(sha: Digest, persistent: bool, maxPods: int, configured: bool, pods: PodLists, data: TemplateData,
                                   user: string, template: string, store: ClaimStore, script: seq<ClaimTurn>)
    requires OnlyFaults(script)
    ensures var failed := AnswerBox(sha, persistent, maxPods, configured, pods, data, user, template, store, script);
      AnswerBox(sha, persistent, maxPods, configured, pods, data, user, template, failed.store, []) ==
      AnswerBox(sha, persistent, maxPods, configured, pods, data, user, template, store, [])
  {
    hide Prepare, RunClaims, StoragePlans, Mounted, OnlyFaults, SelfAccepting;
    var prepared := Prepare(sha, persistent, maxPods, pods, data.config, user, template);
    if prepared.Served? {
      StoragePlansSelfAccept(sha, prepared.value.podName, user, template, data.claims);
      RetryConverges(StoragePlans(sha, prepared.value.podName, user, template, data.claims), store, script);
    }
  }

  // ---- what a created claim holds ----

  ghost predicate DistinctKeysOf(plans: seq<Plan>) {
    forall i, j :: 0 <= i < j < |plans| ==> plans[i].key != plans[j].key
  }

  /** Accepted declarations never share a PVC. */
  lemma DeclaredClaimsAreApart(sha: Digest, pod: string, user: string, template: string, decls: seq<ClaimDecl>)
    requires DistinctNames(decls)
    ensures DistinctKeysOf(StoragePlans(sha, pod, user, template, decls))
  {
    hide PlanOf, StoragePlans;
    var plans := StoragePlans(sha, pod, user, template, decls);
    forall i, j | 0 <= i < j < |plans| ensures plans[i].key != plans[j].key {
      var n := |pod| + 1;
      assert ClaimName(pod, decls[i].name)[n..] == decls[i].name && ClaimName(pod, decls[j].name)[n..] == decls[j].name;
    }
  }

  lemma {:induction false} MissingClaimIsCreated(plans: seq<Plan>, s: ClaimStore, script: seq<ClaimTurn>, i: nat)
    requires OnlyFaults(script) && DistinctKeysOf(plans) && i < |plans| && plans[i].key !in s.objs
    requires !RunClaims(plans, s, script).state.Denied?
    ensures var store := RunClaims(plans, s, script).store;
      plans[i].key in store.objs && store.objs[plans[i].key].content == plans[i].desired
  {
    FaultyCall(plans[0], s, script, Looking);
    var first := RunClaim(plans[0], ClaimRun(s, script, Looking));
    hide RunClaim;
    if i > 0 {
      MissingClaimIsCreated(plans[1..], first.store, first.script, i - 1);
    } else {
      FaultyRunKeeps(plans[1..], first.store, first.script);
    }
  }

  /** A served box whose claim was not there before: the PVC of its pod and that claim now is, exactly as
      declared, with the declared specification, labels and annotations and the identity over them, live
      and owned by nothing. */
  lemma CreatedClaimIsAsDeclared(sha: Digest, persistent: bool, maxPods: int, configured: bool, pods: PodLists, data: TemplateData,
                                 user: string, template: string, store: ClaimStore, script: seq<ClaimTurn>, k: nat)
    requires ClaimsAccepted(data, persistent) && OnlyFaults(script) && k < |data.claims|
    requires BoxPodName(sha, TrimSpace(user), template) + "-" + data.claims[k].name !in store.objs
    ensures var a := AnswerBox(sha, persistent, maxPods, configured, pods, data, user, template, store, script);
      var key := BoxPodName(sha, TrimSpace(user), template) + "-" + data.claims[k].name;
      a.outcome.Served? ==>
        key in a.store.objs && AsDeclared(sha, a.store.objs[key].content, ClaimRequest(user, template, data.claims[k]))
  {
    hide TrimSpace, BoxPodName, Gate, RunClaims, DesiredClaim, AsDeclared, ClaimNames;
    var pod := BoxPodName(sha, TrimSpace(user), template);
    var req := ClaimRequest(user, template, data.claims[k]);
    var a := AnswerBox(sha, persistent, maxPods, configured, pods, data, user, template, store, script);
    if a.outcome.Served? {
      var plans := StoragePlans(sha, pod, user, template, data.claims);
      DeclaredClaimsAreApart(sha, pod, user, template, data.claims);
      MissingClaimIsCreated(plans, store, script, k);
      RequestedAsDeclared(sha, req);
    }
  }

  // ---- identity and cap, spelled out ----

  /** A pod that takes up a place: not being deleted, and not finished. */
  predicate TakesPlace(p: BoxCap.Pod) {
    !p.terminating && (p.phase == BoxCap.Pending || p.phase == BoxCap.Running || p.phase == BoxCap.Unknown)
  }

  function PlacesTaken(items: seq<BoxCap.Item>): nat {
    if items == [] then 0 else PlacesTaken(items[1..]) + if TakesPlace(items[0].pod) then 1 else 0
  }

  ghost predicate HasPlace(items: seq<BoxCap.Item>, pod: string) {
    exists i :: 0 <= i < |items| && items[i].name == pod && TakesPlace(items[i].pod)
  }

  lemma {:induction false} PlacesOfPrefix(items: seq<BoxCap.Item>)
    requires items != []
    ensures PlacesTaken(items) == PlacesTaken(items[..|items| - 1]) + if TakesPlace(items[|items| - 1].pod) then 1 else 0
  {
    if |items| > 1 {
      PlacesOfPrefix(items[1..]);
      assert items[1..][..|items| - 2] == items[..|items| - 1][1..];
    }
  }

  lemma {:induction false} PlacesAreLiveItems(items: seq<BoxCap.Item>)
    ensures |BoxCap.LiveItems(items)| == PlacesTaken(items)
  {
    if items != [] {
      PlacesAreLiveItems(items[..|items| - 1]);
      PlacesOfPrefix(items);
    }
  }

  lemma HasPlaceIsLive(items: seq<BoxCap.Item>, pod: string)
    ensures HasPlace(items, pod) <==> pod in BoxCap.LiveItems(items)
  {
    hide BoxCap.LiveItems;
    BoxCap.LiveItemsMembers(items, pod);
    if i :| BoxCap.LiveAt(items, pod, i) { assert TakesPlace(items[i].pod); }
    if HasPlace(items, pod) {
      var i :| 0 <= i < |items| && items[i].name == pod && TakesPlace(items[i].pod);
      assert BoxCap.LiveAt(items, pod, i);
    }
  }

  /** Whom identity and cap refuse, and why: nobody without an identity passes; without a cap nothing else
      is asked; under a cap a list that fails refuses, and so does a list with no place left, unless the
      box itself has one. Everyone else passes. */
  lemma GateExactly(sha: Digest, maxPods: int, pods: PodLists, user: string, template: string)
    ensures var owner := TrimSpace(user);
      var listing, pod := pods(OwnerLabel(sha, owner)), BoxPodName(sha, owner, template);
      Gate(sha, maxPods, pods, user, template) ==
        if owner == "" then Some(NoIdentity)
        else if maxPods <= 0 then None
        else if listing.ListFailed? then Some(CannotListPods)
        else if !HasPlace(listing.items, pod) && PlacesTaken(listing.items) >= maxPods then Some(CapReached)
        else None
  {
    hide TrimSpace, OwnerLabel, BoxPodName, BoxCap.LiveItems, HasPlace, PlacesTaken;
    var owner := TrimSpace(user);
    var listing := pods(OwnerLabel(sha, owner));
    if listing.Listed? {
      PlacesAreLiveItems(listing.items);
      HasPlaceIsLive(listing.items, BoxPodName(sha, owner, template));
    }
  }

  /** A personal template, with claims or without: what identity or cap refuse is refused for that reason
      with the claims and the API untouched, and what they pass is refused, if at all, only over claims. */
  lemma GateDecides(sha: Digest, persistent: bool, maxPods: int, configured: bool, pods: PodLists, data: TemplateData,
                    user: string, template: string, store: ClaimStore, script: seq<ClaimTurn>)
    requires persistent && (data.config.mode == "" || data.config.mode == "persistent")
    ensures var a := AnswerBox(sha, persistent, maxPods, configured, pods, data, user, template, store, script);
      var gate := Gate(sha, maxPods, pods, user, template);
      && (gate.Some? ==> a == Answer(Refused(gate.value), store, script))
      && (gate == None && data.claims == [] ==> a.outcome.Served? && a.store == store && a.script == script)
      && (gate == None && a.outcome.Refused? ==>
            data.claims != [] && (a.outcome.reason == ClaimsNotConfigured <==> !configured) && (configured ==> a.outcome.reason.ClaimDenied?))
  {
    hide Gate, Injected, RunClaims, Mounted;
  }

  /** A positive cap fails closed: if the pods cannot be listed, no box is served and no claim is touched. */
  lemma FailedListRefuses(sha: Digest, persistent: bool, maxPods: int, configured: bool, pods: PodLists, data: TemplateData,
                          user: string, template: string, store: ClaimStore, script: seq<ClaimTurn>)
    requires persistent && (data.config.mode == "" || data.config.mode == "persistent") && maxPods > 0
    requires pods(OwnerLabel(sha, TrimSpace(user))).ListFailed?
    ensures var a := AnswerBox(sha, persistent, maxPods, configured, pods, data, user, template, store, script);
      a.outcome.Refused? && a.store == store && a.script == script
  {
    hide TrimSpace, OwnerLabel, Gate;
    GateExactly(sha, maxPods, pods, user, template);
    GateDecides(sha, persistent, maxPods, configured, pods, data, user, template, store, script);
  }

  // ---- what a served box carries ----

  /** A served personal box, with claims or without: the name of the identity's box for this template, made
      on demand, labelled with the very label the cap lists by and with its template, every other label
      as the template has it; its mode is the template's. */
  lemma ServedBoxIsLabelled(sha: Digest, persistent: bool, maxPods: int, configured: bool, pods: PodLists, data: TemplateData,
                            user: string, template: string, store: ClaimStore, script: seq<ClaimTurn>)
    requires persistent && (data.config.mode == "" || data.config.mode == "persistent")
    ensures var outcome := AnswerBox(sha, persistent, maxPods, configured, pods, data, user, template, store, script).outcome;
      outcome.Served? ==>
        var c := outcome.value;
        && c.podName == BoxPodName(sha, TrimSpace(user), template) && c.createMissing && c.mode == data.config.mode
        && Labelled(c.labels, data.config.labels, OwnerLabel(sha, TrimSpace(user)), OwnerLabel(sha, template))
        && (data.claims == [] ==> c.volumes == data.config.volumes)
  {
    hide TrimSpace, OwnerLabel, BoxPodName, Labelled, IdentityLabels, AnswerBox, Gate;
    LabelsCarryIdentity(sha, data.config.labels, TrimSpace(user), template);
    StorageChangesVolumesOnly(sha, persistent, maxPods, configured, pods, data, user, template, store, script);
  }

  lemma StorageChangesVolumesOnly(sha: Digest, persistent: bool, maxPods: int, configured: bool, pods: PodLists, data: TemplateData,
                                  user: string, template: string, store: ClaimStore, script: seq<ClaimTurn>)
    ensures var outcome := AnswerBox(sha, persistent, maxPods, configured, pods, data, user, template, store, script).outcome;
      var prepared := Prepare(sha, persistent, maxPods, pods, data.config, user, template);
      outcome.Served? ==>
        && prepared.Served? && outcome.value == prepared.value.(volumes := outcome.value.volumes)
        && (data.claims == [] ==> outcome == prepared)
  {
    hide Prepare, RunClaims, RewriteVolumes, StoragePlans;
  }

  /** `m` is `declared` with these two labels over it. */
  ghost predicate Labelled(m: map<string, string>, declared: map<string, string>, owner: string, template: string) {
    && "dev.box/owner" in m && m["dev.box/owner"] == owner
    && "dev.box/template" in m && m["dev.box/template"] == template
    && forall k :: k != "dev.box/owner" && k != "dev.box/template" ==>
         (k in m <==> k in declared) && (k in m ==> m[k] == declared[k])
  }

  lemma LabelsCarryIdentity(sha: Digest, labels: map<string, string>, owner: string, template: string)
    ensures Labelled(IdentityLabels(sha, labels, owner, template), labels, OwnerLabel(sha, owner), OwnerLabel(sha, template))
  {
    hide OwnerLabel;
    DistinctKeys();
  }

  /** A template that is not personal and has no claims is served exactly as it is, to anyone. */
  lemma OtherTemplatesAreServedAsTheyAre(sha: Digest, persistent: bool, maxPods: int, configured: bool, pods: PodLists, data: TemplateData,
                                         user: string, template: string, store: ClaimStore, script: seq<ClaimTurn>)
    requires !persistent || (data.config.mode != "" && data.config.mode != "persistent")
    requires data.claims == []
    ensures AnswerBox(sha, persistent, maxPods, configured, pods, data, user, template, store, script) ==
            Answer(Served(data.config), store, script)
  {
    hide Gate, Injected;
  }

  /** The PVC of an accepted claim has a name a DNS label may have but for its length: lower-case letters,
      digits and dashes, a letter first, no dash last, and at most 78 bytes. */
  lemma PvcNameIsDns(sha: Digest, owner: string, template: string, claim: string)
    requires IsDnsLabel(claim)
    ensures var name := ClaimName(BoxPodName(sha, owner, template), claim);
      && 16 <= |name| <= 78 && name[0] == 'b' && name[|name| - 1] != '-'
      && forall i :: 0 <= i < |name| ==> 'a' <= name[i] <= 'z' || '0' <= name[i] <= '9' || name[i] == '-'
  {
    var pod := BoxPodName(sha, owner, template);
    BoxNameShape(sha, owner, template);
    hide BoxPodName;
    var name := ClaimName(pod, claim);
    assert name[..4] == pod[..4] && pod[..4][0] == pod[0];
    forall i | 0 <= i < |name| ensures 'a' <= name[i] <= 'z' || '0' <= name[i] <= '9' || name[i] == '-' {
      if i < 4 { assert name[i] == "box-"[i]; }
      else if i < 14 { assert name[i] == pod[i]; }
      else if i > 14 { assert name[i] == claim[i - 15] && claim[i - 15] in claim; }
    }
  }
}
