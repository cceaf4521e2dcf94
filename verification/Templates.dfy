/** Pod templates as heap objects: what a parsed template shares, and what a response must copy
    before it changes it (config-server/storage.go, config-server/persistent.go). */
module Templates {
  import opened Claims
  import opened TemplateCache

  // ---- a template as a value ----

  datatype VolumeData = VolumeData(name: string, claim: Option<string>)

  datatype ConfigData = ConfigData(mode: string, podName: string, createMissing: bool,
                                   labels: map<string, string>, volumes: seq<VolumeData>)

  datatype TemplateData = TemplateData(config: ConfigData, claims: seq<ClaimDecl>)

  predicate SelectsNonPersistent(mode: string) {
    mode != "" && mode != "persistent"
  }

  // ---- validation of volumeClaimTemplates ----

  /** A DNS label, section 2.1 of RFC 1123: at most 63 lower-case letters, digits and inner dashes. */
  predicate IsDnsLabel(s: string) {
    && 0 < |s| <= 63
    && s[0] != '-' && s[|s| - 1] != '-'
    && forall c :: c in s ==> 'a' <= c <= 'z' || '0' <= c <= '9' || c == '-'
  }

  ghost predicate DistinctNames(claims: seq<ClaimDecl>) {
    forall i, j :: 0 <= i < j < |claims| ==> claims[i].name != claims[j].name
  }

  /** The templates the server is willing to serve. */
  ghost predicate ClaimsAccepted(t: TemplateData, persistent: bool) {
    t.claims != [] ==>
    && persistent && !SelectsNonPersistent(t.config.mode)
    && DistinctNames(t.claims)
    && forall i :: 0 <= i < |t.claims| ==> IsDnsLabel(t.claims[i].name) && t.claims[i].positiveStorage
  }

  method ReadClaims(t: TemplateData, persistent: bool) returns (ok: bool)
    ensures ok == ClaimsAccepted(t, persistent)
  {
    if |t.claims| == 0 { return true; }
    if !persistent || SelectsNonPersistent(t.config.mode) { return false; }
    var seen: set<string> := {};
    for i := 0 to |t.claims|
      invariant DistinctNames(t.claims[..i])
      invariant forall n :: n in seen <==> exists k :: 0 <= k < i && t.claims[k].name == n
      invariant forall k :: 0 <= k < i ==> IsDnsLabel(t.claims[k].name) && t.claims[k].positiveStorage
    {
      var claim := t.claims[i];
      if !IsDnsLabel(claim.name) { return false; }
      if claim.name in seen { return false; }
      seen := seen + {claim.name};
      if !claim.positiveStorage { return false; }
    }
    assert t.claims[..|t.claims|] == t.claims;
    return true;
  }

  // ---- a template as the objects the cache holds ----

  class LabelMap {
    var entries: map<string, string>
    constructor (entries: map<string, string>)
      ensures this.entries == entries
    {
      this.entries := entries;
    }
  }

  class PvcRef {
    var claimName: string
    constructor (claimName: string)
      ensures this.claimName == claimName
    {
      this.claimName := claimName;
    }
  }

  datatype Volume = Volume(name: string, pvc: PvcRef?)

  /** Copying this value copies two pointers, not the labels and volumes behind them. */
  datatype AppConfig = AppConfig(mode: string, podName: string, createMissing: bool, labels: LabelMap, volumes: array<Volume>)

  datatype PodTemplate = PodTemplate(cfg: AppConfig, claims: seq<ClaimDecl>)

  ghost function RefsOf(volumes: array<Volume>): set<object>
    reads volumes
  {
    set i | 0 <= i < volumes.Length && volumes[i].pvc != null :: volumes[i].pvc
  }

  ghost predicate VolumesShow(volumes: array<Volume>, data: seq<VolumeData>)
    reads volumes, RefsOf(volumes)
  {
    && volumes.Length == |data|
    && forall i :: 0 <= i < volumes.Length ==> VolumeShows(volumes[i], data[i])
  }

  ghost predicate VolumeShows(v: Volume, d: VolumeData)
    reads v.pvc
  {
    v.name == d.name && (v.pvc == null <==> d.claim == None) && (v.pvc != null ==> d.claim == Some(v.pvc.claimName))
  }

  /** The objects behind `cfg` spell out `data`. */
  ghost predicate Shows(cfg: AppConfig, data: ConfigData)
    reads cfg.labels, cfg.volumes, RefsOf(cfg.volumes)
  {
    && cfg.mode == data.mode && cfg.podName == data.podName && cfg.createMissing == data.createMissing
    && cfg.labels.entries == data.labels
    && VolumesShow(cfg.volumes, data.volumes)
  }

  /** No two volumes share a PVC reference. */
  ghost predicate Unshared(volumes: array<Volume>)
    reads volumes
  {
    forall i, j :: 0 <= i < j < volumes.Length && volumes[i].pvc != null ==> volumes[i].pvc != volumes[j].pvc
  }

  /** What decoding a template file allocates. */
  method Instantiate(data: TemplateData) returns (t: PodTemplate)
    ensures fresh(t.cfg.labels) && fresh(t.cfg.volumes) && fresh(RefsOf(t.cfg.volumes))
    ensures Shows(t.cfg, data.config) && t.claims == data.claims
  {
    var labels := new LabelMap(data.config.labels);
    var volumes := new Volume[|data.config.volumes|];
    for i := 0 to |data.config.volumes|
      invariant fresh(volumes) && volumes.Length == |data.config.volumes| && labels.entries == data.config.labels
      invariant forall k :: 0 <= k < i ==> (volumes[k].pvc != null ==> fresh(volumes[k].pvc)) && VolumeShows(volumes[k], data.config.volumes[k])
    {
      var d := data.config.volumes[i];
      var pvc: PvcRef? := null;
      if d.claim.Some? { pvc := new PvcRef(d.claim.value); }
      volumes[i] := Volume(d.name, pvc);
    }
    t := PodTemplate(AppConfig(data.config.mode, data.config.podName, data.config.createMissing, labels, volumes), data.claims);
  }

  /** `PodSpec.DeepCopy`, as far as volumes are concerned. */
  method CopyVolumes(volumes: array<Volume>, ghost data: seq<VolumeData>) returns (copy: array<Volume>)
    requires VolumesShow(volumes, data)
    ensures fresh(copy) && fresh(RefsOf(copy)) && Unshared(copy)
    ensures VolumesShow(copy, data)
  {
    copy := new Volume[volumes.Length];
    for i := 0 to volumes.Length
      invariant fresh(copy) && copy.Length == volumes.Length && VolumesShow(volumes, data)
      invariant forall k :: 0 <= k < i ==> (copy[k].pvc != null ==> fresh(copy[k].pvc)) && VolumeShows(copy[k], data[k])
      invariant forall j, k :: 0 <= j < k < i && copy[j].pvc != null ==> copy[j].pvc != copy[k].pvc
    {
      assert VolumeShows(volumes[i], data[i]);
      var pvc: PvcRef? := null;
      if volumes[i].pvc != null { pvc := new PvcRef(volumes[i].pvc.claimName); }
      copy[i] := Volume(volumes[i].name, pvc);
    }
  }

  // ---- rewriting claim references ----

  function RewriteVolume(d: VolumeData, names: map<string, string>): VolumeData {
    if d.claim.Some? && d.claim.value in names then VolumeData(d.name, Some(names[d.claim.value])) else d
  }

  function RewriteVolumes(data: seq<VolumeData>, names: map<string, string>): (r: seq<VolumeData>)
    ensures |r| == |data| && forall i :: 0 <= i < |data| ==> r[i] == RewriteVolume(data[i], names)
  {
    if data == [] then [] else RewriteVolumes(data[..|data| - 1], names) + [RewriteVolume(data[|data| - 1], names)]
  }

  /** The source's in-place loop. Because no two volumes share a reference, each declared reference is
      rewritten exactly once, even if a rewritten name is itself a declared one. */
  method RewriteInPlace(volumes: array<Volume>, names: map<string, string>, ghost data: seq<VolumeData>)
    requires VolumesShow(volumes, data) && Unshared(volumes)
    modifies RefsOf(volumes)
    ensures VolumesShow(volumes, RewriteVolumes(data, names))
  {
    ghost var rewritten := RewriteVolumes(data, names);
    for i := 0 to volumes.Length
      invariant forall k :: 0 <= k < i ==> VolumeShows(volumes[k], rewritten[k])
      invariant forall k :: i <= k < volumes.Length ==> VolumeShows(volumes[k], data[k])
    {
      var ref := volumes[i].pvc;
      if ref != null {
        if ref.claimName in names {
          assert ref in RefsOf(volumes);
          ref.claimName := names[ref.claimName];
        }
      }
    }
  }

  /** `volumes` and what it refers to lie in `objs` and spell out `data`. */
  ghost predicate VolumesBack(volumes: array<Volume>, data: seq<VolumeData>, objs: set<object>)
    reads objs
  {
    volumes in objs && RefsOf(volumes) <= objs && VolumesShow(volumes, data) && Unshared(volumes)
  }

  method RewriteOwn(volumes: array<Volume>, names: map<string, string>, ghost data: seq<VolumeData>, ghost mine: set<object>)
    requires VolumesBack(volumes, data, mine)
    modifies mine
    ensures VolumesBack(volumes, RewriteVolumes(data, names), mine)
  {
    hide VolumesShow, RewriteVolumes;
    RewriteInPlace(volumes, names, data);
  }
}
