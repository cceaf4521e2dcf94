/** Serving one connection: exact template lookup through the cache, identity, cap, retained claims,
    and the settings application (config-server/handler.go, persistent.go, storage.go, settings.go,
    owner_access.go). */
module Handler {
  import opened Strings
  import opened Identity
  import opened KubeApi
  import opened Claims
  import opened TemplateCache
  import opened TemplateList
  import opened Templates
  import opened Directory
  import opened Loading
  import opened Serving
  import BoxCap
  import OwnerAccess

  datatype Entry = Entry(template: PodTemplate, size: int, mtime: int)

  /** A template the cache once took in: its objects, the file it was read from, what that text held, and
      which of the snapshots seen so far it was read from. */
  datatype Decoded = Decoded(template: PodTemplate, file: string, data: TemplateData, at: nat)

  datatype LoadResult = LoadMissing | LoadBroken | LoadOk(template: PodTemplate, file: string)

  /** The objects behind `cfg` are all in `repr` and spell out `data`. */
  ghost predicate ConfigBacks(cfg: AppConfig, data: ConfigData, repr: set<object>)
    reads repr
  {
    cfg.labels in repr && cfg.volumes in repr && RefsOf(cfg.volumes) <= repr && Shows(cfg, data)
  }

  ghost predicate TemplateBacks(t: PodTemplate, data: TemplateData, repr: set<object>)
    reads repr
  {
    ConfigBacks(t.cfg, data.config, repr) && t.claims == data.claims
  }

  /** What the cache line `line` holds is behind the objects of `e`. */
  ghost predicate Backs(e: Entry, line: Line<TemplateData>, repr: set<object>)
    reads repr
  {
    && e.size == line.size && e.mtime == line.mtime
    && TemplateBacks(e.template, line.data, repr)
  }

  /** What is cached for a file was taken in at some time. */
  ghost predicate InLog(log: seq<Decoded>, template: PodTemplate, file: string, data: TemplateData) {
    exists d :: d in log && d.template == template && d.file == file && d.data == data
  }

  lemma StaysInLog(log: seq<Decoded>, more: seq<Decoded>, template: PodTemplate, file: string, data: TemplateData)
    requires InLog(log, template, file, data) && log <= more
    ensures InLog(more, template, file, data)
  {
    var d :| d in log && d.template == template && d.file == file && d.data == data;
    assert d in more;
  }

  lemma NowInLog(log: seq<Decoded>, d: Decoded)
    ensures InLog(log + [d], d.template, d.file, d.data)
  {
    assert d in log + [d];
  }

  lemma BacksGrow(e: Entry, line: Line<TemplateData>, repr: set<object>, more: set<object>)
    requires Backs(e, line, repr) && repr <= more
    ensures Backs(e, line, more)
  {}

  /** Decode a file's text into fresh objects. */
  method ParseTemplate(parse: Parser, persistent: bool, text: string) returns (t: Option<PodTemplate>, ghost objs: set<object>)
    ensures var data := Interpret(parse, persistent, text);
      && t.Some? == data.Some?
      && (t.Some? ==> TemplateBacks(t.value, data.value, objs))
    ensures fresh(objs)
  {
    objs := {};
    var data := parse(text);
    if data == None { return None, {}; }
    var ok := ReadClaims(data.value, persistent);
    if !ok { return None, {}; }
    hide Shows;
    var template := Instantiate(data.value);
    return Some(template), {template.cfg.labels, template.cfg.volumes} + RefsOf(template.cfg.volumes);
  }

  /** A settings login on a directory that stands still: the listed names are those that get a box, so
      the owner's Role covers exactly the pods that this owner's connections are given. */
  lemma GrantsAreBoxes(sha: Digest, parse: Parser, persistent: bool, dir: Snapshot, owner: string, templates: seq<string>, verb: string, pod: string)
    requires forall t :: t in templates <==> t != SETTINGS_NAME && GetsBox(parse, persistent, dir, t)
    requires verb == "get" || verb == "delete"
    ensures OwnerAccess.Allows(OwnerAccess.OwnerRules(sha, owner, templates), verb, "", "pods", pod) <==>
      exists t :: t != SETTINGS_NAME && GetsBox(parse, persistent, dir, t) &&
        pod == Injected(sha, LoadFrom(parse, persistent, dir, t).data.config, owner, t).podName
  {
    hide LoadFrom, GetsBox, BoxPodName, TrimSpace, IdentityLabels;
    OwnerAccess.ExactAuthority(sha, owner, templates, verb, "", "pods", pod);
    forall t | t in templates ensures LoadFrom(parse, persistent, dir, t).Usable? {
      BoxesLoad(parse, persistent, dir, t);
    }
  }

  lemma BoxesLoad(parse: Parser, persistent: bool, dir: Snapshot, username: string)
    requires GetsBox(parse, persistent, dir, username)
    ensures LoadFrom(parse, persistent, dir, username).Usable?
  {}

  /** What `load` returned is what the directory holds. */
  ghost predicate Matches(r: LoadResult, lines: Cache<TemplateData>, l: Loaded) {
    match l
    case NoSuch => r.LoadMissing?
    case Unusable => r.LoadBroken?
    case Usable(data, file) => r.LoadOk? && r.file == file && file in lines && lines[file].data == data
  }

  /** A lookup of a file whose stat is current agrees with reading it, and leaves the cache coherent. */
  lemma LookupAgrees(parse: Parser, persistent: bool, lines: Cache<TemplateData>, lines': Cache<TemplateData>, dir: Snapshot,
                     file: string, size: int, mtime: int)
    requires Coherent(parse, persistent, lines, dir) && StatOf(Find(dir, file)) == Info(size, mtime)
    requires
      var hit, read := CacheLookup(lines, file, size, mtime), ReadFrom(parse, persistent, dir, file);
      lines' == if hit == None && read.Usable? then lines[file := Line(size, mtime, read.data)] else lines
    ensures Coherent(parse, persistent, lines', dir)
    ensures var hit, read := CacheLookup(lines, file, size, mtime), ReadFrom(parse, persistent, dir, file);
      && !read.NoSuch? && (hit.Some? ==> read.Usable?)
      && (read.Usable? ==> file in lines' && read == Usable(lines'[file].data, file))
  {
    hide Find, Interpret;
  }

  /** A fresh copy of the template's labels, with the two identity labels over them. */
  method InjectLabels(sha: Digest, labels: LabelMap, ghost owner: string, ownerLabel: string, templateName: string) returns (r: LabelMap)
    requires ownerLabel == OwnerLabel(sha, owner)
    ensures fresh(r) && r.entries == IdentityLabels(sha, labels.entries, owner, templateName)
  {
    hide OwnerLabel;
    r := new LabelMap(labels.entries);
    r.entries := r.entries[OWNER_KEY := ownerLabel];
    var templateLabel := OwnerLabelValue(sha, templateName);
    r.entries := r.entries[TEMPLATE_KEY := templateLabel];
  }

  lemma InjectionShows(sha: Digest, cfg: AppConfig, data: ConfigData, user: string, templateName: string, labels: LabelMap,
                       objs: set<object>)
    requires ConfigBacks(cfg, data, objs)
    requires labels.entries == IdentityLabels(sha, cfg.labels.entries, TrimSpace(user), templateName)
    ensures ConfigBacks(cfg.(podName := BoxPodName(sha, TrimSpace(user), templateName), createMissing := true, labels := labels),
                        Injected(sha, data, user, templateName), objs + {labels})
  {
    hide VolumesShow, BoxPodName, TrimSpace, IdentityLabels;
  }

  lemma NextClaim(plans: seq<Plan>, store: ClaimStore, script: seq<ClaimTurn>)
    requires plans != []
    ensures var first := RunClaim(plans[0], ClaimRun(store, script, Looking));
      RunClaims(plans, store, script) == if first.state.Denied? then first else RunClaims(plans[1..], first.store, first.script)
  {}

  lemma NoClaimsLeft(store: ClaimStore, script: seq<ClaimTurn>)
    ensures RunClaims([], store, script) == ClaimRun(store, script, Accepted(0))
  {}

  lemma NoNames(pod: string)
    ensures ClaimNames(pod, []) == map[]
  {}

  method OwnVolumes(cfg: AppConfig, ghost data: ConfigData, ghost objs: set<object>) returns (copy: array<Volume>, ghost mine: set<object>)
    requires ConfigBacks(cfg, data, objs)
    ensures fresh(mine) && VolumesBack(copy, data.volumes, mine)
  {
    copy := CopyVolumes(cfg.volumes, data.volumes);
    mine := {copy} + RefsOf(copy);
  }

  lemma BackedScalars(cfg: AppConfig, data: ConfigData, objs: set<object>)
    requires ConfigBacks(cfg, data, objs)
    ensures cfg.podName == data.podName && cfg.mode == data.mode
  {}

  lemma Widen(cfg: AppConfig, data: ConfigData, objs: set<object>, more: set<object>)
    requires ConfigBacks(cfg, data, objs) && objs <= more
    ensures ConfigBacks(cfg, data, more)
    ensures {cfg.labels, cfg.volumes} + RefsOf(cfg.volumes) <= more
  {}

  lemma StorageShows(cfg: AppConfig, data: ConfigData, objs: set<object>, volumes: array<Volume>, shown: seq<VolumeData>, mine: set<object>)
    requires ConfigBacks(cfg, data, objs) && VolumesBack(volumes, shown, mine)
    ensures ConfigBacks(cfg.(volumes := volumes), data.(volumes := shown), mine + {cfg.labels})
  {
    hide VolumesShow, Unshared;
  }

  lemma NextName(pod: string, decls: seq<ClaimDecl>, i: nat)
    requires i < |decls|
    ensures ClaimNames(pod, decls[..i + 1]) == ClaimNames(pod, decls[..i])[decls[i].name := ClaimName(pod, decls[i].name)]
  {
    assert decls[..i + 1][..i] == decls[..i];
  }

  /** The parts of the fixed settings pod that depend on the request or the server. */
  datatype SettingsApp = SettingsApp(image: string, account: string, ownerEnv: string, templatesEnv: string, maxBoxesEnv: int)

  datatype Response = Box(cfg: AppConfig) | Settings(app: SettingsApp)

  ghost predicate Tells(r: Outcome<Response>, o: Outcome<ConfigData>, objs: set<object>)
    reads objs
  {
    match o
    case Refused(reason) => r == Refused(reason)
    case Served(c) => r.Served? && r.value.Box? && ConfigBacks(r.value.cfg, c, objs)
  }

  ghost predicate FileOf(username: string, file: string) {
    ValidTemplateName(username) && (file == username + ".yaml" || file == username + ".json")
  }

  /** The template that answered is the one an uncached lookup finds, or the refusal is the one it gives. */
  ghost predicate AgreesWith(from: Option<Decoded>, r: Outcome<Response>, l: Loaded) {
    match l
    case NoSuch => from == None && r == Refused(NoTemplate)
    case Unusable => from == None && r == Refused(BrokenTemplate)
    case Usable(data, file) => from.Some? && from.value.data == data && from.value.file == file
  }

  /** One connection: the pods at its list call, the name it asked for and who it was verified to be. */
  datatype Connection = Connection(pods: PodLists, username: string, user: string)

  /** What is remembered of an answer: the objects it owns, the log entry of its template, and the list of a
      settings answer. */
  datatype Kept = Kept(own: set<object>, from: Option<Decoded>, listed: Option<seq<string>>)

  /** What connections find and leave in the cluster, with the turns of the others still to come. */
  datatype Cluster = Cluster(claims: ClaimStore, claimTurns: seq<ClaimTurn>,
                             access: OwnerAccess.AccessStore, accessTurns: seq<OwnerAccess.AccessTurn>)

  /** No response owns a cached object or shares what it owns with another. */
  ghost predicate Separate(kept: seq<Kept>, cached: set<object>) {
    && (forall i :: 0 <= i < |kept| ==> kept[i].own !! cached)
    && (forall i, j :: 0 <= i < j < |kept| ==> kept[i].own !! kept[j].own)
  }

  /** What answered is in the log of what the cache took in. */
  ghost predicate FromLog(kept: seq<Kept>, log: seq<Decoded>) {
    forall i :: 0 <= i < |kept| && kept[i].from.Some? ==> kept[i].from.value in log
  }

  lemma OneMoreSeparate(kept: seq<Kept>, cached: set<object>, more: set<object>, k: Kept)
    requires Separate(kept, cached) && cached <= more && k.own !! more
    requires forall i :: 0 <= i < |kept| ==> kept[i].own !! (more - cached) && kept[i].own !! k.own
    ensures Separate(kept + [k], more)
  {}

  /** Connections answered so far, with the cluster the first of them found. */
  datatype Session = Session(connections: seq<Connection>, replies: seq<Outcome<Response>>, kept: seq<Kept>, start: Cluster) {
    ghost predicate Complete() { |connections| == |replies| == |kept| }
  }

  class ConfigHandler {
    const sha: Digest
    const parse: Parser
    const persistent: bool
    const maxPods: int
    const configured: bool
    const settingsImage: string
    const retryLimit: nat
    const dir: Mount
    const claims: Server<string, Claim>
    const access: Server<OwnerAccess.Key, OwnerAccess.Content>
    var cache: map<string, Entry>
    /** The cache as values, and every object it holds. */
    ghost var lines: Cache<TemplateData>
    ghost var repr: set<object>
    /** Everything the cache ever took in. Entries may be replaced; this only grows. */
    ghost var decoded: seq<Decoded>

    constructor (sha: Digest, parse: Parser, persistent: bool, maxPods: int, configured: bool, settingsImage: string, retryLimit: nat,
                 dir: Mount, claims: Server<string, Claim>, access: Server<OwnerAccess.Key, OwnerAccess.Content>)
      requires retryLimit >= 1
      ensures this.sha == sha && this.parse == parse && this.persistent == persistent && this.maxPods == maxPods
      ensures this.configured == configured && this.settingsImage == settingsImage && this.retryLimit == retryLimit
      ensures this.dir == dir && this.claims == claims && this.access == access
      ensures Valid() && repr == {} && lines == map[] && decoded == []
    {
      this.sha, this.parse, this.persistent, this.maxPods := sha, parse, persistent, maxPods;
      this.configured, this.settingsImage, this.retryLimit := configured, settingsImage, retryLimit;
      this.dir, this.claims, this.access := dir, claims, access;
      cache, lines, repr, decoded := map[], map[], {}, [];
    }

    /** The file held this at that instant. */
    ghost predicate CameFrom(d: Decoded)
      reads dir
    {
      d.at < |dir.past| && ReadFrom(parse, persistent, dir.past[d.at], d.file) == Usable(d.data, d.file)
    }

    /** Every template ever taken in, replaced or not, still spells out what its file held when it was read. */
    ghost predicate LogStands()
      reads dir, this, repr
    {
      && (forall d :: d in decoded ==> CameFrom(d) && TemplateBacks(d.template, d.data, repr))
      && (forall f :: f in cache && f in lines ==> InLog(decoded, cache[f].template, f, lines[f].data))
    }

    ghost predicate Valid()
      reads this, dir, repr
    {
      && LogStands()
      && {this, dir, claims, access} !! repr && retryLimit >= 1
      && cache.Keys == lines.Keys
      && (forall f :: f in cache ==> Backs(cache[f], lines[f], repr))
      && (forall f :: f in lines ==> ClaimsAccepted(lines[f].data, persistent))
    }

    /** Nothing the cache held has been written to, what it gained is new, and nothing is forgotten. */
    twostate predicate CacheOnlyGrew()
      reads this, repr, dir
    {
      && old(decoded) <= decoded && old(dir.past) <= dir.past
      && old(repr) <= repr && fresh(repr - old(repr)) && unchanged(old(repr))
    }

    /** If nobody else writes to the directory, it is as it was. */
    twostate predicate DirectoryStood()
      reads dir
    {
      old(dir.script) == [] ==> dir.now == old(dir.now) && dir.script == []
    }

    lemma LogGrows(before: set<object>, objs: set<object>, log: seq<Decoded>, from: Decoded)
      requires repr == before + objs && decoded == log + [from]
      requires forall d :: d in log ==> CameFrom(d) && TemplateBacks(d.template, d.data, before)
      requires CameFrom(from) && TemplateBacks(from.template, from.data, objs)
      ensures forall d :: d in decoded ==> CameFrom(d) && TemplateBacks(d.template, d.data, repr)
    {
      hide CameFrom, ConfigBacks;
      forall d | d in decoded ensures CameFrom(d) && TemplateBacks(d.template, d.data, repr) {
        if d == from { Widen(d.template.cfg, d.data.config, objs, repr); } else { Widen(d.template.cfg, d.data.config, before, repr); }
      }
    }

    /** An access to the directory leaves the log standing. */
    twostate lemma LogStillStands(seen: Snapshot)
      requires old(LogStands()) && unchanged(this) && unchanged(repr) && dir.past == old(dir.past) + [seen]
      ensures LogStands()
    {
      hide TemplateBacks, ReadFrom;
    }

    method StatFile(file: string) returns (info: StatResult)
      requires Valid()
      modifies dir
      ensures Valid() && CacheOnlyGrew() && DirectoryStood() && info == StatOf(Find(dir.now, file))
    {
      hide TemplateBacks, ClaimsAccepted, Find;
      info := dir.Stat(file);
      LogStillStands(dir.now);
    }

    method ListFiles() returns (entries: Snapshot, ok: bool)
      requires Valid()
      modifies dir
      ensures Valid() && CacheOnlyGrew() && DirectoryStood() && ok == dir.listable && entries == dir.now
    {
      hide TemplateBacks, ClaimsAccepted;
      entries, ok := dir.ReadDir();
      LogStillStands(dir.now);
    }

    method Remember(file: string, size: int, mtime: int, template: PodTemplate, ghost data: TemplateData, ghost objs: set<object>)
      returns (ghost from: Decoded)
      requires Valid() && TemplateBacks(template, data, objs) && ClaimsAccepted(data, persistent)
      requires {this, dir, claims, access} !! objs
      requires |dir.past| > 0 && ReadFrom(parse, persistent, dir.past[|dir.past| - 1], file) == Usable(data, file)
      modifies this
      ensures Valid() && lines == old(lines)[file := Line(size, mtime, data)] && repr == old(repr) + objs
      ensures from.template == template && from.file == file && from.data == data && decoded == old(decoded) + [from]
      ensures TemplateBacks(template, data, repr)
    {
      hide TemplateBacks, ClaimsAccepted, ReadFrom, InLog;
      ghost var before, log := repr, decoded;
      from := Decoded(template, file, data, |dir.past| - 1);
      assert CameFrom(from);
      cache := cache[file := Entry(template, size, mtime)];
      lines := lines[file := Line(size, mtime, data)];
      repr := repr + objs;
      decoded := decoded + [from];
      LogGrows(before, objs, log, from);
      hide CameFrom;
      assert Backs(cache[file], lines[file], objs);
      BacksGrow(cache[file], lines[file], objs, repr);
      NowInLog(log, from);
      forall f | f in cache && f != file
        ensures Backs(cache[f], lines[f], repr) && InLog(decoded, cache[f].template, f, lines[f].data)
      {
        BacksGrow(cache[f], lines[f], before, repr);
        StaysInLog(log, decoded, cache[f].template, f, lines[f].data);
      }
    }

    /** Return the cached template if the stat still matches, else read, decode and remember the file. The
        cached objects themselves never change. */
    method ReadCached(file: string, size: int, mtime: int) returns (r: Option<PodTemplate>, ghost from: Option<Decoded>)
      requires Valid()
      modifies this, dir
      ensures Valid() && CacheOnlyGrew() && DirectoryStood()
      ensures r.Some? == from.Some?
      ensures r.Some? ==>
        && file in lines && lines[file].size == size && lines[file].mtime == mtime && TemplateBacks(r.value, lines[file].data, repr)
        && from.value in decoded && from.value.template == r.value && from.value.file == file && from.value.data == lines[file].data
      ensures var hit := CacheLookup(old(lines), file, size, mtime);
        if hit.Some? then r.Some? && lines == old(lines)
        else var read := ReadFrom(parse, persistent, dir.now, file);
          if read.Usable? then r.Some? && lines == old(lines)[file := Line(size, mtime, read.data)]
          else r == None && lines == old(lines)
    {
      hide TemplateBacks, ClaimsAccepted, CameFrom, Find;
      from := None;
      if file in cache && cache[file].size == size && cache[file].mtime == mtime {
        assert Backs(cache[file], lines[file], repr) && InLog(decoded, cache[file].template, file, lines[file].data);
        ghost var d :| d in decoded && d.template == cache[file].template && d.file == file && d.data == lines[file].data;
        return Some(cache[file].template), Some(d);
      }
      assert CacheLookup(lines, file, size, mtime) == None by {
        assert file in cache ==> Backs(cache[file], lines[file], repr);
      }
      var read := dir.ReadFile(file);
      LogStillStands(dir.now);
      if read.ReadFailed? { return None, None; }
      ghost var objs;
      r, objs := ParseTemplate(parse, persistent, read.text);
      if r.Some? {
        ghost var data := Interpret(parse, persistent, read.text).value;
        ghost var d := Remember(file, size, mtime, r.value, data, objs);
        from := Some(d);
      }
    }

    /** The named template: .yaml if it is there, else .json, and never another name. `from` is the entry of
        the log the result comes from. */
    method Load(username: string) returns (r: LoadResult, ghost from: Option<Decoded>)
      requires Valid()
      modifies this, dir
      ensures Valid() && CacheOnlyGrew() && DirectoryStood()
      ensures r.LoadOk? == from.Some?
      ensures r.LoadOk? ==>
        && ValidTemplateName(username) && (r.file == username + ".yaml" || r.file == username + ".json")
        && r.file in lines && TemplateBacks(r.template, lines[r.file].data, repr)
        && from.value in decoded && from.value.template == r.template && from.value.file == r.file && from.value.data == lines[r.file].data
      ensures old(dir.script) == [] && Coherent(parse, persistent, old(lines), old(dir.now)) ==>
        && Coherent(parse, persistent, lines, dir.now)
        && Matches(r, lines, LoadFrom(parse, persistent, dir.now, username))
    {
      hide TemplateBacks, ClaimsAccepted, ReadFrom, Valid, LogStands;
      var valid := IsValidTemplateName(username);
      if !valid { return LoadMissing, None; }
      var files := [username + ".yaml", username + ".json"];
      for k := 0 to 2
        invariant Valid() && CacheOnlyGrew() && DirectoryStood() && unchanged(this)
        invariant old(dir.script) == [] && k > 0 ==> StatOf(Find(dir.now, files[0])) == NotThere
        invariant old(dir.script) == [] && k > 1 ==> StatOf(Find(dir.now, files[1])) == NotThere
      {
        var info := StatFile(files[k]);
        if info.NotThere? { continue; }
        if info.StatFailed? { return LoadBroken, None; }
        var t;
        t, from := ReadCached(files[k], info.size, info.mtime);
        if old(dir.script) == [] && Coherent(parse, persistent, old(lines), old(dir.now)) {
          LookupAgrees(parse, persistent, old(lines), lines, dir.now, files[k], info.size, info.mtime);
          assert LoadFrom(parse, persistent, dir.now, username) == ReadFrom(parse, persistent, dir.now, files[k]);
        }
        return if t.Some? then LoadOk(t.value, files[k]) else LoadBroken, from;
      }
      return LoadMissing, None;
    }

    /** The mode test on the cached objects is the one `GetsBox` makes on the file. */
    lemma KeptGetsBox(loaded: LoadResult, keep: bool, template: string)
      requires Matches(loaded, lines, LoadFrom(parse, persistent, dir.now, template))
      requires loaded.LoadOk? ==> loaded.file in lines && TemplateBacks(loaded.template, lines[loaded.file].data, repr)
      requires keep <==> loaded.LoadOk? && persistent && !SelectsNonPersistent(loaded.template.cfg.mode)
      ensures keep <==> GetsBox(parse, persistent, dir.now, template)
      ensures loaded.LoadOk? <==> LoadFrom(parse, persistent, dir.now, template).Usable?
    {
      hide LoadFrom;
    }

    /** The names the settings application may manage, or None if some candidate file does not load. */
    method PersistentTemplates() returns (r: Option<seq<string>>)
      requires Valid()
      modifies this, dir
      ensures Valid() && CacheOnlyGrew() && DirectoryStood()
      ensures r.Some? ==> Published(r.value) && SETTINGS_NAME !in r.value
      ensures old(dir.script) == [] && Coherent(parse, persistent, old(lines), old(dir.now)) ==>
        && Coherent(parse, persistent, lines, dir.now)
        && (r.Some? <==> dir.listable && AllLoad(parse, persistent, dir.now))
        && (r.Some? ==> forall t :: t in r.value <==> t != SETTINGS_NAME && GetsBox(parse, persistent, dir.now, t))
    {
      hide Valid, LogStands, TemplateBacks, ClaimsAccepted, Walked, WalkedExactly, LoadFrom, Published, Coherent, AllLoad, GetsBox, Sort, ValidTemplateName, HasSuffix;
      ghost var exact := old(dir.script) == [] && Coherent(parse, persistent, old(lines), old(dir.now));
      var entries, ok := ListFiles();
      if !ok { return None; }
      var templates: seq<string>, seen: set<string> := [], {};
      WalkStarts(parse, persistent, dir.now, entries);
      for i := 0 to |entries|
        invariant Valid() && CacheOnlyGrew() && DirectoryStood()
        invariant Walked(entries, i, seen, templates)
        invariant exact ==> entries == dir.now && Coherent(parse, persistent, lines, dir.now)
        invariant exact ==> WalkedExactly(parse, persistent, dir.now, seen, templates)
      {
        var filename := entries[i].name;
        var ext;
        if HasSuffix(filename, ".yaml") { ext := ".yaml"; }
        else if HasSuffix(filename, ".json") { ext := ".json"; }
        else { WalkSkips(entries, i, seen, templates); continue; }
        var template := TrimSuffix(filename, ext);
        var valid := IsValidTemplateName(template);
        if entries[i].node.Folder? || !valid || template == SETTINGS_NAME || template in seen {
          WalkSkips(entries, i, seen, templates);
          continue;
        }
        ghost var from;
        var loaded;
        loaded, from := Load(template);
        var keep := loaded.LoadOk? && persistent && !SelectsNonPersistent(loaded.template.cfg.mode);
        WalkTakes(entries, i, seen, templates, template, keep);
        if exact { KeptGetsBox(loaded, keep, template); }
        if !loaded.LoadOk? {
          if exact { WalkFails(parse, persistent, dir.now, template); }
          return None;
        }
        if exact { WalkTakesExactly(parse, persistent, dir.now, seen, templates, template); }
        seen := seen + {template};
        if keep { templates := templates + [template]; }
      }
      WalkDone(entries, seen, templates);
      if exact { WalkDoneExactly(parse, persistent, dir.now, seen, templates); }
      r := Some(Sort(templates));
    }

    /** Check identity and cap, then inject name and labels into a fresh label map; the volumes stay the
        cached ones. */
    method ApplyPersistent(pods: PodLists, user: string, cfg: AppConfig, templateName: string,
                           ghost data: ConfigData, ghost objs: set<object>) returns (r: Outcome<AppConfig>)
      requires ConfigBacks(cfg, data, objs)
      ensures var gate := Gate(sha, maxPods, pods, user, templateName);
        if gate.Some? then r == Refused(gate.value)
        else
          && r.Served? && fresh(r.value.labels) && r.value.volumes == cfg.volumes
          && ConfigBacks(r.value, Injected(sha, data, user, templateName), objs + {r.value.labels})
    {
      hide ConfigBacks, Injected, IdentityLabels, OwnerLabel, BoxPodName, TrimSpace, BoxCap.CapVerdict;
      var owner := TrimSpace(user);
      if owner == "" { return Refused(NoIdentity); }
      var podName := BoxPodName(sha, owner, templateName);
      var ownerLabel := OwnerLabelValue(sha, owner);
      var verdict := BoxCap.EnforceCap(maxPods, pods(ownerLabel), podName);
      if verdict.AtCap? { return Refused(CapReached); }
      if verdict.CannotList? { return Refused(CannotListPods); }
      var labels := InjectLabels(sha, cfg.labels, owner, ownerLabel, templateName);
      InjectionShows(sha, cfg, data, user, templateName, labels, objs);
      r := Served(cfg.(podName := podName, createMissing := true, labels := labels));
    }

    /** Ensure the claims one after the other, remembering the PVC name of each. */
    method EnsureClaims(user: string, pod: string, decls: seq<ClaimDecl>, templateName: string)
      returns (names: map<string, string>, refused: Option<Denial>)
      modifies claims
      ensures var run := RunClaims(StoragePlans(sha, pod, user, templateName, decls), old(claims.store), old(claims.script));
        && claims.store == run.store && claims.script == run.script
        && refused == (if run.state.Denied? then Some(run.state.reason) else None)
        && (refused == None ==> names == ClaimNames(pod, decls))
    {
      hide RunClaims, RunClaim, ClaimNames, PlanOf, ClaimName;
      names, refused := map[], None;
      ghost var plans := StoragePlans(sha, pod, user, templateName, decls);
      ghost var run := RunClaims(plans, claims.store, claims.script);
      NoNames(pod);
      for i := 0 to |decls|
        invariant RunClaims(plans[i..], claims.store, claims.script) == run
        invariant names == ClaimNames(pod, decls[..i])
      {
        var name := ClaimName(pod, decls[i].name);
        NextClaim(plans[i..], claims.store, claims.script);
        var outcome := EnsureClaim(claims, StoragePlan(sha, pod, user, templateName, decls[i]));
        if outcome.Denied? { return names, Some(outcome.reason); }
        assert plans[i..][1..] == plans[i + 1..];
        NextName(pod, decls, i);
        names := names[decls[i].name := name];
      }
      assert decls[..|decls|] == decls;
      NoClaimsLeft(claims.store, claims.script);
    }

    /** Ensure the claims, then rewrite the references to them in a deep copy of the volumes. */
    method ApplyStorage(user: string, cfg: AppConfig, decls: seq<ClaimDecl>, templateName: string,
                        ghost data: ConfigData, ghost objs: set<object>) returns (r: Outcome<AppConfig>, ghost mine: set<object>)
      requires ConfigBacks(cfg, data, objs) && claims !in objs
      modifies claims
      ensures !configured ==> unchanged(claims)
      ensures fresh(mine)
      ensures var a := WithStorage(sha, configured, data, decls, user, templateName, old(claims.store), old(claims.script));
        && claims.store == a.store && claims.script == a.script
        && match a.outcome
           case Refused(reason) => r == Refused(reason)
           case Served(c) => r.Served? && ConfigBacks(r.value, c, mine + {cfg.labels}) && r.value.labels == cfg.labels
    {
      hide RunClaims, ClaimNames, StoragePlans, VolumesBack, ConfigBacks, RewriteVolumes;
      mine := {};
      if !configured { return Refused(ClaimsNotConfigured), mine; }
      BackedScalars(cfg, data, objs);
      var volumes;
      volumes, mine := OwnVolumes(cfg, data, objs);
      var names, refused := EnsureClaims(user, cfg.podName, decls, templateName);
      if refused.Some? { return Refused(ClaimDenied(refused.value)), mine; }
      RewriteOwn(volumes, names, data.volumes, mine);
      StorageShows(cfg, data, objs, volumes, RewriteVolumes(data.volumes, names), mine);
      r := Served(cfg.(volumes := volumes));
    }

    /** Only a template with claims, past identity and cap, on a configured server, may call the claim API. */
    ghost predicate MayEnsureClaims(pods: PodLists, data: TemplateData, user: string, username: string) {
      data.claims != [] && configured && Gate(sha, maxPods, pods, user, username) == None
    }

    /** What a response changes, it owns: its labels if it was given a name, and its volumes and references
        too if claims were rewritten. */
    ghost predicate OwnsWhatItChanges(cfg: AppConfig, data: TemplateData, own: set<object>)
      reads cfg.volumes
    {
      && (Personal(persistent, data.config.mode) ==> cfg.labels in own)
      && (data.claims != [] ==> {cfg.labels, cfg.volumes} + RefsOf(cfg.volumes) <= own)
    }

    /** The first half of OnConfig once the template is loaded. */
    method PrepareBox(pods: PodLists, cfg: AppConfig, templateName: string, user: string,
                      ghost data: ConfigData, ghost objs: set<object>) returns (r: Outcome<AppConfig>, ghost own: set<object>)
      requires ConfigBacks(cfg, data, objs)
      ensures fresh(own)
      ensures match Prepare(sha, persistent, maxPods, pods, data, user, templateName)
        case Refused(reason) => r == Refused(reason)
        case Served(c) => r.Served? && ConfigBacks(r.value, c, objs + own)
      ensures r.Served? && Personal(persistent, data.mode) ==> r.value.labels in own
    {
      hide ConfigBacks, Gate, Injected;
      own := {};
      BackedScalars(cfg, data, objs);
      if !persistent || SelectsNonPersistent(cfg.mode) {
        assert objs + own == objs;
        return Served(cfg), own;
      }
      r := ApplyPersistent(pods, user, cfg, templateName, data, objs);
      if r.Served? { own := {r.value.labels}; }
    }

    lemma OwnsAll(cfg: AppConfig, shown: ConfigData, data: TemplateData, own: set<object>)
      requires ConfigBacks(cfg, shown, own)
      ensures OwnsWhatItChanges(cfg, data, own)
    {}

    lemma OwnsLabels(cfg: AppConfig, data: TemplateData, own: set<object>)
      requires data.claims == [] && (Personal(persistent, data.config.mode) ==> cfg.labels in own)
      ensures OwnsWhatItChanges(cfg, data, own)
    {}

    /** The second half of OnConfig for a template with claims. Nothing of the response is shared then. */
    method StoreBox(cfg: AppConfig, decls: seq<ClaimDecl>, templateName: string, user: string,
                    ghost c: ConfigData, ghost objs: set<object>, ghost had: set<object>) returns (r: Outcome<AppConfig>, ghost own: set<object>)
      requires ConfigBacks(cfg, c, objs + had) && claims !in objs + had && cfg.labels in had
      modifies claims
      ensures fresh(own - had) && had <= own
      ensures var a := WithStorage(sha, configured, c, decls, user, templateName, old(claims.store), old(claims.script));
        && claims.store == a.store && claims.script == a.script
        && match a.outcome
           case Refused(reason) => r == Refused(reason)
           case Served(shown) => r.Served? && ConfigBacks(r.value, shown, own)
      ensures !configured ==> unchanged(claims)
    {
      hide ConfigBacks, WithStorage;
      ghost var mine;
      r, mine := ApplyStorage(user, cfg, decls, templateName, c, objs + had);
      own := had + mine;
      ghost var a := WithStorage(sha, configured, c, decls, user, templateName, old(claims.store), old(claims.script));
      if a.outcome.Served? { Widen(r.value, a.outcome.value, mine + {cfg.labels}, own); }
    }

    /** The claims are left, and the reply reads, as `AnswerBox` says for the claims found. */
    ghost predicate Answered(pods: PodLists, username: string, user: string, r: Outcome<Response>, data: TemplateData, objs: set<object>,
                             store: ClaimStore, script: seq<ClaimTurn>)
      reads claims, objs
    {
      var a := AnswerBox(sha, persistent, maxPods, configured, pods, data, user, username, store, script);
      claims.store == a.store && claims.script == a.script && Tells(r, a.outcome, objs)
    }

    /** OnConfig once the template is loaded: identity, cap and injection for a personal template, then its
        claims. `own` are the objects made for this response alone. */
    method AnswerTemplate(pods: PodLists, template: PodTemplate, templateName: string, user: string,
                          ghost data: TemplateData, ghost objs: set<object>) returns (r: Outcome<Response>, ghost own: set<object>)
      requires TemplateBacks(template, data, objs) && claims !in objs && ClaimsAccepted(data, persistent)
      modifies claims
      ensures fresh(own)
      ensures Answered(pods, templateName, user, r, data, objs + own, old(claims.store), old(claims.script))
      ensures !MayEnsureClaims(pods, data, user, templateName) ==> unchanged(claims)
      ensures r.Served? ==> r.value.Box? && OwnsWhatItChanges(r.value.cfg, data, own)
    {
      hide ConfigBacks, WithStorage, Gate, Injected, OwnsWhatItChanges;
      assert data.claims != [] ==> Personal(persistent, data.config.mode);
      hide ClaimsAccepted;
      var prepared;
      prepared, own := PrepareBox(pods, template.cfg, templateName, user, data.config, objs);
      if prepared.Refused? { return Refused(prepared.reason), own; }
      if |template.claims| == 0 {
        OwnsLabels(prepared.value, data, own);
        return Served(Box(prepared.value)), own;
      }
      ghost var c := Prepare(sha, persistent, maxPods, pods, data.config, user, templateName).value;
      ghost var a := WithStorage(sha, configured, c, data.claims, user, templateName, claims.store, claims.script);
      var stored;
      stored, own := StoreBox(prepared.value, template.claims, templateName, user, c, objs, own);
      if stored.Refused? { return Refused(stored.reason), own; }
      OwnsAll(stored.value, a.outcome.value, data, own);
      Widen(stored.value, a.outcome.value, own, objs + own);
      return Served(Box(stored.value)), own;
    }

    /** What an ordinary connection comes to. `from` is the log entry of the template that answered, if one
        loaded, and `own` the objects made for this response alone. */
    twostate predicate AnsweredByTemplate(pods: PodLists, username: string, user: string,
                                          new r: Outcome<Response>, new from: Option<Decoded>, new own: set<object>)
      reads this, repr, dir, claims, own, if r.Served? && r.value.Box? then {r.value.cfg.volumes} else {}
    {
      && (from == None ==> (r == Refused(NoTemplate) || r == Refused(BrokenTemplate)) && unchanged(claims))
      && (from.Some? ==>
            var data := from.value.data;
            && from.value in decoded && FileOf(username, from.value.file) && ClaimsAccepted(data, persistent)
            && (!MayEnsureClaims(pods, data, user, username) ==> unchanged(claims))
            && (r.Served? ==> r.value.Box? && OwnsWhatItChanges(r.value.cfg, data, own))
            && Answered(pods, username, user, r, data, repr + own, old(claims.store), old(claims.script)))
      && (old(dir.script) == [] && Coherent(parse, persistent, old(lines), old(dir.now)) ==>
            && Coherent(parse, persistent, lines, dir.now)
            && AgreesWith(from, r, LoadFrom(parse, persistent, dir.now, username)))
    }

    /** OnConfig for every name but the reserved one. */
    method ServeTemplate(pods: PodLists, username: string, user: string)
      returns (r: Outcome<Response>, ghost from: Option<Decoded>, ghost own: set<object>)
      requires Valid()
      modifies this, dir, claims
      ensures Valid() && CacheOnlyGrew() && DirectoryStood()
      ensures fresh(own) && own !! repr
      ensures AnsweredByTemplate(pods, username, user, r, from, own)
    {
      hide ConfigBacks, ClaimsAccepted, LoadFrom, Coherent, ValidTemplateName, Answered, MayEnsureClaims, OwnsWhatItChanges, WithoutExt;
      own := {};
      var loaded;
      loaded, from := Load(username);
      if loaded.LoadMissing? { return Refused(NoTemplate), from, own; }
      if loaded.LoadBroken? { return Refused(BrokenTemplate), from, own; }
      LoadedNameIsUsername(username);
      r, own := AnswerTemplate(pods, loaded.template, WithoutExt(loaded.file), user, from.value.data, repr);
    }

    /** The answer to a settings connection: identity, image, template walk and access, in that order.
        `listed` is the list the walk returned, if it got that far. */
    ghost function SettingsAnswer(user: string, listed: Option<seq<string>>, store: OwnerAccess.AccessStore, script: seq<OwnerAccess.AccessTurn>)
      : (Outcome<Response>, OwnerAccess.AccessStore, seq<OwnerAccess.AccessTurn>)
    {
      if TrimSpace(user) == "" then (Refused(NoIdentity), store, script)
      else if settingsImage == "" then (Refused(NoSettingsImage), store, script)
      else if listed == None then (Refused(TemplatesUnreadable), store, script)
      else if !configured then (Refused(AccessNotConfigured), store, script)
      else
        var name := OwnerObjectName(sha, user);
        var login := OwnerAccess.RunGoals(OwnerAccess.OwnerGoals(name, OwnerAccess.OwnerRules(sha, user, listed.value)), retryLimit, store, script);
        var r := if login.ok then Served(Settings(SettingsApp(settingsImage, name, user, Join(listed.value, ','), maxPods)))
                 else Refused(AccessNotReconciled);
        (r, login.store, login.script)
    }

    /** The settings answer, spelled out. The four things asked for in turn each refuse for their own reason
        and write nothing; after them only the reconcile can refuse. A served application carries the user
        as it came, the configured cap and image, a list that the screen parses back to the listed names,
        and the account the reconcile made ready for exactly those names. */
    lemma SettingsSpelledOut(user: string, listed: Option<seq<string>>, store: OwnerAccess.AccessStore, script: seq<OwnerAccess.AccessTurn>)
      requires retryLimit >= 1 && (listed.Some? ==> Published(listed.value))
      ensures var a := SettingsAnswer(user, listed, store, script);
        && (a.0 == Refused(NoIdentity) <==> TrimSpace(user) == "")
        && (a.0 == Refused(NoSettingsImage) <==> TrimSpace(user) != "" && settingsImage == "")
        && (a.0 == Refused(TemplatesUnreadable) <==> TrimSpace(user) != "" && settingsImage != "" && listed == None)
        && (a.0 == Refused(AccessNotConfigured) <==> TrimSpace(user) != "" && settingsImage != "" && listed.Some? && !configured)
        && (a.0.Served? || a.0 == Refused(AccessNotReconciled) || (a.1 == store && a.2 == script))
        && (script == [] && TrimSpace(user) != "" && settingsImage != "" && listed.Some? && configured ==>
              (a.0.Served? <==> !OwnerAccess.Obstructed(store, OwnerObjectName(sha, user))))
        && (a.0.Served? ==>
              && listed.Some? && a.0.value.Settings?
              && var app := a.0.value.app;
              && app.ownerEnv == user && app.maxBoxesEnv == maxPods && app.image == settingsImage
              && app.account == OwnerObjectName(sha, user)
              && Parse(app.templatesEnv) == Templates(listed.value)
              && (script == [] ==> OwnerAccess.AccountReady(sha, a.1, user, listed.value)))
    {
      hide TrimSpace, OwnerObjectName, OwnerAccess.RunGoals, OwnerAccess.OwnerRules, OwnerAccess.OwnerGoals, OwnerAccess.AccountReady,
        OwnerAccess.Obstructed, Parse, Join, Published;
      if listed.Some? {
        PublishedListRoundTrips(listed.value);
        OwnerAccess.LoginMakesAccountReady(sha, user, listed.value, retryLimit, store);
      }
    }

    /** What a settings connection comes to. Nothing is read before identity and image are known, and no
        access call is made before the list is. */
    twostate predicate AnsweredBySettings(user: string, new r: Outcome<Response>, new listed: Option<seq<string>>)
      reads this, dir, access
    {
      && (r, access.store, access.script) == SettingsAnswer(user, listed, old(access.store), old(access.script))
      && (TrimSpace(user) == "" || settingsImage == "" ==> listed == None && unchanged(this) && unchanged(dir))
      && (listed == None || !configured ==> unchanged(access))
      && (listed.Some? ==> Published(listed.value) && SETTINGS_NAME !in listed.value)
      && (old(dir.script) == [] && Coherent(parse, persistent, old(lines), old(dir.now)) ==>
            && Coherent(parse, persistent, lines, dir.now)
            && (TrimSpace(user) != "" && settingsImage != "" ==> ListsBoxes(listed, dir.now)))
    }

    /** The list is there exactly when every candidate loads, and holds exactly the names that get a box. */
    ghost predicate ListsBoxes(listed: Option<seq<string>>, now: Snapshot) {
      && (listed.Some? <==> dir.listable && AllLoad(parse, persistent, now))
      && (listed.Some? ==> forall t :: t in listed.value <==> t != SETTINGS_NAME && GetsBox(parse, persistent, now, t))
    }

    /** The last part of a settings connection: reconcile the owner's access and compose the application. */
    method GrantAccess(user: string, templates: seq<string>) returns (r: Outcome<Response>)
      requires TrimSpace(user) != "" && settingsImage != "" && retryLimit >= 1
      modifies access
      ensures (r, access.store, access.script) == SettingsAnswer(user, Some(templates), old(access.store), old(access.script))
      ensures !configured ==> unchanged(access)
    {
      hide TrimSpace, OwnerAccess.RunGoals, OwnerAccess.OwnerRules, OwnerAccess.OwnerGoals, OwnerObjectName, Join;
      var granted := OwnerAccess.EnsureOwnerAccess(sha, access, configured, retryLimit, user, templates);
      match granted
      case NotConfigured => r := Refused(AccessNotConfigured);
      case NotReconciled => r := Refused(AccessNotReconciled);
      case Granted(account) =>
        r := Served(Settings(SettingsApp(settingsImage, account, user, Join(templates, ','), maxPods)));
    }

    method SettingsConfig(user: string) returns (r: Outcome<Response>, ghost listed: Option<seq<string>>)
      requires Valid()
      modifies this, dir, access
      ensures Valid() && CacheOnlyGrew() && DirectoryStood()
      ensures AnsweredBySettings(user, r, listed)
    {
      hide TrimSpace, Coherent, AllLoad, GetsBox, Published, Valid, CameFrom, TemplateBacks, OwnerAccess.RunGoals, OwnerAccess.OwnerRules;
      listed := None;
      if TrimSpace(user) == "" { return Refused(NoIdentity), listed; }
      if settingsImage == "" { return Refused(NoSettingsImage), listed; }
      var templates := PersistentTemplates();
      if templates == None { return Refused(TemplatesUnreadable), listed; }
      listed := templates;
      Apart();
      r := GrantAccess(user, templates.value);
    }

    /** One connection. The reserved name never reaches a template file, and no other name reaches the
        owner's access objects. */
    method OnConfig(pods: PodLists, username: string, user: string)
      returns (r: Outcome<Response>, ghost from: Option<Decoded>, ghost listed: Option<seq<string>>, ghost own: set<object>)
      requires Valid()
      modifies this, dir, claims, access
      ensures Valid() && CacheOnlyGrew() && DirectoryStood()
      ensures fresh(own) && own !! repr
      ensures username == SETTINGS_NAME ==> unchanged(claims) && from == None && AnsweredBySettings(user, r, listed)
      ensures username != SETTINGS_NAME ==> unchanged(access) && listed == None && AnsweredByTemplate(pods, username, user, r, from, own)
    {
      hide AnsweredBySettings, AnsweredByTemplate, TemplateBacks;
      from, listed, own := None, None, {};
      if username == SETTINGS_NAME {
        r, listed := SettingsConfig(user);
      } else {
        r, from, own := ServeTemplate(pods, username, user);
      }
    }

    // ---- any number of connections ----

    /** The cluster after one connection, for what it found there. */
    ghost function After(c: Connection, k: Kept, found: Cluster): Cluster {
      if c.username == SETTINGS_NAME then
        var a := SettingsAnswer(c.user, k.listed, found.access, found.accessTurns);
        found.(access := a.1, accessTurns := a.2)
      else if k.from == None then found
      else
        var a := AnswerBox(sha, persistent, maxPods, configured, c.pods, k.from.value.data, c.user, c.username, found.claims, found.claimTurns);
        found.(claims := a.store, claimTurns := a.script)
    }

    /** The cluster after them all, one after the other. */
    ghost function AfterAll(connections: seq<Connection>, kept: seq<Kept>, found: Cluster): Cluster
      requires |connections| == |kept|
    {
      if kept == [] then found
      else
        var n := |kept| - 1;
        After(connections[n], kept[n], AfterAll(connections[..n], kept[..n], found))
    }

    /** The reply reads as the answer to this connection on the cluster it found, and owns what it must not
        share. */
    ghost predicate StillTells(c: Connection, reply: Outcome<Response>, k: Kept, found: Cluster, objs: set<object>)
      reads objs
    {
      if c.username == SETTINGS_NAME then reply == SettingsAnswer(c.user, k.listed, found.access, found.accessTurns).0
      else if k.from == None then reply == Refused(NoTemplate) || reply == Refused(BrokenTemplate)
      else
        var data := k.from.value.data;
        && FileOf(c.username, k.from.value.file) && ClaimsAccepted(data, persistent)
        && Tells(reply, AnswerBox(sha, persistent, maxPods, configured, c.pods, data, c.user, c.username, found.claims, found.claimTurns).outcome, objs)
        && (reply.Served? ==> reply.value.Box? && OwnsWhatItChanges(reply.value.cfg, data, k.own))
    }

    lemma StillTellsMore(c: Connection, reply: Outcome<Response>, k: Kept, found: Cluster, objs: set<object>, more: set<object>)
      requires StillTells(c, reply, k, found, objs) && objs <= more
      ensures StillTells(c, reply, k, found, more)
    {
      hide ConfigBacks, AnswerBox, ClaimsAccepted, SettingsAnswer;
      if c.username != SETTINGS_NAME && k.from.Some? && reply.Served? {
        var a := AnswerBox(sha, persistent, maxPods, configured, c.pods, k.from.value.data, c.user, c.username, found.claims, found.claimTurns);
        Widen(reply.value.cfg, a.outcome.value, objs, more);
      }
    }

    ghost function Found(): Cluster
      reads claims, access
    {
      Cluster(claims.store, claims.script, access.store, access.script)
    }

    /** What the i-th connection found. */
    ghost function FoundBy(s: Session, i: nat): Cluster
      requires s.Complete() && i <= |s.kept|
    {
      AfterAll(s.connections[..i], s.kept[..i], s.start)
    }

    /** Each reply still tells its answer, on the cluster that the connections before it left. */
    ghost predicate AllTell(s: Session)
      requires s.Complete()
      reads this, repr, set i, o | 0 <= i < |s.kept| && o in s.kept[i].own :: o
    {
      forall i :: 0 <= i < |s.kept| ==>
        StillTells(s.connections[i], s.replies[i], s.kept[i], FoundBy(s, i), repr + s.kept[i].own)
    }

    lemma Apart()
      requires Valid()
      ensures {this, dir, claims, access} !! repr && retryLimit >= 1
      ensures forall d :: d in decoded ==> CameFrom(d) && TemplateBacks(d.template, d.data, repr)
    {}

    /** Later connections leave earlier replies as they are. */
    twostate lemma RepliesStand(s: Session)
      requires s.Complete() && old(AllTell(s))
      requires unchanged(old(repr)) && old(repr) <= repr && forall i :: 0 <= i < |s.kept| ==> unchanged(s.kept[i].own)
      ensures AllTell(s)
    {
      hide StillTells, FoundBy;
      forall i | 0 <= i < |s.kept|
        ensures StillTells(s.connections[i], s.replies[i], s.kept[i], FoundBy(s, i), repr + s.kept[i].own)
      {
        var own := s.kept[i].own;
        assert old(StillTells(s.connections[i], s.replies[i], s.kept[i], FoundBy(s, i), repr + own));
        StillTellsMore(s.connections[i], s.replies[i], s.kept[i], FoundBy(s, i), old(repr) + own, repr + own);
      }
    }

    function With(s: Session, c: Connection, r: Outcome<Response>, k: Kept): Session {
      Session(s.connections + [c], s.replies + [r], s.kept + [k], s.start)
    }

    lemma OneMoreTells(s: Session, c: Connection, r: Outcome<Response>, k: Kept)
      requires s.Complete() && AllTell(s)
      requires StillTells(c, r, k, FoundBy(s, |s.kept|), repr + k.own)
      ensures AllTell(With(s, c, r, k))
      ensures FoundBy(With(s, c, r, k), |s.kept| + 1) == After(c, k, FoundBy(s, |s.kept|))
    {
      hide StillTells, After;
      var s', n := With(s, c, r, k), |s.kept|;
      assert s'.connections[..n + 1][..n] == s.connections[..n] && s'.kept[..n + 1][..n] == s.kept[..n];
      forall i | 0 <= i <= n
        ensures StillTells(s'.connections[i], s'.replies[i], s'.kept[i], FoundBy(s', i), repr + s'.kept[i].own)
      {
        assert s'.connections[..i] == s.connections[..i] && s'.kept[..i] == s.kept[..i];
      }
    }

    twostate lemma AnswerIsKept(c: Connection, new r: Outcome<Response>, new from: Option<Decoded>, new listed: Option<seq<string>>, new own: set<object>)
      requires c.username == SETTINGS_NAME ==> unchanged(claims) && from == None && AnsweredBySettings(c.user, r, listed)
      requires c.username != SETTINGS_NAME ==> unchanged(access) && AnsweredByTemplate(c.pods, c.username, c.user, r, from, own)
      ensures var k := Kept(own, from, listed);
        StillTells(c, r, k, old(Found()), repr + own) && Found() == After(c, k, old(Found()))
      ensures from.Some? ==> from.value in decoded
      ensures old(dir.script) == [] && Coherent(parse, persistent, old(lines), old(dir.now)) ==>
        Coherent(parse, persistent, lines, dir.now) && ByDirectory(c, r, Kept(own, from, listed), dir.now)
    {
      hide Tells, AnswerBox, SettingsAnswer, ClaimsAccepted, OwnsWhatItChanges, Coherent, LoadFrom, FileOf, Published, AgreesWith, ListsBoxes, TrimSpace;
    }

    /** What answered is what the directory, standing still, holds without any cache. */
    ghost predicate ByDirectory(c: Connection, r: Outcome<Response>, k: Kept, now: Snapshot) {
      if c.username == SETTINGS_NAME then TrimSpace(c.user) != "" && settingsImage != "" ==> ListsBoxes(k.listed, now)
      else AgreesWith(k.from, r, LoadFrom(parse, persistent, now, c.username))
    }

    /** One connection, seen as a step of the cluster. */
    method ServeOne(c: Connection) returns (r: Outcome<Response>, ghost k: Kept)
      requires Valid()
      modifies this, dir, claims, access
      ensures Valid() && CacheOnlyGrew() && fresh(k.own) && k.own !! repr
      ensures DirectoryStood()
      ensures old(dir.script) == [] && Coherent(parse, persistent, old(lines), old(dir.now)) ==>
        Coherent(parse, persistent, lines, dir.now) && ByDirectory(c, r, k, dir.now)
      ensures k.from.Some? ==> k.from.value in decoded
      ensures StillTells(c, r, k, old(Found()), repr + k.own) && Found() == After(c, k, old(Found()))
    {
      hide TemplateBacks, StillTells, AnsweredBySettings, AnsweredByTemplate, ByDirectory, After, CameFrom, Answered, OwnsWhatItChanges, LoadFrom, Coherent;
      ghost var from, listed, own;
      r, from, listed, own := OnConfig(c.pods, c.username, c.user);
      AnswerIsKept(c, r, from, listed, own);
      k := Kept(own, from, listed);
    }

    /** The replies so far stand, own their own, come from the log, and the cluster is as they left it. */
    ghost predicate Stands(s: Session)
      reads this, repr, claims, access, set i, o | 0 <= i < |s.kept| && o in s.kept[i].own :: o
    {
      && s.Complete() && AllTell(s) && Separate(s.kept, repr) && FromLog(s.kept, decoded)
      && Found() == FoundBy(s, |s.kept|)
    }

    lemma NobodyYet()
      ensures Stands(Session([], [], [], Found()))
    {}

    lemma OneMoreStands(s: Session, cached: set<object>, log: seq<Decoded>, c: Connection, r: Outcome<Response>, k: Kept)
      requires s.Complete() && AllTell(s) && StillTells(c, r, k, FoundBy(s, |s.kept|), repr + k.own)
      requires Found() == After(c, k, FoundBy(s, |s.kept|))
      requires Separate(s.kept, cached) && cached <= repr && k.own !! repr
      requires forall i :: 0 <= i < |s.kept| ==> s.kept[i].own !! (repr - cached) && s.kept[i].own !! k.own
      requires FromLog(s.kept, log) && log <= decoded && (k.from.Some? ==> k.from.value in decoded)
      ensures Stands(With(s, c, r, k))
    {
      hide AllTell, StillTells, FoundBy, After, Separate;
      OneMoreTells(s, c, r, k);
      OneMoreSeparate(s.kept, cached, repr, k);
    }

    /** One more connection, which leaves the replies of the earlier ones as they are. */
    method ServeNext(c: Connection, ghost s: Session) returns (r: Outcome<Response>, ghost k: Kept)
      requires Valid() && Stands(s)
      requires forall i :: 0 <= i < |s.kept| ==> {this, dir, claims, access} !! s.kept[i].own
      modifies this, dir, claims, access
      ensures Valid() && CacheOnlyGrew() && DirectoryStood() && fresh(k.own)
      ensures Stands(With(s, c, r, k))
      ensures old(dir.script) == [] && Coherent(parse, persistent, old(lines), old(dir.now)) ==>
        Coherent(parse, persistent, lines, dir.now) && ByDirectory(c, r, k, dir.now)
    {
      hide Valid, TemplateBacks, StillTells, CameFrom, After, AllTell, ByDirectory, Coherent, FoundBy, Separate, FromLog;
      Apart();
      ghost var cached, log := repr, decoded;
      r, k := ServeOne(c);
      RepliesStand(s);
      hide Stands;
      OneMoreStands(s, cached, log, c, r, k);
    }

    /** Any number of connections, by any users, one after the other. Every template the cache ever took in
        still spells out, at the end, what its file held when it was read; every response is at the end
        what it was when it was given, the answer to its connection on the cluster the ones before it
        left; and no two responses share an object that either of them had changed. */
    method ServeAll(connections: seq<Connection>) returns (replies: seq<Outcome<Response>>, ghost kept: seq<Kept>)
      requires Valid()
      modifies this, dir, claims, access
      ensures Valid() && CacheOnlyGrew()
      ensures forall d :: d in decoded ==> CameFrom(d) && TemplateBacks(d.template, d.data, repr)
      ensures Stands(Session(connections, replies, kept, old(Found())))
      ensures |replies| == |connections| && |kept| == |connections| && forall i :: 0 <= i < |kept| ==> fresh(kept[i].own)
      ensures DirectoryStood()
      ensures old(dir.script) == [] && Coherent(parse, persistent, old(lines), old(dir.now)) ==>
        forall i :: 0 <= i < |kept| ==> ByDirectory(connections[i], replies[i], kept[i], dir.now)
    {
      hide ByDirectory, Coherent, Valid, TemplateBacks, CameFrom, Stands, Found;
      replies, kept := [], [];
      ghost var s := Session([], [], [], Found());
      NobodyYet();
      for i := 0 to |connections|
        invariant Valid() && CacheOnlyGrew() && DirectoryStood()
        invariant |replies| == |kept| == i && s == Session(connections[..i], replies, kept, old(Found())) && Stands(s)
        invariant forall j :: 0 <= j < i ==> fresh(kept[j].own)
        invariant old(dir.script) == [] && Coherent(parse, persistent, old(lines), old(dir.now)) ==>
          && Coherent(parse, persistent, lines, dir.now)
          && forall j :: 0 <= j < i ==> ByDirectory(connections[j], replies[j], kept[j], dir.now)
      {
        ghost var k;
        var r;
        r, k := ServeNext(connections[i], s);
        replies, kept, s := replies + [r], kept + [k], With(s, connections[i], r, k);
        assert connections[..i + 1] == s.connections;
      }
      assert connections[..|connections|] == connections;
      Apart();
    }
  }
}
