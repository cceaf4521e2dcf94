/** What a template directory means, without any cache: which file a username loads, which names get
    a box, and which names the settings list is made from (config-server/handler.go,
    config-server/owner_access.go). */
module Loading {
  import opened Strings
  import opened TemplateCache
  import opened TemplateList
  import opened Templates
  import opened Directory

  const SETTINGS_NAME := "settings"

  type Parser = string -> Option<TemplateData>

  // ---- file names ----

  /** `filepath.Ext`: from the last dot on, empty without a dot. */
  function Ext(name: string): (e: string)
    ensures |e| <= |name|
  {
    if name == "" then ""
    else if name[|name| - 1] == '.' then "."
    else
      var e := Ext(name[..|name| - 1]);
      if e == "" then "" else e + [name[|name| - 1]]
  }

  function WithoutExt(name: string): string {
    name[..|name| - |Ext(name)|]
  }

  lemma {:induction false} ExtOf(base: string, tail: string)
    requires '.' !in tail
    ensures Ext(base + "." + tail) == "." + tail
    ensures WithoutExt(base + "." + tail) == base
  {
    var name := base + "." + tail;
    if tail == "" {
      assert name[|name| - 1] == '.';
    } else {
      var tail' := tail[..|tail| - 1];
      ExtOf(base, tail');
      assert name[..|name| - 1] == base + "." + tail';
      assert tail == tail' + [tail[|tail| - 1]];
    }
  }

  /** The template name OnConfig derives from the file it loaded is the username it was asked for, dots
      in the username included. */
  lemma LoadedNameIsUsername(username: string)
    ensures WithoutExt(username + ".yaml") == username && WithoutExt(username + ".json") == username
  {
    ExtOf(username, "yaml");
    ExtOf(username, "json");
    assert username + "." + "yaml" == username + ".yaml";
    assert username + "." + "json" == username + ".json";
  }

  // ---- what a directory holds for a name ----

  datatype Loaded = NoSuch | Unusable | Usable(data: TemplateData, file: string)

  /** Decoding and claim validation of a file's text. */
  ghost function Interpret(parse: Parser, persistent: bool, text: string): Option<TemplateData> {
    match parse(text)
    case None => None
    case Some(data) => if ClaimsAccepted(data, persistent) then Some(data) else None
  }

  ghost function ReadFrom(parse: Parser, persistent: bool, dir: Snapshot, file: string): Loaded {
    match ContentOf(Find(dir, file))
    case ReadFailed => Unusable
    case Content(text) =>
      match Interpret(parse, persistent, text)
      case None => Unusable
      case Some(data) => Usable(data, file)
  }

  /** The uncached meaning of `load`: .yaml if it is there, else .json, never another name. */
  ghost function LoadFrom(parse: Parser, persistent: bool, dir: Snapshot, username: string): Loaded {
    if !ValidTemplateName(username) then NoSuch
    else match StatOf(Find(dir, username + ".yaml"))
      case Info(_, _) => ReadFrom(parse, persistent, dir, username + ".yaml")
      case StatFailed => Unusable
      case NotThere =>
        match StatOf(Find(dir, username + ".json"))
        case Info(_, _) => ReadFrom(parse, persistent, dir, username + ".json")
        case StatFailed => Unusable
        case NotThere => NoSuch
  }

  /** Which file answers a name, spelled out: the .yaml file whenever it can be stat'ed, else, only if there
      is no .yaml, the .json file; neither for an invalid name or with neither file; and what answers is
      that file's text, decoded and accepted. Any other failure is a broken template. */
  lemma LoadSpelledOut(parse: Parser, persistent: bool, dir: Snapshot, username: string)
    ensures var l := LoadFrom(parse, persistent, dir, username);
      var yaml, json := Find(dir, username + ".yaml"), Find(dir, username + ".json");
      && (l.NoSuch? <==> !ValidTemplateName(username) || (StatOf(yaml) == NotThere && StatOf(json) == NotThere))
      && (ValidTemplateName(username) && StatOf(yaml).Info? && !l.Unusable? ==> l.Usable? && l.file == username + ".yaml")
      && (l.Usable? && l.file != username + ".yaml" ==> StatOf(yaml) == NotThere && l.file == username + ".json")
      && (l.Usable? ==>
            && Find(dir, l.file).RegularFile? && parse(Find(dir, l.file).content) == Some(l.data)
            && ClaimsAccepted(l.data, persistent))
  {
    hide Find, ClaimsAccepted, ValidTemplateName;
    assert (username + ".yaml")[|username|..] == ".yaml" && (username + ".json")[|username|..] == ".json";
  }

  /** Which files are templates, spelled out: a file that decodes, and that either declares no claims or is for
      persistent mode and gives every claim a DNS label no other claim of it has, and positive storage. */
  lemma ReadSpelledOut(parse: Parser, persistent: bool, dir: Snapshot, file: string)
    ensures ReadFrom(parse, persistent, dir, file).Usable? <==>
      && Find(dir, file).RegularFile? && parse(Find(dir, file).content).Some?
      && var data := parse(Find(dir, file).content).value;
      data.claims == [] ||
      (&& persistent && (data.config.mode == "" || data.config.mode == "persistent")
       && (forall i :: 0 <= i < |data.claims| ==> IsDnsLabel(data.claims[i].name) && data.claims[i].positiveStorage)
       && forall i, j :: 0 <= i < |data.claims| && 0 <= j < |data.claims| && i != j ==> data.claims[i].name != data.claims[j].name)
  {
    hide Find, IsDnsLabel;
  }

  /** Does a connection to this name take the box path? */
  ghost predicate GetsBox(parse: Parser, persistent: bool, dir: Snapshot, username: string) {
    var l := LoadFrom(parse, persistent, dir, username);
    persistent && l.Usable? && !SelectsNonPersistent(l.data.config.mode)
  }

  /** No cache entry pretends to be a file of this directory that it is not the parse of. True of an
      empty cache, and kept as long as a changed file also changes its size or time. */
  ghost predicate Coherent(parse: Parser, persistent: bool, lines: Cache<TemplateData>, dir: Snapshot) {
    forall f :: f in lines && StatOf(Find(dir, f)) == Info(lines[f].size, lines[f].mtime) ==>
      ReadFrom(parse, persistent, dir, f) == Usable(lines[f].data, f)
  }

  // ---- which names the settings list is made from ----

  predicate HasSuffix(s: string, suffix: string) {
    |suffix| <= |s| && s[|s| - |suffix|..] == suffix
  }

  function TrimSuffix(s: string, suffix: string): string {
    if HasSuffix(s, suffix) then s[..|s| - |suffix|] else s
  }

  /** The template a directory entry stands for, if it is considered at all. */
  function Candidate(e: DirEntry): Option<string> {
    var ext := if HasSuffix(e.name, ".yaml") then ".yaml" else if HasSuffix(e.name, ".json") then ".json" else "";
    var template := TrimSuffix(e.name, ext);
    if ext == "" || e.node.Folder? || !ValidTemplateName(template) || template == SETTINGS_NAME then None
    else Some(template)
  }

  ghost predicate Considered(dir: Snapshot, template: string) {
    exists i :: 0 <= i < |dir| && Candidate(dir[i]) == Some(template)
  }

  /** Which names the walk considers, spelled out: valid names other than the reserved one for which an entry
      that is no folder is called name.yaml or name.json. */
  lemma ConsideredSpelledOut(dir: Snapshot, template: string)
    ensures Considered(dir, template) <==>
      && ValidTemplateName(template) && template != "settings"
      && exists i :: 0 <= i < |dir| && !dir[i].node.Folder? && (dir[i].name == template + ".yaml" || dir[i].name == template + ".json")
  {
    hide Candidate, ValidTemplateName;
    forall i | 0 <= i < |dir|
      ensures Candidate(dir[i]) == Some(template) <==>
        && ValidTemplateName(template) && template != "settings" && !dir[i].node.Folder?
        && (dir[i].name == template + ".yaml" || dir[i].name == template + ".json")
    {
      CandidateSpelledOut(dir[i], template);
    }
  }

  lemma CandidateSpelledOut(e: DirEntry, template: string)
    ensures Candidate(e) == Some(template) <==>
      && ValidTemplateName(template) && template != "settings" && !e.node.Folder?
      && (e.name == template + ".yaml" || e.name == template + ".json")
  {
    hide ValidTemplateName;
    SuffixMeaning(e.name, ".yaml", template);
    SuffixMeaning(e.name, ".json", template);
    YamlIsNotJson(e.name);
    hide HasSuffix;
  }

  lemma SuffixMeaning(s: string, suffix: string, base: string)
    ensures HasSuffix(s, suffix) && TrimSuffix(s, suffix) == base <==> s == base + suffix
    ensures s == base + suffix ==> HasSuffix(s, suffix)
  {
    if HasSuffix(s, suffix) { assert s == s[..|s| - |suffix|] + suffix; }
    if s == base + suffix { assert s[|base|..] == suffix && s[..|base|] == base; }
  }

  lemma YamlIsNotJson(s: string)
    ensures !(HasSuffix(s, ".yaml") && HasSuffix(s, ".json"))
  {
    SuffixEnds(s, ".yaml");
    SuffixEnds(s, ".json");
    hide HasSuffix;
  }

  lemma SuffixEnds(s: string, suffix: string)
    requires suffix != ""
    ensures HasSuffix(s, suffix) ==> s != "" && s[|s| - 1] == suffix[|suffix| - 1]
  {
    if HasSuffix(s, suffix) { assert s[|s| - |suffix|..][|suffix| - 1] == s[|s| - 1]; }
  }

  lemma LoadedFileIsCandidate(e: DirEntry, username: string)
    requires ValidTemplateName(username) && username != SETTINGS_NAME && e.node.RegularFile?
    requires e.name == username + ".yaml" || e.name == username + ".json"
    ensures Candidate(e) == Some(username)
  {
    hide ValidTemplateName;
    var n := |username|;
    assert e.name[..n] == username;
    assert e.name[n..] == ".yaml" || e.name[n..] == ".json";
    if e.name == username + ".json" {
      assert e.name[|e.name| - 1] == 'n';
      SuffixEnds(e.name, ".yaml");
    }
  }

  /** Every name that gets a box, other than the reserved one, is considered by the walk. */
  lemma BoxesAreConsidered(parse: Parser, persistent: bool, dir: Snapshot, username: string)
    requires GetsBox(parse, persistent, dir, username) && username != SETTINGS_NAME
    ensures Considered(dir, username)
  {
    var file := LoadFrom(parse, persistent, dir, username).file;
    FoundIsListed(dir, file);
    var i :| 0 <= i < |dir| && dir[i] == DirEntry(file, Find(dir, file));
    LoadedFileIsCandidate(dir[i], username);
  }

  lemma ConsideredSnoc(dir: Snapshot, i: nat, template: string)
    requires i < |dir|
    ensures Considered(dir[..i + 1], template) <==> Considered(dir[..i], template) || Candidate(dir[i]) == Some(template)
  {
    hide Candidate;
    var init, all := dir[..i], dir[..i + 1];
    assert all == init + [dir[i]];
    if Considered(all, template) {
      var k :| 0 <= k < |all| && Candidate(all[k]) == Some(template);
      if k < i { assert init[k] == all[k]; }
    }
    if Considered(init, template) {
      var k :| 0 <= k < |init| && Candidate(init[k]) == Some(template);
      assert all[k] == init[k];
    }
    assert all[i] == dir[i];
  }

  lemma CandidatesAreValid(dir: Snapshot, template: string)
    requires Considered(dir, template)
    ensures ValidTemplateName(template) && template != SETTINGS_NAME
  {
    hide ValidTemplateName;
  }

  /** The walk so far: the names seen are the names considered, and those kept are valid and listed
      once. */
  ghost predicate Walked(entries: Snapshot, i: nat, seen: set<string>, templates: seq<string>)
    requires i <= |entries|
  {
    && (forall t :: t in seen <==> Considered(entries[..i], t))
    && Distinct(templates) && (forall t :: t in templates ==> t in seen)
  }

  /** On a directory that stands still, everything seen loads, and what is kept is what gets a box. */
  ghost predicate WalkedExactly(parse: Parser, persistent: bool, dir: Snapshot, seen: set<string>, templates: seq<string>) {
    forall t :: t in seen ==>
      LoadFrom(parse, persistent, dir, t).Usable? && (t in templates <==> GetsBox(parse, persistent, dir, t))
  }

  ghost predicate AllLoad(parse: Parser, persistent: bool, dir: Snapshot) {
    forall t :: Considered(dir, t) ==> LoadFrom(parse, persistent, dir, t).Usable?
  }

  lemma WalkStarts(parse: Parser, persistent: bool, dir: Snapshot, entries: Snapshot)
    ensures Walked(entries, 0, {}, []) && WalkedExactly(parse, persistent, dir, {}, [])
  {
    assert entries[..0] == [];
  }

  /** An entry that is passed over is not a candidate, or its name has been seen. */
  lemma WalkSkips(entries: Snapshot, i: nat, seen: set<string>, templates: seq<string>)
    requires i < |entries| && Walked(entries, i, seen, templates)
    requires Candidate(entries[i]) == None || Candidate(entries[i]).value in seen
    ensures Walked(entries, i + 1, seen, templates)
  {
    hide Candidate, Considered;
    forall t ensures t in seen <==> Considered(entries[..i + 1], t) { ConsideredSnoc(entries, i, t); }
  }

  lemma WalkTakes(entries: Snapshot, i: nat, seen: set<string>, templates: seq<string>, template: string, keep: bool)
    requires i < |entries| && Walked(entries, i, seen, templates)
    requires Candidate(entries[i]) == Some(template) && template !in seen
    ensures Considered(entries, template) && template !in templates
    ensures Walked(entries, i + 1, seen + {template}, if keep then templates + [template] else templates)
  {
    hide Candidate;
    forall t ensures t in seen + {template} <==> Considered(entries[..i + 1], t) { ConsideredSnoc(entries, i, t); }
  }

  lemma WalkTakesExactly(parse: Parser, persistent: bool, dir: Snapshot, seen: set<string>, templates: seq<string>, template: string)
    requires WalkedExactly(parse, persistent, dir, seen, templates) && template !in seen && template !in templates
    requires LoadFrom(parse, persistent, dir, template).Usable?
    ensures WalkedExactly(parse, persistent, dir, seen + {template},
      if GetsBox(parse, persistent, dir, template) then templates + [template] else templates)
  {
    hide LoadFrom, GetsBox;
  }

  lemma WalkFails(parse: Parser, persistent: bool, dir: Snapshot, template: string)
    requires Considered(dir, template) && !LoadFrom(parse, persistent, dir, template).Usable?
    ensures !AllLoad(parse, persistent, dir)
  {
    hide LoadFrom, Considered;
  }

  lemma WalkDone(entries: Snapshot, seen: set<string>, templates: seq<string>)
    requires Walked(entries, |entries|, seen, templates)
    ensures Published(Sort(templates)) && SETTINGS_NAME !in Sort(templates)
  {
    hide ValidTemplateName, Considered;
    SortKeepsElements(templates);
    assert entries[..|entries|] == entries;
    forall t | t in templates ensures ValidTemplateName(t) && t != SETTINGS_NAME {
      CandidatesAreValid(entries, t);
    }
  }

  lemma WalkDoneExactly(parse: Parser, persistent: bool, dir: Snapshot, seen: set<string>, templates: seq<string>)
    requires Walked(dir, |dir|, seen, templates) && WalkedExactly(parse, persistent, dir, seen, templates)
    ensures AllLoad(parse, persistent, dir)
    ensures forall t :: t in Sort(templates) <==> t != SETTINGS_NAME && GetsBox(parse, persistent, dir, t)
  {
    hide ValidTemplateName, LoadFrom, GetsBox, Considered, Sort;
    assert dir[..|dir|] == dir;
    SortKeepsElements(templates);
    forall t ensures t in templates <==> t != SETTINGS_NAME && GetsBox(parse, persistent, dir, t) {
      if t in templates { CandidatesAreValid(dir, t); }
      if t != SETTINGS_NAME && GetsBox(parse, persistent, dir, t) {
        BoxesAreConsidered(parse, persistent, dir, t);
        assert t in seen;
      }
    }
  }
}
