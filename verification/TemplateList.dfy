/** The template list on its way from the config server to the settings screen
    (config-server/settings.go, settings-tui/boxes.go). */
module TemplateList {
  import opened Strings
  import opened Identity
  import opened OwnerAccess
  import SettingsModel
  import SettingsRuns
  import Logins = OwnerAccessRuns

  /** The check both programs make; it works byte by byte because every other byte is rejected. */
  predicate ValidTemplateName(name: string) {
    name != "" && forall c :: c in name ==> IsNameChar(c)
  }

  method IsValidTemplateName(name: string) returns (valid: bool)
    ensures valid == ValidTemplateName(name)
  {
    if name == "" { return false; }
    for i := 0 to |name|
      invariant forall k :: 0 <= k < i ==> IsNameChar(name[k])
    {
      if !IsNameChar(name[i]) { return false; }
    }
    return true;
  }

  datatype Parsed = Templates(names: seq<string>) | Malformed

  /** One comma-separated part: blank parts are skipped, duplicates collapse, anything else is fatal. */
  function TakePart(sofar: Parsed, part: string): Parsed {
    var name := TrimSpace(part);
    if sofar.Malformed? || name == "" then sofar
    else if !ValidTemplateName(name) then Malformed
    else if name in sofar.names then sofar
    else Templates(sofar.names + [name])
  }

  function Collect(parts: seq<string>): Parsed {
    if parts == [] then Templates([]) else TakePart(Collect(parts[..|parts| - 1]), parts[|parts| - 1])
  }

  function Parse(value: string): Parsed {
    match Collect(Split(value, ','))
    case Malformed => Malformed
    case Templates(names) => Templates(Sort(names))
  }

  lemma {:induction false} MalformedStays(parts: seq<string>, i: nat)
    requires i <= |parts| && Collect(parts[..i]).Malformed?
    ensures Collect(parts).Malformed?
    decreases |parts| - i
  {
    if i < |parts| {
      assert parts[..i + 1][..i] == parts[..i];
      MalformedStays(parts, i + 1);
    } else {
      assert parts[..i] == parts;
    }
  }

  method ParseTemplates(value: string) returns (result: Parsed)
    ensures result == Parse(value)
  {
    hide ValidTemplateName, TrimSpace, Split, Sort;
    var parts := Split(value, ',');
    var templates: seq<string> := [];
    var seen: set<string> := {};
    for i := 0 to |parts|
      invariant Collect(parts[..i]) == Templates(templates)
      invariant forall t :: t in seen <==> t in templates
    {
      assert parts[..i + 1][..i] == parts[..i];
      var name := TrimSpace(parts[i]);
      if name != "" {
        var valid := IsValidTemplateName(name);
        if !valid {
          MalformedStays(parts, i + 1);
          return Malformed;
        }
        if name !in seen {
          seen := seen + {name};
          templates := templates + [name];
        }
      }
    }
    assert parts[..|parts|] == parts;
    return Templates(Sort(templates));
  }

  lemma {:induction false} CollectedNames(parts: seq<string>)
    requires Collect(parts).Templates?
    ensures Distinct(Collect(parts).names) && forall t :: t in Collect(parts).names ==> ValidTemplateName(t)
  {
    hide ValidTemplateName, TrimSpace;
    if parts != [] { CollectedNames(parts[..|parts| - 1]); }
  }

  /** A list that parses is sorted, duplicate-free, and made of valid names only. */
  lemma ParsedShape(value: string)
    requires Parse(value).Templates?
    ensures var names := Parse(value).names;
      Ordered(names) && Distinct(names) && forall t :: t in names ==> ValidTemplateName(t)
  {
    CollectedNames(Split(value, ','));
    SortKeepsElements(Collect(Split(value, ',')).names);
  }

  /** A part that counts: not blank. */
  predicate Counts(part: string) {
    TrimSpace(part) != ""
  }

  /** Some part that counts is no valid name once trimmed. */
  ghost predicate HasBadPart(parts: seq<string>) {
    exists i :: 0 <= i < |parts| && Counts(parts[i]) && !ValidTemplateName(TrimSpace(parts[i]))
  }

  /** Some part that counts is this name once trimmed. */
  ghost predicate Names(parts: seq<string>, t: string) {
    exists i :: 0 <= i < |parts| && Counts(parts[i]) && TrimSpace(parts[i]) == t
  }

  lemma OneMorePart(init: seq<string>, last: string, t: string)
    ensures HasBadPart(init + [last]) <==> HasBadPart(init) || (Counts(last) && !ValidTemplateName(TrimSpace(last)))
    ensures Names(init + [last], t) <==> Names(init, t) || (Counts(last) && TrimSpace(last) == t)
  {
    hide ValidTemplateName, TrimSpace;
    var parts := init + [last];
    assert parts[|init|] == last && forall i :: 0 <= i < |init| ==> parts[i] == init[i];
    if i :| 0 <= i < |init| && Counts(init[i]) && !ValidTemplateName(TrimSpace(init[i])) { assert Counts(parts[i]); }
    if i :| 0 <= i < |init| && Counts(init[i]) && TrimSpace(init[i]) == t { assert Counts(parts[i]); }
  }

  lemma {:induction false} CollectSpelledOut(parts: seq<string>, t: string)
    ensures Collect(parts).Malformed? <==> HasBadPart(parts)
    ensures Collect(parts).Templates? ==> (t in Collect(parts).names <==> Names(parts, t))
  {
    hide ValidTemplateName, TrimSpace;
    if parts != [] {
      hide HasBadPart, Names;
      var init, last := parts[..|parts| - 1], parts[|parts| - 1];
      assert parts == init + [last];
      CollectSpelledOut(init, t);
      OneMorePart(init, last, t);
    }
  }

  /** What a list means: it is malformed exactly when some comma-separated part that is not blank is no valid
      name once trimmed; otherwise it holds exactly those parts, trimmed, sorted and without duplicates. */
  lemma ParseSpelledOut(value: string)
    ensures var parts := Split(value, ',');
      && (Parse(value).Malformed? <==> HasBadPart(parts))
      && (Parse(value).Templates? ==>
            && Ordered(Parse(value).names) && Distinct(Parse(value).names)
            && forall t :: t in Parse(value).names <==> Names(parts, t))
  {
    hide Split, Sort, Collect, HasBadPart, Names;
    var parts := Split(value, ',');
    CollectSpelledOut(parts, "");
    if Parse(value).Templates? {
      ParsedShape(value);
      SortKeepsElements(Collect(parts).names);
      forall t ensures t in Parse(value).names <==> Names(parts, t) { CollectSpelledOut(parts, t); }
    }
  }

  /** A template list as the config server publishes it. */
  ghost predicate Published(templates: seq<string>) {
    Ordered(templates) && Distinct(templates) && forall t :: t in templates ==> ValidTemplateName(t)
  }

  lemma {:induction false} CollectPublished(templates: seq<string>)
    requires Distinct(templates) && forall t :: t in templates ==> ValidTemplateName(t)
    ensures Collect(templates) == Templates(templates)
  {
    if templates != [] {
      var init, last := templates[..|templates| - 1], templates[|templates| - 1];
      assert templates == init + [last];
      CollectPublished(init);
      assert ValidTemplateName(last);
      TrimKeepsNames(last);
    }
  }

  /** The round trip: what the server joins with commas, the screen parses back, name for name. */
  lemma PublishedListRoundTrips(templates: seq<string>)
    requires Published(templates)
    ensures Parse(Join(templates, ',')) == Templates(templates)
  {
    SortKeepsElements(templates);
    OrderedDistinctUnique(Sort(templates), templates);
    if templates == [] {
      TrimKeepsNames("");
      assert Split("", ',') == [""] && [""][..0] == [];
      assert Collect([""]) == TakePart(Collect([]), "");
    } else {
      forall p | p in templates ensures ',' !in p { assert ValidTemplateName(p); }
      SplitJoin(templates, ',');
      CollectPublished(templates);
    }
  }

  /** The pod names of the screen's rows. The screen trims the owner it was given, as the server did. */
  function ScreenNames(sha: Digest, owner: string, templates: seq<string>): seq<string> {
    SettingsModel.Names(SettingsModel.NewRows(sha, TrimSpace(owner), templates))
  }

  lemma {:induction false} ScreenNamesAreBoxNames(sha: Digest, owner: string, templates: seq<string>)
    ensures ScreenNames(sha, owner, templates) == BoxNames(sha, owner, templates)
  {
    hide BoxPodName, TrimSpace;
    if templates != [] {
      ScreenNamesAreBoxNames(sha, owner, templates[..|templates| - 1]);
      var rows := SettingsModel.NewRows(sha, TrimSpace(owner), templates);
      assert rows[..|rows| - 1] == SettingsModel.NewRows(sha, TrimSpace(owner), templates[..|templates| - 1]);
    }
  }

  /** Rows and grants agree end to end. From the raw owner and the published list that reach the screen
      through its environment, it builds rows for exactly the pods the owner's Role lets it read and
      delete: every row is allowed, and nothing else is. */
  lemma RowsAreGrants(sha: Digest, owner: string, templates: seq<string>, verb: string, pod: string)
    requires Published(templates) && (verb == "get" || verb == "delete")
    ensures var parsed := Parse(Join(templates, ','));
      && parsed.Templates?
      && (pod in ScreenNames(sha, owner, parsed.names) <==> Allows(OwnerRules(sha, owner, templates), verb, "", "pods", pod))
  {
    hide BoxPodName, Parse, Join, ScreenNames, BoxNames;
    PublishedListRoundTrips(templates);
    ScreenNamesAreBoxNames(sha, owner, templates);
    GrantedNames(sha, owner, templates, pod);
    SortKeepsElements(BoxNames(sha, owner, templates));
    ExactAuthority(sha, owner, templates, verb, "", "pods", pod);
  }

  /** A Role that allows exactly what a login was to be allowed allows exactly the rows of its screen. */
  lemma ExactRoleMatchesScreen(sha: Digest, c: Content, l: Logins.Login, verb: string, pod: string)
    requires Logins.AllowsExactly(sha, c, l) && Published(l.templates) && (verb == "get" || verb == "delete")
    ensures var parsed := Parse(Join(l.templates, ','));
      && parsed.Templates?
      && (Allows(c.rules, verb, "", "pods", pod) <==> pod in ScreenNames(sha, l.owner, parsed.names))
  {
    hide BoxPodName, Parse, Join, ScreenNames, OwnerRules, Published;
    RowsAreGrants(sha, l.owner, l.templates, verb, pod);
    ExactAuthority(sha, l.owner, l.templates, verb, "", "pods", pod);
  }

  lemma ReadyAccountMatches(sha: Digest, s: AccessStore, c: Content, l: Logins.Login, verb: string, pod: string)
    requires AccountReady(sha, s, l.owner, l.templates) && Logins.AllowsExactly(sha, c, l)
    ensures var name := OwnerObjectName(sha, l.owner);
      Through(s, name, name, verb, "", "pods", pod) <==> Allows(c.rules, verb, "", "pods", pod)
  {
    hide OwnerObjectName, BoxPodName, Through, Allows;
  }

  /** Rows and grants agree in the cluster. However many logins of an owner with one list run at once, from
      any cluster where nothing stands in their way, from the moment one has succeeded the stored Role
      lets its ServiceAccount get and delete exactly the pods of the screen's rows. */
  lemma StoredRoleMatchesScreen(sha: Digest, limit: nat, store: AccessStore, events: seq<Logins.Event>, l: Logins.Login, i: nat,
                                verb: string, pod: string)
    requires limit >= 2 && !Obstructed(store, OwnerObjectName(sha, l.owner))
    requires forall e :: e in events ==> Logins.Peaceful(Logins.GoalsOf(sha, l), e)
    requires var w := Logins.Run(limit, Logins.World(store, []), events);
      i < |w.callers| && w.callers[i].Succeeded()
    requires Published(l.templates) && (verb == "get" || verb == "delete")
    ensures var s := Logins.Run(limit, Logins.World(store, []), events).store;
      var name, role, parsed := OwnerObjectName(sha, l.owner), Logins.RoleOf(sha, l), Parse(Join(l.templates, ','));
      && role in s.objs && s.objs[role].content.Grant? && parsed.Templates?
      && (Allows(s.objs[role].content.rules, verb, "", "pods", pod) <==> pod in ScreenNames(sha, l.owner, parsed.names))
      && (Through(s, name, name, verb, "", "pods", pod) <==> pod in ScreenNames(sha, l.owner, parsed.names))
  {
    Logins.LoginsConverge(sha, limit, store, events, l, i);
    var s := Logins.Run(limit, Logins.World(store, []), events).store;
    hide Logins.Run, Logins.GoalsOf, Logins.RoleOf, Logins.AllowsExactly, Published, Parse, Join, ScreenNames, OwnerObjectName, BoxPodName, Through, Allows;
    ExactRoleMatchesScreen(sha, s.objs[Logins.RoleOf(sha, l)].content, l, verb, pod);
    ReadyAccountMatches(sha, s, s.objs[Logins.RoleOf(sha, l)].content, l, verb, pod);
  }

  /** From login to delete: on the screen built from the raw owner and the published list, every delete ever
      issued, in any run, is one the owner's rules allow. */
  lemma {:induction false} IssuedDeletesAreAllowed(sha: Digest, owner: string, templates: seq<string>, maxBoxes: int, width: int, height: int,
                                                   events: seq<SettingsRuns.Event>, e: SettingsRuns.Event, name: string)
    requires Published(templates)
    ensures var parsed := Parse(Join(templates, ','));
      && parsed.Templates?
      && var s := SettingsModel.NewState(SettingsModel.NewRows(sha, TrimSpace(owner), parsed.names), maxBoxes, width, height);
      && SettingsModel.Indexed(s)
      && (SettingsModel.DeleteCmd(name) in SettingsRuns.CmdsOf(SettingsRuns.Run(s, events), e) ==>
            Allows(OwnerRules(sha, owner, templates), "delete", "", "pods", name))
  {
    hide BoxPodName, Parse, Join, Published, TrimSpace, OwnerRules;
    PublishedListRoundTrips(templates);
    var rows := SettingsModel.NewRows(sha, TrimSpace(owner), templates);
    var s := SettingsModel.NewState(rows, maxBoxes, width, height);
    SettingsRuns.NewScreenIsInitial(sha, TrimSpace(owner), templates, maxBoxes, width, height);
    SettingsRuns.DeleteSafety(s, events, e, name);
    RowsAreGrants(sha, owner, templates, "delete", name);
    if SettingsModel.DeleteCmd(name) in SettingsRuns.CmdsOf(SettingsRuns.Run(s, events), e) {
      var i := SettingsRuns.Run(s, events).dialogRow;
      hide SettingsRuns.Run, SettingsRuns.CmdsOf;
      NamesAt(rows, i);
    }
  }

  lemma {:induction false} NamesAt(rows: seq<SettingsModel.Row>, i: nat)
    requires i < |rows|
    ensures SettingsModel.Names(rows)[i] == rows[i].name
  {
    if i < |rows| - 1 { NamesAt(rows[..|rows| - 1], i); }
  }
}
