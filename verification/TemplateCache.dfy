/** The template cache: stat first, read later under a lock (config-server/handler.go).

    A file is the sequence of versions it goes through. `statAt` and the index in `Ended` are
    bookkeeping: they record which version was current at a reader's stat and at its return. */
module TemplateCache {

  datatype Option<+T> = None | Some(value: T)

  datatype Version = Gone | File(content: string, size: int, mtime: int)

  /** A cache entry: the stat it is keyed on and what was parsed. */
  datatype Line<+T> = Line(size: int, mtime: int, data: T)

  type Cache<T> = map<string, Line<T>>

  function CacheLookup<T>(cache: Cache<T>, path: string, size: int, mtime: int): Option<T> {
    if path in cache && cache[path].size == size && cache[path].mtime == mtime then Some(cache[path].data) else None
  }

  datatype Stage<+T> =
    | Opened
    | Statted(size: int, mtime: int)
    | Missed(size: int, mtime: int)
    | HasRead(size: int, mtime: int, content: string)
    | Ended(result: Option<T>, endAt: nat)

  datatype Reader<+T> = Reader(path: string, statAt: nat, stage: Stage<T>)

  datatype World<T> = World(files: map<string, seq<Version>>, cache: Cache<T>, holder: Option<nat>, readers: seq<Reader<T>>)

  datatype Event =
    | Open(path: string)
    | Write(path: string, version: Version)
    | Stat(i: nat)
    | Lock(i: nat)
    | Read(i: nat)
    | Fill(i: nat)

  function Versions<T>(w: World<T>, path: string): (vs: seq<Version>)
    ensures |vs| > 0
  {
    if path in w.files && w.files[path] != [] then w.files[path] else [Gone]
  }

  function Now<T>(w: World<T>, path: string): nat {
    |Versions(w, path)| - 1
  }

  function Current<T>(w: World<T>, path: string): Version {
    Versions(w, path)[Now(w, path)]
  }

  function SetReader<T>(w: World<T>, i: nat, r: Reader<T>): World<T>
    requires i < |w.readers|
  {
    World(w.files, w.cache, w.holder, w.readers[i := r])
  }

  /** A lookup takes the lock and, on a miss, keeps it until the entry is filled or the read failed. */
  predicate Enabled<T>(w: World<T>, e: Event) {
    match e
    case Open(_) => true
    case Write(_, _) => true
    case Stat(i) => i < |w.readers| && w.readers[i].stage.Opened?
    case Lock(i) => i < |w.readers| && w.readers[i].stage.Statted? && w.holder == None
    case Read(i) => i < |w.readers| && w.readers[i].stage.Missed? && w.holder == Some(i)
    case Fill(i) => i < |w.readers| && w.readers[i].stage.HasRead? && w.holder == Some(i)
  }

  function End<T>(w: World<T>, i: nat, result: Option<T>): World<T>
    requires i < |w.readers|
  {
    var r := w.readers[i];
    SetReader(w, i, Reader(r.path, r.statAt, Ended(result, Now(w, r.path)))).(holder := None)
  }

  function Happen<T>(parse: string -> Option<T>, w: World<T>, e: Event): World<T> {
    if !Enabled(w, e) then w
    else match e
      case Open(path) => World(w.files, w.cache, w.holder, w.readers + [Reader(path, 0, Opened)])
      case Write(path, v) => World(w.files[path := Versions(w, path) + [v]], w.cache, w.holder, w.readers)
      case Stat(i) =>
        var r := w.readers[i];
        var now := Now(w, r.path);
        (match Current(w, r.path)
         case Gone => SetReader(w, i, Reader(r.path, now, Ended(None, now)))
         case File(_, size, mtime) => SetReader(w, i, Reader(r.path, now, Statted(size, mtime))))
      case Lock(i) =>
        var r := w.readers[i];
        var hit := CacheLookup(w.cache, r.path, r.stage.size, r.stage.mtime);
        if hit.Some? then End(w, i, hit)
        else SetReader(w, i, Reader(r.path, r.statAt, Missed(r.stage.size, r.stage.mtime))).(holder := Some(i))
      case Read(i) =>
        var r := w.readers[i];
        (match Current(w, r.path)
         case Gone => End(w, i, None)
         case File(content, _, _) => SetReader(w, i, Reader(r.path, r.statAt, HasRead(r.stage.size, r.stage.mtime, content))))
      case Fill(i) =>
        var r := w.readers[i];
        (match parse(r.stage.content)
         case None => End(w, i, None)
         case Some(data) =>
           var w' := End(w, i, Some(data));
           World(w'.files, w.cache[r.path := Line(r.stage.size, r.stage.mtime, data)], w'.holder, w'.readers))
  }

  function Run<T>(parse: string -> Option<T>, w: World<T>, events: seq<Event>): World<T> {
    if events == [] then w else Happen(parse, Run(parse, w, events[..|events| - 1]), events[|events| - 1])
  }

  // ---- linearizability ----

  ghost predicate HasStat(v: Version, size: int, mtime: int) {
    v.File? && v.size == size && v.mtime == mtime
  }

  /** One of the versions `from` to `to` parses to `data`. */
  ghost predicate HeldBetween<T>(parse: string -> Option<T>, vs: seq<Version>, from: nat, to: nat, data: T) {
    exists k :: from <= k <= to && k < |vs| && vs[k].File? && parse(vs[k].content) == Some(data)
  }

  ghost predicate SameStat(v: Version, u: Version) {
    u.File? && HasStat(v, u.size, u.mtime)
  }

  /** A stat that comes back means that whatever was decodable since then is what the file holds again.
      True in particular when no (size, mtime) ever comes back. */
  ghost predicate Steady<T>(parse: string -> Option<T>, vs: seq<Version>) {
    forall i, k, j :: 0 <= i <= k < j < |vs| && SameStat(vs[i], vs[j]) && vs[k].File? && parse(vs[k].content).Some? ==>
      parse(vs[j].content) == parse(vs[k].content)
  }

  /** A cache entry is the parse of a version not older than the one whose stat it is keyed on. */
  ghost predicate Sound<T>(parse: string -> Option<T>, vs: seq<Version>, line: Line<T>) {
    exists v: nat :: v < |vs| && HasStat(vs[v], line.size, line.mtime) && HeldBetween(parse, vs, v, |vs| - 1, line.data)
  }

  ghost predicate ReaderSound<T>(parse: string -> Option<T>, vs: seq<Version>, r: Reader<T>) {
    match r.stage
    case Opened => true
    case Statted(size, mtime) => r.statAt < |vs| && HasStat(vs[r.statAt], size, mtime)
    case Missed(size, mtime) => r.statAt < |vs| && HasStat(vs[r.statAt], size, mtime)
    case HasRead(size, mtime, content) =>
      && r.statAt < |vs| && HasStat(vs[r.statAt], size, mtime)
      && exists k :: r.statAt <= k < |vs| && vs[k].File? && vs[k].content == content
    case Ended(result, endAt) =>
      r.statAt <= endAt < |vs| && (result.Some? ==> HeldBetween(parse, vs, r.statAt, endAt, result.value))
  }

  /** The entry and the lookups of one file. */
  ghost predicate SoundAt<T>(parse: string -> Option<T>, w: World<T>, path: string) {
    && (path in w.cache ==> Sound(parse, Versions(w, path), w.cache[path]))
    && (forall i :: 0 <= i < |w.readers| && w.readers[i].path == path ==> ReaderSound(parse, Versions(w, path), w.readers[i]))
  }

  lemma GrowthKeepsLine<T>(parse: string -> Option<T>, vs: seq<Version>, v: Version, line: Line<T>)
    requires Sound(parse, vs, line)
    ensures Sound(parse, vs + [v], line)
  {
    var i: nat :| i < |vs| && HasStat(vs[i], line.size, line.mtime) && HeldBetween(parse, vs, i, |vs| - 1, line.data);
    var k :| i <= k <= |vs| - 1 && vs[k].File? && parse(vs[k].content) == Some(line.data);
    assert (vs + [v])[i] == vs[i] && (vs + [v])[k] == vs[k];
    assert HeldBetween(parse, vs + [v], i, |vs|, line.data);
  }

  lemma GrowthKeepsReader<T>(parse: string -> Option<T>, vs: seq<Version>, v: Version, r: Reader<T>)
    requires ReaderSound(parse, vs, r)
    ensures ReaderSound(parse, vs + [v], r)
  {
    var vs' := vs + [v];
    if r.stage.HasRead? {
      var k :| r.statAt <= k < |vs| && vs[k].File? && vs[k].content == r.stage.content;
      assert vs'[k] == vs[k];
    } else if r.stage.Ended? && r.stage.result.Some? {
      var k :| r.statAt <= k <= r.stage.endAt && k < |vs| && vs[k].File? && parse(vs[k].content) == Some(r.stage.result.value);
      assert vs'[k] == vs[k];
    }
  }

  /** Why a hit is fresh enough: the entry's stat is the reader's stat, so what is cached was read since the
      reader's own stat, or what the file held at that stat is the same again. */
  lemma HitIsFresh<T>(parse: string -> Option<T>, vs: seq<Version>, line: Line<T>, statAt: nat)
    requires Steady(parse, vs) && Sound(parse, vs, line) && statAt < |vs| && HasStat(vs[statAt], line.size, line.mtime)
    ensures HeldBetween(parse, vs, statAt, |vs| - 1, line.data)
  {
    var v: nat :| v < |vs| && HasStat(vs[v], line.size, line.mtime) && HeldBetween(parse, vs, v, |vs| - 1, line.data);
    var k :| v <= k <= |vs| - 1 && k < |vs| && vs[k].File? && parse(vs[k].content) == Some(line.data);
    if k < statAt {
      assert SameStat(vs[v], vs[statAt]);
      assert parse(vs[statAt].content) == Some(line.data);
    }
  }

  /** What a lookup's own step does to it. */
  lemma ReaderMoves<T>(parse: string -> Option<T>, w: World<T>, e: Event)
    requires Enabled(w, e) && !e.Open? && !e.Write? && SoundAt(parse, w, w.readers[e.i].path)
    requires Steady(parse, Versions(w, w.readers[e.i].path))
    ensures ReaderSound(parse, Versions(w, w.readers[e.i].path), Happen(parse, w, e).readers[e.i])
  {
    var r := w.readers[e.i];
    var vs := Versions(w, r.path);
    assert ReaderSound(parse, vs, r);
    match e
    case Stat(i) =>
    case Lock(i) =>
      hide HeldBetween, Steady, Sound;
      if CacheLookup(w.cache, r.path, r.stage.size, r.stage.mtime).Some? {
        HitIsFresh(parse, vs, w.cache[r.path], r.statAt);
      }
    case Read(i) =>
      hide Steady, Sound;
    case Fill(i) =>
      hide Steady, Sound;
      if parse(r.stage.content).Some? { ReadIsHeld(parse, vs, r); }
  }

  lemma ReadIsHeld<T>(parse: string -> Option<T>, vs: seq<Version>, r: Reader<T>)
    requires r.stage.HasRead? && ReaderSound(parse, vs, r) && parse(r.stage.content).Some?
    ensures HeldBetween(parse, vs, r.statAt, |vs| - 1, parse(r.stage.content).value)
  {
    var k :| r.statAt <= k < |vs| && vs[k].File? && vs[k].content == r.stage.content;
  }

  /** What it does to the entry of its file. */
  lemma EntryMoves<T>(parse: string -> Option<T>, w: World<T>, e: Event)
    requires Enabled(w, e) && !e.Open? && !e.Write? && SoundAt(parse, w, w.readers[e.i].path)
    ensures var path, w' := w.readers[e.i].path, Happen(parse, w, e);
      path in w'.cache ==> Sound(parse, Versions(w, path), w'.cache[path])
  {
    var r := w.readers[e.i];
    var vs := Versions(w, r.path);
    assert ReaderSound(parse, vs, r);
    if e.Fill? && parse(r.stage.content).Some? {
      ReadIsHeld(parse, vs, r);
      assert Sound(parse, vs, Line(r.stage.size, r.stage.mtime, parse(r.stage.content).value));
    }
    hide HeldBetween, Sound;
  }

  /** What it leaves alone. */
  lemma ReaderMovesAlone<T>(parse: string -> Option<T>, w: World<T>, e: Event)
    requires Enabled(w, e) && !e.Open? && !e.Write?
    ensures var w' := Happen(parse, w, e);
      && w'.files == w.files && |w'.readers| == |w.readers| && w'.readers[e.i].path == w.readers[e.i].path
      && forall j :: 0 <= j < |w.readers| && j != e.i ==> w'.readers[j] == w.readers[j]
  {}

  lemma ReaderStepIsSound<T>(parse: string -> Option<T>, w: World<T>, e: Event)
    requires Enabled(w, e) && !e.Open? && !e.Write? && SoundAt(parse, w, w.readers[e.i].path)
    requires Steady(parse, Versions(w, w.readers[e.i].path))
    ensures SoundAt(parse, Happen(parse, w, e), w.readers[e.i].path)
  {
    ReaderMoves(parse, w, e);
    EntryMoves(parse, w, e);
    ReaderMovesAlone(parse, w, e);
    assert Versions(Happen(parse, w, e), w.readers[e.i].path) == Versions(w, w.readers[e.i].path);
    hide Happen, Sound, ReaderSound, Steady, Versions;
  }

  /** A step of another file's lookup, or a new lookup, leaves this file's entry and lookups alone. */
  lemma OtherStepIsSound<T>(parse: string -> Option<T>, w: World<T>, e: Event, path: string)
    requires SoundAt(parse, w, path) && Enabled(w, e) && !e.Write? && (!e.Open? ==> w.readers[e.i].path != path)
    ensures SoundAt(parse, Happen(parse, w, e), path)
  {
    var w' := Happen(parse, w, e);
    assert Versions(w', path) == Versions(w, path);
    hide Sound, CacheLookup, HeldBetween, HasStat;
  }

  lemma WriteIsSound<T>(parse: string -> Option<T>, w: World<T>, path: string, v: Version, at: string)
    requires SoundAt(parse, w, at)
    ensures SoundAt(parse, Happen(parse, w, Write(path, v)), at)
  {
    var w' := Happen(parse, w, Write(path, v));
    var vs, vs' := Versions(w, at), Versions(w', at);
    assert vs' == if path == at then vs + [v] else vs;
    if path == at {
      hide Versions, Sound, ReaderSound;
      if at in w.cache { GrowthKeepsLine(parse, vs, v, w.cache[at]); }
      forall i | 0 <= i < |w.readers| && w.readers[i].path == at ensures ReaderSound(parse, vs', w.readers[i]) {
        GrowthKeepsReader(parse, vs, v, w.readers[i]);
      }
    }
  }

  lemma StepIsSound<T>(parse: string -> Option<T>, w: World<T>, e: Event, path: string)
    requires SoundAt(parse, w, path) && Steady(parse, Versions(w, path))
    ensures SoundAt(parse, Happen(parse, w, e), path)
  {
    if e.Write? {
      WriteIsSound(parse, w, e.path, e.version, path);
    } else if Enabled(w, e) {
      if !e.Open? && w.readers[e.i].path == path {
        ReaderStepIsSound(parse, w, e);
      } else {
        OtherStepIsSound(parse, w, e, path);
      }
    }
    hide Happen, SoundAt, Steady;
  }

  lemma HistoryGrows<T>(parse: string -> Option<T>, w: World<T>, e: Event, path: string)
    ensures Versions(w, path) <= Versions(Happen(parse, w, e), path)
  {}

  lemma SteadyBefore<T>(parse: string -> Option<T>, vs: seq<Version>, us: seq<Version>)
    requires Steady(parse, us) && vs <= us
    ensures Steady(parse, vs)
  {
    forall i, k, j | 0 <= i <= k < j < |vs| && SameStat(vs[i], vs[j]) && vs[k].File? && parse(vs[k].content).Some?
      ensures parse(vs[j].content) == parse(vs[k].content)
    {
      assert us[i] == vs[i] && us[k] == vs[k] && us[j] == vs[j];
    }
  }

  lemma {:induction false} RunIsSound<T>(parse: string -> Option<T>, w: World<T>, events: seq<Event>, path: string)
    requires w.cache == map[] && w.readers == [] && Steady(parse, Versions(Run(parse, w, events), path))
    ensures SoundAt(parse, Run(parse, w, events), path)
  {
    if events != [] {
      var init, e := events[..|events| - 1], events[|events| - 1];
      HistoryGrows(parse, Run(parse, w, init), e, path);
      SteadyBefore(parse, Versions(Run(parse, w, init), path), Versions(Run(parse, w, events), path));
      RunIsSound(parse, w, init, path);
      StepIsSound(parse, Run(parse, w, init), e, path);
    }
  }

  /** Every finished lookup of the file returned the parse of a version current at some instant from its stat
      to its return. */
  ghost predicate Linear<T>(parse: string -> Option<T>, w: World<T>, path: string) {
    forall i :: 0 <= i < |w.readers| && w.readers[i].path == path && w.readers[i].stage.Ended? && w.readers[i].stage.result.Some? ==>
      HeldBetween(parse, Versions(w, path), w.readers[i].statAt, w.readers[i].stage.endAt, w.readers[i].stage.result.value)
  }

  /** Cache linearizability. Files change at any moment, any number of requests look up and fill the
      cache, and the file may change between a request's stat and its read. As long as the history of
      a file is steady, every template returned for it is the parse of a version that was current at
      some instant from that request's stat to its return. */
  lemma CacheIsLinearizable<T>(parse: string -> Option<T>, files: map<string, seq<Version>>, events: seq<Event>, path: string)
    requires Steady(parse, Versions(Run(parse, World(files, map[], None, []), events), path))
    ensures Linear(parse, Run(parse, World(files, map[], None, []), events), path)
  {
    RunIsSound(parse, World(files, map[], None, []), events, path);
    var w := Run(parse, World(files, map[], None, []), events);
    hide Run;
    forall i | 0 <= i < |w.readers| && w.readers[i].path == path && w.readers[i].stage.Ended? && w.readers[i].stage.result.Some?
      ensures HeldBetween(parse, Versions(w, path), w.readers[i].statAt, w.readers[i].stage.endAt, w.readers[i].stage.result.value)
    {
      assert ReaderSound(parse, Versions(w, path), w.readers[i]);
    }
  }

  // ---- the condition is exact ----

  lemma {:induction false} RunAppend<T>(parse: string -> Option<T>, w: World<T>, first: seq<Event>, more: seq<Event>)
    ensures Run(parse, w, first + more) == Run(parse, Run(parse, w, first), more)
  {
    if more == [] {
      assert first + more == first;
    } else {
      var init := more[..|more| - 1];
      assert (first + more)[..|first + more| - 1] == first + init;
      RunAppend(parse, w, first, init);
    }
  }

  function Writes(path: string, vs: seq<Version>): seq<Event> {
    if vs == [] then [] else Writes(path, vs[..|vs| - 1]) + [Write(path, vs[|vs| - 1])]
  }

  lemma RunOn<T>(parse: string -> Option<T>, w: World<T>, events: seq<Event>, e: Event)
    ensures Run(parse, w, events + [e]) == Happen(parse, Run(parse, w, events), e)
  {
    assert (events + [e])[..|events|] == events;
  }

  function OneFile<T>(path: string, vs: seq<Version>, cache: Cache<T>, readers: seq<Reader<T>>): World<T> {
    World(map[path := vs], cache, None, readers)
  }

  lemma Then<T>(parse: string -> Option<T>, start: World<T>, before: seq<Event>, more: seq<Event>, w: World<T>, w': World<T>)
    requires Run(parse, start, before) == w && Run(parse, w, more) == w'
    ensures Run(parse, start, before + more) == w'
  {
    RunAppend(parse, start, before, more);
  }

  /** A lookup begins at the current version. */
  lemma LookupBegins<T>(parse: string -> Option<T>, path: string, vs: seq<Version>, cache: Cache<T>, readers: seq<Reader<T>>)
    requires vs != [] && vs[|vs| - 1].File?
    ensures var v := vs[|vs| - 1];
      Run(parse, OneFile(path, vs, cache, readers), [Open(path), Stat(|readers|)]) ==
      OneFile(path, vs, cache, readers + [Reader(path, |vs| - 1, Statted(v.size, v.mtime))])
  {
    var v, i := vs[|vs| - 1], |readers|;
    var w := OneFile(path, vs, cache, readers);
    var w1 := OneFile(path, vs, cache, readers + [Reader(path, 0, Opened)]);
    assert Happen(parse, w, Open(path)) == w1;
    assert Versions(w1, path) == vs;
    assert w1.readers[i := Reader(path, |vs| - 1, Statted(v.size, v.mtime))] == readers + [Reader(path, |vs| - 1, Statted(v.size, v.mtime))];
    assert Happen(parse, w1, Stat(i)) == OneFile(path, vs, cache, readers + [Reader(path, |vs| - 1, Statted(v.size, v.mtime))]);
    TwoEvents(parse, w, Open(path), Stat(i));
  }

  lemma TwoEvents<T>(parse: string -> Option<T>, w: World<T>, d: Event, e: Event)
    ensures Run(parse, w, [d, e]) == Happen(parse, Happen(parse, w, d), e)
  {
    assert [d, e][..1] == [d] && [d][..0] == [];
    assert Run(parse, w, [d]) == Happen(parse, w, d);
    hide Happen;
  }

  lemma ThreeEvents<T>(parse: string -> Option<T>, w: World<T>, c: Event, d: Event, e: Event)
    ensures Run(parse, w, [c, d, e]) == Happen(parse, Happen(parse, Happen(parse, w, c), d), e)
  {
    assert [c, d, e][..2] == [c, d];
    TwoEvents(parse, w, c, d);
    hide Happen;
  }

  /** The first lookup misses and caches what the file holds by then, under the stat it began with. */
  lemma FirstLookupFills<T>(parse: string -> Option<T>, path: string, vs: seq<Version>, statAt: nat, size: int, mtime: int)
    requires vs != [] && vs[|vs| - 1].File? && parse(vs[|vs| - 1].content).Some?
    ensures var data := parse(vs[|vs| - 1].content);
      Run(parse, OneFile(path, vs, map[], [Reader(path, statAt, Statted(size, mtime))]), [Lock(0), Read(0), Fill(0)]) ==
      OneFile(path, vs, map[path := Line(size, mtime, data.value)], [Reader(path, statAt, Ended(data, |vs| - 1))])
  {
    var text := vs[|vs| - 1].content;
    var w := OneFile(path, vs, map[], [Reader(path, statAt, Statted(size, mtime))]);
    var w1 := w.(readers := [Reader(path, statAt, Missed(size, mtime))], holder := Some(0));
    var w2 := w.(readers := [Reader(path, statAt, HasRead(size, mtime, text))], holder := Some(0));
    assert Versions(w, path) == vs && Versions(w1, path) == vs && Versions(w2, path) == vs;
    assert Happen(parse, w, Lock(0)) == w1;
    assert Happen(parse, w1, Read(0)) == w2;
    ThreeEvents(parse, w, Lock(0), Read(0), Fill(0));
  }

  /** A second lookup with the same stat is served from the cache, whatever the file holds. */
  lemma SecondLookupHits<T>(parse: string -> Option<T>, path: string, vs: seq<Version>, line: Line<T>, first: Reader<T>, statAt: nat)
    requires vs != []
    ensures Run(parse, OneFile(path, vs, map[path := line], [first, Reader(path, statAt, Statted(line.size, line.mtime))]), [Lock(1)]) ==
            OneFile(path, vs, map[path := line], [first, Reader(path, statAt, Ended(Some(line.data), |vs| - 1))])
  {
    var w := OneFile(path, vs, map[path := line], [first, Reader(path, statAt, Statted(line.size, line.mtime))]);
    assert Versions(w, path) == vs;
    assert [Lock(1)][..0] == [];
    assert Run(parse, w, [Lock(1)]) == Happen(parse, w, Lock(1));
  }

  lemma FileGrowsOnce<T>(parse: string -> Option<T>, path: string, vs: seq<Version>, v: Version, cache: Cache<T>, readers: seq<Reader<T>>)
    requires vs != []
    ensures Happen(parse, OneFile(path, vs, cache, readers), Write(path, v)) == OneFile(path, vs + [v], cache, readers)
  {
    var w := OneFile(path, vs, cache, readers);
    assert w.files[path := vs + [v]] == map[path := vs + [v]];
  }

  /** The file is written on, whatever stage lookups are in. */
  lemma {:induction false} FileGrowsBy<T>(parse: string -> Option<T>, path: string, vs: seq<Version>, more: seq<Version>,
                                          cache: Cache<T>, readers: seq<Reader<T>>)
    requires vs != []
    ensures Run(parse, OneFile(path, vs, cache, readers), Writes(path, more)) == OneFile(path, vs + more, cache, readers)
  {
    if more == [] {
      assert vs + more == vs;
    } else {
      var init, v := more[..|more| - 1], more[|more| - 1];
      assert vs + more == vs + init + [v];
      assert Writes(path, more) == Writes(path, init) + [Write(path, v)];
      hide Run, Happen, Writes, OneFile;
      FileGrowsBy(parse, path, vs, init, cache, readers);
      FileGrowsOnce(parse, path, vs + init, v, cache, readers);
      RunOn(parse, OneFile(path, vs, cache, readers), Writes(path, init), Write(path, v));
    }
  }

  lemma FileGrows<T>(parse: string -> Option<T>, path: string, vs: seq<Version>, from: nat, to: nat, cache: Cache<T>, readers: seq<Reader<T>>)
    requires 0 < from <= to <= |vs|
    ensures Run(parse, OneFile(path, vs[..from], cache, readers), Writes(path, vs[from..to])) == OneFile(path, vs[..to], cache, readers)
  {
    hide Run, Writes, OneFile;
    assert vs[..to] == vs[..from] + vs[from..to];
    FileGrowsBy(parse, path, vs[..from], vs[from..to], cache, readers);
  }

  /** Up to the moment the first lookup has cached version k under the stat of version i. */
  lemma StaleFill<T>(parse: string -> Option<T>, path: string, vs: seq<Version>, i: nat, k: nat) returns (events: seq<Event>)
    requires i <= k < |vs| && vs[i].File? && vs[k].File? && parse(vs[k].content).Some?
    ensures var data := parse(vs[k].content);
      Run(parse, OneFile(path, vs[..1], map[], []), events) ==
      OneFile(path, vs[..k + 1], map[path := Line(vs[i].size, vs[i].mtime, data.value)], [Reader(path, i, Ended(data, k))])
  {
    hide Run, OneFile, Writes;
    var start: World<T> := OneFile(path, vs[..1], map[], []);
    var a := Writes(path, vs[1..i + 1]);
    FileGrows(parse, path, vs, 1, i + 1, map[], []);
    LookupBegins(parse, path, vs[..i + 1], map[], []);
    var begun := [Reader(path, i, Statted(vs[i].size, vs[i].mtime))];
    assert [] + begun == begun;
    Then(parse, start, a, [Open(path), Stat(0)], OneFile(path, vs[..i + 1], map[], []), OneFile(path, vs[..i + 1], map[], begun));
    var b := a + [Open(path), Stat(0)];
    FileGrows(parse, path, vs, i + 1, k + 1, map[], begun);
    Then(parse, start, b, Writes(path, vs[i + 1..k + 1]), OneFile(path, vs[..i + 1], map[], begun), OneFile(path, vs[..k + 1], map[], begun));
    var c := b + Writes(path, vs[i + 1..k + 1]);
    FirstLookupFills(parse, path, vs[..k + 1], i, vs[i].size, vs[i].mtime);
    RunAppend(parse, start, c, [Lock(0), Read(0), Fill(0)]);
    events := c + [Lock(0), Read(0), Fill(0)];
  }

  /** If an old stat comes back at version j over text that decodes to something else than version k did
      in between, then there are writes and two lookups through exactly this history in which the
      second lookup, begun and ended at version j, is served version k. */
  lemma UnsteadyServesStale<T>(parse: string -> Option<T>, path: string, vs: seq<Version>, i: nat, k: nat, j: nat)
    returns (events: seq<Event>)
    requires i <= k < j < |vs| && SameStat(vs[i], vs[j]) && vs[k].File? && parse(vs[k].content).Some?
    requires parse(vs[j].content) != parse(vs[k].content)
    ensures var w := Run(parse, OneFile(path, vs[..1], map[], []), events);
      && Versions(w, path) == vs
      && |w.readers| == 2 && w.readers[1] == Reader(path, j, Ended(parse(vs[k].content), j))
      && !Linear(parse, w, path)
  {
    hide Run, Linear, Versions, HeldBetween;
    var start: World<T> := OneFile(path, vs[..1], map[], []);
    var c := StaleFill(parse, path, vs, i, k);
    var d := StaleHit(parse, path, vs, i, k, j);
    events := c + d;
    RunAppend(parse, start, c, d);
    StaleIsNotLinear(parse, path, vs, Run(parse, start, events), j, parse(vs[k].content));
  }

  lemma StaleIsNotLinear<T>(parse: string -> Option<T>, path: string, vs: seq<Version>, w: World<T>, j: nat, data: Option<T>)
    requires j < |vs| && vs[j].File? && data.Some? && parse(vs[j].content) != data
    requires w.files == map[path := vs] && |w.readers| == 2 && w.readers[1] == Reader(path, j, Ended(data, j))
    ensures Versions(w, path) == vs && !Linear(parse, w, path)
  {
    assert w.readers[1].path == path && w.readers[1].stage.Ended?;
    assert !HeldBetween(parse, vs, j, j, data.value);
  }

  /** From there on: a second lookup at version j, and the rest of the history. */
  lemma StaleHit<T>(parse: string -> Option<T>, path: string, vs: seq<Version>, i: nat, k: nat, j: nat) returns (events: seq<Event>)
    requires i <= k < j < |vs| && SameStat(vs[i], vs[j]) && vs[k].File? && parse(vs[k].content).Some?
    ensures var data := parse(vs[k].content);
      var cache, first := map[path := Line(vs[i].size, vs[i].mtime, data.value)], Reader(path, i, Ended(data, k));
      Run(parse, OneFile(path, vs[..k + 1], cache, [first]), events) ==
      OneFile(path, vs, cache, [first, Reader(path, j, Ended(data, j))])
  {
    hide Run, OneFile, Writes;
    var data := parse(vs[k].content);
    var line := Line(vs[i].size, vs[i].mtime, data.value);
    var cache, first := map[path := line], Reader(path, i, Ended(data, k));
    var start := OneFile(path, vs[..k + 1], cache, [first]);
    var a := Writes(path, vs[k + 1..j + 1]);
    FileGrows(parse, path, vs, k + 1, j + 1, cache, [first]);
    LookupBegins(parse, path, vs[..j + 1], cache, [first]);
    var begun := [first, Reader(path, j, Statted(line.size, line.mtime))];
    assert [first] + [Reader(path, j, Statted(line.size, line.mtime))] == begun;
    Then(parse, start, a, [Open(path), Stat(1)], OneFile(path, vs[..j + 1], cache, [first]), OneFile(path, vs[..j + 1], cache, begun));
    var b := a + [Open(path), Stat(1)];
    SecondLookupHits(parse, path, vs[..j + 1], line, first, j);
    var ended := [first, Reader(path, j, Ended(data, j))];
    Then(parse, start, b, [Lock(1)], OneFile(path, vs[..j + 1], cache, begun), OneFile(path, vs[..j + 1], cache, ended));
    var c := b + [Lock(1)];
    assert vs[..|vs|] == vs;
    FileGrows(parse, path, vs, j + 1, |vs|, cache, ended);
    Then(parse, start, c, Writes(path, vs[j + 1..|vs|]), OneFile(path, vs[..j + 1], cache, ended), OneFile(path, vs, cache, ended));
    events := c + Writes(path, vs[j + 1..|vs|]);
  }

  /** The condition is exact: a history is steady if and only if every schedule of writes and lookups that
      takes the file through it is linearizable. */
  lemma LinearizableExactly<T>(parse: string -> Option<T>, path: string, vs: seq<Version>)
    requires vs != []
    ensures Steady(parse, vs) <==>
      forall events :: Versions(Run(parse, OneFile(path, vs[..1], map[], []), events), path) == vs ==>
        Linear(parse, Run(parse, OneFile(path, vs[..1], map[], []), events), path)
  {
    hide Run, Linear, Versions;
    if Steady(parse, vs) {
      forall events | Versions(Run(parse, OneFile(path, vs[..1], map[], []), events), path) == vs
        ensures Linear(parse, Run(parse, OneFile(path, vs[..1], map[], []), events), path)
      {
        CacheIsLinearizable(parse, map[path := vs[..1]], events, path);
      }
    } else {
      var i, k, j :| 0 <= i <= k < j < |vs| && SameStat(vs[i], vs[j]) && vs[k].File? && parse(vs[k].content).Some? &&
        parse(vs[j].content) != parse(vs[k].content);
      var events := UnsteadyServesStale(parse, path, vs, i, k, j);
    }
  }

  /** Never giving a (size, mtime) twice is enough, and not needed. */
  lemma FreshStatsAreSteady<T>(parse: string -> Option<T>, vs: seq<Version>)
    requires forall i, j :: 0 <= i < j < |vs| ==> !SameStat(vs[i], vs[j])
    ensures Steady(parse, vs)
  {}
}
