/** The mounted template directory: listing, stat and read, changing under the server's feet
    (config-server/handler.go, config-server/owner_access.go). */
module Directory {

  /** `Unreadable` can be stat'ed but not read, like a link to a directory. */
  datatype Node =
    | RegularFile(content: string, size: int, mtime: int)
    | Folder(size: int, mtime: int)
    | Unreadable(size: int, mtime: int)
    | DanglingLink
    | Unstatable

  datatype DirEntry = DirEntry(name: string, node: Node)

  type Snapshot = seq<DirEntry>

  datatype StatResult = NotThere | StatFailed | Info(size: int, mtime: int)

  datatype ReadResult = Content(text: string) | ReadFailed

  function Find(dir: Snapshot, name: string): Node {
    if dir == [] then DanglingLink
    else if dir[|dir| - 1].name == name then dir[|dir| - 1].node
    else Find(dir[..|dir| - 1], name)
  }

  function StatOf(node: Node): StatResult {
    match node
    case RegularFile(_, size, mtime) => Info(size, mtime)
    case Folder(size, mtime) => Info(size, mtime)
    case Unreadable(size, mtime) => Info(size, mtime)
    case DanglingLink => NotThere
    case Unstatable => StatFailed
  }

  function ContentOf(node: Node): ReadResult {
    if node.RegularFile? then Content(node.content) else ReadFailed
  }

  lemma {:induction false} FoundIsListed(dir: Snapshot, name: string)
    ensures Find(dir, name) != DanglingLink ==> DirEntry(name, Find(dir, name)) in dir
  {
    if dir != [] && dir[|dir| - 1].name != name {
      FoundIsListed(dir[..|dir| - 1], name);
    }
  }

  /** Each access sees the directory as the script, an arbitrary sequence of later snapshots, has it. */
  class Mount {
    var now: Snapshot
    var script: seq<Snapshot>
    /** Whether the directory can be listed at all. */
    const listable: bool
    /** Every snapshot an access has seen so far. */
    ghost var past: seq<Snapshot>

    constructor (now: Snapshot, script: seq<Snapshot>, listable: bool)
      ensures this.now == now && this.script == script && this.listable == listable && past == []
    {
      this.now, this.script, this.listable, past := now, script, listable, [];
    }

    method Pass()
      modifies this
      ensures (old(script) == [] ==> now == old(now) && script == []) && past == old(past) + [now]
      ensures old(script) != [] ==> now == old(script)[0] && script == old(script)[1..]
    {
      if |script| > 0 {
        now := script[0];
        script := script[1..];
      }
      past := past + [now];
    }

    method Stat(name: string) returns (r: StatResult)
      modifies this
      ensures r == StatOf(Find(now, name))
      ensures (old(script) == [] ==> now == old(now) && script == []) && past == old(past) + [now]
    {
      Pass();
      r := StatOf(Find(now, name));
    }

    method ReadDir() returns (entries: Snapshot, ok: bool)
      modifies this
      ensures ok == listable && entries == now
      ensures (old(script) == [] ==> now == old(now) && script == []) && past == old(past) + [now]
    {
      Pass();
      entries, ok := now, listable;
    }

    method ReadFile(name: string) returns (r: ReadResult)
      modifies this
      ensures r == ContentOf(Find(now, name))
      ensures (old(script) == [] ==> now == old(now) && script == []) && past == old(past) + [now]
    {
      Pass();
      r := ContentOf(Find(now, name));
    }
  }
}
