/** The part of the Kubernetes API the config server relies on: named objects with a unique id and
    a resource version, optimistic concurrency, and calls that can fail.

    A `Turn` is everything the rest of the cluster does just before one call is served. It is an
    arbitrary list of other writers' actions together with a possible fault, so a fact proved for
    every script of turns is a fact about every interleaving of one request with the others. */
module KubeApi {

  datatype Obj<+C> = Obj(uid: nat, version: nat, content: C)

  /** `clock` exceeds every uid and resource version handed out so far. */
  datatype Store<K(==), C> = Store(objs: map<K, Obj<C>>, clock: nat)

  datatype Call<K, C> =
    | Get(key: K)
    | Create(key: K, content: C)
    | Update(key: K, version: nat, content: C)

  datatype Reply<+C> = Found(obj: Obj<C>) | Missing | AlreadyExists | Conflict | Failed

  /** A request can be lost before it takes effect or its answer can be lost afterwards; the
      caller sees the same error. */
  datatype Fault = NoFault | LostRequest | LostReply

  datatype Act<K, C> = Delete(key: K) | Put(key: K, content: C)

  datatype Turn<K, C> = Turn(acts: seq<Act<K, C>>, fault: Fault)

  ghost predicate WellFormed<K(!new), C>(s: Store<K, C>) {
    && (forall k :: k in s.objs ==> s.objs[k].uid < s.clock && s.objs[k].version < s.clock)
    && (forall j, k :: j in s.objs && k in s.objs && j != k ==> s.objs[j].uid != s.objs[k].uid)
  }

  function Add<K(==), C>(s: Store<K, C>, key: K, content: C): Store<K, C> {
    Store(s.objs[key := Obj(s.clock, s.clock, content)], s.clock + 1)
  }

  function Change<K(==), C>(s: Store<K, C>, key: K, content: C): Store<K, C>
    requires key in s.objs
  {
    Store(s.objs[key := Obj(s.objs[key].uid, s.clock, content)], s.clock + 1)
  }

  function Serve<K(==), C>(s: Store<K, C>, c: Call<K, C>): (Store<K, C>, Reply<C>) {
    match c
    case Get(key) =>
      (s, if key in s.objs then Found(s.objs[key]) else Missing)
    case Create(key, content) =>
      if key in s.objs then (s, AlreadyExists)
      else var s' := Add(s, key, content); (s', Found(s'.objs[key]))
    case Update(key, version, content) =>
      if key !in s.objs then (s, Missing)
      else if s.objs[key].version != version then (s, Conflict)
      else var s' := Change(s, key, content); (s', Found(s'.objs[key]))
  }

  function ServeWithFault<K(==), C>(s: Store<K, C>, fault: Fault, c: Call<K, C>): (Store<K, C>, Reply<C>) {
    match fault
    case NoFault => Serve(s, c)
    case LostRequest => (s, Failed)
    case LostReply => (Serve(s, c).0, Failed)
  }

  /** What another writer can do: remove an object, change one, or make one. */
  function Perform<K(==), C>(s: Store<K, C>, a: Act<K, C>): Store<K, C> {
    match a
    case Delete(key) => s.(objs := s.objs - {key})
    case Put(key, content) => if key in s.objs then Change(s, key, content) else Add(s, key, content)
  }

  function PerformAll<K(==), C>(s: Store<K, C>, acts: seq<Act<K, C>>): Store<K, C>
    decreases |acts|
  {
    if acts == [] then s else PerformAll(Perform(s, acts[0]), acts[1..])
  }

  function FirstTurn<K, C>(script: seq<Turn<K, C>>): Turn<K, C> {
    if |script| == 0 then Turn([], NoFault) else script[0]
  }

  function LaterTurns<K, C>(script: seq<Turn<K, C>>): seq<Turn<K, C>> {
    if |script| == 0 then [] else script[1..]
  }

  function ServeTurn<K(==), C>(s: Store<K, C>, t: Turn<K, C>, c: Call<K, C>): (Store<K, C>, Reply<C>) {
    ServeWithFault(PerformAll(s, t.acts), t.fault, c)
  }

  lemma ServePreservesWellFormed<K(!new), C>(s: Store<K, C>, fault: Fault, c: Call<K, C>)
    requires WellFormed(s)
    ensures var (s', r) := ServeWithFault(s, fault, c);
      && WellFormed(s') && s.clock <= s'.clock
      && (r.Found? ==> r.obj.uid < s'.clock && c.key in s'.objs && s'.objs[c.key] == r.obj)
  {}

  lemma PerformPreservesWellFormed<K(!new), C>(s: Store<K, C>, a: Act<K, C>)
    requires WellFormed(s)
    ensures WellFormed(Perform(s, a)) && s.clock <= Perform(s, a).clock
  {}

  /** One request's connection to the API server, with the turns still to come. */
  class Server<K(==), C> {
    var store: Store<K, C>
    var script: seq<Turn<K, C>>
    var calls: nat

    constructor (store: Store<K, C>, script: seq<Turn<K, C>>)
      ensures this.store == store && this.script == script && calls == 0
    {
      this.store, this.script, calls := store, script, 0;
    }

    method Do(c: Call<K, C>) returns (reply: Reply<C>)
      modifies this
      ensures script == LaterTurns(old(script)) && calls == old(calls) + 1
      ensures (store, reply) == ServeTurn(old(store), FirstTurn(old(script)), c)
    {
      var turn := FirstTurn(script);
      script := LaterTurns(script);
      calls := calls + 1;
      var (store', r) := ServeTurn(store, turn, c);
      store, reply := store', r;
    }
  }
}
