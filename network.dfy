/** The engine's node map seen as a network: its value (the node states
    and the wiring), the invariant the engine keeps of it, and the two loops
    of Engine.tick (src/Engine.ts) run over it. */
module Networks {
  import opened Wrappers
  import opened Seqs
  import opened Catalog
  import Graph
  import NR = NodeRules
  import ER = EngineRules
  import opened Nodes

  /** Every node's own state. */
  function Cores(world: map<string, Node>): (cs: ER.Cores)
    reads world.Values`recipeName, world.Values`progress, world.Values`resources
    ensures cs.Keys == world.Keys
    ensures forall id | id in world :: cs[id] == world[id].Core()
  {
    map id | id in world :: world[id].Core()
  }

  /** What each node runs on: fixed when the node is made. */
  function Defs(world: map<string, Node>): (d: ER.Defs)
    ensures d.Keys == world.Keys
  {
    map id | id in world :: ER.Def(world[id].book, world[id].info)
  }

  /** The network as a value. */
  function View(world: map<string, Node>): ER.World
    reads world.Values`recipeName, world.Values`progress, world.Values`resources
    reads world.Values`inputs, world.Values`outputs
  {
    ER.World(Cores(world), Links(world))
  }

  /** A sound world is a coherent network. */
  lemma SoundCoherent(world: map<string, Node>)
    requires Sound(world)
    ensures ER.Coherent(Defs(world), View(world))
  {
  }

  /** A closed world whose network is coherent, and whose nodes each carry
      their own type's definition, is sound. */
  lemma CoherentSound(world: map<string, Node>)
    requires Closed(world) && forall id | id in world :: world[id].info.key == world[id].nodeType
    requires ER.Coherent(Defs(world), View(world))
    ensures Sound(world)
  {
    forall id | id in world ensures world[id].Valid() {
      assert ER.Fine(Defs(world), View(world), id);
      assert Cores(world)[id] == world[id].Core();
    }
  }

  // ---- tick ----------------------------------------------------------------

  /** Each node carries the definition of its own type. */
  predicate Typed(world: map<string, Node>) {
    forall id | id in world :: world[id].info.key == world[id].nodeType
  }

  /** A node of a coherent, closed, typed world is valid. */
  lemma CoherentValid(world: map<string, Node>, id: string)
    requires Closed(world) && Typed(world) && id in world
    requires ER.Coherent(Defs(world), View(world))
    ensures world[id].Valid() && Graph.Valid(Links(world))
  {
    assert ER.Fine(Defs(world), View(world), id);
    assert Cores(world)[id] == world[id].Core();
  }

  /** node.tick() of the node filed under id, on the whole network. */
  method TickOne(world: map<string, Node>, id: string)
    requires Closed(world) && Typed(world) && id in world
    requires ER.Coherent(Defs(world), View(world))
    modifies world.Values`resources, world.Values`inputs, world.Values`outputs
    modifies world.Values`recipeName, world.Values`progress
    ensures ER.Coherent(Defs(world), View(world))
    ensures View(world) == ER.TickNode(Defs(world), old(View(world)), id)
  {
    var n := world[id];
    CoherentValid(world, id);
    n.ValidIsWired(world);
    ghost var w0 := View(world);
    ghost var d := Defs(world);
    SnapshotIsStocks(world);
    TickStep(world, n);
    SnapshotIsStocks(world);
    assert ER.Fine(d, w0, id);
    ER.TickNodeAfter(d, w0, id, Cores(world), Links(world));
    ER.TickNodeCoherent(d, w0, id);
  }

  /** node.tick(), with what it leaves alone in the other nodes. */
  method TickStep(world: map<string, Node>, n: Node)
    requires Closed(world) && n.In(world) && Graph.Valid(Links(world)) && n.Valid() && n.Wired(world)
    modifies world.Values`resources, world.Values`inputs, world.Values`outputs
    modifies n`recipeName, n`progress
    ensures var s := NR.TickPull(n.book, n.info, old(Snapshot(world)), n.uuid, old(n.inputs), old(n.Core()));
      var p := NR.Process(n.book, n.info, old(n.Core()).(resources := s[n.uuid]));
      && n.Core() == p.core
      && Snapshot(world) == s[n.uuid := p.core.resources]
      && Links(world) == (if p.built then Graph.Clear(old(Links(world)), n.uuid) else old(Links(world)))
    ensures forall x | x in world && x != n.uuid ::
      world[x].recipeName == old(world[x].recipeName) && world[x].progress == old(world[x].progress)
  {
    n.Tick(world);
  }

  /** The ledgers of a world are its nodes' states' ledgers. */
  lemma SnapshotIsStocks(world: map<string, Node>)
    ensures Snapshot(world) == ER.Stocks(Cores(world))
  {
  }

  /** Engine.tick's first loop: every node of ids ticks in turn. */
  method TickEach(world: map<string, Node>, ids: seq<string>)
    requires Closed(world) && Typed(world) && ER.Coherent(Defs(world), View(world))
    requires forall id | id in ids :: id in world
    modifies world.Values`resources, world.Values`inputs, world.Values`outputs
    modifies world.Values`recipeName, world.Values`progress
    ensures ER.Coherent(Defs(world), View(world))
    ensures View(world) == ER.TickAll(Defs(world), old(View(world)), ids)
  {
    var i := 0;
    while i < |ids|
      invariant 0 <= i <= |ids|
      invariant ER.Coherent(Defs(world), View(world))
      invariant ER.TickAll(Defs(world), View(world), ids[i..]) == ER.TickAll(Defs(world), old(View(world)), ids)
    {
      assert ids[i..][1..] == ids[i + 1..];
      TickOne(world, ids[i]);
      i := i + 1;
    }
  }

  /** n was made from the library, for n's own type. */
  predicate Issued(n: Node, lib: Library) {
    n.book == lib.book && n.nodeType in lib.kinds && lib.kinds[n.nodeType] == n.info
  }

  /** What the engine keeps true of its node map and its insertion order:
      every node is filed under its uuid and carries its own type's
      definition from the data file, the network is coherent (so sound, by
      CoherentSound), and the order lists each node once. */
  ghost predicate Net(world: map<string, Node>, ids: seq<string>, lib: Library)
    reads world.Values`recipeName, world.Values`progress, world.Values`resources
    reads world.Values`inputs, world.Values`outputs
  {
    && Closed(world) && Typed(world) && ER.Coherent(Defs(world), View(world))
    && Distinct(ids) && (forall id | id in ids :: id in world) && (forall id | id in world :: id in ids)
    && forall id {:trigger Issued(world[id], lib)} | id in world :: Issued(world[id], lib)
  }

  /** Engine.tick on its network: both loops. */
  method TickNet(world: map<string, Node>, ids: seq<string>, lib: Library, seen: set<string>) returns (r: set<string>)
    requires Net(world, ids, lib)
    modifies world.Values`resources, world.Values`inputs, world.Values`outputs
    modifies world.Values`recipeName, world.Values`progress
    ensures Net(world, ids, lib)
    ensures View(world) == ER.TickAll(Defs(world), old(View(world)), ids)
    ensures r == seen + ER.Revealed(Snapshot(world), world.Keys)
  {
    TickEach(world, ids);
    r := RevealWorld(world, ids, seen);
  }

  /** Net and the network's value read the node states only, so a step
      that leaves those states alone keeps both. */
  twostate lemma NetKept(world: map<string, Node>, new ids: seq<string>, new lib: Library)
    requires unchanged(world.Values)
    ensures Net(world, ids, lib) == old(Net(world, ids, lib))
    ensures View(world) == old(View(world)) && Snapshot(world) == old(Snapshot(world))
  {
  }

  /** tick's second loop, on the network; it changes nothing in it. */
  method RevealWorld(world: map<string, Node>, ids: seq<string>, seen: set<string>) returns (r: set<string>)
    requires forall id | id in ids :: id in world
    requires forall id | id in world :: id in ids
    ensures r == seen + ER.Revealed(Snapshot(world), world.Keys)
    ensures View(world) == old(View(world))
  {
    r := Reveal(Snapshot(world), ids, seen);
    assert (set id | id in ids) == world.Keys;
  }

  /** tick's second loop: every key that a node of ids holds a positive
      amount of joins the seen set. */
  method Reveal(s: NR.Stocks, ids: seq<string>, seen: set<string>) returns (r: set<string>)
    ensures r == seen + ER.Revealed(s, set id | id in ids)
  {
    r := seen;
    var i := 0;
    while i < |ids|
      invariant 0 <= i <= |ids|
      invariant r == seen + ER.Revealed(s, set id | id in ids[..i])
    {
      ghost var done := ids[..i + 1];
      assert done == ids[..i] + [ids[i]];
      assert (set id | id in done) == (set id | id in ids[..i]) + {ids[i]};
      if ids[i] in s {
        r := RevealNode(s, ids[i], r);
      }
      i := i + 1;
    }
    assert ids[..i] == ids;
  }

  /** The inner loop, over one node's ledger. */
  method RevealNode(s: NR.Stocks, id: string, seen: set<string>) returns (r: set<string>)
    requires id in s
    ensures r == seen + ER.Revealed(s, {id})
  {
    r := seen;
    var stock := s[id];
    var todo := stock.Keys;
    while todo != {}
      invariant todo <= stock.Keys
      invariant r == seen + set k | k in stock && k !in todo && stock[k].amount > 0.0
      decreases todo
    {
      var k :| k in todo;
      if k !in r && stock[k].amount > 0.0 {
        r := r + {k};
      }
      todo := todo - {k};
    }
  }

  // ---- fromJson and the delete key --------------------------------------------

  /** A node made from the data file for its type, and consistent. */
  ghost predicate Built(n: Node, lib: Library)
    reads n`recipeName, n`progress, n`resources
  {
    Issued(n, lib) && n.Valid()
  }

  /** The node got the saved entry's type and position. */
  predicate Placed(n: Node, e: ER.NodeJson)
    reads n`x, n`y
  {
    n.nodeType == e.nodeType && n.x == e.node.x && n.y == e.node.y
  }

  /** Every node of the world is built. */
  ghost predicate AllBuilt(world: map<string, Node>, lib: Library)
    reads world.Values`recipeName, world.Values`progress, world.Values`resources
  {
    forall id {:trigger Built(world[id], lib)} | id in world :: Built(world[id], lib)
  }

  /** What the first pass keeps of the nodes it has made: they are filed
      under their uuids and built, and none has a connection yet. */
  ghost predicate Loaded(world: map<string, Node>, lib: Library)
    reads world.Values`recipeName, world.Values`progress, world.Values`resources
    reads world.Values`inputs, world.Values`outputs
  {
    Closed(world) && Links(world) == ER.Unlinked(world.Keys) && AllBuilt(world, lib)
  }

  /** The node states read fields that wiring and unwiring do not touch. */
  twostate lemma CoresKept(world: map<string, Node>)
    requires unchanged(world.Values`recipeName, world.Values`progress, world.Values`resources)
    ensures Cores(world) == old(Cores(world))
  {
  }

  /** Taking a node out of the map takes it out of every view of the map. */
  lemma Dropped(world: map<string, Node>, id: string)
    ensures var rest := world - {id};
      && Cores(rest) == Cores(world) - {id} && Links(rest) == Links(world) - {id}
      && Defs(rest) == Defs(world) - {id}
  {
  }

  /** clearConnections of the node filed under id, on the network: only
      the graph changes. */
  method Unplug(world: map<string, Node>, id: string)
    requires Closed(world) && id in world && Graph.Valid(Links(world))
    modifies world.Values`inputs, world.Values`outputs
    ensures View(world) == ER.World(old(Cores(world)), Graph.Clear(old(Links(world)), id))
  {
    var n := world[id];
    label before:
    n.ClearConnections(world);
    CoresKept@before(world);
  }

  /** The part of Net that no connection change can touch. */
  predicate Filed(world: map<string, Node>, ids: seq<string>, lib: Library) {
    && Closed(world) && Typed(world)
    && Distinct(ids) && (forall id | id in ids :: id in world) && (forall id | id in world :: id in ids)
    && forall id {:trigger Issued(world[id], lib)} | id in world :: Issued(world[id], lib)
  }

  /** Once the node filed under id has cleared its connections, the map
      without it is a network the engine can keep, and its value is the
      one before with the node deleted. */
  lemma Unplugged(world: map<string, Node>, ids: seq<string>, lib: Library, id: string, w0: ER.World)
    requires Filed(world, ids, lib) && id in world
    requires ER.Coherent(Defs(world), w0) && View(world) == ER.World(w0.cores, Graph.Clear(w0.links, id))
    ensures Net(world - {id}, Remove(ids, id), lib)
    ensures View(world - {id}) == ER.Deleted(w0, id)
  {
    ER.DeleteCoherent(Defs(world), w0, id);
    RemoveDistinct(ids, id);
    Dropped(world, id);
  }

  /** Built nodes filed under their uuids, with a valid graph and listed
      once each by ids, are a network the engine can keep. */
  lemma BuiltNet(world: map<string, Node>, ids: seq<string>, lib: Library)
    requires Closed(world) && AllBuilt(world, lib) && Graph.Valid(Links(world)) && Distinct(ids)
    requires forall id | id in ids :: id in world
    requires forall id | id in world :: id in ids
    ensures Net(world, ids, lib)
  {
    forall id | id in world ensures Issued(world[id], lib) && world[id].info.key == world[id].nodeType {
      assert Built(world[id], lib);
    }
    var d, w := Defs(world), View(world);
    forall id | id in w.cores ensures ER.Fine(d, w, id) {
      assert Built(world[id], lib);
      assert w.cores[id] == world[id].Core();
    }
    assert ER.Coherent(d, w);
  }

  // ---- toJson ----------------------------------------------------------------

  /** The entry toJson writes for a node: its type and the node's own save. */
  function Entry(n: Node): ER.NodeJson
    reads n`x, n`y, n`outputs, n`recipeName, n`progress, n`resources
  {
    ER.NodeJson(n.nodeType, n.ToJson())
  }

  /** toJson of the network: each node's entry under its uuid, listed in the
      map's order, and the seen resources. */
  function Saved(world: map<string, Node>, ids: seq<string>, seen: set<string>): ER.SaveData
    reads world.Values`x, world.Values`y, world.Values`outputs
    reads world.Values`recipeName, world.Values`progress, world.Values`resources
  {
    ER.SaveData(ids, map id | id in world :: Entry(world[id]), seen)
  }

  /** toJson's loop: the entry of every node of ids, in turn. */
  method Save(world: map<string, Node>, ids: seq<string>, seen: set<string>) returns (save: ER.SaveData)
    requires (forall id | id in ids :: id in world) && (forall id | id in world :: id in ids)
    ensures save == Saved(world, ids, seen)
  {
    var entries := map[];
    var i := 0;
    while i < |ids|
      invariant i <= |ids|
      invariant forall id :: id in entries <==> id in ids[..i]
      invariant forall id | id in entries :: entries[id] == Entry(world[id])
    {
      var n := world[ids[i]];
      assert ids[..i + 1] == ids[..i] + [ids[i]];
      entries := entries[ids[i] := ER.NodeJson(n.nodeType, n.ToJson())];
      i := i + 1;
    }
    assert ids[..i] == ids;
    SavedFrom(world, ids, seen, entries);
    save := ER.SaveData(ids, entries, seen);
  }

  /** Entries listing exactly the nodes of ids, each with its own entry,
      are toJson's. */
  lemma SavedFrom(world: map<string, Node>, ids: seq<string>, seen: set<string>, entries: map<string, ER.NodeJson>)
    requires (forall id | id in ids :: id in world) && (forall id | id in world :: id in ids)
    requires forall id :: id in entries <==> id in ids
    requires forall id | id in entries :: entries[id] == Entry(world[id])
    ensures ER.SaveData(ids, entries, seen) == Saved(world, ids, seen)
  {
  }

  /** Loading what toJson saved of a network the engine keeps gives back,
      with no error, every node's state and exactly the connections that
      leave a node that is not a ghost. */
  lemma SaveLoads(world: map<string, Node>, ids: seq<string>, lib: Library, seen: set<string>)
    requires Net(world, ids, lib)
    ensures ER.Keyed(Saved(world, ids, seen))
    ensures var r := ER.Load(lib, Saved(world, ids, seen));
      && r.error.None? && r.world.cores == Cores(world)
      && Graph.Valid(r.world.links) && r.world.links.Keys == world.Keys
      && forall a, b | a in world ::
           Graph.HasEdge(r.world.links, a, b) <==> Graph.HasEdge(Links(world), a, b) && !NR.IsGhost(Cores(world)[a])
  {
    var save, cs, g := Saved(world, ids, seen), Cores(world), Links(world);
    forall id | id in save.nodes
      ensures ER.Restorable(lib, save.nodes[id], cs[id]) && save.nodes[id].node.outputs == g[id].outputs
    {
      assert Issued(world[id], lib);
      assert ER.Fine(Defs(world), View(world), id);
    }
    ER.SaveRoundTrip(lib, save, cs, g);
  }
}
