/** The engine (src/Engine.ts) as functions on values: one tick of every
    node in the map's order, the resources the tick reveals, and the two
    passes of loading a save. The class in engine.dfy is proved against
    these functions. */
module EngineRules {
  import opened Wrappers
  import opened Seqs
  import opened Catalog
  import opened Ledger
  import Graph
  import NR = NodeRules

  // ---- the world as values ---------------------------------------------------

  /** What a node runs on and never changes: its recipe book and the
      definition of its type. */
  datatype Def = Def(book: Book, info: NodeMeta)

  type Defs = map<string, Def>

  /** Each node's own changing state, by uuid. */
  type Cores = map<string, NR.Core>

  /** The network: every node's state and the connection graph. */
  datatype World = World(cores: Cores, links: Graph.Links)

  function Stocks(cs: Cores): (s: NR.Stocks)
    ensures s.Keys == cs.Keys
    ensures forall id | id in s :: s[id] == cs[id].resources
  {
    map id | id in cs :: cs[id].resources
  }

  /** What the engine keeps true of its network: one definition, one state
      and one graph entry per uuid, a valid graph, and every node fitting
      its recipe book and consistent. */
  ghost predicate Coherent(defs: Defs, w: World) {
    && w.cores.Keys == w.links.Keys == defs.Keys
    && Graph.Valid(w.links)
    && forall id {:trigger Fine(defs, w, id)} | id in w.cores :: Fine(defs, w, id)
  }

  /** The node filed under id fits its recipe book and is consistent. (The
      quantifier over it in Coherent is instantiated only where a proof
      names this predicate, which keeps that quantifier cheap.) */
  ghost predicate Fine(defs: Defs, w: World, id: string) {
    && id in defs && id in w.cores
    && NR.Fits(defs[id].book, defs[id].info) && NR.Consistent(defs[id].book, defs[id].info, w.cores[id])
  }

  // ---- tick --------------------------------------------------------------------

  /** node.tick() of the node filed under id: its pull, which lowers its
      inputs' amounts, then its processRecipe, which clears its
      connections when a ghost is built. */
  function TickNode(defs: Defs, w: World, id: string): (r: World)
    requires Coherent(defs, w) && id in w.cores
    ensures r.cores.Keys == w.cores.Keys && r.links.Keys == w.links.Keys
    ensures forall x | x in w.cores && x != id ::
      r.cores[x].recipeName == w.cores[x].recipeName && r.cores[x].progress == w.cores[x].progress
  {
    Graph.EndsKnown(w.links, id);
    assert Fine(defs, w, id);
    var d := defs[id];
    var s := NR.TickPull(d.book, d.info, Stocks(w.cores), id, w.links[id].inputs, w.cores[id]);
    var p := NR.Process(d.book, d.info, w.cores[id].(resources := s[id]));
    World(Ticked(w.cores, id, s, p), if p.built then Graph.Clear(w.links, id) else w.links)
  }

  /** The states after one node's tick: its own is processRecipe's result,
      the others keep theirs with the pulled ledgers. */
  function Ticked(cs: Cores, id: string, s: NR.Stocks, p: NR.Processed): (r: Cores)
    requires cs.Keys <= s.Keys
    ensures r.Keys == cs.Keys
  {
    map x | x in cs :: if x == id then p.core else cs[x].(resources := s[x])
  }

  /** One node's tick keeps the network coherent: the pull keeps every
      ledger's keys and maxima, processRecipe keeps the ticking node
      consistent, and clearing a built ghost keeps the graph valid. */
  lemma TickNodeCoherent(defs: Defs, w: World, id: string)
    requires Coherent(defs, w) && id in w.cores
    ensures Coherent(defs, TickNode(defs, w, id))
  {
    Graph.EndsKnown(w.links, id);
    assert Fine(defs, w, id);
    var d := defs[id];
    var c := w.cores[id];
    var s0 := Stocks(w.cores);
    var s := NR.TickPull(d.book, d.info, s0, id, w.links[id].inputs, c);
    NR.TickPullShape(d.book, d.info, s0, id, w.links[id].inputs, c);
    var pulled := c.(resources := s[id]);
    NR.ProcessConsistent(d.book, d.info, pulled);
    var p := NR.Process(d.book, d.info, pulled);
    if p.built {
      Graph.ClearEffect(w.links, id);
    }
    var r := TickNode(defs, w, id);
    forall x | x in r.cores ensures Fine(defs, r, x) {
      assert Fine(defs, w, x);
      if x != id {
        KeptShape(defs[x], w.cores[x], r.cores[x], s0, s, x);
      }
    }
  }

  /** What node.tick() states about the network it acts on, gathered:
      the ticking node's state is processRecipe's result, every ledger is
      the pull's, the other nodes keep their recipe and progress, and the
      graph loses the built ghost's connections. That is TickNode. */
  lemma TickNodeAfter(defs: Defs, w: World, id: string, cs: Cores, links: Graph.Links)
    requires Coherent(defs, w) && id in w.cores && cs.Keys == w.cores.Keys
    requires Fine(defs, w, id) && Covers(w, id)
    requires var d := defs[id];
      var s := NR.TickPull(d.book, d.info, Stocks(w.cores), id, w.links[id].inputs, w.cores[id]);
      var p := NR.Process(d.book, d.info, w.cores[id].(resources := s[id]));
      && cs[id] == p.core
      && Stocks(cs) == s[id := p.core.resources]
      && links == (if p.built then Graph.Clear(w.links, id) else w.links)
    requires forall x | x in cs && x != id ::
      cs[x].recipeName == w.cores[x].recipeName && cs[x].progress == w.cores[x].progress
    ensures World(cs, links) == TickNode(defs, w, id)
  {
    var d := defs[id];
    var s := NR.TickPull(d.book, d.info, Stocks(w.cores), id, w.links[id].inputs, w.cores[id]);
    var p := NR.Process(d.book, d.info, w.cores[id].(resources := s[id]));
    SameTicked(cs, w.cores, id, s, p);
  }

  lemma SameTicked(cs: Cores, before: Cores, id: string, s: NR.Stocks, p: NR.Processed)
    requires cs.Keys == before.Keys <= s.Keys && id in cs
    requires cs[id] == p.core && Stocks(cs) == s[id := p.core.resources]
    requires forall x | x in cs && x != id ::
      cs[x].recipeName == before[x].recipeName && cs[x].progress == before[x].progress
    ensures cs == Ticked(before, id, s, p)
  {
    var r := Ticked(before, id, s, p);
    forall x | x in cs ensures cs[x] == r[x] {
      assert Stocks(cs)[x] == cs[x].resources;
    }
  }

  /** Every input of id is a node of the network. */
  predicate Covers(w: World, id: string)
    requires id in w.links
  {
    NR.Covers(Stocks(w.cores), id, w.links[id].inputs)
  }

  /** A node whose recipe stays and whose ledger keeps its keys and maxima
      stays consistent. */
  lemma KeptShape(d: Def, c: NR.Core, e: NR.Core, s0: NR.Stocks, s: NR.Stocks, x: string)
    requires NR.Consistent(d.book, d.info, c) && NR.SameMaxima(s0, s)
    requires x in s0 && s0[x] == c.resources && e.recipeName == c.recipeName && e.resources == s[x]
    ensures NR.Consistent(d.book, d.info, e)
  {
    NR.CapacitiesByName(d.book, d.info, c, e);
    forall k | k in e.resources
      ensures e.resources[k].maximum == NR.Capacities(d.book, d.info, e)[k]
    {
      assert NR.MaximumAt(s, x, k) == NR.MaximumAt(s0, x, k);
    }
  }

  /** Engine.tick's first loop: every node ticks, in the map's order, each
      on the network the previous ticks left. */
  function TickAll(defs: Defs, w: World, ids: seq<string>): (r: World)
    requires Coherent(defs, w) && forall id | id in ids :: id in w.cores
    ensures r.cores.Keys == w.cores.Keys
    decreases |ids|
  {
    if ids == [] then w
    else
      TickNodeCoherent(defs, w, ids[0]);
      TickAll(defs, TickNode(defs, w, ids[0]), ids[1..])
  }

  lemma {:induction false} TickAllCoherent(defs: Defs, w: World, ids: seq<string>)
    requires Coherent(defs, w) && forall id | id in ids :: id in w.cores
    ensures Coherent(defs, TickAll(defs, w, ids))
    decreases |ids|
  {
    if ids != [] {
      TickNodeCoherent(defs, w, ids[0]);
      TickAllCoherent(defs, TickNode(defs, w, ids[0]), ids[1..]);
    }
  }

  /** The keys that some node among ids holds a positive amount of: what
      Engine.tick's second loop adds to seenResources. */
  function Revealed(s: NR.Stocks, ids: set<string>): (r: set<string>)
    ensures forall id, k | id in ids && id in s && k in s[id] && s[id][k].amount > 0.0 :: k in r
    ensures forall k | k in r :: exists id | id in ids && id in s :: k in s[id] && s[id][k].amount > 0.0
  {
    set id, k | id in ids && id in s && k in s[id] && s[id][k].amount > 0.0 :: k
  }

  // ---- the delete key --------------------------------------------------------------

  /** The delete key on the focused node: it clears its connections, then
      leaves the map. */
  function Deleted(w: World, id: string): World
    requires id in w.links
  {
    World(w.cores - {id}, Graph.Delete(w.links, id))
  }

  /** Deleting a node of a coherent network leaves a coherent network of
      the other nodes, their states as they were and none of them listing
      the deleted one. */
  lemma DeleteCoherent(defs: Defs, w: World, id: string)
    requires Coherent(defs, w) && id in w.cores
    ensures var r := Deleted(w, id);
      && Coherent(defs - {id}, r)
      && r.cores.Keys == w.cores.Keys - {id}
      && (forall x | x in r.cores :: r.cores[x] == w.cores[x])
      && Graph.Unreferenced(r.links, id)
  {
    var r := Deleted(w, id);
    Graph.DeleteEffect(w.links, id);
    forall x | x in r.cores ensures Fine(defs - {id}, r, x) {
      assert Fine(defs, w, x);
    }
  }

  // ---- save and load ---------------------------------------------------------------

  /** One saved node: its type and the node's own part of the save. */
  datatype NodeJson = NodeJson(nodeType: string, node: NR.Save)

  /** The engine's save: the node entries under their uuids, `ids` being
      the order Object.entries lists them in, and the seen resources. */
  datatype SaveData = SaveData(ids: seq<string>, nodes: map<string, NodeJson>, seenResources: set<string>)

  /** A JSON object lists each of its keys once. */
  predicate Keyed(save: SaveData) {
    Distinct(save.ids) && (forall id | id in save.ids :: id in save.nodes) && (forall id | id in save.nodes :: id in save.ids)
  }

  /** The state of `new Node(type, uuid)`: setGhost(true) from an empty
      ledger. */
  function Fresh(d: Book, info: NodeMeta): (c: NR.Core)
    ensures NR.IsGhost(c) && NR.Consistent(d, info, c)
  {
    NR.SetGhost(d, info, NR.Core(Some(""), None, map[]), true)
  }

  /** What one saved entry gives: the state its node reaches, and the
      error its loadJson raised, if one did. */
  datatype Made = Made(core: NR.Core, error: Option<Error>)

  /** The entry's result read off the outcome of its node's loadJson. */
  lemma MakeLoads(lib: Library, e: NodeJson, c: NR.Core, o: Outcome)
    requires e.nodeType in lib.kinds
    requires var info := lib.kinds[e.nodeType];
      var r := NR.LoadJson(lib.book, info, Fresh(lib.book, info), e.node);
      && (o.Fail? <==> r.Failure?)
      && (r.Failure? ==> o.error == r.error && c == NR.LoadBase(lib.book, info, Fresh(lib.book, info), e.node))
      && (r.Success? ==> c == r.value)
    ensures Make(lib, e) == Some(Made(c, if o.Fail? then Some(o.error) else None))
  {
  }

  /** `new Node(type, uuid)` then loadJson of the entry: nothing when the
      type is unknown (the constructor throws); otherwise the node's state
      after the load, which stops at the setGhost state when setRecipe
      refuses the saved recipe. */
  function Make(lib: Library, e: NodeJson): (r: Option<Made>)
    ensures r.None? <==> e.nodeType !in lib.kinds
    ensures r.Some? ==> NR.Consistent(lib.book, lib.kinds[e.nodeType], r.value.core)
  {
    if e.nodeType !in lib.kinds then None
    else
      var info := lib.kinds[e.nodeType];
      var base := Fresh(lib.book, info);
      match NR.LoadJson(lib.book, info, base, e.node)
      case Failure(err) => Some(Made(NR.LoadBase(lib.book, info, base, e.node), Some(err)))
      case Success(c) => Some(Made(c, None))
  }

  /** What the first pass of fromJson produced: the states of the nodes it
      created, and the error that stopped it, if one did. */
  datatype Created = Created(cores: Cores, error: Option<Error>)

  /** fromJson's first pass over ids, continuing from the nodes cs already
      created: each entry's node is filed before its loadJson, so a refused
      recipe stops the pass with that node filed, and an unknown type
      stops it before. */
  function Create(lib: Library, save: SaveData, ids: seq<string>, cs: Cores): (r: Created)
    requires forall id | id in ids :: id in save.nodes
    ensures r.cores.Keys <= cs.Keys + set id | id in ids
    ensures r.error.None? ==> r.cores.Keys == cs.Keys + set id | id in ids
    decreases |ids|
  {
    if ids == [] then Created(cs, None)
    else
      var id := ids[0];
      match Make(lib, save.nodes[id])
      case None => Created(cs, Some(InvalidNodeType(save.nodes[id].nodeType)))
      case Some(m) =>
        if m.error.Some? then Created(cs[id := m.core], m.error)
        else Create(lib, save, ids[1..], cs[id := m.core])
  }

  /** Create at position i of the saved ids, when the entry there has an
      unknown type: the pass stops there. */
  lemma CreateStops(lib: Library, save: SaveData, i: nat, cs: Cores)
    requires i < |save.ids| && forall id | id in save.ids :: id in save.nodes
    requires Make(lib, save.nodes[save.ids[i]]).None?
    ensures Create(lib, save, save.ids[i..], cs) == Created(cs, Some(InvalidNodeType(save.nodes[save.ids[i]].nodeType)))
  {
  }

  /** Create at position i of the saved ids, when the entry there gives m:
      the pass files m's state, then stops on m's error or goes on. */
  lemma CreateFiles(lib: Library, save: SaveData, i: nat, cs: Cores, m: Made)
    requires i < |save.ids| && forall id | id in save.ids :: id in save.nodes
    requires Make(lib, save.nodes[save.ids[i]]) == Some(m)
    ensures var cs' := cs[save.ids[i] := m.core];
      Create(lib, save, save.ids[i..], cs) ==
        if m.error.Some? then Created(cs', m.error) else Create(lib, save, save.ids[i + 1..], cs')
  {
    assert save.ids[i..][1..] == save.ids[i + 1..];
  }

  /** The graph of the given nodes with no connections. */
  function Unlinked(ids: set<string>): (g: Graph.Links)
    ensures g.Keys == ids && Graph.Valid(g)
  {
    map id | id in ids :: Graph.Adj([], [])
  }

  /** Filing one more node with no connections, then clearing its
      connections, leaves a graph with no connections. */
  lemma ClearUnlinked(ids: set<string>, a: string)
    ensures Unlinked(ids)[a := Graph.Adj([], [])] == Unlinked(ids + {a})
    ensures Graph.Clear(Unlinked(ids + {a}), a) == Unlinked(ids + {a})
  {
  }

  /** a.addOutput(o) for every saved output o of a that names a node. */
  function WireFrom(g: Graph.Links, a: string, outs: seq<string>, isGhost: bool): (r: Graph.Links)
    requires a in g
    ensures r.Keys == g.Keys
    decreases |outs|
  {
    if outs == [] then g
    else WireFrom(if outs[0] in g then Graph.AddOutput(g, a, outs[0], isGhost) else g, a, outs[1..], isGhost)
  }

  /** fromJson's second pass: for each created node in the map's order,
      its saved outputs; a ghost's are refused by addOutput. */
  function Wire(g: Graph.Links, save: SaveData, cs: Cores, ids: seq<string>): (r: Graph.Links)
    requires forall id | id in ids :: id in g && id in save.nodes && id in cs
    ensures r.Keys == g.Keys
    decreases |ids|
  {
    if ids == [] then g
    else
      var a := ids[0];
      Wire(WireFrom(g, a, save.nodes[a].node.outputs, NR.IsGhost(cs[a])), save, cs, ids[1..])
  }

  /** What fromJson leaves: the network, and the error that stopped the
      first pass, if one did. */
  datatype Loaded = Loaded(world: World, error: Option<Error>)

  /** fromJson on values: the first pass makes the nodes with no
      connections; only when it finishes does the second pass wire the
      saved outputs, in the saved order. */
  function Load(lib: Library, save: SaveData): (r: Loaded)
    requires Keyed(save)
    ensures r.world.cores.Keys == r.world.links.Keys <= save.nodes.Keys
    ensures r.error.None? ==> r.world.cores.Keys == save.nodes.Keys
  {
    var c := Create(lib, save, save.ids, map[]);
    var g := Unlinked(c.cores.Keys);
    if c.error.Some? then Loaded(World(c.cores, g), c.error)
    else Loaded(World(c.cores, Wire(g, save, c.cores, save.ids)), None)
  }

  // ---- properties of loading ------------------------------------------------------

  /** The saved outputs of a wire exactly the edges they name that addOutput
      allows, and the graph stays valid. */
  lemma {:induction false} WireFromEdges(g: Graph.Links, a: string, outs: seq<string>, isGhost: bool)
    requires Graph.Valid(g) && a in g
    ensures var r := WireFrom(g, a, outs, isGhost);
      && Graph.Valid(r)
      && forall x, y | x in g ::
           Graph.HasEdge(r, x, y) <==> Graph.HasEdge(g, x, y) || (x == a && !isGhost && y in outs && y in g && y != a)
    decreases |outs|
  {
    if outs != [] {
      var b := outs[0];
      var g1 := if b in g then Graph.AddOutput(g, a, b, isGhost) else g;
      if b in g {
        AddOutputEdges(g, a, b, isGhost);
      }
      WireFromEdges(g1, a, outs[1..], isGhost);
    }
  }

  /** addOutput adds exactly the edge it allows. */
  lemma AddOutputEdges(g: Graph.Links, a: string, b: string, isGhost: bool)
    requires Graph.Valid(g) && a in g && b in g
    ensures var r := Graph.AddOutput(g, a, b, isGhost);
      && Graph.Valid(r) && r.Keys == g.Keys
      && forall x, y | x in g ::
           Graph.HasEdge(r, x, y) <==> Graph.HasEdge(g, x, y) || (x == a && !isGhost && y == b && y != a)
  {
    Graph.AddOutputEffect(g, a, b, isGhost);
    var r := Graph.AddOutput(g, a, b, isGhost);
    forall x, y | x in g
      ensures Graph.HasEdge(r, x, y) <==> Graph.HasEdge(g, x, y) || (x == a && !isGhost && y == b && y != a)
    {
      if x == a {
        if y != b && r != g {
          assert r[a].outputs == g[a].outputs + [b];
        }
      } else if x == b && r != g {
        assert r[x].outputs == g[x].outputs;
      }
    }
  }

  /** The second pass wires exactly the saved outputs of non-ghost nodes
      that name another node, and the graph stays valid. */
  lemma {:induction false} WireEdges(g: Graph.Links, save: SaveData, cs: Cores, ids: seq<string>)
    requires Graph.Valid(g)
    requires forall id | id in ids :: id in g && id in save.nodes && id in cs
    ensures var r := Wire(g, save, cs, ids);
      && Graph.Valid(r)
      && forall x, y | x in g ::
           Graph.HasEdge(r, x, y) <==>
             Graph.HasEdge(g, x, y) || (x in ids && !NR.IsGhost(cs[x]) && y in save.nodes[x].node.outputs && y in g && y != x)
    decreases |ids|
  {
    if ids != [] {
      var a := ids[0];
      var g1 := WireFrom(g, a, save.nodes[a].node.outputs, NR.IsGhost(cs[a]));
      WireFromEdges(g, a, save.nodes[a].node.outputs, NR.IsGhost(cs[a]));
      WireEdges(g1, save, cs, ids[1..]);
      forall x | x in ids ensures x == a || x in ids[1..] {}
    }
  }

  /** When every entry of ids is a save of a consistent node of a known
      type, the first pass recreates each of them with its saved state. */
  lemma {:induction false} CreateRestores(lib: Library, save: SaveData, ids: seq<string>, acc: Cores, cs: Cores)
    requires forall id | id in ids :: id in save.nodes && id in cs
    requires forall id | id in ids :: Restorable(lib, save.nodes[id], cs[id])
    ensures var r := Create(lib, save, ids, acc);
      && r.error.None?
      && forall id | id in r.cores :: r.cores[id] == if id in ids then cs[id] else acc[id]
    decreases |ids|
  {
    if ids != [] {
      var id := ids[0];
      RestoreOne(lib, save.nodes[id], cs[id]);
      CreateRestores(lib, save, ids[1..], acc[id := cs[id]], cs);
      forall x | x in ids ensures x == id || x in ids[1..] {}
    }
  }

  /** The saved entry e is what toJson gives for a consistent node of a
      type the data file defines, in state c. */
  ghost predicate Restorable(lib: Library, e: NodeJson, c: NR.Core) {
    && e.nodeType in lib.kinds
    && NR.Consistent(lib.book, lib.kinds[e.nodeType], c)
    && e.node == NR.ToJson(e.node.x, e.node.y, e.node.outputs, c)
  }

  /** A fresh node of the saved type loads such an entry back to c. */
  lemma RestoreOne(lib: Library, e: NodeJson, c: NR.Core)
    requires Restorable(lib, e, c)
    ensures Make(lib, e) == Some(Made(c, None))
  {
    var info := lib.kinds[e.nodeType];
    NR.SaveRoundTrip(lib.book, info, Fresh(lib.book, info), e.node.x, e.node.y, e.node.outputs, c);
  }

  /** Loading a save of a coherent network (toJson) through both passes of
      fromJson gives back every node with its state, and exactly the edges
      whose source is not a ghost. */
  lemma SaveRoundTrip(lib: Library, save: SaveData, cs: Cores, g: Graph.Links)
    requires Keyed(save) && Graph.Valid(g) && cs.Keys == g.Keys == save.nodes.Keys
    requires forall id | id in save.nodes ::
      Restorable(lib, save.nodes[id], cs[id]) && save.nodes[id].node.outputs == g[id].outputs
    ensures var r := Load(lib, save);
      && r.error.None? && r.world.cores == cs
      && Graph.Valid(r.world.links) && r.world.links.Keys == g.Keys
      && forall a, b | a in g :: Graph.HasEdge(r.world.links, a, b) <==> Graph.HasEdge(g, a, b) && !NR.IsGhost(cs[a])
  {
    Recreate(lib, save, cs);
    Rewire(save, cs, g);
  }

  /** The first pass of a save of consistent nodes recreates them all. */
  lemma Recreate(lib: Library, save: SaveData, cs: Cores)
    requires Keyed(save) && cs.Keys == save.nodes.Keys
    requires forall id | id in save.nodes :: Restorable(lib, save.nodes[id], cs[id])
    ensures Create(lib, save, save.ids, map[]) == Created(cs, None)
  {
    CreateRestores(lib, save, save.ids, map[], cs);
    Settle(Create(lib, save, save.ids, map[]), save.ids, map[], cs);
  }

  /** A first pass from no nodes that stopped on no error and left the
      state of cs under each of cs's uuids left exactly cs. */
  lemma Settle(r: Created, ids: seq<string>, acc: Cores, cs: Cores)
    requires acc == map[] && cs.Keys == set id | id in ids
    requires r.error.None? && r.cores.Keys == acc.Keys + set id | id in ids
    requires forall id | id in r.cores :: r.cores[id] == if id in ids then cs[id] else acc[id]
    ensures r == Created(cs, None)
  {
    assert r.cores.Keys == cs.Keys;
    assert r.cores == cs;
  }

  /** The second pass over a graph's saved outputs rebuilds the edges of
      its non-ghost nodes. */
  lemma Rewire(save: SaveData, cs: Cores, g: Graph.Links)
    requires Keyed(save) && Graph.Valid(g) && cs.Keys == g.Keys == save.nodes.Keys
    requires forall id | id in save.nodes :: save.nodes[id].node.outputs == g[id].outputs
    ensures var r := Wire(Unlinked(g.Keys), save, cs, save.ids);
      && Graph.Valid(r) && r.Keys == g.Keys
      && forall a, b | a in g :: Graph.HasEdge(r, a, b) <==> Graph.HasEdge(g, a, b) && !NR.IsGhost(cs[a])
  {
    var u := Unlinked(g.Keys);
    WireEdges(u, save, cs, save.ids);
    var r := Wire(u, save, cs, save.ids);
    forall a, b | a in g
      ensures Graph.HasEdge(r, a, b) <==> Graph.HasEdge(g, a, b) && !NR.IsGhost(cs[a])
    {
      if Graph.HasEdge(g, a, b) {
        assert b in g && a !in g[a].outputs;
      }
    }
  }
}
