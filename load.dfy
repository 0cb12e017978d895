/** Engine.fromJson on the network: the nodes of a save are made and
    loaded one by one, then their saved outputs are wired. */
module Loading {
  import opened Wrappers
  import opened Seqs
  import opened Catalog
  import Graph
  import NR = NodeRules
  import ER = EngineRules
  import opened Nodes
  import opened Networks

  /** One step of fromJson's first pass, for the saved entry e under id:
      `new Node(type, uuid)`, which throws for an unknown type, then the
      node's loadJson. The loadJson is given the map holding that node
      alone: the clearConnections inside it visits the node's connections
      only, and a node just made has none. */
  method MakeNode(lib: Library, id: string, e: ER.NodeJson) returns (n: Node?, o: Outcome)
    requires NR.Serves(lib)
    ensures n == null <==> ER.Make(lib, e).None?
    ensures n == null ==> o == Fail(InvalidNodeType(e.nodeType))
    ensures n != null ==>
      && fresh(n) && n.uuid == id && Placed(n, e) && Built(n, lib)
      && n.inputs == [] && n.outputs == []
      && ER.Make(lib, e) == Some(ER.Made(n.Core(), if o.Fail? then Some(o.error) else None))
  {
    if e.nodeType !in lib.kinds {
      return null, Fail(InvalidNodeType(e.nodeType));
    }
    n := new Node(lib.book, lib.kinds[e.nodeType], id);
    assert n.Core() == ER.Fresh(n.book, n.info);
    Alone(n);
    o := n.LoadJson(map[id := n], e.node);
    Alone(n);
    ER.MakeLoads(lib, e, n.Core(), o);
  }

  /** Both passes of fromJson: the network of the save, and its order. */
  method LoadSave(lib: Library, save: ER.SaveData) returns (world: map<string, Node>, ids: seq<string>, o: Outcome)
    requires NR.Serves(lib) && ER.Keyed(save)
    ensures Net(world, ids, lib) && AllPlaced(world, save)
    ensures forall x | x in world :: fresh(world[x])
    ensures ER.Load(lib, save) == ER.Loaded(View(world), if o.Fail? then Some(o.error) else None)
    ensures ids <= save.ids && (o.Pass? ==> ids == save.ids)
  {
    world, ids, o := CreateNodes(lib, save);
    PrefixDistinct(ids, save.ids);
    if o.Pass? {
      ER.WireEdges(Links(world), save, Cores(world), ids);
      WirePass(world, ids, lib, save);
    }
    BuiltNet(world, ids, lib);
  }

  /** fromJson's second pass, with what it leaves alone: the node states
      and positions. */
  method WirePass(world: map<string, Node>, ids: seq<string>, lib: Library, save: ER.SaveData)
    requires Closed(world) && forall x | x in ids :: x in world && x in save.nodes
    modifies world.Values`inputs, world.Values`outputs
    ensures Links(world) == ER.Wire(old(Links(world)), save, old(Cores(world)), ids)
    ensures Cores(world) == old(Cores(world)) && AllBuilt(world, lib) == old(AllBuilt(world, lib))
    ensures AllPlaced(world, save) == old(AllPlaced(world, save))
  {
    label created:
    WireNodes(world, ids, save);
    Rewired@created(world, lib, save);
  }

  /** fromJson's first pass: the node of each saved id in turn is made,
      filed under its id and loaded; the first throw ends the pass, with
      the nodes filed so far, listed in ids. */
  method CreateNodes(lib: Library, save: ER.SaveData) returns (world: map<string, Node>, ids: seq<string>, o: Outcome)
    requires NR.Serves(lib) && forall id | id in save.ids :: id in save.nodes
    ensures Loaded(world, lib) && AllPlaced(world, save) && ids <= save.ids
    ensures (forall x | x in ids :: x in world) && (forall x | x in world :: x in ids)
    ensures forall x | x in world :: fresh(world[x])
    ensures ER.Create(lib, save, save.ids, map[]) == ER.Created(Cores(world), if o.Fail? then Some(o.error) else None)
    ensures o.Pass? ==> ids == save.ids
  {
    world, ids, o := map[], [], Pass;
    var i := 0;
    while i < |save.ids| && o.Pass?
      invariant i <= |save.ids| && ids <= save.ids && (o.Pass? ==> ids == save.ids[..i])
      invariant forall x :: x in world <==> x in ids
      invariant Loaded(world, lib) && AllPlaced(world, save)
      invariant forall x | x in world :: fresh(world[x])
      invariant o.Pass? ==> ER.Create(lib, save, save.ids[i..], Cores(world)) == ER.Create(lib, save, save.ids, map[])
      invariant o.Fail? ==> ER.Create(lib, save, save.ids, map[]) == ER.Created(Cores(world), Some(o.error))
    {
      TakeNext(save.ids, i);
      var n;
      world, n, o := FileNext(lib, save, i, world);
      if n != null {
        ids := ids + [save.ids[i]];
      }
      i := i + 1;
    }
  }

  /** One step of the first pass, at position i of the saved ids: the
      entry there, when its type is known, is made, filed and loaded. The
      outcome fails when the pass must stop there. */
  method FileNext(lib: Library, save: ER.SaveData, i: nat, world: map<string, Node>)
      returns (world': map<string, Node>, n: Node?, o: Outcome)
    requires NR.Serves(lib) && i < |save.ids| && forall id | id in save.ids :: id in save.nodes
    requires Loaded(world, lib) && AllPlaced(world, save)
    ensures Loaded(world', lib) && AllPlaced(world', save)
    ensures n == null ==> o.Fail? && world' == world
    ensures n != null ==> n.uuid == save.ids[i] && fresh(n) && world' == world[n.uuid := n]
    ensures ER.Create(lib, save, save.ids[i..], old(Cores(world))) ==
      if o.Fail? then ER.Created(Cores(world'), Some(o.error)) else ER.Create(lib, save, save.ids[i + 1..], Cores(world'))
  {
    var id := save.ids[i];
    label before:
    n, o := MakeNode(lib, id, save.nodes[id]);
    LoadedKept@before(world, lib, save);
    if n == null {
      ER.CreateStops(lib, save, i, Cores(world));
      world' := world;
    } else {
      ER.CreateFiles(lib, save, i, Cores(world), ER.Made(n.Core(), if o.Fail? then Some(o.error) else None));
      FileLoaded(world, n, lib);
      PlacedFiled(world, n, save);
      Filed(world, id, n);
      world' := world[id := n];
    }
  }

  /** fromJson's second pass: for each node of ids in turn, addOutput of
      each of its saved outputs that names a node of the world. */
  method WireNodes(world: map<string, Node>, ids: seq<string>, save: ER.SaveData)
    requires Closed(world) && forall id | id in ids :: id in world && id in save.nodes
    modifies world.Values`inputs, world.Values`outputs
    ensures Links(world) == ER.Wire(old(Links(world)), save, Cores(world), ids)
  {
    var i := 0;
    while i < |ids|
      invariant i <= |ids|
      invariant ER.Wire(Links(world), save, Cores(world), ids[i..]) == ER.Wire(old(Links(world)), save, Cores(world), ids)
    {
      var n := world[ids[i]];
      assert ids[i..][1..] == ids[i + 1..];
      label before:
      WireOutputs(world, n, save.nodes[ids[i]].node.outputs);
      CoresKept@before(world);
      i := i + 1;
    }
  }

  /** The inner forEach: addOutput of each of outs that names a node. */
  method WireOutputs(world: map<string, Node>, n: Node, outs: seq<string>)
    requires Closed(world) && n.In(world)
    modifies world.Values`inputs, world.Values`outputs
    ensures Links(world) == ER.WireFrom(old(Links(world)), n.uuid, outs, n.IsGhost())
  {
    var j := 0;
    while j < |outs|
      invariant j <= |outs|
      invariant ER.WireFrom(Links(world), n.uuid, outs[j..], n.IsGhost()) == ER.WireFrom(old(Links(world)), n.uuid, outs, n.IsGhost())
    {
      assert outs[j..][1..] == outs[j + 1..];
      if outs[j] in world {
        n.AddOutput(world, world[outs[j]]);
      }
      j := j + 1;
    }
  }

  /** What the wiring leaves of the first pass: the node states, the
      built nodes and their positions. */
  twostate lemma Rewired(world: map<string, Node>, new lib: Library, new save: ER.SaveData)
    requires unchanged(world.Values`recipeName, world.Values`progress, world.Values`resources)
    requires unchanged(world.Values`x, world.Values`y)
    ensures Cores(world) == old(Cores(world)) && AllPlaced(world, save) == old(AllPlaced(world, save))
    ensures AllBuilt(world, lib) == old(AllBuilt(world, lib))
  {
  }

  /** The network, its value and the positions read the nodes' fields
      only. */
  twostate lemma LoadKept(world: map<string, Node>, new ids: seq<string>, new lib: Library, new save: ER.SaveData)
    requires unchanged(world.Values)
    ensures Net(world, ids, lib) == old(Net(world, ids, lib)) && View(world) == old(View(world))
    ensures AllPlaced(world, save) == old(AllPlaced(world, save))
  {
  }

  /** Every node got its saved entry's type and position. */
  predicate AllPlaced(world: map<string, Node>, save: ER.SaveData)
    reads world.Values`x, world.Values`y
  {
    forall x | x in world :: x in save.nodes && Placed(world[x], save.nodes[x])
  }

  /** Loaded, the node states and the positions read only the nodes'
      fields. */
  twostate lemma LoadedKept(world: map<string, Node>, new lib: Library, new save: ER.SaveData)
    requires unchanged(world.Values)
    ensures Loaded(world, lib) == old(Loaded(world, lib)) && Cores(world) == old(Cores(world))
    ensures AllPlaced(world, save) == old(AllPlaced(world, save))
  {
  }

  /** A node filed alone: the graph of that map, cleared. */
  lemma Alone(n: Node)
    ensures Closed(map[n.uuid := n]) && n.In(map[n.uuid := n])
    ensures Links(map[n.uuid := n]) == map[n.uuid := Graph.Adj(n.inputs, n.outputs)]
    ensures Graph.Clear(ER.Unlinked({n.uuid}), n.uuid) == ER.Unlinked({n.uuid})
    ensures ER.Unlinked({n.uuid}) == map[n.uuid := Graph.Adj([], [])]
  {
    ER.ClearUnlinked({}, n.uuid);
  }

  /** Filing a built node with no connections under its uuid keeps Loaded. */
  lemma FileLoaded(world: map<string, Node>, n: Node, lib: Library)
    requires Loaded(world, lib) && Built(n, lib) && n.inputs == [] && n.outputs == []
    ensures Loaded(world[n.uuid := n], lib)
  {
    Filed(world, n.uuid, n);
    ER.ClearUnlinked(world.Keys, n.uuid);
    BuiltFiled(world, n, lib);
  }

  /** Filing a node placed as its saved entry says keeps AllPlaced. */
  lemma PlacedFiled(world: map<string, Node>, n: Node, save: ER.SaveData)
    requires AllPlaced(world, save) && n.uuid in save.nodes && Placed(n, save.nodes[n.uuid])
    ensures AllPlaced(world[n.uuid := n], save)
  {
    var r := world[n.uuid := n];
    forall x | x in r ensures x in save.nodes && Placed(r[x], save.nodes[x]) {
      if x != n.uuid {
        assert Placed(world[x], save.nodes[x]);
      }
    }
  }

  lemma BuiltFiled(world: map<string, Node>, n: Node, lib: Library)
    requires AllBuilt(world, lib) && Built(n, lib)
    ensures AllBuilt(world[n.uuid := n], lib)
  {
    var r := world[n.uuid := n];
    forall x | x in r ensures Built(r[x], lib) {
      if x != n.uuid {
        assert Built(world[x], lib);
      }
    }
  }

  /** The states and the graph of a world with one more node filed. */
  lemma Filed(world: map<string, Node>, id: string, n: Node)
    ensures Cores(world[id := n]) == Cores(world)[id := n.Core()]
    ensures Links(world[id := n]) == Links(world)[id := Graph.Adj(n.inputs, n.outputs)]
  {
  }
}
