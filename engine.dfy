/** The engine (src/Engine.ts) as a class: the node map, whose insertion
    order is kept beside it, the set of resources seen so far, the node
    waiting to be placed, and the debug switch. Its methods are proved
    against the functions of engine_rules.dfy. */
module Engines {
  import opened Wrappers
  import opened Seqs
  import opened Catalog
  import Graph
  import NR = NodeRules
  import ER = EngineRules
  import opened Nodes

  import opened Networks
  import opened Loading

  class Engine {
    /** The data file, and what the nodes are made from, resolved from it
        once. */
    const catalog: Data
    const library: Library
    var nodes: map<string, Node>
    /** The insertion order of `nodes`, which Map iteration follows. */
    var order: seq<string>
    var seenResources: set<string>
    /** The node picked from the toolbox and not yet placed. */
    var tempNode: Node?
    var debug: bool

    /** The library serves its node types, and the node map and its order
        keep Net. */
    ghost predicate Valid()
      reads this`nodes, this`order, nodes.Values`recipeName, nodes.Values`progress
      reads nodes.Values`resources, nodes.Values`inputs, nodes.Values`outputs
    {
      NR.Serves(library) && Net(nodes, order, library)
    }

    constructor (catalog: Data)
      requires Usable(catalog)
      ensures this.catalog == catalog && library == Resolve(catalog)
      ensures nodes == map[] && order == [] && seenResources == {}
      ensures tempNode == null && !debug
      ensures Valid()
    {
      this.catalog := catalog;
      library := Resolve(catalog);
      nodes, order, seenResources := map[], [], {};
      tempNode, debug := null, false;
      new;
      assert View(nodes) == ER.World(map[], map[]);
      NR.UsableServes(catalog);
    }

    /** getNode. */
    function GetNode(uuid: string): (r: Option<Node>)
      reads this
      ensures r.Some? <==> uuid in nodes
      ensures r.Some? ==> r.value in nodes.Values && (Closed(nodes) ==> r.value.uuid == uuid)
    {
      if uuid in nodes then Some(nodes[uuid]) else None
    }

    /** createNode: a node of the given type, with a fresh uuid, waits to be
        placed; nothing happens while one is already waiting. */
    method CreateNode(nodeType: string, uuid: string) returns (o: Outcome)
      requires NR.Serves(library)
      modifies this`tempNode
      ensures old(tempNode) != null ==> o == Pass && tempNode == old(tempNode)
      ensures old(tempNode) == null && nodeType !in library.kinds ==>
        o == Fail(InvalidNodeType(nodeType)) && tempNode == null
      ensures old(tempNode) == null && nodeType in library.kinds ==>
        && o == Pass && tempNode != null && fresh(tempNode)
        && tempNode.uuid == uuid && tempNode.nodeType == nodeType && Issued(tempNode, library)
        && tempNode.inputs == [] && tempNode.outputs == []
        && tempNode.Valid() && tempNode.IsGhost()
    {
      o := Pass;
      if tempNode == null {
        if nodeType !in library.kinds {
          return Fail(InvalidNodeType(nodeType));
        }
        tempNode := new Node(library.book, library.kinds[nodeType], uuid);
      }
    }

    /** nodeUnlocked. */
    method NodeUnlocked(id: string) returns (b: bool)
      requires catalog.Present(Nodes)
      ensures b <==> debug || (NodeInfo(catalog, id).Some? && NodeInfo(catalog, id).value.ingredients.Keys <= seenResources)
    {
      if debug {
        return true;
      }
      var data := NodeInfo(catalog, id);
      if data.None? {
        return false;
      }
      b := AllSeen(data.value.ingredients);
    }

    /** recipeUnlocked. */
    method RecipeUnlocked(id: string) returns (b: bool)
      requires catalog.Present(Recipes)
      ensures b <==> debug || (RecipeInfo(catalog, id).Some? && RecipeInfo(catalog, id).value.ingredients.Keys <= seenResources)
    {
      if debug {
        return true;
      }
      var data := RecipeInfo(catalog, id);
      if data.None? {
        return false;
      }
      b := AllSeen(data.value.ingredients);
    }

    /** The ingredient loop of the unlock checks: false at the first key not
        yet seen. */
    method AllSeen(ingredients: ResourceMap) returns (b: bool)
      ensures b <==> ingredients.Keys <= seenResources
    {
      var todo := ingredients.Keys;
      while todo != {}
        invariant todo <= ingredients.Keys
        invariant forall k | k in ingredients && k !in todo :: k in seenResources
        decreases todo
      {
        var k :| k in todo;
        if k !in seenResources {
          return false;
        }
        todo := todo - {k};
      }
      return true;
    }

    /** debugMode: from now on every node and recipe counts as unlocked. */
    method DebugMode()
      modifies this`debug
      ensures debug
    {
      debug := true;
    }

    /** tick: every node ticks, in the map's order, and then every key
        some node holds a positive amount of is marked seen. */
    method Tick()
      requires Valid()
      modifies nodes.Values`resources, nodes.Values`inputs, nodes.Values`outputs
      modifies nodes.Values`recipeName, nodes.Values`progress, this`seenResources
      ensures Valid()
      ensures View(nodes) == ER.TickAll(Defs(nodes), old(View(nodes)), order)
      ensures seenResources == old(seenResources) + ER.Revealed(Snapshot(nodes), nodes.Keys)
    {
      var r := TickNet(nodes, order, library, seenResources);
      label ticked:
      Record(r);
      NetKept@ticked(nodes, order, library);
    }

    /** The delete key with the node filed under id focused: the node
        clears its connections and leaves the map. */
    method DeleteNode(id: string)
      requires Valid() && id in nodes
      modifies nodes.Values`inputs, nodes.Values`outputs, this`nodes, this`order
      ensures Valid()
      ensures nodes == old(nodes) - {id} && order == Remove(old(order), id)
      ensures View(nodes) == ER.Deleted(old(View(nodes)), id)
    {
      ghost var w0 := View(nodes);
      CoherentValid(nodes, id);
      Unplug(nodes, id);
      Unplugged(nodes, order, library, id, w0);
      Replace(nodes - {id}, Remove(order, id));
    }

    /** fromJson: the node map is emptied and refilled from the save, and
        the seen resources replaced by the saved ones. The first pass makes
        and loads one node per saved uuid, stopping at the first throw; only
        when it finishes are the saved outputs wired, each that names a
        node, in the map's order. */
    method FromJson(save: ER.SaveData) returns (o: Outcome)
      requires NR.Serves(library) && ER.Keyed(save)
      modifies this`nodes, this`order, this`seenResources
      ensures Valid() && seenResources == save.seenResources
      ensures forall x | x in nodes :: fresh(nodes[x])
      ensures AllPlaced(nodes, save)
      ensures ER.Load(library, save) == ER.Loaded(View(nodes), if o.Fail? then Some(o.error) else None)
      ensures order <= save.ids && (o.Pass? ==> order == save.ids)
    {
      var world, ids;
      world, ids, o := LoadSave(library, save);
      Store(world, ids, save.seenResources, save);
    }

    /** The node map, its order and the seen resources replaced; nothing
        in the nodes changes. */
    method Store(world: map<string, Node>, ids: seq<string>, seen: set<string>, ghost save: ER.SaveData)
      modifies this`nodes, this`order, this`seenResources
      ensures nodes == world && order == ids && seenResources == seen
      ensures Net(world, ids, library) == old(Net(world, ids, library)) && View(world) == old(View(world))
      ensures AllPlaced(world, save) == old(AllPlaced(world, save))
    {
      label before:
      nodes, order, seenResources := world, ids, seen;
      LoadKept@before(world, ids, library, save);
    }

    /** toJson: every node's entry under its uuid, in the map's order, and
        the seen resources. */
    method ToJson() returns (save: ER.SaveData)
      requires Valid()
      ensures save == Saved(nodes, order, seenResources)
    {
      save := Save(nodes, order, seenResources);
    }

    /** The node map and its order replaced; nothing in the nodes
        changes. */
    method Replace(world: map<string, Node>, ids: seq<string>)
      modifies this`nodes, this`order
      ensures nodes == world && order == ids
      ensures Net(world, ids, library) == old(Net(world, ids, library)) && View(world) == old(View(world))
    {
      label before:
      nodes, order := world, ids;
      NetKept@before(world, ids, library);
    }

    /** Records the resources seen; the network is left as it is. */
    method Record(r: set<string>)
      modifies this`seenResources
      ensures seenResources == r
    {
      seenResources := r;
    }
  }
}
