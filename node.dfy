/** The node of the current revision (src/Node.ts) as a class: its fields
    are updated in place by its methods. A node reaches its peers through
    a world, the map from uuid to node that the engine keeps; a peer is
    named in the edge lists by its uuid. */
module Nodes {
  import opened Wrappers
  import opened JsMath
  import opened Seqs
  import opened Catalog
  import opened Ledger
  import Graph
  import NR = NodeRules

  /** Every node of the world is filed under its own uuid, so two ids name
      two different objects. */
  predicate Closed(world: map<string, Node>) {
    forall id | id in world :: world[id].uuid == id
  }

  /** The connection graph of the world. */
  function Links(world: map<string, Node>): (g: Graph.Links)
    reads world.Values`inputs, world.Values`outputs
    ensures g.Keys == world.Keys
  {
    map id | id in world :: Graph.Adj(world[id].inputs, world[id].outputs)
  }

  /** Every ledger of the world. */
  function Snapshot(world: map<string, Node>): (s: NR.Stocks)
    reads world.Values`resources
    ensures s.Keys == world.Keys
  {
    map id | id in world :: world[id].resources
  }

  /** The world is closed, its graph valid and every node consistent. */
  ghost predicate Sound(world: map<string, Node>)
    reads world.Values
  {
    && Closed(world)
    && Graph.Valid(Links(world))
    && forall id | id in world :: world[id].Valid()
  }

  class Node {
    const uuid: string
    const nodeType: string
    /** The recipe book and the definition of this node's type, as the
        data file gives them (see Catalog.Library). */
    const book: Book
    const info: NodeMeta

    var x: real
    var y: real
    var inputs: seq<string>
    var outputs: seq<string>
    var resources: Stock
    var progress: Option<real>
    var recipeName: Option<string>

    /** The state the node's own rules act on. */
    function Core(): NR.Core
      reads this`recipeName, this`progress, this`resources
    {
      NR.Core(recipeName, progress, resources)
    }

    /** The data file fits the node's type and the node is consistent. */
    ghost predicate Valid()
      reads this`recipeName, this`progress, this`resources
    {
      && NR.Fits(book, info) && info.key == nodeType
      && NR.Consistent(book, info, Core())
    }

    /** The node is the one its world files under its uuid. */
    predicate In(world: map<string, Node>) {
      uuid in world && world[uuid] == this
    }

    predicate IsGhost()
      reads this`recipeName
    {
      recipeName == Some(NR.GhostKey)
    }

    /** new Node(type, uuid) for a type the data file defines, given the
        recipe book and that type's definition: a ghost at the origin, with
        no connections. */
    constructor (book: Book, info: NodeMeta, uuid: string)
      requires NR.Fits(book, info)
      ensures this.uuid == uuid && nodeType == info.key && this.book == book && this.info == info
      ensures x == 0.0 && y == 0.0 && inputs == [] && outputs == []
      ensures Core() == NR.SetGhost(book, info, NR.Core(Some(""), None, map[]), true)
      ensures Valid() && IsGhost()
    {
      this.uuid := uuid;
      nodeType := info.key;
      this.book, this.info := book, info;
      x, y := 0.0, 0.0;
      inputs, outputs := [], [];
      recipeName, progress, resources := Some(""), None, map[];
      new;
      // setGhost(true): there are no connections to clear yet
      ResetRecipe(true);
    }

    // ---- connections -------------------------------------------------------

    /** hasOutput: whether some output has node's uuid. */
    method HasOutput(node: Node) returns (b: bool)
      ensures b <==> node.uuid in outputs
    {
      var i := 0;
      while i < |outputs|
        invariant 0 <= i <= |outputs|
        invariant node.uuid !in outputs[..i]
      {
        if outputs[i] == node.uuid {
          return true;
        }
        i := i + 1;
      }
      assert outputs[..i] == outputs;
      return false;
    }

    /** hasInput: whether some input has node's uuid. */
    method HasInput(node: Node) returns (b: bool)
      ensures b <==> node.uuid in inputs
    {
      var i := 0;
      while i < |inputs|
        invariant 0 <= i <= |inputs|
        invariant node.uuid !in inputs[..i]
      {
        if inputs[i] == node.uuid {
          return true;
        }
        i := i + 1;
      }
      assert inputs[..i] == inputs;
      return false;
    }

    /** addOutput. */
    method AddOutput(world: map<string, Node>, node: Node)
      requires Closed(world) && In(world) && node.In(world)
      modifies this`outputs, node`inputs
      ensures Links(world) == Graph.AddOutput(old(Links(world)), uuid, node.uuid, IsGhost())
    {
      if uuid == node.uuid || IsGhost() {
        return;
      }
      if node.uuid !in outputs && uuid !in node.inputs {
        outputs := outputs + [node.uuid];
        node.inputs := node.inputs + [uuid];
      }
      Apart(world, this, node);
    }

    /** addInput. */
    method AddInput(world: map<string, Node>, node: Node)
      requires Closed(world) && In(world) && node.In(world)
      modifies this`inputs, node`outputs
      ensures Links(world) == Graph.AddInput(old(Links(world)), uuid, node.uuid)
    {
      if uuid == node.uuid {
        return;
      }
      if node.uuid !in inputs && uuid !in node.outputs {
        inputs := inputs + [node.uuid];
        node.outputs := node.outputs + [uuid];
      }
      Apart(world, this, node);
    }

    /** removeOutput: delete node from the outputs, then this from node's
        inputs. */
    method RemoveOutput(world: map<string, Node>, node: Node)
      requires Closed(world) && In(world) && node.In(world)
      modifies this`outputs, node`inputs
      ensures Links(world) == Graph.RemoveOutput(old(Links(world)), uuid, node.uuid)
    {
      ghost var g := old(Links(world));
      outputs := Remove(outputs, node.uuid);
      node.inputs := Remove(node.inputs, uuid);
      Apart(world, this, node);
      ghost var r := Graph.RemoveOutput(g, uuid, node.uuid);
      assert Links(world)[uuid] == r[uuid];
      assert Links(world)[node.uuid] == r[node.uuid];
      assert Links(world) == r;
    }

    /** removeInput. */
    method RemoveInput(world: map<string, Node>, node: Node)
      requires Closed(world) && In(world) && node.In(world)
      modifies this`inputs, node`outputs
      ensures Links(world) == Graph.RemoveInput(old(Links(world)), uuid, node.uuid)
    {
      ghost var g := old(Links(world));
      inputs := Remove(inputs, node.uuid);
      node.outputs := Remove(node.outputs, uuid);
      Apart(world, this, node);
      ghost var r := Graph.RemoveInput(g, uuid, node.uuid);
      assert Links(world)[uuid] == r[uuid];
      assert Links(world)[node.uuid] == r[node.uuid];
      assert Links(world) == r;
    }

    /** toggleOutput. */
    method ToggleOutput(world: map<string, Node>, node: Node)
      requires Closed(world) && In(world) && node.In(world)
      modifies this`outputs, node`inputs
      ensures Links(world) == Graph.ToggleOutput(old(Links(world)), uuid, node.uuid, IsGhost())
    {
      var has := HasOutput(node);
      if has {
        RemoveOutput(world, node);
      } else {
        AddOutput(world, node);
      }
    }

    /** toggleInput. */
    method ToggleInput(world: map<string, Node>, node: Node)
      requires Closed(world) && In(world) && node.In(world)
      modifies this`inputs, node`outputs
      ensures Links(world) == Graph.ToggleInput(old(Links(world)), uuid, node.uuid)
    {
      var has := HasInput(node);
      if has {
        RemoveInput(world, node);
      } else {
        AddInput(world, node);
      }
    }

    /** clearConnections: remove every output, then every input. */
    method ClearConnections(world: map<string, Node>)
      requires Closed(world) && In(world) && Graph.Valid(Links(world))
      modifies world.Values`inputs, world.Values`outputs
      ensures Links(world) == Graph.Clear(old(Links(world)), uuid)
    {
      ghost var g0 := Links(world);
      RemoveAllOutputs(world);
      RemoveAllInputs(world);
      Graph.ClearSequential(g0, uuid);
    }

    /** The output loop of clearConnections. */
    method RemoveAllOutputs(world: map<string, Node>)
      requires Closed(world) && In(world) && Graph.Valid(Links(world))
      modifies world.Values`inputs, world.Values`outputs
      ensures Graph.Valid(Links(world)) && outputs == []
      ensures Links(world) == Graph.RemoveOutputs(old(Links(world)), uuid, old(outputs))
    {
      ghost var g := Links(world);
      ghost var goal := Graph.RemoveOutputs(g, uuid, outputs);
      while outputs != []
        invariant Links(world) == g && Graph.Valid(g) && outputs == g[uuid].outputs
        invariant Graph.RemoveOutputs(g, uuid, outputs) == goal
        decreases |outputs|
      {
        Graph.RemoveFirstOutput(g, uuid);
        var node := world[outputs[0]];
        RemoveOutput(world, node);
        g := Graph.RemoveOutput(g, uuid, node.uuid);
      }
    }

    /** The input loop of clearConnections. */
    method RemoveAllInputs(world: map<string, Node>)
      requires Closed(world) && In(world) && Graph.Valid(Links(world))
      modifies world.Values`inputs, world.Values`outputs
      ensures Graph.Valid(Links(world)) && inputs == []
      ensures Links(world) == Graph.RemoveInputs(old(Links(world)), uuid, old(inputs))
    {
      ghost var g := Links(world);
      ghost var goal := Graph.RemoveInputs(g, uuid, inputs);
      while inputs != []
        invariant Links(world) == g && Graph.Valid(g) && inputs == g[uuid].inputs
        invariant Graph.RemoveInputs(g, uuid, inputs) == goal
        decreases |inputs|
      {
        Graph.RemoveFirstInput(g, uuid);
        var node := world[inputs[0]];
        RemoveInput(world, node);
        g := Graph.RemoveInput(g, uuid, node.uuid);
      }
    }

    // ---- recipe and ledger -----------------------------------------------

    /** updateResources: set or clamp every capacity key, then delete every
        key without a capacity. */
    method UpdateResources()
      modifies this`resources
      ensures resources == Recompute(old(resources), NR.Capacities(book, info, old(Core())))
    {
      var caps := NR.Capacities(book, info, Core());
      ghost var s0 := resources;
      SetCapacities(caps);
      DropUncapped(caps);
      PartialDone(s0, caps);
    }

    /** The first loop of updateResources. */
    method SetCapacities(caps: ResourceMap)
      modifies this`resources
      ensures resources == Partial(old(resources), caps, caps.Keys)
    {
      ghost var s0 := resources;
      var todo := caps.Keys;
      while todo != {}
        invariant todo <= caps.Keys
        invariant resources == Partial(s0, caps, caps.Keys - todo)
        decreases todo
      {
        var name :| name in todo;
        PartialStep(s0, caps, caps.Keys - todo, name);
        if name in resources {
          resources := resources[name := Resource(Min(resources[name].amount, caps[name]), caps[name])];
        } else {
          resources := resources[name := Resource(0.0, caps[name])];
        }
        todo := todo - {name};
        assert caps.Keys - todo == (caps.Keys - (todo + {name})) + {name};
      }
    }

    /** The second loop of updateResources. */
    method DropUncapped(caps: ResourceMap)
      modifies this`resources
      ensures resources == map k | k in old(resources) && k in caps :: old(resources)[k]
    {
      ghost var full := resources;
      var names := resources.Keys;
      while names != {}
        invariant names <= full.Keys
        invariant resources == map k | k in full && (k in caps || k in names) :: full[k]
        decreases names
      {
        var name :| name in names;
        Prune(full, caps, names, name);
        if name !in caps {
          resources := resources - {name};
        }
        names := names - {name};
      }
      assert resources == map k | k in full && k in caps :: full[k];
    }

    /** setRecipe: refused on a ghost for any name but null and "ghost", and
        for a name the type does not list; otherwise select it, clear the
        progress and recompute the ledger. A refusal changes nothing. */
    method SetRecipe(name: Option<string>) returns (o: Outcome)
      modifies this`recipeName, this`progress, this`resources
      ensures var r := NR.SetRecipe(book, info, old(Core()), name);
        && (o.Fail? <==> r.Failure?)
        && (r.Failure? ==> o.error == r.error && Core() == old(Core()))
        && (r.Success? ==> Core() == r.value)
    {
      if name != Some(NR.GhostKey) {
        if IsGhost() && name.Some? {
          return Fail(GhostRecipe(name.value, info.key));
        }
        if name.Some? && name.value !in info.recipes {
          return Fail(InvalidRecipe(name.value, info.key));
        }
      }
      recipeName := name;
      progress := None;
      UpdateResources();
      return Pass;
    }

    /** setGhost: clear the connections and the ledger, drop the recipe, and
        select "ghost", the type's only recipe, or none. */
    method SetGhost(world: map<string, Node>, g: bool)
      requires Closed(world) && In(world) && Graph.Valid(Links(world))
      modifies world.Values`inputs, world.Values`outputs
      modifies this`recipeName, this`progress, this`resources
      ensures Links(world) == Graph.Clear(old(Links(world)), uuid)
      ensures Core() == NR.SetGhost(book, info, old(Core()), g)
    {
      ghost var c0 := Core();
      ClearConnections(world);
      assert Core() == c0;
      label Cleared:
      ResetRecipe(g);
      LinksFrame@Cleared(world);
    }

    /** setGhost after its clearConnections: empty the ledger, drop the
        recipe, and select the target, which setRecipe cannot refuse. */
    method ResetRecipe(g: bool)
      modifies this`recipeName, this`progress, this`resources
      ensures Core() == NR.SetGhost(book, info, old(Core()), g)
    {
      resources := map[];
      recipeName := None;
      var target := if g then Some(NR.GhostKey) else if |info.recipes| == 1 then Some(info.recipes[0]) else None;
      assert target == NR.GhostTarget(info, g);
      var _ := SetRecipe(target);
    }

    // ---- amounts -----------------------------------------------------------

    /** move. */
    method Move(x: real, y: real)
      modifies this`x, this`y
      ensures this.x == x && this.y == y
    {
      this.x, this.y := x, y;
    }

    /** getResource: the entry of a tracked key, none otherwise. */
    function GetResource(name: string): (r: Option<Resource>)
      reads this`resources
      ensures r.Some? <==> name in resources
      ensures r.Some? ==> r.value == resources[name]
    {
      if name in resources then Some(resources[name]) else None
    }

    /** getResourceAmount: an untracked key reads as 0, or as null when
        strict. */
    function GetResourceAmount(name: string, strict: bool): (r: Option<real>)
      reads this`resources
      ensures !strict ==> r == Some(AmountOf(resources, name))
      ensures strict ==> (r.Some? <==> name in resources)
      ensures r.Some? && name in resources ==> r.value == resources[name].amount
    {
      if name in resources then Some(resources[name].amount)
      else if strict then None else Some(0.0)
    }

    /** setResource: track name with the given amount and maximum, replacing
        any entry it had. */
    method SetResource(name: string, value: real, maximum: real)
      modifies this`resources
      ensures name in resources && resources[name] == Resource(value, maximum)
      ensures forall k | k in old(resources) && k != name :: k in resources && resources[k] == old(resources)[k]
      ensures resources.Keys == old(resources).Keys + {name}
    {
      resources := resources[name := Resource(value, maximum)];
    }

    /** setResourceAmount: an untracked key is ignored. */
    method SetResourceAmount(name: string, value: real)
      modifies this`resources
      ensures resources == SetAmounts(old(resources), map[name := value])
    {
      if name in resources {
        resources := resources[name := resources[name].(amount := value)];
      }
    }

    /** pullResource: floor(min(held, request)) of an untracked key is 0;
        the amount is debited unless simulating. */
    method PullResource(name: string, request: real, simulate: bool) returns (available: real)
      modifies this`resources
      ensures var p := Pull(old(resources), name, request, simulate);
        available == p.amount && resources == p.stock
    {
      if name !in resources {
        return 0.0;
      }
      available := Floor(Min(resources[name].amount, request)) as real;
      if !simulate {
        resources := resources[name := resources[name].(amount := resources[name].amount - available)];
      }
    }

    /** The ingredient loop of a starting recipe. */
    method DebitIngredients(costs: ResourceMap)
      requires PositiveCosts(costs)
      modifies this`resources
      ensures resources == Debit(old(resources), costs)
    {
      ghost var s0 := resources;
      var todo := costs.Keys;
      while todo != {}
        invariant todo <= costs.Keys
        invariant resources == DebitSome(s0, costs, costs.Keys - todo)
        decreases todo
      {
        var name :| name in todo;
        var newAmount := Round((AmountOf(resources, name) - costs[name]) / costs[name]) as real * costs[name];
        DebitStep(s0, costs, costs.Keys - todo, name);
        assert newAmount == Snap(AmountOf(resources, name), costs[name]);
        SetResourceAmount(name, newAmount);
        todo := todo - {name};
        assert costs.Keys - todo == (costs.Keys - (todo + {name})) + {name};
      }
      assert resources == Debit(s0, costs);
    }

    /** The result loop of a finished recipe. */
    method CreditResults(gains: ResourceMap)
      modifies this`resources
      ensures resources == Credit(old(resources), gains)
    {
      ghost var s0 := resources;
      var todo := gains.Keys;
      while todo != {}
        invariant todo <= gains.Keys
        invariant resources == CreditSome(s0, gains, gains.Keys - todo)
        decreases todo
      {
        var name :| name in todo;
        CreditStep(s0, gains, gains.Keys - todo, name);
        SetResourceAmount(name, AmountOf(resources, name) + gains[name]);
        todo := todo - {name};
        assert gains.Keys - todo == (gains.Keys - (todo + {name})) + {name};
      }
      assert resources == Credit(s0, gains);
    }

    /** Set every saved amount (loadJson). */
    method LoadAmounts(saved: ResourceMap)
      modifies this`resources
      ensures resources == SetAmounts(old(resources), saved)
    {
      ghost var s0 := resources;
      var todo := saved.Keys;
      while todo != {}
        invariant todo <= saved.Keys
        invariant resources == SetAmounts(s0, map k | k in saved && k !in todo :: saved[k])
        decreases todo
      {
        var name :| name in todo;
        SetResourceAmount(name, saved[name]);
        todo := todo - {name};
        assert resources == SetAmounts(s0, map k | k in saved && k !in todo :: saved[k]);
      }
      assert (map k | k in saved && k !in todo :: saved[k]) == saved;
    }

    // ---- save and load -----------------------------------------------------

    /** toJson: position, recipe ("ghost" for a ghost), output ids, the
        amounts and the progress. */
    function ToJson(): NR.Save
      reads this`x, this`y, this`outputs, this`recipeName, this`progress, this`resources
    {
      NR.ToJson(x, y, outputs, Core())
    }

    /** loadJson: move, setGhost by the saved recipe, then the rest. A recipe
        setRecipe refuses ends the load there, with the error it raised. */
    method LoadJson(world: map<string, Node>, save: NR.Save) returns (o: Outcome)
      requires Closed(world) && In(world) && Graph.Valid(Links(world)) && Valid()
      modifies world.Values`inputs, world.Values`outputs
      modifies this`x, this`y, this`recipeName, this`progress, this`resources
      ensures x == save.x && y == save.y
      ensures Links(world) == Graph.Clear(old(Links(world)), uuid)
      ensures var r := NR.LoadJson(book, info, old(Core()), save);
        && (o.Fail? <==> r.Failure?)
        && (r.Failure? ==> o.error == r.error && Core() == NR.LoadBase(book, info, old(Core()), save))
        && (r.Success? ==> Core() == r.value)
      ensures Valid()
    {
      ghost var c0 := Core();
      Move(save.x, save.y);
      LinksFrame(world);
      assert Core() == c0;
      SetGhost(world, save.recipe == Some(NR.GhostKey));
      label Cleared:
      o := FinishLoad(save, c0);
      LinksFrame@Cleared(world);
    }

    /** The rest of loadJson, from the state setGhost left: c0 is the state
        before the load. */
    method FinishLoad(save: NR.Save, ghost c0: NR.Core) returns (o: Outcome)
      requires NR.Fits(book, info) && info.key == nodeType
      requires Core() == NR.LoadBase(book, info, c0, save)
      modifies this`recipeName, this`progress, this`resources
      ensures var r := NR.LoadJson(book, info, c0, save);
        && (o.Fail? <==> r.Failure?)
        && (r.Failure? ==> o.error == r.error && Core() == NR.LoadBase(book, info, c0, save))
        && (r.Success? ==> Core() == r.value)
      ensures Valid()
    {
      o := LoadRecipe(save);
    }

    /** loadJson after its setGhost: select the saved recipe unless it is
        the ghost's, then the saved amounts and progress. */
    method LoadRecipe(save: NR.Save) returns (o: Outcome)
      modifies this`recipeName, this`progress, this`resources
      ensures var r := NR.LoadRest(book, info, old(Core()), save);
        && (o.Fail? <==> r.Failure?)
        && (r.Failure? ==> o.error == r.error && Core() == old(Core()))
        && (r.Success? ==> Core() == r.value)
    {
      o := Pass;
      if save.recipe != Some(NR.GhostKey) {
        o := SetRecipe(save.recipe);
        if o.Fail? {
          return;
        }
      }
      LoadAmounts(save.resources);
      progress := save.progress;
    }

    // ---- the tick ----------------------------------------------------------

    /** processRecipe. */
    method ProcessRecipe(world: map<string, Node>)
      requires Closed(world) && In(world) && Graph.Valid(Links(world)) && Valid()
      modifies world.Values`inputs, world.Values`outputs
      modifies this`recipeName, this`progress, this`resources
      ensures var p := NR.Process(book, info, old(Core()));
        && Core() == p.core
        && Links(world) == (if p.built then Graph.Clear(old(Links(world)), uuid) else old(Links(world)))
      ensures Valid()
      ensures Snapshot(world) == old(Snapshot(world))[uuid := resources]
    {
      ghost var c0 := Core();
      ghost var s0 := Snapshot(world);
      Run(world);
      NR.ProcessConsistent(book, info, c0);
      SnapshotFrame(world, s0, this);
    }

    /** processRecipe's body. */
    method Run(world: map<string, Node>)
      requires Closed(world) && In(world) && Graph.Valid(Links(world)) && NR.Fits(book, info)
      modifies world.Values`inputs, world.Values`outputs
      modifies this`recipeName, this`progress, this`resources
      ensures var p := NR.Process(book, info, old(Core()));
        && Core() == p.core
        && Links(world) == (if p.built then Graph.Clear(old(Links(world)), uuid) else old(Links(world)))
    {
      if !NR.RecipeValid(book, info, Core()) {
        return;
      }
      var r := NR.Recipe(book, info, Core()).value;
      label Idle:
      var go := StartIfIdle();
      LinksFrame@Idle(world);
      if go {
        AdvanceRecipe(world, r);
      }
    }

    /** The start check of processRecipe: an idle node that starts on its
        own starts its recipe when ready, and go is false when it is not
        ready and processing stops there. */
    method StartIfIdle() returns (go: bool)
      requires NR.Fits(book, info) && NR.RecipeValid(book, info, Core())
      modifies this`progress, this`resources
      ensures var c := old(Core());
        && go == !(NR.AutoStarts(info, c) && !NR.RecipeReady(book, info, c))
        && Core() == (if NR.AutoStarts(info, c) && go then NR.Start(book, info, c) else c)
    {
      if progress.None? && !(info.manual && !IsGhost()) {
        if !NR.RecipeReady(book, info, Core()) {
          return false;
        }
        StartRecipe();
      }
      return true;
    }

    /** The start half of processRecipe: progress 0 and every ingredient
        snapped. */
    method StartRecipe()
      requires NR.Fits(book, info) && NR.RecipeValid(book, info, Core())
      modifies this`progress, this`resources
      ensures Core() == NR.Start(book, info, old(Core()))
    {
      progress := Some(0.0);
      NR.RecipeCosts(book, info, Core());
      DebitIngredients(NR.Recipe(book, info, Core()).value.ingredients);
    }

    /** The progress half of processRecipe, for the recipe r. */
    method AdvanceRecipe(world: map<string, Node>, r: RecipeMeta)
      requires Closed(world) && In(world) && Graph.Valid(Links(world))
      modifies world.Values`inputs, world.Values`outputs
      modifies this`recipeName, this`progress, this`resources
      ensures var p := NR.Advance(book, info, old(Core()), r);
        && Core() == p.core
        && Links(world) == (if p.built then Graph.Clear(old(Links(world)), uuid) else old(Links(world)))
    {
      if progress.Some? && progress.value < r.speed {
        var p := progress.value + 1.0;
        progress := Some(p);
        LinksFrame(world);
        if p == r.speed {
          Complete(world, r);
        }
      }
    }

    /** A recipe reaching its speed: a ghost is built, otherwise the results
        are credited; then the node goes idle. */
    method Complete(world: map<string, Node>, r: RecipeMeta)
      requires Closed(world) && In(world) && Graph.Valid(Links(world))
      modifies world.Values`inputs, world.Values`outputs
      modifies this`recipeName, this`progress, this`resources
      ensures var f := NR.Finish(book, info, old(Core()), r);
        && Core() == f.core
        && Links(world) == (if f.built then Graph.Clear(old(Links(world)), uuid) else old(Links(world)))
    {
      if IsGhost() {
        // setGhost's setRecipe has already cleared the progress.
        SetGhost(world, false);
      } else {
        CreditResults(NR.Products(r.results));
        progress := None;
        LinksFrame(world);
      }
    }

    /** poke. */
    method Poke()
      modifies this`progress
      ensures Core() == NR.Poke(book, info, old(Core()))
    {
      if !NR.RecipeReady(book, info, Core()) || progress.Some? {
        return;
      }
      progress := Some(0.0);
    }

    /** A fits-and-consistent state named c is the node's state: the node is
        valid. */
    lemma Revalidate(c: NR.Core)
      requires NR.Fits(book, info) && info.key == nodeType && NR.Consistent(book, info, c)
      requires c == Core()
      ensures Valid()
    {
    }

    /** Every input is a node of the world other than this one (what a
        valid graph guarantees of this node's inputs). */
    predicate Wired(world: map<string, Node>)
      reads this`inputs
    {
      uuid !in inputs && forall id | id in inputs :: id in world
    }

    lemma ValidIsWired(world: map<string, Node>)
      requires Closed(world) && In(world) && Graph.Valid(Links(world))
      ensures Wired(world)
    {
      var g := Links(world);
      assert g[uuid].inputs == inputs;
      Graph.EndsKnown(g, uuid);
    }

    /** tick: pull unless a ghost is being built, then processRecipe. */
    method Tick(world: map<string, Node>)
      requires Closed(world) && In(world) && Graph.Valid(Links(world)) && Valid() && Wired(world)
      modifies world.Values`resources, world.Values`inputs, world.Values`outputs
      modifies this`recipeName, this`progress
      ensures var s := NR.TickPull(book, info, old(Snapshot(world)), uuid, old(inputs), old(Core()));
        var p := NR.Process(book, info, old(Core()).(resources := s[uuid]));
        && Core() == p.core
        && Snapshot(world) == s[uuid := p.core.resources]
        && Links(world) == (if p.built then Graph.Clear(old(Links(world)), uuid) else old(Links(world)))
      ensures Valid()
    {
      TickPull(world);
      ProcessRecipe(world);
    }

    /** tick's pull phase. */
    method TickPull(world: map<string, Node>)
      requires Closed(world) && In(world) && Wired(world) && Valid()
      modifies world.Values`resources
      ensures Snapshot(world) == NR.TickPull(book, info, old(Snapshot(world)), uuid, inputs, old(Core()))
      ensures Links(world) == old(Links(world))
      ensures Core() == old(Core()).(resources := Snapshot(world)[uuid])
      ensures Valid()
    {
      ghost var c0 := Core();
      ghost var s0 := Snapshot(world);
      PullUnlessBuilding(world);
      NR.TickPullShape(book, info, s0, uuid, inputs, c0);
      Revalidate(c0.(resources := resources));
    }

    /** A ghost that is building does not pull. */
    method PullUnlessBuilding(world: map<string, Node>)
      requires Closed(world) && In(world) && Wired(world)
      modifies world.Values`resources
      ensures Snapshot(world) == NR.TickPull(book, info, old(Snapshot(world)), uuid, inputs, old(Core()))
      ensures Links(world) == old(Links(world))
      ensures resources == Snapshot(world)[uuid]
    {
      if !IsGhost() || progress.None? {
        PullResources(world);
      }
      LinksFrame(world);
    }

    // ---- pulling -----------------------------------------------------------

    /** One iteration of the inner loop: ask input src for request of name
        and add what it gives here when that is positive. */
    method PullFrom(world: map<string, Node>, src: string, name: string, request: real) returns (given: real)
      requires Closed(world) && In(world) && name in resources && src in world && src != uuid
      modifies world.Values`resources
      ensures name in resources
      ensures var s := old(Snapshot(world));
        && given == NR.Given(s, src, name, request)
        && Snapshot(world) == NR.Transfer(s, uuid, src, name, request)
    {
      ghost var s := Snapshot(world);
      var input := world[src];
      Apart(world, input, this);
      given := input.PullResource(name, request, false);
      assert Snapshot(world) == s[src := Pull(s[src], name, request, false).stock];
      if given > 0.0 {
        resources := resources[name := resources[name].(amount := resources[name].amount + given)];
      }
    }

    /** One turn of the inner loop: ask the first of the inputs ids still to
        be asked for its share of remaining; rest is what remains after it.
        The state is then the whole loop's result when rest <= 0, and the
        loop over the other inputs leads to the same result otherwise. */
    method PullTurn(world: map<string, Node>, ids: seq<string>, name: string, remaining: real) returns (rest: real)
      requires Closed(world) && In(world) && name in resources && ids != []
      requires forall id | id in ids :: id in world && id != uuid
      modifies world.Values`resources
      ensures name in resources
      ensures var target := NR.Drain(old(Snapshot(world)), uuid, ids, name, remaining);
        && (rest <= 0.0 ==> Snapshot(world) == target)
        && (rest > 0.0 ==> NR.Drain(Snapshot(world), uuid, ids[1..], name, rest) == target)
    {
      ghost var s := Snapshot(world);
      var request := NR.Share(remaining, |ids|);
      var pulled := PullFrom(world, ids[0], name, request);
      rest := remaining;
      if pulled > 0.0 {
        rest := remaining - pulled;
      }
      NR.DrainTurn(s, Snapshot(world), uuid, ids, name, remaining, rest);
    }

    /** The inner loop of pullResources for one key: ask each tracking input
        in turn for its share of what remains, move what it gives here, and
        stop once nothing remains. */
    method PullKey(world: map<string, Node>, name: string, demand: real)
      requires Closed(world) && In(world) && name in resources && uuid !in inputs
      requires forall id | id in inputs :: id in world
      modifies world.Values`resources
      ensures var s := old(Snapshot(world));
        Snapshot(world) == NR.Drain(s, uuid, NR.Tracking(s, inputs, name), name, demand)
    {
      var list := NR.Tracking(Snapshot(world), inputs, name);
      ghost var target := NR.Drain(Snapshot(world), uuid, list, name, demand);
      assert target == NR.Drain(old(Snapshot(world)), uuid, NR.Tracking(old(Snapshot(world)), inputs, name), name, demand);
      var remaining := demand;
      var i := 0;
      assert list[0..] == list;
      assert forall id | id in list :: id in world && id != uuid;
      while i < |list|
        invariant 0 <= i <= |list| && In(world) && name in resources
        invariant NR.Drain(Snapshot(world), uuid, list[i..], name, remaining) == target
        decreases |list| - i
      {
        ghost var ids := list[i..];
        assert forall id | id in ids :: id in list;
        var rest := PullTurn(world, list[i..], name, remaining);
        if rest <= 0.0 {
          assert Snapshot(world) == target;
          return;
        }
        assert ids[1..] == list[i + 1..];
        remaining := rest;
        i := i + 1;
      }
    }

    /** pullResources: the inner loop for every key of the demand. The keys
        are taken in any order: each loop moves and reads only its own key,
        so every order ends in the same state. */
    method PullResources(world: map<string, Node>)
      requires Closed(world) && In(world) && uuid !in inputs
      requires forall id | id in inputs :: id in world
      modifies world.Values`resources
      ensures Snapshot(world) ==
        NR.PullAll(old(Snapshot(world)), uuid, inputs, NR.Demand(book, info, old(Core())))
    {
      var demand := NR.Demand(book, info, Core());
      ghost var s0 := Snapshot(world);
      NR.PullNone(s0, uuid, inputs, demand);
      var todo := demand.Keys;
      ghost var done: set<string> := {};
      while todo != {}
        invariant todo !! done && todo + done == demand.Keys
        invariant Snapshot(world) == NR.PullSome(s0, uuid, inputs, demand, done)
        decreases todo
      {
        var name :| name in todo;
        NR.PullStep(s0, uuid, inputs, demand, done, name);
        PullKey(world, name, demand[name]);
        todo := todo - {name};
        done := done + {name};
      }
    }
  }

  /** Links are a function of the inputs and outputs alone. */
  twostate lemma LinksFrame(world: map<string, Node>)
    requires forall id | id in world ::
      old(world[id].inputs) == world[id].inputs && old(world[id].outputs) == world[id].outputs
    ensures Links(world) == old(Links(world))
  {
  }

  /** When only n's ledger differs from the ledgers of snapshot s, the
      world's snapshot is s with n's entry replaced. */
  lemma SnapshotFrame(world: map<string, Node>, s: NR.Stocks, n: Node)
    requires Closed(world) && n.uuid in world && world[n.uuid] == n && s.Keys == world.Keys
    requires forall id | id in world && id != n.uuid :: world[id].resources == s[id]
    ensures Snapshot(world) == s[n.uuid := n.resources]
  {
  }

  /** In a closed world, an object filed under another id is neither a nor b. */
  lemma Apart(world: map<string, Node>, a: Node, b: Node)
    requires Closed(world)
    ensures forall id | id in world && id != a.uuid && id != b.uuid :: world[id] != a && world[id] != b
  {
  }
}
