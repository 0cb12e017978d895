/** The machine of the older revision (src/Machine.ts) as a class. Like a
    node it reaches its peers through a world, the map from uuid to machine;
    a peer is named in the edge lists by its uuid. Its connection graph is
    the same value as the nodes' (graph.dfy). */
module Machines {
  import opened Wrappers
  import opened JsMath
  import opened Seqs
  import opened Catalog
  import opened Ledger
  import Graph
  import NR = NodeRules
  import MR = MachineRules

  // Machine is a class of its own in src/Machine.ts, so the world-level
  // helpers below (Closed, Links, Snapshot and the frame lemmas at the end
  // of this module) mirror those of module Nodes, over machines.

  /** Every machine of the world is filed under its own uuid. */
  predicate Closed(world: map<string, Machine>) {
    forall id | id in world :: world[id].uuid == id
  }

  /** The connection graph of the world. */
  function Links(world: map<string, Machine>): (g: Graph.Links)
    reads world.Values`inputs, world.Values`outputs
    ensures g.Keys == world.Keys
  {
    map id | id in world :: Graph.Adj(world[id].inputs, world[id].outputs)
  }

  /** Every ledger of the world. */
  function Snapshot(world: map<string, Machine>): (s: NR.Stocks)
    reads world.Values`resources
    ensures s.Keys == world.Keys
  {
    map id | id in world :: world[id].resources
  }

  class Machine {
    const uuid: string
    const machineType: string
    const catalog: Data
    const book: Book
    const info: NodeMeta

    var x: real
    var y: real
    var inputs: seq<string>
    var outputs: seq<string>
    var resources: Stock
    var progress: Option<real>
    var recipeName: Option<string>

    function Core(): NR.Core
      reads this`recipeName, this`progress, this`resources
    {
      NR.Core(recipeName, progress, resources)
    }

    /** The data file fits the machine's type, every recipe reads only
        tracked keys, and the machine is consistent. */
    ghost predicate Valid()
      reads this`recipeName, this`progress, this`resources
    {
      && NR.Fits(book, info) && MR.Tracks(book, info) && info.key == machineType
      && NR.Consistent(book, info, Core())
    }

    predicate In(world: map<string, Machine>) {
      uuid in world && world[uuid] == this
    }

    predicate IsGhost()
      reads this`recipeName
    {
      recipeName == Some(NR.GhostKey)
    }

    /** new Machine(type, uuid) for a type the data file defines: the name
        starts as the empty string and setGhost(true) makes it a ghost at
        the origin with no connections. */
    constructor (d: Data, machineType: string, uuid: string)
      requires NR.Builds(d, machineType) && MR.Tracks(RecipeBook(d), NodeInfo(d, machineType).value)
      ensures this.uuid == uuid && this.machineType == machineType && catalog == d && book == RecipeBook(d)
      ensures info == NodeInfo(d, machineType).value
      ensures x == 0.0 && y == 0.0 && inputs == [] && outputs == []
      ensures Core() == MR.SetGhost(book, info, NR.Core(Some(""), None, map[]), true)
      ensures Valid() && IsGhost()
    {
      this.uuid := uuid;
      this.machineType := machineType;
      catalog := d;
      book := RecipeBook(d);
      info := NodeInfo(d, machineType).value;
      x, y := 0.0, 0.0;
      inputs, outputs := [], [];
      recipeName, progress, resources := Some(""), None, map[];
      new;
      // setGhost(true): there are no connections to clear yet
      recipeName, progress := MR.GhostName(true), None;
      ResetLedger();
    }

    // ---- connections -------------------------------------------------------

    /** hasOutput: whether some output has machine's uuid. */
    method HasOutput(machine: Machine) returns (b: bool)
      ensures b <==> machine.uuid in outputs
    {
      var i := 0;
      while i < |outputs|
        invariant 0 <= i <= |outputs|
        invariant machine.uuid !in outputs[..i]
      {
        if outputs[i] == machine.uuid {
          return true;
        }
        i := i + 1;
      }
      assert outputs[..i] == outputs;
      return false;
    }

    /** hasInput: whether some input has machine's uuid. */
    method HasInput(machine: Machine) returns (b: bool)
      ensures b <==> machine.uuid in inputs
    {
      var i := 0;
      while i < |inputs|
        invariant 0 <= i <= |inputs|
        invariant machine.uuid !in inputs[..i]
      {
        if inputs[i] == machine.uuid {
          return true;
        }
        i := i + 1;
      }
      assert inputs[..i] == inputs;
      return false;
    }

    /** addOutput: refused for a self-edge and on a ghost. */
    method AddOutput(world: map<string, Machine>, machine: Machine)
      requires Closed(world) && In(world) && machine.In(world)
      modifies this`outputs, machine`inputs
      ensures Links(world) == Graph.AddOutput(old(Links(world)), uuid, machine.uuid, IsGhost())
    {
      if uuid == machine.uuid || IsGhost() {
        return;
      }
      if machine.uuid !in outputs && uuid !in machine.inputs {
        outputs := outputs + [machine.uuid];
        machine.inputs := machine.inputs + [uuid];
      }
      Apart(world, this, machine);
    }

    /** addInput: refused for a self-edge. */
    method AddInput(world: map<string, Machine>, machine: Machine)
      requires Closed(world) && In(world) && machine.In(world)
      modifies this`inputs, machine`outputs
      ensures Links(world) == Graph.AddInput(old(Links(world)), uuid, machine.uuid)
    {
      if uuid == machine.uuid {
        return;
      }
      if machine.uuid !in inputs && uuid !in machine.outputs {
        inputs := inputs + [machine.uuid];
        machine.outputs := machine.outputs + [uuid];
      }
      Apart(world, this, machine);
    }

    /** removeOutput: delete machine from the outputs, then this from
        machine's inputs. */
    method RemoveOutput(world: map<string, Machine>, machine: Machine)
      requires Closed(world) && In(world) && machine.In(world)
      modifies this`outputs, machine`inputs
      ensures Links(world) == Graph.RemoveOutput(old(Links(world)), uuid, machine.uuid)
    {
      ghost var g := old(Links(world));
      outputs := Remove(outputs, machine.uuid);
      machine.inputs := Remove(machine.inputs, uuid);
      Apart(world, this, machine);
      ghost var r := Graph.RemoveOutput(g, uuid, machine.uuid);
      assert Links(world)[uuid] == r[uuid];
      assert Links(world)[machine.uuid] == r[machine.uuid];
      assert Links(world) == r;
    }

    /** removeInput. */
    method RemoveInput(world: map<string, Machine>, machine: Machine)
      requires Closed(world) && In(world) && machine.In(world)
      modifies this`inputs, machine`outputs
      ensures Links(world) == Graph.RemoveInput(old(Links(world)), uuid, machine.uuid)
    {
      ghost var g := old(Links(world));
      inputs := Remove(inputs, machine.uuid);
      machine.outputs := Remove(machine.outputs, uuid);
      Apart(world, this, machine);
      ghost var r := Graph.RemoveInput(g, uuid, machine.uuid);
      assert Links(world)[uuid] == r[uuid];
      assert Links(world)[machine.uuid] == r[machine.uuid];
      assert Links(world) == r;
    }

    /** toggleOutput. */
    method ToggleOutput(world: map<string, Machine>, machine: Machine)
      requires Closed(world) && In(world) && machine.In(world)
      modifies this`outputs, machine`inputs
      ensures Links(world) == Graph.ToggleOutput(old(Links(world)), uuid, machine.uuid, IsGhost())
    {
      var has := HasOutput(machine);
      if has {
        RemoveOutput(world, machine);
      } else {
        AddOutput(world, machine);
      }
    }

    /** toggleInput. */
    method ToggleInput(world: map<string, Machine>, machine: Machine)
      requires Closed(world) && In(world) && machine.In(world)
      modifies this`inputs, machine`outputs
      ensures Links(world) == Graph.ToggleInput(old(Links(world)), uuid, machine.uuid)
    {
      var has := HasInput(machine);
      if has {
        RemoveInput(world, machine);
      } else {
        AddInput(world, machine);
      }
    }

    /** clearConnections: remove every output, then every input. */
    method ClearConnections(world: map<string, Machine>)
      requires Closed(world) && In(world) && Graph.Valid(Links(world))
      modifies world.Values`inputs, world.Values`outputs
      ensures Links(world) == Graph.Clear(old(Links(world)), uuid)
    {
      ghost var g0 := Links(world);
      RemoveAllOutputs(world);
      RemoveAllInputs(world);
      Graph.ClearSequential(g0, uuid);
    }

    /** The output loop of clearConnections. */
    method RemoveAllOutputs(world: map<string, Machine>)
      requires Closed(world) && In(world) && Graph.Valid(Links(world))
      modifies world.Values`inputs, world.Values`outputs
      ensures Graph.Valid(Links(world)) && outputs == []
      ensures Links(world) == Graph.RemoveOutputs(old(Links(world)), uuid, old(outputs))
    {
      ghost var g := Links(world);
      ghost var goal := Graph.RemoveOutputs(g, uuid, outputs);
      while outputs != []
        invariant Links(world) == g && Graph.Valid(g) && outputs == g[uuid].outputs
        invariant Graph.RemoveOutputs(g, uuid, outputs) == goal
        decreases |outputs|
      {
        Graph.RemoveFirstOutput(g, uuid);
        var machine := world[outputs[0]];
        RemoveOutput(world, machine);
        g := Graph.RemoveOutput(g, uuid, machine.uuid);
      }
    }

    /** The input loop of clearConnections. */
    method RemoveAllInputs(world: map<string, Machine>)
      requires Closed(world) && In(world) && Graph.Valid(Links(world))
      modifies world.Values`inputs, world.Values`outputs
      ensures Graph.Valid(Links(world)) && inputs == []
      ensures Links(world) == Graph.RemoveInputs(old(Links(world)), uuid, old(inputs))
    {
      ghost var g := Links(world);
      ghost var goal := Graph.RemoveInputs(g, uuid, inputs);
      while inputs != []
        invariant Links(world) == g && Graph.Valid(g) && inputs == g[uuid].inputs
        invariant Graph.RemoveInputs(g, uuid, inputs) == goal
        decreases |inputs|
      {
        Graph.RemoveFirstInput(g, uuid);
        var machine := world[inputs[0]];
        RemoveInput(world, machine);
        g := Graph.RemoveInput(g, uuid, machine.uuid);
      }
    }

    // ---- recipe and ledger -----------------------------------------------

    /** updateResources: set or clamp every capacity key, then delete every
        key without a capacity. */
    method UpdateResources()
      modifies this`resources
      ensures resources == Recompute(old(resources), NR.Capacities(book, info, old(Core())))
    {
      var caps := NR.Capacities(book, info, Core());
      ghost var s0 := resources;
      SetCapacities(caps);
      DropUncapped(caps);
      PartialDone(s0, caps);
    }

    /** The first loop of updateResources. */
    method SetCapacities(caps: ResourceMap)
      modifies this`resources
      ensures resources == Partial(old(resources), caps, caps.Keys)
    {
      ghost var s0 := resources;
      var todo := caps.Keys;
      while todo != {}
        invariant todo <= caps.Keys
        invariant resources == Partial(s0, caps, caps.Keys - todo)
        decreases todo
      {
        var name :| name in todo;
        PartialStep(s0, caps, caps.Keys - todo, name);
        if name in resources {
          resources := resources[name := Resource(Min(resources[name].amount, caps[name]), caps[name])];
        } else {
          resources := resources[name := Resource(0.0, caps[name])];
        }
        todo := todo - {name};
        assert caps.Keys - todo == (caps.Keys - (todo + {name})) + {name};
      }
    }

    /** The second loop of updateResources. */
    method DropUncapped(caps: ResourceMap)
      modifies this`resources
      ensures resources == map k | k in old(resources) && k in caps :: old(resources)[k]
    {
      ghost var full := resources;
      var names := resources.Keys;
      while names != {}
        invariant names <= full.Keys
        invariant resources == map k | k in full && (k in caps || k in names) :: full[k]
        decreases names
      {
        var name :| name in names;
        Prune(full, caps, names, name);
        if name !in caps {
          resources := resources - {name};
        }
        names := names - {name};
      }
      assert resources == map k | k in full && k in caps :: full[k];
    }

    /** setRecipe: refused on a ghost for any non-null name and for a name
        the type does not list; otherwise select it and recompute the ledger,
        keeping the progress. A refusal changes nothing. */
    method SetRecipe(name: Option<string>) returns (o: Outcome)
      modifies this`recipeName, this`resources
      ensures var r := MR.SetRecipe(book, info, old(Core()), name);
        && (o.Fail? <==> r.Failure?)
        && (r.Failure? ==> o.error == r.error && Core() == old(Core()))
        && (r.Success? ==> Core() == r.value)
    {
      if IsGhost() && name.Some? {
        return Fail(GhostRecipe(name.value, info.key));
      }
      if name.Some? && name.value !in info.recipes {
        return Fail(InvalidRecipe(name.value, info.key));
      }
      recipeName := name;
      UpdateResources();
      return Pass;
    }

    /** setGhost: "ghost" or no recipe, no progress, no connections, and an
        emptied ledger recomputed. */
    method SetGhost(world: map<string, Machine>, g: bool)
      requires Closed(world) && In(world) && Graph.Valid(Links(world))
      modifies world.Values`inputs, world.Values`outputs
      modifies this`recipeName, this`progress, this`resources
      ensures Links(world) == Graph.Clear(old(Links(world)), uuid)
      ensures Core() == MR.SetGhost(book, info, old(Core()), g)
    {
      recipeName, progress := MR.GhostName(g), None;
      LinksFrame(world);
      ghost var named := Core();
      ClearConnections(world);
      assert Core() == named;
      label Cleared:
      ResetLedger();
      LinksFrame@Cleared(world);
    }

    /** setGhost's resources.clear() and updateResources(). */
    method ResetLedger()
      modifies this`resources
      ensures Core() == NR.Refresh(book, info, old(Core()).(resources := map[]))
    {
      resources := map[];
      UpdateResources();
    }

    // ---- amounts -----------------------------------------------------------

    /** move. */
    method Move(x: real, y: real)
      modifies this`x, this`y
      ensures this.x == x && this.y == y
    {
      this.x, this.y := x, y;
    }

    /** pullResource: an untracked key gives 0; otherwise floor(min(held,
        request)), debited unless simulating. */
    method PullResource(name: string, request: real, simulate: bool) returns (available: real)
      modifies this`resources
      ensures var p := Pull(old(resources), name, request, simulate);
        available == p.amount && resources == p.stock
    {
      if name !in resources {
        return 0.0;
      }
      available := Floor(Min(resources[name].amount, request)) as real;
      if !simulate {
        resources := resources[name := resources[name].(amount := resources[name].amount - available)];
      }
    }

    /** The ingredient loop of a starting recipe: each ingredient, all of
        them tracked, is debited by its cost and then snapped to a whole
        multiple of the cost. */
    method DebitIngredients(costs: ResourceMap)
      requires PositiveCosts(costs) && costs.Keys <= resources.Keys
      modifies this`resources
      ensures resources == Debit(old(resources), costs)
    {
      ghost var s0 := resources;
      var todo := costs.Keys;
      while todo != {}
        invariant todo <= costs.Keys && resources.Keys == s0.Keys
        invariant resources == DebitSome(s0, costs, costs.Keys - todo)
        decreases todo
      {
        var name :| name in todo;
        ghost var cur := resources;
        DebitStep(s0, costs, costs.Keys - todo, name);
        // subtract the cost, then snap what is left to a multiple of it
        var left := resources[name].amount - costs[name];
        assert Round(left / costs[name]) as real * costs[name] == Snap(AmountOf(cur, name), costs[name]);
        SetOne(cur, name, Round(left / costs[name]) as real * costs[name]);
        resources := resources[name := resources[name].(amount := Round(left / costs[name]) as real * costs[name])];
        todo := todo - {name};
        assert costs.Keys - todo == (costs.Keys - (todo + {name})) + {name};
      }
      assert resources == Debit(s0, costs);
    }

    /** The result loop of a finished recipe: each result, all of them
        tracked, is added. */
    method CreditResults(gains: ResourceMap)
      requires gains.Keys <= resources.Keys
      modifies this`resources
      ensures resources == Credit(old(resources), gains)
    {
      ghost var s0 := resources;
      var todo := gains.Keys;
      while todo != {}
        invariant todo <= gains.Keys && resources.Keys == s0.Keys
        invariant resources == CreditSome(s0, gains, gains.Keys - todo)
        decreases todo
      {
        var name :| name in todo;
        ghost var cur := resources;
        CreditStep(s0, gains, gains.Keys - todo, name);
        SetOne(cur, name, resources[name].amount + gains[name]);
        resources := resources[name := resources[name].(amount := resources[name].amount + gains[name])];
        todo := todo - {name};
        assert gains.Keys - todo == (gains.Keys - (todo + {name})) + {name};
      }
      assert resources == Credit(s0, gains);
    }

    /** The saved amounts of loadJson: `resources.get(key).amount = value`
        for each saved key, which throws on the first untracked key it
        meets, with the keys met before it already set. */
    method LoadAmounts(saved: ResourceMap) returns (o: Outcome)
      modifies this`resources
      ensures o.Pass? <==> saved.Keys <= old(resources).Keys
      ensures o.Pass? ==> resources == SetAmounts(old(resources), saved)
      ensures o.Fail? ==> o.error.UntrackedResource? && o.error.name in saved && o.error.name !in old(resources)
      ensures o.Fail? ==> exists done | done <= saved.Keys :: resources == SetAmounts(old(resources), map k | k in done :: saved[k])
    {
      ghost var s0 := resources;
      var todo := saved.Keys;
      while todo != {}
        invariant todo <= saved.Keys && saved.Keys - todo <= s0.Keys
        invariant resources == SetAmounts(s0, map k | k in saved && k !in todo :: saved[k])
        decreases todo
      {
        var name :| name in todo;
        if name !in resources {
          ghost var done := saved.Keys - todo;
          assert (map k | k in done :: saved[k]) == map k | k in saved && k !in todo :: saved[k];
          assert done <= saved.Keys && resources == SetAmounts(s0, map k | k in done :: saved[k]);
          return Fail(UntrackedResource(name));
        }
        resources := resources[name := resources[name].(amount := saved[name])];
        todo := todo - {name};
        assert resources == SetAmounts(s0, map k | k in saved && k !in todo :: saved[k]);
      }
      assert (map k | k in saved && k !in todo :: saved[k]) == saved;
      return Pass;
    }

    // ---- save and load -----------------------------------------------------

    /** toJson: position, recipe ("ghost" for a ghost), output ids, the
        amounts and the progress, as the current revision saves them. */
    function ToJson(): NR.Save
      reads this`x, this`y, this`outputs, this`recipeName, this`progress, this`resources
    {
      NR.ToJson(x, y, outputs, Core())
    }

    /** loadJson: move, setGhost by the saved recipe, setRecipe of any other
        recipe, which may refuse it, then the saved amounts, which throw on
        an untracked key, then the saved progress. */
    method LoadJson(world: map<string, Machine>, save: NR.Save) returns (o: Outcome)
      requires Closed(world) && In(world) && Graph.Valid(Links(world)) && Valid()
      modifies world.Values`inputs, world.Values`outputs
      modifies this`x, this`y, this`recipeName, this`progress, this`resources
      ensures x == save.x && y == save.y
      ensures Links(world) == Graph.Clear(old(Links(world)), uuid)
      ensures var r := MR.LoadRecipe(book, info, old(Core()), save);
        && (r.Failure? ==>
              o == Fail(r.error) && Core() == MR.SetGhost(book, info, old(Core()), save.recipe == Some(NR.GhostKey)))
        && (r.Success? && MR.Untracked(r.value, save) != {} ==>
              && o.Fail? && o.error.UntrackedResource? && o.error.name in MR.Untracked(r.value, save)
              && recipeName == save.recipe && progress.None? && resources.Keys == r.value.resources.Keys
              && exists done | done <= save.resources.Keys ::
                   resources == SetAmounts(r.value.resources, map k | k in done :: save.resources[k]))
        && (r.Success? && MR.Untracked(r.value, save) == {} ==>
              o == Pass && Core() == MR.LoadJson(book, info, old(Core()), save).value)
      ensures o.Pass? ==> Valid()
    {
      ghost var c0 := Core();
      Move(save.x, save.y);
      LinksFrame(world);
      assert Core() == c0;
      SetGhost(world, save.recipe == Some(NR.GhostKey));
      label Cleared:
      o := FinishLoad(save, c0);
      LinksFrame@Cleared(world);
    }

    /** The rest of loadJson, from the state setGhost left: c0 is the state
        before the load. */
    method FinishLoad(save: NR.Save, ghost c0: NR.Core) returns (o: Outcome)
      requires NR.Fits(book, info) && MR.Tracks(book, info) && info.key == machineType
      requires Core() == MR.SetGhost(book, info, c0, save.recipe == Some(NR.GhostKey))
      modifies this`recipeName, this`progress, this`resources
      ensures var r := MR.LoadRecipe(book, info, c0, save);
        && (r.Failure? ==> o == Fail(r.error) && Core() == old(Core()))
        && (r.Success? && MR.Untracked(r.value, save) != {} ==>
              && o.Fail? && o.error.UntrackedResource? && o.error.name in MR.Untracked(r.value, save)
              && recipeName == save.recipe && progress.None? && resources.Keys == r.value.resources.Keys
              && exists done | done <= save.resources.Keys ::
                   resources == SetAmounts(r.value.resources, map k | k in done :: save.resources[k]))
        && (r.Success? && MR.Untracked(r.value, save) == {} ==>
              o == Pass && Core() == MR.LoadJson(book, info, c0, save).value)
      ensures o.Pass? ==> Valid()
    {
      o := Pass;
      if save.recipe != Some(NR.GhostKey) {
        o := SetRecipe(save.recipe);
        if o.Fail? {
          return;
        }
      }
      ghost var named := Core();
      assert named == MR.LoadRecipe(book, info, c0, save).value;
      o := LoadAmounts(save.resources);
      if o.Fail? {
        assert resources.Keys == named.resources.Keys by {
          var done :| done <= save.resources.Keys && resources == SetAmounts(named.resources, map k | k in done :: save.resources[k]);
        }
        return;
      }
      progress := save.progress;
    }

    // ---- the tick ----------------------------------------------------------

    /** processRecipe. */
    method ProcessRecipe(world: map<string, Machine>)
      requires Closed(world) && In(world) && Graph.Valid(Links(world)) && Valid()
      modifies world.Values`inputs, world.Values`outputs
      modifies this`recipeName, this`progress, this`resources
      ensures var p := MR.Process(book, info, old(Core()));
        && Core() == p.core
        && Links(world) == (if p.built then Graph.Clear(old(Links(world)), uuid) else old(Links(world)))
      ensures Valid()
      ensures Snapshot(world) == old(Snapshot(world))[uuid := resources]
    {
      ghost var c0 := Core();
      ghost var s0 := Snapshot(world);
      Run(world);
      MR.ProcessConsistent(book, info, c0);
      SnapshotFrame(world, s0, this);
    }

    /** processRecipe's body. */
    method Run(world: map<string, Machine>)
      requires Closed(world) && In(world) && Graph.Valid(Links(world)) && Valid()
      modifies world.Values`inputs, world.Values`outputs
      modifies this`recipeName, this`progress, this`resources
      ensures var p := MR.Process(book, info, old(Core()));
        && Core() == p.core
        && Links(world) == (if p.built then Graph.Clear(old(Links(world)), uuid) else old(Links(world)))
    {
      if !NR.RecipeValid(book, info, Core()) {
        return;
      }
      var r := NR.Recipe(book, info, Core()).value;
      MR.TrackedKeys(book, info, Core());
      label Idle:
      var go := StartIfIdle();
      LinksFrame@Idle(world);
      if go {
        AdvanceRecipe(world, r);
      }
    }

    /** The start check of processRecipe: an idle machine that starts on its
        own starts when ready; go is false when it is not ready and
        processing stops there. */
    method StartIfIdle() returns (go: bool)
      requires NR.Fits(book, info) && NR.RecipeValid(book, info, Core())
      requires NR.Recipe(book, info, Core()).value.ingredients.Keys <= resources.Keys
      modifies this`progress, this`resources
      ensures var c := old(Core());
        && go == !(NR.AutoStarts(info, c) && !NR.RecipeReady(book, info, c))
        && Core() == (if NR.AutoStarts(info, c) && go then NR.Start(book, info, c) else c)
        && resources.Keys == old(resources).Keys
    {
      if progress.None? && !(info.manual && !IsGhost()) {
        if !NR.RecipeReady(book, info, Core()) {
          return false;
        }
        StartRecipe();
      }
      return true;
    }

    /** The start half of processRecipe: progress 0, then every ingredient
        debited and snapped. */
    method StartRecipe()
      requires NR.Fits(book, info) && NR.RecipeValid(book, info, Core())
      requires NR.Recipe(book, info, Core()).value.ingredients.Keys <= resources.Keys
      modifies this`progress, this`resources
      ensures Core() == NR.Start(book, info, old(Core()))
    {
      progress := Some(0.0);
      NR.RecipeCosts(book, info, Core());
      DebitIngredients(NR.Recipe(book, info, Core()).value.ingredients);
    }

    /** The progress half of processRecipe, for the recipe r. */
    method AdvanceRecipe(world: map<string, Machine>, r: RecipeMeta)
      requires Closed(world) && In(world) && Graph.Valid(Links(world))
      requires NR.Products(r.results).Keys <= resources.Keys
      modifies world.Values`inputs, world.Values`outputs
      modifies this`recipeName, this`progress, this`resources
      ensures var p := MR.Advance(book, info, old(Core()), r);
        && Core() == p.core
        && Links(world) == (if p.built then Graph.Clear(old(Links(world)), uuid) else old(Links(world)))
    {
      if progress.Some? && progress.value < r.speed {
        var p := progress.value + 1.0;
        progress := Some(p);
        LinksFrame(world);
        if p == r.speed {
          Complete(world, r);
        }
      }
    }

    /** A recipe reaching its speed: a ghost becomes a built machine,
        otherwise the results are credited; then the machine goes idle. */
    method Complete(world: map<string, Machine>, r: RecipeMeta)
      requires Closed(world) && In(world) && Graph.Valid(Links(world))
      requires NR.Products(r.results).Keys <= resources.Keys
      modifies world.Values`inputs, world.Values`outputs
      modifies this`recipeName, this`progress, this`resources
      ensures var f := MR.Finish(book, info, old(Core()), r);
        && Core() == f.core
        && Links(world) == (if f.built then Graph.Clear(old(Links(world)), uuid) else old(Links(world)))
    {
      if IsGhost() {
        SetGhost(world, false);
      } else {
        CreditResults(NR.Products(r.results));
        LinksFrame(world);
      }
      label Done:
      progress := None;
      LinksFrame@Done(world);
    }

    /** poke. */
    method Poke()
      modifies this`progress
      ensures Core() == NR.Poke(book, info, old(Core()))
    {
      if !NR.RecipeReady(book, info, Core()) || progress.Some? {
        return;
      }
      progress := Some(0.0);
    }

    /** A state that fits, tracks, is consistent and is named c is the
        machine's state: the machine is valid. */
    lemma Revalidate(c: NR.Core)
      requires NR.Fits(book, info) && MR.Tracks(book, info) && info.key == machineType
      requires NR.Consistent(book, info, c) && c == Core()
      ensures Valid()
    {
    }

    /** Every input is a machine of the world other than this one. */
    predicate Wired(world: map<string, Machine>)
      reads this`inputs
    {
      uuid !in inputs && forall id | id in inputs :: id in world
    }

    lemma ValidIsWired(world: map<string, Machine>)
      requires Closed(world) && In(world) && Graph.Valid(Links(world))
      ensures Wired(world)
    {
      var g := Links(world);
      assert g[uuid].inputs == inputs;
      Graph.EndsKnown(g, uuid);
    }

    /** tick: pull unless a ghost is being built, then processRecipe. */
    method Tick(world: map<string, Machine>)
      requires Closed(world) && In(world) && Graph.Valid(Links(world)) && Valid() && Wired(world)
      modifies world.Values`resources, world.Values`inputs, world.Values`outputs
      modifies this`recipeName, this`progress
      ensures var s := MR.TickPull(book, info, old(Snapshot(world)), old(Links(world)), uuid, old(inputs), old(Core()));
        var p := MR.Process(book, info, old(Core()).(resources := s[uuid]));
        && Core() == p.core
        && Snapshot(world) == s[uuid := p.core.resources]
        && Links(world) == (if p.built then Graph.Clear(old(Links(world)), uuid) else old(Links(world)))
      ensures Valid()
    {
      ghost var c0 := Core();
      MR.TickPullKeeps(book, info, Snapshot(world), Links(world), uuid, inputs, c0);
      TickPull(world);
      Revalidate(c0.(resources := resources));
      ProcessRecipe(world);
    }

    /** tick's pull phase, on the machine's own state. */
    method TickPull(world: map<string, Machine>)
      requires Closed(world) && In(world) && Wired(world)
      modifies world.Values`resources
      ensures Snapshot(world) == MR.TickPull(book, info, old(Snapshot(world)), old(Links(world)), uuid, inputs, old(Core()))
      ensures Links(world) == old(Links(world))
      ensures Core() == old(Core()).(resources := Snapshot(world)[uuid])
    {
      PullUnlessBuilding(world);
    }

    /** A ghost that is being built does not pull. */
    method PullUnlessBuilding(world: map<string, Machine>)
      requires Closed(world) && In(world) && Wired(world)
      modifies world.Values`resources
      ensures Snapshot(world) == MR.TickPull(book, info, old(Snapshot(world)), old(Links(world)), uuid, inputs, old(Core()))
      ensures Links(world) == old(Links(world))
      ensures resources == Snapshot(world)[uuid]
    {
      if !IsGhost() || progress.None? {
        PullResources(world);
      }
      LinksFrame(world);
    }

    // ---- pulling -----------------------------------------------------------

    /** The pull context p sees the inputs of the inputs ids as they are. */
    predicate Sees(world: map<string, Machine>, p: MR.Puller, ids: seq<string>)
      reads world.Values`inputs
    {
      forall id | id in ids :: id in world && id in p.links && p.links[id].inputs == world[id].inputs
    }

    /** Ask input src for request of name and add what it gives here when
        that is positive. */
    method PullFrom(world: map<string, Machine>, src: string, name: string, request: real) returns (given: real)
      requires Closed(world) && In(world) && name in resources && src in world && src != uuid
      modifies world.Values`resources
      ensures name in resources
      ensures var s := old(Snapshot(world));
        && given == NR.Given(s, src, name, request)
        && Snapshot(world) == NR.Transfer(s, uuid, src, name, request)
    {
      ghost var s := Snapshot(world);
      var input := world[src];
      Apart(world, input, this);
      given := input.PullResource(name, request, false);
      assert Snapshot(world) == s[src := Pull(s[src], name, request, false).stock];
      if given > 0.0 {
        resources := resources[name := resources[name].(amount := resources[name].amount + given)];
      }
    }

    /** One turn of the drain loop at input ids[0]: skip it when shared,
        otherwise ask it for all that remains. Either the loop stops here
        with the whole loop's result, or the loop over the other inputs
        leads to that result. */
    method DrainTurn(world: map<string, Machine>, p: MR.Puller, ids: seq<string>, name: string, remaining: real)
      returns (rest: real, stop: bool)
      requires Closed(world) && In(world) && name in resources && ids != []
      requires forall id | id in ids :: id in world && id != uuid
      requires p.self == uuid && ids[0] in p.links && p.links[ids[0]].inputs == world[ids[0]].inputs
      modifies world.Values`resources
      ensures name in resources
      ensures var target := MR.Drain(p, old(Snapshot(world)), ids, name, remaining);
        && (stop ==> Snapshot(world) == target)
        && (!stop ==> MR.Drain(p, Snapshot(world), ids[1..], name, rest) == target)
    {
      ghost var s := Snapshot(world);
      var input := world[ids[0]];
      var back := input.HasInput(this);
      assert s[ids[0]] == input.resources;
      if !p.valid && back && name in input.resources {
        MR.DrainSkip(p, s, ids, name, remaining);
        return remaining, false;
      }
      var pulled := PullFrom(world, ids[0], name, remaining);
      rest := remaining;
      if pulled > 0.0 {
        rest := remaining - pulled;
      }
      stop := rest <= 0.0;
      MR.DrainTake(p, s, Snapshot(world), ids, name, remaining, rest);
    }

    /** The drain loop for one key: every input in insertion order. */
    method DrainKey(world: map<string, Machine>, p: MR.Puller, name: string, demand: real)
      requires Closed(world) && In(world) && name in resources
      requires p.self == uuid && p.self !in p.inputs && Sees(world, p, p.inputs)
      modifies world.Values`resources
      ensures Snapshot(world) == MR.Drain(p, old(Snapshot(world)), p.inputs, name, demand)
    {
      ghost var target := MR.Drain(p, Snapshot(world), p.inputs, name, demand);
      var remaining := demand;
      var i := 0;
      assert p.inputs[0..] == p.inputs;
      while i < |p.inputs|
        invariant 0 <= i <= |p.inputs| && name in resources
        invariant Sees(world, p, p.inputs)
        invariant MR.Drain(p, Snapshot(world), p.inputs[i..], name, remaining) == target
        decreases |p.inputs| - i
      {
        ghost var ids := p.inputs[i..];
        assert forall id | id in ids :: id in p.inputs;
        assert ids[1..] == p.inputs[i + 1..];
        var rest, stop := DrainTurn(world, p, p.inputs[i..], name, remaining);
        if stop {
          return;
        }
        remaining := rest;
        i := i + 1;
      }
    }

    /** One turn of the balance loop at input ids[0]: against a shared input
        holding more than this machine, pull half the difference, capped by
        the headroom. */
    method BalanceTurn(world: map<string, Machine>, p: MR.Puller, ids: seq<string>, name: string)
      requires Closed(world) && In(world) && name in resources && ids != []
      requires forall id | id in ids :: id in world && id != uuid
      requires p.self == uuid && ids[0] in p.links && p.links[ids[0]].inputs == world[ids[0]].inputs
      modifies world.Values`resources
      ensures name in resources
      ensures MR.Balance(p, Snapshot(world), ids[1..], name) == MR.Balance(p, old(Snapshot(world)), ids, name)
    {
      ghost var s := Snapshot(world);
      var input := world[ids[0]];
      var back := input.HasInput(this);
      assert s[ids[0]] == input.resources;
      if !p.valid && back && name in input.resources {
        var difference := input.resources[name].amount - resources[name].amount;
        if difference > 0.0 {
          var request := Min(difference / 2.0, resources[name].maximum - resources[name].amount);
          assert request == MR.EvenRequest(s, uuid, ids[0], name);
          var _ := PullFrom(world, ids[0], name, request);
        }
      }
      MR.BalanceTurn(p, s, Snapshot(world), ids, name);
    }

    /** The balance loop for one key: every input in insertion order. */
    method BalanceKey(world: map<string, Machine>, p: MR.Puller, name: string)
      requires Closed(world) && In(world) && name in resources
      requires p.self == uuid && p.self !in p.inputs && Sees(world, p, p.inputs)
      modifies world.Values`resources
      ensures Snapshot(world) == MR.Balance(p, old(Snapshot(world)), p.inputs, name)
    {
      ghost var target := MR.Balance(p, Snapshot(world), p.inputs, name);
      var i := 0;
      assert p.inputs[0..] == p.inputs;
      while i < |p.inputs|
        invariant 0 <= i <= |p.inputs| && name in resources
        invariant Sees(world, p, p.inputs)
        invariant MR.Balance(p, Snapshot(world), p.inputs[i..], name) == target
        decreases |p.inputs| - i
      {
        ghost var ids := p.inputs[i..];
        assert forall id | id in ids :: id in p.inputs;
        assert ids[1..] == p.inputs[i + 1..];
        BalanceTurn(world, p, p.inputs[i..], name);
        i := i + 1;
      }
    }

    /** The drain pass: the drain loop of every key of the demand, in any
        order (each moves and reads only its own key). */
    method DrainPass(world: map<string, Machine>, p: MR.Puller, demand: map<string, real>)
      requires Closed(world) && In(world) && demand.Keys <= resources.Keys
      requires p.self == uuid && p.self !in p.inputs && Sees(world, p, p.inputs)
      modifies world.Values`resources
      ensures Snapshot(world) == MR.PassSome(p, old(Snapshot(world)), MR.Draining(demand), demand.Keys)
    {
      ghost var s0 := Snapshot(world);
      MR.PassNone(p, s0, MR.Draining(demand));
      var todo := demand.Keys;
      ghost var done: set<string> := {};
      while todo != {}
        invariant todo !! done && todo + done == demand.Keys
        invariant demand.Keys <= resources.Keys && Sees(world, p, p.inputs)
        invariant Snapshot(world) == MR.PassSome(p, s0, MR.Draining(demand), done)
        decreases todo
      {
        var name :| name in todo;
        MR.PassStep(p, s0, MR.Draining(demand), done, name);
        DrainKey(world, p, name, demand[name]);
        todo := todo - {name};
        done := done + {name};
      }
    }

    /** The balance pass over the keys of the demand, in any order. */
    method BalancePass(world: map<string, Machine>, p: MR.Puller, keys: set<string>)
      requires Closed(world) && In(world) && keys <= resources.Keys
      requires p.self == uuid && p.self !in p.inputs && Sees(world, p, p.inputs)
      modifies world.Values`resources
      ensures Snapshot(world) == MR.PassSome(p, old(Snapshot(world)), MR.Balancing, keys)
    {
      ghost var s0 := Snapshot(world);
      MR.PassNone(p, s0, MR.Balancing);
      var todo := keys;
      ghost var done: set<string> := {};
      while todo != {}
        invariant todo !! done && todo + done == keys
        invariant keys <= resources.Keys && Sees(world, p, p.inputs)
        invariant Snapshot(world) == MR.PassSome(p, s0, MR.Balancing, done)
        decreases todo
      {
        var name :| name in todo;
        MR.PassStep(p, s0, MR.Balancing, done, name);
        BalanceKey(world, p, name);
        todo := todo - {name};
        done := done + {name};
      }
    }

    /** pullResources: the drain pass, then the balance pass over the keys
        of the demand asked for again. The recipe, and so whether it is
        valid, does not change in between. */
    method PullResources(world: map<string, Machine>)
      requires Closed(world) && In(world) && Wired(world)
      modifies world.Values`resources
      ensures Snapshot(world) == MR.Pull(
        MR.Puller(uuid, inputs, old(Links(world)), NR.RecipeValid(book, info, old(Core()))),
        old(Snapshot(world)), NR.Demand(book, info, old(Core())))
    {
      var g := Links(world);
      var p := MR.Puller(uuid, inputs, g, NR.RecipeValid(book, info, Core()));
      assert Sees(world, p, inputs) by {
        forall id | id in inputs ensures id in g && g[id].inputs == world[id].inputs {
        }
      }
      var demand := NR.Demand(book, info, Core());
      ghost var c0 := Core();
      DrainPass(world, p, demand);
      var again := NR.Demand(book, info, Core());
      MR.DemandKeys(book, info, c0, Core());
      BalancePass(world, p, again.Keys);
    }
  }

  /** Links are a function of the inputs and outputs alone. */
  twostate lemma LinksFrame(world: map<string, Machine>)
    requires forall id | id in world ::
      old(world[id].inputs) == world[id].inputs && old(world[id].outputs) == world[id].outputs
    ensures Links(world) == old(Links(world))
  {
  }

  /** When only m's ledger differs from the ledgers of snapshot s, the
      world's snapshot is s with m's entry replaced. */
  lemma SnapshotFrame(world: map<string, Machine>, s: NR.Stocks, m: Machine)
    requires Closed(world) && m.uuid in world && world[m.uuid] == m && s.Keys == world.Keys
    requires forall id | id in world && id != m.uuid :: world[id].resources == s[id]
    ensures Snapshot(world) == s[m.uuid := m.resources]
  {
  }

  /** In a closed world, an object filed under another id is neither a nor b. */
  lemma Apart(world: map<string, Machine>, a: Machine, b: Machine)
    requires Closed(world)
    ensures forall id | id in world && id != a.uuid && id != b.uuid :: world[id] != a && world[id] != b
  {
  }
}
