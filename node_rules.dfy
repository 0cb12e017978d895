/** The behaviour of one node of the current revision (src/Node.ts) as
    functions on values: the recipe it runs, the ledger recompute, recipe
    selection, the per-tick state machine, the pull demand, and the pull
    itself over a snapshot of every node's ledger. The class in node.dfy is
    proved against these functions. */
module NodeRules {
  import opened Wrappers
  import opened JsMath
  import opened Seqs
  import opened Catalog
  import opened Ledger

  /** The part of a node that its own methods change: the selected recipe
      (`recipeName`, null as None), the progress counter and the ledger. */
  datatype Core = Core(recipeName: Option<string>, progress: Option<real>, resources: Stock)

  const GhostKey := "ghost"

  predicate IsGhost(c: Core) {
    c.recipeName == Some(GhostKey)
  }

  /** What a node needs of the recipe book: its type's build costs and
      every recipe's ingredient costs are positive. */
  ghost predicate Fits(d: Book, info: NodeMeta) {
    PositiveCosts(info.ingredients) && forall id | id in d :: PositiveCosts(d[id].ingredients)
  }

  /** A usable data file fits each of its node types. */
  lemma UsableFits(data: Data, info: NodeMeta)
    requires Usable(data) && NodeInfo(data, info.key) == Some(info)
    ensures Fits(RecipeBook(data), info)
  {
    UsableNodeCosts(data, info.key);
    var d := RecipeBook(data);
    forall id | id in d ensures PositiveCosts(d[id].ingredients) {
      UsableRecipeCosts(data, id);
    }
  }

  /** The data file defines type id and fits it. */
  ghost predicate Builds(data: Data, id: string) {
    NodeInfo(data, id).Some? && Fits(RecipeBook(data), NodeInfo(data, id).value)
  }

  lemma UsableBuilds(data: Data, id: string)
    requires Usable(data) && NodeInfo(data, id).Some?
    ensures Builds(data, id)
  {
    UsableFits(data, NodeInfo(data, id).value);
  }

  /** Every node type of the library carries its own key and fits the
      library's recipe book. */
  ghost predicate Serves(lib: Library) {
    forall t | t in lib.kinds :: lib.kinds[t].key == t && Fits(lib.book, lib.kinds[t])
  }

  lemma UsableServes(data: Data)
    requires Usable(data)
    ensures Serves(Resolve(data))
  {
    var lib := Resolve(data);
    forall t | t in lib.kinds ensures lib.kinds[t].key == t && Fits(lib.book, lib.kinds[t]) {
      UsableFits(data, lib.kinds[t]);
    }
  }

  /** The pseudo-recipe of a ghost: build in `buildtime` ticks from the
      type's ingredients, produce nothing. */
  function BuildRecipe(info: NodeMeta): RecipeMeta {
    RecipeMeta(GhostKey, "", info.buildtime, info.ingredients, info.ingredients, Standard(map[]))
  }

  /** The property key a recipe name is looked up under: JS turns a null
      key into the string "null". */
  function LookupKey(name: Option<string>): string {
    if name.Some? then name.value else "null"
  }

  /** The `recipe` getter: the ghost pseudo-recipe, or the book's entry
      for the selected name when the data file has one. */
  function Recipe(d: Book, info: NodeMeta, c: Core): Option<RecipeMeta> {
    if IsGhost(c) then Some(BuildRecipe(info))
    else if LookupKey(c.recipeName) in d then Some(d[LookupKey(c.recipeName)])
    else None
  }

  /** The result map of a standard recipe (a chance recipe never runs). */
  function Products(r: Results): ResourceMap {
    match r
    case Standard(p) => p
    case Chance(_, _) => map[]
  }

  /** recipeValid: a recipe exists and either it is the ghost's or it has a
      non-empty standard result map. */
  predicate RecipeValid(d: Book, info: NodeMeta, c: Core) {
    var r := Recipe(d, info, c);
    r.Some? && ((r.value.results.Standard? && |r.value.results.products| > 0) || IsGhost(c))
  }

  /** recipeReady: valid, every ingredient held in at least its cost, and
      every tracked result key has room for its result. */
  predicate RecipeReady(d: Book, info: NodeMeta, c: Core) {
    && RecipeValid(d, info, c)
    && Affords(c.resources, Recipe(d, info, c).value.ingredients)
    && HasRoom(c.resources, Products(Recipe(d, info, c).value.results))
  }

  /** The capacities updateResources installs: the ghost's ingredients or
      the type's resources, overridden by the recipe's resources. */
  function Capacities(d: Book, info: NodeMeta, c: Core): ResourceMap {
    var r := Recipe(d, info, c);
    Maxima(if IsGhost(c) then info.ingredients else info.resources,
           if r.Some? then r.value.resources else map[])
  }

  /** The recipe name is one the node can hold: none, the ghost's, or one
      its type lists. */
  predicate NameAllowed(info: NodeMeta, name: Option<string>) {
    name.None? || name == Some(GhostKey) || name.value in info.recipes
  }

  /** The state every node operation keeps: an allowed recipe name and a
      ledger shaped by the current capacities. */
  predicate Consistent(d: Book, info: NodeMeta, c: Core) {
    NameAllowed(info, c.recipeName) && ShapedBy(c.resources, Capacities(d, info, c))
  }

  /** Capacities depend on the recipe name only. */
  lemma CapacitiesByName(d: Book, info: NodeMeta, c: Core, e: Core)
    requires c.recipeName == e.recipeName
    ensures Capacities(d, info, c) == Capacities(d, info, e)
  {
  }

  /** updateResources. */
  function Refresh(d: Book, info: NodeMeta, c: Core): (r: Core)
    ensures r.recipeName == c.recipeName && r.progress == c.progress
    ensures ShapedBy(r.resources, Capacities(d, info, c))
  {
    c.(resources := Recompute(c.resources, Capacities(d, info, c)))
  }

  /** setRecipe(name): refused on a ghost for any non-null name but
      "ghost", and for a name the type does not list; otherwise the name is
      set, progress cleared and the ledger recomputed. */
  function SetRecipe(d: Book, info: NodeMeta, c: Core, name: Option<string>): (r: Result<Core>)
    ensures r.Failure? <==>
      name.Some? && name != Some(GhostKey) && (IsGhost(c) || name.value !in info.recipes)
    ensures r.Failure? ==>
      r.error == (if IsGhost(c) then GhostRecipe(name.value, info.key) else InvalidRecipe(name.value, info.key))
    ensures r.Success? ==>
      && r.value.recipeName == name && r.value.progress == None
      && Consistent(d, info, r.value)
      && (forall k | k in r.value.resources && k in c.resources ::
            r.value.resources[k].amount == Min(c.resources[k].amount, r.value.resources[k].maximum))
      && (forall k | k in r.value.resources && k !in c.resources :: r.value.resources[k].amount == 0.0)
  {
    if name != Some(GhostKey) && IsGhost(c) && name.Some? then Failure(GhostRecipe(name.value, info.key))
    else if name != Some(GhostKey) && name.Some? && name.value !in info.recipes then Failure(InvalidRecipe(name.value, info.key))
    else Success(Refresh(d, info, c.(recipeName := name, progress := None)))
  }

  /** The recipe setGhost(ghost) selects: "ghost", the only recipe of a
      single-recipe type, or none. */
  function GhostTarget(info: NodeMeta, g: bool): Option<string> {
    if g then Some(GhostKey) else if |info.recipes| == 1 then Some(info.recipes[0]) else None
  }

  /** setGhost(ghost) on the node's own state: empty the ledger, drop the
      name, then select the target recipe, which cannot be refused. (Its
      clearConnections is on the graph, see node.dfy.) */
  function SetGhost(d: Book, info: NodeMeta, c: Core, g: bool): (r: Core)
    ensures r.recipeName == GhostTarget(info, g) && r.progress == None
    ensures Consistent(d, info, r)
    ensures forall k | k in r.resources :: r.resources[k].amount == 0.0
  {
    var s := SetRecipe(d, info, Core(None, c.progress, map[]), GhostTarget(info, g));
    s.value
  }

  /** setGhost forgets the node's previous state altogether. */
  lemma SetGhostForgets(d: Book, info: NodeMeta, c: Core, e: Core, g: bool)
    ensures SetGhost(d, info, c, g) == SetGhost(d, info, e, g)
  {
  }

  /** setGhost(true) makes a ghost; setGhost(false) leaves ghost state unless
      the type's only recipe is itself named "ghost". */
  lemma SetGhostState(d: Book, info: NodeMeta, c: Core, g: bool)
    ensures IsGhost(SetGhost(d, info, c, g)) <==> g || info.recipes == [GhostKey]
  {
    var t := GhostTarget(info, g);
    if !g && |info.recipes| == 1 && info.recipes[0] == GhostKey {
      assert info.recipes == [GhostKey];
    }
  }

  /** A recipe that starts draws its ingredients from the ledger. */
  lemma RecipeCosts(d: Book, info: NodeMeta, c: Core)
    requires Fits(d, info) && Recipe(d, info, c).Some?
    ensures PositiveCosts(Recipe(d, info, c).value.ingredients)
  {
  }

  /** Whether processRecipe would start the recipe on this tick if ready:
      idle, and not a built manual node. */
  predicate AutoStarts(info: NodeMeta, c: Core) {
    c.progress.None? && !(info.manual && !IsGhost(c))
  }

  /** The start of a recipe: progress 0 and each ingredient snapped. */
  function Start(d: Book, info: NodeMeta, c: Core): (r: Core)
    requires Fits(d, info) && RecipeValid(d, info, c)
  {
    RecipeCosts(d, info, c);
    c.(progress := Some(0.0), resources := Debit(c.resources, Recipe(d, info, c).value.ingredients))
  }

  /** The outcome of processRecipe: the new state, and whether a ghost was
      built (which also clears the node's connections). */
  datatype Processed = Processed(core: Core, built: bool)

  /** The progress half of processRecipe: count one tick; on reaching the
      speed either build the ghost or credit the results, and go idle. */
  function Advance(d: Book, info: NodeMeta, c: Core, r: RecipeMeta): Processed {
    if c.progress.Some? && c.progress.value < r.speed then
      var n := c.(progress := Some(c.progress.value + 1.0));
      if n.progress.value == r.speed then Finish(d, info, n, r)
      else Processed(n, false)
    else Processed(c, false)
  }

  /** A recipe reaching its speed: a ghost is built, any other node is
      credited the results; either way it goes idle. */
  function Finish(d: Book, info: NodeMeta, n: Core, r: RecipeMeta): (f: Processed)
    ensures f.core.progress.None? && f.built == IsGhost(n)
    ensures !f.built ==> f.core.recipeName == n.recipeName && f.core.resources.Keys == n.resources.Keys
  {
    if IsGhost(n) then Processed(SetGhost(d, info, n, false).(progress := None), true)
    else Processed(n.(progress := None, resources := Credit(n.resources, Products(r.results))), false)
  }

  /** processRecipe. */
  function Process(d: Book, info: NodeMeta, c: Core): Processed
    requires Fits(d, info)
  {
    if !RecipeValid(d, info, c) then Processed(c, false)
    else if AutoStarts(info, c) && !RecipeReady(d, info, c) then Processed(c, false)
    else
      var r := Recipe(d, info, c).value;
      Advance(d, info, if AutoStarts(info, c) then Start(d, info, c) else c, r)
  }

  /** poke: start the counter, without drawing ingredients, when ready and
      idle; otherwise nothing. */
  function Poke(d: Book, info: NodeMeta, c: Core): Core {
    if !RecipeReady(d, info, c) || c.progress.Some? then c else c.(progress := Some(0.0))
  }

  // ---- the processRecipe lifecycle ---------------------------------------

  /** Without a valid recipe nothing happens. */
  lemma InvalidIsInert(d: Book, info: NodeMeta, c: Core)
    requires Fits(d, info) && !RecipeValid(d, info, c)
    ensures Process(d, info, c) == Processed(c, false)
  {
  }

  /** A built manual node never starts by itself. */
  lemma ManualWaits(d: Book, info: NodeMeta, c: Core)
    requires Fits(d, info) && info.manual && !IsGhost(c) && c.progress.None?
    ensures Process(d, info, c) == Processed(c, false)
  {
  }

  /** An idle node that is not ready stays as it is. */
  lemma UnreadyWaits(d: Book, info: NodeMeta, c: Core)
    requires Fits(d, info) && c.progress.None? && !RecipeReady(d, info, c)
    ensures Process(d, info, c) == Processed(c, false)
  {
  }

  /** Leaving idle by a tick requires readiness, and then every ingredient
      is snapped down as on start. */
  lemma StartRequiresReady(d: Book, info: NodeMeta, c: Core)
    requires Fits(d, info) && c.progress.None?
    requires Process(d, info, c) != Processed(c, false)
    ensures RecipeReady(d, info, c) && AutoStarts(info, c)
    ensures var r := Recipe(d, info, c).value;
      Process(d, info, c) == Advance(d, info, Start(d, info, c), r)
  {
  }

  /** While running below the speed the counter goes up by exactly one; it
      goes back to idle on reaching the speed. */
  lemma RunningCounts(d: Book, info: NodeMeta, c: Core, p: real)
    requires Fits(d, info) && RecipeValid(d, info, c) && c.progress == Some(p)
    requires p < Recipe(d, info, c).value.speed
    ensures var n := Process(d, info, c).core;
      if p + 1.0 == Recipe(d, info, c).value.speed then n.progress.None?
      else n == c.(progress := Some(p + 1.0))
  {
    ProcessRunning(d, info, c);
    AdvanceCounts(d, info, c, Recipe(d, info, c).value, p);
  }

  /** A running node does not start anything: processRecipe is the
      progress half alone. */
  lemma ProcessRunning(d: Book, info: NodeMeta, c: Core)
    requires Fits(d, info) && RecipeValid(d, info, c) && c.progress.Some?
    ensures Process(d, info, c) == Advance(d, info, c, Recipe(d, info, c).value)
  {
  }

  lemma AdvanceCounts(d: Book, info: NodeMeta, c: Core, r: RecipeMeta, p: real)
    requires c.progress == Some(p) && p < r.speed
    ensures var n := Advance(d, info, c, r).core;
      if p + 1.0 == r.speed then n.progress.None?
      else n == c.(progress := Some(p + 1.0))
  {
  }

  /** A counter at or past the speed never moves again. */
  lemma StalledStays(d: Book, info: NodeMeta, c: Core, p: real)
    requires Fits(d, info) && RecipeValid(d, info, c) && c.progress == Some(p)
    requires p >= Recipe(d, info, c).value.speed
    ensures Process(d, info, c) == Processed(c, false)
  {
  }

  /** On completion a ghost is built (setGhost(false)); a standard recipe
      instead credits its result map; either way the node goes idle. */
  lemma Completion(d: Book, info: NodeMeta, c: Core, p: real)
    requires Fits(d, info) && RecipeValid(d, info, c) && c.progress == Some(p)
    requires p + 1.0 == Recipe(d, info, c).value.speed
    ensures var n := Process(d, info, c);
      && n.core.progress.None?
      && n.built == IsGhost(c)
      && (IsGhost(c) ==> n.core == SetGhost(d, info, c, false))
      && (!IsGhost(c) ==>
            n.core == c.(progress := None, resources := Credit(c.resources, Products(Recipe(d, info, c).value.results))))
  {
    SetGhostForgets(d, info, c, c.(progress := Some(p + 1.0)), false);
  }

  /** poke does nothing unless the node is ready and idle, and then only
      starts the counter. */
  lemma PokeEffect(d: Book, info: NodeMeta, c: Core)
    ensures Poke(d, info, c) != c <==> RecipeReady(d, info, c) && c.progress.None?
    ensures Poke(d, info, c).resources == c.resources
    ensures Poke(d, info, c).recipeName == c.recipeName
  {
  }

  /** The starting snap of an ingredient of cost c leaves exactly held - c
      when held is a whole multiple of c, and never a negative amount. */
  lemma StartSnap(d: Book, info: NodeMeta, c: Core, k: string)
    requires Fits(d, info) && RecipeReady(d, info, c)
    requires k in c.resources && k in Recipe(d, info, c).value.ingredients
    ensures var cost := Recipe(d, info, c).value.ingredients[k];
      var held := c.resources[k].amount;
      var left := Start(d, info, c).resources[k].amount;
      && (left == held - cost <==> IsInt(held / cost))
      && 0.0 <= left <= held
  {
    RecipeCosts(d, info, c);
    var cost := Recipe(d, info, c).value.ingredients[k];
    var held := c.resources[k].amount;
    assert held >= cost;
    SnapExact(held, cost);
    SnapBounds(held, cost);
  }

  /** Every operation keeps the node consistent. */
  lemma ProcessConsistent(d: Book, info: NodeMeta, c: Core)
    requires Fits(d, info) && Consistent(d, info, c)
    ensures Consistent(d, info, Process(d, info, c).core)
  {
    if RecipeValid(d, info, c) && !(AutoStarts(info, c) && !RecipeReady(d, info, c)) {
      var r := Recipe(d, info, c).value;
      var s := if AutoStarts(info, c) then Start(d, info, c) else c;
      if AutoStarts(info, c) {
        StartConsistent(d, info, c);
      }
      AdvanceConsistent(d, info, s, r);
      assert Process(d, info, c) == Advance(d, info, s, r);
    }
  }

  lemma StartConsistent(d: Book, info: NodeMeta, c: Core)
    requires Fits(d, info) && RecipeValid(d, info, c) && Consistent(d, info, c)
    ensures Consistent(d, info, Start(d, info, c))
  {
    CapacitiesByName(d, info, c, Start(d, info, c));
  }

  lemma AdvanceConsistent(d: Book, info: NodeMeta, c: Core, r: RecipeMeta)
    requires Consistent(d, info, c)
    ensures Consistent(d, info, Advance(d, info, c, r).core)
  {
    if c.progress.Some? && c.progress.value < r.speed {
      var n := c.(progress := Some(c.progress.value + 1.0));
      CapacitiesByName(d, info, c, n);
      if n.progress.value == r.speed {
        if IsGhost(n) {
          var e := SetGhost(d, info, n, false);
          CapacitiesByName(d, info, e, e.(progress := None));
        } else {
          var e := n.(progress := None, resources := Credit(n.resources, Products(r.results)));
          CapacitiesByName(d, info, c, e);
        }
      }
    }
  }

  lemma PokeConsistent(d: Book, info: NodeMeta, c: Core)
    requires Consistent(d, info, c)
    ensures Consistent(d, info, Poke(d, info, c))
  {
    CapacitiesByName(d, info, c, Poke(d, info, c));
  }

  // ---- demand (getPullResources) ------------------------------------------

  /** getPullResources: a ghost, or a node without a valid recipe, asks for
      the headroom of every tracked key; otherwise each tracked ingredient
      asks for enough to hold two batches, capped by its maximum. */
  function Demand(d: Book, info: NodeMeta, c: Core): (r: map<string, real>)
    ensures r.Keys <= c.resources.Keys
  {
    if IsGhost(c) || !RecipeValid(d, info, c) then
      map k | k in c.resources :: Max(0.0, c.resources[k].maximum - c.resources[k].amount)
    else
      var ing := Recipe(d, info, c).value.ingredients;
      map k | k in ing && k in c.resources ::
        Max(0.0, Min(Ceil(ing[k] * 2.0 - c.resources[k].amount) as real, c.resources[k].maximum))
  }

  /** Demand is never negative. */
  lemma DemandNonNegative(d: Book, info: NodeMeta, c: Core)
    ensures forall k | k in Demand(d, info, c) :: Demand(d, info, c)[k] >= 0.0
  {
  }

  /** A ghost or an idle-recipe node asks for every tracked key, exactly as
      much as fills it to its maximum. */
  lemma DemandIsHeadroom(d: Book, info: NodeMeta, c: Core)
    requires IsGhost(c) || !RecipeValid(d, info, c)
    requires InBounds(c.resources)
    ensures Demand(d, info, c).Keys == c.resources.Keys
    ensures forall k | k in c.resources :: c.resources[k].amount + Demand(d, info, c)[k] == c.resources[k].maximum
  {
  }

  /** A running recipe asks only for tracked ingredients, never more than the
      maximum, and enough to reach two batches unless the maximum caps it. */
  lemma DemandTwoBatches(d: Book, info: NodeMeta, c: Core)
    requires !IsGhost(c) && RecipeValid(d, info, c)
    requires forall k | k in c.resources :: c.resources[k].maximum >= 0.0
    ensures var ing := Recipe(d, info, c).value.ingredients;
      && Demand(d, info, c).Keys == ing.Keys * c.resources.Keys
      && forall k | k in Demand(d, info, c) ::
           && Demand(d, info, c)[k] <= c.resources[k].maximum
           && (Demand(d, info, c)[k] == c.resources[k].maximum
               || c.resources[k].amount + Demand(d, info, c)[k] >= 2.0 * ing[k])
  {
  }

  /** The two-batch demand ignores headroom: a node one short of a maximum
      below its two-batch target may be asked to take the whole maximum. */
  lemma DemandCanExceedHeadroom()
    ensures var info := NodeMeta("t", "", "", Progress, false, 0.0, map[], 1.0, map["ore" := 10.0], []);
      var c := Core(Some("r"), None, map["ore" := Resource(9.0, 10.0)]);
      var d := map["r" := RecipeMeta("r", "", 1.0, map["ore" := 10.0], map[], Standard(map["ingot" := 1.0]))];
      && RecipeValid(d, info, c)
      && Demand(d, info, c)["ore"] == 10.0
      && c.resources["ore"].amount + Demand(d, info, c)["ore"] > c.resources["ore"].maximum
  {
    CeilOfInt(11);
  }

  // ---- the pull (pullResources) --------------------------------------------

  /** All ledgers, keyed by node id. */
  type Stocks = map<string, Stock>

  /** The inputs that track name, in insertion order: the filter of
      pullResources (its sort compares each element with itself, so it
      keeps this order). */
  function Tracking(s: Stocks, inputs: seq<string>, name: string): (r: seq<string>)
    ensures forall id :: id in r <==> id in inputs && id in s && name in s[id]
    ensures |r| <= |inputs|
  {
    if inputs == [] then []
    else
      (if inputs[0] in s && name in s[inputs[0]] then [inputs[0]] else [])
      + Tracking(s, inputs[1..], name)
  }

  lemma {:induction false} TrackingDistinct(s: Stocks, inputs: seq<string>, name: string)
    requires Distinct(inputs)
    ensures Distinct(Tracking(s, inputs, name))
  {
    if inputs != [] {
      TrackingDistinct(s, inputs[1..], name);
      assert Distinct(inputs[1..]);
      var rest := Tracking(s, inputs[1..], name);
      assert inputs[0] !in rest;
      var r := Tracking(s, inputs, name);
      if inputs[0] in s && name in s[inputs[0]] {
        assert r == [inputs[0]] + rest;
        assert forall j | 0 < j < |r| :: r[j] == rest[j - 1];
      }
    }
  }

  /** Tracking reads only which ledgers have the key. */
  lemma {:induction false} TrackingByKeys(s: Stocks, t: Stocks, inputs: seq<string>, name: string)
    requires s.Keys == t.Keys && forall id | id in s :: s[id].Keys == t[id].Keys
    ensures Tracking(s, inputs, name) == Tracking(t, inputs, name)
  {
    if inputs != [] {
      TrackingByKeys(s, t, inputs[1..], name);
    }
  }

  /** `resource.amount += pulled` on the receiver. */
  function Receive(s: Stock, name: string, amount: real): Stock
    requires name in s
  {
    s[name := s[name].(amount := s[name].amount + amount)]
  }

  /** The request made of an input: ceil(remaining / inputs left). */
  function Share(remaining: real, left: nat): (r: real)
    requires left > 0
    ensures IsInt(r)
    ensures remaining >= 0.0 ==> 0.0 <= r <= Ceil(remaining) as real
  {
    ShareBound(remaining, left);
    Ceil(remaining / left as real) as real
  }

  lemma ShareBound(remaining: real, left: nat)
    requires left > 0
    ensures remaining >= 0.0 ==> 0.0 <= remaining / left as real <= remaining
  {
    if remaining >= 0.0 {
      var q := remaining / left as real;
      assert q * left as real == remaining;
      if q > remaining {
        MulBounds(left as real, 1.0, left as real, q);
      }
    }
  }

  /** What the input src gives for a request. */
  function Given(s: Stocks, src: string, name: string, request: real): real
    requires src in s
  {
    Pull(s[src], name, request, false).amount
  }

  /** One iteration: pull from src, and add what it gave to the receiver
      when that is positive. */
  function Transfer(s: Stocks, self: string, src: string, name: string, request: real): (r: Stocks)
    requires self in s && src in s && name in s[self]
    ensures r.Keys == s.Keys
    ensures forall id | id in s :: r[id].Keys == s[id].Keys
    ensures forall id | id in s && id != self && id != src :: r[id] == s[id]
    ensures forall id, k | id in s && k in s[id] && k != name :: r[id][k] == s[id][k]
    ensures src != self ==>
      && AmountOf(r[src], name) == AmountOf(s[src], name) - Given(s, src, name, request)
      && r[self][name].amount == s[self][name].amount + Max(Given(s, src, name, request), 0.0)
  {
    var p := Pull(s[src], name, request, false);
    var s1 := s[src := p.stock];
    if p.amount > 0.0 then s1[self := Receive(s1[self], name, p.amount)] else s1
  }

  /** What remains wanted after an input gave `given`. */
  function After(remaining: real, given: real): real {
    if given > 0.0 then remaining - given else remaining
  }

  /** The inner loop of pullResources for one key, from the current input
      on: ask it for its share, move what it gives to the receiver, and
      stop once nothing remains. */
  function Drain(s: Stocks, self: string, ids: seq<string>, name: string, remaining: real): (r: Stocks)
    requires self in s && name in s[self]
    requires forall id | id in ids :: id in s
    ensures r.Keys == s.Keys
    ensures forall id | id in s :: r[id].Keys == s[id].Keys
    decreases |ids|
  {
    if ids == [] then s
    else
      var req := Share(remaining, |ids|);
      var rest := After(remaining, Given(s, ids[0], name, req));
      var s2 := Transfer(s, self, ids[0], name, req);
      if rest <= 0.0 then s2 else Drain(s2, self, ids[1..], name, rest)
  }

  /** Sum of the amounts of name held by ids. */
  function Total(s: Stocks, ids: seq<string>, name: string): real
    requires forall id | id in ids :: id in s
  {
    if ids == [] then 0.0 else AmountOf(s[ids[0]], name) + Total(s, ids[1..], name)
  }

  lemma {:induction false} TotalFrame(s: Stocks, t: Stocks, ids: seq<string>, name: string)
    requires forall id | id in ids :: id in s && id in t && AmountOf(s[id], name) == AmountOf(t[id], name)
    ensures Total(s, ids, name) == Total(t, ids, name)
  {
    if ids != [] {
      TotalFrame(s, t, ids[1..], name);
    }
  }

  /** Drain leaves every ledger outside the receiver and its list alone, and
      every other key of every ledger. */
  lemma {:induction false} DrainFrame(s: Stocks, self: string, ids: seq<string>, name: string, remaining: real)
    requires self in s && name in s[self]
    requires forall id | id in ids :: id in s
    ensures var r := Drain(s, self, ids, name, remaining);
      && (forall id | id in s && id != self && id !in ids :: r[id] == s[id])
      && (forall id, k | id in s && k in s[id] && k != name :: r[id][k] == s[id][k])
    decreases |ids|
  {
    if ids != [] {
      var req := Share(remaining, |ids|);
      var rest := After(remaining, Given(s, ids[0], name, req));
      var s2 := Transfer(s, self, ids[0], name, req);
      if rest > 0.0 {
        DrainFrame(s2, self, ids[1..], name, rest);
      }
    }
  }

  predicate HoldsNonNegative(s: Stocks, ids: seq<string>, name: string)
    requires forall id | id in ids :: id in s
  {
    forall id | id in ids && name in s[id] :: s[id][name].amount >= 0.0
  }

  /** One step of Drain, as the loop takes it: the request req made of the
      first input, and what remains after it. */
  lemma DrainUnfold(s: Stocks, self: string, ids: seq<string>, name: string, remaining: real, req: real)
    requires self in s && name in s[self] && ids != []
    requires forall id | id in ids :: id in s
    requires req == Share(remaining, |ids|)
    ensures After(remaining, Given(s, ids[0], name, req)) <= 0.0 ==>
      Drain(s, self, ids, name, remaining) == Transfer(s, self, ids[0], name, req)
    ensures After(remaining, Given(s, ids[0], name, req)) > 0.0 ==>
      Drain(s, self, ids, name, remaining) ==
      Drain(Transfer(s, self, ids[0], name, req), self, ids[1..], name, After(remaining, Given(s, ids[0], name, req)))
  {
  }

  /** One turn of the inner loop, seen from the whole loop: after the first
      input gave, either nothing remains and the loop is over, or the loop
      over the other inputs finishes the job. */
  lemma DrainTurn(s: Stocks, t: Stocks, self: string, ids: seq<string>, name: string, remaining: real, rest: real)
    requires self in s && name in s[self] && ids != []
    requires forall id | id in ids :: id in s
    requires t == Transfer(s, self, ids[0], name, Share(remaining, |ids|))
    requires rest == After(remaining, Given(s, ids[0], name, Share(remaining, |ids|)))
    ensures rest <= 0.0 ==> t == Drain(s, self, ids, name, remaining)
    ensures rest > 0.0 ==> Drain(t, self, ids[1..], name, rest) == Drain(s, self, ids, name, remaining)
  {
    DrainUnfold(s, self, ids, name, remaining, Share(remaining, |ids|));
  }

  /** One iteration moves a whole, non-negative amount no larger than the
      request and no larger than what the input holds. */
  lemma TransferStep(s: Stocks, self: string, src: string, name: string, request: real)
    requires self in s && src in s && name in s[self] && src != self
    requires request >= 0.0 && AmountOf(s[src], name) >= 0.0
    ensures var g := Given(s, src, name, request);
      var r := Transfer(s, self, src, name, request);
      && IsInt(g) && 0.0 <= g <= request && g <= AmountOf(s[src], name)
      && AmountOf(r[src], name) == AmountOf(s[src], name) - g
      && r[self][name].amount == s[self][name].amount + g
  {
  }

  /** The pull conserves the key: the receiver gains exactly what its
      inputs lose, no input drops below zero, and the receiver gains at
      least nothing and at most ceil of the demand. */
  lemma {:induction false} DrainConserves(s: Stocks, self: string, ids: seq<string>, name: string, remaining: real)
    requires self in s && name in s[self] && self !in ids && Distinct(ids)
    requires forall id | id in ids :: id in s
    requires HoldsNonNegative(s, ids, name) && remaining >= 0.0
    ensures var r := Drain(s, self, ids, name, remaining);
      && r[self][name].amount + Total(r, ids, name) == s[self][name].amount + Total(s, ids, name)
      && HoldsNonNegative(r, ids, name)
      && s[self][name].amount <= r[self][name].amount <= s[self][name].amount + Ceil(remaining) as real
    decreases |ids|
  {
    if ids != [] {
      var src := ids[0];
      var req := Share(remaining, |ids|);
      var g := Given(s, src, name, req);
      var rest := After(remaining, g);
      var s2 := Transfer(s, self, src, name, req);
      TransferStep(s, self, src, name, req);
      assert Distinct(ids[1..]);
      TotalFrame(s, s2, ids[1..], name);
      assert HoldsNonNegative(s2, ids, name);
      NextDemand(remaining, g);
      if rest > 0.0 {
        var r := Drain(s2, self, ids[1..], name, rest);
        DrainConserves(s2, self, ids[1..], name, rest);
        DrainFrame(s2, self, ids[1..], name, rest);
        assert r[src] == s2[src];
      }
    }
  }

  /** After a whole, non-negative gift g the ceiling of what remains drops
      by exactly g. */
  lemma NextDemand(remaining: real, g: real)
    requires IsInt(g) && g >= 0.0
    ensures Ceil(After(remaining, g)) as real == Ceil(remaining) as real - g
  {
    CeilShift(remaining, -(g.Floor));
    assert remaining + (-(g.Floor)) as real == remaining - g;
  }

  /** One transfer reads nothing but the key it moves. */
  lemma TransferByKey(s: Stocks, t: Stocks, self: string, src: string, name: string, req: real)
    requires self in s && src in s && name in s[self] && s.Keys == t.Keys
    requires forall id | id in s :: s[id].Keys == t[id].Keys
    requires forall id | id in s && name in s[id] :: s[id][name] == t[id][name]
    ensures Given(s, src, name, req) == Given(t, src, name, req)
    ensures var s2 := Transfer(s, self, src, name, req);
      var t2 := Transfer(t, self, src, name, req);
      forall id | id in s2 && name in s2[id] :: s2[id][name] == t2[id][name]
  {
    var p := Pull(s[src], name, req, false);
    var q := Pull(t[src], name, req, false);
    assert p.amount == q.amount;
    var s2 := Transfer(s, self, src, name, req);
    var t2 := Transfer(t, self, src, name, req);
    forall id | id in s2 && name in s2[id] ensures s2[id][name] == t2[id][name] {
      if id == src && name in s[src] {
        assert p.stock[name] == q.stock[name];
      }
    }
  }

  /** Drain reads nothing but the key it moves. */
  lemma {:induction false} DrainByKey(s: Stocks, t: Stocks, self: string, ids: seq<string>, name: string, remaining: real)
    requires self in s && name in s[self] && s.Keys == t.Keys
    requires forall id | id in s :: s[id].Keys == t[id].Keys
    requires forall id | id in s && name in s[id] :: s[id][name] == t[id][name]
    requires forall id | id in ids :: id in s
    ensures var a := Drain(s, self, ids, name, remaining);
      var b := Drain(t, self, ids, name, remaining);
      forall id | id in s && name in s[id] :: a[id][name] == b[id][name]
    decreases |ids|
  {
    if ids != [] {
      var req := Share(remaining, |ids|);
      TransferByKey(s, t, self, ids[0], name, req);
      var rest := After(remaining, Given(s, ids[0], name, req));
      var s2 := Transfer(s, self, ids[0], name, req);
      var t2 := Transfer(t, self, ids[0], name, req);
      if rest > 0.0 {
        DrainByKey(s2, t2, self, ids[1..], name, rest);
      }
    }
  }

  /** Closed stock snapshot: the receiver and all its inputs have ledgers. */
  predicate Covers(s: Stocks, self: string, inputs: seq<string>) {
    self in s && forall id | id in inputs :: id in s
  }

  /** The inner loop for key k, over the inputs tracking k. */
  function DrainKey(s: Stocks, self: string, inputs: seq<string>, demand: map<string, real>, k: string): (r: Stocks)
    requires Covers(s, self, inputs) && k in demand && k in s[self]
    ensures r.Keys == s.Keys
    ensures forall id | id in s :: r[id].Keys == s[id].Keys
  {
    Drain(s, self, Tracking(s, inputs, k), k, demand[k])
  }

  /** The pull after the loops of the keys in done have run, in any order:
      each key's loop moves only that key and reads only that key, so the
      state is given key by key. */
  function PullSome(s: Stocks, self: string, inputs: seq<string>, demand: map<string, real>, done: set<string>): (r: Stocks)
    requires Covers(s, self, inputs) && demand.Keys <= s[self].Keys && done <= demand.Keys
    ensures r.Keys == s.Keys
    ensures forall id | id in s :: r[id].Keys == s[id].Keys
  {
    map id | id in s :: map k | k in s[id] ::
      if k in done then DrainKey(s, self, inputs, demand, k)[id][k] else s[id][k]
  }

  /** pullResources: the loops of every key of the demand. */
  function PullAll(s: Stocks, self: string, inputs: seq<string>, demand: map<string, real>): (r: Stocks)
    requires Covers(s, self, inputs) && demand.Keys <= s[self].Keys
    ensures r.Keys == s.Keys
    ensures forall id | id in s :: r[id].Keys == s[id].Keys
  {
    PullSome(s, self, inputs, demand, demand.Keys)
  }

  /** Running the loop of one more key k on the state after the keys in
      done gives the state after done + {k}: which key goes first never
      matters. */
  lemma PullStep(s: Stocks, self: string, inputs: seq<string>, demand: map<string, real>, done: set<string>, k: string)
    requires Covers(s, self, inputs) && demand.Keys <= s[self].Keys && done <= demand.Keys
    requires k in demand && k !in done
    ensures var cur := PullSome(s, self, inputs, demand, done);
      DrainKey(cur, self, inputs, demand, k) == PullSome(s, self, inputs, demand, done + {k})
  {
    var cur := PullSome(s, self, inputs, demand, done);
    var a := DrainKey(cur, self, inputs, demand, k);
    var b := PullSome(s, self, inputs, demand, done + {k});
    TrackingByKeys(cur, s, inputs, k);
    var t := Tracking(s, inputs, k);
    DrainFrame(cur, self, t, k, demand[k]);
    DrainByKey(cur, s, self, t, k, demand[k]);
    forall id | id in s ensures a[id] == b[id] {
      forall j | j in s[id] ensures a[id][j] == b[id][j] {
        if j != k {
          assert a[id][j] == cur[id][j];
        } else {
          assert a[id][k] == DrainKey(s, self, inputs, demand, k)[id][k];
        }
      }
    }
  }

  /** With nothing done the state is the start. */
  lemma PullNone(s: Stocks, self: string, inputs: seq<string>, demand: map<string, real>)
    requires Covers(s, self, inputs) && demand.Keys <= s[self].Keys
    ensures PullSome(s, self, inputs, demand, {}) == s
  {
    var r := PullSome(s, self, inputs, demand, {});
    forall id | id in s ensures r[id] == s[id] {
    }
  }

  /** Across the whole pull, for each key: the receiver gains exactly what
      the inputs tracking it lose, and none of them drops below zero. */
  lemma PullAllConserves(s: Stocks, self: string, inputs: seq<string>, demand: map<string, real>, k: string)
    requires Covers(s, self, inputs) && demand.Keys <= s[self].Keys
    requires Distinct(inputs) && self !in inputs
    requires k in demand && demand[k] >= 0.0
    requires HoldsNonNegative(s, Tracking(s, inputs, k), k)
    ensures var r := PullAll(s, self, inputs, demand);
      var t := Tracking(s, inputs, k);
      && r[self][k].amount + Total(r, t, k) == s[self][k].amount + Total(s, t, k)
      && HoldsNonNegative(r, t, k)
      && s[self][k].amount <= r[self][k].amount <= s[self][k].amount + Ceil(demand[k]) as real
  {
    var r := PullAll(s, self, inputs, demand);
    var t := Tracking(s, inputs, k);
    TrackingDistinct(s, inputs, k);
    var dr := Drain(s, self, t, k, demand[k]);
    DrainConserves(s, self, t, k, demand[k]);
    forall id | id in t ensures AmountOf(r[id], k) == AmountOf(dr[id], k) {}
    TotalFrame(r, dr, t, k);
  }

  /** The pull changes amounts only: every ledger keeps its keys and its
      maxima, so a consistent node stays consistent. */
  lemma PullAllShape(s: Stocks, self: string, inputs: seq<string>, demand: map<string, real>)
    requires Covers(s, self, inputs) && demand.Keys <= s[self].Keys
    ensures SameMaxima(s, PullAll(s, self, inputs, demand))
  {
    var r := PullAll(s, self, inputs, demand);
    forall id: string, k: string | id in s && k in s[id] && id in r && k in r[id]
      ensures MaximumAt(r, id, k) == MaximumAt(s, id, k)
    {
      if k in demand {
        DrainMaxima(s, self, Tracking(s, inputs, k), k, demand[k]);
      }
    }
  }

  function MaximumAt(s: Stocks, id: string, k: string): real
    requires id in s && k in s[id]
  {
    s[id][k].maximum
  }

  /** Two snapshots with the same ledgers up to amounts. */
  predicate SameMaxima(s: Stocks, r: Stocks) {
    && s.Keys == r.Keys
    && (forall id | id in s :: s[id].Keys == r[id].Keys)
    && (forall id, k | id in s && k in s[id] && id in r && k in r[id] :: MaximumAt(r, id, k) == MaximumAt(s, id, k))
  }

  lemma {:induction false} DrainMaxima(s: Stocks, self: string, ids: seq<string>, name: string, remaining: real)
    requires self in s && name in s[self]
    requires forall id | id in ids :: id in s
    ensures SameMaxima(s, Drain(s, self, ids, name, remaining))
    decreases |ids|
  {
    if ids != [] {
      var req := Share(remaining, |ids|);
      var rest := After(remaining, Given(s, ids[0], name, req));
      var s2 := Transfer(s, self, ids[0], name, req);
      assert SameMaxima(s, s2);
      if rest > 0.0 {
        DrainMaxima(s2, self, ids[1..], name, rest);
      }
    }
  }

  // ---- tick ---------------------------------------------------------------

  /** tick's guard: a node pulls unless it is a ghost being built. */
  predicate Pulls(c: Core) {
    !IsGhost(c) || c.progress.None?
  }

  /** The ledgers after tick's pull, for the node self with state c. */
  function TickPull(d: Book, info: NodeMeta, s: Stocks, self: string, inputs: seq<string>, c: Core): (r: Stocks)
    requires Covers(s, self, inputs) && s[self] == c.resources
    ensures r.Keys == s.Keys
    ensures !Pulls(c) ==> r == s
  {
    if Pulls(c) then PullAll(s, self, inputs, Demand(d, info, c)) else s
  }

  /** The pull keeps the puller consistent, and every other ledger's keys
      and maxima. */
  lemma TickPullShape(d: Book, info: NodeMeta, s: Stocks, self: string, inputs: seq<string>, c: Core)
    requires Covers(s, self, inputs) && s[self] == c.resources && Consistent(d, info, c)
    ensures var r := TickPull(d, info, s, self, inputs, c);
      && SameMaxima(s, r)
      && Consistent(d, info, c.(resources := r[self]))
  {
    var r := TickPull(d, info, s, self, inputs, c);
    if Pulls(c) {
      PullAllShape(s, self, inputs, Demand(d, info, c));
    }
    var n := c.(resources := r[self]);
    CapacitiesByName(d, info, c, n);
    forall k | k in r[self] ensures r[self][k].maximum == c.resources[k].maximum {
      assert MaximumAt(r, self, k) == MaximumAt(s, self, k);
    }
  }

  // ---- save and load (toJson, loadJson) ------------------------------------

  /** The per-node part of a save: position, outputs, recipe, amounts and
      progress. */
  datatype Save = Save(x: real, y: real, outputs: seq<string>, recipe: Option<string>,
                       resources: ResourceMap, progress: Option<real>)

  /** toJson. */
  function ToJson(x: real, y: real, outputs: seq<string>, c: Core): (r: Save)
    ensures r.recipe == c.recipeName && r.outputs == outputs
    ensures r.resources == Amounts(c.resources) && r.progress == c.progress
  {
    Save(x, y, outputs, if IsGhost(c) then Some(GhostKey) else c.recipeName,
         Amounts(c.resources), c.progress)
  }

  /** The node state loadJson reaches before its setRecipe (move and
      setGhost). */
  function LoadBase(d: Book, info: NodeMeta, c: Core, save: Save): Core {
    SetGhost(d, info, c, save.recipe == Some(GhostKey))
  }

  /** loadJson after its setGhost, from the state base: setRecipe of the
      saved recipe unless it is the ghost's, which may refuse it; then the
      saved amounts of tracked keys and the saved progress. */
  function LoadRest(d: Book, info: NodeMeta, base: Core, save: Save): (r: Result<Core>)
    ensures r.Failure? <==>
      save.recipe.Some? && save.recipe != Some(GhostKey)
      && (IsGhost(base) || save.recipe.value !in info.recipes)
    ensures r.Success? && save.recipe != Some(GhostKey) ==> r.value.recipeName == save.recipe
    ensures r.Success? ==> r.value.progress == save.progress
  {
    var chosen := if save.recipe != Some(GhostKey) then SetRecipe(d, info, base, save.recipe) else Success(base);
    match chosen
    case Failure(e) => Failure(e)
    case Success(n) => Success(n.(resources := SetAmounts(n.resources, save.resources), progress := save.progress))
  }

  /** loadJson on the node's own state: setGhost by the saved recipe, then
      the rest. It fails exactly when the saved recipe is one setRecipe
      refuses; otherwise the node holds the saved recipe and progress and is
      consistent. */
  function LoadJson(d: Book, info: NodeMeta, c: Core, save: Save): (r: Result<Core>)
    ensures r.Failure? <==>
      save.recipe.Some? && save.recipe != Some(GhostKey)
      && (IsGhost(LoadBase(d, info, c, save)) || save.recipe.value !in info.recipes)
    ensures r.Success? ==> r.value.recipeName == save.recipe && r.value.progress == save.progress
    ensures r.Success? ==> Consistent(d, info, r.value)
  {
    var base := LoadBase(d, info, c, save);
    var r := LoadRest(d, info, base, save);
    if r.Success? then
      var n := if save.recipe != Some(GhostKey) then SetRecipe(d, info, base, save.recipe).value else base;
      CapacitiesByName(d, info, n, r.value);
      r
    else r
  }

  /** Loading what toJson saved gives back the node's state, from any
      starting state, whenever the node is consistent. */
  lemma SaveRoundTrip(d: Book, info: NodeMeta, start: Core, x: real, y: real, outputs: seq<string>, c: Core)
    requires Consistent(d, info, c)
    ensures LoadJson(d, info, start, ToJson(x, y, outputs, c)) == Success(c)
  {
    var save := ToJson(x, y, outputs, c);
    var base := LoadBase(d, info, start, save);
    if IsGhost(c) {
      var named := Core(Some(GhostKey), None, map[]);
      CapacitiesByName(d, info, named, c);
      assert base == Refresh(d, info, named);
      RestoreAmounts(c.resources, Capacities(d, info, c), named.resources);
      assert base.(resources := SetAmounts(base.resources, save.resources), progress := save.progress) == c;
    } else {
      SetGhostState(d, info, start, false);
      assert SetRecipe(d, info, base, save.recipe).Success?;
      var named := base.(recipeName := c.recipeName, progress := None);
      CapacitiesByName(d, info, named, c);
      var n := Refresh(d, info, named);
      assert SetRecipe(d, info, base, save.recipe) == Success(n);
      RestoreAmounts(c.resources, Capacities(d, info, c), named.resources);
      assert n.resources == Recompute(named.resources, Capacities(d, info, c));
      assert n.(resources := SetAmounts(n.resources, save.resources), progress := save.progress) == c;
    }
  }
}
