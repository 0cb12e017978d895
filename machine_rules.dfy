/** The older revision of a node (src/Machine.ts) as functions on values.
    It shares with the current revision the recipe getter, the ledger
    recompute, readiness, the start snap, poke and the pull demand (see
    node_rules.dfy); it differs in setGhost, setRecipe, the completion of a
    ghost, loadJson and the pull, which drains every input of the whole
    remaining demand and then balances against mutual neighbours. */
module MachineRules {
  import opened Wrappers
  import opened JsMath
  import opened Seqs
  import opened Catalog
  import opened Ledger
  import Graph
  import NR = NodeRules

  type Core = NR.Core

  /** Every recipe reads only keys its machine tracks: its ingredients and
      results lie among the type's resources and the recipe's own. The
      source reads them with `resources.get(name).amount`, which throws a
      TypeError on an untracked key. */
  predicate Tracks(d: Book, info: NodeMeta) {
    forall id | id in d ::
      && d[id].ingredients.Keys <= info.resources.Keys + d[id].resources.Keys
      && NR.Products(d[id].results).Keys <= info.resources.Keys + d[id].resources.Keys
  }

  /** In a consistent machine of a tracking data file, the current recipe's
      ingredients and results are all tracked, so none of the source's
      lookups fails. */
  lemma TrackedKeys(d: Book, info: NodeMeta, c: Core)
    requires Tracks(d, info) && NR.Consistent(d, info, c) && NR.Recipe(d, info, c).Some?
    ensures var r := NR.Recipe(d, info, c).value;
      && r.ingredients.Keys <= c.resources.Keys
      && NR.Products(r.results).Keys <= c.resources.Keys
  {
    if !NR.IsGhost(c) {
      var id := NR.LookupKey(c.recipeName);
      assert NR.Recipe(d, info, c).value == d[id];
    }
  }

  /** setRecipe(name): refused on a ghost for every non-null name, "ghost"
      included, and for a name the type does not list; otherwise the name
      is set and the ledger recomputed, and the progress is kept. */
  function SetRecipe(d: Book, info: NodeMeta, c: Core, name: Option<string>): (r: Result<Core>)
    ensures r.Failure? <==> name.Some? && (NR.IsGhost(c) || name.value !in info.recipes)
    ensures r.Failure? ==>
      r.error == (if NR.IsGhost(c) then GhostRecipe(name.value, info.key) else InvalidRecipe(name.value, info.key))
    ensures r.Success? ==>
      && r.value.recipeName == name && r.value.progress == c.progress
      && NR.Consistent(d, info, r.value)
      && (forall k | k in r.value.resources && k in c.resources ::
            r.value.resources[k].amount == Min(c.resources[k].amount, r.value.resources[k].maximum))
      && (forall k | k in r.value.resources && k !in c.resources :: r.value.resources[k].amount == 0.0)
  {
    if NR.IsGhost(c) && name.Some? then Failure(GhostRecipe(name.value, info.key))
    else if name.Some? && name.value !in info.recipes then Failure(InvalidRecipe(name.value, info.key))
    else Success(NR.Refresh(d, info, c.(recipeName := name)))
  }

  /** Unlike the current revision, a machine's setRecipe refuses "ghost" on
      a ghost and keeps a running counter. */
  lemma SetRecipeDiffers(d: Book, info: NodeMeta, c: Core, name: Option<string>)
    ensures NR.IsGhost(c) ==>
      SetRecipe(d, info, c, Some(NR.GhostKey)).Failure? && NR.SetRecipe(d, info, c, Some(NR.GhostKey)).Success?
    ensures SetRecipe(d, info, c, name).Success? ==>
      && NR.SetRecipe(d, info, c, name).Success?
      && SetRecipe(d, info, c, name).value == NR.SetRecipe(d, info, c, name).value.(progress := c.progress)
  {
    if SetRecipe(d, info, c, name).Success? {
      var e := c.(recipeName := name);
      NR.CapacitiesByName(d, info, e, e.(progress := None));
    }
  }

  /** The name setGhost(ghost) selects: "ghost", or null. */
  function GhostName(g: bool): Option<string> {
    if g then Some(NR.GhostKey) else None
  }

  /** setGhost(ghost) on the machine's own state: "ghost" or no recipe, no
      progress, and an empty ledger recomputed. (Its clearConnections is on
      the graph, see machine.dfy.) */
  function SetGhost(d: Book, info: NodeMeta, c: Core, g: bool): (r: Core)
    ensures r.recipeName == GhostName(g) && r.progress == None
    ensures NR.Consistent(d, info, r)
    ensures forall k | k in r.resources :: r.resources[k].amount == 0.0
  {
    NR.Refresh(d, info, NR.Core(GhostName(g), None, map[]))
  }

  /** setGhost(false) leaves a machine with no recipe at all, and a ghost
      tracks exactly its build costs. */
  lemma SetGhostState(d: Book, info: NodeMeta, c: Core, g: bool)
    ensures NR.IsGhost(SetGhost(d, info, c, g)) <==> g
    ensures !g ==> !NR.RecipeValid(d, info, SetGhost(d, info, c, g)) || "null" in d
    ensures g ==> SetGhost(d, info, c, g).resources.Keys == info.ingredients.Keys
  {
  }

  /** The progress half of processRecipe: count one tick; on reaching the
      speed either turn the ghost into a built machine or credit the
      results, and go idle. */
  function Advance(d: Book, info: NodeMeta, c: Core, r: RecipeMeta): NR.Processed {
    if c.progress.Some? && c.progress.value < r.speed then
      var n := c.(progress := Some(c.progress.value + 1.0));
      if n.progress.value == r.speed then Finish(d, info, n, r)
      else NR.Processed(n, false)
    else NR.Processed(c, false)
  }

  /** A recipe reaching its speed: a ghost becomes a built machine, any
      other machine is credited the results; either way it goes idle. */
  function Finish(d: Book, info: NodeMeta, n: Core, r: RecipeMeta): (f: NR.Processed)
    ensures f.core.progress.None? && f.built == NR.IsGhost(n)
    ensures !f.built ==> f.core.recipeName == n.recipeName && f.core.resources.Keys == n.resources.Keys
  {
    if NR.IsGhost(n) then NR.Processed(SetGhost(d, info, n, false), true)
    else NR.Processed(n.(progress := None, resources := Credit(n.resources, NR.Products(r.results))), false)
  }

  /** processRecipe: nothing without a valid recipe; an idle machine that
      starts on its own starts when ready (debit and snap); then the
      progress half. */
  function Process(d: Book, info: NodeMeta, c: Core): NR.Processed
    requires NR.Fits(d, info)
  {
    if !NR.RecipeValid(d, info, c) then NR.Processed(c, false)
    else if NR.AutoStarts(info, c) && !NR.RecipeReady(d, info, c) then NR.Processed(c, false)
    else
      var r := NR.Recipe(d, info, c).value;
      Advance(d, info, if NR.AutoStarts(info, c) then NR.Start(d, info, c) else c, r)
  }

  // ---- the processRecipe lifecycle ---------------------------------------

  /** Without a valid recipe, and for an idle machine that is a built manual
      one or not ready, nothing happens. */
  lemma Waits(d: Book, info: NodeMeta, c: Core)
    requires NR.Fits(d, info)
    requires !NR.RecipeValid(d, info, c)
      || (c.progress.None? && info.manual && !NR.IsGhost(c))
      || (c.progress.None? && !NR.RecipeReady(d, info, c))
    ensures Process(d, info, c) == NR.Processed(c, false)
  {
  }

  /** Leaving idle by a tick requires readiness and auto-start, and every
      ingredient is then debited and snapped. */
  lemma StartRequiresReady(d: Book, info: NodeMeta, c: Core)
    requires NR.Fits(d, info) && c.progress.None?
    requires Process(d, info, c) != NR.Processed(c, false)
    ensures NR.RecipeReady(d, info, c) && NR.AutoStarts(info, c)
    ensures Process(d, info, c) == Advance(d, info, NR.Start(d, info, c), NR.Recipe(d, info, c).value)
  {
  }

  /** The start of a recipe: every ingredient is tracked and goes from held
      to round((held - cost) / cost) * cost, which is held - cost exactly
      when held is a whole multiple of cost and never negative. */
  lemma StartDebits(d: Book, info: NodeMeta, c: Core, k: string)
    requires NR.Fits(d, info) && Tracks(d, info) && NR.Consistent(d, info, c) && NR.RecipeReady(d, info, c)
    requires k in NR.Recipe(d, info, c).value.ingredients
    ensures var cost := NR.Recipe(d, info, c).value.ingredients[k];
      && k in c.resources && k in NR.Start(d, info, c).resources
      && var held := c.resources[k].amount;
         var left := NR.Start(d, info, c).resources[k].amount;
         && left == Snap(held, cost)
         && (left == held - cost <==> IsInt(held / cost))
         && 0.0 <= left <= held
  {
    TrackedKeys(d, info, c);
    NR.StartSnap(d, info, c, k);
  }

  /** While running below the speed the counter goes up by exactly one; it
      goes back to idle on reaching the speed. */
  lemma RunningCounts(d: Book, info: NodeMeta, c: Core, p: real)
    requires NR.Fits(d, info) && NR.RecipeValid(d, info, c) && c.progress == Some(p)
    requires p < NR.Recipe(d, info, c).value.speed
    ensures var n := Process(d, info, c).core;
      if p + 1.0 == NR.Recipe(d, info, c).value.speed then n.progress.None?
      else n == c.(progress := Some(p + 1.0))
  {
    assert Process(d, info, c) == Advance(d, info, c, NR.Recipe(d, info, c).value);
  }

  /** A counter at or past the speed never moves again. */
  lemma StalledStays(d: Book, info: NodeMeta, c: Core, p: real)
    requires NR.Fits(d, info) && NR.RecipeValid(d, info, c) && c.progress == Some(p)
    requires p >= NR.Recipe(d, info, c).value.speed
    ensures Process(d, info, c) == NR.Processed(c, false)
  {
  }

  /** On completion a ghost becomes a built machine with no recipe
      (setGhost(false)); any other machine credits every result, all of
      them tracked; either way it goes idle. */
  lemma Completion(d: Book, info: NodeMeta, c: Core, p: real)
    requires NR.Fits(d, info) && Tracks(d, info) && NR.Consistent(d, info, c)
    requires NR.RecipeValid(d, info, c) && c.progress == Some(p)
    requires p + 1.0 == NR.Recipe(d, info, c).value.speed
    ensures var n := Process(d, info, c);
      && n.core.progress.None?
      && n.built == NR.IsGhost(c)
      && (NR.IsGhost(c) ==> n.core == SetGhost(d, info, c, false) && n.core.recipeName.None?)
      && (!NR.IsGhost(c) ==>
            var gains := NR.Products(NR.Recipe(d, info, c).value.results);
            && n.core == c.(progress := None, resources := Credit(c.resources, gains))
            && gains.Keys <= c.resources.Keys)
  {
    TrackedKeys(d, info, c);
    assert Process(d, info, c) == Advance(d, info, c, NR.Recipe(d, info, c).value);
  }

  /** processRecipe keeps a machine consistent. */
  lemma ProcessConsistent(d: Book, info: NodeMeta, c: Core)
    requires NR.Fits(d, info) && NR.Consistent(d, info, c)
    ensures NR.Consistent(d, info, Process(d, info, c).core)
  {
    if NR.RecipeValid(d, info, c) && !(NR.AutoStarts(info, c) && !NR.RecipeReady(d, info, c)) {
      var r := NR.Recipe(d, info, c).value;
      var s := if NR.AutoStarts(info, c) then NR.Start(d, info, c) else c;
      if NR.AutoStarts(info, c) {
        NR.StartConsistent(d, info, c);
      }
      AdvanceConsistent(d, info, s, r);
      assert Process(d, info, c) == Advance(d, info, s, r);
    }
  }

  lemma AdvanceConsistent(d: Book, info: NodeMeta, c: Core, r: RecipeMeta)
    requires NR.Consistent(d, info, c)
    ensures NR.Consistent(d, info, Advance(d, info, c, r).core)
  {
    if c.progress.Some? && c.progress.value < r.speed {
      var n := c.(progress := Some(c.progress.value + 1.0));
      NR.CapacitiesByName(d, info, c, n);
      if n.progress.value == r.speed && !NR.IsGhost(n) {
        var e := n.(progress := None, resources := Credit(n.resources, NR.Products(r.results)));
        NR.CapacitiesByName(d, info, c, e);
      }
    }
  }

  // ---- save and load (toJson is the current revision's) -------------------

  /** loadJson up to its amounts: setGhost by the saved recipe, then
      setRecipe of the saved recipe unless it is the ghost's. A machine
      setGhost(false) left is no ghost, so only a name the type does not
      list is refused. */
  function LoadRecipe(d: Book, info: NodeMeta, c: Core, save: NR.Save): (r: Result<Core>)
    ensures r.Failure? <==>
      save.recipe.Some? && save.recipe != Some(NR.GhostKey) && save.recipe.value !in info.recipes
    ensures r.Failure? ==> r.error == InvalidRecipe(save.recipe.value, info.key)
    ensures r.Success? ==> r.value.recipeName == save.recipe && r.value.progress.None?
    ensures r.Success? ==> NR.Consistent(d, info, r.value)
  {
    var base := SetGhost(d, info, c, save.recipe == Some(NR.GhostKey));
    if save.recipe != Some(NR.GhostKey) then SetRecipe(d, info, base, save.recipe) else Success(base)
  }

  /** The saved keys the ledger n does not track: setting any of them throws
      a TypeError. */
  function Untracked(n: Core, save: NR.Save): (u: set<string>)
    ensures forall k :: k in u <==> k in save.resources && k !in n.resources
  {
    save.resources.Keys - n.resources.Keys
  }

  /** loadJson when no saved amount is of an untracked key: the saved
      recipe, amounts and progress, consistent. */
  function LoadJson(d: Book, info: NodeMeta, c: Core, save: NR.Save): (r: Result<Core>)
    ensures r.Failure? <==> LoadRecipe(d, info, c, save).Failure?
    ensures r.Success? ==>
      && r.value.recipeName == save.recipe && r.value.progress == save.progress
      && NR.Consistent(d, info, r.value)
      && forall k | k in save.resources && k in r.value.resources :: r.value.resources[k].amount == save.resources[k]
  {
    match LoadRecipe(d, info, c, save)
    case Failure(e) => Failure(e)
    case Success(n) =>
      var m := n.(resources := SetAmounts(n.resources, save.resources), progress := save.progress);
      NR.CapacitiesByName(d, info, n, m);
      Success(m)
  }

  /** Loading what toJson saved gives back the machine's state, from any
      starting state, whenever the machine is consistent; every saved key
      is then tracked, so the load does not throw. */
  lemma SaveRoundTrip(d: Book, info: NodeMeta, start: Core, x: real, y: real, outputs: seq<string>, c: Core)
    requires NR.Consistent(d, info, c)
    ensures var save := NR.ToJson(x, y, outputs, c);
      && LoadRecipe(d, info, start, save).Success?
      && Untracked(LoadRecipe(d, info, start, save).value, save) == {}
      && LoadJson(d, info, start, save) == Success(c)
  {
    var save := NR.ToJson(x, y, outputs, c);
    var base := SetGhost(d, info, start, save.recipe == Some(NR.GhostKey));
    var named := NR.Core(c.recipeName, None, map[]);
    NR.CapacitiesByName(d, info, named, c);
    var n := LoadRecipe(d, info, start, save).value;
    if NR.IsGhost(c) {
      assert n == NR.Refresh(d, info, named);
      RestoreAmounts(c.resources, NR.Capacities(d, info, c), map[]);
    } else {
      var e := base.(recipeName := c.recipeName);
      NR.CapacitiesByName(d, info, e, c);
      assert n == NR.Refresh(d, info, e);
      RestoreAmounts(c.resources, NR.Capacities(d, info, c), base.resources);
    }
    assert LoadJson(d, info, start, save).value == c;
  }

  // ---- the pull (pullResources) -------------------------------------------

  /** What a machine's pull reads besides the ledgers: its id, its inputs in
      insertion order, the connection graph (input.hasInput(this)) and
      whether its recipe is valid, none of which a pull changes. */
  datatype Puller = Puller(self: string, inputs: seq<string>, links: Graph.Links, valid: bool)

  /** The snapshot has a ledger for the machine and for each of its inputs. */
  predicate Covers(p: Puller, s: NR.Stocks) {
    NR.Covers(s, p.self, p.inputs)
  }

  /** The input id is one the drain pass skips and the balance pass visits:
      the machine's recipe is not valid, id also has the machine as an
      input, and id tracks the key. */
  predicate Shared(p: Puller, s: NR.Stocks, id: string, name: string) {
    !p.valid && id in p.links && p.self in p.links[id].inputs && id in s && name in s[id]
  }

  /** The drain loop for one key, from input ids[0] on: ask each input that
      is not skipped for all that remains, move what it gives here, and stop
      once nothing remains. */
  function Drain(p: Puller, s: NR.Stocks, ids: seq<string>, name: string, remaining: real): (r: NR.Stocks)
    requires p.self in s && name in s[p.self] && forall id | id in ids :: id in s
    ensures r.Keys == s.Keys
    ensures forall id | id in s :: r[id].Keys == s[id].Keys
    decreases |ids|
  {
    if ids == [] then s
    else if Shared(p, s, ids[0], name) then Drain(p, s, ids[1..], name, remaining)
    else
      var rest := NR.After(remaining, NR.Given(s, ids[0], name, remaining));
      var s2 := NR.Transfer(s, p.self, ids[0], name, remaining);
      if rest <= 0.0 then s2 else Drain(p, s2, ids[1..], name, rest)
  }

  /** The request of a balance step: half the difference, capped by the
      machine's headroom. */
  function EvenRequest(s: NR.Stocks, self: string, src: string, name: string): real
    requires self in s && src in s && name in s[self] && name in s[src]
  {
    Min((s[src][name].amount - s[self][name].amount) / 2.0, s[self][name].maximum - s[self][name].amount)
  }

  /** One balance step against src: when it holds more than the machine,
      pull the balance request from it. */
  function Even(s: NR.Stocks, self: string, src: string, name: string): (r: NR.Stocks)
    requires self in s && src in s && name in s[self] && name in s[src]
    ensures r.Keys == s.Keys
    ensures forall id | id in s :: r[id].Keys == s[id].Keys
  {
    if s[src][name].amount - s[self][name].amount > 0.0 then NR.Transfer(s, self, src, name, EvenRequest(s, self, src, name))
    else s
  }

  /** The balance loop for one key, from input ids[0] on: a step against
      every input the drain pass skipped. */
  function Balance(p: Puller, s: NR.Stocks, ids: seq<string>, name: string): (r: NR.Stocks)
    requires p.self in s && name in s[p.self] && forall id | id in ids :: id in s
    ensures r.Keys == s.Keys
    ensures forall id | id in s :: r[id].Keys == s[id].Keys
    decreases |ids|
  {
    if ids == [] then s
    else Balance(p, if Shared(p, s, ids[0], name) then Even(s, p.self, ids[0], name) else s, ids[1..], name)
  }

  /** A turn of the drain loop at a skipped input leaves the rest of the
      loop to the other inputs. */
  lemma DrainSkip(p: Puller, s: NR.Stocks, ids: seq<string>, name: string, remaining: real)
    requires p.self in s && name in s[p.self] && ids != [] && forall id | id in ids :: id in s
    requires Shared(p, s, ids[0], name)
    ensures Drain(p, s, ids[1..], name, remaining) == Drain(p, s, ids, name, remaining)
  {
  }

  /** A turn of the drain loop at an input it asks: either nothing remains
      and the loop is over, or the other inputs finish it. */
  lemma DrainTake(p: Puller, s: NR.Stocks, t: NR.Stocks, ids: seq<string>, name: string, remaining: real, rest: real)
    requires p.self in s && name in s[p.self] && ids != [] && forall id | id in ids :: id in s
    requires !Shared(p, s, ids[0], name)
    requires t == NR.Transfer(s, p.self, ids[0], name, remaining)
    requires rest == NR.After(remaining, NR.Given(s, ids[0], name, remaining))
    ensures rest <= 0.0 ==> t == Drain(p, s, ids, name, remaining)
    ensures rest > 0.0 ==> Drain(p, t, ids[1..], name, rest) == Drain(p, s, ids, name, remaining)
  {
  }

  /** A turn of the balance loop: the step against ids[0], then the others. */
  lemma BalanceTurn(p: Puller, s: NR.Stocks, t: NR.Stocks, ids: seq<string>, name: string)
    requires p.self in s && name in s[p.self] && ids != [] && forall id | id in ids :: id in s
    requires t == if Shared(p, s, ids[0], name) then Even(s, p.self, ids[0], name) else s
    ensures Balance(p, t, ids[1..], name) == Balance(p, s, ids, name)
  {
  }

  /** The two passes of pullResources; the drain pass carries the demand. */
  datatype Pass = Draining(demand: map<string, real>) | Balancing

  /** The loop of one pass for the key k over all inputs. */
  function KeyPass(p: Puller, s: NR.Stocks, pass: Pass, k: string): (r: NR.Stocks)
    requires Covers(p, s) && k in s[p.self] && (pass.Draining? ==> k in pass.demand)
    ensures r.Keys == s.Keys
    ensures forall id | id in s :: r[id].Keys == s[id].Keys
  {
    match pass
    case Draining(demand) => Drain(p, s, p.inputs, k, demand[k])
    case Balancing => Balance(p, s, p.inputs, k)
  }

  /** The keys a pass may run over. */
  predicate PassKeys(p: Puller, s: NR.Stocks, pass: Pass, keys: set<string>) {
    Covers(p, s) && keys <= s[p.self].Keys && (pass.Draining? ==> keys <= pass.demand.Keys)
  }

  /** A pass after its loops of the keys in done have run, in any order:
      each key's loop moves and reads only that key. */
  function PassSome(p: Puller, s: NR.Stocks, pass: Pass, done: set<string>): (r: NR.Stocks)
    requires PassKeys(p, s, pass, done)
    ensures r.Keys == s.Keys
    ensures forall id | id in s :: r[id].Keys == s[id].Keys
  {
    map id | id in s :: map k | k in s[id] ::
      if k in done then KeyPass(p, s, pass, k)[id][k] else s[id][k]
  }

  /** pullResources: the drain pass over every key of the demand, then the
      balance pass over the same keys (the source asks for the demand again,
      and its keys do not depend on the amounts). */
  function Pull(p: Puller, s: NR.Stocks, demand: map<string, real>): (r: NR.Stocks)
    requires Covers(p, s) && demand.Keys <= s[p.self].Keys
    ensures r.Keys == s.Keys
    ensures forall id | id in s :: r[id].Keys == s[id].Keys
  {
    var drained := PassSome(p, s, Draining(demand), demand.Keys);
    PassSome(p, drained, Balancing, demand.Keys)
  }

  /** Two snapshots with the same ledger keys that agree on the key k. */
  predicate AgreeAt(s: NR.Stocks, t: NR.Stocks, k: string) {
    && s.Keys == t.Keys
    && (forall id | id in s :: s[id].Keys == t[id].Keys)
    && (forall id | id in s && k in s[id] :: s[id][k] == t[id][k])
  }

  /** Snapshots that agree on k agree on every total and bound about k. */
  lemma AgreeTotals(s: NR.Stocks, t: NR.Stocks, ids: seq<string>, k: string)
    requires AgreeAt(s, t, k) && forall id | id in ids :: id in s
    ensures NR.Total(s, ids, k) == NR.Total(t, ids, k)
    ensures NR.HoldsNonNegative(s, ids, k) <==> NR.HoldsNonNegative(t, ids, k)
  {
    NR.TotalFrame(s, t, ids, k);
  }

  /** A pass over done leaves a key of done as its own loop leaves it. */
  lemma PassSomeAt(p: Puller, s: NR.Stocks, pass: Pass, done: set<string>, k: string)
    requires PassKeys(p, s, pass, done) && k in done
    ensures AgreeAt(PassSome(p, s, pass, done), KeyPass(p, s, pass, k), k)
  {
  }

  // ---- each loop moves only its own key -------------------------------------

  lemma {:induction false} DrainFrame(p: Puller, s: NR.Stocks, ids: seq<string>, name: string, remaining: real)
    requires p.self in s && name in s[p.self] && forall id | id in ids :: id in s
    ensures var r := Drain(p, s, ids, name, remaining);
      && (forall id, k | id in s && k in s[id] && k != name :: r[id][k] == s[id][k])
      && (forall id | id in s && id != p.self && id !in ids :: r[id] == s[id])
    decreases |ids|
  {
    if ids != [] && !Shared(p, s, ids[0], name) {
      var rest := NR.After(remaining, NR.Given(s, ids[0], name, remaining));
      var s2 := NR.Transfer(s, p.self, ids[0], name, remaining);
      if rest > 0.0 {
        DrainFrame(p, s2, ids[1..], name, rest);
      }
    } else if ids != [] {
      DrainFrame(p, s, ids[1..], name, remaining);
    }
  }

  lemma {:induction false} BalanceFrame(p: Puller, s: NR.Stocks, ids: seq<string>, name: string)
    requires p.self in s && name in s[p.self] && forall id | id in ids :: id in s
    ensures var r := Balance(p, s, ids, name);
      && (forall id, k | id in s && k in s[id] && k != name :: r[id][k] == s[id][k])
      && (forall id | id in s && id != p.self && id !in ids :: r[id] == s[id])
    decreases |ids|
  {
    if ids != [] {
      var s2 := if Shared(p, s, ids[0], name) then Even(s, p.self, ids[0], name) else s;
      BalanceFrame(p, s2, ids[1..], name);
    }
  }

  lemma KeyFrame(p: Puller, s: NR.Stocks, pass: Pass, k: string)
    requires Covers(p, s) && k in s[p.self] && (pass.Draining? ==> k in pass.demand)
    ensures var r := KeyPass(p, s, pass, k);
      forall id, j | id in s && j in s[id] && j != k :: r[id][j] == s[id][j]
  {
    match pass
    case Draining(demand) => DrainFrame(p, s, p.inputs, k, demand[k]);
    case Balancing => BalanceFrame(p, s, p.inputs, k);
  }

  // ---- each loop reads only its own key -------------------------------------

  lemma EvenByKey(s: NR.Stocks, t: NR.Stocks, self: string, src: string, name: string)
    requires self in s && src in s && name in s[self] && name in s[src] && AgreeAt(s, t, name)
    ensures AgreeAt(Even(s, self, src, name), Even(t, self, src, name), name)
  {
    assert s[src][name] == t[src][name] && s[self][name] == t[self][name];
    var req := EvenRequest(s, self, src, name);
    assert req == EvenRequest(t, self, src, name);
    if s[src][name].amount - s[self][name].amount > 0.0 {
      NR.TransferByKey(s, t, self, src, name, req);
      assert Even(s, self, src, name) == NR.Transfer(s, self, src, name, req);
      assert Even(t, self, src, name) == NR.Transfer(t, self, src, name, req);
    }
  }

  lemma {:induction false} DrainByKey(p: Puller, s: NR.Stocks, t: NR.Stocks, ids: seq<string>, name: string, remaining: real)
    requires p.self in s && name in s[p.self] && forall id | id in ids :: id in s
    requires AgreeAt(s, t, name)
    ensures AgreeAt(Drain(p, s, ids, name, remaining), Drain(p, t, ids, name, remaining), name)
    decreases |ids|
  {
    if ids != [] {
      if Shared(p, s, ids[0], name) {
        DrainByKey(p, s, t, ids[1..], name, remaining);
      } else {
        NR.TransferByKey(s, t, p.self, ids[0], name, remaining);
        var rest := NR.After(remaining, NR.Given(s, ids[0], name, remaining));
        var s2 := NR.Transfer(s, p.self, ids[0], name, remaining);
        var t2 := NR.Transfer(t, p.self, ids[0], name, remaining);
        if rest > 0.0 {
          DrainByKey(p, s2, t2, ids[1..], name, rest);
        }
      }
    }
  }

  lemma {:induction false} BalanceByKey(p: Puller, s: NR.Stocks, t: NR.Stocks, ids: seq<string>, name: string)
    requires p.self in s && name in s[p.self] && forall id | id in ids :: id in s
    requires AgreeAt(s, t, name)
    ensures AgreeAt(Balance(p, s, ids, name), Balance(p, t, ids, name), name)
    decreases |ids|
  {
    if ids != [] {
      var s2 := if Shared(p, s, ids[0], name) then Even(s, p.self, ids[0], name) else s;
      var t2 := if Shared(p, t, ids[0], name) then Even(t, p.self, ids[0], name) else t;
      if Shared(p, s, ids[0], name) {
        EvenByKey(s, t, p.self, ids[0], name);
      }
      BalanceByKey(p, s2, t2, ids[1..], name);
    }
  }

  lemma KeyByKey(p: Puller, s: NR.Stocks, t: NR.Stocks, pass: Pass, k: string)
    requires Covers(p, s) && k in s[p.self] && (pass.Draining? ==> k in pass.demand)
    requires AgreeAt(s, t, k)
    ensures AgreeAt(KeyPass(p, s, pass, k), KeyPass(p, t, pass, k), k)
  {
    match pass
    case Draining(demand) => DrainByKey(p, s, t, p.inputs, k, demand[k]);
    case Balancing => BalanceByKey(p, s, t, p.inputs, k);
  }

  // ---- the order of the keys does not matter ----------------------------------

  /** With nothing done a pass has changed nothing. */
  lemma PassNone(p: Puller, s: NR.Stocks, pass: Pass)
    requires Covers(p, s)
    ensures PassSome(p, s, pass, {}) == s
  {
    var r := PassSome(p, s, pass, {});
    forall id | id in s ensures r[id] == s[id] {
    }
  }

  /** Running the loop of one more key k on the state after the keys in done
      gives the state after done + {k}. */
  lemma PassStep(p: Puller, s: NR.Stocks, pass: Pass, done: set<string>, k: string)
    requires PassKeys(p, s, pass, done + {k}) && k !in done
    ensures KeyPass(p, PassSome(p, s, pass, done), pass, k) == PassSome(p, s, pass, done + {k})
  {
    var cur := PassSome(p, s, pass, done);
    var a := KeyPass(p, cur, pass, k);
    var b := PassSome(p, s, pass, done + {k});
    KeyFrame(p, cur, pass, k);
    assert AgreeAt(cur, s, k);
    KeyByKey(p, cur, s, pass, k);
    forall id | id in s ensures a[id] == b[id] {
      PassStepAt(p, s, pass, done, k, a, id);
    }
  }

  /** PassStep at one ledger: a is the pass after done + {k} at ledger id
      when it agrees with the pass after done off k, and with k's own loop
      on k. */
  lemma PassStepAt(p: Puller, s: NR.Stocks, pass: Pass, done: set<string>, k: string, a: NR.Stocks, id: string)
    requires PassKeys(p, s, pass, done + {k}) && k !in done && id in s
    requires id in a && a[id].Keys == s[id].Keys
    requires forall j | j in s[id] && j != k :: a[id][j] == PassSome(p, s, pass, done)[id][j]
    requires k in s[id] ==> a[id][k] == KeyPass(p, s, pass, k)[id][k]
    ensures a[id] == PassSome(p, s, pass, done + {k})[id]
  {
  }

  // ---- what the pull moves ----------------------------------------------------

  /** One drain turn against src: it gives a whole, non-negative amount no
      larger than what remains and what it holds, and the machine gains
      exactly that. */
  lemma {:induction false} DrainConserves(p: Puller, s: NR.Stocks, ids: seq<string>, name: string, remaining: real)
    requires p.self in s && name in s[p.self] && p.self !in ids && Distinct(ids)
    requires forall id | id in ids :: id in s
    requires NR.HoldsNonNegative(s, ids, name) && remaining >= 0.0
    ensures var r := Drain(p, s, ids, name, remaining);
      && r[p.self][name].amount + NR.Total(r, ids, name) == s[p.self][name].amount + NR.Total(s, ids, name)
      && NR.HoldsNonNegative(r, ids, name)
      && s[p.self][name].amount <= r[p.self][name].amount <= s[p.self][name].amount + remaining
      && r[p.self][name].maximum == s[p.self][name].maximum
    decreases |ids|
  {
    if ids != [] {
      var src := ids[0];
      assert Distinct(ids[1..]);
      if Shared(p, s, src, name) {
        var r := Drain(p, s, ids[1..], name, remaining);
        DrainConserves(p, s, ids[1..], name, remaining);
        DrainFrame(p, s, ids[1..], name, remaining);
        assert r[src] == s[src];
      } else {
        var g := NR.Given(s, src, name, remaining);
        var rest := NR.After(remaining, g);
        var s2 := NR.Transfer(s, p.self, src, name, remaining);
        NR.TransferStep(s, p.self, src, name, remaining);
        NR.TotalFrame(s, s2, ids[1..], name);
        assert NR.HoldsNonNegative(s2, ids, name);
        if rest > 0.0 {
          var r := Drain(p, s2, ids[1..], name, rest);
          DrainConserves(p, s2, ids[1..], name, rest);
          DrainFrame(p, s2, ids[1..], name, rest);
          assert r[src] == s2[src];
        }
      }
    }
  }

  /** One balance step against src: the machine gains exactly what src
      loses, never passes its maximum, and never ends up holding more than
      src. */
  lemma EvenStep(s: NR.Stocks, self: string, src: string, name: string)
    requires self in s && src in s && self != src && name in s[self] && name in s[src]
    requires s[src][name].amount >= 0.0
    requires 0.0 <= s[self][name].amount <= s[self][name].maximum
    ensures var r := Even(s, self, src, name);
      && r[self][name].amount + r[src][name].amount == s[self][name].amount + s[src][name].amount
      && r[src][name].amount >= 0.0
      && s[self][name].amount <= r[self][name].amount <= r[self][name].maximum == s[self][name].maximum
      && (s[src][name].amount > s[self][name].amount ==> r[self][name].amount <= r[src][name].amount)
      && (forall id | id in s && id != self && id != src :: r[id] == s[id])
  {
    var a := s[self][name].amount;
    var h := s[src][name].amount;
    if h - a > 0.0 {
      var req := EvenRequest(s, self, src, name);
      NR.TransferStep(s, self, src, name, req);
    }
  }

  /** With a valid recipe the balance pass does nothing. */
  lemma {:induction false} BalanceInert(p: Puller, s: NR.Stocks, ids: seq<string>, name: string)
    requires p.self in s && name in s[p.self] && forall id | id in ids :: id in s
    requires p.valid
    ensures Balance(p, s, ids, name) == s
    decreases |ids|
  {
    if ids != [] {
      BalanceInert(p, s, ids[1..], name);
    }
  }

  /** Across the balance loop the machine gains exactly what its inputs
      lose, stays within [0, maximum], and no input drops below zero. */
  lemma {:induction false} BalanceConserves(p: Puller, s: NR.Stocks, ids: seq<string>, name: string)
    requires p.self in s && name in s[p.self] && p.self !in ids && Distinct(ids)
    requires forall id | id in ids :: id in s
    requires NR.HoldsNonNegative(s, ids, name)
    requires 0.0 <= s[p.self][name].amount <= s[p.self][name].maximum
    ensures var r := Balance(p, s, ids, name);
      && r[p.self][name].amount + NR.Total(r, ids, name) == s[p.self][name].amount + NR.Total(s, ids, name)
      && NR.HoldsNonNegative(r, ids, name)
      && s[p.self][name].amount <= r[p.self][name].amount <= r[p.self][name].maximum
      && r[p.self][name].maximum == s[p.self][name].maximum
    decreases |ids|
  {
    if ids != [] {
      var src := ids[0];
      assert Distinct(ids[1..]);
      var s2 := if Shared(p, s, src, name) then Even(s, p.self, src, name) else s;
      if Shared(p, s, src, name) {
        EvenStep(s, p.self, src, name);
        NR.TotalFrame(s, s2, ids[1..], name);
      }
      assert NR.HoldsNonNegative(s2, ids, name);
      var r := Balance(p, s2, ids[1..], name);
      BalanceConserves(p, s2, ids[1..], name);
      BalanceFrame(p, s2, ids[1..], name);
      assert r[src] == s2[src];
    }
  }

  lemma AgreeTrans(a: NR.Stocks, b: NR.Stocks, c: NR.Stocks, k: string)
    requires AgreeAt(a, b, k) && AgreeAt(b, c, k)
    ensures AgreeAt(a, c, k)
  {
  }

  /** A pass leaves a key it does not run over as it was. */
  lemma PassSomeOff(p: Puller, s: NR.Stocks, pass: Pass, done: set<string>, k: string)
    requires PassKeys(p, s, pass, done) && k !in done
    ensures AgreeAt(PassSome(p, s, pass, done), s, k)
  {
  }

  /** The whole pull for one key of the demand: the machine gains exactly
      what its inputs lose, no input drops below zero, the machine never
      loses any, and it stays within its maximum when the demand is within
      its headroom. */
  lemma PullConserves(p: Puller, s: NR.Stocks, demand: map<string, real>, k: string)
    requires Covers(p, s) && demand.Keys <= s[p.self].Keys
    requires Distinct(p.inputs) && p.self !in p.inputs
    requires k in demand && demand[k] >= 0.0
    requires NR.HoldsNonNegative(s, p.inputs, k) && 0.0 <= s[p.self][k].amount
    requires p.valid || s[p.self][k].amount + demand[k] <= s[p.self][k].maximum
    ensures var r := Pull(p, s, demand);
      && r[p.self][k].amount + NR.Total(r, p.inputs, k) == s[p.self][k].amount + NR.Total(s, p.inputs, k)
      && NR.HoldsNonNegative(r, p.inputs, k)
      && s[p.self][k].amount <= r[p.self][k].amount
      && (s[p.self][k].amount + demand[k] <= s[p.self][k].maximum ==> r[p.self][k].amount <= s[p.self][k].maximum)
  {
    var keys := demand.Keys;
    var d1 := PassSome(p, s, Draining(demand), keys);
    var dk := Drain(p, s, p.inputs, k, demand[k]);
    PassSomeAt(p, s, Draining(demand), keys, k);
    DrainConserves(p, s, p.inputs, k, demand[k]);
    var r := PassSome(p, d1, Balancing, keys);
    PassSomeAt(p, d1, Balancing, keys, k);
    BalanceByKey(p, d1, dk, p.inputs, k);
    var bk := Balance(p, dk, p.inputs, k);
    AgreeTrans(r, Balance(p, d1, p.inputs, k), bk, k);
    if p.valid {
      BalanceInert(p, dk, p.inputs, k);
    } else {
      BalanceConserves(p, dk, p.inputs, k);
    }
    AgreeTotals(r, bk, p.inputs, k);
  }

  // ---- tick ---------------------------------------------------------------

  /** The keys the demand names depend only on the recipe and the tracked
      keys, so the balance pass, which asks for the demand again after the
      drain pass, runs over the same keys. */
  lemma DemandKeys(d: Book, info: NodeMeta, c: Core, e: Core)
    requires c.recipeName == e.recipeName && c.resources.Keys == e.resources.Keys
    ensures NR.Demand(d, info, c).Keys == NR.Demand(d, info, e).Keys
  {
    assert NR.Recipe(d, info, c) == NR.Recipe(d, info, e);
  }


  /** The ledgers after tick's pull, for the machine self with state c
      (tick pulls unless a ghost is being built). */
  function TickPull(d: Book, info: NodeMeta, s: NR.Stocks, links: Graph.Links, self: string, inputs: seq<string>, c: Core): (r: NR.Stocks)
    requires NR.Covers(s, self, inputs) && s[self] == c.resources
    ensures r.Keys == s.Keys
    ensures !NR.Pulls(c) ==> r == s
  {
    if NR.Pulls(c) then Pull(Puller(self, inputs, links, NR.RecipeValid(d, info, c)), s, NR.Demand(d, info, c)) else s
  }

  /** Tick's pull for every tracked key of the machine: it gains exactly
      what its inputs lose, no input drops below zero, it never loses any,
      and a ghost or a machine without a valid recipe never passes its
      maximum. */
  lemma TickPullMoves(d: Book, info: NodeMeta, s: NR.Stocks, links: Graph.Links, self: string, inputs: seq<string>, c: Core, k: string)
    requires NR.Covers(s, self, inputs) && s[self] == c.resources
    requires Distinct(inputs) && self !in inputs
    requires InBounds(c.resources) && k in c.resources && NR.HoldsNonNegative(s, inputs, k)
    ensures var r := TickPull(d, info, s, links, self, inputs, c);
      && r[self][k].amount + NR.Total(r, inputs, k) == s[self][k].amount + NR.Total(s, inputs, k)
      && NR.HoldsNonNegative(r, inputs, k)
      && s[self][k].amount <= r[self][k].amount
      && (NR.IsGhost(c) || !NR.RecipeValid(d, info, c) ==> r[self][k].amount <= s[self][k].maximum)
  {
    if NR.Pulls(c) {
      var p := Puller(self, inputs, links, NR.RecipeValid(d, info, c));
      var demand := NR.Demand(d, info, c);
      NR.DemandNonNegative(d, info, c);
      if NR.IsGhost(c) || !NR.RecipeValid(d, info, c) {
        NR.DemandIsHeadroom(d, info, c);
      }
      if k in demand {
        PullConserves(p, s, demand, k);
      } else {
        var d1 := PassSome(p, s, Draining(demand), demand.Keys);
        PassSomeOff(p, s, Draining(demand), demand.Keys, k);
        PassSomeOff(p, d1, Balancing, demand.Keys, k);
        AgreeTrans(Pull(p, s, demand), d1, s, k);
        AgreeTotals(Pull(p, s, demand), s, inputs, k);
      }
    }
  }

  lemma {:induction false} DrainMaxima(p: Puller, s: NR.Stocks, ids: seq<string>, name: string, remaining: real)
    requires p.self in s && name in s[p.self] && forall id | id in ids :: id in s
    ensures NR.SameMaxima(s, Drain(p, s, ids, name, remaining))
    decreases |ids|
  {
    if ids != [] {
      if Shared(p, s, ids[0], name) {
        DrainMaxima(p, s, ids[1..], name, remaining);
      } else {
        var rest := NR.After(remaining, NR.Given(s, ids[0], name, remaining));
        var s2 := NR.Transfer(s, p.self, ids[0], name, remaining);
        assert NR.SameMaxima(s, s2);
        if rest > 0.0 {
          DrainMaxima(p, s2, ids[1..], name, rest);
        }
      }
    }
  }

  lemma {:induction false} BalanceMaxima(p: Puller, s: NR.Stocks, ids: seq<string>, name: string)
    requires p.self in s && name in s[p.self] && forall id | id in ids :: id in s
    ensures NR.SameMaxima(s, Balance(p, s, ids, name))
    decreases |ids|
  {
    if ids != [] {
      var s2 := if Shared(p, s, ids[0], name) then Even(s, p.self, ids[0], name) else s;
      assert NR.SameMaxima(s, s2);
      BalanceMaxima(p, s2, ids[1..], name);
    }
  }

  /** A pass changes amounts only. */
  lemma PassMaxima(p: Puller, s: NR.Stocks, pass: Pass, done: set<string>)
    requires PassKeys(p, s, pass, done)
    ensures NR.SameMaxima(s, PassSome(p, s, pass, done))
  {
    var r := PassSome(p, s, pass, done);
    forall id: string, k: string | id in s && k in s[id] && id in r && k in r[id]
      ensures NR.MaximumAt(r, id, k) == NR.MaximumAt(s, id, k)
    {
      if k in done {
        match pass
        case Draining(demand) => DrainMaxima(p, s, p.inputs, k, demand[k]);
        case Balancing => BalanceMaxima(p, s, p.inputs, k);
      }
    }
  }

  /** Tick's pull keeps every ledger's keys and maxima, so the machine stays
      consistent. */
  lemma TickPullShape(d: Book, info: NodeMeta, s: NR.Stocks, links: Graph.Links, self: string, inputs: seq<string>, c: Core)
    requires NR.Covers(s, self, inputs) && s[self] == c.resources && NR.Consistent(d, info, c)
    ensures var r := TickPull(d, info, s, links, self, inputs, c);
      && NR.SameMaxima(s, r)
      && NR.Consistent(d, info, c.(resources := r[self]))
  {
    var r := TickPull(d, info, s, links, self, inputs, c);
    if NR.Pulls(c) {
      var p := Puller(self, inputs, links, NR.RecipeValid(d, info, c));
      var demand := NR.Demand(d, info, c);
      var d1 := PassSome(p, s, Draining(demand), demand.Keys);
      PassMaxima(p, s, Draining(demand), demand.Keys);
      PassMaxima(p, d1, Balancing, demand.Keys);
    }
    var n := c.(resources := r[self]);
    NR.CapacitiesByName(d, info, c, n);
    forall k | k in r[self] ensures r[self][k].maximum == c.resources[k].maximum {
      assert NR.MaximumAt(r, self, k) == NR.MaximumAt(s, self, k);
    }
  }

  /** The consistency half of TickPullShape on its own. */
  lemma TickPullKeeps(d: Book, info: NodeMeta, s: NR.Stocks, links: Graph.Links, self: string, inputs: seq<string>, c: Core)
    requires NR.Covers(s, self, inputs) && s[self] == c.resources && NR.Consistent(d, info, c)
    ensures NR.Consistent(d, info, c.(resources := TickPull(d, info, s, links, self, inputs, c)[self]))
  {
    TickPullShape(d, info, s, links, self, inputs, c);
  }
}
