# resource-game simulation core in Dafny

This project models the simulation core of resource-game, a browser game
about building production graphs. In the game:

- Each **node** has a type from the data file. It holds a bounded ledger
  (resource key → amount and maximum) and selects a recipe.
- A node starts life as a **ghost**. The ghost is built by a pseudo-recipe
  made of its type's build ingredients and build time.
- Every tick a node **pulls** resources from its input neighbours. It also
  runs its recipe on a per-tick progress counter.
- The **engine** holds the node collection. It ticks every node, records
  the resource keys seen so far, decides what is unlocked, and saves and
  loads the graph.

Two revisions of the node are modelled as separate classes:

- the current one, `Node` (src/Node.ts);
- the older one, `Machine` (src/Machine.ts). It has another setGhost,
  setRecipe and loadJson, and a two-pass pull: a drain pass, then a
  balance pass against mutual neighbours.

The project is organized by layer:

- **Values and JavaScript semantics.**
  - `wrappers.dfy` holds Option, Result, Outcome and the error kinds.
  - `jsmath.dfy` holds JavaScript's `Math.floor`, `Math.ceil`,
    `Math.round`, `Math.min` and `Math.max` on reals.
  - `seqs.dfy` holds duplicate-free sequences, which model JavaScript
    `Set`s in insertion order.
- **Data file.** `catalog.dfy` covers the data file and
  `listMetadata`/`hasMetadata`/`getMetadata` with their default records.
- **Shared ledger.** `ledger.dfy` holds the ledger operations both
  revisions share.
- **Shared graph.** `graph.dfy` holds the connection graph. Every node id
  maps to its input and output id lists, and the edge operations act on
  this graph as values.
- **Pure rules of each revision.** `node_rules.dfy` and `machine_rules.dfy`
  give each revision's rules as functions on values:
  - recipe lifecycle;
  - ledger recompute;
  - demand;
  - pull;
  - save and load.
- **Classes.** `node.dfy` and `machine.dfy` define the `Node` and `Machine`
  classes. Their fields are updated in place. Every method is proved
  against the functions above.
  - A peer is reached through `world`, the map from uuid to object.
  - Edges are uuids in `inputs`/`outputs`.
- **Engine.** `engine_rules.dfy` gives the engine as functions on the
  network's value. `network.dfy` holds the loops over the node map: ticking,
  the seen-resources scan, delete and toJson. `load.dfy` holds the two
  passes of fromJson. `engine.dfy` defines the `Engine` class.
  - The class keeps the node map and its insertion order (`order`), which
    `Map` iteration follows.
  - It also keeps the seen resources, the node waiting to be placed and
    the debug switch.

Amounts, maxima, speeds and progress are `real`s, as JavaScript numbers
are. Rounding is written out explicitly.

`Math.random` and `uuidv4` are non-deterministic, so they are parameters:

- the draw of `PickRandom`;
- the uuid of `CreateNode` and of the constructors.

The TypeScript files import `getData`/`hasData` from `./data`. That file's
type shapes are used for the recipe datatype. Lookups follow
src/utils/data.ts: a stored record is merged over its kind's default
record, and `key` is forced to the id.

Where the code throws, the model returns an error value:

- a `Result`;
- or an `Outcome` beside the state the code has reached when it throws.

## Model

| member | source | states |
|---|---|---|
| Catalog.ListMetadata | src/utils/data.ts:92-98 | Fails with the unknown-type ReferenceError exactly when the section is missing. Otherwise it lists each stored id once and nothing else. |
| Catalog.HasMetadata | src/utils/data.ts:100-107 | Fails exactly when the section is missing. Otherwise it is true iff the stored value is a non-null object. |
| Catalog.GetMetadata | src/utils/data.ts:109-122 | Fails exactly when hasMetadata does. It is null exactly when hasMetadata is false. A result always carries `key == id` and the requested kind. |
| Catalog.NodeDefaults | src/utils/data.ts:64-76 | Each field of a node record is the stored one when present, or the default when absent (radius 30, buildtime 1, not manual, category "basic", empty maps and recipe list). |
| Catalog.RecipeDefaults | src/utils/data.ts:77-84 | A recipe field is the stored one when present. Otherwise the default applies: speed 0, empty ingredients and resources, an empty standard result. |
| Catalog.ResourceDefaults | src/utils/data.ts:85-89 | A resource's colour is the stored one when present, black otherwise. |
| Catalog.NodeInfo | src/Engine.ts:214-215 | The node definition exists iff the stored value is a non-null object, and it carries its own id as key. |
| Catalog.RecipeInfo | src/Node.ts:98-99 | The recipe definition exists iff the stored value is a non-null object, and it carries its own id as key. |
| Catalog.RecipeBook | src/Node.ts:98-99 | The resolved book holds exactly the ids with a recipe definition, each with that definition. |
| Catalog.NodeKinds | src/Node.ts:104-107 | The resolved node types are exactly the ids the constructor accepts, each with its definition. |
| Chance.Running | src/Node.ts:32-33 | Same length as the weights. The first total is the first weight; each next total adds its weight; the last is the sum. |
| Chance.FirstAbove | src/Node.ts:35 | A hit is the first index whose total exceeds the threshold. A miss means no total exceeds it. |
| Chance.PickRandom | src/Node.ts:30-36 | The item at the index the scaled draw selects, or none (undefined) when no total exceeds it. |
| Chance.SliceWidth | src/Node.ts:30-36 | The draw interval item i owns has width exactly its weight. |
| Chance.PickIsSlot | src/Node.ts:30-36 | pickRandom picks item i iff the scaled draw lies in i's interval, both directions. |
| Chance.PickTotal | src/Node.ts:30-36 | A scaled draw in [0, sum of the weights), one weight per item, always picks an item. |
| JsMath.Floor | src/Node.ts:279 | The largest integer not above x. |
| JsMath.Ceil | src/Node.ts:241 | The smallest integer not below x. |
| JsMath.Round | src/Node.ts:510 | The integer within [x − 1/2, x + 1/2), so halves round up. |
| JsMath.Min | src/Node.ts:279 | One of the arguments and not above either. |
| JsMath.Max | src/Node.ts:545 | One of the arguments and not below either. |
| Seqs.Remove | src/Node.ts:342-345 | Set.delete: exactly the other elements remain, and a missing element changes nothing. |
| Seqs.RemoveInPlace | src/Node.ts:342-345 | In a duplicate-free list, Set.delete of the element at position i closes the gap, the others keeping their order. |
| Graph.AddOutputEffect | src/Node.ts:334-340 | The edge a→b is recorded at both ends exactly when a ≠ b and a is not a ghost. Each end's touched list is either kept or has the new id appended; a's inputs, b's outputs and every other node are kept; the graph stays valid (mutual, duplicate-free). |
| Graph.AddOutputIdempotent | src/Node.ts:334-340 | Adding the same output twice equals adding it once. |
| Graph.AddInputEffect | src/Node.ts:362-368 | The edge b→a is recorded at both ends unless a = b (ghosts are not refused). Each end's touched list is either kept or has the new id appended; a's outputs, b's inputs and every other node are kept; the graph stays valid. |
| Graph.AddInputIdempotent | src/Node.ts:362-368 | Adding the same input twice equals adding it once. |
| Graph.RemoveOutputEffect | src/Node.ts:342-345 | Both directions of a→b are gone: a's outputs lose b and b's inputs lose a, other entries keeping their order (Seqs.RemoveInPlace). a's inputs, b's outputs and every other node are kept, and the graph stays valid. |
| Graph.RemoveInputEffect | src/Node.ts:370-373 | Both directions of b→a are gone: a's inputs lose b and b's outputs lose a, other entries keeping their order (Seqs.RemoveInPlace). a's outputs, b's inputs and every other node are kept, and the graph stays valid. |
| Graph.ToggleOutputFlips | src/Node.ts:347-353 | When adding is allowed, toggleOutput flips whether a→b is an edge and keeps the graph valid. |
| Graph.ToggleInputFlips | src/Node.ts:375-381 | For distinct ends toggleInput flips whether b→a is an edge and keeps the graph valid. |
| Graph.ClearOther | src/Node.ts:317-325 | Every other node loses the cleared node from its lists, and nothing else. |
| Graph.ClearEffect | src/Node.ts:317-325 | After clearConnections both lists of the node are empty and no node lists it. Every other edge is kept and the graph stays valid. |
| Graph.ClearSequential | src/Node.ts:317-325 | Removing every output in turn, then every input in turn, is exactly the clear. |
| Graph.RemoveOutputsEffect | src/Node.ts:318-320 | The output loop empties the node's outputs and drops it from the inputs of exactly those nodes. |
| Graph.RemoveInputsEffect | src/Node.ts:322-324 | The input loop empties the node's inputs and drops it from the outputs of exactly those nodes. |
| Graph.DropUnreferenced | src/Engine.ts:92 | Dropping a node nobody lists keeps the graph valid. |
| Graph.DeleteEffect | src/Engine.ts:90-92 | After the delete-key sequence the node is gone, no survivor lists it, and the graph stays valid. |
| Ledger.Pull | src/Node.ts:273-285 | An untracked key gives 0 and changes nothing. Otherwise the result is floor(min(held, request)). It is debited from the key unless simulating, and no other entry changes. |
| Ledger.PullNonNegative | src/Node.ts:273-285 | A non-negative request from a non-negative amount takes a whole, non-negative amount no larger than what is held, and never leaves a negative amount. |
| Ledger.Maxima | src/Node.ts:448-451 | The merged capacities: the union of keys, with the recipe's value overriding the base value. |
| Ledger.Recompute | src/Node.ts:453-467 | Exactly the capacity keys remain, each with its new maximum. A kept amount is clamped to min(amount, maximum); a new key starts at 0. |
| Ledger.RecomputeIdempotent | src/Node.ts:446-468 | Recomputing twice with the same capacities equals recomputing once. |
| Ledger.RecomputeInBounds | src/Node.ts:446-468 | Against non-negative maxima, a non-negative ledger ends with every amount in [0, maximum]. |
| Ledger.Amounts | src/Node.ts:394-396 | The saved map has the ledger's keys, each with its amount. |
| Ledger.SetAmounts | src/Node.ts:412-414 | Tracked keys take the saved amount. Untracked saved keys are ignored, and maxima and keys are kept. |
| Ledger.RestoreAmounts | src/Node.ts:385-419 | Loading a ledger's saved amounts into a fresh recompute of the same capacities gives back that ledger. |
| Ledger.SnapExact | src/Node.ts:510 | round((held − cost)/cost)·cost equals held − cost iff held/cost is a whole number. |
| Ledger.SnapBounds | src/Node.ts:509-512 | For held ≥ cost > 0 the snapped leftover is non-negative and within cost/2 of held − cost. |
| Ledger.Debit | src/Node.ts:509-512 | Keys and maxima are kept, and non-ingredient entries are unchanged. |
| Ledger.Credit | src/Node.ts:526-528 | Every tracked key gains its result (zero when there is none). Untracked results are ignored; keys and maxima are kept. |
| Ledger.CreditInBounds | src/Node.ts:489-528 | Crediting results the ledger has room for (as recipeReady checks) keeps every amount within [0, maximum]. |
| Ledger.SetOne | src/Node.ts:300-305 | Writing one tracked amount in place is setResourceAmount of that key. |
| NodeRules.Refresh | src/Node.ts:446-468 | updateResources keeps recipe and progress and shapes the ledger by the current capacities. |
| NodeRules.SetRecipe | src/Node.ts:426-439 | The error cases, both directions: a refusal happens iff a non-null name other than "ghost" is given to a ghost (GhostRecipe) or is not listed by the type (InvalidRecipe). Otherwise the name is set, progress is cleared, amounts are clamped or 0 and the node is consistent. |
| NodeRules.SetGhost | src/Node.ts:117-123 | Selects "ghost", or the type's only recipe, or none; clears progress; every amount is 0 and the node is consistent. |
| NodeRules.SetGhostForgets | src/Node.ts:117-123 | The result does not depend on the previous state at all. |
| NodeRules.SetGhostState | src/Node.ts:117-123 | The node is a ghost afterwards iff ghost was asked, or the type's only recipe is named "ghost". |
| NodeRules.Finish | src/Node.ts:518-532 | On reaching the speed the node goes idle. It reports a build iff it was a ghost; a non-ghost keeps its recipe and ledger keys. |
| NodeRules.InvalidIsInert | src/Node.ts:499-500 | Without a valid recipe processRecipe changes nothing. |
| NodeRules.ManualWaits | src/Node.ts:503 | An idle, built manual node never auto-starts. |
| NodeRules.UnreadyWaits | src/Node.ts:503-506 | An idle node that is not ready stays as it is. |
| NodeRules.StartRequiresReady | src/Node.ts:503-513 | Leaving idle by a tick requires readiness and auto-start. The tick is then the start followed by the progress step. |
| NodeRules.ProcessRunning | src/Node.ts:503-515 | A running node does not start again: the tick is the progress step alone. |
| NodeRules.RunningCounts | src/Node.ts:515-532 | Below the speed, progress goes up by exactly 1 with nothing else changed; on reaching the speed it goes back to null. |
| NodeRules.AdvanceCounts | src/Node.ts:515-532 | The same for the progress step of any recipe. |
| NodeRules.StalledStays | src/Node.ts:515 | A counter at or past the speed never moves again. |
| NodeRules.Completion | src/Node.ts:518-532 | On completion a ghost becomes setGhost(false) and reports a build; a standard recipe credits its results. Either way the node goes idle. |
| NodeRules.PokeEffect | src/Node.ts:254-260 | poke changes the node iff it is ready and idle, and then only the counter. |
| NodeRules.StartSnap | src/Node.ts:509-512 | On start each ingredient becomes the snapped leftover. That leftover is exactly held − cost iff held is a multiple of cost, and it lies in [0, held]. |
| NodeRules.ProcessConsistent | src/Node.ts:499-534 | processRecipe keeps an allowed recipe name and a ledger shaped by the capacities. |
| NodeRules.StartConsistent | src/Node.ts:508-512 | Starting keeps the node consistent. |
| NodeRules.AdvanceConsistent | src/Node.ts:515-533 | The progress step, including a build or a credit, keeps the node consistent. |
| NodeRules.PokeConsistent | src/Node.ts:254-260 | poke keeps the node consistent. |
| NodeRules.Demand | src/Node.ts:536-549 | Demand names tracked keys only. |
| NodeRules.DemandNonNegative | src/Node.ts:536-549 | Every demanded amount is at least 0. |
| NodeRules.DemandIsHeadroom | src/Node.ts:537-540 | A ghost, or a node without a valid recipe, demands every tracked key, exactly its headroom. |
| NodeRules.DemandTwoBatches | src/Node.ts:541-547 | A running recipe demands exactly its tracked ingredients. Each demand is at most the maximum, and it reaches two batches unless the maximum caps it. |
| NodeRules.DemandCanExceedHeadroom | src/Node.ts:545 | A concrete node whose demand exceeds its headroom: the demand is not capped by maximum − amount. |
| NodeRules.Tracking | src/Node.ts:236-238 | The inputs that track the key, and only those. The no-op sort keeps them in insertion order. |
| NodeRules.TrackingDistinct | src/Node.ts:236-238 | The filtered list of a duplicate-free input list is duplicate-free. |
| NodeRules.Share | src/Node.ts:241 | ceil(remaining / inputs left) is a whole number in [0, ceil(remaining)]. |
| NodeRules.Transfer | src/Node.ts:241-246 | The input loses what it gives and the receiver gains it when positive. Every other ledger and every other key is unchanged. |
| NodeRules.TransferStep | src/Node.ts:241-246 | One iteration moves a whole, non-negative amount, no more than the request and no more than the input holds. |
| NodeRules.Drain | src/Node.ts:240-250 | The inner loop keeps every ledger's keys. |
| NodeRules.DrainTurn | src/Node.ts:240-250 | One turn: after the first input gives, either nothing remains and the loop stops, or the rest of the loop is the same loop over the remaining inputs. |
| NodeRules.DrainFrame | src/Node.ts:240-250 | The loop touches only the receiver, the listed inputs and the pulled key. |
| NodeRules.DrainConserves | src/Node.ts:240-250 | The receiver gains exactly what the inputs lose. No input goes below 0, and the gain lies in [0, ceil(demand)]. |
| NodeRules.DrainByKey | src/Node.ts:240-250 | The loop reads nothing but the key it moves. |
| NodeRules.DrainMaxima | src/Node.ts:240-250 | The loop changes amounts only: keys and maxima are kept everywhere. |
| NodeRules.DrainKey | src/Node.ts:233-251 | The loop for one demanded key keeps every ledger's keys. |
| NodeRules.PullSome | src/Node.ts:233-251 | The state after any set of key loops keeps every ledger's keys. |
| NodeRules.PullStep | src/Node.ts:233-251 | Running one more key's loop gives the state for the larger set, so the order of the keys never matters. |
| NodeRules.PullAll | src/Node.ts:231-252 | pullResources keeps every ledger's keys. |
| NodeRules.PullAllConserves | src/Node.ts:231-252 | For each demanded key the receiver gains exactly what its inputs lose. No input goes below 0, and the gain is at most ceil(demand). |
| NodeRules.PullAllShape | src/Node.ts:231-252 | The pull changes amounts only. |
| NodeRules.TickPull | src/Node.ts:222-226 | A ghost whose progress is set does not pull; the pull keeps every ledger. |
| NodeRules.TickPullShape | src/Node.ts:222-226 | Tick's pull keeps every key and maximum, and the puller stays consistent. |
| NodeRules.ToJson | src/Node.ts:385-403 | The save carries the recipe, the outputs, exactly the ledger's amounts, and the progress. |
| NodeRules.LoadRest | src/Node.ts:408-418 | Fails iff setRecipe refuses the saved recipe. Otherwise the saved recipe and progress are installed. |
| NodeRules.LoadJson | src/Node.ts:405-419 | Fails iff the saved recipe is one setRecipe refuses after setGhost. Otherwise the node holds the saved recipe and progress and is consistent. |
| NodeRules.SaveRoundTrip | src/Node.ts:385-419 | Loading what toJson saved gives back the node's state (recipe, amounts, progress) from any starting state. |
| Nodes.Node.constructor | src/Node.ts:104-110 | A node of the given type and uuid, at the origin, with no connections: the state of setGhost(true), valid and a ghost. |
| Nodes.Node.HasOutput | src/Node.ts:327-332 | True iff the node's uuid is among the outputs. |
| Nodes.Node.HasInput | src/Node.ts:355-360 | True iff the node's uuid is among the inputs. |
| Nodes.Node.AddOutput | src/Node.ts:334-340 | The world's graph becomes Graph.AddOutput of it (see Graph.AddOutputEffect). |
| Nodes.Node.AddInput | src/Node.ts:362-368 | The world's graph becomes Graph.AddInput of it. |
| Nodes.Node.RemoveOutput | src/Node.ts:342-345 | The world's graph becomes Graph.RemoveOutput of it. |
| Nodes.Node.RemoveInput | src/Node.ts:370-373 | The world's graph becomes Graph.RemoveInput of it. |
| Nodes.Node.ToggleOutput | src/Node.ts:347-353 | The world's graph becomes Graph.ToggleOutput of it. |
| Nodes.Node.ToggleInput | src/Node.ts:375-381 | The world's graph becomes Graph.ToggleInput of it. |
| Nodes.Node.ClearConnections | src/Node.ts:317-325 | The world's graph becomes Graph.Clear of it (see Graph.ClearEffect). |
| Nodes.Node.RemoveAllOutputs | src/Node.ts:318-320 | The output loop empties the outputs and keeps the graph valid. |
| Nodes.Node.RemoveAllInputs | src/Node.ts:322-324 | The input loop empties the inputs and keeps the graph valid. |
| Nodes.Node.UpdateResources | src/Node.ts:446-468 | The ledger becomes the recompute against the current capacities (see Ledger.Recompute). |
| Nodes.Node.SetCapacities | src/Node.ts:453-461 | The first loop sets or clamps every capacity key. |
| Nodes.Node.DropUncapped | src/Node.ts:463-467 | The second loop keeps exactly the entries with a capacity. |
| Nodes.Node.SetRecipe | src/Node.ts:426-439 | It fails exactly as NodeRules.SetRecipe does, with the same error and the state unchanged. Otherwise the state is its result. |
| Nodes.Node.SetGhost | src/Node.ts:117-123 | The graph loses the node's connections and the state becomes NodeRules.SetGhost. |
| Nodes.Node.ResetRecipe | src/Node.ts:119-122 | The state after the clear becomes NodeRules.SetGhost. |
| Nodes.Node.Move | src/Node.ts:262-265 | The position is the given one. |
| Nodes.Node.GetResource | src/Node.ts:287-290 | The entry of a tracked key, or null iff untracked. |
| Nodes.Node.GetResourceAmount | src/Node.ts:307-314 | The amount of a tracked key. An untracked key reads 0, or null when strict. |
| Nodes.Node.SetResource | src/Node.ts:292-297 | The key is tracked with the given amount and maximum; every other entry is kept. |
| Nodes.Node.SetResourceAmount | src/Node.ts:300-305 | A tracked key takes the value; an untracked key changes nothing. |
| Nodes.Node.PullResource | src/Node.ts:273-285 | Returns and debits exactly as Ledger.Pull. |
| Nodes.Node.DebitIngredients | src/Node.ts:509-512 | The ingredient loop produces Ledger.Debit. |
| Nodes.Node.CreditResults | src/Node.ts:526-528 | The result loop produces Ledger.Credit. |
| Nodes.Node.LoadAmounts | src/Node.ts:412-414 | The saved-amount loop produces Ledger.SetAmounts. |
| Nodes.Node.LoadJson | src/Node.ts:405-419 | The node takes the saved position and its graph is cleared. It fails exactly as NodeRules.LoadJson does, holding the state reached before the throw; otherwise it holds the loaded state. It stays valid. |
| Nodes.Node.FinishLoad | src/Node.ts:408-418 | The part of loadJson after setGhost, as NodeRules.LoadJson. |
| Nodes.Node.LoadRecipe | src/Node.ts:408-418 | As NodeRules.LoadRest, with the state unchanged on a refusal. |
| Nodes.Node.ProcessRecipe | src/Node.ts:499-534 | The state becomes NodeRules.Process's. A build clears the connections; otherwise the graph is unchanged. No other ledger changes and the node stays valid. |
| Nodes.Node.Run | src/Node.ts:499-534 | The body of processRecipe, as NodeRules.Process. |
| Nodes.Node.StartIfIdle | src/Node.ts:503-506 | Reports whether processRecipe goes on; an idle node that auto-starts and is ready is started. |
| Nodes.Node.StartRecipe | src/Node.ts:508-512 | The state becomes NodeRules.Start (progress 0, every ingredient snapped). |
| Nodes.Node.AdvanceRecipe | src/Node.ts:515-533 | The progress half, as NodeRules.Advance, with the graph cleared on a build. |
| Nodes.Node.Complete | src/Node.ts:518-532 | Completion, as NodeRules.Finish. |
| Nodes.Node.Poke | src/Node.ts:254-260 | The state becomes NodeRules.Poke (see NodeRules.PokeEffect). |
| Nodes.Node.Tick | src/Node.ts:222-229 | Every ledger becomes tick's pull followed by processRecipe's result. The graph is cleared on a build and the node stays valid. |
| Nodes.Node.TickPull | src/Node.ts:224-226 | The ledgers become NodeRules.TickPull; the graph and the recipe state are kept. |
| Nodes.Node.PullUnlessBuilding | src/Node.ts:224-226 | Pulls only unless a ghost is being built, as NodeRules.TickPull. |
| Nodes.Node.PullFrom | src/Node.ts:241-246 | One iteration: the ledgers become NodeRules.Transfer, and it returns what the input gave. |
| Nodes.Node.PullTurn | src/Node.ts:240-250 | One turn of the inner loop; the loop over the remaining inputs still reaches NodeRules.Drain. |
| Nodes.Node.PullKey | src/Node.ts:233-251 | The inner loop for one key reaches NodeRules.Drain over the tracking inputs. |
| Nodes.Node.PullResources | src/Node.ts:231-252 | The ledgers become NodeRules.PullAll of the node's demand. |
| Machines.Machine.constructor | src/Machine.ts:93-99 | A machine of the given type and uuid, at the origin, unconnected: the state of setGhost(true), valid and a ghost. |
| Machines.Machine.HasOutput | src/Machine.ts:298-303 | True iff the machine's uuid is among the outputs. |
| Machines.Machine.HasInput | src/Machine.ts:326-331 | True iff the machine's uuid is among the inputs. |
| Machines.Machine.AddOutput | src/Machine.ts:305-311 | The graph becomes Graph.AddOutput of it: self-edges and ghost sources are refused, and the edge is inserted at both ends. |
| Machines.Machine.AddInput | src/Machine.ts:333-339 | The graph becomes Graph.AddInput of it. |
| Machines.Machine.RemoveOutput | src/Machine.ts:313-316 | The graph becomes Graph.RemoveOutput of it (both sides deleted). |
| Machines.Machine.RemoveInput | src/Machine.ts:341-344 | The graph becomes Graph.RemoveInput of it (both sides deleted). |
| Machines.Machine.ToggleOutput | src/Machine.ts:318-324 | The graph becomes Graph.ToggleOutput of it. |
| Machines.Machine.ToggleInput | src/Machine.ts:346-352 | The graph becomes Graph.ToggleInput of it. |
| Machines.Machine.ClearConnections | src/Machine.ts:288-296 | The graph becomes Graph.Clear of it: both lists are empty. |
| Machines.Machine.RemoveAllOutputs | src/Machine.ts:289-291 | The output loop empties the outputs and keeps the graph valid. |
| Machines.Machine.RemoveAllInputs | src/Machine.ts:293-295 | The input loop empties the inputs and keeps the graph valid. |
| Machines.Machine.UpdateResources | src/Machine.ts:414-436 | The ledger becomes the recompute against the current capacities. |
| Machines.Machine.SetCapacities | src/Machine.ts:421-429 | The first loop sets or clamps every capacity key. |
| Machines.Machine.DropUncapped | src/Machine.ts:431-435 | The second loop keeps exactly the entries with a capacity. |
| Machines.Machine.SetRecipe | src/Machine.ts:397-407 | It fails exactly as MachineRules.SetRecipe does, with the state unchanged. Otherwise the state is its result. |
| Machines.Machine.SetGhost | src/Machine.ts:106-114 | The graph loses the machine's connections and the state becomes MachineRules.SetGhost. |
| Machines.Machine.ResetLedger | src/Machine.ts:112-113 | The ledger is emptied and recomputed. |
| Machines.Machine.Move | src/Machine.ts:261-264 | The position is the given one. |
| Machines.Machine.PullResource | src/Machine.ts:272-285 | Returns and debits exactly as Ledger.Pull: 0 for an unknown key, otherwise floor(min(held, request)), debited unless simulating. |
| Machines.Machine.DebitIngredients | src/Machine.ts:477-481 | The ingredient loop, every ingredient tracked, produces Ledger.Debit. |
| Machines.Machine.CreditResults | src/Machine.ts:495-497 | The result loop, every result tracked, produces Ledger.Credit. |
| Machines.Machine.LoadAmounts | src/Machine.ts:383-385 | Passes iff every saved key is tracked, and then produces Ledger.SetAmounts. Otherwise it fails on an untracked saved key, with part of the amounts written. |
| Machines.Machine.LoadJson | src/Machine.ts:376-390 | The machine takes the saved position and its graph is cleared. It fails on a refused recipe or an untracked saved key, holding the state reached at the throw (on an untracked key: the saved recipe, no progress, and the saved amounts of the keys written before the throw); otherwise it holds MachineRules.LoadJson's state. |
| Machines.Machine.FinishLoad | src/Machine.ts:379-389 | The part of loadJson after setGhost, with the same outcomes. |
| Machines.Machine.ProcessRecipe | src/Machine.ts:467-503 | The state becomes MachineRules.Process's. A build clears the connections; no other ledger changes and the machine stays valid. |
| Machines.Machine.Run | src/Machine.ts:467-503 | The body of processRecipe, as MachineRules.Process. |
| Machines.Machine.StartIfIdle | src/Machine.ts:471-474 | Reports whether processRecipe goes on; a ready, idle, auto-starting machine is started. |
| Machines.Machine.StartRecipe | src/Machine.ts:476-481 | Progress 0 and every ingredient debited, then snapped. |
| Machines.Machine.AdvanceRecipe | src/Machine.ts:484-502 | The progress half, as MachineRules.Advance. |
| Machines.Machine.Complete | src/Machine.ts:487-500 | Completion, as MachineRules.Finish. |
| Machines.Machine.Poke | src/Machine.ts:253-259 | As NodeRules.Poke: only a ready, idle machine starts its counter. |
| Machines.Machine.Tick | src/Machine.ts:206-213 | Every ledger becomes MachineRules.TickPull followed by processRecipe's result. The graph is cleared on a build, and the machine stays valid. |
| Machines.Machine.TickPull | src/Machine.ts:208-210 | The ledgers become MachineRules.TickPull. |
| Machines.Machine.PullUnlessBuilding | src/Machine.ts:208-210 | A ghost that is being built does not pull. |
| Machines.Machine.PullFrom | src/Machine.ts:224-228 | One request: the ledgers become NodeRules.Transfer, and it returns what the input gave. |
| Machines.Machine.DrainTurn | src/Machine.ts:220-233 | One turn of the drain loop, toward MachineRules.Drain. |
| Machines.Machine.DrainKey | src/Machine.ts:217-234 | The drain loop for one key reaches MachineRules.Drain. |
| Machines.Machine.BalanceTurn | src/Machine.ts:239-249 | One turn of the balance loop, toward MachineRules.Balance. |
| Machines.Machine.BalanceKey | src/Machine.ts:237-250 | The balance loop for one key reaches MachineRules.Balance. |
| Machines.Machine.DrainPass | src/Machine.ts:217-234 | The drain pass over every demanded key reaches the drain pass of MachineRules.Pull. |
| Machines.Machine.BalancePass | src/Machine.ts:236-250 | The balance pass over the demanded keys reaches MachineRules.PassSome. |
| Machines.Machine.PullResources | src/Machine.ts:215-251 | The ledgers become MachineRules.Pull: the drain pass, then the balance pass. |
| MachineRules.TrackedKeys | src/Machine.ts:451-460 | Under the tracking assumption, every ingredient and result of the current recipe is tracked, so no lookup throws. |
| MachineRules.SetRecipe | src/Machine.ts:397-407 | Fails, both directions, iff a ghost is given any non-null name (GhostRecipe) or the type does not list the name (InvalidRecipe). Otherwise the name is set and the progress is kept, not reset. |
| MachineRules.SetRecipeDiffers | src/Machine.ts:397-407 | Against Node: a ghost machine refuses "ghost", which a node accepts. A machine's accepted result is the node's with the progress kept. |
| MachineRules.SetGhost | src/Machine.ts:106-114 | The name is "ghost" or null, progress is null, every amount is 0 and the machine is consistent. |
| MachineRules.SetGhostState | src/Machine.ts:106-114 | It is a ghost afterwards iff asked. A ghost tracks exactly its build costs; a built machine has no valid recipe unless a recipe is named "null". |
| MachineRules.Finish | src/Machine.ts:487-500 | On reaching the speed the machine goes idle, and it reports a build iff it was a ghost. |
| MachineRules.Waits | src/Machine.ts:467-474 | Without a valid recipe, or idle and built manual, or idle and not ready, nothing changes. |
| MachineRules.StartRequiresReady | src/Machine.ts:471-482 | Leaving idle requires readiness and auto-start; the tick is then the start followed by the progress step. |
| MachineRules.StartDebits | src/Machine.ts:476-481 | Each ingredient is tracked and becomes round((held − cost)/cost)·cost. That is exactly held − cost iff held is a multiple of cost, and it lies in [0, held]. |
| MachineRules.RunningCounts | src/Machine.ts:484-501 | Below the speed, progress goes up by exactly 1; on reaching the speed it goes back to null. |
| MachineRules.StalledStays | src/Machine.ts:484 | A counter at or past the speed never moves. |
| MachineRules.Completion | src/Machine.ts:487-500 | A ghost becomes setGhost(false), with no recipe. Any other machine credits every result, all of them tracked. Either way it goes idle. |
| MachineRules.ProcessConsistent | src/Machine.ts:467-503 | processRecipe keeps the machine consistent. |
| MachineRules.AdvanceConsistent | src/Machine.ts:484-502 | The progress step keeps the machine consistent. |
| MachineRules.LoadRecipe | src/Machine.ts:376-381 | Fails iff the saved recipe is neither "ghost", null nor listed (InvalidRecipe). Otherwise the saved recipe is selected, idle and consistent. |
| MachineRules.Untracked | src/Machine.ts:383-385 | Exactly the saved keys the ledger does not track, which make loadJson throw. |
| MachineRules.LoadJson | src/Machine.ts:376-390 | Fails iff LoadRecipe does. Otherwise it gives the saved recipe and progress and each saved amount of a tracked key. |
| MachineRules.SaveRoundTrip | src/Machine.ts:356-390 | Loading what toJson saved never throws and gives back the machine's state from any starting state. |
| MachineRules.Drain | src/Machine.ts:217-234 | The drain loop keeps every ledger's keys. |
| MachineRules.DrainSkip | src/Machine.ts:221-222 | A mutual input that tracks the key is skipped when the recipe is invalid. |
| MachineRules.DrainTake | src/Machine.ts:224-232 | An input that is asked is asked for the whole remaining demand: either nothing remains and the loop stops, or the other inputs continue it. |
| MachineRules.DrainConserves | src/Machine.ts:217-234 | The machine gains exactly what its inputs lose. No input goes below 0; the gain lies in [0, demand] and the maximum is kept. |
| MachineRules.Even | src/Machine.ts:240-247 | A balance step keeps every ledger's keys. |
| MachineRules.EvenStep | src/Machine.ts:240-247 | The machine gains exactly what the richer neighbour loses and never passes its maximum. It ends no richer than that neighbour, and no one else changes. |
| MachineRules.Balance | src/Machine.ts:237-250 | The balance loop keeps every ledger's keys. |
| MachineRules.BalanceTurn | src/Machine.ts:239-249 | One turn: the step against the first input, then the rest of the loop. |
| MachineRules.BalanceInert | src/Machine.ts:240 | With a valid recipe the balance pass changes nothing. |
| MachineRules.BalanceConserves | src/Machine.ts:236-250 | Across the balance loop the machine gains exactly what its inputs lose. No input goes below 0, and the machine stays within its maximum. |
| MachineRules.KeyPass | src/Machine.ts:215-250 | One pass's loop for one key keeps every ledger's keys. |
| MachineRules.PassSome | src/Machine.ts:215-250 | A pass over any set of keys keeps every ledger's keys. |
| MachineRules.PassStep | src/Machine.ts:215-250 | Running one more key's loop gives the pass over the larger set, so the key order never matters. |
| MachineRules.PassMaxima | src/Machine.ts:215-250 | A pass changes amounts only. |
| MachineRules.Pull | src/Machine.ts:215-251 | Both passes keep every ledger's keys. |
| MachineRules.PullConserves | src/Machine.ts:215-251 | For each demanded key the machine gains exactly what its inputs lose, and no input goes below 0. When the demand fits the headroom the machine stays within its maximum. |
| MachineRules.DemandKeys | src/Machine.ts:505-516 | The demanded keys depend only on the recipe and the tracked keys, not on the amounts (so the balance pass visits the same keys). |
| MachineRules.TickPull | src/Machine.ts:206-210 | A ghost being built does not pull. |
| MachineRules.TickPullMoves | src/Machine.ts:206-251 | Tick's pull conserves every tracked key and never takes an input below 0. A ghost, or a machine without a valid recipe, stays within its maximum. |
| MachineRules.TickPullShape | src/Machine.ts:206-251 | Tick's pull keeps every key and maximum, and the machine stays consistent. |
| EngineRules.TickNode | src/Node.ts:222-229 | node.tick() on the network keeps the node and graph key sets. |
| EngineRules.TickNodeCoherent | src/Node.ts:222-229 | One node's tick keeps the network coherent: every node consistent and the graph valid. |
| EngineRules.TickAll | src/Engine.ts:238-240 | Ticking every node in map order keeps the node set. |
| EngineRules.TickAllCoherent | src/Engine.ts:238-240 | Ticking every node keeps the network coherent. |
| EngineRules.Revealed | src/Engine.ts:242-249 | Exactly the keys some node holds a positive amount of, both directions. |
| EngineRules.DeleteCoherent | src/Engine.ts:90-92 | Deleting a node leaves a coherent network of exactly the other nodes, their states unchanged, with none of them listing the deleted node. |
| EngineRules.Make | src/Engine.ts:445-447 | A node is made iff its saved type is known, and its state is consistent. |
| EngineRules.MakeLoads | src/Engine.ts:445-447 | The entry's result is read off the outcome of its node's loadJson. |
| EngineRules.Create | src/Engine.ts:444-448 | The first pass files only saved ids, and all of them when nothing was thrown. |
| EngineRules.CreateStops | src/Engine.ts:444-448 | An unknown type stops the first pass with InvalidNodeType, before filing. |
| EngineRules.CreateFiles | src/Engine.ts:444-448 | A known type files its node first; a refused recipe then stops the pass. |
| EngineRules.WireFrom | src/Engine.ts:452-457 | Wiring one node's saved outputs keeps the graph's node set. |
| EngineRules.Wire | src/Engine.ts:451-458 | The second pass keeps the graph's node set. |
| EngineRules.Load | src/Engine.ts:436-458 | fromJson gives nodes only for saved uuids, and all of them when nothing was thrown. |
| EngineRules.WireFromEdges | src/Engine.ts:452-457 | The saved outputs that name a node add exactly those edges from a non-ghost source, and the graph stays valid. |
| EngineRules.AddOutputEdges | src/Node.ts:334-340 | addOutput adds exactly the edge it allows. |
| EngineRules.WireEdges | src/Engine.ts:451-458 | The second pass adds exactly the saved edges that name nodes, from non-ghost sources. |
| EngineRules.CreateRestores | src/Engine.ts:444-448 | A first pass over saves of consistent nodes restores each node's state without error. |
| EngineRules.RestoreOne | src/Engine.ts:445-447 | A fresh node of the saved type loads its own save back. |
| EngineRules.Recreate | src/Engine.ts:444-448 | The first pass over a whole save of consistent nodes recreates them all. |
| EngineRules.Rewire | src/Engine.ts:451-458 | The second pass over unconnected nodes rebuilds exactly the saved edges whose source is not a ghost. |
| EngineRules.SaveRoundTrip | src/Engine.ts:436-481 | Loading a save of a coherent network returns every node state with no error. The rebuilt graph is valid, with exactly the original edges whose source is not a ghost. |
| Networks.TickOne | src/Engine.ts:239 | One node's tick on the node map is EngineRules.TickNode and keeps the network coherent. |
| Networks.TickStep | src/Node.ts:222-229 | node.tick() inside the map, and what it leaves alone in the other nodes. |
| Networks.TickEach | src/Engine.ts:238-240 | The first loop of tick is EngineRules.TickAll in map order, and it keeps the network coherent. |
| Networks.TickNet | src/Engine.ts:237-249 | tick's two loops: the network becomes TickAll, and the seen keys become the old ones plus EngineRules.Revealed. |
| Networks.RevealWorld | src/Engine.ts:242-249 | The second loop adds exactly the revealed keys and changes nothing in the network. |
| Networks.Reveal | src/Engine.ts:242-249 | The scan over every node returns the old seen set plus the revealed keys. |
| Networks.RevealNode | src/Engine.ts:243-248 | The scan over one ledger returns the old seen set plus that node's positive keys. |
| Networks.Unplug | src/Engine.ts:91 | clearConnections of the focused node leaves every state alone, and the graph becomes Graph.Clear. |
| Networks.Unplugged | src/Engine.ts:92 | Removing the cleared node from the map keeps the engine's invariant and gives EngineRules.Deleted. |
| Networks.Save | src/Engine.ts:473-478 | toJson's loop gives every node's entry, type and own save, under its uuid. |
| Networks.SaveLoads | src/Engine.ts:436-481 | fromJson of toJson's save of a network the engine keeps returns every node state and exactly the edges whose source is not a ghost. |
| Loading.MakeNode | src/Engine.ts:445-447 | An unknown type gives no node and InvalidNodeType. Otherwise it gives a fresh, unconnected node with the saved uuid, type and position, whose state and outcome are EngineRules.Make's. |
| Loading.CreateNodes | src/Engine.ts:444-448 | The first pass makes and files one node per saved uuid, in order, stopping at the first throw; its result is EngineRules.Create's. |
| Loading.FileNext | src/Engine.ts:445-447 | One step of the first pass files the new node under its uuid, unless its type is unknown. |
| Loading.WireNodes | src/Engine.ts:451-458 | The second pass wires every created node's saved outputs, as EngineRules.Wire. |
| Loading.WireOutputs | src/Engine.ts:452-457 | The inner forEach adds each saved output that names a node, as EngineRules.WireFrom. |
| Loading.WirePass | src/Engine.ts:451-458 | The second pass changes the graph only. |
| Loading.LoadSave | src/Engine.ts:436-458 | Both passes give the network of EngineRules.Load, with the saved order. The engine's invariant holds; the nodes are fresh and placed as saved. |
| Engines.Engine.constructor | src/Engine.ts:45-64 | An engine with no nodes, nothing seen, no pending node and debug off, and its invariant holding. |
| Engines.Engine.GetNode | src/Engine.ts:378-380 | The node filed under uuid, present iff the map has it. |
| Engines.Engine.CreateNode | src/Engine.ts:204-209 | With a pending node nothing changes (idempotent until placement). An unknown type fails; otherwise a fresh ghost node of that type and uuid waits, unconnected. |
| Engines.Engine.NodeUnlocked | src/Engine.ts:211-222 | True iff debug is on, or the node type is defined and every ingredient key has been seen. |
| Engines.Engine.RecipeUnlocked | src/Engine.ts:224-235 | True iff debug is on, or the recipe is defined and every ingredient key has been seen. |
| Engines.Engine.AllSeen | src/Engine.ts:216-221 | True iff every ingredient key is in the seen set. |
| Engines.Engine.DebugMode | src/Engine.ts:382-387 | Debug is on afterwards. |
| Engines.Engine.Tick | src/Engine.ts:237-254 | Every node ticks (EngineRules.TickAll in map order) before the scan. The seen set becomes the old one plus every key some node holds a positive amount of, and the invariant holds. |
| Engines.Engine.DeleteNode | src/Engine.ts:90-95 | The node leaves the map and the order, and the network becomes EngineRules.Deleted: no survivor lists it. The invariant holds. |
| Engines.Engine.FromJson | src/Engine.ts:436-463 | The seen set is replaced and the network is EngineRules.Load's, with its outcome; the nodes are fresh and placed as saved. The order is a prefix of the saved uuids, all of them on success. |
| Engines.Engine.Store | src/Engine.ts:437-442 | The node map, order and seen set are replaced; nothing inside the nodes changes. |
| Engines.Engine.ToJson | src/Engine.ts:465-481 | The save of every node in map order, with the seen resources (see Networks.SaveLoads for the round trip). |

## Left out

- **Rendering, camera and interface.** Canvas rendering, the camera and
  viewport math, `getNodeAt`, and the DOM, infobox and toolbox updates are
  presentation, so they are not modelled. The same goes for the keyboard
  and mouse wiring of the Engine constructor. Of the key handler, only the
  delete sequence and `debugMode` are modelled.
- **Konami detection and debug keys.** The Konami-code detection and the
  debug F/E keys, which fill or empty the hovered node's ledger, are input
  handling. They are not modelled.
- **Random draws and ids.** `Math.random` and `uuidv4` are
  non-deterministic. The draw and the uuid are parameters.
- **Engines.Engine.CreateNode:** the pending node stays at the origin. The
  source moves it to (Infinity, Infinity) only to hide it until the mouse
  places it, and placing it by a click is mouse handling.
- **Engines.Engine.DeleteNode:** the focused node is given by its id.
  Clearing `focusNode` and refreshing the infobox are not modelled.
- **Engines.Engine.FromJson:**
  - The camera is not restored.
  - The node map is assigned when both passes end. The source clears it
    first instead, and the map is the same once fromJson returns.
  - In the first pass, each node's loadJson is given a map holding that
    node alone. Its clearConnections visits only the node's own
    connections, and a node just made has none.
- **Engines.Engine.FromJson:** requires the save to list each uuid once, in
  `Object.entries` order, which a JSON object guarantees. JavaScript's
  ordering of integer-like keys first is not modelled.
- **Engines.Engine.ToJson:** the camera is not saved. `seenResources` is a
  set, not an array, so the order of the saved list is not modelled.
- **Catalog.Usable:** the engine assumes that all three data-file sections
  are present and that every ingredient and build cost is positive. A
  cost of 0 makes the start snap divide by zero, and the source would
  store NaN.
- **Library is resolved once:** the node definitions and the recipe book
  are read from the data file when a node or the engine is made. The data
  file never changes, so later lookups give the same values.
- **Unknown types in the constructors:** `new Node(type)` and
  `new Machine(type)` require a known type. The throw for an unknown type
  is modelled where the engine makes nodes: `CreateNode` and fromJson.
- **Chance recipes:** chance recipes never run. `recipeValid` is false for
  them, so processRecipe's chance branch is unreachable. `pickRandom` and
  `isChanceRecipe` are modelled on their own (Chance.PickRandom).
- **MachineRules.Tracks:** in Machine the ledger entry of every
  ingredient, result and saved key is read with `resources.get(name)`,
  which throws a TypeError on an untracked key.
  - The model requires every recipe of a machine's type to read only keys
    the machine tracks.
  - For loadJson the throw is modelled as `UntrackedResource`.
- **Setting `setResource`'s default maximum:** `Infinity` has no real
  value. Callers pass the maximum.
- **Machine.equals and Node.equals:** not used by the core, so they are
  not modelled.
- **Two points where the naive reading differs from the code:**
  - The node pull sorts the tracking inputs with a comparator that
    compares an element with itself, so the order is insertion order. The
    model uses insertion order.
  - For a running recipe the demand is min(ceil(2·cost − held), maximum).
    That can exceed the headroom, and NodeRules.DemandCanExceedHeadroom
    exhibits a node in this state. The model keeps the code's behaviour.
- **Saves without amounts:** a save always carries its amount map. The
  save type declares `resources` optional (src/Machine.ts:17), and
  `Object.entries` of an absent map throws a TypeError in loadJson. Only a
  save not written by toJson can lack it, since toJson always writes that
  map.
- **Lost edges in a save and load:** EngineRules.SaveRoundTrip shows that
  toJson then fromJson keeps only the edges whose source is not a ghost.
  A ghost can gain outputs through `addInput`, but fromJson wires only
  with `addOutput`, which refuses ghost sources.
