/** The per-node resource ledger: resource key -> (amount, maximum), and the
    operations on it that src/Node.ts and src/Machine.ts share. */
module Ledger {
  import opened JsMath
  import opened Catalog

  datatype Resource = Resource(amount: real, maximum: real)

  type Stock = map<string, Resource>

  datatype Pulled = Pulled(stock: Stock, amount: real)

  /** pullResource(name, request, simulate): nothing for an untracked key;
      otherwise floor(min(held, request)), debited unless simulating. */
  function Pull(s: Stock, name: string, request: real, simulate: bool): (r: Pulled)
    ensures name !in s ==> r.amount == 0.0 && r.stock == s
    ensures name in s ==>
      && IsInt(r.amount)
      && r.amount <= s[name].amount && r.amount <= request
      && r.amount > Min(s[name].amount, request) - 1.0
    ensures r.stock.Keys == s.Keys
    ensures forall k | k in s && k != name :: r.stock[k] == s[k]
    ensures name in s ==> r.stock[name].maximum == s[name].maximum
    ensures name in s && !simulate ==> r.stock[name].amount + r.amount == s[name].amount
    ensures simulate ==> r.stock == s
  {
    if name !in s then Pulled(s, 0.0)
    else
      var available := Floor(Min(s[name].amount, request)) as real;
      if simulate then Pulled(s, available)
      else Pulled(s[name := s[name].(amount := s[name].amount - available)], available)
  }

  /** A pull with a non-negative request from a non-negative amount takes a
      non-negative whole amount and leaves a non-negative amount behind. */
  lemma PullNonNegative(s: Stock, name: string, request: real, simulate: bool)
    requires name in s && s[name].amount >= 0.0 && request >= 0.0
    ensures var r := Pull(s, name, request, simulate);
      0.0 <= r.amount && r.stock[name].amount >= 0.0
  {
  }

  /** The capacities a ledger must track: the base map overridden by the
      recipe's map (`{...base, ...recipe.resources}`). */
  function Maxima(base: ResourceMap, over: ResourceMap): (m: ResourceMap)
    ensures m.Keys == base.Keys + over.Keys
    ensures forall k | k in over :: m[k] == over[k]
    ensures forall k | k in base && k !in over :: m[k] == base[k]
  {
    base + over
  }

  /** updateResources on a ledger: exactly the keys of m, each with maximum
      m[k]; a kept amount is clamped to the new maximum, a new key starts at 0. */
  function Recompute(s: Stock, m: ResourceMap): (r: Stock)
    ensures r.Keys == m.Keys
    ensures forall k | k in r :: r[k].maximum == m[k]
    ensures forall k | k in r && k in s :: r[k].amount == Min(s[k].amount, m[k])
    ensures forall k | k in r && k !in s :: r[k].amount == 0.0
  {
    map k | k in m :: if k in s then Resource(Min(s[k].amount, m[k]), m[k]) else Resource(0.0, m[k])
  }

  /** Recomputing twice with the same capacities changes nothing more. */
  lemma RecomputeIdempotent(s: Stock, m: ResourceMap)
    requires forall k | k in m :: m[k] >= 0.0
    ensures Recompute(Recompute(s, m), m) == Recompute(s, m)
  {
    var r := Recompute(s, m);
    var rr := Recompute(r, m);
    assert rr.Keys == r.Keys;
    forall k | k in r ensures rr[k] == r[k] {
      assert rr[k].amount == Min(r[k].amount, m[k]);
    }
  }

  predicate InBounds(s: Stock) {
    forall k | k in s :: 0.0 <= s[k].amount <= s[k].maximum
  }

  /** After a recompute against non-negative capacities every amount of a
      previously non-negative ledger lies within [0, maximum]. */
  lemma RecomputeInBounds(s: Stock, m: ResourceMap)
    requires forall k | k in s :: s[k].amount >= 0.0
    requires forall k | k in m :: m[k] >= 0.0
    ensures InBounds(Recompute(s, m))
  {
  }

  /** The amounts alone, as saved by toJson. */
  function Amounts(s: Stock): (a: ResourceMap)
    ensures a.Keys == s.Keys
    ensures forall k | k in a :: a[k] == s[k].amount
  {
    map k | k in s :: s[k].amount
  }

  /** setResourceAmount for every saved key: tracked keys take the saved
      amount, saved keys the ledger does not track are ignored. */
  function SetAmounts(s: Stock, a: ResourceMap): (r: Stock)
    ensures r.Keys == s.Keys
    ensures forall k | k in s :: r[k].maximum == s[k].maximum
    ensures forall k | k in s :: r[k].amount == (if k in a then a[k] else s[k].amount)
  {
    map k | k in s :: if k in a then s[k].(amount := a[k]) else s[k]
  }

  /** The ledger has exactly the keys and capacities of m. */
  predicate ShapedBy(s: Stock, m: ResourceMap) {
    s.Keys == m.Keys && forall k | k in s :: s[k].maximum == m[k]
  }

  /** Loading saved amounts into a freshly recomputed ledger of the same
      shape gives back the saved ledger. */
  lemma RestoreAmounts(s: Stock, m: ResourceMap, start: Stock)
    requires ShapedBy(s, m)
    ensures SetAmounts(Recompute(start, m), Amounts(s)) == s
  {
    var r := SetAmounts(Recompute(start, m), Amounts(s));
    assert r.Keys == s.Keys;
    forall k | k in s ensures r[k] == s[k] {
    }
  }

  /** The leftover of one ingredient when a recipe starts
      (`round((held - cost) / cost) * cost`). */
  function Snap(held: real, cost: real): real
    requires cost != 0.0
  {
    Round((held - cost) / cost) as real * cost
  }

  /** The snapped leftover is held - cost exactly when held is a whole
      multiple of cost. */
  lemma SnapExact(held: real, cost: real)
    requires cost > 0.0
    ensures Snap(held, cost) == held - cost <==> IsInt(held / cost)
  {
    var q := (held - cost) / cost;
    var h := held / cost;
    assert q * cost == held - cost;
    assert h * cost == held;
    assert (h - 1.0) * cost == held - cost;
    MulCancel(q, h - 1.0, cost);
    assert q == h - 1.0;
    if IsInt(held / cost) {
      var n := (held / cost).Floor;
      assert q == (n - 1) as real;
      RoundOfInt(n - 1);
    }
    var r := Round(q);
    if r as real * cost == held - cost {
      assert r as real * cost == q * cost;
      MulCancel(r as real, q, cost);
      assert held / cost == (r + 1) as real;
      FloorOfInt(r + 1);
    }
  }

  /** Starting only when held >= cost, the leftover is never negative and
      within half a cost of held - cost. */
  lemma SnapBounds(held: real, cost: real)
    requires cost > 0.0 && held >= cost
    ensures 0.0 <= Snap(held, cost)
    ensures held - cost - cost / 2.0 <= Snap(held, cost) <= held - cost + cost / 2.0
  {
    var q := (held - cost) / cost;
    assert q * cost == held - cost;
    var x := Round(q) as real;
    assert Snap(held, cost) == x * cost;
    assert x >= 0.0;
    MulBounds(x, 0.0, x, cost);
    HalfStep(x, q, cost);
  }

  /** Moving a multiplier by at most one half moves the product by at most
      half the multiplicand. */
  lemma HalfStep(x: real, y: real, c: real)
    requires c > 0.0 && -0.5 <= x - y <= 0.5
    ensures y * c - c / 2.0 <= x * c <= y * c + c / 2.0
  {
    MulBounds(x - y, -0.5, 0.5, c);
    assert (x - y) * c == x * c - y * c;
  }

  lemma MulCancel(a: real, b: real, c: real)
    requires c != 0.0 && a * c == b * c
    ensures a == b
  {
    assert (a - b) * c == 0.0;
  }

  lemma MulBounds(x: real, lo: real, hi: real, c: real)
    requires lo <= x <= hi && c > 0.0
    ensures lo * c <= x * c <= hi * c
  {
    assert (x - lo) * c >= 0.0;
    assert (hi - x) * c >= 0.0;
  }

  /** Each ingredient of a starting recipe snapped down; untracked
      ingredients are ignored (setResourceAmount on an unknown key). */
  function Debit(s: Stock, costs: ResourceMap): (r: Stock)
    requires PositiveCosts(costs)
    ensures r.Keys == s.Keys
    ensures forall k | k in s :: r[k].maximum == s[k].maximum
    ensures forall k | k in s && k !in costs :: r[k] == s[k]
  {
    map k | k in s :: if k in costs then s[k].(amount := Snap(s[k].amount, costs[k])) else s[k]
  }

  /** Each result of a finished recipe added; untracked results are ignored. */
  function Credit(s: Stock, gains: ResourceMap): (r: Stock)
    ensures r.Keys == s.Keys
    ensures forall k | k in s :: r[k].maximum == s[k].maximum
    ensures forall k | k in s :: r[k].amount == s[k].amount + (if k in gains then gains[k] else 0.0)
  {
    map k | k in s :: if k in gains then s[k].(amount := s[k].amount + gains[k]) else s[k]
  }

  /** getResourceAmount(name): an untracked key reads as 0. */
  function AmountOf(s: Stock, name: string): real {
    if name in s then s[name].amount else 0.0
  }

  /** Every ingredient is held in at least its cost. */
  predicate Affords(s: Stock, costs: ResourceMap) {
    forall k | k in costs :: AmountOf(s, k) >= costs[k]
  }

  /** Every tracked result key has room for the result. */
  predicate HasRoom(s: Stock, gains: ResourceMap) {
    forall k | k in gains && k in s :: s[k].amount + gains[k] <= s[k].maximum
  }

  /** Crediting results the ledger has room for keeps it within bounds. */
  lemma CreditInBounds(s: Stock, gains: ResourceMap)
    requires InBounds(s) && HasRoom(s, gains)
    requires forall k | k in gains :: gains[k] >= 0.0
    ensures InBounds(Credit(s, gains))
  {
  }

  // ---- the loops of updateResources, a recipe start and a completion ----

  /** The ledger after updateResources' first loop has handled the keys in
      done. */
  ghost function Partial(s: Stock, m: ResourceMap, done: set<string>): Stock
    requires done <= m.Keys
  {
    map k | k in s.Keys + done ::
      if k in done then (if k in s then Resource(Min(s[k].amount, m[k]), m[k]) else Resource(0.0, m[k]))
      else s[k]
  }

  lemma PartialStep(s: Stock, m: ResourceMap, done: set<string>, name: string)
    requires done <= m.Keys && name in m && name !in done
    ensures var cur := Partial(s, m, done);
      Partial(s, m, done + {name}) ==
        cur[name := if name in cur then Resource(Min(cur[name].amount, m[name]), m[name]) else Resource(0.0, m[name])]
  {
  }

  /** After the first loop every capacity key is set; the second loop keeps
      only those. */
  lemma PartialDone(s: Stock, m: ResourceMap)
    ensures (map k | k in Partial(s, m, m.Keys) && k in m :: Partial(s, m, m.Keys)[k]) == Recompute(s, m)
  {
  }

  lemma Prune(full: Stock, m: ResourceMap, names: set<string>, name: string)
    requires name in names
    ensures var cur := map k | k in full && (k in m || k in names) :: full[k];
      (map k | k in full && (k in m || k in names - {name}) :: full[k]) ==
        (if name !in m then cur - {name} else cur)
  {
  }

  /** The ledger after the ingredient loop has handled the keys in done. */
  ghost function DebitSome(s: Stock, costs: ResourceMap, done: set<string>): Stock
    requires PositiveCosts(costs) && done <= costs.Keys
  {
    map k | k in s :: if k in done then s[k].(amount := Snap(s[k].amount, costs[k])) else s[k]
  }

  /** The ledger after the result loop has handled the keys in done. */
  ghost function CreditSome(s: Stock, gains: ResourceMap, done: set<string>): Stock
    requires done <= gains.Keys
  {
    map k | k in s :: if k in done then s[k].(amount := s[k].amount + gains[k]) else s[k]
  }

  lemma DebitStep(s: Stock, costs: ResourceMap, done: set<string>, name: string)
    requires PositiveCosts(costs) && done <= costs.Keys && name in costs && name !in done
    ensures var cur := DebitSome(s, costs, done);
      SetAmounts(cur, map[name := Snap(AmountOf(cur, name), costs[name])]) == DebitSome(s, costs, done + {name})
  {
  }

  lemma CreditStep(s: Stock, gains: ResourceMap, done: set<string>, name: string)
    requires done <= gains.Keys && name in gains && name !in done
    ensures var cur := CreditSome(s, gains, done);
      SetAmounts(cur, map[name := AmountOf(cur, name) + gains[name]]) == CreditSome(s, gains, done + {name})
  {
  }

  /** Writing one tracked amount in place is setting that one amount. */
  lemma SetOne(s: Stock, name: string, v: real)
    requires name in s
    ensures s[name := s[name].(amount := v)] == SetAmounts(s, map[name := v])
  {
  }
}
