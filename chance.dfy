/** The weighted pick of a chance recipe (pickRandom, isChanceRecipe in
    src/Node.ts and src/Machine.ts). The random draw `Math.random() * sum`
    is a parameter: a number in [0, total weight). */
module Chance {
  import opened Wrappers
  import opened Catalog

  /** The total weight, chances.reduce((acc, el) => acc + el, 0). */
  function Sum(s: seq<real>): real {
    if s == [] then 0.0 else s[0] + Sum(s[1..])
  }

  /** chances.map(el => (acc = el + acc)) starting from acc: the running
      totals that replace the weights before the search. */
  function Running(s: seq<real>, acc: real): (r: seq<real>)
    ensures |r| == |s|
    ensures |s| > 0 ==> r[0] == acc + s[0]
    ensures forall i {:trigger s[i], r[i]} | 0 < i < |s| :: r[i] == r[i - 1] + s[i]
    ensures |s| > 0 ==> r[|s| - 1] == acc + Sum(s)
  {
    if s == [] then [] else [acc + s[0]] + Running(s[1..], acc + s[0])
  }

  function Cumulative(s: seq<real>): seq<real> {
    Running(s, 0.0)
  }

  /** items.find((el, i) => totals[i] > threshold), as the index found. */
  function FirstAbove(count: nat, totals: seq<real>, threshold: real, from: nat): (r: Option<nat>)
    decreases count - from
    ensures r.Some? ==> from <= r.value < count && r.value < |totals| && totals[r.value] > threshold
    ensures r.Some? ==> forall j | from <= j < r.value && j < |totals| :: totals[j] <= threshold
    ensures r.None? ==> forall j | from <= j < count && j < |totals| :: totals[j] <= threshold
  {
    if from >= count then None
    else if from < |totals| && totals[from] > threshold then Some(from)
    else FirstAbove(count, totals, threshold, from + 1)
  }

  /** The index pickRandom lands on for the scaled draw. */
  function PickIndex(count: nat, chances: seq<real>, draw: real): Option<nat> {
    FirstAbove(count, Cumulative(chances), draw, 0)
  }

  /** pickRandom(items, chances): the first item whose running total exceeds
      the draw; none (undefined in JS) when no total does. */
  function PickRandom<T>(items: seq<T>, chances: seq<real>, draw: real): (r: Option<T>)
    ensures r.Some? <==> PickIndex(|items|, chances, draw).Some?
    ensures r.Some? ==> r.value == items[PickIndex(|items|, chances, draw).value]
  {
    match PickIndex(|items|, chances, draw)
    case None => None
    case Some(i) => Some(items[i])
  }

  /** isChanceRecipe: the results are a list of alternatives. */
  predicate IsChanceRecipe(r: RecipeMeta) {
    r.results.Chance?
  }

  predicate NonNegative(s: seq<real>) {
    forall i | 0 <= i < |s| :: s[i] >= 0.0
  }

  /** The running total before index i (0 before the first). */
  function Before(c: seq<real>, i: nat): real
    requires i <= |c|
  {
    if i == 0 then 0.0 else c[i - 1]
  }

  /** Each item owns the slice [Before(i), c[i]) of the scaled draw, and the
      width of that slice is exactly its weight. */
  lemma SliceWidth(chances: seq<real>, i: nat)
    requires i < |chances|
    ensures Cumulative(chances)[i] - Before(Cumulative(chances), i) == chances[i]
  {
  }

  /** With non-negative weights the running totals never decrease. */
  lemma {:induction false} RunningMonotone(c: seq<real>, chances: seq<real>, j: nat, k: nat)
    requires c == Cumulative(chances) && NonNegative(chances) && j <= k < |c|
    ensures c[j] <= c[k]
    decreases k - j
  {
    if j < k {
      RunningMonotone(c, chances, j, k - 1);
      assert c[k] == c[k - 1] + chances[k];
    }
  }

  /** pickRandom lands on item i exactly when the draw falls in i's slice:
      every weight gets a share of the draws equal to itself. */
  lemma PickIsSlot(count: nat, chances: seq<real>, draw: real, i: nat)
    requires NonNegative(chances) && i < count && i < |chances|
    ensures var c := Cumulative(chances);
      PickIndex(count, chances, draw) == Some(i) <==>
      (i == 0 || c[i - 1] <= draw) && draw < c[i]
  {
    var c := Cumulative(chances);
    if (i == 0 || c[i - 1] <= draw) && draw < c[i] {
      SlotIsPicked(count, c, chances, draw, i);
    }
    if FirstAbove(count, c, draw, 0) == Some(i) {
      PickedInSlot(count, c, draw, i);
    }
  }

  lemma PickedInSlot(count: nat, c: seq<real>, t: real, i: nat)
    requires i < |c| && FirstAbove(count, c, t, 0) == Some(i)
    ensures (i == 0 || c[i - 1] <= t) && t < c[i]
  {
    var r := FirstAbove(count, c, t, 0);
    assert r.value == i;
    if i > 0 {
      assert c[i - 1] <= t;
    }
  }

  lemma SlotIsPicked(count: nat, c: seq<real>, chances: seq<real>, t: real, i: nat)
    requires c == Cumulative(chances) && NonNegative(chances)
    requires i < count && i < |c| && (i == 0 || c[i - 1] <= t) && t < c[i]
    ensures FirstAbove(count, c, t, 0) == Some(i)
  {
    var r := FirstAbove(count, c, t, 0);
    assert r.Some?;
    var k := r.value;
    assert k <= i;
    if k < i {
      RunningMonotone(c, chances, k, i - 1);
    }
  }

  /** A draw in [0, total) over as many weights as items always picks an
      item. */
  lemma PickTotal<T>(items: seq<T>, chances: seq<real>, draw: real)
    requires |items| == |chances| && 0.0 <= draw < Sum(chances)
    ensures PickRandom(items, chances, draw).Some?
  {
    assert chances != [];
    var c := Cumulative(chances);
    assert c[|chances| - 1] == 0.0 + Sum(chances);
  }
}
