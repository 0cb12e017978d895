/** The connection graph of the node network, as plain values: every node id
    maps to its ordered input and output id lists (the JS Sets keep insertion
    order). The edge operations of src/Node.ts and src/Machine.ts act on it. */
module Graph {
  import opened Seqs

  datatype Adj = Adj(inputs: seq<string>, outputs: seq<string>)

  type Links = map<string, Adj>

  /** Each list is duplicate-free (it models a Set) and no node lists itself. */
  predicate WellFormed(g: Links) {
    forall a | a in g ::
      && Distinct(g[a].inputs) && Distinct(g[a].outputs)
      && a !in g[a].inputs && a !in g[a].outputs
  }

  /** Every edge is recorded at both ends, and both ends are in the graph. */
  predicate Mutual(g: Links) {
    && (forall a, b {:trigger b in g[a].outputs} | a in g && b in g[a].outputs :: b in g && a in g[b].inputs)
    && (forall a, b {:trigger b in g[a].inputs} | a in g && b in g[a].inputs :: b in g && a in g[b].outputs)
  }

  predicate Valid(g: Links) {
    WellFormed(g) && Mutual(g)
  }

  /** No node of the graph lists id in either direction. */
  predicate Unreferenced(g: Links, id: string) {
    forall a | a in g :: id !in g[a].inputs && id !in g[a].outputs
  }

  predicate HasEdge(g: Links, a: string, b: string)
    requires a in g
  {
    b in g[a].outputs
  }

  /** a.addOutput(b): refused for a self-edge or a ghost source; a no-op when
      either end already records the edge. */
  function AddOutput(g: Links, a: string, b: string, sourceGhost: bool): Links
    requires a in g && b in g
  {
    if a == b || sourceGhost then g
    else if b !in g[a].outputs && a !in g[b].inputs then
      g[a := g[a].(outputs := g[a].outputs + [b])][b := g[b].(inputs := g[b].inputs + [a])]
    else g
  }

  /** a.addInput(b): the edge b -> a; refused only for a self-edge. */
  function AddInput(g: Links, a: string, b: string): Links
    requires a in g && b in g
  {
    if a == b then g
    else if b !in g[a].inputs && a !in g[b].outputs then
      g[a := g[a].(inputs := g[a].inputs + [b])][b := g[b].(outputs := g[b].outputs + [a])]
    else g
  }

  /** a.removeOutput(b): delete b from a's outputs, then a from b's inputs. */
  function RemoveOutput(g: Links, a: string, b: string): Links
    requires a in g && b in g
  {
    var g1 := g[a := g[a].(outputs := Remove(g[a].outputs, b))];
    g1[b := g1[b].(inputs := Remove(g1[b].inputs, a))]
  }

  /** a.removeInput(b): delete b from a's inputs, then a from b's outputs. */
  function RemoveInput(g: Links, a: string, b: string): Links
    requires a in g && b in g
  {
    var g1 := g[a := g[a].(inputs := Remove(g[a].inputs, b))];
    g1[b := g1[b].(outputs := Remove(g1[b].outputs, a))]
  }

  function ToggleOutput(g: Links, a: string, b: string, sourceGhost: bool): Links
    requires a in g && b in g
  {
    if b in g[a].outputs then RemoveOutput(g, a, b) else AddOutput(g, a, b, sourceGhost)
  }

  function ToggleInput(g: Links, a: string, b: string): Links
    requires a in g && b in g
  {
    if b in g[a].inputs then RemoveInput(g, a, b) else AddInput(g, a, b)
  }

  /** a.clearConnections(): a's lists become empty; each former output drops
      a from its inputs and each former input drops a from its outputs. */
  function Clear(g: Links, a: string): Links
    requires a in g
  {
    map x | x in g ::
      if x == a then Adj([], [])
      else Adj(
        if x in g[a].outputs then Remove(g[x].inputs, a) else g[x].inputs,
        if x in g[a].inputs then Remove(g[x].outputs, a) else g[x].outputs)
  }

  /** The delete-key sequence: clear the node's connections, then drop it. */
  function Delete(g: Links, a: string): Links
    requires a in g
  {
    Clear(g, a) - {a}
  }

  // ---- properties -------------------------------------------------------

  /** addOutput records the edge at both ends exactly when it is allowed, and
      keeps the graph valid. */
  lemma AddOutputEffect(g: Links, a: string, b: string, sourceGhost: bool)
    requires Valid(g) && a in g && b in g
    ensures var r := AddOutput(g, a, b, sourceGhost);
      && Valid(r) && r.Keys == g.Keys
      && (b in r[a].outputs <==> b in g[a].outputs || (a != b && !sourceGhost))
      && (a in r[b].inputs <==> a in g[b].inputs || (a != b && !sourceGhost))
      && (r[a].outputs == g[a].outputs || r[a].outputs == g[a].outputs + [b])
      && (r[b].inputs == g[b].inputs || r[b].inputs == g[b].inputs + [a])
      && r[a].inputs == g[a].inputs && r[b].outputs == g[b].outputs
      && (forall x | x in g && x != a && x != b :: r[x] == g[x])
  {
    var r := AddOutput(g, a, b, sourceGhost);
    if a != b && !sourceGhost && b !in g[a].outputs {
      assert a !in g[b].inputs;
      AppendDistinct(g[a].outputs, b);
      AppendDistinct(g[b].inputs, a);
      assert r[a] == g[a].(outputs := g[a].outputs + [b]);
      assert r[b] == g[b].(inputs := g[b].inputs + [a]);
      forall x | x in g && x != a && x != b ensures r[x] == g[x] {}
      forall x, y | x in r && y in r[x].outputs ensures y in r && x in r[y].inputs {
        if (x, y) != (a, b) {
          assert y in g[x].outputs;
        }
      }
      forall x, y | x in r && y in r[x].inputs ensures y in r && x in r[y].outputs {
        if (x, y) != (b, a) {
          assert y in g[x].inputs;
        }
      }
    }
  }

  /** Adding the same output twice is the same as adding it once. */
  lemma AddOutputIdempotent(g: Links, a: string, b: string, sourceGhost: bool)
    requires a in g && b in g
    ensures AddOutput(AddOutput(g, a, b, sourceGhost), a, b, sourceGhost) == AddOutput(g, a, b, sourceGhost)
  {
    var r := AddOutput(g, a, b, sourceGhost);
    if a != b && !sourceGhost && b !in g[a].outputs && a !in g[b].inputs {
      assert b in r[a].outputs;
    }
  }

  /** addInput records the edge b -> a at both ends unless it is a self-edge. */
  lemma AddInputEffect(g: Links, a: string, b: string)
    requires Valid(g) && a in g && b in g
    ensures var r := AddInput(g, a, b);
      && Valid(r) && r.Keys == g.Keys
      && (b in r[a].inputs <==> b in g[a].inputs || a != b)
      && (a in r[b].outputs <==> a in g[b].outputs || a != b)
      && (r[a].inputs == g[a].inputs || r[a].inputs == g[a].inputs + [b])
      && (r[b].outputs == g[b].outputs || r[b].outputs == g[b].outputs + [a])
      && r[a].outputs == g[a].outputs && r[b].inputs == g[b].inputs
      && (forall x | x in g && x != a && x != b :: r[x] == g[x])
  {
    var r := AddInput(g, a, b);
    if a != b && b !in g[a].inputs {
      assert a !in g[b].outputs;
      AppendDistinct(g[a].inputs, b);
      AppendDistinct(g[b].outputs, a);
      assert r[a] == g[a].(inputs := g[a].inputs + [b]);
      assert r[b] == g[b].(outputs := g[b].outputs + [a]);
      forall x | x in g && x != a && x != b ensures r[x] == g[x] {}
      forall x, y | x in r && y in r[x].outputs ensures y in r && x in r[y].inputs {
        if (x, y) != (b, a) {
          assert y in g[x].outputs;
        }
      }
      forall x, y | x in r && y in r[x].inputs ensures y in r && x in r[y].outputs {
        if (x, y) != (a, b) {
          assert y in g[x].inputs;
        }
      }
    }
  }

  lemma AddInputIdempotent(g: Links, a: string, b: string)
    requires a in g && b in g
    ensures AddInput(AddInput(g, a, b), a, b) == AddInput(g, a, b)
  {
    var r := AddInput(g, a, b);
    if a != b && b !in g[a].inputs && a !in g[b].outputs {
      assert b in r[a].inputs;
    }
  }

  /** removeOutput deletes both directions of a -> b, touches nothing else
      and keeps the graph valid. */
  lemma RemoveOutputEffect(g: Links, a: string, b: string)
    requires Valid(g) && a in g && b in g
    ensures var r := RemoveOutput(g, a, b);
      && Valid(r) && r.Keys == g.Keys
      && b !in r[a].outputs && a !in r[b].inputs
      && (forall x | x in r[a].outputs :: x in g[a].outputs)
      && (forall x | x in g[a].outputs && x != b :: x in r[a].outputs)
      && r[a].outputs == Remove(g[a].outputs, b) && r[b].inputs == Remove(g[b].inputs, a)
      && r[a].inputs == g[a].inputs && r[b].outputs == g[b].outputs
      && (forall x | x in g && x != a && x != b :: r[x] == g[x])
  {
    var r := RemoveOutput(g, a, b);
    if a == b {
      assert r == g;
    } else {
      RemoveDistinct(g[a].outputs, b);
      RemoveDistinct(g[b].inputs, a);
      assert r[a] == g[a].(outputs := Remove(g[a].outputs, b));
      assert r[b] == g[b].(inputs := Remove(g[b].inputs, a));
      forall x | x in g && x != a && x != b ensures r[x] == g[x] {}
      DropEdgeMutual(g, r, a, b);
    }
  }

  lemma RemoveInputEffect(g: Links, a: string, b: string)
    requires Valid(g) && a in g && b in g
    ensures var r := RemoveInput(g, a, b);
      && Valid(r) && r.Keys == g.Keys
      && b !in r[a].inputs && a !in r[b].outputs
      && (forall x | x in r[a].inputs :: x in g[a].inputs)
      && (forall x | x in g[a].inputs && x != b :: x in r[a].inputs)
      && r[a].inputs == Remove(g[a].inputs, b) && r[b].outputs == Remove(g[b].outputs, a)
      && r[a].outputs == g[a].outputs && r[b].inputs == g[b].inputs
      && (forall x | x in g && x != a && x != b :: r[x] == g[x])
  {
    var r := RemoveInput(g, a, b);
    if a == b {
      assert r == g;
    } else {
      RemoveDistinct(g[a].inputs, b);
      RemoveDistinct(g[b].outputs, a);
      assert r[a] == g[a].(inputs := Remove(g[a].inputs, b));
      assert r[b] == g[b].(outputs := Remove(g[b].outputs, a));
      forall x | x in g && x != a && x != b ensures r[x] == g[x] {}
      DropEdgeMutual(g, r, b, a);
    }
  }

  /** Dropping the one edge src -> dst at both of its ends keeps every other
      edge recorded at both ends. */
  lemma DropEdgeMutual(g: Links, r: Links, src: string, dst: string)
    requires Mutual(g) && src in g && dst in g && src != dst && r.Keys == g.Keys
    requires forall x | x in g && x != src && x != dst :: r[x] == g[x]
    requires r[src].inputs == g[src].inputs && r[dst].outputs == g[dst].outputs
    requires forall y :: y in r[src].outputs <==> y in g[src].outputs && y != dst
    requires forall y :: y in r[dst].inputs <==> y in g[dst].inputs && y != src
    ensures Mutual(r)
  {
    forall x, y | x in r && y in r[x].outputs ensures y in r && x in r[y].inputs {
      KeptOutput(g, r, src, dst, x, y);
    }
    forall x, y | x in r && y in r[x].inputs ensures y in r && x in r[y].outputs {
      KeptInput(g, r, src, dst, x, y);
    }
  }

  lemma KeptOutput(g: Links, r: Links, src: string, dst: string, x: string, y: string)
    requires Mutual(g) && src in g && dst in g && src != dst && r.Keys == g.Keys
    requires forall x | x in g && x != src && x != dst :: r[x] == g[x]
    requires r[src].inputs == g[src].inputs && r[dst].outputs == g[dst].outputs
    requires forall y :: y in r[src].outputs <==> y in g[src].outputs && y != dst
    requires forall y :: y in r[dst].inputs <==> y in g[dst].inputs && y != src
    requires x in r && y in r[x].outputs
    ensures y in r && x in r[y].inputs
  {
    assert y in g[x].outputs && (x, y) != (src, dst);
    assert y in g && x in g[y].inputs;
  }

  lemma KeptInput(g: Links, r: Links, src: string, dst: string, x: string, y: string)
    requires Mutual(g) && src in g && dst in g && src != dst && r.Keys == g.Keys
    requires forall x | x in g && x != src && x != dst :: r[x] == g[x]
    requires r[src].inputs == g[src].inputs && r[dst].outputs == g[dst].outputs
    requires forall y :: y in r[src].outputs <==> y in g[src].outputs && y != dst
    requires forall y :: y in r[dst].inputs <==> y in g[dst].inputs && y != src
    requires x in r && y in r[x].inputs
    ensures y in r && x in r[y].outputs
  {
    assert y in g[x].inputs && (x, y) != (dst, src);
    assert y in g && x in g[y].outputs;
  }

  /** toggleOutput flips whether a -> b is an edge, whenever adding it is
      allowed (distinct ends, non-ghost source). */
  lemma ToggleOutputFlips(g: Links, a: string, b: string, sourceGhost: bool)
    requires Valid(g) && a in g && b in g && a != b && !sourceGhost
    ensures var r := ToggleOutput(g, a, b, sourceGhost);
      Valid(r) && (b in r[a].outputs <==> b !in g[a].outputs)
  {
    if b in g[a].outputs {
      RemoveOutputEffect(g, a, b);
    } else {
      AddOutputEffect(g, a, b, sourceGhost);
    }
  }

  lemma ToggleInputFlips(g: Links, a: string, b: string)
    requires Valid(g) && a in g && b in g && a != b
    ensures var r := ToggleInput(g, a, b);
      Valid(r) && (b in r[a].inputs <==> b !in g[a].inputs)
  {
    if b in g[a].inputs {
      RemoveInputEffect(g, a, b);
    } else {
      AddInputEffect(g, a, b);
    }
  }

  /** What clearConnections does to one other node: it loses a, and only a. */
  lemma ClearOther(g: Links, a: string, x: string)
    requires Valid(g) && a in g && x in g && x != a
    ensures var r := Clear(g, a);
      && Distinct(r[x].inputs) && Distinct(r[x].outputs)
      && a !in r[x].inputs && a !in r[x].outputs
      && (forall y :: y in r[x].inputs <==> y in g[x].inputs && y != a)
      && (forall y :: y in r[x].outputs <==> y in g[x].outputs && y != a)
  {
    RemoveDistinct(g[x].inputs, a);
    RemoveDistinct(g[x].outputs, a);
    if a in g[x].inputs {
      assert x in g[a].outputs;
    }
    if a in g[x].outputs {
      assert x in g[a].inputs;
    }
  }

  /** After clearConnections the node has no edges, no other node lists it,
      nothing else changes and the graph stays valid. */
  lemma ClearEffect(g: Links, a: string)
    requires Valid(g) && a in g
    ensures var r := Clear(g, a);
      && Valid(r) && r.Keys == g.Keys
      && r[a] == Adj([], [])
      && Unreferenced(r, a)
      && (forall x | x in g && x !in g[a].inputs && x !in g[a].outputs && x != a :: r[x] == g[x])
  {
    var r := Clear(g, a);
    assert r.Keys == g.Keys;
    forall x | x in r && x != a
      ensures Distinct(r[x].inputs) && Distinct(r[x].outputs)
      ensures a !in r[x].inputs && a !in r[x].outputs
      ensures forall y :: y in r[x].inputs <==> y in g[x].inputs && y != a
      ensures forall y :: y in r[x].outputs <==> y in g[x].outputs && y != a
    {
      ClearOther(g, a, x);
    }
    ClearMutual(g, a, r);
  }

  /** The mutual half of ClearEffect: every edge that survives was an edge
      between two nodes other than a. */
  lemma ClearMutual(g: Links, a: string, r: Links)
    requires Mutual(g) && a in g && r.Keys == g.Keys && r[a] == Adj([], [])
    requires forall x | x in r && x != a ::
      && (forall y :: y in r[x].inputs <==> y in g[x].inputs && y != a)
      && (forall y :: y in r[x].outputs <==> y in g[x].outputs && y != a)
    ensures Mutual(r)
  {
    forall x, y | x in r && y in r[x].outputs ensures y in r && x in r[y].inputs {
      assert x != a && y != a;
      assert y in g[x].outputs;
    }
    forall x, y | x in r && y in r[x].inputs ensures y in r && x in r[y].outputs {
      assert x != a && y != a;
      assert y in g[x].inputs;
    }
  }

  /** Dropping a node nobody lists keeps the graph valid. */
  lemma DropUnreferenced(g: Links, a: string)
    requires Valid(g) && Unreferenced(g, a)
    ensures Valid(g - {a}) && Unreferenced(g - {a}, a)
  {
    var r := g - {a};
    forall x | x in r ensures r[x] == g[x] {}
    forall x, y | x in r && y in r[x].outputs ensures y in r && x in r[y].inputs {
      assert y in g[x].outputs;
    }
    forall x, y | x in r && y in r[x].inputs ensures y in r && x in r[y].outputs {
      assert y in g[x].inputs;
    }
  }

  /** After the delete-key sequence the node is gone, no survivor lists it
      and the graph stays valid. */
  lemma DeleteEffect(g: Links, a: string)
    requires Valid(g) && a in g
    ensures var r := Delete(g, a);
      && Valid(r) && r.Keys == g.Keys - {a}
      && Unreferenced(r, a)
  {
    ClearEffect(g, a);
    DropUnreferenced(Clear(g, a), a);
  }
  // ---- clearConnections, one removal at a time ----------------------------

  /** a.removeOutput(b) for each b of bs in turn. */
  function RemoveOutputs(g: Links, a: string, bs: seq<string>): (r: Links)
    requires a in g
    ensures r.Keys == g.Keys
    decreases |bs|
  {
    if bs == [] then g
    else if bs[0] in g then
      var g1 := RemoveOutput(g, a, bs[0]);
      assert g1.Keys == g.Keys;
      RemoveOutputs(g1, a, bs[1..])
    else RemoveOutputs(g, a, bs[1..])
  }

  /** a.removeInput(b) for each b of bs in turn. */
  function RemoveInputs(g: Links, a: string, bs: seq<string>): (r: Links)
    requires a in g
    ensures r.Keys == g.Keys
    decreases |bs|
  {
    if bs == [] then g
    else if bs[0] in g then
      var g1 := RemoveInput(g, a, bs[0]);
      assert g1.Keys == g.Keys;
      RemoveInputs(g1, a, bs[1..])
    else RemoveInputs(g, a, bs[1..])
  }

  /** Removing every output of a in turn empties a's outputs and drops a
      from the inputs of exactly those nodes. */
  lemma {:induction false} RemoveOutputsEffect(g: Links, a: string, bs: seq<string>)
    requires a in g && (forall b | b in bs :: b in g)
    requires g[a].outputs == bs && Distinct(bs) && a !in bs
    ensures var r := RemoveOutputs(g, a, bs);
      && r.Keys == g.Keys
      && r[a] == Adj(g[a].inputs, [])
      && forall x | x in g && x != a ::
           r[x] == Adj(if x in bs then Remove(g[x].inputs, a) else g[x].inputs, g[x].outputs)
    decreases |bs|
  {
    if bs != [] {
      var g1 := RemoveOutput(g, a, bs[0]);
      RemoveHead(bs);
      assert g1[a] == Adj(g[a].inputs, bs[1..]);
      assert Distinct(bs[1..]);
      RemoveOutputsEffect(g1, a, bs[1..]);
      assert bs[0] !in bs[1..];
    }
  }

  lemma {:induction false} RemoveInputsEffect(g: Links, a: string, bs: seq<string>)
    requires a in g && (forall b | b in bs :: b in g)
    requires g[a].inputs == bs && Distinct(bs) && a !in bs
    ensures var r := RemoveInputs(g, a, bs);
      && r.Keys == g.Keys
      && r[a] == Adj([], g[a].outputs)
      && forall x | x in g && x != a ::
           r[x] == Adj(g[x].inputs, if x in bs then Remove(g[x].outputs, a) else g[x].outputs)
    decreases |bs|
  {
    if bs != [] {
      var g1 := RemoveInput(g, a, bs[0]);
      RemoveHead(bs);
      assert g1[a] == Adj(bs[1..], g[a].outputs);
      assert Distinct(bs[1..]);
      RemoveInputsEffect(g1, a, bs[1..]);
      assert bs[0] !in bs[1..];
    }
  }

  /** clearConnections as written (every output removed, then every input)
      is Clear. */
  lemma ClearSequential(g: Links, a: string)
    requires Valid(g) && a in g
    ensures var r1 := RemoveOutputs(g, a, g[a].outputs);
      && r1.Keys == g.Keys && r1[a].inputs == g[a].inputs
      && RemoveInputs(r1, a, r1[a].inputs) == Clear(g, a)
  {
    EndsKnown(g, a);
    ClearInTurn(g, a, g[a].inputs, g[a].outputs);
  }

  lemma EndsKnown(g: Links, a: string)
    requires Mutual(g) && a in g
    ensures forall b | b in g[a].outputs :: b in g
    ensures forall b | b in g[a].inputs :: b in g
  {
    forall b | b in g[a].outputs ensures b in g {
      assert b in g && a in g[b].inputs;
    }
    forall b | b in g[a].inputs ensures b in g {
      assert b in g && a in g[b].outputs;
    }
  }

  lemma ClearInTurn(g: Links, a: string, ins: seq<string>, outs: seq<string>)
    requires a in g && g[a] == Adj(ins, outs)
    requires Distinct(outs) && a !in outs && Distinct(ins) && a !in ins
    requires (forall b | b in outs :: b in g) && (forall b | b in ins :: b in g)
    ensures var r1 := RemoveOutputs(g, a, outs);
      && r1.Keys == g.Keys && r1[a].inputs == ins
      && RemoveInputs(r1, a, ins) == Clear(g, a)
  {
    var r1 := RemoveOutputs(g, a, outs);
    RemoveOutputsEffect(g, a, outs);
    assert r1[a] == Adj(ins, []);
    RemoveInputsEffect(r1, a, ins);
    var r2 := RemoveInputs(r1, a, ins);
    var c := Clear(g, a);
    assert r2.Keys == c.Keys;
    assert r2[a] == c[a];
    forall x | x in c && x != a ensures r2[x] == c[x] {
      assert r1[x] == Adj(if x in outs then Remove(g[x].inputs, a) else g[x].inputs, g[x].outputs);
    }
  }

  /** One turn of clearConnections' output loop: remove the first output. */
  lemma RemoveFirstOutput(g: Links, a: string)
    requires Valid(g) && a in g && g[a].outputs != []
    ensures var b := g[a].outputs[0];
      && b in g[a].outputs && b in g && (forall x | x in g[a].outputs :: x in g)
      && var r := RemoveOutput(g, a, b);
      && Valid(r) && r.Keys == g.Keys && r[a].outputs == g[a].outputs[1..]
      && RemoveOutputs(g, a, g[a].outputs) == RemoveOutputs(r, a, r[a].outputs)
  {
    EndsKnown(g, a);
    var b := g[a].outputs[0];
    RemoveHead(g[a].outputs);
    RemoveOutputEffect(g, a, b);
  }

  /** One turn of clearConnections' input loop: remove the first input. */
  lemma RemoveFirstInput(g: Links, a: string)
    requires Valid(g) && a in g && g[a].inputs != []
    ensures var b := g[a].inputs[0];
      && b in g[a].inputs && b in g && (forall x | x in g[a].inputs :: x in g)
      && var r := RemoveInput(g, a, b);
      && Valid(r) && r.Keys == g.Keys && r[a].inputs == g[a].inputs[1..]
      && RemoveInputs(g, a, g[a].inputs) == RemoveInputs(r, a, r[a].inputs)
  {
    EndsKnown(g, a);
    var b := g[a].inputs[0];
    RemoveHead(g[a].inputs);
    RemoveInputEffect(g, a, b);
  }
}
