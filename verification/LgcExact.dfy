/** The outcome of a full collection against reachability: where they differ, and exactly when. */
module LgcExact {
  import opened LgcHeap
  import opened LgcGrow
  import opened LgcMark
  import opened LgcAtomic
  import opened LgcInv
  import opened LgcFull

  predicate NoWeakTables(g: G) {
    forall r :: r in g.heap && g.heap[r].Table? ==> g.heap[r].mode == Mode(false, false)
  }

  /** What the program can reach, and the fixed strings. */
  ghost function Reached(g: G): (s: set<Ref>) {
    set r | r in g.heap && (Reachable(g, r) || r in g.fixedgc)
  }

  lemma RootReachable(g: G, r: Ref)
    requires IsRoot(g, r)
    ensures Reachable(g, r)
  {
    assert Path(g, [r]);
  }

  lemma ChildReachable(g: G, r: Ref, c: Ref)
    requires Reachable(g, r) && r in g.heap && c in Children(g.heap, g.upvals, g.heap[r])
    ensures Reachable(g, c)
  {
    var p :| Path(g, p) && p[|p| - 1] == r;
    var q := p + [c];
    forall i | 0 <= i < |q| - 1 ensures q[i] in g.heap && q[i + 1] in Children(g.heap, g.upvals, g.heap[q[i]]) {}
    assert Path(g, q) && q[|q| - 1] == c;
  }

  lemma ReachedRefs(g: G, r: Ref)
    requires Core(g) && r in Reached(g)
    ensures RefsIn(g.heap, g.upvals, g.heap[r], Reached(g))
  {
    hide Core, Reachable;
    if Reachable(g, r) {
      forall c | c in Children(g.heap, g.upvals, g.heap[r]) ensures c in Reached(g) {
        ChildReachable(g, r, c);
        ReachableAlive(g, c);
      }
      ChildrenIn(g.heap, g.upvals, g.heap[r], Reached(g));
    } else {
      FixedString(g, r);
    }
  }

  lemma FixedString(g: G, r: Ref)
    requires Core(g) && r in g.fixedgc
    ensures IsString(g.heap, r)
  {
  }

  lemma ReachedRoots(g: G)
    requires Core(g)
    ensures g.mainthread in Reached(g) && g.running in Reached(g) && In(g.registry, Reached(g)) && ValsIn(g.mt, Reached(g))
    ensures forall r :: r in g.fixedgc ==> r in Reached(g)
  {
    hide Core, Reachable;
    forall r | IsRoot(g, r) ensures r in Reached(g) {
      RootReachable(g, r);
      ReachableAlive(g, r);
    }
    ValsInRefs(g.mt, Reached(g));
    forall r | r in g.fixedgc ensures r in Reached(g) { FixedString(g, r); }
  }

  /** Every set that a collection may keep holds what the program can reach. */
  lemma ReachedRetained(g: G, s: set<Ref>)
    requires Core(g) && NoWeakTables(g) && g.tobefnz == [] && Retains(g, s)
    ensures Reached(g) <= s
  {
    hide Core;
    forall r | r in g.heap && r in s ensures RefsIn(g.heap, g.upvals, g.heap[r], s) {
      RetainsAt(g, s, r);
      if g.heap[r].Table? {
        TableClauses(g.heap, g.upvals, g.heap[r], s);
        forall i | 0 <= i < |g.heap[r].nodes| ensures EntryIn(g.heap[r].nodes[i], s) {
          assert NodeRetained(g.heap, g.heap[r].mode, g.heap[r].nodes[i], s);
        }
      }
    }
    forall r | r in Reached(g) ensures r in s {
      if Reachable(g, r) {
        var p :| Path(g, p) && p[|p| - 1] == r;
        PathIn(g, p, s);
      }
    }
  }

  /** The values of touched open upvalues of live threads can be reached. */
  ghost predicate TouchedReached(g: G) {
    forall u :: u in g.upvals && g.upvals[u].Open? && g.upvals[u].touched && g.upvals[u].th in Alive(g) ==>
      In(UpValue(g.heap, g.upvals, u), Reached(g))
  }

  /** Without weak tables and with nothing to finalize a full collection leaves exactly what the program can
      reach if and only if no touched upvalue of an unreachable thread has another value:
      'remarkupvals' marks the values of touched upvalues, and notes of an earlier cycle are
      still there when the thread dies. */
  lemma NeededExactly(g: G)
    requires Core(g) && NoWeakTables(g) && g.tobefnz == []
    ensures Needed(g) == Reached(g) <==> TouchedReached(g)
  {
    hide Core;
    NeededLeast(g);
    ReachedRetained(g, Needed(g));
    if TouchedReached(g) {
      ReachedRoots(g);
      forall r | r in g.heap && r in Reached(g)
        ensures StrongIn(g.heap, g.upvals, g.heap[r], Reached(g)) && MetIn(g.heap, g.heap[r], Reached(g), false)
      {
        ReachedRefs(g, r);
      }
      assert Retains(g, Reached(g));
    }
  }

  /** A full collection, from any state of the invariant. */
  method FullGcExactly(g: GlobalState, max: nat)
    requires Inv(g.Snap()) && NothingToFinalize(g.Snap()) && max > 0 && NoWeakTables(g.Snap())
    modifies g
    ensures Inv(g.Snap()) && (g.heap.Keys == Reached(old(g.Snap())) <==> TouchedReached(old(g.Snap())))
  {
    hide Inv, Needed, Reached, TouchedReached, Core;
    InvCoreOf(g.Snap());
    NeededExactly(g.Snap());
    FullGc(g, max);
  }
}
