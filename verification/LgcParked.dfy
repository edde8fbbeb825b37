/** A new metatable for a fully weak table that was already visited in the running cycle: no barrier
    fires and nothing visits the table again. When the metatable is freed under the table, and when
    it is not. */
module LgcParked {
  import opened LgcHeap
  import opened LgcGrow
  import opened LgcMark
  import opened LgcPropagate
  import opened LgcAtomic
  import opened LgcInv
  import opened LgcSweep
  import opened LgcStep
  import opened LgcCycle
  import opened LgcBarrier
  import opened LgcMutator
  import opened LgcRun
  import opened LgcFull

  // ----- From the atomic step to the end of the sweep -----

  /** Live tables that the program can reach and that waited in 'allweak' have live metatables. */
  ghost predicate MetasReached(g: G) {
    forall r :: r in g.allweak && r in g.heap && g.heap[r].Table? && Reachable(g, r) ==> In(g.heap[r].meta, Alive(g))
  }

  /** What the end of marking leaves behind. */
  ghost predicate SweptOut(m: G, d: G) {
    && d.heap.Keys == Alive(m) && (forall r :: r in d.heap ==> r in m.heap && d.heap[r] == m.heap[r])
    && SameUpvals(m, d) && d.tobefnz == m.tobefnz
    && d.mainthread == m.mainthread && d.running == m.running && d.registry == m.registry && d.mt == m.mt
  }

  lemma SameRoots(m: G, d: G, r: Ref)
    requires SweptOut(m, d)
    ensures IsRoot(m, r) <==> IsRoot(d, r)
  {
  }

  lemma SameChildren(m: G, d: G, r: Ref)
    requires SweptOut(m, d) && r in d.heap
    ensures Children(d.heap, d.upvals, d.heap[r]) == Children(m.heap, m.upvals, m.heap[r])
  {
    if m.heap[r].LCl? {
      var ups := m.heap[r].ups;
      forall i | 0 <= i < |ups| ensures UpValue(d.heap, d.upvals, ups[i]) == UpValue(m.heap, m.upvals, ups[i]) {}
      assert LgcInv.UpRefs(d.heap, d.upvals, ups) == LgcInv.UpRefs(m.heap, m.upvals, ups);
    }
  }

  /** One step along a path: it leads to a live object, or to the dead metatable of a table that
      waited in 'allweak'. */
  lemma NextAlive(g: G, r: Ref, c: Ref)
    requires RefsBut(g) && r in Alive(g) && r in g.heap && c in Children(g.heap, g.upvals, g.heap[r])
    ensures c in Alive(g) || (g.heap[r].Table? && r in g.allweak && g.heap[r].meta == Coll(c))
  {
    ChildrenIn(g.heap, g.upvals, Seen(g, r), Alive(g));
    if g.heap[r].Table? {
      assert c in RefOf(g.heap[r].meta) || c in Children(g.heap, g.upvals, Seen(g, r));
    }
  }

  lemma RootAlive(g: G, r: Ref)
    requires RootsIn(g, Alive(g)) && IsRoot(g, r)
    ensures r in Alive(g)
  {
    ValsInRefs(g.mt, Alive(g));
  }

  lemma PathMore(g: G, q: seq<Ref>, c: Ref)
    requires Path(g, q) && q[|q| - 1] in g.heap && c in Children(g.heap, g.upvals, g.heap[q[|q| - 1]])
    ensures Path(g, q + [c])
  {
    var p := q + [c];
    forall i | 0 <= i < |p| - 1 ensures p[i] in g.heap && p[i + 1] in Children(g.heap, g.upvals, g.heap[p[i]]) {}
  }

  lemma PathLess(g: G, p: seq<Ref>) returns (q: seq<Ref>, a: Ref, c: Ref)
    requires Path(g, p) && |p| > 1
    ensures Path(g, q) && q == p[..|p| - 1] && a == q[|q| - 1] && p == q + [c]
    ensures a in g.heap && c in Children(g.heap, g.upvals, g.heap[a])
  {
    q, c := p[..|p| - 1], p[|p| - 1];
    a := q[|q| - 1];
    assert a == p[|p| - 2];
  }

  /** Whatever a path reaches in the swept heap is there, if the metatables are. */
  lemma {:induction false} ReachedKept(m: G, d: G, p: seq<Ref>)
    requires SweptOut(m, d) && RefsBut(m) && RootsIn(m, Alive(m)) && MetasReached(m) && Path(d, p)
    ensures p[|p| - 1] in Alive(m) && Path(m, p)
  {
    hide RefsBut, RootsIn;
    if |p| == 1 {
      SameRoots(m, d, p[0]);
      RootAlive(m, p[0]);
    } else {
      var q, a, c := PathLess(d, p);
      ReachedKept(m, d, q);
      SameChildren(m, d, a);
      NextAlive(m, a, c);
      assert Reachable(m, a);
      PathMore(m, q, c);
    }
  }

  /** If nothing reachable was freed, then paths from before the sweep are still there. */
  lemma {:induction false} PathKept(m: G, d: G, p: seq<Ref>)
    requires SweptOut(m, d) && RootsIn(m, Alive(m)) && Safe(d) && Path(m, p)
    ensures p[|p| - 1] in d.heap && Path(d, p)
  {
    hide RootsIn;
    if |p| == 1 {
      SameRoots(m, d, p[0]);
      RootAlive(m, p[0]);
    } else {
      var q, a, c := PathLess(m, p);
      PathKept(m, d, q);
      SameChildren(m, d, a);
      PathMore(d, q, c);
      assert Reachable(d, c);
    }
  }

  lemma SafeExactly(m: G, d: G)
    requires SweptOut(m, d) && RefsBut(m) && RootsIn(m, Alive(m))
    ensures Safe(d) <==> MetasReached(m)
  {
    if MetasReached(m) {
      forall r | Reachable(d, r) ensures r in d.heap {
        var p :| Path(d, p) && p[|p| - 1] == r;
        ReachedKept(m, d, p);
      }
    }
    if Safe(d) {
      forall r | r in m.allweak && r in m.heap && m.heap[r].Table? && Reachable(m, r) ensures In(m.heap[r].meta, Alive(m)) {
        var p :| Path(m, p) && p[|p| - 1] == r;
        PathKept(m, d, p);
        if m.heap[r].meta.Coll? {
          var c := m.heap[r].meta.ref;
          assert c in Children(m.heap, m.upvals, m.heap[r]);
          SameChildren(m, d, r);
          PathMore(d, p, c);
          assert Reachable(d, c);
        }
      }
    }
  }

  /** Sweeping to the end, whatever the metatables. */
  method SweepAll(g: GlobalState, max: nat)
    requires Held(g.Snap()) && Sweeping(g.gcstate) && max > 0
    modifies g
    ensures Held(g.Snap()) && g.gcstate == CallFin && Trimmed(old(g.Snap()), g.Snap())
    ensures RefsAlive(old(g.Snap())) ==> RefsAlive(g.Snap())
  {
    hide Held, Inv, Trimmed, Stepped, Rest, RefsAlive;
    ghost var s0 := g.Snap();
    TrimmedRefl(s0);
    while g.gcstate != CallFin
      invariant Held(g.Snap()) && Trimmed(s0, g.Snap()) && (Sweeping(g.gcstate) || g.gcstate == SwpEnd || g.gcstate == CallFin)
      invariant RefsAlive(s0) ==> RefsAlive(g.Snap())
      decreases LateRank(g.Snap()), LateRest(g.Snap())
    {
      ghost var s := g.Snap();
      SingleStep(g, max, 0, {});
      LateStep(s, g.Snap(), max, {});
      TrimmedTrans(s0, s, g.Snap());
      SweepNext(s, g.Snap(), max);
      InvHeld(s);
      InvHeld(g.Snap());
      RestNat(g.Snap());
      RestNat(s);
    }
  }

  lemma SweepNext(g: G, d: G, max: nat)
    requires (Sweeping(g.gcstate) || g.gcstate == SwpEnd) && Stepped(g, d, max, 0, {})
    ensures Sweeping(d.gcstate) || d.gcstate == SwpEnd || d.gcstate == CallFin
  {
    hide Rest;
  }

  lemma CallFinAlive(g: G)
    requires Held(g) && g.gcstate == CallFin
    ensures g.heap.Keys == Alive(g)
  {
  }

  lemma TrimmedSwept(m: G, s: G, d: G)
    requires Sweeps(m.(gcstate := SwpAllGc), s.(sweepgc := Null), AllGc) && Trimmed(s, d) && d.heap.Keys == Alive(d)
    ensures SweptOut(m, d)
  {
    assert Alive(s) == Alive(m);
    SameUpvalsTrans(m, s, d);
  }

  /** What 'atomic' reaches before it starts is marked by collector steps only. */
  ghost predicate TracedOn(g: G, d: G) {
    Clean(g, d) && Traced(g, d) && TouchUps(d.upvals, g.upvals)
  }

  /** Marking goes on without the program until the atomic step is due. */
  method ToAtomicState(g: GlobalState, max: nat)
    requires Inv(g.Snap()) && KeepInvariant(g.gcstate)
    modifies g
    ensures Inv(g.Snap()) && g.gcstate == Atomic && TracedOn(old(g.Snap()), g.Snap())
  {
    hide Inv, Held, Clean, Traced, TouchUps, Unmarked, MetasMarked, LimitOK;
    ghost var s0 := g.Snap();
    TracedOnRefl(s0);
    while g.gcstate == Propagate
      invariant Inv(g.Snap()) && KeepInvariant(g.gcstate) && TracedOn(s0, g.Snap())
      decreases |Whites(g.Snap())|, |g.gray|, if g.gcstate == Propagate then 1 else 0
    {
      ghost var m := g.Snap();
      InvHeld(m);
      NoLimit(m);
      SingleStep(g, max, 0, g.heap.Keys);
      CleanTrans(s0, m, g.Snap());
      TracedTrans(s0, m, g.Snap());
      TouchTrans(s0, m, g.Snap());
    }
  }

  lemma TracedOnRefl(g: G)
    ensures TracedOn(g, g)
  {
  }

  /** The rest of a cycle, up to the end of the sweep, without the program: 'mid' is the state in
      which marking ends. The outcome is safe if and only if every reachable table that waited in
      'allweak' has a metatable that got marked. */
  method CollectOut(g: GlobalState, max: nat) returns (ghost mid: G)
    requires Inv(g.Snap()) && KeepInvariant(g.gcstate) && max > 0
    modifies g
    ensures AtomicDone(old(g.Snap()), mid, old(g.heap).Keys) && SweptOut(mid, g.Snap()) && g.gcstate == CallFin
    ensures Safe(g.Snap()) <==> MetasReached(mid)
    ensures MetasMarked(old(g.Snap())) ==> Inv(g.Snap())
  {
    hide Inv, Held, Safe, MetasReached, MetasMarked, AtomicDone, SweptOut, Sweeps, Trimmed, LimitOK, RefsAlive, RefsBut;
    ghost var s0 := g.Snap();
    ToAtomicState(g, max);
    ghost var s1 := g.Snap();
    InvHeld(s1);
    NoLimit(s1);
    SingleStep(g, max, 0, g.heap.Keys);
    ghost var s2 := g.Snap();
    mid :| AtomicDone(s1, mid, s1.heap.Keys) && Sweeps(mid.(gcstate := SwpAllGc), s2.(sweepgc := Null), AllGc);
    TracedOnKeys(s0, s1);
    AtomicJoin(s0, s1, mid, s0.heap.Keys);
    SweepAll(g, max);
    ghost var d := g.Snap();
    CallFinAlive(d);
    TrimmedSwept(mid, s2, d);
    DoneParts(s0, mid, s0.heap.Keys);
    SafeExactly(mid, d);
    TracedOnMetas(s0, s1);
    InvHeld(s2);
    InvHeld(d);
  }

  lemma TracedOnKeys(g: G, d: G)
    requires TracedOn(g, d)
    ensures d.heap.Keys == g.heap.Keys && Traced(g, d) && Clean(g, d) && TouchUps(d.upvals, g.upvals)
  {
  }

  lemma TracedOnMetas(g: G, d: G)
    requires TracedOn(g, d) && KeepInvariant(g.gcstate) && KeepInvariant(d.gcstate)
    ensures MetasMarked(g) ==> MetasMarked(d)
  {
    MetasClean(g, d);
  }

  lemma DoneParts(g: G, d: G, limit: set<Ref>)
    requires AtomicDone(g, d, limit)
    ensures RefsBut(d) && RootsIn(d, Alive(d)) && FewerHeap(d.heap, g.heap) && MetasFrom(g, Marks(g), d, Alive(d))
    ensures Shaped(d)
  {
  }

  // ----- The store -----

  lemma StoreExactly(s0: G, s1: G, mid: G, t: Ref, mt: TValue, limit: set<Ref>)
    requires Inv(s0) && KeepInvariant(s0.gcstate) && MetasMarked(s0) && t in s0.heap && s0.heap[t].Table?
    requires s1.heap == s0.heap[t := WithMeta(s0.heap[t], mt)] && s1.allweak == s0.allweak && Marks(s0) <= Marks(s1)
    requires AtomicDone(s1, mid, limit)
    ensures MetasReached(mid) <==> (ParkedWeak(s0, t) && Reachable(mid, t) ==> In(mt, Alive(mid)))
  {
    hide Inv, AtomicDone, Reachable, ParkedWeak, Shaped;
    DoneParts(s1, mid, limit);
    assert Fewer(mid.heap[t], s1.heap[t]);
    if MetasReached(mid) && ParkedWeak(s0, t) && Reachable(mid, t) {
      ParkedKept(s0, s1, mid, t, limit);
      assert RefsIn(mid.heap, mid.upvals, Seen(mid, t), Alive(mid));
    }
    if ParkedWeak(s0, t) && Reachable(mid, t) ==> In(mt, Alive(mid)) {
      forall r | r in mid.allweak && r in mid.heap && mid.heap[r].Table? && Reachable(mid, r)
        ensures In(mid.heap[r].meta, Alive(mid))
      {
        if !In(mid.heap[r].meta, Alive(mid)) {
          assert r in s1.allweak && s1.heap[r].meta == mid.heap[r].meta && !In(s1.heap[r].meta, Marks(s1));
          AllWeakParked(s0, r);
        }
      }
    }
  }

  lemma ParkedKept(s0: G, s1: G, mid: G, t: Ref, limit: set<Ref>)
    requires ParkedWeak(s0, t) && Marks(s0) <= Marks(s1) && AtomicDone(s1, mid, limit) && t in s1.heap
    ensures t in Alive(mid) && t in mid.heap
  {
    assert t in Marks(s0);
    SameKeys(s1, mid);
  }

  /** Exactly when the store of a metatable during marking does harm, in every state whose parked
      tables have marked metatables: the table is gray and parked, the program can still reach it
      when marking ends, and by then nothing else has marked the metatable. 'start' is the state
      after the store. */
  method StoreThenCollect(g: GlobalState, t: Ref, mt: TValue, max: nat) returns (ghost start: G, ghost mid: G)
    requires Inv(g.Snap()) && KeepInvariant(g.gcstate) && MetasMarked(g.Snap()) && max > 0
    requires t in g.heap && g.heap[t].Table? && t in Alive(g.Snap()) && In(mt, Alive(g.Snap()))
    modifies g
    ensures start.heap == old(g.heap)[t := WithMeta(old(g.heap)[t], mt)] && AtomicDone(start, mid, start.heap.Keys)
    ensures SweptOut(mid, g.Snap()) && g.gcstate == CallFin
    ensures Safe(g.Snap()) <==> (ParkedWeak(old(g.Snap()), t) && Reachable(mid, t) ==> In(mt, Alive(mid)))
    ensures !ParkedWeak(old(g.Snap()), t) || In(mt, Marks(old(g.Snap()))) ==> Inv(g.Snap())
  {
    hide Inv, MetasMarked, Safe, MetasReached, AtomicDone, SweptOut, ParkedWeak, Reachable;
    ghost var s0 := g.Snap();
    SetTableMeta(g, t, mt);
    start := g.Snap();
    mid := CollectOut(g, max);
    StoreExactly(s0, start, mid, t, mt, start.heap.Keys);
  }
}
