/** The write barriers of lgc.c and lgc.h. */
module LgcBarrier {
  import opened LgcHeap
  import opened LgcGrow
  import opened LgcMark
  import opened LgcPropagate
  import opened LgcAtomic
  import opened LgcInv
  import opened LgcSweep
  import opened LgcStep
  import opened LgcCycle

  /** 'keepinvariant' */
  predicate KeepInvariant(st: GcState) {
    st.Propagate? || st.Atomic?
  }

  /** MarkPhase, with objects of x left out of the main invariant. */
  ghost predicate MarkPhaseBut(g: G, x: set<Ref>) {
    && NoDead(g) && Tri(g, x, false) && Queued(g, {}, g.grayagain, []) && AllWaiting(g)
    && g.mainthread in Marks(g) && g.weak == [] && g.ephemeron == [] && g.sweepgc == Null
    && (g.gcstate == Propagate ==> g.gray != [])
  }

  /** The invariant, while the references of objects in x are being changed. */
  ghost predicate InvBut(g: G, x: set<Ref>) {
    Core(g) && if KeepInvariant(g.gcstate) then MarkPhaseBut(g, x) else Phase(g)
  }

  /** Nothing changed but marks, and gray lists other than 'allweak'. */
  ghost predicate Steady(g: G, d: G) {
    && d.heap == g.heap && d.gcstate == g.gcstate && d.allweak == g.allweak && Alive(g) <= Alive(d)
    && (KeepInvariant(g.gcstate) ==> Marks(g) <= Marks(d))
  }

  lemma SteadyMetas(g: G, d: G)
    requires Steady(g, d) && MetasMarked(g)
    ensures MetasMarked(d)
  {
  }

  lemma MetasFrame(g: G, d: G)
    requires d.gcstate == g.gcstate && d.allweak == g.allweak && (KeepInvariant(g.gcstate) ==> Marks(g) <= Marks(d))
    requires forall r :: r in d.allweak && r in d.heap && d.heap[r].Table? ==>
               r in g.heap && g.heap[r].Table? && g.heap[r].meta == d.heap[r].meta
    ensures MetasMarked(g) ==> MetasMarked(d)
  {
  }

  lemma GrowSteady(g: G, d: G, limit: set<Ref>)
    requires Grow(g, d, {}, limit) && d.heap == g.heap
    ensures Steady(g, d)
  {
    GrowMarks(g, d, {}, limit);
  }

  /** Object p may refer to v now; its other references respect the main invariant. */
  ghost predicate BlackBut(g: G, p: Ref, v: TValue) {
    KeepInvariant(g.gcstate) && p in g.heap && p in g.marked && g.marked[p].Black? ==>
      BlackIn(g.heap, g.upvals, g.heap[p], Marks(g) + RefOf(v), false)
  }

  /** The exception is not needed: p is not black or v is marked. */
  lemma Restored(g: G, p: Ref, v: TValue)
    requires InvBut(g, {p}) && BlackBut(g, p, v)
    requires KeepInvariant(g.gcstate) && p in g.marked && g.marked[p].Black? ==> In(v, Marks(g))
    ensures Inv(g)
  {
    assert In(v, Marks(g)) ==> Marks(g) + RefOf(v) == Marks(g);
  }

  lemma ButReady(g: G, x: set<Ref>)
    requires InvBut(g, x) && KeepInvariant(g.gcstate)
    ensures Ready(g, g.heap.Keys) && g.marked.Keys == g.heap.Keys && Alive(g) == g.heap.Keys
  {
    forall r | r in g.heap ensures StrongIn(g.heap, g.upvals, g.heap[r], g.heap.Keys) {
      assert RefsIn(g.heap, g.upvals, g.heap[r], Alive(g));
    }
    forall u | u in g.upvals && g.upvals[u].Open? ensures In(UpValue(g.heap, g.upvals, u), g.heap.Keys) {
      var th := g.upvals[u].th;
      assert RefsIn(g.heap, g.upvals, g.heap[th], Alive(g));
    }
  }

  lemma GrowBut(g: G, d: G, x: set<Ref>)
    requires InvBut(g, x) && KeepInvariant(g.gcstate) && Grow(g, d, {}, g.heap.Keys)
    ensures InvBut(d, x) && Marks(g) <= Marks(d) && d.gcstate == g.gcstate
  {
    hide Core, Queued, Tri, Wf;
    ButReady(g, x);
    GrowCore(g, d, g.heap.Keys);
    GrowReady(g, d, {}, g.heap.Keys);
    GrowMarks(g, d, {}, g.heap.Keys);
    GrowTri(g, d, g.heap.Keys, x, false);
    GrowQueued(g, d, {}, g.grayagain, [], g.heap.Keys);
    GrowWaiting(g, d, g.heap.Keys);
    assert Grayed(g, d);
  }

  lemma GrowBlackBut(g: G, d: G, p: Ref, v: TValue, limit: set<Ref>)
    requires BlackBut(g, p, v) && Grow(g, d, {}, limit) && p in g.heap && p in g.marked && !g.marked[p].White?
    ensures BlackBut(d, p, v)
  {
    if KeepInvariant(g.gcstate) && g.marked[p].Black? {
      GrowMarks(g, d, {}, limit);
      assert Fewer(d.heap[p], g.heap[p]);
      BlackMono(g.heap, g.upvals, g.heap[p], Marks(g) + RefOf(v), Marks(d) + RefOf(v), false);
      FewerBlack(g.heap, g.upvals, d.heap, d.upvals, g.heap[p], d.heap[p], Marks(d) + RefOf(v), false);
    }
  }

  // ----- In a sweep phase -----

  lemma WhiterPhase(g: G, d: G)
    requires Phase(g) && !KeepInvariant(g.gcstate)
    requires d == g.(marked := d.marked, grayagain := d.grayagain) && d.marked.Keys == g.marked.Keys
    requires forall r :: r in g.marked && g.marked[r] == White(g.cw) ==> d.marked[r] == White(g.cw)
    requires forall r :: r in g.fixedgc ==> r in g.marked && d.marked[r] == g.marked[r]
    ensures Phase(d)
  {
  }

  /** 'luaC_barrier_': marks v while the invariant must be kept, otherwise whitens p. */
  method BarrierForward(g: GlobalState, p: Ref, v: Ref)
    requires InvBut(g.Snap(), {p}) && BlackBut(g.Snap(), p, Coll(v))
    requires p in g.heap && p in g.marked && g.marked[p].Black? && !g.heap[p].Str?
    requires v in Alive(g.Snap()) && g.marked[v].White? && p in Alive(g.Snap())
    modifies g
    ensures Inv(g.Snap()) && g.upvals == old(g.upvals) && Steady(old(g.Snap()), g.Snap())
    ensures Forwarded(old(g.Snap()), g.Snap(), p, Coll(v))
  {
    hide InvBut, BlackBut, Core, Queued, Tri, Grow;
    ghost var s := g.Snap();
    if KeepInvariant(g.gcstate) {
      ButReady(s, {p});
      ReallyMarkObject(g, v, g.heap.Keys);
      GrowSteady(s, g.Snap(), s.heap.Keys);
      GrowBut(s, g.Snap(), {p});
      GrowBlackBut(s, g.Snap(), p, Coll(v), s.heap.Keys);
      Restored(g.Snap(), p, Coll(v));
    } else {
      g.marked := g.marked[p := White(g.cw)];
      WhitenBlack(s, p);
      WhitenedAlive(s, p);
    }
  }

  lemma WhitenBlack(g: G, p: Ref)
    requires InvBut(g, {p}) && !KeepInvariant(g.gcstate)
    requires p in g.heap && p in g.marked && g.marked[p].Black? && !g.heap[p].Str? && p in Alive(g)
    ensures Inv(Whitened(g, p))
  {
    hide Wf, TwupsAlive;
    assert p !in g.fixedgc;
    WhitenedCore(g, p);
    WhiterPhase(g, Whitened(g, p));
  }

  /** The condition of the barriers. */
  predicate BlackToWhite(g: G, p: Ref, v: TValue) {
    v.Coll? && p in g.marked && g.marked[p].Black? && v.ref in g.marked && g.marked[v.ref].White?
  }

  /** What the forward barrier does: v gets marked, or p swept. */
  ghost predicate Forwarded(g: G, d: G, p: Ref, v: TValue) {
    && d.heap == g.heap && d.upvals == g.upvals
    && if KeepInvariant(g.gcstate) then Grow(g, d, {}, g.heap.Keys) && In(v, Marks(d))
       else d == g.(marked := g.marked[p := White(g.cw)])
  }

  ghost predicate Barriered(g: G, d: G, p: Ref, v: TValue) {
    if BlackToWhite(g, p, v) then Forwarded(g, d, p, v) else d == g
  }

  /** What the backward barrier does. */
  function Regrayed(g: G, t: Ref, v: TValue): G {
    if BlackToWhite(g, t, v) then g.(marked := g.marked[t := Gray], grayagain := [t] + g.grayagain) else g
  }

  /** 'luaC_barrier', 'luaC_objbarrier': nothing happens unless p is black and v is white. */
  method Barrier(g: GlobalState, p: Ref, v: TValue)
    requires InvBut(g.Snap(), {p}) && BlackBut(g.Snap(), p, v)
    requires p in g.heap && p in Alive(g.Snap()) && !g.heap[p].Str? && In(v, Alive(g.Snap()))
    modifies g
    ensures Inv(g.Snap()) && g.upvals == old(g.upvals) && Steady(old(g.Snap()), g.Snap())
    ensures Barriered(old(g.Snap()), g.Snap(), p, v)
    ensures !(v.Coll? && old(g.marked)[p].Black? && old(g.marked)[v.ref].White?) ==> g.Snap() == old(g.Snap())
  {
    hide InvBut, BlackBut, Core;
    AliveMarked(g.Snap(), p);
    if v.Coll? { AliveMarked(g.Snap(), v.ref); }
    if v.Coll? && g.marked[p].Black? && g.marked[v.ref].White? {
      BarrierForward(g, p, v.ref);
    } else {
      Restored(g.Snap(), p, v);
    }
  }

  lemma AliveMarked(g: G, r: Ref)
    requires r in Alive(g)
    ensures r in g.marked
  {
  }

  /** 'luaC_barrierback': a black table that got a white value is gray again, to be revisited. */
  method BarrierBack(g: GlobalState, t: Ref, v: TValue)
    requires InvBut(g.Snap(), {t}) && BlackBut(g.Snap(), t, v)
    requires t in g.heap && t in Alive(g.Snap()) && g.heap[t].Table? && In(v, Alive(g.Snap()))
    modifies g
    ensures Inv(g.Snap()) && g.upvals == old(g.upvals) && Steady(old(g.Snap()), g.Snap())
    ensures g.Snap() == Regrayed(old(g.Snap()), t, v)
    ensures if v.Coll? && old(g.marked)[t].Black? && old(g.marked)[v.ref].White?
            then g.marked == old(g.marked)[t := Gray] && g.grayagain == [t] + old(g.grayagain)
            else g.Snap() == old(g.Snap())
  {
    hide InvBut, BlackBut, Core;
    ghost var s := g.Snap();
    AliveMarked(s, t);
    if v.Coll? { AliveMarked(s, v.ref); }
    if v.Coll? && g.marked[t].Black? && g.marked[v.ref].White? {
      g.marked := g.marked[t := Gray];
      g.grayagain := [t] + g.grayagain;
      assert Marks(g.Snap()) == Marks(s) && Alive(g.Snap()) == Alive(s);
      GrayAgain(s, t);
    } else {
      Restored(s, t, v);
    }
  }

  lemma GrayAgain(g: G, t: Ref)
    requires InvBut(g, {t}) && t in g.heap && t in g.marked && g.marked[t].Black? && g.heap[t].Table?
    ensures Inv(g.(marked := g.marked[t := Gray], grayagain := [t] + g.grayagain))
  {
    hide Wf, Pos, Queued, AllWaiting;
    var d := g.(marked := g.marked[t := Gray], grayagain := [t] + g.grayagain);
    assert Alive(d) == Alive(g) && Marks(d) == Marks(g);
    assert Wf(d) by { GrayWf(g, d); }
    assert TwupsAlive(d);
    assert Core(d);
    if KeepInvariant(g.gcstate) {
      assert Tri(d, {}, false);
      GrayQueues(g, d, t);
    } else {
      WhiterPhase(g, d);
    }
  }

  lemma GrayQueues(g: G, d: G, t: Ref)
    requires Queued(g, {}, g.grayagain, []) && AllWaiting(g) && t in g.heap && t in g.marked && g.marked[t].Black? && g.heap[t].Table?
    requires d == g.(marked := g.marked[t := Gray], grayagain := [t] + g.grayagain) && KeepInvariant(g.gcstate)
    requires g.weak == [] && g.ephemeron == []
    ensures Queued(d, {}, d.grayagain, []) && AllWaiting(d)
  {
    assert Marks(d) == Marks(g);
    assert t !in g.gray && t !in g.grayagain;
    SettledLists(g, t, g.grayagain, d.grayagain);
    forall r | Idle(d, {}, d.grayagain, r) ensures Waiting(d, r, Marks(d)) && Parked(d, r, [], Marks(d)) {
      assert Idle(g, {}, g.grayagain, r);
    }
  }

  lemma GrayWf(g: G, d: G)
    requires Wf(g) && d.heap == g.heap && d.upvals == g.upvals && d.top == g.top && Alive(d) == Alive(g) && d.marked.Keys == g.marked.Keys
    ensures Wf(d)
  {
  }

  /** The invariant, but for the references of black closures to the value of closed upvalue u. */
  ghost predicate UpvalBut(g: G, u: UpRef) {
    && Core(g) && u in g.upvals && g.upvals[u].Closed?
    && if KeepInvariant(g.gcstate) then
         && NoDead(g) && Tri(Without(g, u), {}, false) && Queued(g, {}, g.grayagain, []) && AllWaiting(g)
         && g.mainthread in Marks(g) && g.weak == [] && g.ephemeron == [] && g.sweepgc == Null
         && (g.gcstate == Propagate ==> g.gray != [])
       else Phase(g)
  }

  /** The same state with nothing in upvalue u. */
  function Without(g: G, u: UpRef): G {
    g.(upvals := g.upvals[u := Closed(Nil)])
  }

  lemma UpvalDone(g: G, u: UpRef)
    requires u in g.upvals && g.upvals[u].Closed? && In(g.upvals[u].v, Marks(g)) && Tri(Without(g, u), {}, false)
    ensures Tri(g, {}, false)
  {
    var w := Without(g, u);
    forall r | r in g.marked && g.marked[r].Black? && r in g.heap
      ensures BlackIn(g.heap, g.upvals, g.heap[r], Marks(g), false)
    {
      assert BlackIn(w.heap, w.upvals, w.heap[r], Marks(w), false);
      if g.heap[r].LCl? {
        forall i | 0 <= i < |g.heap[r].ups| ensures UpIn(g.heap, g.upvals, g.heap[r].ups[i], Marks(g), false) {
          assert UpIn(w.heap, w.upvals, w.heap[r].ups[i], Marks(w), false);
        }
      }
    }
  }

  lemma GrowWithout(g: G, d: G, u: UpRef, limit: set<Ref>)
    requires Grow(g, d, {}, limit) && d.upvals == g.upvals && Tri(Without(g, u), {}, false)
    ensures Tri(Without(d, u), {}, false)
  {
    hide Recolored, FewerHeap;
    var g', d' := Without(g, u), Without(d, u);
    assert Added(g', d') == Added(g, d);
    forall r ensures NewlyGray(g', d', r) <==> NewlyGray(g, d, r) {}
    assert Recolored(g', d', limit) by { RecoloredWithout(g, d, u, limit); }
    GrowTri(g', d', limit, {}, false);
  }

  lemma RecoloredWithout(g: G, d: G, u: UpRef, limit: set<Ref>)
    requires Recolored(g, d, limit)
    ensures Recolored(Without(g, u), Without(d, u), limit)
  {
  }

  lemma UpvalReady(g: G, u: UpRef)
    requires UpvalBut(g, u) && KeepInvariant(g.gcstate)
    ensures Ready(g, g.heap.Keys) && g.marked.Keys == g.heap.Keys && Alive(g) == g.heap.Keys
  {
    forall r | r in g.heap ensures StrongIn(g.heap, g.upvals, g.heap[r], g.heap.Keys) {
      assert RefsIn(g.heap, g.upvals, g.heap[r], Alive(g));
    }
    forall v | v in g.upvals && g.upvals[v].Open? ensures In(UpValue(g.heap, g.upvals, v), g.heap.Keys) {
      var th := g.upvals[v].th;
      assert RefsIn(g.heap, g.upvals, g.heap[th], Alive(g));
    }
  }

  lemma UpvalMarked(g: G, d: G, u: UpRef)
    requires UpvalBut(g, u) && KeepInvariant(g.gcstate) && Grow(g, d, {}, g.heap.Keys) && d.upvals == g.upvals
    requires In(g.upvals[u].v, Marks(d))
    ensures Inv(d)
  {
    hide Core, Queued, Tri, Wf;
    UpvalReady(g, u);
    GrowCore(g, d, g.heap.Keys);
    GrowReady(g, d, {}, g.heap.Keys);
    GrowMarks(g, d, {}, g.heap.Keys);
    GrowQueued(g, d, {}, g.grayagain, [], g.heap.Keys);
    GrowWaiting(g, d, g.heap.Keys);
    GrowWithout(g, d, u, g.heap.Keys);
    UpvalDone(d, u);
    assert Grayed(g, d);
  }

  /** 'luaC_upvalbarrier': closures that share the upvalue may be black, so its value is marked. */
  method UpvalBarrier(g: GlobalState, u: UpRef)
    requires UpvalBut(g.Snap(), u) && In(g.upvals[u].v, Alive(g.Snap()))
    modifies g
    ensures Inv(g.Snap()) && g.upvals == old(g.upvals) && Steady(old(g.Snap()), g.Snap())
    ensures if KeepInvariant(old(g.gcstate))
            then Grow(old(g.Snap()), g.Snap(), {}, old(g.heap).Keys) && In(g.upvals[u].v, Marks(g.Snap()))
            else g.Snap() == old(g.Snap())
  {
    hide Core, Queued, Tri, Grow, Phase;
    ghost var s := g.Snap();
    GrowRefl(s, g.heap.Keys);
    if KeepInvariant(g.gcstate) {
      UpvalReady(s, u);
      if g.upvals[u].v.Coll? { MarkValue(g, g.upvals[u].v, g.heap.Keys); }
      GrowSteady(s, g.Snap(), s.heap.Keys);
      UpvalMarked(s, g.Snap(), u);
    }
  }
}
