/** The mark states of 'singlestep', the end of a cycle, and 'singlestep' itself. */
module LgcCycle {
  import opened LgcHeap
  import opened LgcGrow
  import opened LgcMark
  import opened LgcPropagate
  import opened LgcWeak
  import opened LgcConverge
  import opened LgcRemark
  import opened LgcAtomic
  import opened LgcInv
  import opened LgcSweep
  import opened LgcStep

  /** 'restartcollection' empties the gray lists. */
  function Emptied(g: G): G {
    g.(gray := [], grayagain := [], weak := [], allweak := [], ephemeron := [])
  }

  function Begun(g: G): G {
    if g.gcstate == Pause then Emptied(g) else g
  }

  /** An upper bound for what the running cycle, or the next one, may mark. */
  ghost predicate LimitOK(g: G, limit: set<Ref>) {
    && Bound(Begun(g), limit) && Tight(Begun(g), limit) && RootsIn(g, limit) && FinIn(g, limit)
    && forall r :: r in g.fixedgc ==> r in limit
  }

  // ----- Restart -----

  lemma RestingReady(g: G, limit: set<Ref>)
    requires Core(g) && Resting(g) && Bound(Emptied(g), limit) && forall r :: r in g.fixedgc ==> r in limit
    ensures Ready(Emptied(g), limit) && Alive(g) == g.heap.Keys && g.marked.Keys == g.heap.Keys
  {
    SameWf(g, Emptied(g));
    forall r | r in g.heap ensures r in Alive(g) {}
    forall r | r in Marks(g) ensures r in limit { assert IsString(g.heap, r); }
  }

  /** Marking does not depend on the collector state. */
  lemma GrowState(g: G, d: G, st: GcState, limit: set<Ref>)
    requires Grow(g, d, {}, limit)
    ensures Grow(g.(gcstate := st), d.(gcstate := st), {}, limit)
  {
    hide FewerHeap, TouchUps;
    var g', d' := g.(gcstate := st), d.(gcstate := st);
    assert Added(g', d') == Added(g, d);
    forall r ensures NewlyGray(g', d', r) <==> NewlyGray(g, d, r) {}
  }

  lemma StartMarking(g: G, limit: set<Ref>)
    requires Core(g) && Resting(g) && Bound(Emptied(g), limit) && forall r :: r in g.fixedgc ==> r in limit
    ensures var d := Emptied(g);
            Ready(d, limit) && Marking(d.(gcstate := Propagate), {}, [], [], false)
  {
    RestingReady(g, limit);
    var d := Emptied(g).(gcstate := Propagate);
    forall r | r in d.marked && d.marked[r].Black? && r in d.heap
      ensures BlackIn(d.heap, d.upvals, d.heap[r], Marks(d), false)
    {
      assert IsString(g.heap, r);
    }
    assert NoDups(d.gray + []);
    forall r ensures !Idle(d, {}, [], r) {
      assert r in d.heap && r in d.marked && d.marked[r].Gray? ==> IsString(g.heap, r);
    }
    assert NoGrayUdata(d) by {
      forall r | r in d.heap && r in d.marked && d.marked[r].Gray? ensures !d.heap[r].Udata? {
        assert IsString(g.heap, r);
      }
    }
  }

  lemma RootMarked(s0: G, s: G, d: G, limit: set<Ref>)
    requires Grow(s0, s, {}, limit) && Grow(s, d, {}, limit) && Ready(s, limit)
    requires Marking(s.(gcstate := Propagate), {}, [], [], false)
    ensures Grow(s0, d, {}, limit) && Ready(d, limit) && Marks(s) <= Marks(d)
    ensures Marking(d.(gcstate := Propagate), {}, [], [], false)
  {
    GrowTrans(s0, s, d, {}, {}, limit);
    GrowReady(s, d, {}, limit);
    GrowMarks(s, d, {}, limit);
    ReadyKeys(s, limit);
    GrowState(s, d, Propagate, limit);
    GrowMarking(s.(gcstate := Propagate), d.(gcstate := Propagate), {}, [], [], false, limit);
  }

  method EmptyLists(g: GlobalState)
    modifies g
    ensures g.Snap() == Emptied(old(g.Snap()))
  {
    g.gray, g.grayagain := [], [];
    g.weak, g.allweak, g.ephemeron := [], [], [];
  }

  /** 'restartcollection' */
  method RestartCollection(g: GlobalState, ghost limit: set<Ref>)
    requires Core(g.Snap()) && Resting(g.Snap()) && LimitOK(g.Snap(), limit) && g.gcstate == Pause
    modifies g
    ensures Grow(Emptied(old(g.Snap())), g.Snap(), {}, limit) && Ready(g.Snap(), limit)
    ensures Marking(g.Snap().(gcstate := Propagate), {}, [], [], false)
    ensures RootsIn(g.Snap().(running := g.mainthread), Marks(g.Snap()))
    ensures g.heap == old(g.heap) && g.upvals == old(g.upvals)
  {
    hide Ready, Marking, Grow, Marked, Core, Resting, Wf, Bound;
    ghost var s := g.Snap();
    StartMarking(s, limit);
    RestingReady(s, limit);
    RootsHere(s);
    EmptyLists(g);
    ghost var s0 := g.Snap();
    MarkGlobals(g, limit);
    ghost var s3 := g.Snap();
    GrowFacts(s0, s3, limit);
    MarkBeingFnz(g, limit);
    RootMarked(s0, s3, g.Snap(), limit);
    GrowFacts(s3, g.Snap(), limit);
  }

  /** Main thread, registry and basic metatables. */
  method MarkGlobals(g: GlobalState, ghost limit: set<Ref>)
    requires Ready(g.Snap(), limit) && Marking(g.Snap().(gcstate := Propagate), {}, [], [], false)
    requires RootsIn(g.Snap(), g.heap.Keys) && RootsIn(g.Snap(), limit)
    modifies g
    ensures Grow(old(g.Snap()), g.Snap(), {}, limit) && Ready(g.Snap(), limit)
    ensures Marking(g.Snap().(gcstate := Propagate), {}, [], [], false)
    ensures g.mainthread in Marks(g.Snap()) && In(g.registry, Marks(g.Snap())) && ValsIn(g.mt, Marks(g.Snap()))
    ensures g.heap == old(g.heap) && g.upvals == old(g.upvals)
  {
    hide Ready, Marking, Grow, Marked;
    ghost var s0 := g.Snap();
    GrowRefl(s0, limit);
    MarkValue(g, Coll(g.mainthread), limit);
    ghost var s1 := g.Snap();
    RootMarked(s0, s0, s1, limit);
    GrowFacts(s0, s1, limit);
    MarkValue(g, g.registry, limit);
    ghost var s2 := g.Snap();
    RootMarked(s0, s1, s2, limit);
    GrowFacts(s1, s2, limit);
    MarkValues(g, g.mt, limit);
    RootMarked(s0, s2, g.Snap(), limit);
    GrowFacts(s2, g.Snap(), limit);
  }

  lemma RootsHere(g: G)
    requires Core(g)
    ensures RootsIn(g, g.heap.Keys) && FinIn(g, g.heap.Keys) && Alive(g) <= g.heap.Keys
  {
  }

  /** d is g with other marks, lists of gray objects and table entries. */
  ghost predicate Remarked(g: G, d: G) {
    && FewerHeap(d.heap, g.heap) && TouchUps(d.upvals, g.upvals)
    && d == g.(heap := d.heap, upvals := d.upvals, marked := d.marked, gcstate := d.gcstate, gray := d.gray,
               grayagain := d.grayagain, weak := d.weak, allweak := d.allweak, ephemeron := d.ephemeron)
    && Marks(g) <= Marks(d) && Alive(g) <= Alive(d) && NoDead(g)
  }

  /** Core facts survive. */
  lemma MarkCore(g: G, d: G)
    requires Core(g) && Wf(d) && Remarked(g, d)
    ensures Core(d)
  {
    hide Wf, BitsOK, TwupsAlive, FewerHeap, TouchUps;
    assert d.heap.Keys == g.heap.Keys by { SameKeysOf(g, d); }
    MarkTwups(g, d);
    MarkBits(g, d);
  }

  lemma SameKeysOf(g: G, d: G)
    requires FewerHeap(d.heap, g.heap)
    ensures d.heap.Keys == g.heap.Keys
  {
  }

  lemma MarkTwups(g: G, d: G)
    requires TwupsAlive(g) && Remarked(g, d) && Wf(g)
    ensures TwupsAlive(d)
  {
    hide FewerHeap;
    forall u | u in d.upvals && d.upvals[u].Open? && d.upvals[u].th in Alive(d) ensures d.upvals[u].th in d.twups {
      assert TouchUp(d.upvals[u], g.upvals[u]);
      assert g.upvals[u].th in Alive(g);
    }
  }

  lemma MarkBits(g: G, d: G)
    requires BitsOK(g) && Remarked(g, d)
    ensures BitsOK(d)
  {
    forall r | r in g.heap ensures Fewer(d.heap[r], g.heap[r]) {}
    forall r | r in g.fixedgc ensures r in d.marked && !d.marked[r].White? {
      assert r in Marks(g) && r in Marks(d);
    }
  }

  lemma GrowCore(g: G, d: G, limit: set<Ref>)
    requires Core(g) && Ready(g, limit) && Grow(g, d, {}, limit)
    ensures Core(d)
  {
    GrowReady(g, d, {}, limit);
    GrowMarks(g, d, {}, limit);
    MarkCore(g, d);
  }

  lemma MainIsGray(g: G)
    requires Marking(g, {}, [], [], false) && g.gcstate == Propagate
    requires g.mainthread in g.heap && g.heap[g.mainthread].Thread? && g.mainthread in Marks(g)
    ensures g.gray != []
  {
    var m := g.mainthread;
    assert !g.marked[m].Black?;
    assert m !in g.gray <==> Idle(g, {}, [], m);
  }

  lemma LimitKept(g: G, d: G, limit: set<Ref>)
    requires LimitOK(g, limit) && Bound(d, limit) && Tight(d, limit) && d.gcstate != Pause && d.fixedgc == g.fixedgc
    requires d.mainthread == g.mainthread && d.running == g.running && d.registry == g.registry && d.mt == g.mt
    requires d.tobefnz == g.tobefnz && d.finobj == g.finobj
    ensures LimitOK(d, limit)
  {
  }

  /** 'GCSpause' */
  method PauseStep(g: GlobalState, ghost limit: set<Ref>)
    requires Inv(g.Snap()) && g.gcstate == Pause && LimitOK(g.Snap(), limit)
    modifies g
    ensures Inv(g.Snap()) && g.gcstate == Propagate && LimitOK(g.Snap(), limit) && Marks(g.Snap()) <= limit
    ensures Traced(old(g.Snap()), g.Snap()) && Tidy(g.Snap()) && g.heap == old(g.heap) && g.upvals == old(g.upvals)
    ensures RootsIn(g.Snap().(running := g.mainthread), Marks(g.Snap()))
    ensures Grow(Emptied(old(g.Snap())), g.Snap().(gcstate := Pause), {}, limit)
  {
    hide Core, Resting, Marking, Ready, Grow, LimitOK, Bound;
    ghost var s := g.Snap();
    RestartCollection(g, limit);
    ghost var m := g.Snap();
    GrowGray(Emptied(s), m, limit);
    g.gcstate := Propagate;
    PauseEnd(s, m, limit);
  }

  lemma GrowGray(g: G, d: G, limit: set<Ref>)
    requires Grow(g, d, {}, limit)
    ensures d.gcstate == g.gcstate && d.(gcstate := g.gcstate) == d
  {
  }

  lemma PauseEnd(s: G, m: G, limit: set<Ref>)
    requires Inv(s) && s.gcstate == Pause && LimitOK(s, limit)
    requires Grow(Emptied(s), m, {}, limit) && Ready(m, limit) && m.heap == s.heap
    requires Marking(m.(gcstate := Propagate), {}, [], [], false)
    requires RootsIn(m.(running := m.mainthread), Marks(m))
    ensures var d := m.(gcstate := Propagate);
            Inv(d) && LimitOK(d, limit) && Marks(d) <= limit && Traced(s, d) && Tidy(d)
  {
    hide Core, Marking, Grow, Bound, Wf;
    var d := m.(gcstate := Propagate);
    CoreState(s, Emptied(s));
    RestingReady(s, limit);
    StartMarking(s, limit);
    GrowCore(Emptied(s), m, limit);
    GrowFacts(Emptied(s), m, limit);
    CoreState(m, d);
    CoreMain(d);
    MainIsGray(d);
    assert AllWaiting(d) by { WaitingOf(d); }
    assert Bound(d, limit) by { BoundState(m, limit); }
    TightEmptied(s, m, limit);
    LimitKept(s, d, limit);
    TracedRefl(s);
    TracedEmptied(s, m, limit);
  }

  lemma TightEmptied(s: G, m: G, limit: set<Ref>)
    requires LimitOK(s, limit) && s.gcstate == Pause && Grow(Emptied(s), m, {}, limit) && m.heap == s.heap
    ensures Tight(m.(gcstate := Propagate), limit)
  {
    var e, d := Emptied(s), m.(gcstate := Propagate);
    TracedEmptied(s, m, limit);
    assert Tight(e, limit);
    hide Tight, LimitOK;
    GrowClean(e, m, limit);
    TightOn(e, d, limit);
  }

  lemma GrowClean(g: G, m: G, limit: set<Ref>)
    requires Grow(g, m, {}, limit) && m.heap == g.heap
    ensures var d := m.(gcstate := Propagate); Clean(g, d) && Traced(g, d) && TouchUps(d.upvals, g.upvals)
  {
    hide Grayed;
    GrowMarks(g, m, {}, limit);
    DeadKeysRefl(g.heap);
    forall u ensures UpValue(m.heap, m.upvals, u) == UpValue(g.heap, g.upvals, u) { SameUp(g.heap, g.upvals, m.heap, m.upvals, u); }
  }

  lemma CoreMain(g: G)
    requires Core(g)
    ensures g.mainthread in g.heap && g.heap[g.mainthread].Thread?
  {
  }

  lemma BoundState(g: G, limit: set<Ref>)
    requires Ready(g, limit)
    ensures Bound(g.(gcstate := Propagate), limit)
  {
  }

  lemma TracedEmptied(s: G, m: G, limit: set<Ref>)
    requires Grow(Emptied(s), m, {}, limit)
    ensures Traced(s, m.(gcstate := Propagate))
  {
    hide Grayed;
    GrowMarks(Emptied(s), m, {}, limit);
  }

  // ----- Propagate -----

  /** In a marking phase every object is alive and every reference is a possible mark. */
  lemma PhaseReady(g: G, limit: set<Ref>)
    requires Core(g) && MarkPhase(g) && g.gcstate != Pause && LimitOK(g, limit) && Marks(g) <= limit
    ensures Ready(g, limit) && g.marked.Keys == g.heap.Keys && Alive(g) == g.heap.Keys
    ensures TwupsComplete(g) && RootsIn(g, g.heap.Keys) && FinIn(g, g.heap.Keys)
    ensures forall r :: r in g.twups ==> r in g.marked
  {
  }

  lemma VisitCore(g: G, d: G, limit: set<Ref>)
    requires Core(g) && Ready(g, limit) && Ready(d, limit) && Visit(g, d) && g.gcstate != InsideAtomic
    ensures Core(d) && Traced(g, d)
  {
    hide Bound;
    assert d == g.(heap := d.heap, upvals := d.upvals, marked := d.marked, gray := d.gray, grayagain := d.grayagain,
                   weak := d.weak, allweak := d.allweak, ephemeron := d.ephemeron);
    assert Alive(g) == g.marked.Keys && Alive(d) == d.marked.Keys;
    MarkCore(g, d);
  }

  /** With nothing left on the gray list the fully weak tables wait as in the atomic phase. */
  lemma ToAtomic(g: G)
    requires Marking(g, {}, g.grayagain, [], false) && g.gcstate == Propagate
    ensures Marking(g.(gcstate := Atomic), {}, g.grayagain, [], false)
  {
    var d := g.(gcstate := Atomic);
    forall r | Idle(d, {}, g.grayagain, r) ensures Parked(d, r, [], Marks(d)) {
      assert Idle(g, {}, g.grayagain, r);
      assert Waiting(g, r, Marks(g));
    }
  }

  /** 'GCSpropagate' */
  method PropagateStep(g: GlobalState, ghost limit: set<Ref>)
    requires Inv(g.Snap()) && g.gcstate == Propagate && LimitOK(g.Snap(), limit) && Marks(g.Snap()) <= limit
    modifies g
    ensures Inv(g.Snap()) && g.gcstate == if g.gray == [] then Atomic else Propagate
    ensures LimitOK(g.Snap(), limit) && Marks(g.Snap()) <= limit && Traced(old(g.Snap()), g.Snap())
    ensures Clean(old(g.Snap()), g.Snap()) && TouchUps(g.upvals, old(g.upvals))
    ensures |Whites(g.Snap())| < |Whites(old(g.Snap()))| ||
            (|Whites(g.Snap())| == |Whites(old(g.Snap()))| && |g.gray| < |old(g.gray)|)
    ensures VisitsFirst(old(g.Snap()), g.Snap())
  {
    hide VisitsFirst, Core, Marking, Ready, Visit, LimitOK, Bound, Marked, Unmarked, Traced, Clean, TouchUps;
    ghost var s := g.Snap();
    PhaseReady(s, limit);
    PropagateMark(g, g.grayagain, [], limit);
    ghost var m := g.Snap();
    VisitState(s, m);
    CleanVisit(s, m);
    VisitTouched(s, m);
    if g.gray == [] {
      ToAtomic(m);
      g.gcstate := Atomic;
    }
    VisitsState(s, m, g.gcstate);
    CleanSame(m, g.Snap());
    CleanTrans(s, m, g.Snap());
    PropagateEnd(s, m, g.Snap(), limit);
  }

  lemma PropagateEnd(s: G, m: G, d: G, limit: set<Ref>)
    requires Core(s) && MarkPhase(s) && s.gcstate == Propagate && LimitOK(s, limit) && Marks(s) <= limit
    requires Ready(m, limit) && Visit(s, m) && Clean(s, m) && Marking(m, {}, m.grayagain, [], false)
    requires d == m.(gcstate := if m.gray == [] then Atomic else Propagate)
    ensures Inv(d) && LimitOK(d, limit) && Marks(d) <= limit && Traced(s, d)
  {
    hide Core, Marking, Bound, Wf, Visit, Traced, LimitOK, Ready, Marked, NoDead, Tight, Clean, TouchUps;
    PhaseReady(s, limit);
    VisitCore(s, m, limit);
    LimitTight(s, limit);
    VisitTouched(s, m);
    TightOn(s, m, limit);
    TightState(m, d, limit);
    VisitWeak(s, m);
    CoreState(m, d);
    if m.gray == [] { ToAtomic(m); } else { assert d == m; }
    WaitingOf(m);
    WaitingState(m, d);
    BoundAny(m, d, limit);
    LimitKept(s, d, limit);
    TracedState(s, m, d);
    TracedFacts(s, d);
  }

  lemma VisitsState(g: G, d: G, st: GcState)
    requires VisitsFirst(g, d)
    ensures VisitsFirst(g, d.(gcstate := st))
  {
  }

  lemma VisitTouched(g: G, d: G)
    requires Visit(g, d)
    ensures TouchUps(d.upvals, g.upvals)
  {
  }

  lemma LimitTight(g: G, limit: set<Ref>)
    requires LimitOK(g, limit) && g.gcstate != Pause
    ensures Tight(g, limit)
  {
  }

  lemma TightState(g: G, d: G, limit: set<Ref>)
    requires Tight(g, limit) && d == g.(gcstate := d.gcstate)
    ensures Tight(d, limit)
  {
    if NothingDead(g) {
      forall s, r | Seed(d, s) && r in d.finobj ensures r in s { assert Seed(g, s); }
    }
  }

  lemma WaitingOf(g: G)
    requires Marking(g, {}, g.grayagain, [], false) && g.gcstate == Propagate
    ensures AllWaiting(g)
  {
  }

  lemma WaitingState(g: G, d: G)
    requires AllWaiting(g) && d == g.(gcstate := d.gcstate)
    ensures AllWaiting(d)
  {
    forall r | Idle(d, {}, d.grayagain, r) ensures Waiting(d, r, Marks(d)) {
      assert Idle(g, {}, g.grayagain, r);
    }
  }

  lemma VisitWeak(g: G, d: G)
    requires Visit(g, d) && g.gcstate == Propagate
    ensures d.weak == g.weak && d.ephemeron == g.ephemeron && d.sweepgc == g.sweepgc && d.mainthread == g.mainthread
    ensures d.running == g.running && d.registry == g.registry && d.mt == g.mt
    ensures d.tobefnz == g.tobefnz && d.finobj == g.finobj && d.gcstate == g.gcstate && d.fixedgc == g.fixedgc
  {
  }

  lemma TracedState(s: G, m: G, d: G)
    requires Traced(s, m) && d == m.(gcstate := d.gcstate)
    ensures Traced(s, d)
  {
  }

  lemma BoundAny(g: G, d: G, limit: set<Ref>)
    requires Ready(g, limit) && d == g.(gcstate := d.gcstate)
    ensures Bound(d, limit) && Marks(d) <= limit && NoDead(d)
  {
  }

  // ----- Atomic -----

  /** Separation keeps the order: of two objects that are both kept (or both separated), the one
      that was in front stays in front. */
  lemma SelectOrder(l: seq<Ref>, m: map<Ref, Color>, all: bool, want: bool, i: nat, j: nat) returns (a: nat, b: nat)
    requires i < j < |l| && Doomed(m, all, l[i]) == want && Doomed(m, all, l[j]) == want
    ensures a < b < |Select(l, m, all, want)|
    ensures Select(l, m, all, want)[a] == l[i] && Select(l, m, all, want)[b] == l[j]
  {
    var n := |l| - 1;
    if j < n {
      a, b := SelectOrder(l[..n], m, all, want, i, j);
    } else {
      b := |Select(l[..n], m, all, want)|;
      a := SelectHas(l[..n], m, all, want, i);
    }
  }

  lemma SelectHas(l: seq<Ref>, m: map<Ref, Color>, all: bool, want: bool, i: nat) returns (a: nat)
    requires i < |l| && Doomed(m, all, l[i]) == want
    ensures a < |Select(l, m, all, want)| && Select(l, m, all, want)[a] == l[i]
  {
    var n := |l| - 1;
    if i < n {
      a := SelectHas(l[..n], m, all, want, i);
    } else {
      a := |Select(l[..n], m, all, want)|;
    }
  }

  lemma SelectMultiset(l: seq<Ref>, m: map<Ref, Color>, all: bool)
    ensures multiset(Select(l, m, all, false)) + multiset(Select(l, m, all, true)) == multiset(l)
  {
    if l != [] {
      SelectMultiset(l[..|l| - 1], m, all);
      assert l == l[..|l| - 1] + [l[|l| - 1]];
    }
  }

  lemma AtomicCore(g: G, d: G, limit: set<Ref>)
    requires Core(g) && AtomicDone(g, d, limit)
    ensures Framed(d) && RefsBut(d)
  {
    hide Shaped, RefsBut, Fate, StrongClosed, Tidy, TouchedIn, WeakStrings;
    var s, m :| Strongly(g, d, s, m);
    SelectMultiset(g.finobj, m, false);
    assert multiset(d.tobefnz) == multiset(g.tobefnz) + multiset(Select(g.finobj, m, false, true));
    assert d.heap.Keys == g.heap.Keys;
    SelectBits(g, d, m);
  }

  lemma SelectBits(g: G, d: G, m: map<Ref, Color>)
    requires BitsOK(g) && FewerHeap(d.heap, g.heap) && d.marked.Keys == g.marked.Keys && Marks(g) <= Marks(d)
    requires d.finobj == Select(g.finobj, m, false, false) && d.tobefnz == g.tobefnz + Select(g.finobj, m, false, true)
    requires d.fin == g.fin && d.fixedgc == g.fixedgc && d.mainthread == g.mainthread
    requires forall r :: r in d.twups ==> r in g.twups || (r in d.heap && d.heap[r].Thread?)
    ensures BitsOK(d)
  {
    forall r | r in g.heap ensures Fewer(d.heap[r], g.heap[r]) {}
    forall r | r in g.fixedgc ensures r in Marks(g) {}
    SelectSplit(g.finobj, m);
  }

  lemma SelectSplit(l: seq<Ref>, m: map<Ref, Color>)
    ensures forall r :: r in l <==> r in Select(l, m, false, false) || r in Select(l, m, false, true)
  {
    if l != [] { SelectSplit(l[..|l| - 1], m); }
  }

  /** While marking: the metatables of the tables that were visited and wait in 'allweak' are
      marked. */
  ghost predicate MetasMarked(g: G) {
    g.gcstate.Propagate? || g.gcstate.Atomic? ==> MetasIn(g, Marks(g))
  }

  lemma TidyMetas(g: G)
    requires Tidy(g)
    ensures MetasIn(g, Marks(g)) && MetasMarked(g)
  {
  }

  /** 'GCSatomic': finish marking, flip the white, start sweeping. The invariant holds afterwards if
      the metatables of the tables in 'allweak' are alive. */
  method AtomicStep(g: GlobalState, ghost limit: set<Ref>)
    requires Inv(g.Snap()) && g.gcstate == Atomic && LimitOK(g.Snap(), limit) && Marks(g.Snap()) <= limit
    modifies g
    ensures Held(g.Snap()) && RefsBut(g.Snap()) && g.gcstate == SwpAllGc && Alive(g.Snap()) <= limit
    ensures MetasMarked(old(g.Snap())) ==> MetasAlive(g.Snap())
    ensures exists m :: AtomicDone(old(g.Snap()), m, limit) && Sweeps(m.(gcstate := SwpAllGc), g.Snap().(sweepgc := Null), AllGc)
  {
    hide Core, Marking, Ready, Visit, LimitOK, Bound, Marked, Unmarked, Traced, AtomicDone, Sweeps, Inv, Held, Framed, Clean, Tight, TouchUps,
      RefsBut, MetasAlive, MetasIn, MetasFrom;
    ghost var s := g.Snap();
    InvMark(s);
    PhaseReady(s, limit);
    PropagateAll(g, g.grayagain, [], limit);
    ghost var s1 := g.Snap();
    VisitState(s, s1);
    VisitCore(s, s1, limit);
    TracedFacts(s, s1);
    CleanVisit(s, s1);
    VisitTouched(s, s1);
    LimitTight(s, limit);
    TightOn(s, s1, limit);
    AtomicReady(s, s1, limit);
    AtomicPhase(g, limit);
    ghost var s2 := g.Snap();
    AtomicJoin(s, s1, s2, limit);
    AtomicCore(s1, s2, limit);
    AtomicFields(s1, s2, limit);
    EnterSweep(g);
    SweepsAlive(s2.(gcstate := SwpAllGc), g.Snap().(sweepgc := Null), AllGc);
    AtomicRefs(s, s2, g.Snap(), limit);
  }

  lemma AtomicRefs(s: G, m: G, d: G, limit: set<Ref>)
    requires AtomicDone(s, m, limit) && Framed(m) && RefsBut(m) && Sweeps(m.(gcstate := SwpAllGc), d.(sweepgc := Null), AllGc)
    ensures RefsBut(d) && MetasAlive(d) == MetasAlive(m) && (MetasIn(s, Marks(s)) ==> MetasAlive(d))
  {
    hide RefsBut, MetasAlive, MetasIn, MetasFrom, Sweeps, Shaped;
    if MetasIn(s, Marks(s)) { MetasFromIn(s, Marks(s), m); }
    var a, b := m.(gcstate := SwpAllGc), d.(sweepgc := Null);
    StateRefs(m, a);
    SameShaped(m, a);
    SweepsRefs(a, b, AllGc);
    StateRefs(b, d);
  }

  lemma InvMark(g: G)
    requires Inv(g) && (g.gcstate == Atomic || g.gcstate == Propagate)
    ensures Core(g) && MarkPhase(g)
  {
  }

  lemma AtomicReady(s: G, s1: G, limit: set<Ref>)
    requires Core(s1) && Traced(s, s1) && Ready(s1, limit) && LimitOK(s, limit) && s.mainthread in Marks(s)
    ensures TwupsComplete(s1) && (forall r :: r in s1.twups ==> r in s1.marked)
    ensures RootsIn(s1, s1.heap.Keys) && RootsIn(s1, limit) && s1.mainthread in Marks(s1)
    ensures FinIn(s1, s1.heap.Keys) && FinIn(s1, limit)
  {
    hide FewerHeap;
  }

  /** The marking before 'atomic' counts as part of it. */
  lemma AtomicJoin(s: G, s1: G, s2: G, limit: set<Ref>)
    requires Traced(s, s1) && Clean(s, s1) && TouchUps(s1.upvals, s.upvals) && AtomicDone(s1, s2, limit)
    ensures AtomicDone(s, s2, limit)
  {
    hide Shaped, RefsBut, MetasAlive, MetasIn, TwupsAlive, RootsIn, FinIn, Select, Fate, StrongClosed, Tidy, Clean, Marked,
      TouchedIn, WeakStrings, TouchUps;
    MetasClean(s, s1);
    FewerTrans(s.heap, s1.heap, s2.heap);
    var a, m :| Strongly(s1, s2, a, m);
    StronglyJoin(s, s1, s2, a, m);
    forall r | r in s1.heap ensures Fewer(s2.heap[r], s1.heap[r]) {}
  }

  lemma StronglyJoin(s: G, s1: G, s2: G, a: set<Ref>, m: map<Ref, Color>)
    requires Traced(s, s1) && Clean(s, s1) && TouchUps(s1.upvals, s.upvals) && Strongly(s1, s2, a, m)
    ensures Strongly(s, s2, a, m)
  {
    hide Select, Fate, StrongClosed, Tidy, Marked, FewerHeap, DeadKeys, TouchedIn, WeakStrings, TouchUps, NothingDead;
    TouchedBack(s, s1, a);
    WeakBack(s.heap, s1.heap, a, Marks(s2), Marks(s2)) by { CleanDead(s, s1); }
    SameStrings(s, s1);
    if NothingDead(s) { NothingDeadOn(s, s1); }
    if Tidy(s) {
      TidyClean(s, s1);
      StrongBack(s, s1, a);
    }
    FateBack(s.heap, s1.heap, s2.heap, a, Marks(s2));
  }

  lemma CleanDead(g: G, d: G)
    requires Clean(g, d)
    ensures DeadKeys(d.heap, g.heap)
  {
  }

  lemma FateBack(h: Heap, m: Heap, d: Heap, s1: set<Ref>, s: set<Ref>)
    requires DeadKeys(m, h) && Fate(m, d, s1, s)
    ensures Fate(h, d, s1, s)
  {
    forall r | r in h ensures h[r].Str? == m[r].Str? { assert DeadKeyObject(m[r], h[r]); }
    forall r | r in h ensures FateObject(h, d[r], h[r], s1, s) {
      assert DeadKeyObject(m[r], h[r]) && FateObject(m, d[r], m[r], s1, s);
      if h[r].Table? {
        forall i | 0 <= i < |h[r].arr| ensures FateVal(h, d[r].arr[i], h[r].arr[i], s1) {
          assert FateVal(m, d[r].arr[i], m[r].arr[i], s1);
        }
        forall i | 0 <= i < |h[r].nodes| ensures FateNode(h, d[r].nodes[i], h[r].nodes[i], s1, s) {
          assert DeadKeyNode(m[r].nodes[i], h[r].nodes[i]) && FateNode(m, d[r].nodes[i], m[r].nodes[i], s1, s);
        }
      }
    }
  }

  lemma AtomicFields(g: G, d: G, limit: set<Ref>)
    requires AtomicDone(g, d, limit)
    ensures d.sweepgc == g.sweepgc && Alive(d) <= limit
  {
  }

  lemma SweepsAlive(g: G, d: G, w: Which)
    requires Sweeps(g, d, w)
    ensures Alive(d) == Alive(g)
  {
  }

  // ----- Finalizers -----

  /** 'udata2finalize': the first object of 'tobefnz' becomes a normal object again. */
  method UData2Finalize(g: GlobalState) returns (o: Ref)
    requires Core(g.Snap()) && g.tobefnz != []
    modifies g
    ensures Core(g.Snap()) && o == old(g.tobefnz)[0] && o in Alive(g.Snap())
    ensures Finalized(old(g.Snap()), g.Snap())
    ensures old(Phase(g.Snap())) && (g.gcstate == CallFin || g.gcstate == Pause) ==> Phase(g.Snap())
  {
    hide Core, Finalized;
    ghost var s := g.Snap();
    FirstFinal(s);
    o := TakeFirst(g);
    FinalizedOf(s, g.Snap());
    FinalCore(s, g.Snap());
    FinalAlive(s, g.Snap());
    if g.gcstate == CallFin || g.gcstate == Pause { FinalPhase(s, g.Snap()); }
  }

  method TakeFirst(g: GlobalState) returns (o: Ref)
    requires g.tobefnz != []
    modifies g`tobefnz, g`allgc, g`fin, g`marked
    ensures o == old(g.tobefnz)[0] && g.tobefnz == old(g.tobefnz)[1..] && g.allgc == [o] + old(g.allgc)
    ensures g.fin == old(g.fin) - {o}
    ensures g.marked == if IsSweepPhase(g.gcstate) then old(g.marked)[o := White(g.cw)] else old(g.marked)
  {
    o := g.tobefnz[0];
    g.tobefnz := g.tobefnz[1..];
    g.allgc := [o] + g.allgc;
    g.fin := g.fin - {o};
    if IsSweepPhase(g.gcstate) {
      g.marked := g.marked[o := White(g.cw)];
    }
  }

  lemma FinalizedOf(g: G, d: G)
    requires g.tobefnz != [] && d == g.(tobefnz := d.tobefnz, allgc := d.allgc, fin := d.fin, marked := d.marked)
    requires var o := g.tobefnz[0];
             && d.tobefnz == g.tobefnz[1..] && d.allgc == [o] + g.allgc && d.fin == g.fin - {o}
             && d.marked == if IsSweepPhase(g.gcstate) then g.marked[o := White(g.cw)] else g.marked
    ensures Finalized(g, d)
  {
  }

  lemma FinalAlive(g: G, d: G)
    requires Finalized(g, d) && g.tobefnz[0] in Alive(g)
    ensures g.tobefnz[0] in Alive(d) && d.gcstate == g.gcstate
  {
  }

  lemma FinalPhase(g: G, d: G)
    requires Finalized(g, d) && (d.gcstate == CallFin || d.gcstate == Pause)
    ensures Phase(g) ==> Phase(d)
  {
  }

  predicate IsSweepPhase(st: GcState) {
    st.SwpAllGc? || st.SwpFinObj? || st.SwpToBeFnz? || st.SwpEnd?
  }

  ghost predicate Finalized(g: G, d: G) {
    && g.tobefnz != []
    && var o := g.tobefnz[0];
       d == g.(tobefnz := g.tobefnz[1..], allgc := [o] + g.allgc, fin := g.fin - {o},
               marked := if IsSweepPhase(g.gcstate) then g.marked[o := White(g.cw)] else g.marked)
  }

  lemma FirstFinal(g: G)
    requires Core(g) && g.tobefnz != []
    ensures var o := g.tobefnz[0]; o in Alive(g) && o in g.marked && o !in g.fixedgc && o !in g.tobefnz[1..] && o !in g.finobj
  {
    var o := g.tobefnz[0];
    assert o in g.tobefnz;
    OneList(g, o);
    InMultiset(g.fixedgc, o);
    InMultiset(g.finobj, o);
    InMultiset(g.tobefnz, o);
    InMultiset(g.tobefnz[1..], o);
    assert g.tobefnz == [o] + g.tobefnz[1..];
    assert multiset(g.tobefnz)[o] == 1 + multiset(g.tobefnz[1..])[o];
  }

  lemma FinalCore(g: G, d: G)
    requires Core(g) && Finalized(g, d)
    ensures Core(d)
  {
    hide Wf;
    var o := g.tobefnz[0];
    FirstFinal(g);
    assert g.tobefnz == [o] + g.tobefnz[1..];
    assert forall r :: r in g.tobefnz <==> r == o || r in g.tobefnz[1..];
    var w := if IsSweepPhase(g.gcstate) then Whitened(g, o) else g;
    if IsSweepPhase(g.gcstate) { WhitenedCore(g, o); }
    assert Core(w);
    assert d == w.(tobefnz := g.tobefnz[1..], allgc := [o] + g.allgc, fin := g.fin - {o});
    SameWf(w, d);
    assert TwupsAlive(d);
  }

  function Reversed(l: seq<Ref>): seq<Ref> {
    if l == [] then [] else Reversed(l[1..]) + [l[0]]
  }

  /** The first k objects of 'tobefnz' went to the front of 'allgc', one after the other. */
  ghost predicate FinalizedMany(g: G, d: G, k: nat) {
    && k <= |g.tobefnz|
    && d == g.(tobefnz := g.tobefnz[k..], allgc := Reversed(g.tobefnz[..k]) + g.allgc, fin := d.fin)
    && d.fin == set r | r in g.fin && r !in g.tobefnz[..k]
  }

  lemma ReversedNext(l: seq<Ref>, k: nat)
    requires k < |l|
    ensures Reversed(l[..k + 1]) == [l[k]] + Reversed(l[..k])
  {
    if k == 0 {
      assert l[..1] == [l[0]] && l[..0] == [];
    } else {
      ReversedNext(l[1..], k - 1);
      assert l[..k + 1][1..] == l[1..][..k] && l[..k][1..] == l[1..][..k - 1];
    }
  }

  lemma FinalizeNext(g: G, s: G, d: G, k: nat)
    requires FinalizedMany(g, s, k) && Finalized(s, d) && s.gcstate == CallFin
    ensures FinalizedMany(g, d, k + 1)
  {
    var o := g.tobefnz[k];
    assert s.tobefnz[0] == o && s.tobefnz[1..] == g.tobefnz[k + 1..];
    ReversedNext(g.tobefnz, k);
    assert g.tobefnz[..k + 1] == g.tobefnz[..k] + [o];
    assert d.allgc == Reversed(g.tobefnz[..k + 1]) + g.allgc;
  }

  /** 'runafewfinalizers'; the finalizers themselves are steps of the program. */
  method RunAFewFinalizers(g: GlobalState, n: nat)
    requires Inv(g.Snap()) && g.gcstate == CallFin
    modifies g
    ensures Inv(g.Snap())
    ensures FinalizedMany(old(g.Snap()), g.Snap(), if n < |old(g.tobefnz)| then n else |old(g.tobefnz)|)
  {
    hide Core, Phase, Finalized;
    ghost var s0 := g.Snap();
    var i := 0;
    assert s0.tobefnz[0..] == s0.tobefnz && s0.tobefnz[..0] == [];
    while g.tobefnz != [] && i < n
      invariant i <= n && i <= |s0.tobefnz| && FinalizedMany(s0, g.Snap(), i)
      invariant Core(g.Snap()) && Phase(g.Snap()) && g.gcstate == CallFin
      decreases |g.tobefnz|
    {
      ghost var s := g.Snap();
      var _ := UData2Finalize(g);
      FinalizeNext(s0, s, g.Snap(), i);
      i := i + 1;
    }
  }

  lemma RestPhase(g: G)
    requires Inv(g) && g.gcstate == CallFin
    ensures Inv(g.(gcstate := Pause))
  {
    hide Core;
    CoreState(g, g.(gcstate := Pause));
  }

  // ----- singlestep -----

  /** States in which marking is going on or about to start. */
  predicate Tracing(st: GcState) {
    st.Pause? || st.Propagate? || st.Atomic?
  }

  /** What one step does, state by state. */
  ghost predicate Stepped(g: G, d: G, max: nat, fins: nat, limit: set<Ref>) {
    match g.gcstate
    case Pause =>
      && d.gcstate == Propagate && d.heap == g.heap && d.upvals == g.upvals && Traced(g, d) && Tidy(d)
      && RootsIn(d.(running := d.mainthread), Marks(d)) && LimitOK(d, limit) && Marks(d) <= limit
      && Grow(Emptied(g), d.(gcstate := Pause), {}, limit)
    case Propagate =>
      && d.gcstate == (if d.gray == [] then Atomic else Propagate) && Traced(g, d) && Clean(g, d)
      && TouchUps(d.upvals, g.upvals) && VisitsFirst(g, d)
      && LimitOK(d, limit) && Marks(d) <= limit
      && (|Whites(d)| < |Whites(g)| || (|Whites(d)| == |Whites(g)| && |d.gray| < |g.gray|))
    case Atomic =>
      && d.gcstate == SwpAllGc && Alive(d) <= limit
      && exists m :: AtomicDone(g, m, limit) && Sweeps(m.(gcstate := SwpAllGc), d.(sweepgc := Null), AllGc)
    case SwpEnd => d == g.(gcstate := CallFin, marked := g.marked[g.mainthread := White(g.cw)])
    case CallFin =>
      if g.tobefnz != [] then FinalizedMany(g, d, if fins < |g.tobefnz| then fins else |g.tobefnz|)
      else d == g.(gcstate := Pause)
    case InsideAtomic => false
    case _ => SweptStep(g, d, max)
  }

  /** 'singlestep': 'max' bounds one sweep step and 'fins' the finalizers of one call. The atomic
      step keeps the invariant if the metatables of the tables that wait in 'allweak' are marked;
      a sweep does not need it. */
  method SingleStep(g: GlobalState, max: nat, fins: nat, ghost limit: set<Ref>)
    requires Held(g.Snap()) && (Inv(g.Snap()) || Sweeping(g.gcstate) || g.gcstate == SwpEnd)
    requires Tracing(g.gcstate) ==> LimitOK(g.Snap(), limit)
    requires g.gcstate == Propagate || g.gcstate == Atomic ==> Marks(g.Snap()) <= limit
    modifies g
    ensures Held(g.Snap()) && Stepped(old(g.Snap()), g.Snap(), max, fins, limit)
    ensures old(Inv(g.Snap())) && old(g.gcstate) != Atomic ==> Inv(g.Snap())
    ensures old(g.gcstate) == Atomic ==> RefsBut(g.Snap())
    ensures old(Inv(g.Snap())) && MetasMarked(old(g.Snap())) ==> Inv(g.Snap()) && MetasMarked(g.Snap())
  {
    hide VisitsFirst, Grow, Inv, Held, RefsAlive, RefsBut, MetasAlive, MetasIn, MetasFrom, LimitOK, AtomicDone, Sweeps, Traced, Clean, Tidy, Marked, Unmarked, Living, RootsIn, FinalizedMany, SweptStep, TouchUps;
    ghost var s := g.Snap();
    InvHeld(s);
    if g.gcstate == Pause {
      PauseStep(g, limit);
      TidyMetas(g.Snap());
    } else if g.gcstate == Propagate {
      PropagateStep(g, limit);
      MetasClean(s, g.Snap());
    } else if g.gcstate == Atomic {
      AtomicStep(g, limit);
      RefsWhole(g.Snap());
    } else if Sweeping(g.gcstate) {
      SweepStep(g, max);
      SweptParts(s, g.Snap(), max);
      SweptRefs(s, g.Snap());
    } else if g.gcstate == SwpEnd {
      EndSweep(g);
      EndRefs(s, g.Snap());
    } else if g.gcstate == CallFin {
      if g.tobefnz != [] {
        RunAFewFinalizers(g, fins);
        ManyState(s, g.Snap(), if fins < |s.tobefnz| then fins else |s.tobefnz|);
      } else {
        RestPhase(g.Snap());
        g.gcstate := Pause;
      }
    } else {
      NotInside(g.Snap());
    }
    InvHeld(g.Snap());
  }

  lemma SweptParts(g: G, d: G, max: nat)
    requires SweptStep(g, d, max) && Sweeping(g.gcstate)
    ensures Swept(g, d) && (Sweeping(d.gcstate) || d.gcstate == SwpEnd)
  {
    hide Rest, Swept;
  }

  lemma ManyState(g: G, d: G, k: nat)
    requires FinalizedMany(g, d, k)
    ensures d.gcstate == g.gcstate
  {
  }

  lemma NotInside(g: G)
    requires Held(g)
    ensures g.gcstate != InsideAtomic
  {
  }

  /** The set of all objects bounds any cycle. */
  lemma NoLimit(g: G)
    requires Inv(g) && Tracing(g.gcstate)
    ensures LimitOK(g, g.heap.Keys) && Marks(g) <= g.heap.Keys
  {
    if g.gcstate == Pause {
      forall r | r in g.heap ensures r in Alive(g) {}
    }
    assert Alive(g) == g.heap.Keys;
    forall r | r in g.heap ensures StrongIn(g.heap, g.upvals, g.heap[r], g.heap.Keys) {
      assert RefsIn(g.heap, g.upvals, g.heap[r], Alive(g));
    }
    forall u | u in g.upvals && g.upvals[u].Open? ensures In(UpValue(g.heap, g.upvals, u), g.heap.Keys) {
      var th := g.upvals[u].th;
      assert RefsIn(g.heap, g.upvals, g.heap[th], Alive(g));
    }
  }
}
