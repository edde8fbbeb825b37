/** 'atomic': the end of the mark phase. */
module LgcAtomic {
  import opened LgcHeap
  import opened LgcGrow
  import opened LgcMark
  import opened LgcTraverse
  import opened LgcPropagate
  import opened LgcWeak
  import opened LgcConverge
  import opened LgcRemark

  // ----- separatetobefnz -----

  predicate Doomed(m: map<Ref, Color>, all: bool, r: Ref) {
    all || (r in m && m[r].White?)
  }

  /** The objects of l that stay in 'finobj' (want == false) or go to 'tobefnz', in order. */
  function Select(l: seq<Ref>, m: map<Ref, Color>, all: bool, want: bool): seq<Ref> {
    if l == [] then []
    else
      var n := |l| - 1;
      Select(l[..n], m, all, want) + (if Doomed(m, all, l[n]) == want then [l[n]] else [])
  }

  /** 'separatetobefnz': walks 'finobj' and moves objects to the end of 'tobefnz'. */
  method SeparateToBeFnz(g: GlobalState, all: bool)
    modifies g`finobj, g`tobefnz
    ensures g.finobj == Select(old(g.finobj), g.marked, all, false)
    ensures g.tobefnz == old(g.tobefnz) + Select(old(g.finobj), g.marked, all, true)
  {
    ghost var l := g.finobj;
    ghost var k := 0;
    var p := 0;
    assert l[..0] == [] && g.tobefnz == g.tobefnz + [];
    while p < |g.finobj|
      invariant 0 <= p <= |g.finobj| && 0 <= k <= |l| && g.finobj[p..] == l[k..]
      invariant g.finobj[..p] == Select(l[..k], g.marked, all, false)
      invariant g.tobefnz == old(g.tobefnz) + Select(l[..k], g.marked, all, true)
      decreases |g.finobj| - p
    {
      var curr := g.finobj[p];
      SelectNext(l, g.marked, all, k);
      assert l[k] == g.finobj[p..][0] && g.finobj[p + 1..] == l[k + 1..];
      if !all && !(curr in g.marked && g.marked[curr].White?) {
        assert g.finobj[..p + 1] == g.finobj[..p] + [curr];
        p := p + 1;
      } else {
        RemoveAt(g.finobj, p);
        g.finobj := g.finobj[..p] + g.finobj[p + 1..];
        g.tobefnz := g.tobefnz + [curr];
      }
      k := k + 1;
    }
    assert l[..|l|] == l && g.finobj[..p] == g.finobj;
  }

  lemma SelectNext(l: seq<Ref>, m: map<Ref, Color>, all: bool, k: nat)
    requires k < |l|
    ensures forall want :: Select(l[..k + 1], m, all, want) ==
                           Select(l[..k], m, all, want) + (if Doomed(m, all, l[k]) == want then [l[k]] else [])
  {
    assert l[..k + 1][..k] == l[..k];
  }

  lemma RemoveAt(l: seq<Ref>, p: nat)
    requires p < |l|
    ensures (l[..p] + l[p + 1..])[..p] == l[..p] && (l[..p] + l[p + 1..])[p..] == l[p + 1..]
  {
  }

  // ----- Frames -----

  /** Tracing from g to d: marks were added, the lists of all objects did not change. */
  ghost predicate Traced(g: G, d: G) {
    && d == g.(heap := d.heap, upvals := d.upvals, marked := d.marked, gcstate := d.gcstate, gray := d.gray,
               grayagain := d.grayagain, weak := d.weak, allweak := d.allweak, ephemeron := d.ephemeron, twups := d.twups)
    && FewerHeap(d.heap, g.heap) && Marks(g) <= Marks(d) && d.marked.Keys == g.marked.Keys
    && forall r :: r in d.twups ==> r in g.twups || (r in Marks(d) && r in d.heap && d.heap[r].Thread?)
  }

  lemma TracedTrans(g: G, m: G, d: G)
    requires Traced(g, m) && Traced(m, d)
    ensures Traced(g, d)
  {
    FewerTrans(g.heap, m.heap, d.heap);
  }

  lemma TracedGrow(g: G, m: G, d: G, limit: set<Ref>)
    requires Traced(g, m) && Grow(m, d, {}, limit)
    ensures Traced(g, d)
  {
    GrowMarks(m, d, {}, limit);
    FewerTrans(g.heap, m.heap, d.heap);
  }

  lemma TracedVisit(g: G, m: G, d: G)
    requires Traced(g, m) && (Visit(m, d) || Revisit(m, d))
    ensures Traced(g, d)
  {
    if Visit(m, d) { VisitRevisit(m, d); }
    RevisitFacts(m, d);
    RevisitTwups(m, d);
    FewerTrans(g.heap, m.heap, d.heap);
  }

  lemma RevisitTwups(g: G, d: G)
    requires Revisit(g, d)
    ensures forall r :: r in d.twups ==> r in g.twups || (r in Marks(d) && r in d.heap && d.heap[r].Thread?)
  {
  }

  /** Tracing without clearing: entries keep their values, upvalues too, and what joined
      'allweak' is there for a reason. */
  ghost predicate Clean(g: G, d: G) {
    && DeadKeys(d.heap, g.heap) && Marks(g) <= Marks(d)
    && (forall u :: UpValue(d.heap, d.upvals, u) == UpValue(g.heap, g.upvals, u))
    && (forall r :: r in d.allweak ==> r in g.allweak || (r in d.heap && Tidied(d.heap[r], Marks(d))))
  }

  lemma CleanTrans(g: G, m: G, d: G)
    requires Clean(g, m) && Clean(m, d)
    ensures Clean(g, d)
  {
    DeadKeysTrans(g.heap, m.heap, d.heap);
    DeadKeysFewer(m.heap, d.heap);
    TidiedMore(m, d);
    forall u ensures UpValue(d.heap, d.upvals, u) == UpValue(g.heap, g.upvals, u) {
      assert UpValue(m.heap, m.upvals, u) == UpValue(g.heap, g.upvals, u);
    }
  }

  lemma CleanSame(g: G, d: G)
    requires d.heap == g.heap && d.upvals == g.upvals && d.allweak == g.allweak && Marks(g) <= Marks(d)
    ensures Clean(g, d)
  {
  }

  lemma CleanVisit(g: G, d: G)
    requires Visit(g, d) || Revisit(g, d)
    ensures Clean(g, d) && (g.gcstate == InsideAtomic ==> d.upvals == g.upvals)
  {
    if Visit(g, d) { VisitRevisit(g, d); }
    RevisitClean(g, d);
    forall u ensures UpValue(d.heap, d.upvals, u) == UpValue(g.heap, g.upvals, u) {
      SameUp(g.heap, g.upvals, d.heap, d.upvals, u);
    }
  }

  lemma RevisitClean(g: G, d: G)
    requires Revisit(g, d)
    ensures DeadKeys(d.heap, g.heap) && FewerHeap(d.heap, g.heap) && TouchUps(d.upvals, g.upvals) && Marks(g) <= Marks(d)
    ensures g.gcstate == InsideAtomic ==> d.upvals == g.upvals
    ensures forall r :: r in d.allweak ==> r in g.allweak || (r in d.heap && Tidied(d.heap[r], Marks(d)))
  {
    var a, b := g.(ephemeron := []), d.(ephemeron := []);
    assert Marks(a) == Marks(g) && Marks(b) == Marks(d);
  }

  lemma CleanRemarks(g: G, d: G)
    requires Remarks(g, d)
    ensures Clean(g, d)
  {
    forall u ensures UpValue(d.heap, d.upvals, u) == UpValue(g.heap, g.upvals, u) {
      if u in g.upvals { assert d.upvals[u] == g.upvals[u] || d.upvals[u] == g.upvals[u].(touched := false); }
    }
  }

  // ----- Roots -----

  /** Main and running thread, registry, basic metatables and objects being finalized are in s. */
  predicate RootsIn(g: G, s: set<Ref>) {
    && g.mainthread in s && g.running in s && In(g.registry, s) && ValsIn(g.mt, s)
    && forall r :: r in g.tobefnz ==> r in s
  }

  predicate FinIn(g: G, s: set<Ref>) {
    forall r :: r in g.finobj ==> r in s
  }

  function AsValues(l: seq<Ref>): seq<TValue> {
    seq(|l|, i requires 0 <= i < |l| => Coll(l[i]))
  }

  /** 'markbeingfnz' */
  method MarkBeingFnz(g: GlobalState, ghost limit: set<Ref>)
    requires Ready(g.Snap(), limit)
    requires forall r :: r in g.tobefnz ==> r in g.heap && r in limit
    modifies g
    ensures Grow(old(g.Snap()), g.Snap(), {}, limit) && Ready(g.Snap(), limit)
    ensures g.heap == old(g.heap) && g.upvals == old(g.upvals)
    ensures forall r :: r in g.tobefnz ==> r in Marks(g.Snap())
  {
    ghost var s := g.Snap();
    var vs := AsValues(g.tobefnz);
    assert forall i :: 0 <= i < |vs| ==> g.tobefnz[i] in g.tobefnz;
    MarkValues(g, vs, limit);
    GrowOn0(s, g.Snap(), limit);
    GrowFacts(s, g.Snap(), limit);
    forall r | r in g.tobefnz ensures r in Marks(g.Snap()) {
      var i :| 0 <= i < |g.tobefnz| && g.tobefnz[i] == r;
      assert In(vs[i], Marks(g.Snap()));
    }
  }

  /** The state between the parts of 'atomic'. */
  ghost predicate Inside(g: G, limit: set<Ref>) {
    && Ready(g, limit) && Marking(g, {}, [], [], true) && g.gcstate == InsideAtomic && g.gray == []
    && AllSettled(g, g.ephemeron)
  }

  // ----- First part: everything strongly reachable -----

  lemma EnterAtomic(s: G, limit: set<Ref>)
    requires Ready(s, limit) && Marking(s, {}, s.grayagain, [], false) && s.gcstate == Atomic
    ensures var d := s.(gcstate := InsideAtomic);
            Ready(d, limit) && Marking(d, {}, s.grayagain, [], false) && Traced(s, d)
  {
    hide Ready, Queued, Tri, Traced;
    EnterReady(s, limit);
    EnterQueued(s);
    EnterTri(s);
    EnterTraced(s);
  }

  lemma EnterReady(s: G, limit: set<Ref>)
    requires Ready(s, limit)
    ensures Ready(s.(gcstate := InsideAtomic), limit)
  {
    hide ContentIn, MetIn, RefsIn;
    assert Alive(s.(gcstate := InsideAtomic)) == Alive(s);
  }

  lemma EnterTri(s: G)
    requires Tri(s, {}, false)
    ensures Tri(s.(gcstate := InsideAtomic), {}, false)
  {
    hide BlackIn;
    assert Marks(s.(gcstate := InsideAtomic)) == Marks(s);
  }

  lemma EnterTraced(s: G)
    ensures Traced(s, s.(gcstate := InsideAtomic))
  {
  }

  lemma EnterQueued(s: G)
    requires Queued(s, {}, s.grayagain, []) && s.gcstate == Atomic
    ensures Queued(s.(gcstate := InsideAtomic), {}, s.grayagain, [])
  {
    hide Parked;
    var d := s.(gcstate := InsideAtomic);
    assert Marks(d) == Marks(s);
    forall r | Idle(d, {}, s.grayagain, r) ensures Parked(d, r, [], Marks(d)) {
      assert Idle(s, {}, s.grayagain, r);
      ParkedMore(s, d, r, [], Marks(s), Marks(d));
    }
  }

  /** The saved list 'grayagain' becomes the gray list. */
  lemma Requeue(s: G, q: seq<Ref>, limit: set<Ref>)
    requires Ready(s, limit) && Marking(s, {}, q, [], true) && s.gray == [] && s.gcstate == InsideAtomic
    ensures var d := s.(gray := q); Ready(d, limit) && Marking(d, {}, [], [], true) && Traced(s, d)
  {
    var d := s.(gray := q);
    assert s.gray + q == q && d.gray + [] == q;
    forall r | Idle(d, {}, [], r) ensures Parked(d, r, [], Marks(d)) {
      assert Idle(s, {}, q, r);
      assert Parked(s, r, [], Marks(s));
    }
  }

  lemma MarkedRoot(s0: G, s: G, d: G, q: seq<Ref>, limit: set<Ref>)
    requires Traced(s0, s) && Grow(s, d, {}, limit) && Ready(s, limit) && Marking(s, {}, q, [], false)
    ensures Traced(s0, d) && Ready(d, limit) && Marking(d, {}, q, [], false) && Marks(s) <= Marks(d)
    ensures d.heap.Keys == s.heap.Keys
  {
    TracedGrow(s0, s, d, limit);
    GrowReady(s, d, {}, limit);
    GrowMarks(s, d, {}, limit);
    ReadyKeys(s, limit);
    GrowMarking(s, d, {}, q, [], false, limit);
    GrowFacts(s, d, limit);
  }

  /** 'atomic' marks the running thread, the registry and the basic metatables. */
  method MarkRoots(g: GlobalState, ghost q: seq<Ref>, ghost limit: set<Ref>)
    requires Ready(g.Snap(), limit) && Marking(g.Snap(), {}, q, [], false)
    requires RootsIn(g.Snap(), g.heap.Keys) && RootsIn(g.Snap(), limit)
    modifies g
    ensures Ready(g.Snap(), limit) && Marking(g.Snap(), {}, q, [], false) && Traced(old(g.Snap()), g.Snap())
    ensures g.upvals == old(g.upvals) && g.twups == old(g.twups) && g.gcstate == old(g.gcstate)
    ensures g.heap == old(g.heap) && g.allweak == old(g.allweak)
    ensures g.running in Marks(g.Snap()) && In(g.registry, Marks(g.Snap())) && ValsIn(g.mt, Marks(g.Snap()))
  {
    hide Marking, Ready, Grow, Marked, Traced;
    ghost var s0 := g.Snap();
    TracedRefl(s0);
    MarkValue(g, Coll(g.running), limit);
    ghost var s1 := g.Snap();
    MarkedRoot(s0, s0, s1, q, limit);
    GrowFacts(s0, s1, limit);
    MarkValue(g, g.registry, limit);
    ghost var s2 := g.Snap();
    MarkedRoot(s0, s1, s2, q, limit);
    GrowFacts(s1, s2, limit);
    MarkValues(g, g.mt, limit);
    MarkedRoot(s0, s2, g.Snap(), q, limit);
    GrowFacts(s2, g.Snap(), limit);
  }

  lemma TracedRefl(s: G)
    ensures Traced(s, s)
  {
  }

  /** Visit the gray list, then the objects of 'grayagain', then ephemeron tables. */
  method Saturate(g: GlobalState, grayagain: seq<Ref>, ghost limit: set<Ref>)
    requires Ready(g.Snap(), limit) && Marking(g.Snap(), {}, grayagain, [], true) && g.gcstate == InsideAtomic
    modifies g
    ensures Inside(g.Snap(), limit) && Traced(old(g.Snap()), g.Snap())
    ensures Clean(old(g.Snap()), g.Snap()) && g.upvals == old(g.upvals)
  {
    hide Marking, Ready, Marked, Traced, Visit, Revisit, AllSettled, Clean;
    ghost var s0 := g.Snap();
    TracedRefl(s0);
    PropagateAll(g, grayagain, [], limit);
    ghost var s1 := g.Snap();
    VisitState(s0, s1);
    TracedVisit(s0, s0, s1);
    CleanVisit(s0, s1);
    Requeue(s1, grayagain, limit);
    g.gray := grayagain;
    ghost var s2 := g.Snap();
    TracedTrans(s0, s1, s2);
    CleanSame(s1, s2);
    CleanTrans(s0, s1, s2);
    PropagateAll(g, [], [], limit);
    ghost var s3 := g.Snap();
    VisitState(s2, s3);
    TracedVisit(s0, s2, s3);
    CleanVisit(s2, s3);
    CleanTrans(s0, s2, s3);
    ConvergeEphemerons(g, limit);
    TracedVisit(s0, s3, g.Snap());
    CleanVisit(s3, g.Snap());
    CleanTrans(s0, s3, g.Snap());
  }

  lemma TracedFacts(g: G, d: G)
    requires Traced(g, d)
    ensures d.marked.Keys == g.marked.Keys && d.heap.Keys == g.heap.Keys && Marks(g) <= Marks(d)
    ensures d.running == g.running && d.registry == g.registry && d.mt == g.mt && d.mainthread == g.mainthread
    ensures d.sweepgc == g.sweepgc
    ensures forall r :: r in d.twups ==> r in g.twups || (r in Marks(d) && r in d.heap && d.heap[r].Thread?)
  {
  }

  lemma RemarksTraced(g: G, d: G)
    requires Remarks(g, d)
    ensures Traced(g, d) && d.gcstate == g.gcstate
  {
  }

  /** The part of 'atomic' up to the first convergence: what is strongly reachable gets marked. */
  method MarkStrong(g: GlobalState, ghost limit: set<Ref>)
    requires Ready(g.Snap(), limit) && Marking(g.Snap(), {}, g.grayagain, [], false) && g.gcstate == Atomic && g.gray == []
    requires TwupsComplete(g.Snap()) && forall r :: r in g.twups ==> r in g.marked
    requires RootsIn(g.Snap(), g.heap.Keys) && RootsIn(g.Snap(), limit)
    modifies g
    ensures Inside(g.Snap(), limit) && Traced(old(g.Snap()), g.Snap())
    ensures g.running in Marks(g.Snap()) && In(g.registry, Marks(g.Snap())) && ValsIn(g.mt, Marks(g.Snap()))
    ensures forall r :: r in g.twups ==> r in Marks(g.Snap())
    ensures Clean(old(g.Snap()), g.Snap()) && NotedIn(g.Snap(), []) && TouchedIn(old(g.Snap()), Marks(g.Snap()))
  {
    hide Marking, Ready, Marked, Traced, Remarks, AllSettled, Clean, NotedIn, Inside, TouchedDone, TouchedIn;
    ghost var s0 := g.Snap();
    var grayagain := g.grayagain;
    EnterAtomic(s0, limit);
    g.gcstate := InsideAtomic;
    ghost var s1 := g.Snap();
    CleanSame(s0, s1);
    MarkRoots(g, grayagain, limit);
    ghost var s2 := g.Snap();
    TracedTrans(s0, s1, s2);
    TracedFacts(s0, s2);
    TracedFacts(s1, s2);
    CleanSame(s1, s2);
    CleanTrans(s0, s1, s2);
    RemarkUpvals(g, grayagain, limit);
    ghost var s3 := g.Snap();
    RemarksTraced(s2, s3);
    TracedTrans(s0, s2, s3);
    TracedFacts(s2, s3);
    CleanRemarks(s2, s3);
    CleanTrans(s0, s2, s3);
    Saturate(g, grayagain, limit);
    TracedTrans(s0, s3, g.Snap());
    TracedFacts(s3, g.Snap());
    CleanTrans(s0, s3, g.Snap());
    NotedMore(s3, g.Snap());
    TouchedMarked(s0, s2, s3, g.Snap(), limit);
  }

  /** Values of touched open upvalues are in s. */
  ghost predicate TouchedIn(g: G, s: set<Ref>) {
    forall u :: u in g.upvals && g.upvals[u].Open? && g.upvals[u].touched ==> In(UpValue(g.heap, g.upvals, u), s)
  }

  lemma TouchedMarked(s0: G, s2: G, s3: G, d: G, limit: set<Ref>)
    requires s2.heap == s0.heap && s2.upvals == s0.upvals && TouchedDone(s2, s3) && NotedIn(s3, [])
    requires Clean(s0, s3) && Clean(s3, d) && d.upvals == s3.upvals && Inside(d, limit) && Clean(s0, d)
    ensures TouchedIn(s0, Marks(d))
  {
    hide Inside;
    forall u | u in s0.upvals && s0.upvals[u].Open? && s0.upvals[u].touched
      ensures In(UpValue(s0.heap, s0.upvals, u), Marks(d))
    {
      if s3.upvals[u] == s0.upvals[u] {
        assert UpValue(d.heap, d.upvals, u) == UpValue(s0.heap, s0.upvals, u);
        MarkedSlot(d, u, limit);
      }
    }
  }

  lemma NotedMore(g: G, d: G)
    requires NotedIn(g, []) && d.upvals == g.upvals && Marks(g) <= Marks(d)
    ensures NotedIn(d, [])
  {
  }

  // ----- Second part: finalizers -----

  /** Weak values of the tables of the lists have been cleared. */
  ghost predicate ValuesCleared(g: G, l: seq<Ref>) {
    forall r :: r in l ==> r in g.heap && ValuesIn(g.heap[r], Marks(g))
  }

  lemma ClearedMore(g: G, d: G, l: seq<Ref>)
    requires ValuesCleared(g, l) && Traced(g, d)
    ensures ValuesCleared(d, l)
  {
    forall r | r in l ensures r in d.heap && ValuesIn(d.heap[r], Marks(d)) {
      assert Fewer(d.heap[r], g.heap[r]);
      FewerValues(d.heap[r], g.heap[r], Marks(g), Marks(d));
    }
  }

  lemma ClearsInside(g: G, d: G, keys: bool, limit: set<Ref>)
    requires Inside(g, limit) && Clears(g, d, keys, limit)
    ensures Inside(d, limit) && Traced(g, d)
    ensures d.weak == g.weak && d.allweak == g.allweak && d.ephemeron == g.ephemeron
  {
    hide Marking, AllSettled;
    ClearsReady(g, d, keys, limit);
    ReadyKeys(g, limit);
    GrowMarking(g, d, {}, [], [], true, limit);
    StaySettled(g, d, g.ephemeron);
    TracedRefl(g);
    TracedGrow(g, g, d, limit);
  }

  lemma InsideTables(g: G, limit: set<Ref>)
    requires Inside(g, limit)
    ensures Tables(g.heap, g.weak) && Tables(g.heap, g.allweak) && Tables(g.heap, g.ephemeron)
  {
  }

  /** The strings that clearing will meet are within the limit. */
  lemma InsideMet(g: G, limit: set<Ref>)
    requires Inside(g, limit)
    ensures ValuesMet(g.heap, g.weak, limit) && ValuesMet(g.heap, g.allweak, limit) && KeysMet(g.heap, g.ephemeron, limit)
  {
    hide StrongIn, StrKeysIn, StrsIn, StrValsIn, Parked, Tri, AllSettled;
    forall r | r in g.heap && r in Marks(g) ensures MetIn(g.heap, g.heap[r], limit, r in g.allweak) {
      BoundAt(g, limit, r);
    }
    forall r | r in g.weak || r in g.allweak || r in g.ephemeron ensures MarkedTable(g, r) {}
  }

  /** Values of weak tables are cleared before finalizers are looked at. */
  method ClearWeakValues(g: GlobalState, ghost limit: set<Ref>)
    requires Inside(g.Snap(), limit)
    modifies g
    ensures Inside(g.Snap(), limit) && Traced(old(g.Snap()), g.Snap())
    ensures ValuesCleared(g.Snap(), g.weak) && ValuesCleared(g.Snap(), g.allweak)
    ensures g.weak == old(g.weak) && g.allweak == old(g.allweak)
    ensures ClearedHeap(g.heap, old(g.heap), Marks(g.Snap()), false) && StringsOnly(g.heap, Marks(old(g.Snap())), Marks(g.Snap()))
  {
    hide Inside, Traced, Marked, Clears, Ready, ValuesMet;
    ghost var s0 := g.Snap();
    InsideTables(s0, limit);
    InsideReady(s0, limit);
    InsideMet(s0, limit);
    ClearValues(g, g.weak, limit);
    ghost var s1 := g.Snap();
    ClearsInside(s0, s1, false, limit);
    InsideTables(s1, limit);
    InsideReady(s1, limit);
    InsideMet(s1, limit);
    ClearValues(g, g.allweak, limit);
    ClearsInside(s1, g.Snap(), false, limit);
    ClearsTrans(s0, s1, g.Snap(), false, limit);
    ClearsFacts(s0, g.Snap(), false, limit);
    ClearedMore(s1, g.Snap(), s0.weak);
    TracedTrans(s0, s1, g.Snap());
  }

  lemma ClearsFacts(g: G, d: G, keys: bool, limit: set<Ref>)
    requires Clears(g, d, keys, limit)
    ensures ClearedHeap(d.heap, g.heap, Marks(d), keys) && StringsOnly(d.heap, Marks(g), Marks(d))
  {
  }

  lemma InsideReady(g: G, limit: set<Ref>)
    requires Inside(g, limit)
    ensures Ready(g, limit) && Marking(g, {}, [], [], true) && g.gcstate == InsideAtomic && g.gray == []
  {
  }

  lemma SeparatedInside(s: G, d: G, limit: set<Ref>)
    requires Inside(s, limit) && d == s.(finobj := d.finobj, tobefnz := d.tobefnz)
    ensures Inside(d, limit)
  {
    hide Ready, Queued, Tri;
    assert Marks(d) == Marks(s);
    SeparatedReady(s, d, limit);
    SeparatedQueued(s, d);
    SeparatedTri(s, d);
  }

  lemma SeparatedReady(s: G, d: G, limit: set<Ref>)
    requires Ready(s, limit) && d == s.(finobj := d.finobj, tobefnz := d.tobefnz)
    ensures Ready(d, limit)
  {
    hide ContentIn, MetIn, RefsIn;
    assert Alive(d) == Alive(s) && Marks(d) == Marks(s);
  }

  lemma SeparatedTri(s: G, d: G)
    requires Tri(s, {}, true) && d == s.(finobj := d.finobj, tobefnz := d.tobefnz)
    ensures Tri(d, {}, true)
  {
    hide BlackIn;
    assert Marks(d) == Marks(s);
  }

  lemma SeparatedQueued(s: G, d: G)
    requires Queued(s, {}, [], []) && d == s.(finobj := d.finobj, tobefnz := d.tobefnz) && s.gcstate == InsideAtomic
    ensures Queued(d, {}, [], [])
  {
    hide Parked;
    assert Marks(d) == Marks(s);
    forall r | Idle(d, {}, [], r) ensures Parked(d, r, [], Marks(d)) {
      assert Idle(s, {}, [], r);
      ParkedMore(s, d, r, [], Marks(s), Marks(d));
    }
  }

  lemma SelectIn(l: seq<Ref>, m: map<Ref, Color>, all: bool, want: bool)
    ensures forall r :: r in Select(l, m, all, want) ==> r in l
  {
    if l != [] { SelectIn(l[..|l| - 1], m, all, want); }
  }

  /** Suffixes of the weak lists whose values are already clear. */
  ghost predicate Older(g: G, weak: seq<Ref>, allweak: seq<Ref>) {
    Suffix(weak, g.weak) && Suffix(allweak, g.allweak) && ValuesCleared(g, weak) && ValuesCleared(g, allweak)
  }

  lemma OlderGrow(g: G, d: G, weak: seq<Ref>, allweak: seq<Ref>)
    requires Older(g, weak, allweak) && Traced(g, d) && Suffix(g.weak, d.weak) && Suffix(g.allweak, d.allweak)
    ensures Older(d, weak, allweak)
  {
    hide Traced, ValuesCleared;
    SuffixTrans(weak, g.weak, d.weak);
    SuffixTrans(allweak, g.allweak, d.allweak);
    ClearedMore(g, d, weak);
    ClearedMore(g, d, allweak);
  }

  lemma RevisitSuffix(g: G, d: G)
    requires Visit(g, d) || Revisit(g, d)
    ensures Suffix(g.weak, d.weak) && Suffix(g.allweak, d.allweak)
  {
  }

  /** Objects about to be finalized are marked with everything they need. */
  method Resurrect(g: GlobalState, ghost weak: seq<Ref>, ghost allweak: seq<Ref>, ghost limit: set<Ref>)
    requires Inside(g.Snap(), limit) && Older(g.Snap(), weak, allweak)
    requires forall r :: r in g.tobefnz ==> r in g.heap && r in limit
    modifies g
    ensures Inside(g.Snap(), limit) && Traced(old(g.Snap()), g.Snap()) && Older(g.Snap(), weak, allweak)
    ensures (forall r :: r in g.tobefnz ==> r in Marks(g.Snap())) && Clean(old(g.Snap()), g.Snap())
  {
    hide Marking, Ready, Marked, Traced, Visit, Revisit, Older, AllSettled, Grow, Clean;
    ghost var s0 := g.Snap();
    TracedRefl(s0);
    MarkBeingFnz(g, limit);
    ghost var s1 := g.Snap();
    TracedGrow(s0, s0, s1, limit);
    ReadyKeys(s0, limit);
    GrowMarking(s0, s1, {}, [], [], true, limit);
    GrowFacts(s0, s1, limit);
    SuffixRefl(s1.weak, s1.allweak);
    OlderGrow(s0, s1, weak, allweak);
    TracedFacts(s0, s1);
    CleanSame(s0, s1);
    PropagateAll(g, [], [], limit);
    ghost var s2 := g.Snap();
    VisitState(s1, s2);
    TracedVisit(s1, s1, s2) by { TracedRefl(s1); }
    RevisitSuffix(s1, s2);
    OlderGrow(s1, s2, weak, allweak);
    CleanVisit(s1, s2);
    CleanTrans(s0, s1, s2);
    ConvergeEphemerons(g, limit);
    TracedVisit(s2, s2, g.Snap()) by { TracedRefl(s2); }
    RevisitSuffix(s2, g.Snap());
    OlderGrow(s2, g.Snap(), weak, allweak);
    CleanVisit(s2, g.Snap());
    CleanTrans(s0, s2, g.Snap());
    TracedTrans(s1, s2, g.Snap());
    TracedFacts(s1, g.Snap());
    TracedLists(s1, g.Snap());
    TracedTrans(s0, s1, g.Snap());
  }

  lemma TracedLists(g: G, d: G)
    requires Traced(g, d)
    ensures d.tobefnz == g.tobefnz && d.finobj == g.finobj
  {
  }

  lemma SuffixRefl(l: seq<Ref>, m: seq<Ref>)
    ensures Suffix(l, l) && Suffix(m, m)
  {
  }

  // ----- Last part: dead keys -----

  /** Keys of the tables of l are marked. */
  ghost predicate KeysCleared(g: G, l: seq<Ref>) {
    forall r :: r in l ==> r in g.heap && HeldKeys(g.heap[r], Marks(g))
  }

  lemma KeysMore(g: G, d: G, l: seq<Ref>)
    requires KeysCleared(g, l) && Traced(g, d)
    ensures KeysCleared(d, l)
  {
    forall r | r in l ensures r in d.heap && HeldKeys(d.heap[r], Marks(d)) {
      assert Fewer(d.heap[r], g.heap[r]);
      FewerValues(d.heap[r], g.heap[r], Marks(g), Marks(d));
    }
  }

  /** What the clearing passes achieve together. */
  ghost predicate AllCleared(g: G) {
    && KeysCleared(g, g.ephemeron) && KeysCleared(g, g.allweak)
    && ValuesCleared(g, g.weak) && ValuesCleared(g, g.allweak)
  }

  predicate SameLists(g: G, d: G) {
    d.weak == g.weak && d.allweak == g.allweak && d.ephemeron == g.ephemeron
  }

  lemma ClearStep(g: G, m: G, d: G, keys: bool, limit: set<Ref>)
    requires Inside(m, limit) && Clears(m, d, keys, limit) && Traced(g, m) && SameLists(g, m)
    ensures Inside(d, limit) && Traced(m, d) && Traced(g, d) && SameLists(g, d) && Ready(d, limit)
    ensures Tables(d.heap, d.weak) && Tables(d.heap, d.allweak) && Tables(d.heap, d.ephemeron)
  {
    hide Inside, Clears, Traced;
    ClearsInside(m, d, keys, limit);
    TracedTrans(g, m, d);
    InsideReady(d, limit);
    InsideTables(d, limit);
  }

  lemma JoinCleared(g: G, late: seq<Ref>, l: seq<Ref>)
    requires Suffix(late, l) && ValuesCleared(g, late) && ValuesCleared(g, l[..|l| - |late|])
    ensures ValuesCleared(g, l)
  {
    assert l == l[..|l| - |late|] + late;
    forall r | r in l ensures r in l[..|l| - |late|] || r in late {}
  }

  lemma PrefixTables(h: Heap, l: seq<Ref>, n: nat)
    requires Tables(h, l) && n <= |l|
    ensures Tables(h, l[..n])
  {
    forall r | r in l[..n] ensures r in l {}
  }

  lemma PrefixMet(h: Heap, l: seq<Ref>, n: nat, limit: set<Ref>)
    requires ValuesMet(h, l, limit) && n <= |l|
    ensures ValuesMet(h, l[..n], limit)
  {
    forall r | r in l[..n] ensures r in l {}
  }

  /** 'atomic' clears dead keys, then the values of tables that were reached late. */
  method ClearDead(g: GlobalState, origweak: seq<Ref>, origall: seq<Ref>, ghost h: Heap, ghost early: set<Ref>,
                   ghost limit: set<Ref>)
    requires Inside(g.Snap(), limit) && Older(g.Snap(), origweak, origall)
    requires early <= Marks(g.Snap()) && Fate(h, g.heap, early, h.Keys) && KeysMet(g.heap, g.allweak, limit)
    modifies g
    ensures Inside(g.Snap(), limit) && Traced(old(g.Snap()), g.Snap()) && AllCleared(g.Snap())
    ensures g.allweak == old(g.allweak)
    ensures Fate(h, g.heap, early, Marks(g.Snap()))
  {
    hide Inside, Traced, Clears, Ready, Marked, KeysCleared, ValuesCleared, Tables, Fate, KeysMet, ValuesMet;
    ghost var s0 := g.Snap();
    InsideTables(s0, limit);
    InsideReady(s0, limit);
    InsideMet(s0, limit);
    TracedRefl(s0);
    ClearKeys(g, g.ephemeron, limit);
    ghost var s1 := g.Snap();
    ClearStep(s0, s0, s1, true, limit);
    AsKeysCleared(s1, s1.ephemeron);
    ClearsMet(s0, s1, s1.allweak, true, limit);
    ClearKeys(g, g.allweak, limit);
    ghost var s2 := g.Snap();
    ClearStep(s0, s1, s2, true, limit);
    AsKeysCleared(s2, s2.allweak);
    InsideMet(s2, limit);
    PrefixTables(g.heap, g.weak, |g.weak| - |origweak|);
    PrefixMet(g.heap, g.weak, |g.weak| - |origweak|, limit);
    ClearValues(g, g.weak[..|g.weak| - |origweak|], limit);
    ghost var s3 := g.Snap();
    ClearStep(s0, s2, s3, false, limit);
    AsValuesCleared(s3, s3.weak[..|s3.weak| - |origweak|]);
    InsideMet(s3, limit);
    PrefixTables(g.heap, g.allweak, |g.allweak| - |origall|);
    PrefixMet(g.heap, g.allweak, |g.allweak| - |origall|, limit);
    ClearValues(g, g.allweak[..|g.allweak| - |origall|], limit);
    ghost var d := g.Snap();
    ClearStep(s0, s3, d, false, limit);
    AsValuesCleared(d, d.allweak[..|d.allweak| - |origall|]);
    ClearedEnd(s0, s1, s2, s3, d, origweak, origall);
    ClearedFate(s0, s1, s2, s3, d, h, early, limit);
  }

  lemma ClearedFate(s0: G, s1: G, s2: G, s3: G, d: G, h: Heap, early: set<Ref>, limit: set<Ref>)
    requires Clears(s0, s1, true, limit) && Clears(s1, s2, true, limit) && Clears(s2, s3, false, limit) && Clears(s3, d, false, limit)
    requires early <= Marks(s0) && Fate(h, s0.heap, early, h.Keys)
    ensures Fate(h, d.heap, early, Marks(d))
  {
    hide Fate, Clears, Marked;
    ClearsTrans(s0, s1, s2, true, limit);
    ClearsTrans(s2, s3, d, false, limit);
    ClearsFacts(s0, s2, true, limit);
    ClearsFacts(s2, d, false, limit);
    ClearsMarks(s0, s2, true, limit);
    ClearsMarks(s2, d, false, limit);
    FateKeys(h, s0.heap, early, Marks(d));
    StringsBack(s0.heap, s2.heap, d.heap, Marks(s2), Marks(d));
    FateCleared(h, s0.heap, s2.heap, early, Marks(d), Marks(s2), true);
    FateCleared(h, s2.heap, d.heap, early, Marks(d), Marks(d), false);
  }

  lemma ClearsMarks(g: G, d: G, keys: bool, limit: set<Ref>)
    requires Clears(g, d, keys, limit)
    ensures Marks(g) <= Marks(d)
  {
    GrowMarks(g, d, {}, limit);
  }

  lemma StringsBack(h: Heap, m: Heap, d: Heap, s: set<Ref>, t: set<Ref>)
    requires ClearedHeap(m, h, s, true) && ClearedHeap(d, m, t, false) && StringsOnly(d, s, t)
    ensures StringsOnly(h, s, t)
  {
    forall r | r in t && r !in s ensures IsString(h, r) {
      assert IsString(d, r);
      assert ClearedObject(h, m[r], h[r], s, true) && ClearedObject(m, d[r], m[r], t, false);
    }
  }

  lemma FateKeys(h: Heap, m: Heap, s1: set<Ref>, s: set<Ref>)
    requires Fate(h, m, s1, h.Keys)
    ensures Fate(h, m, s1, s)
  {
    forall r | r in h ensures FateObject(h, m[r], h[r], s1, s) {
      assert FateObject(h, m[r], h[r], s1, h.Keys);
      if h[r].Table? {
        forall i | 0 <= i < |h[r].nodes| ensures FateNode(h, m[r].nodes[i], h[r].nodes[i], s1, s) {
          assert FateNode(h, m[r].nodes[i], h[r].nodes[i], s1, h.Keys);
        }
      }
    }
  }

  lemma AsKeysCleared(g: G, l: seq<Ref>)
    requires forall r :: r in l ==> r in g.heap && HeldKeys(g.heap[r], Marks(g))
    ensures KeysCleared(g, l)
  {
  }

  lemma AsValuesCleared(g: G, l: seq<Ref>)
    requires forall r :: r in l ==> r in g.heap && ValuesIn(g.heap[r], Marks(g))
    ensures ValuesCleared(g, l)
  {
  }

  lemma ClearedEnd(s0: G, s1: G, s2: G, s3: G, d: G, origweak: seq<Ref>, origall: seq<Ref>)
    requires Older(s0, origweak, origall) && Traced(s0, d)
    requires SameLists(s0, s1) && SameLists(s0, s2) && SameLists(s0, s3) && SameLists(s0, d)
    requires Traced(s1, s2) && Traced(s2, s3) && Traced(s3, d)
    requires KeysCleared(s1, s1.ephemeron) && KeysCleared(s2, s2.allweak)
    requires ValuesCleared(s3, s3.weak[..|s3.weak| - |origweak|])
    requires ValuesCleared(d, d.allweak[..|d.allweak| - |origall|])
    ensures AllCleared(d)
  {
    hide Traced, KeysCleared, ValuesCleared;
    TracedTrans(s2, s3, d);
    TracedTrans(s1, s2, d);
    KeysMore(s1, d, s1.ephemeron);
    KeysMore(s2, d, s2.allweak);
    ClearedMore(s0, d, origweak);
    ClearedMore(s0, d, origall);
    ClearedMore(s3, d, s3.weak[..|s3.weak| - |origweak|]);
    JoinCleared(d, origweak, d.weak);
    JoinCleared(d, origall, d.allweak);
  }

  // ----- The result -----

  /** A gray object that waited has all its references marked by now, except that nothing looks at
      the metatables of the tables in 'allweak' any more. */
  lemma ParkedDone(g: G, r: Ref, limit: set<Ref>)
    requires Inside(g, limit) && AllCleared(g)
    requires r in g.heap && Parked(g, r, [], Marks(g))
    ensures RefsIn(g.heap, g.upvals, Seen(g, r), Marks(g))
  {
    var s := Marks(g);
    match g.heap[r]
    case Thread(_) =>
    case Table(_, _, _, nodes) =>
      if r in g.allweak {
        assert HeldKeys(g.heap[r], s) && ValuesIn(g.heap[r], s);
      } else if r in g.ephemeron {
        assert HeldKeys(g.heap[r], s) && Settled(g.heap, nodes, s);
      } else if r in g.weak {
        assert ValuesIn(g.heap[r], s);
      }
  }

  lemma BlackDone(g: G, r: Ref, limit: set<Ref>)
    requires Inside(g, limit) && r in g.heap && r in g.marked && g.marked[r].Black?
    ensures RefsIn(g.heap, g.upvals, g.heap[r], Marks(g))
  {
    var s := Marks(g);
    assert BlackIn(g.heap, g.upvals, g.heap[r], s, true);
    match g.heap[r]
    case LCl(p, ups) =>
      forall i | 0 <= i < |ups| ensures In(UpValue(g.heap, g.upvals, ups[i]), s) {
        assert UpIn(g.heap, g.upvals, ups[i], s, true);
        if !In(UpValue(g.heap, g.upvals, ups[i]), s) { MarkedSlot(g, ups[i], limit); }
      }
    case Table(_, _, _, nodes) =>
      forall i | 0 <= i < |nodes| ensures EntryIn(nodes[i], s) {
        assert NodeIn(g.heap, nodes[i], s);
        assert r in Alive(g);
        assert EntryIn(nodes[i], Alive(g));
      }
    case _ =>
  }

  /** Slots of a marked thread hold marked values. */
  lemma MarkedSlot(g: G, u: UpRef, limit: set<Ref>)
    requires Inside(g, limit) && u in g.upvals && g.upvals[u].Open? && g.upvals[u].th in Marks(g)
    ensures In(UpValue(g.heap, g.upvals, u), Marks(g))
  {
    var th := g.upvals[u].th;
    assert g.heap[th].Thread?;
    assert !g.marked[th].Black?;
    assert Idle(g, {}, [], th);
    assert Parked(g, th, [], Marks(g));
  }

  /** Everything a marked object refers to is marked. */
  lemma MarksClosed(g: G, limit: set<Ref>)
    requires Inside(g, limit) && AllCleared(g)
    ensures forall r :: r in Marks(g) && r in g.heap ==> RefsIn(g.heap, g.upvals, Seen(g, r), Marks(g))
  {
    forall r | r in Marks(g) && r in g.heap ensures RefsIn(g.heap, g.upvals, Seen(g, r), Marks(g)) {
      if g.marked[r].Black? {
        BlackDone(g, r, limit);
      } else if Traversable(g.heap[r]) {
        assert Idle(g, {}, [], r);
        ParkedDone(g, r, limit);
      }
    }
  }

  /** 'twups' holds the threads that are alive and have open upvalues. */
  ghost predicate TwupsAlive(g: G) {
    && (forall r :: r in g.twups ==> r in Alive(g))
    && (forall u :: u in g.upvals && g.upvals[u].Open? && g.upvals[u].th in Alive(g) ==> g.upvals[u].th in g.twups)
  }

  /** The flip of the current white: what is not marked is dead. */
  lemma Flip(g: G, limit: set<Ref>)
    requires Inside(g, limit) && AllCleared(g)
    requires forall r :: r in g.twups ==> r in Marks(g)
    ensures var d := g.(cw := !g.cw);
            && Alive(d) == Marks(g) && Shaped(d) && RefsBut(d) && TwupsAlive(d) && Alive(d) <= limit
  {
    var d := g.(cw := !g.cw);
    assert forall r :: r in g.marked ==> r in Alive(g);
    assert Alive(d) == Marks(g);
    MarksClosed(g, limit);
    forall u | u in d.upvals && d.upvals[u].Open? && d.upvals[u].th in Alive(d) ensures d.upvals[u].th in d.twups {
      var th := d.upvals[u].th;
      assert g.heap[th].Thread? && !g.marked[th].Black?;
      assert Idle(g, {}, [], th);
      assert Parked(g, th, [], Marks(g));
      assert HasOpen(g.upvals, th);
    }
  }

  // ----- What was strongly reachable -----

  function Strings(h: Heap): set<Ref> {
    set r | r in h && h[r].Str?
  }

  /** s is closed under strong references, and stays so when strings are added. */
  ghost predicate StrongClosed(h: Heap, us: UpVals, s: set<Ref>) {
    forall r :: r in h && r in s ==> StrongIn(h, us, h[r], s) && StrongIn(h, us, h[r], s + Strings(h))
  }

  /** Strings among the weak values of tables of s are in t. */
  ghost predicate WeakStrings(h: Heap, s: set<Ref>, t: set<Ref>) {
    forall r :: r in h && r in s && h[r].Table? && h[r].mode.weakValue ==> StrValsIn(h, h[r].nodes, t)
  }

  /** What waits in 'allweak' got there in this cycle, undisturbed. */
  ghost predicate Tidy(g: G) {
    forall r :: r in g.allweak ==> r in g.heap && Tidied(g.heap[r], Marks(g))
  }

  lemma TidyClean(g: G, d: G)
    requires Tidy(g) && Clean(g, d)
    ensures Tidy(d)
  {
    DeadKeysFewer(g.heap, d.heap);
    TidiedMore(g, d);
  }

  lemma ParkedStrong(g: G, r: Ref, limit: set<Ref>)
    requires Inside(g, limit) && Tidy(g) && Idle(g, {}, [], r) && Parked(g, r, [], Marks(g))
    ensures StrongIn(g.heap, g.upvals, g.heap[r], Marks(g))
    ensures StrongIn(g.heap, g.upvals, g.heap[r], Marks(g) + Strings(g.heap))
  {
    var s, t := Marks(g), Marks(g) + Strings(g.heap);
    match g.heap[r]
    case Thread(stack) =>
    case Table(meta, mode, arr, nodes) =>
      if r in g.ephemeron {
        assert Settled(g.heap, nodes, s);
        forall i | 0 <= i < |nodes| && nodes[i].val != Nil && In(nodes[i].key, t) ensures In(nodes[i].val, t) {
          assert nodes[i].key.Coll? && IsString(g.heap, nodes[i].key.ref) ==> nodes[i].key.ref in s;
        }
      } else if r in g.allweak {
        assert Tidied(g.heap[r], s);
      } else if r in g.weak {
        assert MarkedTable(g, r);
      }
  }

  lemma BlackStrong(g: G, r: Ref, limit: set<Ref>)
    requires Inside(g, limit) && r in g.heap && r in g.marked && g.marked[r].Black?
    ensures StrongIn(g.heap, g.upvals, g.heap[r], Marks(g))
    ensures StrongIn(g.heap, g.upvals, g.heap[r], Marks(g) + Strings(g.heap))
  {
    BlackDone(g, r, limit);
    RefsMono(g.heap, g.upvals, g.heap[r], Marks(g), Marks(g) + Strings(g.heap));
  }

  /** After the first convergence the marked objects are closed under strong references: for an
      ephemeron table, a marked key means a marked value. */
  lemma Saturated(g: G, limit: set<Ref>)
    requires Inside(g, limit) && Tidy(g)
    ensures StrongClosed(g.heap, g.upvals, Marks(g))
  {
    forall r | r in g.heap && r in Marks(g)
      ensures StrongIn(g.heap, g.upvals, g.heap[r], Marks(g))
      ensures StrongIn(g.heap, g.upvals, g.heap[r], Marks(g) + Strings(g.heap))
    {
      if g.marked[r].Black? {
        BlackStrong(g, r, limit);
      } else if Traversable(g.heap[r]) {
        assert Idle(g, {}, [], r);
        ParkedStrong(g, r, limit);
      }
    }
  }

  /** The same set of objects bounds what the rest of 'atomic' marks, if nothing is to be
      finalized. */
  lemma SaturatedBound(g: G, limit: set<Ref>)
    requires Inside(g, limit) && Tidy(g) && NotedIn(g, [])
    ensures Inside(g, (Marks(g) + Strings(g.heap)) * limit)
  {
    var l := Marks(g) + Strings(g.heap);
    StringsBound(g, limit);
    BoundMeet(g, l, limit);
  }

  lemma StringsBound(g: G, limit: set<Ref>)
    requires Inside(g, limit) && Tidy(g) && NotedIn(g, [])
    ensures Bound(g, Marks(g) + Strings(g.heap))
  {
    var l := Marks(g) + Strings(g.heap);
    Saturated(g, limit);
    forall r | r in g.heap && r in l ensures StrongIn(g.heap, g.upvals, g.heap[r], l) {}
    forall u | u in g.upvals && g.upvals[u].Open? && g.upvals[u].touched ensures In(UpValue(g.heap, g.upvals, u), l) {
      MarkedSlot(g, u, limit);
    }
  }

  /** s holds what is marked, the roots and the values of touched upvalues, and is closed under strong
      references. */
  ghost predicate Seed(g: G, s: set<Ref>) {
    && Marks(g) <= s && g.mainthread in s && g.running in s && In(g.registry, s) && ValsIn(g.mt, s)
    && TouchedIn(g, s) && StrongClosed(g.heap, g.upvals, s)
  }

  /** Nothing is to be finalized: whatever has a finalizer is strongly reachable. */
  ghost predicate NothingDead(g: G) {
    g.tobefnz == [] && forall s, r :: Seed(g, s) && r in g.finobj ==> r in s
  }

  /** Tracing does not make anything reachable. */
  lemma SeedBack(g: G, d: G, s: set<Ref>)
    requires Traced(g, d) && Clean(g, d) && TouchUps(d.upvals, g.upvals) && Seed(d, s)
    ensures Seed(g, s)
  {
    hide FewerHeap, StrongClosed, TouchedIn, Marked;
    StrongBack(g, d, s);
    TouchedBack(g, d, s);
  }

  lemma TouchedBack(g: G, d: G, s: set<Ref>)
    requires Clean(g, d) && TouchUps(d.upvals, g.upvals) && TouchedIn(d, s)
    ensures TouchedIn(g, s)
  {
    forall u | u in g.upvals && g.upvals[u].Open? && g.upvals[u].touched ensures In(UpValue(g.heap, g.upvals, u), s) {
      assert TouchUp(d.upvals[u], g.upvals[u]);
      assert UpValue(d.heap, d.upvals, u) == UpValue(g.heap, g.upvals, u);
    }
  }

  lemma NothingDeadOn(g: G, d: G)
    requires Traced(g, d) && Clean(g, d) && TouchUps(d.upvals, g.upvals) && NothingDead(g)
    ensures NothingDead(d)
  {
    hide Clean, TouchUps, Seed, FewerHeap, Marked;
    forall s, r | Seed(d, s) && r in d.finobj ensures r in s { SeedBack(g, d, s); }
  }

  /** Objects that are to be finalized, or a metatable that lost its mode, can bring in any string. */
  ghost predicate Tight(g: G, limit: set<Ref>) {
    (Tidy(g) && NothingDead(g)) || Strings(g.heap) <= limit
  }

  /** After the first convergence everything with a finalizer is marked then. */
  lemma FinMarked(s0: G, s1: G, limit: set<Ref>)
    requires Tidy(s0) && NothingDead(s0) && Traced(s0, s1) && Clean(s0, s1) && Inside(s1, limit) && TouchedIn(s0, Marks(s1))
    requires s0.mainthread in Marks(s0) && s1.running in Marks(s1) && In(s1.registry, Marks(s1)) && ValsIn(s1.mt, Marks(s1))
    ensures Tidy(s1) && s1.tobefnz == [] && forall r :: r in s1.finobj ==> r in Marks(s1)
  {
    hide Inside, Clean, TouchedIn, StrongClosed, FewerHeap, Tidy, Marked;
    TidyClean(s0, s1);
    Saturated(s1, limit);
    StrongBack(s0, s1, Marks(s1));
    assert Seed(s0, Marks(s1));
  }

  /** Once weak values are cleared, tables with weak values hold marked values only. */
  lemma WeakValues(g: G, limit: set<Ref>, r: Ref)
    requires Inside(g, limit) && ValuesCleared(g, g.weak) && ValuesCleared(g, g.allweak)
    requires r in g.heap && r in Marks(g) && g.heap[r].Table? && g.heap[r].mode.weakValue
    ensures ValuesIn(g.heap[r], Marks(g))
  {
    if g.marked[r].Black? {
      assert BlackIn(g.heap, g.upvals, g.heap[r], Marks(g), true);
    } else {
      assert Idle(g, {}, [], r);
      assert Parked(g, r, [], Marks(g));
    }
  }

  /** Without finalizers no table gets fully weak late: keys are looked at when values are clear. */
  lemma LateValues(s3: G, s4: G, l: set<Ref>)
    requires Inside(s3, l) && Inside(s4, l) && Traced(s3, s4) && Clean(s3, s4)
    requires ValuesCleared(s3, s3.weak) && ValuesCleared(s3, s3.allweak)
    requires Marks(s4) <= Marks(s3) + Strings(s3.heap)
    ensures ValuesCleared(s4, s4.allweak)
  {
    hide Inside, Traced, Clean;
    ClearedMore(s3, s4, s3.allweak) by { assert Traced(s3, s4); }
    LateParts(s3, s4, l);
    forall r | r in s4.allweak ensures r in s4.heap && ValuesIn(s4.heap[r], Marks(s4)) {
      if r !in s3.allweak && s4.heap[r].mode.weakValue {
        assert Fewer(s4.heap[r], s3.heap[r]);
        WeakValues(s3, l, r);
        FewerValues(s4.heap[r], s3.heap[r], Marks(s3), Marks(s4));
      }
    }
  }

  lemma LateParts(s3: G, s4: G, l: set<Ref>)
    requires Inside(s4, l) && Traced(s3, s4) && Clean(s3, s4)
    ensures FewerHeap(s4.heap, s3.heap) && Marks(s3) <= Marks(s4)
    ensures forall r :: r in s4.allweak ==> r in s4.heap && s4.heap[r].Table? && r in Marks(s4)
    ensures forall r :: r in s4.allweak ==> r in s3.allweak || Tidied(s4.heap[r], Marks(s4))
  {
    forall r | r in s4.allweak ensures MarkedTable(s4, r) {}
  }

  /** The keys of fully weak tables that are strings are within the limit. */
  lemma LateMet(s1: G, s3: G, s4: G, quiet: bool, l: set<Ref>, limit: set<Ref>)
    requires Inside(s3, l) && Inside(s4, l) && Traced(s3, s4) && Clean(s3, s4) && FewerHeap(s3.heap, s1.heap)
    requires ValuesCleared(s3, s3.weak) && ValuesCleared(s3, s3.allweak) && Marks(s1) <= Marks(s3)
    requires l == if quiet then (Marks(s1) + Strings(s1.heap)) * limit else limit
    requires !quiet ==> Strings(s1.heap) <= limit
    ensures KeysMet(s4.heap, s4.allweak, l)
  {
    hide Inside, Traced, Clean, Tidy;
    forall r | IsString(s4.heap, r) ensures IsString(s1.heap, r) {
      TracedFewer(s3, s4);
      assert Fewer(s4.heap[r], s3.heap[r]);
      assert Fewer(s3.heap[r], s1.heap[r]);
    }
    if quiet {
      SameStrings3(s1.heap, s3.heap);
      InsideReady(s4, l);
      LateValues(s3, s4, l);
      LateKeys(s4, l);
    }
  }

  lemma SameStrings3(h: Heap, d: Heap)
    requires FewerHeap(d, h)
    ensures Strings(d) == Strings(h)
  {
    forall r | r in h ensures h[r].Str? == d[r].Str? { assert Fewer(d[r], h[r]); }
  }

  lemma TracedFewer(g: G, d: G)
    requires Traced(g, d)
    ensures FewerHeap(d.heap, g.heap)
  {
  }

  lemma LateKeys(g: G, l: set<Ref>)
    requires Inside(g, l) && ValuesCleared(g, g.allweak)
    ensures KeysMet(g.heap, g.allweak, l)
  {
    hide StrongIn, Tri, AllSettled, Parked;
    forall r | r in g.allweak && r in g.heap && g.heap[r].Table? ensures StrKeysIn(g.heap, g.heap[r].nodes, l, false) {
      assert MarkedTable(g, r);
      BoundAt(g, l, r);
      assert ValuesIn(g.heap[r], Marks(g));
    }
  }

  /** Closure carries over to the heap before the traversals. */
  lemma StrongBack(g: G, d: G, s: set<Ref>)
    requires Clean(g, d) && StrongClosed(d.heap, d.upvals, s)
    ensures StrongClosed(g.heap, g.upvals, s) && Strings(g.heap) == Strings(d.heap)
  {
    SameStrings(g, d);
    forall r | r in g.heap && r in s
      ensures StrongIn(g.heap, g.upvals, g.heap[r], s) && StrongIn(g.heap, g.upvals, g.heap[r], s + Strings(g.heap))
    {
      StrongBackAt(g, d, r, s);
      StrongBackAt(g, d, r, s + Strings(g.heap));
    }
  }

  lemma StrongBackAt(g: G, d: G, r: Ref, s: set<Ref>)
    requires Clean(g, d) && r in g.heap && r in d.heap && StrongIn(d.heap, d.upvals, d.heap[r], s)
    ensures StrongIn(g.heap, g.upvals, g.heap[r], s)
  {
    assert DeadKeyObject(d.heap[r], g.heap[r]);
    if g.heap[r].Table? {
      forall i | 0 <= i < |g.heap[r].nodes| ensures DeadKeyNode(d.heap[r].nodes[i], g.heap[r].nodes[i]) {}
    } else if g.heap[r].LCl? {
      forall i | 0 <= i < |g.heap[r].ups| ensures In(UpValue(g.heap, g.upvals, g.heap[r].ups[i]), s) {
        assert UpValue(d.heap, d.upvals, g.heap[r].ups[i]) == UpValue(g.heap, g.upvals, g.heap[r].ups[i]);
      }
    }
  }

  /** Clearing marks the strings among weak values. */
  lemma WeakKept(s1: G, s2: G, s3: G, l: set<Ref>)
    requires Inside(s3, l) && ValuesCleared(s3, s3.weak) && ValuesCleared(s3, s3.allweak)
    requires ClearedHeap(s3.heap, s1.heap, Marks(s2), false) && Marks(s1) <= Marks(s3)
    ensures WeakStrings(s1.heap, Marks(s1), Marks(s3))
  {
    hide Inside;
    forall r | r in s1.heap && r in Marks(s1) && s1.heap[r].Table? && s1.heap[r].mode.weakValue
      ensures StrValsIn(s1.heap, s1.heap[r].nodes, Marks(s3))
    {
      assert ClearedObject(s1.heap, s3.heap[r], s1.heap[r], Marks(s2), false);
      WeakValues(s3, l, r);
      forall i | 0 <= i < |s1.heap[r].nodes| ensures StrIn(s1.heap, s1.heap[r].nodes[i].val, Marks(s3)) {
        if s3.heap[r] != s1.heap[r] {
          assert ClearedNode(s1.heap, s3.heap[r].nodes[i], s1.heap[r].nodes[i], Marks(s2), false);
        }
        assert In(s3.heap[r].nodes[i].val, Marks(s3));
      }
    }
  }

  lemma WeakBack(g: Heap, d: Heap, s: set<Ref>, t: set<Ref>, u: set<Ref>)
    requires DeadKeys(d, g) && WeakStrings(d, s, t) && t <= u
    ensures WeakStrings(g, s, u)
  {
    forall r | r in g ensures g[r].Str? == d[r].Str? { assert DeadKeyObject(d[r], g[r]); }
    forall r | r in g && r in s && g[r].Table? && g[r].mode.weakValue ensures StrValsIn(g, g[r].nodes, u) {
      assert DeadKeyObject(d[r], g[r]);
      forall i | 0 <= i < |g[r].nodes| ensures StrIn(g, g[r].nodes[i].val, u) {
        assert d[r] == g[r] || DeadKeyNode(d[r].nodes[i], g[r].nodes[i]);
        assert StrIn(d, d[r].nodes[i].val, t);
      }
    }
  }

  // ----- The result of 'atomic' -----

  /** From g to d the set s was strongly marked: it has the roots and the values of touched
      upvalues, and is closed; objects outside it that need finalization are separated (colours m), and entries disappear only if their value
      is not in s (strings apart) or their key is dead at the end. If nothing is to be finalized,
      nothing but strings is marked beyond s. */
  ghost predicate Strongly(g: G, d: G, s: set<Ref>, m: map<Ref, Color>) {
    && Marks(g) <= s <= Marked(m) <= Marks(d) && m.Keys == g.marked.Keys && Marked(m) <= s + Strings(g.heap)
    && g.mainthread in s && g.running in s && In(g.registry, s) && ValsIn(g.mt, s)
    && (Tidy(g) ==> StrongClosed(g.heap, g.upvals, s))
    && TouchedIn(g, s) && WeakStrings(g.heap, s, Marks(d))
    && d.finobj == Select(g.finobj, m, false, false) && d.tobefnz == g.tobefnz + Select(g.finobj, m, false, true)
    && Fate(g.heap, d.heap, s, Marks(d))
    && (Tidy(g) && NothingDead(g) ==> Marks(d) <= s + Strings(g.heap))
  }

  /** From the start of the atomic phase to its end: what was marked and what the roots need is
      alive and refers to live objects only, unless the metatable of a table that was already in
      'allweak' was not marked; objects with finalizers that were not reached are now to be
      finalized. */
  ghost predicate AtomicDone(g: G, d: G, limit: set<Ref>) {
    && d.cw == !g.cw && Shaped(d) && RefsBut(d) && MetasFrom(g, Marks(g), d, Alive(d)) && TwupsAlive(d) && RootsIn(d, Alive(d)) && FinIn(d, Alive(d))
    && Marks(g) <= Alive(d) <= limit && Marks(d) == Alive(d)
    && (exists s, m :: Strongly(g, d, s, m))
    && d == g.(heap := d.heap, upvals := d.upvals, marked := d.marked, cw := d.cw, gcstate := d.gcstate, gray := d.gray,
               grayagain := d.grayagain, weak := d.weak, allweak := d.allweak, ephemeron := d.ephemeron, twups := d.twups,
               finobj := d.finobj, tobefnz := d.tobefnz)
    && FewerHeap(d.heap, g.heap) && d.marked.Keys == g.marked.Keys
    && forall r :: r in d.twups ==> r in g.twups || (r in d.heap && d.heap[r].Thread?)
  }

  lemma SelectKept(l: seq<Ref>, m: map<Ref, Color>)
    requires forall r :: r in l ==> r in m
    ensures forall r :: r in Select(l, m, false, false) ==> r in Marked(m)
  {
    if l != [] {
      assert l[|l| - 1] in l;
      SelectKept(l[..|l| - 1], m);
    }
  }

  /** Weak values are cleared, then dead objects with finalizers are separated; 'mid' is the state
      in between. */
  method SeparateDead(g: GlobalState, ghost limit: set<Ref>) returns (origweak: seq<Ref>, origall: seq<Ref>, ghost mid: G)
    requires Inside(g.Snap(), limit)
    modifies g
    ensures Traced(old(g.Snap()), mid) && g.Snap() == mid.(finobj := g.finobj, tobefnz := g.tobefnz)
    ensures g.finobj == Select(mid.finobj, mid.marked, false, false)
    ensures g.tobefnz == mid.tobefnz + Select(mid.finobj, mid.marked, false, true)
    ensures ClearedHeap(mid.heap, old(g.heap), Marks(mid), false) && StringsOnly(mid.heap, Marks(old(g.Snap())), Marks(mid))
    ensures Inside(g.Snap(), limit) && Older(g.Snap(), origweak, origall) && origweak == g.weak && origall == g.allweak
    ensures g.allweak == old(g.allweak)
  {
    hide Traced, Marked, Inside, Older, Select, ValuesCleared;
    ClearWeakValues(g, limit);
    mid := g.Snap();
    origweak, origall := g.weak, g.allweak;
    SeparateToBeFnz(g, false);
    SeparatedInside(mid, g.Snap(), limit);
    OlderStart(mid, g.Snap());
  }

  /** 'atomic' */
  method AtomicPhase(g: GlobalState, ghost limit: set<Ref>)
    requires Ready(g.Snap(), limit) && Marking(g.Snap(), {}, g.grayagain, [], false) && g.gcstate == Atomic && g.gray == []
    requires TwupsComplete(g.Snap()) && forall r :: r in g.twups ==> r in g.marked
    requires RootsIn(g.Snap(), g.heap.Keys) && RootsIn(g.Snap(), limit) && g.mainthread in Marks(g.Snap())
    requires FinIn(g.Snap(), g.heap.Keys) && FinIn(g.Snap(), limit) && Tight(g.Snap(), limit)
    modifies g
    ensures AtomicDone(old(g.Snap()), g.Snap(), limit) && g.gcstate == InsideAtomic
  {
    hide Marking, Ready, Marked, Traced, Inside, Older, AllCleared, Select, RootsIn, TwupsComplete, Clean, NotedIn, Fate, Tidy, Tight, KeysMet, ValuesCleared, FewerHeap, WeakStrings, TouchedIn, MetasFrom, Living, NothingDead;
    ghost var s0 := g.Snap();
    MarkStrong(g, limit);
    ghost var s1 := g.Snap();
    ghost var quiet := Tidy(s0) && NothingDead(s0);
    ghost var l := if quiet then (Marks(s1) + Strings(s1.heap)) * limit else limit;
    if quiet {
      FinMarked(s0, s1, limit);
      SaturatedBound(s1, limit);
    }
    TightStrings(s0, s1, limit);
    var origweak, origall, s2 := SeparateDead(g, l);
    TracedTrans(s0, s1, s2);
    ghost var s3 := g.Snap();
    ToBeFnzBound(s0, s1, s2, s3, limit);
    Resurrect(g, origweak, origall, l);
    ghost var s4 := g.Snap();
    EarlyFate(s0, s1, s2, s3, s4);
    LateStart(s1, s2, s3, origweak, origall);
    EarlyStrings(s0, s1, s2, s3, l);
    LateMet(s1, s3, s4, quiet, l, limit);
    ClearDead(g, origweak, origall, s0.heap, Marks(s1), l);
    ghost var s5 := g.Snap();
    TracedTrans(s3, s4, s5);
    WeakMore(s0, s1, s3, s5);
    MetasKept(s0, s1, s2, s3, s4, s5);
    ReadyKeys(s0, limit);
    AtomicEnd(s0, s1, s2, s3, s4, s5, l, limit);
    g.cw := !g.cw;
  }

  lemma TightOn(s0: G, s1: G, limit: set<Ref>)
    requires Tight(s0, limit) && Traced(s0, s1) && Clean(s0, s1) && TouchUps(s1.upvals, s0.upvals)
    ensures Tight(s1, limit)
  {
    hide Clean, TouchUps, NothingDead, Tidy;
    SameStrings(s0, s1);
    if Tidy(s0) && NothingDead(s0) {
      TidyClean(s0, s1);
      NothingDeadOn(s0, s1);
    }
  }

  lemma TightStrings(s0: G, s1: G, limit: set<Ref>)
    requires Tight(s0, limit) && Clean(s0, s1)
    ensures !(Tidy(s0) && NothingDead(s0)) ==> Strings(s1.heap) <= limit
  {
    hide Clean, NothingDead, Tidy;
    SameStrings(s0, s1);
  }

  lemma LateStart(s1: G, s2: G, s3: G, weak: seq<Ref>, allweak: seq<Ref>)
    requires Traced(s1, s2) && s3 == s2.(finobj := s3.finobj, tobefnz := s3.tobefnz)
    requires Older(s3, weak, allweak) && weak == s3.weak && allweak == s3.allweak
    ensures ValuesCleared(s3, s3.weak) && ValuesCleared(s3, s3.allweak)
    ensures FewerHeap(s3.heap, s1.heap) && Marks(s1) <= Marks(s3)
  {
  }

  /** Up to the second clearing only entries with dead values were emptied. */
  lemma EarlyFate(s0: G, s1: G, s2: G, s3: G, s4: G)
    requires Clean(s0, s1) && ClearedHeap(s2.heap, s1.heap, Marks(s2), false) && s3.heap == s2.heap && Clean(s3, s4)
    requires Traced(s1, s2) && Traced(s3, s4) && s3.marked == s2.marked
    ensures Fate(s0.heap, s4.heap, Marks(s1), s0.heap.Keys) && Marks(s1) <= Marks(s4)
  {
    hide Fate;
    var k := s0.heap.Keys;
    FateStart(s0.heap, Marks(s1), k);
    FateDeadKeys(s0.heap, s0.heap, s1.heap, Marks(s1), k);
    FateCleared(s0.heap, s1.heap, s2.heap, Marks(s1), k, Marks(s2), false);
    FateDeadKeys(s0.heap, s2.heap, s4.heap, Marks(s1), k);
  }

  /** From g to d, with marks s and t: a metatable of 'allweak' that is not marked at the end was
      there, and not marked, at the start. */
  ghost predicate MetasFrom(g: G, s: set<Ref>, d: G, t: set<Ref>) {
    forall r :: r in d.allweak && r in d.heap && d.heap[r].Table? && !In(d.heap[r].meta, t) ==>
      r in g.allweak && r in g.heap && g.heap[r].Table? && g.heap[r].meta == d.heap[r].meta && !In(g.heap[r].meta, s)
  }

  lemma MetasFromIn(g: G, s: set<Ref>, d: G)
    requires MetasFrom(g, s, d, Alive(d)) && MetasIn(g, s)
    ensures MetasAlive(d)
  {
  }

  lemma MetasClean(g: G, d: G)
    requires Clean(g, d)
    ensures MetasFrom(g, Marks(g), d, Marks(d)) && (MetasIn(g, Marks(g)) ==> MetasIn(d, Marks(d)))
  {
    forall r | r in d.allweak && r in d.heap && d.heap[r].Table? && !In(d.heap[r].meta, Marks(d))
      ensures r in g.allweak && r in g.heap && g.heap[r].Table? && g.heap[r].meta == d.heap[r].meta
    {
      assert DeadKeyObject(d.heap[r], g.heap[r]);
    }
  }

  lemma MetasTraced(g: G, d: G)
    requires Traced(g, d) && d.allweak == g.allweak
    ensures MetasFrom(g, Marks(g), d, Marks(d))
  {
    forall r | r in d.allweak && r in d.heap && d.heap[r].Table? && !In(d.heap[r].meta, Marks(d))
      ensures r in g.heap && g.heap[r].Table? && g.heap[r].meta == d.heap[r].meta
    {
      assert Fewer(d.heap[r], g.heap[r]);
    }
  }

  lemma MetasKept(s0: G, s1: G, s2: G, s3: G, s4: G, s5: G)
    requires Clean(s0, s1) && Traced(s1, s2) && s3 == s2.(finobj := s3.finobj, tobefnz := s3.tobefnz) && Clean(s3, s4)
    requires s3.allweak == s1.allweak && Traced(s4, s5) && s5.allweak == s4.allweak
    ensures MetasFrom(s0, Marks(s0), s5, Marks(s5))
  {
    hide Clean, Traced;
    MetasClean(s0, s1);
    MetasTraced(s1, s2);
    MetasClean(s3, s4);
    MetasTraced(s4, s5);
  }

  lemma MetasFlip(g: G, s: set<Ref>, m: G, d: G)
    requires MetasFrom(g, s, m, Marks(m)) && d == m.(cw := !m.cw) && Alive(d) == Marks(m)
    ensures MetasFrom(g, s, d, Alive(d))
  {
  }

  lemma EarlyStrings(s0: G, s1: G, s2: G, s3: G, l: set<Ref>)
    requires Clean(s0, s1) && Inside(s3, l) && ValuesCleared(s3, s3.weak) && ValuesCleared(s3, s3.allweak)
    requires ClearedHeap(s2.heap, s1.heap, Marks(s2), false) && s3.heap == s2.heap && Marks(s1) <= Marks(s3)
    ensures WeakStrings(s0.heap, Marks(s1), Marks(s3))
  {
    hide Inside, ValuesCleared, ClearedHeap, WeakStrings;
    WeakKept(s1, s2, s3, l);
    WeakBack(s0.heap, s1.heap, Marks(s1), Marks(s3), Marks(s3));
  }

  lemma WeakMore(s0: G, s1: G, s3: G, s5: G)
    requires WeakStrings(s0.heap, Marks(s1), Marks(s3)) && Traced(s3, s5)
    ensures WeakStrings(s0.heap, Marks(s1), Marks(s5))
  {
    hide FewerHeap;
  }

  lemma OlderStart(s2: G, s3: G)
    requires ValuesCleared(s2, s2.weak) && ValuesCleared(s2, s2.allweak)
    requires s3 == s2.(finobj := s3.finobj, tobefnz := s3.tobefnz)
    ensures Older(s3, s2.weak, s2.allweak)
  {
  }

  lemma ToBeFnzBound(s0: G, s1: G, s2: G, s3: G, limit: set<Ref>)
    requires Traced(s0, s1) && Traced(s0, s2) && Traced(s1, s2)
    requires RootsIn(s0, s0.heap.Keys) && RootsIn(s0, limit) && FinIn(s0, s0.heap.Keys) && FinIn(s0, limit)
    requires s3.tobefnz == s2.tobefnz + Select(s2.finobj, s2.marked, false, true) && s3.heap == s2.heap
    ensures forall r :: r in s3.tobefnz ==> r in s3.heap && r in limit
    ensures s1.tobefnz == [] && (forall r :: r in s1.finobj ==> r in Marks(s1)) ==> s3.tobefnz == []
  {
    SelectIn(s2.finobj, s2.marked, false, true);
    if s1.tobefnz == [] && forall r :: r in s1.finobj ==> r in Marks(s1) {
      TracedFin(s1, s2);
      SelectNobody(s2.finobj, s2.marked);
    }
  }

  lemma TracedFin(g: G, d: G)
    requires Traced(g, d)
    ensures d.finobj == g.finobj && d.tobefnz == g.tobefnz
    ensures forall r :: r in Marks(g) ==> r in d.marked && !d.marked[r].White?
  {
    hide FewerHeap;
    forall r | r in Marks(g) ensures r in d.marked && !d.marked[r].White? { assert r in Marks(d); }
  }

  /** If everything is marked, everything stays. */
  lemma SelectNobody(l: seq<Ref>, m: map<Ref, Color>)
    requires forall r :: r in l ==> r in m && !m[r].White?
    ensures Select(l, m, false, true) == [] && Select(l, m, false, false) == l
  {
    if l != [] {
      assert l[|l| - 1] in l;
      SelectNobody(l[..|l| - 1], m);
      assert l == l[..|l| - 1] + [l[|l| - 1]];
    }
  }

  lemma AtomicEnd(s0: G, s1: G, s2: G, s3: G, s4: G, s5: G, l: set<Ref>, limit: set<Ref>)
    requires Traced(s0, s1) && Traced(s0, s2) && Traced(s1, s2) && Traced(s3, s4) && Traced(s4, s5) && Traced(s3, s5)
    requires s3 == s2.(finobj := s3.finobj, tobefnz := s3.tobefnz)
    requires s3.finobj == Select(s2.finobj, s2.marked, false, false)
    requires s3.tobefnz == s2.tobefnz + Select(s2.finobj, s2.marked, false, true)
    requires Inside(s5, l) && l <= limit && AllCleared(s5) && s0.marked.Keys == s0.heap.Keys
    requires Inside(s1, limit) && Clean(s0, s1) && StringsOnly(s2.heap, Marks(s1), Marks(s2))
    requires Tidy(s0) && NothingDead(s0) ==> l <= Marks(s1) + Strings(s1.heap)
    requires s0.mainthread in Marks(s0) && FinIn(s0, s0.heap.Keys)
    requires s1.running in Marks(s1) && In(s1.registry, Marks(s1)) && ValsIn(s1.mt, Marks(s1))
    requires forall r :: r in s1.twups ==> r in Marks(s1)
    requires forall r :: r in s4.tobefnz ==> r in Marks(s4)
    requires Fate(s0.heap, s5.heap, Marks(s1), Marks(s5))
    requires TouchedIn(s0, Marks(s1)) && WeakStrings(s0.heap, Marks(s1), Marks(s5))
    requires MetasFrom(s0, Marks(s0), s5, Marks(s5))
    ensures AtomicDone(s0, s5.(cw := !s5.cw), limit) && s5.gcstate == InsideAtomic
  {
    hide Inside, AllCleared, Marked, Traced, Shaped, RefsBut, MetasFrom, TwupsAlive, RootsIn, FinIn, Select, Clean, Fate, StringsOnly, Tidy, TouchedIn, WeakStrings, Ready, Living, Wf, Queued, Tri, NothingDead;
    var d := s5.(cw := !s5.cw);
    TwupsEnd(s1, s2, s3, s5);
    Flip(s5, l);
    MetasFlip(s0, Marks(s0), s5, d);
    InsideReady(s5, l);
    RootsEnd(s0, s1, s2, s3, s4, s5);
    FinEnd(s0, s2, s3, s5);
    AtomicFrame(s0, s2, s3, s5);
    StronglyEnd(s0, s1, s2, s3, s5, l, limit);
  }

  lemma StronglyEnd(s0: G, s1: G, s2: G, s3: G, s5: G, l: set<Ref>, limit: set<Ref>)
    requires Traced(s0, s1) && Traced(s1, s2) && Traced(s3, s5) && Inside(s1, limit) && Clean(s0, s1)
    requires s3 == s2.(finobj := s3.finobj, tobefnz := s3.tobefnz)
    requires s3.finobj == Select(s2.finobj, s2.marked, false, false)
    requires s3.tobefnz == s2.tobefnz + Select(s2.finobj, s2.marked, false, true)
    requires StringsOnly(s2.heap, Marks(s1), Marks(s2)) && s0.mainthread in Marks(s0)
    requires s1.running in Marks(s1) && In(s1.registry, Marks(s1)) && ValsIn(s1.mt, Marks(s1))
    requires Marks(s5) <= l && (Tidy(s0) && NothingDead(s0) ==> l <= Marks(s1) + Strings(s1.heap))
    requires Fate(s0.heap, s5.heap, Marks(s1), Marks(s5))
    requires TouchedIn(s0, Marks(s1)) && WeakStrings(s0.heap, Marks(s1), Marks(s5))
    ensures Strongly(s0, s5.(cw := !s5.cw), Marks(s1), s2.marked)
  {
    hide Inside, Marked, Select, Fate, FewerHeap, StringsOnly, Tidy, StrongClosed, TouchedIn, WeakStrings, NothingDead;
    SameStrings(s0, s1);
    SameStrings2(s1, s2);
    StringsUp(s2.heap, Marks(s1), Marks(s2));
    if Tidy(s0) {
      TidyClean(s0, s1);
      Saturated(s1, limit);
      StrongBack(s0, s1, Marks(s1));
    }
  }

  lemma StringsUp(h: Heap, s: set<Ref>, t: set<Ref>)
    requires StringsOnly(h, s, t)
    ensures t <= s + Strings(h)
  {
  }

  lemma SameStrings(g: G, d: G)
    requires Clean(g, d)
    ensures Strings(g.heap) == Strings(d.heap)
  {
    forall r | r in g.heap ensures g.heap[r].Str? == d.heap[r].Str? { assert DeadKeyObject(d.heap[r], g.heap[r]); }
  }

  lemma SameStrings2(g: G, d: G)
    requires Traced(g, d)
    ensures Strings(g.heap) == Strings(d.heap)
  {
    forall r | r in g.heap ensures g.heap[r].Str? == d.heap[r].Str? { assert Fewer(d.heap[r], g.heap[r]); }
  }

  lemma RootsEnd(s0: G, s1: G, s2: G, s3: G, s4: G, s5: G)
    requires Traced(s0, s1) && Traced(s1, s2) && Traced(s3, s4) && Traced(s4, s5)
    requires s3 == s2.(finobj := s3.finobj, tobefnz := s3.tobefnz)
    requires s0.mainthread in Marks(s0)
    requires s1.running in Marks(s1) && In(s1.registry, Marks(s1)) && ValsIn(s1.mt, Marks(s1))
    requires forall r :: r in s4.tobefnz ==> r in Marks(s4)
    ensures RootsIn(s5.(cw := !s5.cw), Marks(s5))
  {
    hide FewerHeap;
  }

  lemma FinEnd(s0: G, s2: G, s3: G, s5: G)
    requires Traced(s0, s2) && Traced(s3, s5) && s3 == s2.(finobj := s3.finobj, tobefnz := s3.tobefnz)
    requires s3.finobj == Select(s2.finobj, s2.marked, false, false)
    requires FinIn(s0, s0.heap.Keys) && s0.marked.Keys == s0.heap.Keys
    ensures FinIn(s5.(cw := !s5.cw), Marks(s5))
  {
    hide FewerHeap;
    SelectKept(s2.finobj, s2.marked);
  }

  lemma AtomicFrame(s0: G, s2: G, s3: G, s5: G)
    requires Traced(s0, s2) && Traced(s3, s5) && s3 == s2.(finobj := s3.finobj, tobefnz := s3.tobefnz)
    ensures s5.cw == s0.cw && Marks(s0) <= Marks(s5) && FewerHeap(s5.heap, s0.heap) && s5.marked.Keys == s0.marked.Keys
    ensures var d := s5.(cw := !s5.cw);
      d == s0.(heap := d.heap, upvals := d.upvals, marked := d.marked, cw := d.cw, gcstate := d.gcstate, gray := d.gray,
               grayagain := d.grayagain, weak := d.weak, allweak := d.allweak, ephemeron := d.ephemeron, twups := d.twups,
               finobj := d.finobj, tobefnz := d.tobefnz)
    ensures forall r :: r in s5.twups ==> r in s0.twups || (r in s5.heap && s5.heap[r].Thread?)
  {
    FewerTrans(s0.heap, s3.heap, s5.heap);
    forall r | r in s3.heap ensures Fewer(s5.heap[r], s3.heap[r]) {}
  }

  lemma TwupsEnd(s1: G, s2: G, s3: G, s5: G)
    requires Traced(s1, s2) && Traced(s3, s5) && s3.twups == s2.twups && s3.marked == s2.marked
    requires forall r :: r in s1.twups ==> r in Marks(s1)
    ensures forall r :: r in s5.twups ==> r in Marks(s5)
  {
  }
}
