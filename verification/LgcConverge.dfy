/** 'convergeephemerons': revisit ephemeron tables until no key turns up any more. */
module LgcConverge {
  import opened LgcHeap
  import opened LgcGrow
  import opened LgcMark
  import opened LgcTraverse
  import opened LgcPropagate

  /** Every entry of the tables of l whose key is marked has its value marked. */
  ghost predicate AllSettled(g: G, l: seq<Ref>) {
    forall r :: r in l ==> r in g.heap && g.heap[r].Table? && Settled(g.heap, g.heap[r].nodes, Marks(g))
  }

  /** Like Visit, but the list of ephemeron tables may be rebuilt. */
  ghost predicate Revisit(g: G, d: G) {
    Visit(g.(ephemeron := []), d.(ephemeron := []))
  }

  lemma RevisitRefl(g: G)
    ensures Revisit(g, g)
  {
    VisitRefl(g.(ephemeron := []));
  }

  lemma RevisitTrans(g: G, m: G, d: G)
    requires Revisit(g, m) && Revisit(m, d)
    ensures Revisit(g, d)
  {
    VisitTrans(g.(ephemeron := []), m.(ephemeron := []), d.(ephemeron := []));
  }

  lemma VisitRevisit(g: G, d: G)
    requires Visit(g, d)
    ensures Revisit(g, d)
  {
  }

  lemma RevisitFacts(g: G, d: G)
    requires Revisit(g, d)
    ensures Marks(g) <= Marks(d) && FewerHeap(d.heap, g.heap) && d.gcstate == g.gcstate && d.marked.Keys == g.marked.Keys
    ensures Suffix(g.weak, d.weak) && Suffix(g.allweak, d.allweak)
    ensures d == g.(heap := d.heap, upvals := d.upvals, marked := d.marked, gray := d.gray, grayagain := d.grayagain,
                    weak := d.weak, allweak := d.allweak, ephemeron := d.ephemeron, twups := d.twups)
  {
    var a, b := g.(ephemeron := []), d.(ephemeron := []);
    assert Marks(a) == Marks(g) && Marks(b) == Marks(d);
  }

  // ----- One table -----

  lemma SplitE(s: G, w: Ref, e: seq<Ref>)
    requires Marking(s, {}, [], [w] + e, true) && s.gcstate == InsideAtomic
    ensures Marking(s, {w}, [], e, true)
    ensures w in s.heap && w in s.marked && s.marked[w].Gray? && s.heap[w].Table? && In(s.heap[w].meta, Marks(s))
    ensures s.heap[w].mode.weakKey && !s.heap[w].mode.weakValue && w !in s.gray
  {
    assert w in [w] + e;
    assert Ephemerons(s, [], [w] + e);
    assert Idle(s, {}, [], w);
    assert forall r :: r in [w] + e <==> r == w || r in e;
    assert Parked(s, w, [w] + e, Marks(s));
    forall r | Idle(s, {w}, [], r) ensures Parked(s, r, e, Marks(s)) {
      assert Idle(s, {}, [], r);
    }
  }

  lemma EphemeronBound(s: G, w: Ref, limit: set<Ref>)
    requires Ready(s, limit) && w in s.heap && w in s.marked && !s.marked[w].White? && s.heap[w].Table?
    requires s.heap[w].mode.weakKey && !s.heap[w].mode.weakValue
    ensures ValsIn(s.heap[w].arr, limit) && EphemeronIn(s.heap[w].nodes, limit)
    ensures StrKeysIn(s.heap, s.heap[w].nodes, limit, false)
  {
    assert w in Marks(s);
  }

  /** Table w was traversed again and is back in some list. */
  lemma Relinked(s: G, d: G, w: Ref, e: seq<Ref>, limit: set<Ref>)
    requires Ready(s, limit) && Marking(s, {}, [], [w] + e, true) && s.gcstate == InsideAtomic && s.gray == []
    requires Grow(s, Unlinked(s, d), {}, limit) && d.upvals == s.upvals && DeadKeys(d.heap, s.heap)
    requires w in d.heap && d.heap[w].Table? && ValsIn(d.heap[w].arr, Marks(d))
    requires d.weak == s.weak && d.grayagain == s.grayagain
    requires (d.ephemeron == [w] + s.ephemeron && d.allweak == s.allweak) ||
             (d.ephemeron == s.ephemeron && d.allweak == [w] + s.allweak && AllVals(d.heap[w].nodes, Marks(d))) ||
             (d.ephemeron == s.ephemeron && d.allweak == s.allweak && EntriesIn(d.heap[w].nodes, Marks(d)))
    ensures Ready(d, limit) && Marking(d, {}, [], e, true) && Visit(s, d)
    ensures |Whites(d)| <= |Whites(s)|
    ensures StringsOnly(d.heap, Marks(s), Marks(d)) ==> d.gray == []
  {
    hide Marking, Grow, Parked, Visit, BlackIn, DeadKeys, Joined, Tidied, FullyWeak, Marked;
    SplitE(s, w, e);
    var b := Unlinked(s, d);
    ReadyKeys(s, limit);
    GrowMarking(s, b, {w}, [], e, true, limit);
    StillMarked(s, b, w, limit);
    GrowFacts(s, b, limit);
    assert Base(s, d) == b;
    RelinkedJoined(s, d, w, limit);
    BaseFacts(s, d, limit);
    assert Settles(s, d, w, true);
    PopApart(s, b, w, [], e, true, limit);
    SettledMarking(s, d, w, [], e, true);
    RelinkedVisit(s, d, w, limit);
    if StringsOnly(d.heap, Marks(s), Marks(d)) { StringsNoGray(s, b, limit); }
  }

  lemma RelinkedJoined(s: G, d: G, w: Ref, limit: set<Ref>)
    requires Grow(s, Unlinked(s, d), {}, limit) && w in s.heap && w in d.heap && d.heap[w].Table?
    requires s.heap[w].Table? && s.heap[w].mode.weakKey && !s.heap[w].mode.weakValue && In(s.heap[w].meta, Marks(s))
    requires ValsIn(d.heap[w].arr, Marks(d))
    requires d.allweak == s.allweak || (d.allweak == [w] + s.allweak && AllVals(d.heap[w].nodes, Marks(d)))
    ensures Joined(s, d) && d.heap[w].mode == s.heap[w].mode && In(d.heap[w].meta, Marks(d))
    ensures d.allweak == s.allweak || (Tidied(d.heap[w], Marks(d)) && FullyWeak(d.heap[w], Marks(d)))
  {
    hide Grayed;
    var b := Unlinked(s, d);
    GrowMarks(s, b, {}, limit);
    assert Marks(b) == Marks(d);
    assert Fewer(b.heap[w], s.heap[w]);
  }

  lemma RelinkedVisit(s: G, d: G, w: Ref, limit: set<Ref>)
    requires Grow(s, Unlinked(s, d), {}, limit) && d.upvals == s.upvals && s.gcstate == InsideAtomic
    requires DeadKeys(d.heap, s.heap) && w in d.heap
    requires d.allweak == s.allweak || Tidied(d.heap[w], Marks(d))
    requires d.weak == s.weak && d.grayagain == s.grayagain
    requires (d.ephemeron == [w] + s.ephemeron && d.allweak == s.allweak) ||
             (d.ephemeron == s.ephemeron && d.allweak == [w] + s.allweak) ||
             (d.ephemeron == s.ephemeron && d.allweak == s.allweak)
    ensures Visit(s, d)
  {
    hide Grayed;
    GrowMarks(s, Unlinked(s, d), {}, limit);
  }

  lemma StringsNoGray(g: G, d: G, limit: set<Ref>)
    requires Grow(g, d, {}, limit) && StringsOnly(d.heap, Marks(g), Marks(d)) && g.marked.Keys == g.heap.Keys
    ensures d.gray == g.gray
  {
    forall r ensures r !in Added(g, d) {
      assert r in Added(g, d) <==> NewlyGray(g, d, r);
      assert NewlyGray(g, d, r) ==> r in Marks(d) && r !in Marks(g);
      if r in g.heap && r in g.marked { assert Fewer(d.heap[r], g.heap[r]); }
    }
    if Added(g, d) != [] { var _ := Member(Added(g, d)); }
  }

  /** Tables that were settled stay so while only strings get marked. */
  lemma StaySettled(g: G, d: G, l: seq<Ref>)
    requires AllSettled(g, l) && FewerHeap(d.heap, g.heap) && Marks(g) <= Marks(d)
    requires StringsOnly(d.heap, Marks(g), Marks(d))
    ensures AllSettled(d, l)
  {
    forall r | IsString(d.heap, r) ensures IsString(g.heap, r) { assert Fewer(d.heap[r], g.heap[r]); }
    forall r | r in l ensures d.heap[r].Table? && Settled(d.heap, d.heap[r].nodes, Marks(d)) {
      assert Fewer(d.heap[r], g.heap[r]);
      SettledFewer(g.heap, d.heap, g.heap[r].nodes, d.heap[r].nodes, Marks(g), Marks(d));
    }
  }

  lemma SettledFewer(h: Heap, h': Heap, ns: seq<Node>, ns': seq<Node>, s: set<Ref>, t: set<Ref>)
    requires Settled(h, ns, s) && FewerNodes(ns', ns) && s <= t && StringsOnly(h', s, t)
    requires forall r :: IsString(h', r) ==> IsString(h, r)
    ensures Settled(h', ns', t)
  {
    forall i | 0 <= i < |ns| ensures SettledNode(h', ns'[i], t) {
      assert FewerNode(ns'[i], ns[i]);
    }
  }

  /** One table of the inner loop of 'convergeephemerons' */
  method RevisitTable(g: GlobalState, w: Ref, ghost e: seq<Ref>, ghost limit: set<Ref>) returns (changed: bool)
    requires Ready(g.Snap(), limit) && g.gcstate == InsideAtomic && g.gray == []
    requires Marking(g.Snap(), {}, [], [w] + e, true)
    modifies g
    ensures Ready(g.Snap(), limit) && g.gcstate == InsideAtomic && g.gray == []
    ensures Marking(g.Snap(), {}, [], e, true) && Visit(old(g.Snap()), g.Snap())
    ensures |Whites(g.Snap())| <= |Whites(old(g.Snap()))|
    ensures changed ==> |Whites(g.Snap())| < |Whites(old(g.Snap()))|
    ensures !changed && AllSettled(old(g.Snap()), old(g.ephemeron)) ==> AllSettled(g.Snap(), g.ephemeron)
  {
    hide Marking, Grow, Ready, Visit, Settled, Marked, Unmarked, StringsOnly, AllSettled, EphemeronIn, EntriesIn, ValsIn;
    ghost var s := g.Snap();
    SplitE(s, w, e);
    EphemeronBound(s, w, limit);
    changed := TraverseEphemeron(g, w, limit);
    ghost var m := g.Snap();
    GrowFacts(s, Unlinked(s, m), limit);
    Relinked(s, m, w, e, limit);
    if changed {
      PropagateAll(g, [], e, limit);
      VisitTrans(s, m, g.Snap());
      VisitState(m, g.Snap());
    } else {
      RevisitSettled(s, m, w);
    }
  }

  lemma RevisitSettled(s: G, m: G, w: Ref)
    requires Visit(s, m) && StringsOnly(m.heap, Marks(s), Marks(m))
    requires m.ephemeron == [w] + s.ephemeron || m.ephemeron == s.ephemeron
    requires w in m.heap && m.heap[w].Table? && Settled(m.heap, m.heap[w].nodes, Marks(m))
    ensures AllSettled(s, s.ephemeron) ==> AllSettled(m, m.ephemeron)
  {
    hide Visit, Settled, Marked, StringsOnly, FewerHeap;
    VisitFacts(s, m);
    if AllSettled(s, s.ephemeron) { StaySettled(s, m, s.ephemeron); }
  }

  lemma VisitFacts(g: G, d: G)
    requires Visit(g, d)
    ensures FewerHeap(d.heap, g.heap) && Marks(g) <= Marks(d) && d.gcstate == g.gcstate && d.marked.Keys == g.marked.Keys
    ensures Suffix(g.weak, d.weak) && Suffix(g.allweak, d.allweak) && Suffix(g.ephemeron, d.ephemeron)
    ensures d == g.(heap := d.heap, upvals := d.upvals, marked := d.marked, gray := d.gray, grayagain := d.grayagain,
                    weak := d.weak, allweak := d.allweak, ephemeron := d.ephemeron, twups := d.twups)
  {
  }

  // ----- The whole loop -----

  /** The list of ephemeron tables is taken off, to be rebuilt. */
  lemma TakeOff(s: G)
    requires Marking(s, {}, [], [], true) && s.gcstate == InsideAtomic
    ensures Marking(s.(ephemeron := []), {}, [], s.ephemeron, true) && Revisit(s, s.(ephemeron := []))
  {
    var d := s.(ephemeron := []);
    RevisitRefl(s);
    assert Tri(d, {}, true);
    forall r | Idle(d, {}, [], r) ensures Parked(d, r, s.ephemeron, Marks(d)) {
      assert Idle(s, {}, [], r);
    }
  }

  lemma TakeOffReady(s: G, limit: set<Ref>)
    requires Ready(s, limit)
    ensures Ready(s.(ephemeron := []), limit)
  {
  }

  /** 'convergeephemerons': it ends, and then a marked key means a marked value. */
  method ConvergeEphemerons(g: GlobalState, ghost limit: set<Ref>)
    requires Ready(g.Snap(), limit) && g.gcstate == InsideAtomic && g.gray == []
    requires Marking(g.Snap(), {}, [], [], true)
    modifies g
    ensures Ready(g.Snap(), limit) && g.gcstate == InsideAtomic && g.gray == []
    ensures Marking(g.Snap(), {}, [], [], true) && Revisit(old(g.Snap()), g.Snap())
    ensures AllSettled(g.Snap(), g.ephemeron)
  {
    hide Marking, Ready, Visit, Settled, Unmarked, Revisit;
    ghost var s0 := g.Snap();
    RevisitRefl(s0);
    var changed := true;
    while changed
      invariant Ready(g.Snap(), limit) && g.gcstate == InsideAtomic && g.gray == []
      invariant Marking(g.Snap(), {}, [], [], true) && Revisit(s0, g.Snap())
      invariant !changed ==> AllSettled(g.Snap(), g.ephemeron)
      decreases |Whites(g.Snap())|, changed
    {
      ghost var s := g.Snap();
      TakeOff(s);
      TakeOffReady(s, limit);
      var next := g.ephemeron;
      g.ephemeron := [];
      changed := false;
      RevisitTrans(s0, s, g.Snap());
      while next != []
        invariant Ready(g.Snap(), limit) && g.gcstate == InsideAtomic && g.gray == []
        invariant Marking(g.Snap(), {}, [], next, true) && Revisit(s0, g.Snap())
        invariant |Whites(g.Snap())| <= |Whites(s)|
        invariant changed ==> |Whites(g.Snap())| < |Whites(s)|
        invariant !changed ==> AllSettled(g.Snap(), g.ephemeron)
      {
        ghost var m := g.Snap();
        var w := next[0];
        assert next == [w] + next[1..];
        next := next[1..];
        var c := RevisitTable(g, w, next, limit);
        VisitRevisit(m, g.Snap());
        RevisitTrans(s0, m, g.Snap());
        changed := changed || c;
      }
    }
  }
}
