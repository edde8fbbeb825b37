/** 'propagatemark' and 'propagateall': gray objects turn black, or wait in a list. */
module LgcPropagate {
  import opened LgcHeap
  import opened LgcGrow
  import opened LgcMark
  import opened LgcTraverse

  ghost predicate HasOpen(us: UpVals, th: Ref) {
    exists u :: u in us && us[u].Open? && us[u].th == th
  }

  /** A gray object that waits for the end of the atomic phase: a thread whose stack is marked, or
      a weak table in the list of what must still be done to it. Its metatable was marked when it
      was visited; but a table in 'allweak' may have got another one since. */
  ghost predicate Parked(g: G, r: Ref, e: seq<Ref>, s: set<Ref>)
    requires r in g.heap
  {
    match g.heap[r]
    case Thread(stack) => ValsIn(stack, s) && (HasOpen(g.upvals, r) ==> r in g.twups)
    case Table(meta, _, arr, nodes) =>
      || r in g.allweak
      || (&& In(meta, s)
          && (|| (r in g.weak && KeysIn(nodes, s))
              || ((r in g.ephemeron || r in e) && ValsIn(arr, s))
              || (ValsIn(arr, s) && EntriesIn(nodes, s))))
    case _ => false
  }

  /** While the program runs, only fully weak tables wait outside 'gray' and 'grayagain'. */
  ghost predicate Waiting(g: G, r: Ref, s: set<Ref>)
    requires r in g.heap
  {
    g.heap[r].Table? && r in g.allweak
  }

  predicate GrayRefs(g: G, l: seq<Ref>) {
    forall r :: r in l ==> r in g.heap && r in g.marked && g.marked[r].Gray? && Traversable(g.heap[r])
  }

  /** The invariant of marking, for objects outside x. Objects to be visited are those of 'gray'
      and of q; e holds ephemeron tables that are being revisited. */
  ghost predicate Marking(g: G, x: set<Ref>, q: seq<Ref>, e: seq<Ref>, inside: bool) {
    Tri(g, x, inside) && Queued(g, x, q, e)
  }

  /** Gray objects are in the list they belong to. */
  ghost predicate Queued(g: G, x: set<Ref>, q: seq<Ref>, e: seq<Ref>) {
    && NoDups(g.gray + q) && GrayRefs(g, g.gray) && GrayRefs(g, q)
    && Listed(g) && Apart(g, q) && Ephemerons(g, q, g.ephemeron) && Ephemerons(g, q, e) && NoGrayUdata(g)
    && forall r :: Idle(g, x, q, r) ==>
         if g.gcstate == Propagate then Waiting(g, r, Marks(g)) else Parked(g, r, e, Marks(g))
  }

  ghost predicate NoGrayUdata(g: G) {
    forall r :: r in g.heap && r in g.marked && g.marked[r].Gray? ==> !g.heap[r].Udata?
  }

  predicate MarkedTable(g: G, r: Ref) {
    r in g.heap && g.heap[r].Table? && r in Marks(g)
  }

  /** Tables with weak keys and strong values that are not waiting for a visit. */
  predicate Ephemerons(g: G, q: seq<Ref>, l: seq<Ref>) {
    forall r :: r in l ==>
      && MarkedTable(g, r) && g.marked[r].Gray? && g.heap[r].mode.weakKey && !g.heap[r].mode.weakValue
      && r !in g.gray && r !in q && In(g.heap[r].meta, Marks(g))
  }

  /** Tables of 'allweak' are not waiting for a visit. */
  predicate Apart(g: G, q: seq<Ref>) {
    forall r :: r in g.allweak ==> r in g.marked && g.marked[r].Gray? && r !in g.gray && r !in q
  }

  predicate Listed(g: G) {
    && (forall r :: r in g.weak ==> MarkedTable(g, r) && g.heap[r].mode.weakValue && !g.heap[r].mode.weakKey)
    && (forall r :: r in g.allweak ==> MarkedTable(g, r))
  }

  /** A gray object that is not going to be visited as things are. */
  ghost predicate Idle(g: G, x: set<Ref>, q: seq<Ref>, r: Ref) {
    && r in g.heap && r in g.marked && g.marked[r].Gray? && Traversable(g.heap[r])
    && r !in x && r !in g.gray && r !in q
  }

  lemma ParkedMore(g: G, d: G, r: Ref, e: seq<Ref>, s: set<Ref>, t: set<Ref>)
    requires r in g.heap && r in d.heap && Fewer(d.heap[r], g.heap[r]) && Parked(g, r, e, s) && s <= t
    requires TouchUps(d.upvals, g.upvals) && (r in g.twups ==> r in d.twups)
    requires r in g.weak ==> r in d.weak
    requires r in g.allweak ==> r in d.allweak
    requires r in g.ephemeron ==> r in d.ephemeron
    ensures Parked(d, r, e, t)
  {
    if g.heap[r].Table? {
      forall i | 0 <= i < |g.heap[r].nodes| ensures FewerNode(d.heap[r].nodes[i], g.heap[r].nodes[i]) {}
    } else if HasOpen(d.upvals, r) {
      var u :| u in d.upvals && d.upvals[u].Open? && d.upvals[u].th == r;
      assert TouchUp(d.upvals[u], g.upvals[u]);
      assert HasOpen(g.upvals, r);
    }
  }

  /** Marking more objects keeps the invariant. */
  lemma GrowMarking(g: G, d: G, x: set<Ref>, q: seq<Ref>, e: seq<Ref>, inside: bool, limit: set<Ref>)
    requires Grow(g, d, {}, limit) && Marking(g, x, q, e, inside) && g.marked.Keys == g.heap.Keys
    ensures Marking(d, x, q, e, inside)
  {
    GrowTri(g, d, limit, x, inside);
    GrowQueued(g, d, x, q, e, limit);
  }

  lemma GrowQueued(g: G, d: G, x: set<Ref>, q: seq<Ref>, e: seq<Ref>, limit: set<Ref>)
    requires Grow(g, d, {}, limit) && Queued(g, x, q, e) && g.marked.Keys == g.heap.Keys
    ensures Queued(d, x, q, e)
  {
    hide Living;
    GrowMarks(g, d, {}, limit);
    GrowLists(g, d, q, limit);
    GrowTables(g, d, q, e, limit);
    hide Listed, Apart, Ephemerons, GrayRefs, NoDups;
    forall r | r in d.heap && r in d.marked && d.marked[r].Gray? ensures !d.heap[r].Udata? {
      assert Fewer(d.heap[r], g.heap[r]);
    }
    forall r | Idle(d, x, q, r)
      ensures if d.gcstate == Propagate then Waiting(d, r, Marks(d)) else Parked(d, r, e, Marks(d))
    {
      assert Fewer(d.heap[r], g.heap[r]);
      assert r in Added(g, d) <==> NewlyGray(g, d, r);
      assert r !in Added(g, d);
      assert Idle(g, x, q, r);
      if g.gcstate != Propagate { ParkedMore(g, d, r, e, Marks(g), Marks(d)); }
    }
  }

  lemma GrowTables(g: G, d: G, q: seq<Ref>, e: seq<Ref>, limit: set<Ref>)
    requires Grow(g, d, {}, limit) && Listed(g) && Apart(g, q) && Ephemerons(g, q, g.ephemeron) && Ephemerons(g, q, e)
    ensures Listed(d) && Apart(d, q) && Ephemerons(d, q, d.ephemeron) && Ephemerons(d, q, e)
  {
    GrowMarks(g, d, {}, limit);
    forall r | MarkedTable(g, r)
      ensures MarkedTable(d, r) && d.heap[r].mode == g.heap[r].mode && d.heap[r].meta == g.heap[r].meta && d.marked[r] == g.marked[r]
      ensures r !in g.gray ==> r !in d.gray
    {
      assert Fewer(d.heap[r], g.heap[r]);
      assert r in Added(g, d) <==> NewlyGray(g, d, r);
    }
  }

  /** While the program runs, idle gray objects are fully weak tables. */
  ghost predicate AllWaiting(g: G) {
    forall r :: Idle(g, {}, g.grayagain, r) ==> Waiting(g, r, Marks(g))
  }

  lemma GrowWaiting(g: G, d: G, limit: set<Ref>)
    requires Grow(g, d, {}, limit) && AllWaiting(g) && g.marked.Keys == g.heap.Keys
    ensures AllWaiting(d)
  {
    GrowMarks(g, d, {}, limit);
    forall r | Idle(d, {}, d.grayagain, r) ensures Waiting(d, r, Marks(d)) {
      assert Fewer(d.heap[r], g.heap[r]);
      assert r in Added(g, d) <==> NewlyGray(g, d, r);
      assert Idle(g, {}, g.grayagain, r);
    }
  }

  lemma GrowLists(g: G, d: G, q: seq<Ref>, limit: set<Ref>)
    requires Grow(g, d, {}, limit) && g.marked.Keys == g.heap.Keys
    requires NoDups(g.gray + q) && GrayRefs(g, g.gray) && GrayRefs(g, q)
    ensures NoDups(d.gray + q) && GrayRefs(d, d.gray) && GrayRefs(d, q)
    ensures forall r :: r in g.gray ==> r in d.gray
  {
    var p := Added(g, d);
    assert d.gray + q == p + (g.gray + q);
    forall r | r in p ensures r !in g.gray + q && r in g.heap {
      assert NewlyGray(g, d, r);
    }
    AppendNoDups(p, g.gray + q);
    forall r | r in d.heap ensures Fewer(d.heap[r], g.heap[r]) {}
    forall r | r in d.gray ensures r in d.heap && r in d.marked && d.marked[r].Gray? && Traversable(d.heap[r]) {
      assert r in p || r in g.gray;
      if r in p { assert NewlyGray(g, d, r); }
    }
  }

  // ----- Visiting one object -----

  /** 'traverseLclosure': the values of open upvalues are left to 'remarkupvals', except in the
      atomic phase. */
  method TraverseLclosure(g: GlobalState, h: Ref, ghost limit: set<Ref>)
    requires Ready(g.Snap(), limit) && h in g.heap && g.heap[h].LCl? && RefsIn(g.heap, g.upvals, g.heap[h], limit)
    modifies g
    ensures Grow(old(g.Snap()), g.Snap(), {}, limit) && g.heap == old(g.heap)
    ensures BlackIn(g.heap, g.upvals, g.heap[h], Marks(g.Snap()), g.gcstate == InsideAtomic)
    ensures g.gcstate == InsideAtomic ==> g.upvals == old(g.upvals)
  {
    hide Grow, Ready, Marked;
    ghost var s0 := g.Snap();
    ghost var inside := g.gcstate == InsideAtomic;
    ClosureRefs(s0, h, limit);
    var ups := g.heap[h].ups;
    MarkValue(g, g.heap[h].proto, limit);
    GrowOn0(s0, g.Snap(), limit);
    GrowFacts(s0, g.Snap(), limit);
    for i := 0 to |ups|
      invariant g.gcstate == s0.gcstate && (inside ==> g.upvals == s0.upvals)
      invariant Ready(g.Snap(), limit) && Grow(s0, g.Snap(), {}, limit) && g.heap == s0.heap
      invariant g.upvals.Keys == s0.upvals.Keys
      invariant In(g.heap[h].proto, Marks(g.Snap()))
      invariant forall j :: 0 <= j < i ==> UpIn(g.heap, g.upvals, ups[j], Marks(g.Snap()), inside)
    {
      ghost var s := g.Snap();
      var u := ups[i];
      UpRefs(s0, s, u, limit);
      if g.upvals[u].Open? && g.gcstate != InsideAtomic {
        TouchGrow(s, u, limit);
        g.upvals := g.upvals[u := g.upvals[u].(touched := true)];
      } else {
        MarkValue(g, UpValue(g.heap, g.upvals, u), limit);
      }
      GrowOn(s0, s, g.Snap(), limit);
      GrowFacts(s0, g.Snap(), limit);
    }
  }

  lemma TouchGrow(g: G, u: UpRef, limit: set<Ref>)
    requires u in g.upvals && g.upvals[u].Open? && In(UpValue(g.heap, g.upvals, u), limit)
    ensures Grow(g, g.(upvals := g.upvals[u := g.upvals[u].(touched := true)]), {}, limit)
  {
  }

  lemma ClosureRefs(g: G, h: Ref, limit: set<Ref>)
    requires Ready(g, limit) && h in g.heap && g.heap[h].LCl?
    ensures RefsIn(g.heap, g.upvals, g.heap[h], g.heap.Keys)
    ensures forall i :: 0 <= i < |g.heap[h].ups| ==> g.heap[h].ups[i] in g.upvals
  {
    assert h in Alive(g);
  }

  lemma UpRefs(g: G, d: G, u: UpRef, limit: set<Ref>)
    requires Grow(g, d, {}, limit)
    ensures UpValue(d.heap, d.upvals, u) == UpValue(g.heap, g.upvals, u)
  {
    SameUp(g.heap, g.upvals, d.heap, d.upvals, u);
  }

  /** 'traverseCclosure', 'traverseproto' */
  method TraverseValues(g: GlobalState, h: Ref, vs: seq<TValue>, ghost limit: set<Ref>)
    requires Ready(g.Snap(), limit) && h in g.heap && RefsIn(g.heap, g.upvals, g.heap[h], limit)
    requires g.heap[h] == CCl(vs) || g.heap[h] == Proto(vs)
    modifies g
    ensures Grow(old(g.Snap()), g.Snap(), {}, limit) && g.heap == old(g.heap) && g.upvals == old(g.upvals)
    ensures BlackIn(g.heap, g.upvals, g.heap[h], Marks(g.Snap()), g.gcstate == InsideAtomic)
  {
    assert h in Alive(g.Snap());
    MarkValues(g, vs, limit);
  }

  /** 'traversethread' */
  method TraverseThread(g: GlobalState, th: Ref, ghost limit: set<Ref>)
    requires Ready(g.Snap(), limit) && th in g.heap && g.heap[th].Thread? && ValsIn(g.heap[th].stack, limit)
    modifies g
    ensures Grow(old(g.Snap()), g.Snap().(twups := old(g.twups)), {}, limit) && g.heap == old(g.heap) && g.upvals == old(g.upvals)
    ensures ValsIn(g.heap[th].stack, Marks(g.Snap()))
    ensures g.twups == old(g.twups) || (g.gcstate == InsideAtomic && g.twups == [th] + old(g.twups))
    ensures g.gcstate == InsideAtomic && HasOpen(g.upvals, th) ==> th in g.twups
  {
    hide Grow;
    assert th in Alive(g.Snap());
    MarkValues(g, g.heap[th].stack, limit);
    GrowFacts(old(g.Snap()), g.Snap(), limit);
    ghost var d := g.Snap();
    if g.gcstate == InsideAtomic {
      var open := exists u :: u in g.upvals && g.upvals[u].Open? && g.upvals[u].th == th;
      if th !in g.twups && open {
        g.twups := [th] + g.twups;
      }
    }
    assert g.Snap().(twups := old(g.twups)) == d;
  }

  /** A table of 'allweak': weak in both ways, or an ephemeron table with all its values in s. */
  predicate FullyWeak(o: Object, s: set<Ref>) {
    o.Table? && o.mode.weakKey && (o.mode.weakValue || (ValsIn(o.arr, s) && AllVals(o.nodes, s)))
  }

  /** The same, and the metatable is in s. */
  predicate Tidied(o: Object, s: set<Ref>) {
    FullyWeak(o, s) && In(o.meta, s)
  }

  /** Table h was linked into the list that fits what is known about it. */
  ghost predicate Linked(g: G, d: G, h: Ref)
    requires h in d.heap && d.heap[h].Table?
  {
    var t, s := d.heap[h], Marks(d);
    if d.gcstate == Propagate then
      && d.weak == g.weak && d.ephemeron == g.ephemeron
      && ((d.grayagain == [h] + g.grayagain && d.allweak == g.allweak) ||
          (d.grayagain == g.grayagain && d.allweak == [h] + g.allweak && FullyWeak(t, s)))
    else
      && d.grayagain == g.grayagain
      && (|| (d.weak == g.weak && d.ephemeron == g.ephemeron && d.allweak == [h] + g.allweak && FullyWeak(t, s))
          || (d.weak == [h] + g.weak && d.ephemeron == g.ephemeron && d.allweak == g.allweak && KeysIn(t.nodes, s)
              && t.mode.weakValue && !t.mode.weakKey)
          || (d.weak == g.weak && d.ephemeron == [h] + g.ephemeron && d.allweak == g.allweak && ValsIn(t.arr, s)
              && t.mode.weakKey && !t.mode.weakValue)
          || (d.weak == g.weak && d.ephemeron == g.ephemeron && d.allweak == g.allweak
              && ValsIn(t.arr, s) && EntriesIn(t.nodes, s)))
  }

  predicate IsWeak(o: Object) {
    o.Table? && (o.mode.weakKey || o.mode.weakValue)
  }

  predicate BothWeak(o: Object) {
    o.Table? && o.mode.weakKey && o.mode.weakValue
  }

  /** The part of 'traversetable' for weak tables. */
  method TraverseWeak(g: GlobalState, h: Ref, ghost limit: set<Ref>)
    requires Ready(g.Snap(), limit) && h in g.heap && IsWeak(g.heap[h]) && ContentIn(g.heap, g.upvals, g.heap[h], limit)
    requires MetIn(g.heap, g.heap[h], limit, false)
    modifies g
    ensures Grow(old(g.Snap()), Unlinked(old(g.Snap()), g.Snap()), {}, limit) && g.upvals == old(g.upvals)
    ensures DeadKeys(g.heap, old(g.heap))
    ensures h in g.heap && g.heap[h].Table? && Linked(old(g.Snap()), g.Snap(), h)
    ensures BothWeak(old(g.heap)[h]) ==> g.grayagain == old(g.grayagain) && g.allweak == [h] + old(g.allweak)
  {
    hide Grow, Ready, DeadKeys, Marked, Settled, StringsOnly, Unmarked;
    ghost var s := g.Snap();
    var t := g.heap[h];
    DeadKeysRefl(s.heap);
    if !t.mode.weakKey {
      TraverseWeakValue(g, h, limit);
      GrowFacts(s, Unlinked(s, g.Snap()), limit);
    } else if !t.mode.weakValue {
      var _ := TraverseEphemeron(g, h, limit);
      GrowFacts(s, Unlinked(s, g.Snap()), limit);
    } else {
      g.allweak := [h] + g.allweak;
      GrowRefl(s, limit);
      assert Unlinked(s, g.Snap()) == s;
    }
  }

  /** 'traversetable': a weak table stays gray. */
  method TraverseTable(g: GlobalState, h: Ref, ghost limit: set<Ref>)
    requires Ready(g.Snap(), limit) && h in g.heap && g.heap[h].Table? && StrongIn(g.heap, g.upvals, g.heap[h], limit)
    requires MetIn(g.heap, g.heap[h], limit, false)
    requires h in g.marked && g.marked[h].Black?
    modifies g
    ensures h in g.heap && g.heap[h].Table? && h in g.marked && g.upvals == old(g.upvals)
    ensures DeadKeys(g.heap, old(g.heap))
    ensures g.marked[h] == if IsWeak(old(g.heap)[h]) then Gray else Black
    ensures Grow(old(g.Snap()).(marked := old(g.marked)[h := g.marked[h]]), Unlinked(old(g.Snap()), g.Snap()), {}, limit)
    ensures In(g.heap[h].meta, Marks(g.Snap()))
    ensures IsWeak(old(g.heap)[h]) ==> Linked(old(g.Snap()), g.Snap(), h)
    ensures BothWeak(old(g.heap)[h]) ==> g.grayagain == old(g.grayagain) && g.allweak == [h] + old(g.allweak)
    ensures !IsWeak(old(g.heap)[h]) ==>
              && Unlinked(old(g.Snap()), g.Snap()) == g.Snap()
              && BlackIn(g.heap, g.upvals, g.heap[h], Marks(g.Snap()), g.gcstate == InsideAtomic)
  {
    hide Grow, Ready, DeadKeys, Marked, Linked;
    ghost var s0 := g.Snap();
    var t := g.heap[h];
    TableRefs(s0, h, limit);
    DeadKeysRefl(s0.heap);
    MarkValue(g, t.meta, limit);
    ghost var m := g.Snap();
    GrowOn0(s0, m, limit);
    GrowFacts(s0, m, limit);
    if IsWeak(t) {
      Repaint(s0, m, {}, limit, h, Gray);
      g.marked := g.marked[h := Gray];
      ghost var p := g.Snap();
      RepaintReady(m, h, limit);
      TraverseWeak(g, h, limit);
      LinkedSame(s0, p, g.Snap(), h);
      TableEnd(s0.(marked := s0.marked[h := Gray]), p, g.Snap(), h, limit);
    } else {
      TraverseStrongTable(g, h, limit);
      GrowOn(s0, m, g.Snap(), limit);
      GrowFacts(s0, g.Snap(), limit);
      GrowFacts(m, g.Snap(), limit);
      StillBlack(s0, g.Snap(), h, limit);
      assert s0.(marked := s0.marked[h := Black]) == s0;
    }
  }

  lemma LinkedSame(s: G, p: G, d: G, h: Ref)
    requires h in d.heap && d.heap[h].Table? && Linked(p, d, h)
    requires s.weak == p.weak && s.ephemeron == p.ephemeron && s.allweak == p.allweak && s.grayagain == p.grayagain
    ensures Linked(s, d, h)
  {
    hide FullyWeak;
  }

  lemma StillBlack(g: G, d: G, h: Ref, limit: set<Ref>)
    requires Grow(g, d, {}, limit) && h in g.marked && !g.marked[h].White?
    ensures h in d.marked && d.marked[h] == g.marked[h]
  {
  }

  lemma RepaintReady(m: G, h: Ref, limit: set<Ref>)
    requires Ready(m, limit) && h in m.marked && !m.marked[h].White?
    ensures Ready(m.(marked := m.marked[h := Gray]), limit)
    ensures Marks(m.(marked := m.marked[h := Gray])) == Marks(m)
  {
    var p := m.(marked := m.marked[h := Gray]);
    assert Alive(p) == Alive(m) && Marks(p) == Marks(m);
  }

  lemma TableEnd(s: G, p: G, d: G, h: Ref, limit: set<Ref>)
    requires Ready(s, limit) || Ready(p, limit)
    requires Grow(s, p, {}, limit) && Grow(p, Unlinked(p, d), {}, limit)
    requires Unlinked(s, d) == Unlinked(p, d)
    requires h in s.heap && h in s.marked && s.marked[h] == Gray && s.heap[h].Table? && In(s.heap[h].meta, Marks(p))
    ensures Grow(s, Unlinked(s, d), {}, limit) && h in d.heap && h in d.marked && d.marked[h] == Gray
    ensures d.heap[h].Table? && In(d.heap[h].meta, Marks(d)) && d.heap[h].mode == s.heap[h].mode
  {
    hide Ready, Grayed;
    GrowTrans(s, p, Unlinked(p, d), {}, {}, limit);
    GrowMarks(p, Unlinked(p, d), {}, limit);
    assert Marks(Unlinked(p, d)) == Marks(d);
    assert Fewer(Unlinked(s, d).heap[h], s.heap[h]);
  }

  // ----- propagatemark -----

  predicate Suffix(l: seq<Ref>, m: seq<Ref>) {
    |l| <= |m| && m[|m| - |l|..] == l
  }

  /** Visiting gray objects leads from g to d: objects get marked, lists get longer in front. */
  ghost predicate Visit(g: G, d: G) {
    && d == g.(heap := d.heap, upvals := d.upvals, marked := d.marked, gray := d.gray, grayagain := d.grayagain,
               weak := d.weak, allweak := d.allweak, ephemeron := d.ephemeron, twups := d.twups)
    && FewerHeap(d.heap, g.heap) && DeadKeys(d.heap, g.heap) && TouchUps(d.upvals, g.upvals)
    && Marks(g) <= Marks(d) && d.marked.Keys == g.marked.Keys
    && (forall r :: r in d.allweak ==> r in g.allweak || (r in d.heap && Tidied(d.heap[r], Marks(d))))
    && Suffix(g.weak, d.weak) && Suffix(g.allweak, d.allweak) && Suffix(g.ephemeron, d.ephemeron)
    && (forall r :: r in g.twups ==> r in d.twups)
    && (forall r :: r in d.twups ==> r in g.twups || (r in Marks(d) && r in d.heap && d.heap[r].Thread?))
    && (if g.gcstate == InsideAtomic then d.upvals == g.upvals else d.twups == g.twups)
    && (g.gcstate == Propagate ==> d.weak == g.weak && d.ephemeron == g.ephemeron)
  }

  lemma VisitRefl(g: G)
    ensures Visit(g, g)
  {
  }

  lemma SuffixTrans(l: seq<Ref>, m: seq<Ref>, n: seq<Ref>)
    requires Suffix(l, m) && Suffix(m, n)
    ensures Suffix(l, n)
  {
    assert n[|n| - |l|..] == n[|n| - |m|..][|m| - |l|..];
  }

  lemma TidiedMore(m: G, d: G)
    requires FewerHeap(d.heap, m.heap) && Marks(m) <= Marks(d)
    ensures forall r :: r in m.heap && Tidied(m.heap[r], Marks(m)) ==> r in d.heap && Tidied(d.heap[r], Marks(d))
  {
    forall r | r in m.heap && Tidied(m.heap[r], Marks(m)) ensures r in d.heap && Tidied(d.heap[r], Marks(d)) {
      assert Fewer(d.heap[r], m.heap[r]);
      forall i | 0 <= i < |m.heap[r].nodes| ensures FewerNode(d.heap[r].nodes[i], m.heap[r].nodes[i]) {}
    }
  }

  lemma VisitTrans(g: G, m: G, d: G)
    requires Visit(g, m) && Visit(m, d)
    ensures Visit(g, d)
  {
    FewerTrans(g.heap, m.heap, d.heap);
    DeadKeysTrans(g.heap, m.heap, d.heap);
    TidiedMore(m, d);
    SuffixTrans(g.weak, m.weak, d.weak);
    SuffixTrans(g.allweak, m.allweak, d.allweak);
    SuffixTrans(g.ephemeron, m.ephemeron, d.ephemeron);
    forall u | u in g.upvals ensures TouchUp(d.upvals[u], g.upvals[u]) {
      assert TouchUp(m.upvals[u], g.upvals[u]) && TouchUp(d.upvals[u], m.upvals[u]);
    }
  }

  /** The gray object o taken off the gray list and painted c. */
  function Popped(g: G, c: Color): G
    requires g.gray != []
  {
    g.(gray := g.gray[1..], marked := g.marked[g.gray[0] := c])
  }

  lemma PopMarking(g: G, q: seq<Ref>, e: seq<Ref>, inside: bool, c: Color)
    requires Marking(g, {}, q, e, inside) && g.gray != [] && !c.White?
    ensures Marking(Popped(g, c), {g.gray[0]}, q, e, inside)
    ensures Marks(Popped(g, c)) == Marks(g) && g.gray[0] !in g.gray[1..] + q
    ensures g.gray[0] !in g.ephemeron && g.gray[0] !in e && g.gray[0] !in g.allweak
  {
    var o, d := g.gray[0], Popped(g, c);
    assert o in g.gray;
    assert Marks(d) == Marks(g);
    assert g.gray + q == [o] + (d.gray + q);
    forall r | r in d.gray + q ensures r != o {
      var i :| 0 <= i < |d.gray + q| && (d.gray + q)[i] == r;
      assert (g.gray + q)[i + 1] == r && (g.gray + q)[0] == o;
    }
    forall i, j | 0 <= i < j < |d.gray + q| ensures (d.gray + q)[i] != (d.gray + q)[j] {
      assert (d.gray + q)[i] == (g.gray + q)[i + 1] && (d.gray + q)[j] == (g.gray + q)[j + 1];
    }
    forall r | r in d.gray ensures r in g.gray && r in d.gray + q {}
    forall r | r in q ensures r in d.gray + q {}
    forall r | Idle(d, {o}, q, r) ensures Idle(g, {}, q, r) {}
    if g.gcstate != Propagate {
      forall r | Idle(d, {o}, q, r) ensures Parked(d, r, e, Marks(d)) {
        assert Idle(g, {}, q, r);
        ParkedMore(g, d, r, e, Marks(g), Marks(d));
      }
    }
  }

  /** What must hold of o when it has been visited. */
  ghost predicate Settles(g: G, d: G, o: Ref, inside: bool)
    requires o in d.heap && o in d.marked
  {
    if d.marked[o].Black? then d == Base(g, d) && BlackIn(d.heap, d.upvals, d.heap[o], Marks(d), inside)
    else if d.heap[o].Thread? then
      && d.marked[o].Gray?
      && d == Base(g, d).(grayagain := [o] + g.grayagain, twups := d.twups)
      && (forall r :: r in g.twups ==> r in d.twups)
      && (forall r :: r in d.twups ==> r in g.twups || r == o)
      && (d.gcstate != InsideAtomic ==> d.twups == g.twups)
      && (inside ==> Parked(d, o, [], Marks(d)))
    else
      d.marked[o].Gray? && d.heap[o].Table? && In(d.heap[o].meta, Marks(d)) && Linked(g, d, o) && d.twups == g.twups
  }

  /** The lists of weak tables and threads of d as they were in g. */
  function Base(g: G, d: G): G {
    Unlinked(g, d).(twups := g.twups)
  }

  lemma SuffixCons(l: seq<Ref>, o: Ref)
    ensures Suffix(l, l) && Suffix(l, [o] + l)
  {
  }

  lemma LinkSuffix(g: G, d: G, o: Ref)
    requires o in d.heap && d.heap[o].Table? && Linked(g, d, o)
    ensures Suffix(g.weak, d.weak) && Suffix(g.allweak, d.allweak) && Suffix(g.ephemeron, d.ephemeron)
    ensures forall r :: r in g.weak ==> r in d.weak
    ensures forall r :: r in g.allweak ==> r in d.allweak
    ensures forall r :: r in g.ephemeron ==> r in d.ephemeron
    ensures d.gcstate != Propagate ==> d.grayagain == g.grayagain
    ensures d.gcstate == Propagate ==> d.weak == g.weak && d.ephemeron == g.ephemeron
    ensures d.grayagain == g.grayagain || d.grayagain == [o] + g.grayagain
    ensures d.gcstate == Propagate && d.grayagain == g.grayagain ==> o in d.allweak
    ensures d.gcstate == Propagate && d.grayagain != g.grayagain ==> d.allweak == g.allweak
    ensures forall r :: r in d.allweak ==> r in g.allweak || (r == o && FullyWeak(d.heap[o], Marks(d)))
  {
    hide FullyWeak, Suffix, Marked, ValsIn, KeysIn, EntriesIn;
    SuffixCons(g.weak, o);
    SuffixCons(g.allweak, o);
    SuffixCons(g.ephemeron, o);
  }

  lemma LinkParked(g: G, d: G, o: Ref)
    requires o in d.heap && d.heap[o].Table? && Linked(g, d, o) && d.gcstate != Propagate && In(d.heap[o].meta, Marks(d))
    ensures Parked(d, o, [], Marks(d))
  {
    hide FullyWeak;
  }

  lemma SettledMarking(g: G, d: G, o: Ref, q: seq<Ref>, e: seq<Ref>, inside: bool)
    requires o in d.heap && o in d.marked && Traversable(d.heap[o]) && o !in d.gray && o !in q
    requires Marking(Base(g, d), {o}, q, e, inside) && Settles(g, d, o, inside)
    requires inside || q == g.grayagain
    requires inside ==> d.gcstate != Propagate
    requires d.gcstate == Propagate ==> o !in g.ephemeron && o !in e
    requires o in g.allweak ==> inside && d.marked[o].Gray?
    ensures Marking(d, {}, if inside then q else d.grayagain, e, inside)
  {
    hide Linked, Parked, Waiting, BlackIn;
    var b := Base(g, d);
    var q' := if inside then q else d.grayagain;
    assert Marks(b) == Marks(d);
    SettledQueue(g, d, o, q, inside);
    SettledLists(d, o, q, q');
    forall r | Idle(d, {}, q', r)
      ensures if d.gcstate == Propagate then Waiting(d, r, Marks(d)) else Parked(d, r, e, Marks(d))
    {
      if r != o {
        assert Idle(b, {o}, q, r);
        SettledOther(g, d, o, r, e, inside);
      } else {
        SettledOne(g, d, o, q, e, inside);
      }
    }
    SettledListed(g, d, o, q, e, inside);
    forall r | r in d.marked && d.marked[r].Black? && r in d.heap
      ensures BlackIn(d.heap, d.upvals, d.heap[r], Marks(d), inside)
    {
      if r != o { assert b.marked[r].Black?; }
    }
    assert GrayRefs(d, q') by {
      forall r | r in q' ensures r in q || (r == o && d.marked[o].Gray?) {}
      assert GrayRefs(b, q);
    }
  }

  lemma SettledListed(g: G, d: G, o: Ref, q: seq<Ref>, e: seq<Ref>, inside: bool)
    requires o in d.heap && o in d.marked && Settles(g, d, o, inside)
    requires inside || q == g.grayagain
    requires o !in d.gray && o !in q
    requires inside ==> d.gcstate != Propagate
    requires d.gcstate == Propagate ==> o !in g.ephemeron && o !in e
    requires o in g.allweak ==> inside && d.marked[o].Gray?
    requires Listed(Base(g, d)) && Apart(Base(g, d), q) && Ephemerons(Base(g, d), q, g.ephemeron) && Ephemerons(Base(g, d), q, e)
    ensures var q' := if inside then q else d.grayagain;
            Listed(d) && Apart(d, q') && Ephemerons(d, q', d.ephemeron) && Ephemerons(d, q', e)
  {
    hide BlackIn, Parked, FullyWeak, Listed, Apart, Ephemerons, Linked;
    var q' := if inside then q else d.grayagain;
    SettledQueue(g, d, o, q, inside);
    if d.heap[o].Table? && !d.marked[o].Black? {
      LinkedLists(g, d, o, q, q', e);
    } else {
      SameListed(Base(g, d), d, o, q, q', e);
    }
  }

  /** No list of weak tables changed. */
  lemma SameListed(b: G, d: G, o: Ref, q: seq<Ref>, q': seq<Ref>, e: seq<Ref>)
    requires Listed(b) && Apart(b, q) && Ephemerons(b, q, b.ephemeron) && Ephemerons(b, q, e)
    requires d == b.(grayagain := d.grayagain, twups := d.twups) && (q' == q || q' == [o] + q)
    requires q' != q ==> o in b.heap && b.heap[o].Thread?
    ensures Listed(d) && Apart(d, q') && Ephemerons(d, q', d.ephemeron) && Ephemerons(d, q', e)
  {
    assert Marks(b) == Marks(d);
  }

  /** Table o joined one of the lists. */
  lemma LinkedLists(g: G, d: G, o: Ref, q: seq<Ref>, q': seq<Ref>, e: seq<Ref>)
    requires o in d.heap && d.heap[o].Table? && o in d.marked && d.marked[o].Gray? && In(d.heap[o].meta, Marks(d)) && Linked(g, d, o)
    requires var b := Base(g, d); Listed(b) && Apart(b, q) && Ephemerons(b, q, g.ephemeron) && Ephemerons(b, q, e)
    requires if d.gcstate == Propagate then q' == d.grayagain && q == g.grayagain
             else q' == q || (q' == d.grayagain && q == g.grayagain)
    requires o !in d.gray && o !in q && (d.gcstate == Propagate ==> o !in g.ephemeron && o !in e && o !in g.allweak)
    ensures Listed(d) && Apart(d, q') && Ephemerons(d, q', d.ephemeron) && Ephemerons(d, q', e)
  {
    hide FullyWeak, KeysIn, ValsIn, EntriesIn;
    var b := Base(g, d);
    assert Marks(b) == Marks(d);
    assert forall r :: MarkedTable(b, r) == MarkedTable(d, r);
  }

  lemma SettledQueue(g: G, d: G, o: Ref, q: seq<Ref>, inside: bool)
    requires o in d.heap && o in d.marked && Settles(g, d, o, inside)
    requires inside || q == g.grayagain
    ensures var q' := if inside then q else d.grayagain; q' == q || (q' == [o] + q && d.marked[o].Gray?)
    ensures d == Base(g, d).(grayagain := d.grayagain, weak := d.weak, allweak := d.allweak, ephemeron := d.ephemeron, twups := d.twups)
  {
    if d.heap[o].Table? && !d.marked[o].Black? {
      LinkSuffix(g, d, o);
      assert d == Base(g, d).(grayagain := d.grayagain, weak := d.weak, allweak := d.allweak, ephemeron := d.ephemeron, twups := d.twups);
    }
  }

  lemma SettledOther(g: G, d: G, o: Ref, r: Ref, e: seq<Ref>, inside: bool)
    requires o in d.heap && o in d.marked && Settles(g, d, o, inside) && r in d.heap
    requires if d.gcstate == Propagate then Waiting(Base(g, d), r, Marks(d)) else Parked(Base(g, d), r, e, Marks(d))
    ensures if d.gcstate == Propagate then Waiting(d, r, Marks(d)) else Parked(d, r, e, Marks(d))
  {
    if d.heap[o].Table? && !d.marked[o].Black? { LinkSuffix(g, d, o); }
    if d.gcstate != Propagate { ParkedMore(Base(g, d), d, r, e, Marks(d), Marks(d)); }
  }

  lemma SettledOne(g: G, d: G, o: Ref, q: seq<Ref>, e: seq<Ref>, inside: bool)
    requires o in d.heap && o in d.marked && Settles(g, d, o, inside) && d.marked[o].Gray?
    requires inside || q == g.grayagain
    requires inside ==> d.gcstate != Propagate
    requires o !in if inside then q else d.grayagain
    ensures if d.gcstate == Propagate then Waiting(d, o, Marks(d)) else Parked(d, o, e, Marks(d))
  {
    if d.heap[o].Table? {
      LinkSuffix(g, d, o);
      if d.gcstate != Propagate { LinkParked(g, d, o); }
    }
    if d.gcstate != Propagate && Parked(d, o, [], Marks(d)) { assert Parked(d, o, e, Marks(d)); }
  }

  lemma SettledLists(d: G, o: Ref, q: seq<Ref>, q': seq<Ref>)
    requires NoDups(d.gray + q) && (q' == q || q' == [o] + q) && o !in d.gray && o !in q
    ensures NoDups(d.gray + q')
  {
    if q' == [o] + q {
      forall i, j | 0 <= i < j < |d.gray + q'| ensures (d.gray + q')[i] != (d.gray + q')[j] {
        var n := |d.gray|;
        assert forall k :: 0 <= k < n ==> (d.gray + q)[k] == (d.gray + q')[k];
        assert forall k :: n < k < |d.gray + q'| ==> (d.gray + q)[k - 1] == (d.gray + q')[k];
        if i == n {
          assert (d.gray + q')[j] == q[j - n - 1];
        } else if j == n {
          assert (d.gray + q')[i] == d.gray[i];
        }
      }
    }
  }

  lemma BaseFacts(p: G, d: G, limit: set<Ref>)
    requires Grow(p, Base(p, d), {}, limit) && Ready(p, limit) && Joined(p, d)
    ensures Ready(d, limit) && Marks(p) <= Marks(d) && |Whites(d)| <= |Whites(p)|
    ensures |Whites(d)| == |Whites(p)| ==> d.gray == p.gray
    ensures d.heap.Keys == p.heap.Keys && d.marked.Keys == p.marked.Keys
    ensures FewerHeap(d.heap, p.heap) && TouchUps(d.upvals, p.upvals)
  {
    hide Ready, Grayed, TouchUps, Joined;
    var b := Base(p, d);
    GrowReady(p, b, {}, limit);
    GrowMarks(p, b, {}, limit);
    assert Marks(b) == Marks(d) && Whites(b) == Whites(d) && Alive(b) == Alive(d);
    Subset(Whites(b), Whites(p));
    if |Whites(d)| == |Whites(p)| { NothingAdded(p, b, limit); }
    BaseReady(p, d, limit);
  }

  lemma NothingAdded(p: G, b: G, limit: set<Ref>)
    requires Grow(p, b, {}, limit) && Whites(b) == Whites(p)
    ensures b.gray == p.gray
  {
    forall r ensures r !in Added(p, b) {
      assert r in Added(p, b) <==> NewlyGray(p, b, r);
      assert r in Whites(p) <==> r in Whites(b);
    }
    if Added(p, b) != [] { var _ := Member(Added(p, b)); }
  }

  lemma Member(l: seq<Ref>) returns (r: Ref)
    requires l != []
    ensures r in l
  {
    r := l[0];
  }

  lemma BaseShape(p: G, d: G, limit: set<Ref>)
    requires Grow(p, Base(p, d), {}, limit)
    ensures Base(p, d) == p.(heap := d.heap, upvals := d.upvals, marked := d.marked, gray := d.gray)
  {
    hide FewerHeap, TouchUps, Marked, Grayed, Recolored;
  }

  /** What joined 'allweak' since p is there for a reason, and nothing left. */
  ghost predicate Joined(p: G, d: G) {
    && (forall r :: r in p.allweak ==> r in d.allweak)
    && forall r :: r in d.allweak ==> r in p.allweak || (r in d.heap && Tidied(d.heap[r], Marks(d)))
  }

  lemma BaseReady(p: G, d: G, limit: set<Ref>)
    requires Ready(Base(p, d), limit) && Joined(p, d)
    ensures Ready(d, limit)
  {
    var b := Base(p, d);
    assert Marks(b) == Marks(d) && Alive(b) == Alive(d);
    forall r | r in d.heap && r in limit
      ensures ContentIn(d.heap, d.upvals, d.heap[r], limit) && MetIn(d.heap, d.heap[r], limit, r in d.allweak)
      ensures d.heap[r].Table? && r !in d.allweak ==> In(d.heap[r].meta, limit)
    {
      BoundAt(b, limit, r);
    }
  }

  lemma SettlesJoined(p: G, d: G, o: Ref, inside: bool)
    requires o in d.heap && o in d.marked && Settles(p, d, o, inside)
    ensures Joined(p, d)
  {
    hide BlackIn, Parked, FullyWeak;
    if d.heap[o].Table? && !d.marked[o].Black? { LinkSuffix(p, d, o); }
  }

  lemma PoppedReady(s: G, c: Color, limit: set<Ref>)
    requires Ready(s, limit) && s.gray != [] && GrayRefs(s, s.gray) && !c.White? && s.gray[0] !in s.allweak
    ensures var p := Popped(s, c); Ready(p, limit) && Whites(p) == Whites(s) && Marks(p) == Marks(s)
    ensures var o := s.gray[0]; o in s.heap && o in s.marked && !s.marked[o].White? && Traversable(s.heap[o]) && o in limit
                                && StrongIn(s.heap, s.upvals, s.heap[o], limit)
  {
    var o, p := s.gray[0], Popped(s, c);
    assert o in s.gray;
    assert o in Marks(s);
    assert Marks(p) == Marks(s) && Whites(p) == Whites(s) && Alive(p) == Alive(s);
  }

  lemma Propagated(s: G, c: Color, d: G, q: seq<Ref>, e: seq<Ref>, inside: bool, limit: set<Ref>)
    requires Ready(s, limit) && Marking(s, {}, q, e, inside) && s.gray != [] && !c.White?
    requires inside || q == s.grayagain
    requires inside == (d.gcstate == InsideAtomic)
    requires var p, o := Popped(s, c), s.gray[0];
             && Grow(p, Base(p, d), {}, limit) && DeadKeys(d.heap, s.heap) && (inside ==> d.upvals == s.upvals)
             && o in d.heap && o in d.marked && Settles(p, d, o, inside)
    ensures Ready(d, limit) && Marking(d, {}, if inside then q else d.grayagain, e, inside) && Visit(s, d)
    ensures |Whites(d)| < |Whites(s)| || (|Whites(d)| == |Whites(s)| && |d.gray| == |s.gray| - 1)
  {
    hide Marking, Grow, Parked, Waiting, BlackIn, GrayRefs, NoDups;
    var p, o := Popped(s, c), s.gray[0];
    MarkingGray(s, q, e, inside);
    PoppedReady(s, c, limit);
    PopMarking(s, q, e, inside, c);
    SettlesJoined(p, d, o, inside);
    BaseFacts(p, d, limit);
    ReadyKeys(p, limit);
    GrowMarking(p, Base(p, d), {o}, q, e, inside, limit);
    PopApart(p, Base(p, d), o, q, e, inside, limit);
    SettledMarking(p, d, o, q, e, inside);
    BaseShape(p, d, limit);
    assert o in Marks(s);
    PropagatedVisit(s, p, d, o, inside);
  }

  lemma MarkingGray(s: G, q: seq<Ref>, e: seq<Ref>, inside: bool)
    requires Marking(s, {}, q, e, inside)
    ensures GrayRefs(s, s.gray) && GrayRefs(s, q)
    ensures s.gray != [] ==> s.gray[0] !in s.allweak
  {
    if s.gray != [] { assert s.gray[0] in s.gray; }
  }

  /** The visited object does not come back to the gray list. */
  lemma PopApart(p: G, b: G, o: Ref, q: seq<Ref>, e: seq<Ref>, inside: bool, limit: set<Ref>)
    requires Grow(p, b, {}, limit) && o in p.marked && !p.marked[o].White? && o in p.heap
    requires o !in p.gray + q && Traversable(p.heap[o])
    ensures o !in b.gray && o !in q && Traversable(b.heap[o])
  {
    assert o in Added(p, b) <==> NewlyGray(p, b, o);
    assert o in p.gray ==> o in p.gray + q;
    assert o in q ==> o in p.gray + q;
    assert Fewer(b.heap[o], p.heap[o]);
  }

  lemma PropagatedVisit(s: G, p: G, d: G, o: Ref, inside: bool)
    requires Marks(s) <= Marks(d) && d.marked.Keys == s.marked.Keys
    requires FewerHeap(d.heap, s.heap) && DeadKeys(d.heap, s.heap) && TouchUps(d.upvals, s.upvals)
    requires Base(p, d) == p.(heap := d.heap, upvals := d.upvals, marked := d.marked, gray := d.gray)
    requires p == s.(gray := p.gray, marked := p.marked)
    requires o in d.heap && o in d.marked && Settles(p, d, o, inside) && inside == (d.gcstate == InsideAtomic)
    requires o in Marks(d) && (inside ==> d.upvals == s.upvals)
    ensures Visit(s, d)
  {
    hide Parked, BlackIn, FewerHeap, TouchUps, Marked, Linked, DeadKeys;
    if d.heap[o].Table? && !d.marked[o].Black? { LinkSuffix(p, d, o); }
  }

  /** Object o, taken off the gray list in state p and painted black, has been visited. */
  ghost predicate Done(p: G, d: G, o: Ref, inside: bool, limit: set<Ref>) {
    && o in d.heap && o in d.marked && !d.marked[o].White?
    && Grow(p.(marked := p.marked[o := d.marked[o]]), Base(p, d), {}, limit) && DeadKeys(d.heap, p.heap)
    && (inside ==> d.upvals == p.upvals)
    && Settles(p, d, o, inside)
  }

  /** Colour of an object that has been visited: threads and weak tables stay gray. */
  function Painted(o: Object): Color {
    if o.Thread? || IsWeak(o) then Gray else Black
  }

  /** What the visit of o is for: o has its colour, the stack of a thread is marked, and a table that
      is weak in both ways does not come back. */
  ghost predicate Finished(p: G, d: G, o: Ref) {
    && o in p.heap && o in d.marked && d.marked[o] == Painted(p.heap[o])
    && (p.heap[o].Thread? ==> ValsIn(p.heap[o].stack, Marks(d)))
    && (BothWeak(p.heap[o]) ==> d.grayagain == p.grayagain && d.allweak == [o] + p.allweak)
  }

  /** One visit: the first gray object gets its colour, other white objects may get marked, and
      nobody else leaves the gray list. */
  ghost predicate VisitsFirst(s: G, d: G) {
    && s.gray != [] && Finished(s, d, s.gray[0])
    && (forall r :: r in s.marked && r != s.gray[0] ==>
          r in d.marked && (d.marked[r] == s.marked[r] || (s.marked[r].White? && r in s.heap && d.marked[r] == Fresh(s.heap[r]))))
    && Suffix(s.gray[1..], d.gray)
    && (d.grayagain == s.grayagain || d.grayagain == [s.gray[0]] + s.grayagain)
  }

  lemma VisitedFirst(s: G, d: G, inside: bool, limit: set<Ref>)
    requires s.gray != [] && s.gray[0] in s.marked && Done(Popped(s, Black), d, s.gray[0], inside, limit) && Finished(Popped(s, Black), d, s.gray[0])
    ensures VisitsFirst(s, d)
  {
    hide BlackIn, Parked, FewerHeap, TouchUps, DeadKeys, Painted, FullyWeak;
    var p, o := Popped(s, Black), s.gray[0];
    var p', b := p.(marked := p.marked[o := d.marked[o]]), Base(p, d);
    assert b.gray == d.gray == Added(p', b) + s.gray[1..];
    assert d.gray[|d.gray| - |s.gray[1..]|..] == s.gray[1..];
    assert Recolored(p', b, limit);
    if d.heap[o].Table? && !d.marked[o].Black? { LinkSuffix(p, d, o); }
  }

  /** A state in which object o, black, is about to be visited. */
  ghost predicate About(p: G, o: Ref, limit: set<Ref>) {
    && Ready(p, limit) && o in p.heap && o in p.marked && p.marked[o].Black?
    && Traversable(p.heap[o]) && StrongIn(p.heap, p.upvals, p.heap[o], limit) && MetIn(p.heap, p.heap[o], limit, false)
  }

  lemma DoneBlack(p: G, d: G, o: Ref, inside: bool, limit: set<Ref>)
    requires About(p, o, limit) && Grow(p, d, {}, limit) && d.heap == p.heap && (inside ==> d.upvals == p.upvals)
    requires o in d.heap && BlackIn(d.heap, d.upvals, d.heap[o], Marks(d), inside)
    ensures Done(p, d, o, inside, limit)
  {
    assert p.(marked := p.marked[o := Black]) == p;
    assert Base(p, d) == d;
    DeadKeysRefl(p.heap);
  }

  method VisitTable(g: GlobalState, o: Ref, ghost limit: set<Ref>)
    requires About(g.Snap(), o, limit) && g.heap[o].Table?
    modifies g
    ensures Done(old(g.Snap()), g.Snap(), o, g.gcstate == InsideAtomic, limit) && g.gcstate == old(g.gcstate)
    ensures Finished(old(g.Snap()), g.Snap(), o)
  {
    hide Grow, Ready, Linked, StrongIn, BlackIn;
    ghost var p := g.Snap();
    TraverseTable(g, o, limit);
    TableDone(p, g.Snap(), o, g.gcstate == InsideAtomic, limit);
  }

  lemma TableDone(p: G, d: G, o: Ref, inside: bool, limit: set<Ref>)
    requires o in p.heap && p.heap[o].Table? && o in p.marked
    requires o in d.heap && d.heap[o].Table? && o in d.marked && d.upvals == p.upvals && DeadKeys(d.heap, p.heap)
    requires d.marked[o] == if IsWeak(p.heap[o]) then Gray else Black
    requires Grow(p.(marked := p.marked[o := d.marked[o]]), Unlinked(p, d), {}, limit)
    requires In(d.heap[o].meta, Marks(d)) && (IsWeak(p.heap[o]) ==> Linked(p, d, o))
    requires !IsWeak(p.heap[o]) ==> Unlinked(p, d) == d && BlackIn(d.heap, d.upvals, d.heap[o], Marks(d), inside)
    ensures Done(p, d, o, inside, limit) && d.gcstate == p.gcstate
  {
    hide Linked, BlackIn, Grayed, FewerHeap, TouchUps;
    assert Base(p, d) == Unlinked(p, d);
  }

  method VisitClosure(g: GlobalState, o: Ref, ghost limit: set<Ref>)
    requires About(g.Snap(), o, limit) && (g.heap[o].LCl? || g.heap[o].CCl? || g.heap[o].Proto?)
    modifies g
    ensures Done(old(g.Snap()), g.Snap(), o, g.gcstate == InsideAtomic, limit) && g.gcstate == old(g.gcstate)
    ensures Finished(old(g.Snap()), g.Snap(), o)
  {
    hide Grow, Ready, BlackIn, Done;
    ghost var p := g.Snap();
    match g.heap[o] {
      case LCl(_, _) => TraverseLclosure(g, o, limit);
      case CCl(vs) => TraverseValues(g, o, vs, limit);
      case Proto(vs) => TraverseValues(g, o, vs, limit);
    }
    GrowFacts(p, g.Snap(), limit);
    StillBlack(p, g.Snap(), o, limit);
    DoneBlack(p, g.Snap(), o, g.gcstate == InsideAtomic, limit);
  }

  method VisitThread(g: GlobalState, o: Ref, ghost limit: set<Ref>)
    requires About(g.Snap(), o, limit) && g.heap[o].Thread?
    modifies g
    ensures Done(old(g.Snap()), g.Snap(), o, g.gcstate == InsideAtomic, limit) && g.gcstate == old(g.gcstate)
    ensures Finished(old(g.Snap()), g.Snap(), o)
  {
    hide Grow, Ready, Done, Finished, About, ValsIn, HasOpen;
    ghost var p := g.Snap();
    AboutRefs(p, o, limit);
    g.grayagain := [o] + g.grayagain;
    g.marked := g.marked[o := Gray];
    ThreadReady(p, o, limit);
    TraverseThread(g, o, limit);
    ThreadDone(p, g.Snap(), o, limit);
  }

  lemma AboutRefs(p: G, o: Ref, limit: set<Ref>)
    requires About(p, o, limit)
    ensures o in p.heap && (p.heap[o].Thread? ==> ValsIn(p.heap[o].stack, limit))
  {
  }

  lemma ThreadDone(p: G, d: G, o: Ref, limit: set<Ref>)
    requires About(p, o, limit) && p.heap[o].Thread?
    requires Grow(p.(grayagain := [o] + p.grayagain, marked := p.marked[o := Gray]), d.(twups := p.twups), {}, limit)
    requires d.heap == p.heap && d.upvals == p.upvals && ValsIn(d.heap[o].stack, Marks(d))
    requires d.twups == p.twups || (d.gcstate == InsideAtomic && d.twups == [o] + p.twups)
    requires d.gcstate == InsideAtomic && HasOpen(d.upvals, o) ==> o in d.twups
    ensures Done(p, d, o, d.gcstate == InsideAtomic, limit) && Finished(p, d, o) && d.gcstate == p.gcstate
  {
    hide Grow, Ready, ValsIn, HasOpen, StrongIn, MetIn;
    var p1, e := p.(grayagain := [o] + p.grayagain, marked := p.marked[o := Gray]), d.(twups := p.twups);
    GrowFacts(p1, e, limit);
    StillMarked(p1, e, o, limit);
    GrowAgain(p1, e, p.grayagain, limit);
    DeadKeysRefl(p.heap);
    assert e.grayagain == [o] + p.grayagain by { GrowLinks(p1, e, limit); }
  }

  lemma GrowLinks(g: G, d: G, limit: set<Ref>)
    requires Grow(g, d, {}, limit)
    ensures d == g.(heap := d.heap, upvals := d.upvals, marked := d.marked, gray := d.gray)
  {
  }

  lemma ThreadReady(p: G, o: Ref, limit: set<Ref>)
    requires About(p, o, limit) && p.heap[o].Thread?
    ensures Ready(p.(grayagain := [o] + p.grayagain, marked := p.marked[o := Gray]), limit)
  {
    var d := p.(grayagain := [o] + p.grayagain, marked := p.marked[o := Gray]);
    assert Alive(d) == Alive(p) && Marks(d) == Marks(p);
  }

  lemma StillMarked(g: G, d: G, o: Ref, limit: set<Ref>)
    requires Grow(g, d, {}, limit) && o in g.marked && !g.marked[o].White? && o in g.heap
    ensures o in d.marked && d.marked[o] == g.marked[o] && o in d.heap && Fewer(d.heap[o], g.heap[o])
  {
  }

  /** Marking does not depend on the list 'grayagain'. */
  lemma GrowAgain(g: G, d: G, l: seq<Ref>, limit: set<Ref>)
    requires Grow(g, d, {}, limit)
    ensures Grow(g.(grayagain := l), d.(grayagain := l), {}, limit)
  {
    hide FewerHeap, TouchUps;
    var g', d' := g.(grayagain := l), d.(grayagain := l);
    assert Added(g', d') == Added(g, d);
    assert Marks(d') == Marks(d);
    forall r ensures NewlyGray(g', d', r) <==> NewlyGray(g, d, r) {}
  }

  /** 'propagatemark' */
  method PropagateMark(g: GlobalState, ghost q: seq<Ref>, ghost e: seq<Ref>, ghost limit: set<Ref>)
    requires Ready(g.Snap(), limit) && g.gray != []
    requires Marking(g.Snap(), {}, q, e, g.gcstate == InsideAtomic)
    requires g.gcstate == InsideAtomic || q == g.grayagain
    modifies g
    ensures Ready(g.Snap(), limit) && Visit(old(g.Snap()), g.Snap())
    ensures Marking(g.Snap(), {}, if g.gcstate == InsideAtomic then q else g.grayagain, e, g.gcstate == InsideAtomic)
    ensures |Whites(g.Snap())| < |Whites(old(g.Snap()))| ||
            (|Whites(g.Snap())| == |Whites(old(g.Snap()))| && |g.gray| == |old(g.gray)| - 1)
    ensures VisitsFirst(old(g.Snap()), g.Snap())
  {
    hide Marking, Ready, GrayRefs, NoDups, StrongIn, Visit, Unmarked, Done, About, Finished, VisitsFirst;
    ghost var s := g.Snap();
    ghost var inside := g.gcstate == InsideAtomic;
    MarkingGray(s, q, e, inside);
    PoppedReady(s, Black, limit);
    var o := g.gray[0];
    g.marked := g.marked[o := Black];
    g.gray := g.gray[1..];
    ghost var p := g.Snap();
    StrongSame(s, o, limit);
    if g.heap[o].Table? {
      VisitTable(g, o, limit);
    } else if g.heap[o].Thread? {
      VisitThread(g, o, limit);
    } else {
      VisitClosure(g, o, limit);
    }
    DonePropagated(s, g.Snap(), q, e, inside, limit);
    VisitedFirst(s, g.Snap(), inside, limit);
  }

  lemma DonePropagated(s: G, d: G, q: seq<Ref>, e: seq<Ref>, inside: bool, limit: set<Ref>)
    requires Ready(s, limit) && Marking(s, {}, q, e, inside) && s.gray != []
    requires inside == (s.gcstate == InsideAtomic) && (inside || q == s.grayagain)
    requires Done(Popped(s, Black), d, s.gray[0], inside, limit) && d.gcstate == s.gcstate
    ensures Ready(d, limit) && Marking(d, {}, if inside then q else d.grayagain, e, inside) && Visit(s, d)
    ensures |Whites(d)| < |Whites(s)| || (|Whites(d)| == |Whites(s)| && |d.gray| == |s.gray| - 1)
  {
    hide Marking, Ready, Grow, Visit, BlackIn, Parked;
    var p, o := Popped(s, Black), s.gray[0];
    var c := d.marked[o];
    assert p.(marked := p.marked[o := c]) == Popped(s, c);
    assert Base(Popped(s, c), d) == Base(p, d);
    Propagated(s, c, d, q, e, inside, limit);
  }

  lemma StrongSame(s: G, o: Ref, limit: set<Ref>)
    requires s.gray != [] && o == s.gray[0] && o !in s.allweak && Ready(Popped(s, Black), limit) && o in s.heap && o in limit && Traversable(s.heap[o])
    ensures About(Popped(s, Black), o, limit)
  {
  }

  /** 'propagateall' outside the atomic phase */
  method PropagateAll(g: GlobalState, ghost q: seq<Ref>, ghost e: seq<Ref>, ghost limit: set<Ref>)
    requires Ready(g.Snap(), limit) && Marking(g.Snap(), {}, q, e, g.gcstate == InsideAtomic)
    requires g.gcstate == InsideAtomic || q == g.grayagain
    modifies g
    ensures Ready(g.Snap(), limit) && Visit(old(g.Snap()), g.Snap()) && g.gray == []
    ensures Marking(g.Snap(), {}, if g.gcstate == InsideAtomic then q else g.grayagain, e, g.gcstate == InsideAtomic)
    ensures |Whites(g.Snap())| <= |Whites(old(g.Snap()))|
  {
    hide Marking, Grow, Ready, GrayRefs, NoDups, BlackIn, Visit, Unmarked;
    ghost var s0 := g.Snap();
    VisitRefl(s0);
    while g.gray != []
      invariant g.gcstate == s0.gcstate
      invariant Ready(g.Snap(), limit) && Visit(s0, g.Snap())
      invariant Marking(g.Snap(), {}, if g.gcstate == InsideAtomic then q else g.grayagain, e, g.gcstate == InsideAtomic)
      invariant |Whites(g.Snap())| <= |Whites(s0)|
      decreases |Whites(g.Snap())|, |g.gray|
    {
      ghost var s := g.Snap();
      PropagateMark(g, if g.gcstate == InsideAtomic then q else g.grayagain, e, limit);
      VisitTrans(s0, s, g.Snap());
      VisitState(s, g.Snap());
    }
  }

  lemma VisitState(g: G, d: G)
    requires Visit(g, d)
    ensures d.gcstate == g.gcstate
  {
  }
}
