/** A full collection that has nothing to finalize: it ends, and keeps exactly the least set of objects
    that holds the roots and is closed under strong references. */
module LgcFull {
  import opened LgcHeap
  import opened LgcGrow
  import opened LgcMark
  import opened LgcPropagate
  import opened LgcWeak
  import opened LgcAtomic
  import opened LgcInv
  import opened LgcSweep
  import opened LgcStep
  import opened LgcCycle
  import opened LgcBarrier

  /** In a state where the program may not rely on the main invariant: sweeping or resting. */
  predicate Late(st: GcState) {
    Sweeping(st) || st == SwpEnd || st == CallFin
  }

  // ----- What a collection keeps -----

  /** s holds the roots and the fixed objects, is closed under the references that the modes of
      weak tables do not exclude, holds the strings met in weak tables (strings are values, never
      removed), and the values of the touched open upvalues of live threads, in s or not. */
  ghost predicate Retains(g: G, s: set<Ref>) {
    && g.mainthread in s && g.running in s && In(g.registry, s) && ValsIn(g.mt, s)
    && (forall r :: r in g.fixedgc ==> r in s)
    && (forall r :: r in g.heap && r in s ==>
          StrongIn(g.heap, g.upvals, g.heap[r], s) && MetIn(g.heap, g.heap[r], s, false))
    && (forall u :: u in g.upvals && g.upvals[u].Open? && g.upvals[u].touched && g.upvals[u].th in Alive(g) ==>
          In(UpValue(g.heap, g.upvals, u), s))
  }

  /** The objects that are in every such set. */
  ghost function Needed(g: G): (s: set<Ref>) {
    set r | r in g.heap && forall s :: Retains(g, s) ==> r in s
  }

  /** Nothing is to be finalized: no finalizer is pending, and the objects that have one (tables and
      userdata, no strings) are needed. */
  ghost predicate NothingToFinalize(g: G) {
    g.tobefnz == [] && forall r :: r in g.finobj ==> r in Needed(g) && !IsString(g.heap, r)
  }

  lemma AliveRetains(g: G)
    requires Core(g)
    ensures Retains(g, Alive(g)) && Alive(g) <= g.heap.Keys
  {
    var s := Alive(g);
    forall r | r in g.heap && r in s ensures StrongIn(g.heap, g.upvals, g.heap[r], s) && MetIn(g.heap, g.heap[r], s, false) {
      assert RefsIn(g.heap, g.upvals, g.heap[r], s);
      if g.heap[r].Table? {
        forall i | 0 <= i < |g.heap[r].nodes| ensures EntryIn(g.heap[r].nodes[i], s) {}
      }
    }
    forall u | u in g.upvals && g.upvals[u].Open? && g.upvals[u].th in s ensures In(UpValue(g.heap, g.upvals, u), s) {
      assert RefsIn(g.heap, g.upvals, g.heap[g.upvals[u].th], s);
    }
  }

  lemma InNeeded(g: G, v: TValue)
    requires Core(g) && forall s :: Retains(g, s) ==> In(v, s)
    ensures In(v, Needed(g))
  {
    AliveRetains(g);
  }

  lemma AllNeeded(g: G, vs: seq<TValue>)
    requires Core(g) && forall s :: Retains(g, s) ==> ValsIn(vs, s)
    ensures ValsIn(vs, Needed(g))
  {
    forall i | 0 <= i < |vs| ensures In(vs[i], Needed(g)) {
      forall s | Retains(g, s) ensures In(vs[i], s) { assert ValsIn(vs, s); }
      InNeeded(g, vs[i]);
    }
  }

  lemma RetainsAt(g: G, s: set<Ref>, r: Ref)
    requires Retains(g, s) && r in g.heap && r in s
    ensures StrongIn(g.heap, g.upvals, g.heap[r], s) && MetIn(g.heap, g.heap[r], s, false)
  {
  }

  lemma NeededIn(g: G, r: Ref)
    requires r in Needed(g)
    ensures forall s :: Retains(g, s) ==> r in s
  {
  }

  lemma NeededObject(g: G, r: Ref)
    requires Core(g) && r in g.heap && r in Needed(g) && !g.heap[r].Table?
    ensures RefsIn(g.heap, g.upvals, g.heap[r], Needed(g))
  {
    hide Retains, Needed, Core;
    NeededIn(g, r);
    forall s | Retains(g, s) ensures RefsIn(g.heap, g.upvals, g.heap[r], s) { RetainsAt(g, s, r); }
    match g.heap[r]
    case Str =>
    case Udata(meta, user) =>
      forall s | Retains(g, s) ensures In(meta, s) && In(user, s) { assert RefsIn(g.heap, g.upvals, g.heap[r], s); }
      InNeeded(g, meta);
      InNeeded(g, user);
    case LCl(p, ups) =>
      forall s | Retains(g, s) ensures In(p, s) && UpsIn(g.heap, g.upvals, ups, s) { assert RefsIn(g.heap, g.upvals, g.heap[r], s); }
      InNeeded(g, p);
      forall i | 0 <= i < |ups| ensures In(UpValue(g.heap, g.upvals, ups[i]), Needed(g)) {
        forall s | Retains(g, s) ensures In(UpValue(g.heap, g.upvals, ups[i]), s) { assert UpsIn(g.heap, g.upvals, ups, s); }
        InNeeded(g, UpValue(g.heap, g.upvals, ups[i]));
      }
    case CCl(vals) =>
      forall s | Retains(g, s) ensures ValsIn(vals, s) { assert RefsIn(g.heap, g.upvals, g.heap[r], s); }
      AllNeeded(g, vals);
    case Thread(stack) =>
      forall s | Retains(g, s) ensures ValsIn(stack, s) { assert RefsIn(g.heap, g.upvals, g.heap[r], s); }
      AllNeeded(g, stack);
    case Proto(consts) =>
      forall s | Retains(g, s) ensures ValsIn(consts, s) { assert RefsIn(g.heap, g.upvals, g.heap[r], s); }
      AllNeeded(g, consts);
  }

  /** The clauses about one entry of a table. */
  predicate NodeRetained(h: Heap, mode: Mode, n: Node, s: set<Ref>) {
    && (!mode.weakKey && n.val != Nil ==> In(n.key, s))
    && (!mode.weakValue && n.val != Nil && In(n.key, s) ==> In(n.val, s))
    && (mode.weakValue ==> StrIn(h, n.val, s))
    && (mode.weakKey && n.val != Nil && (mode.weakValue ==> In(n.val, s)) ==> StrIn(h, n.key, s))
  }

  predicate TableRetained(h: Heap, o: Object, s: set<Ref>)
    requires o.Table?
  {
    && In(o.meta, s) && (if o.mode.weakValue then StrsIn(h, o.arr, s) else ValsIn(o.arr, s))
    && forall i :: 0 <= i < |o.nodes| ==> NodeRetained(h, o.mode, o.nodes[i], s)
  }

  lemma TableClauses(h: Heap, us: UpVals, o: Object, s: set<Ref>)
    requires o.Table?
    ensures TableRetained(h, o, s) <==> StrongIn(h, us, o, s) && MetIn(h, o, s, false)
  {
    if TableRetained(h, o, s) {
      forall i | 0 <= i < |o.nodes| ensures NodeRetained(h, o.mode, o.nodes[i], s) {}
    }
    if StrongIn(h, us, o, s) && MetIn(h, o, s, false) {
      forall i | 0 <= i < |o.nodes| ensures NodeRetained(h, o.mode, o.nodes[i], s) {}
    }
  }

  lemma NeededNode(g: G, mode: Mode, n: Node)
    requires Core(g) && forall s :: Retains(g, s) ==> NodeRetained(g.heap, mode, n, s)
    ensures NodeRetained(g.heap, mode, n, Needed(g))
  {
    hide Core, Retains;
    var t := Needed(g);
    forall s | Retains(g, s) ensures NodeRetained(g.heap, mode, n, s) && (In(n.val, t) ==> In(n.val, s)) && (In(n.key, t) ==> In(n.key, s)) {}
    if !In(n.key, t) {
      if !mode.weakKey && n.val != Nil { InNeeded(g, n.key); }
      if mode.weakKey && n.val != Nil && (mode.weakValue ==> In(n.val, t)) && !StrIn(g.heap, n.key, t) { InNeeded(g, n.key); }
    } else if !mode.weakValue && n.val != Nil {
      InNeeded(g, n.val);
    }
    if mode.weakValue && !StrIn(g.heap, n.val, t) { InNeeded(g, n.val); }
  }

  lemma NeededTable(g: G, r: Ref)
    requires Core(g) && r in g.heap && r in Needed(g) && g.heap[r].Table?
    ensures TableRetained(g.heap, g.heap[r], Needed(g))
  {
    hide Core, Retains, Needed, StrongIn, MetIn, NodeRetained;
    var o := g.heap[r];
    NeededIn(g, r);
    forall s | Retains(g, s) ensures TableRetained(g.heap, o, s) {
      RetainsAt(g, s, r);
      TableClauses(g.heap, g.upvals, o, s);
    }
    InNeeded(g, o.meta);
    forall i | 0 <= i < |o.nodes| ensures NodeRetained(g.heap, o.mode, o.nodes[i], Needed(g)) {
      forall s | Retains(g, s) ensures NodeRetained(g.heap, o.mode, o.nodes[i], s) { assert TableRetained(g.heap, o, s); }
      NeededNode(g, o.mode, o.nodes[i]);
    }
    if o.mode.weakValue {
      forall i | 0 <= i < |o.arr| ensures StrIn(g.heap, o.arr[i], Needed(g)) {
        if !StrIn(g.heap, o.arr[i], Needed(g)) {
          forall s | Retains(g, s) ensures In(o.arr[i], s) { assert TableRetained(g.heap, o, s); }
          InNeeded(g, o.arr[i]);
        }
      }
    } else {
      forall s | Retains(g, s) ensures ValsIn(o.arr, s) { assert TableRetained(g.heap, o, s); }
      AllNeeded(g, o.arr);
    }
  }

  /** The objects that are in every such set form such a set: the least one. */
  lemma NeededLeast(g: G)
    requires Core(g)
    ensures Retains(g, Needed(g)) && forall s :: Retains(g, s) ==> Needed(g) <= s
  {
    hide Core, StrongIn, MetIn, TableRetained;
    var t := Needed(g);
    AliveRetains(g);
    forall r | r in g.heap && r in t ensures StrongIn(g.heap, g.upvals, g.heap[r], t) && MetIn(g.heap, g.heap[r], t, false) {
      if g.heap[r].Table? {
        NeededTable(g, r);
        TableClauses(g.heap, g.upvals, g.heap[r], t);
      } else {
        NeededObject(g, r);
        PlainClauses(g, g.heap[r], t);
      }
    }
    AllNeeded(g, g.mt);
    InNeeded(g, g.registry);
    forall u | u in g.upvals && g.upvals[u].Open? && g.upvals[u].touched && g.upvals[u].th in Alive(g)
      ensures In(UpValue(g.heap, g.upvals, u), t)
    {
      InNeeded(g, UpValue(g.heap, g.upvals, u));
    }
  }

  // ----- Nothing is needed for no reason -----

  /** Roots, fixed objects, and values of touched open upvalues of live threads. */
  ghost predicate HeldByRoot(g: G, r: Ref) {
    || r == g.mainthread || r == g.running || g.registry == Coll(r) || Coll(r) in g.mt || r in g.fixedgc
    || exists u :: u in g.upvals && g.upvals[u].Open? && g.upvals[u].touched && g.upvals[u].th in Alive(g)
                   && UpValue(g.heap, g.upvals, u) == Coll(r)
  }

  /** Object o keeps r: by a field, by an entry as far as its modes let it (the value of a weak-keyed
      table only with its key in s), or as a string in a weak table. */
  predicate Holds(h: Heap, us: UpVals, o: Object, r: Ref, s: set<Ref>) {
    match o
    case Str => false
    case Udata(meta, user) => meta == Coll(r) || user == Coll(r)
    case Table(meta, mode, arr, nodes) =>
      || meta == Coll(r)
      || (Coll(r) in arr && (!mode.weakValue || IsString(h, r)))
      || (exists i :: 0 <= i < |nodes| && nodes[i].val == Coll(r) && ((!mode.weakValue && In(nodes[i].key, s)) || IsString(h, r)))
      || (exists i :: 0 <= i < |nodes| && nodes[i].val != Nil && nodes[i].key == Coll(r) && (!mode.weakKey || IsString(h, r)))
    case LCl(p, ups) => p == Coll(r) || exists i :: 0 <= i < |ups| && UpValue(h, us, ups[i]) == Coll(r)
    case CCl(vals) => Coll(r) in vals
    case Thread(stack) => Coll(r) in stack
    case Proto(consts) => Coll(r) in consts
  }

  /** What is needed is held by a root, or by another object that is needed: no weak reference, and
      no circle of objects, keeps anything. */
  lemma NeededHeld(g: G, r: Ref)
    requires Core(g) && r in Needed(g)
    ensures HeldByRoot(g, r) ||
            exists a :: a in Needed(g) && a != r && a in g.heap && Holds(g.heap, g.upvals, g.heap[a], r, Needed(g))
  {
    hide Core, Needed, Retains;
    NeededLeast(g);
    var n := Needed(g);
    var s := n - {r};
    if !HeldByRoot(g, r) && !exists a :: a in n && a != r && a in g.heap && Holds(g.heap, g.upvals, g.heap[a], r, n) {
      forall a | a in g.heap && a in s ensures StrongIn(g.heap, g.upvals, g.heap[a], s) && MetIn(g.heap, g.heap[a], s, false) {
        RetainsAt(g, n, a);
        assert !Holds(g.heap, g.upvals, g.heap[a], r, n);
        StillStrong(g.heap, g.upvals, g.heap[a], r, n);
        StillMet(g.heap, g.upvals, g.heap[a], r, n);
      }
      RootsStay(g, r, n);
    }
  }

  lemma RootsStay(g: G, r: Ref, n: set<Ref>)
    requires Retains(g, n) && !HeldByRoot(g, r)
    requires forall a :: a in g.heap && a in n - {r} ==>
               StrongIn(g.heap, g.upvals, g.heap[a], n - {r}) && MetIn(g.heap, g.heap[a], n - {r}, false)
    ensures Retains(g, n - {r})
  {
    hide StrongIn, MetIn;
    var s := n - {r};
    forall i | 0 <= i < |g.mt| ensures In(g.mt[i], s) { assert In(g.mt[i], n) && g.mt[i] in g.mt; }
  }

  lemma StillStrong(h: Heap, us: UpVals, o: Object, r: Ref, n: set<Ref>)
    requires StrongIn(h, us, o, n) && !Holds(h, us, o, r, n)
    ensures StrongIn(h, us, o, n - {r})
  {
    var s := n - {r};
    match o
    case Table(meta, mode, arr, nodes) =>
      if !mode.weakValue { StillAll(arr, r, n); }
      forall i | 0 <= i < |nodes| && nodes[i].val != Nil
        ensures !mode.weakKey ==> In(nodes[i].key, s)
        ensures !mode.weakValue && In(nodes[i].key, s) ==> In(nodes[i].val, s)
      {
        assert !mode.weakKey ==> In(nodes[i].key, n);
        assert In(nodes[i].key, s) ==> In(nodes[i].key, n);
      }
    case LCl(p, ups) =>
      forall i | 0 <= i < |ups| ensures In(UpValue(h, us, ups[i]), s) { assert In(UpValue(h, us, ups[i]), n); }
    case CCl(vals) => StillAll(vals, r, n);
    case Thread(stack) => StillAll(stack, r, n);
    case Proto(consts) => StillAll(consts, r, n);
    case _ =>
  }

  lemma StillAll(vs: seq<TValue>, r: Ref, n: set<Ref>)
    requires ValsIn(vs, n) && Coll(r) !in vs
    ensures ValsIn(vs, n - {r})
  {
    forall i | 0 <= i < |vs| ensures In(vs[i], n - {r}) { assert In(vs[i], n) && vs[i] in vs; }
  }

  lemma StillMet(h: Heap, us: UpVals, o: Object, r: Ref, n: set<Ref>)
    requires MetIn(h, o, n, false) && !Holds(h, us, o, r, n)
    ensures MetIn(h, o, n - {r}, false)
  {
    var s := n - {r};
    if o.Table? {
      if o.mode.weakValue {
        forall i | 0 <= i < |o.arr| ensures StrIn(h, o.arr[i], s) { assert StrIn(h, o.arr[i], n) && o.arr[i] in o.arr; }
        forall i | 0 <= i < |o.nodes| ensures StrIn(h, o.nodes[i].val, s) { assert StrIn(h, o.nodes[i].val, n); }
      }
      if o.mode.weakKey {
        forall i | 0 <= i < |o.nodes| && o.nodes[i].val != Nil && (o.mode.weakValue ==> In(o.nodes[i].val, s))
          ensures StrIn(h, o.nodes[i].key, s)
        {
          assert In(o.nodes[i].val, s) ==> In(o.nodes[i].val, n);
          assert StrIn(h, o.nodes[i].key, n);
        }
      }
    }
  }

  lemma PlainClauses(g: G, o: Object, s: set<Ref>)
    requires !o.Table? && RefsIn(g.heap, g.upvals, o, s)
    ensures StrongIn(g.heap, g.upvals, o, s) && MetIn(g.heap, o, s, false)
  {
  }

  // ----- Sweeping -----

  /** d is g, some dead objects and colours aside. */
  ghost predicate Trimmed(g: G, d: G) {
    && d.heap.Keys <= g.heap.Keys && (forall r :: r in d.heap ==> d.heap[r] == g.heap[r])
    && SameUpvals(g, d) && d.finobj == g.finobj && d.tobefnz == g.tobefnz && Alive(d) == Alive(g)
    && d.mainthread == g.mainthread && d.running == g.running && d.registry == g.registry && d.mt == g.mt
    && d.fixedgc == g.fixedgc
  }

  lemma TrimmedTrans(g: G, m: G, d: G)
    requires Trimmed(g, m) && Trimmed(m, d)
    ensures Trimmed(g, d)
  {
    SameUpvalsTrans(g, m, d);
  }

  /** At the start of the next cycle the needed objects bound what it marks. */
  lemma TrimmedLimit(g: G, d: G)
    requires Core(g) && Trimmed(g, d) && NothingToFinalize(g) && Inv(d) && d.gcstate == Pause
    ensures LimitOK(d, Needed(g)) && NothingDead(Emptied(d))
  {
    hide Core, Needed, Retains, NothingDead, Bound;
    NeededLeast(g);
    TrimmedBound(g, d, Needed(g));
    TrimmedRoots(g, d, Needed(g));
    StillNothing(g, d);
    TidyEmptied(d);
  }

  lemma TrimmedRoots(g: G, d: G, limit: set<Ref>)
    requires Retains(g, limit) && Trimmed(g, d) && g.tobefnz == []
    ensures RootsIn(d, limit) && forall r :: r in d.fixedgc ==> r in limit
  {
  }

  lemma TrimmedBound(g: G, d: G, limit: set<Ref>)
    requires Retains(g, limit) && Trimmed(g, d) && Inv(d) && d.gcstate == Pause
    ensures Bound(Emptied(d), limit)
  {
    hide Core;
    RestingAlive(d);
    var e := Emptied(d);
    forall r | r in d.heap && r in limit
      ensures StrongIn(d.heap, d.upvals, d.heap[r], limit) && MetIn(d.heap, d.heap[r], limit, r in e.allweak)
    {
      RetainsAt(g, limit, r);
      if g.heap[r].LCl? {
        forall i | 0 <= i < |g.heap[r].ups| ensures In(UpValue(d.heap, d.upvals, g.heap[r].ups[i]), limit) {
          assert UpValue(d.heap, d.upvals, g.heap[r].ups[i]) == UpValue(g.heap, g.upvals, g.heap[r].ups[i]);
        }
      }
    }
    forall u | u in d.upvals && d.upvals[u].Open? && d.upvals[u].touched ensures In(UpValue(d.heap, d.upvals, u), limit) {
      OpenAlive(d, u);
      assert UpValue(d.heap, d.upvals, u) == UpValue(g.heap, g.upvals, u);
    }
  }

  /** In the rested state, too, nothing is to be finalized: a seed of the cycle, with all strings,
      retains everything needed. */
  lemma StillNothing(g: G, d: G)
    requires Core(g) && Trimmed(g, d) && NothingToFinalize(g) && Inv(d) && d.gcstate == Pause
    ensures NothingDead(Emptied(d))
  {
    hide Core, Needed, Retains, Seed, Inv;
    var e := Emptied(d);
    forall s, r | Seed(e, s) && r in e.finobj ensures r in s {
      var t := (s + Strings(d.heap)) * d.heap.Keys;
      SeedRetains(d, s);
      RetainsMore(g, d, t);
      NeededIn(g, r);
      assert r in t;
      assert r in d.heap && d.heap[r] == g.heap[r];
    }
  }

  /** A closed set within the heap: strings may be added, and what is not there left out. */
  lemma SeedRetains(d: G, s: set<Ref>)
    requires Inv(d) && d.gcstate == Pause && Seed(Emptied(d), s)
    ensures Retains(d, (s + Strings(d.heap)) * d.heap.Keys)
  {
    var a := s + Strings(d.heap);
    var t := a * d.heap.Keys;
    SeedRoots(d, s);
    RestingAlive(d);
    forall r | r in d.heap && r in t ensures StrongIn(d.heap, d.upvals, d.heap[r], t) && MetIn(d.heap, d.heap[r], t, false) {
      RestingRefs(d, r);
      SeedAt(d, s, r);
      StrongMeet(d.heap, d.upvals, d.heap[r], a);
    }
    forall u | u in d.upvals && d.upvals[u].Open? && d.upvals[u].touched && d.upvals[u].th in Alive(d)
      ensures In(UpValue(d.heap, d.upvals, u), t)
    {
      OpenAlive(d, u);
      RestingRefs(d, d.upvals[u].th);
    }
  }

  lemma SeedRoots(d: G, s: set<Ref>)
    requires Inv(d) && d.gcstate == Pause && Seed(Emptied(d), s)
    ensures d.mainthread in s && d.running in s && In(d.registry, s) && ValsIn(d.mt, s) && forall r :: r in d.fixedgc ==> r in s
    ensures RootsIn(d, d.heap.Keys) && forall r :: r in d.fixedgc ==> r in d.heap
    ensures TouchedIn(d, s)
  {
    RestingAlive(d);
    forall r | r in d.fixedgc ensures r in s { assert r in Marks(Emptied(d)); }
  }

  lemma SeedAt(d: G, s: set<Ref>, r: Ref)
    requires Seed(Emptied(d), s) && r in d.heap && r in s + Strings(d.heap)
    ensures StrongIn(d.heap, d.upvals, d.heap[r], s + Strings(d.heap))
  {
  }

  lemma StrongMeet(h: Heap, us: UpVals, o: Object, a: set<Ref>)
    requires StrongIn(h, us, o, a) && RefsIn(h, us, o, h.Keys) && Strings(h) <= a
    ensures StrongIn(h, us, o, a * h.Keys) && MetIn(h, o, a * h.Keys, false)
  {
    if o.Table? {
      forall i | 0 <= i < |o.nodes| ensures EntryIn(o.nodes[i], h.Keys) {}
    }
  }

  lemma OpenAlive(g: G, u: UpRef)
    requires Core(g) && u in g.upvals && g.upvals[u].Open?
    ensures g.upvals[u].th in g.heap
  {
  }

  lemma RestingAlive(g: G)
    requires Inv(g) && g.gcstate == Pause
    ensures Alive(g) == g.heap.Keys
  {
  }

  lemma SweepsTrimmed(g: G, d: G, w: Which)
    requires Sweeps(g, d, w)
    ensures Trimmed(g, d)
  {
  }

  /** One step in a late state, finalizers aside. */
  lemma LateStep(g: G, d: G, max: nat, limit: set<Ref>)
    requires Held(g) && Late(g.gcstate) && (g.gcstate == CallFin ==> g.tobefnz == []) && Stepped(g, d, max, 0, limit)
    ensures Trimmed(g, d) && (Late(d.gcstate) || d.gcstate == Pause)
    ensures max > 0 ==> LateRank(d) < LateRank(g) || (LateRank(d) == LateRank(g) && Rest(d) < Rest(g) && Sweeping(d.gcstate))
  {
    hide Rest, Framed, Phase;
    if Sweeping(g.gcstate) {
      SweepsTrimmed(g, d.(gcstate := g.gcstate, sweepgc := g.sweepgc), ListFor(g.gcstate));
    } else if g.gcstate == SwpEnd {
      MainAlive(g);
      assert Alive(d) == Alive(g);
    }
  }

  lemma MainAlive(g: G)
    requires Held(g)
    ensures g.mainthread in Alive(g) && g.mainthread in g.marked
  {
  }

  /** Distance to the end of the cycle. */
  function LateRank(g: G): nat {
    match g.gcstate
    case SwpAllGc => 5
    case SwpFinObj => 4
    case SwpToBeFnz => 3
    case SwpEnd => 2
    case CallFin => 1
    case _ => 0
  }

  ghost function LateRest(g: G): nat {
    if Sweeping(g.gcstate) && Rest(g) > 0 then Rest(g) else 0
  }

  lemma RestNat(g: G)
    requires Held(g)
    ensures Sweeping(g.gcstate) ==> Rest(g) >= 0
  {
    if Sweeping(g.gcstate) { RestIs(g); }
  }

  /** 'luaC_runtilstate(L, bitmask(st))' from a late state, for st == GCScallfin or GCSpause. */
  method FinishCycle(g: GlobalState, st: GcState, max: nat)
    requires Inv(g.Snap()) && (Late(g.gcstate) || g.gcstate == Pause) && g.tobefnz == [] && max > 0
    requires st == Pause || (st == CallFin && g.gcstate != Pause)
    modifies g
    ensures Inv(g.Snap()) && g.gcstate == st && Trimmed(old(g.Snap()), g.Snap())
  {
    hide Inv, Held, Trimmed, Stepped, Rest;
    ghost var s0 := g.Snap();
    TrimmedRefl(s0);
    while g.gcstate != st
      invariant Inv(g.Snap()) && (Late(g.gcstate) || g.gcstate == Pause) && g.tobefnz == []
      invariant Trimmed(s0, g.Snap())
      invariant st == CallFin ==> g.gcstate != Pause
      decreases LateRank(g.Snap()), LateRest(g.Snap())
    {
      ghost var s := g.Snap();
      InvHeld(s);
      SingleStep(g, max, 0, {});
      LateStep(s, g.Snap(), max, {});
      TrimmedTrans(s0, s, g.Snap());
      TrimmedFin(s, g.Snap());
      if st == CallFin { LateNext(s, g.Snap(), max, {}); }
      InvHeld(g.Snap());
      RestNat(g.Snap());
      RestNat(s);
    }
  }

  lemma TrimmedRefl(g: G)
    ensures Trimmed(g, g)
  {
  }

  lemma TrimmedFin(g: G, d: G)
    requires Trimmed(g, d)
    ensures d.finobj == g.finobj && d.tobefnz == g.tobefnz
  {
  }

  lemma LateNext(g: G, d: G, max: nat, limit: set<Ref>)
    requires Late(g.gcstate) && g.gcstate != CallFin && Stepped(g, d, max, 0, limit)
    ensures d.gcstate != Pause
  {
    hide Rest;
  }

  // ----- The mark phases -----

  /** Tracing without interruption, since state g at the start of the cycle. */
  ghost predicate Undisturbed(g: G, d: G, limit: set<Ref>) {
    && Clean(g, d) && Traced(g, d) && TouchUps(d.upvals, g.upvals) && Tidy(d)
    && LimitOK(d, limit) && Marks(d) <= limit && NothingDead(g)
  }

  /** Outcome d of the cycle that started in state g: the objects that are not dead are a set as
      above, within the limit, and nothing disappeared from them but entries with dead keys or
      values. */
  ghost predicate Collected(g: G, d: G, limit: set<Ref>) {
    && Retains(g, Alive(d)) && Alive(d) <= limit && d.finobj == g.finobj && d.tobefnz == []
    && d.heap.Keys <= g.heap.Keys && d.fixedgc == g.fixedgc
    && (forall r :: r in d.heap ==> FateObject(g.heap, d.heap[r], g.heap[r], Alive(d), Alive(d)))
  }

  /** A table of the strongly marked set a, at the end of a cycle that marked t. */
  lemma TableKept(h: Heap, us: UpVals, o: Object, o': Object, a: set<Ref>, t: set<Ref>)
    requires o.Table? && StrongIn(h, us, o, a) && StrongIn(h, us, o, a + Strings(h)) && a <= t <= a + Strings(h)
    requires FateObject(h, o', o, a, t) && o'.Table? && ValsIn(o'.arr, t) && EntriesIn(o'.nodes, t)
    requires o.mode.weakValue ==> StrValsIn(h, o.nodes, t)
    ensures StrongIn(h, us, o, t) && MetIn(h, o, t, false)
  {
    forall i | 0 <= i < |o.nodes| ensures NodeRetained(h, o.mode, o.nodes[i], t) {
      assert o' == o || FateNode(h, o'.nodes[i], o.nodes[i], a, t);
      assert EntryIn(o'.nodes[i], t);
    }
    forall i | 0 <= i < |o.arr| ensures StrIn(h, o.arr[i], t) {
      assert o' == o || FateVal(h, o'.arr[i], o.arr[i], a);
      assert In(o'.arr[i], t);
    }
    assert TableRetained(h, o, t);
    TableClauses(h, us, o, t);
  }

  lemma ObjectKept(g: G, d: G, a: set<Ref>, m: map<Ref, Color>, r: Ref)
    requires Strongly(g, d, a, m) && Tidy(g) && NothingDead(g) && Wf(d) && Alive(d) == Marks(d)
    requires r in g.heap && r in d.heap && r in Alive(d)
    ensures StrongIn(g.heap, g.upvals, g.heap[r], Marks(d)) && MetIn(g.heap, g.heap[r], Marks(d), false)
  {
    hide Select, Tidy, TouchedIn, StrongIn, MetIn, FateNode, FateVal, UpsOK, NothingDead;
    var o, t := g.heap[r], Marks(d);
    assert FateObject(g.heap, d.heap[r], o, a, t);
    if o.Str? {
      assert StrongIn(g.heap, g.upvals, o, t) && MetIn(g.heap, o, t, false) by { PlainClauses(g, o, t); }
    } else if o.Table? {
      assert r in a;
      assert RefsIn(d.heap, d.upvals, d.heap[r], t);
      TableKept(g.heap, g.upvals, o, d.heap[r], a, t);
    } else {
      assert r in a;
      StrongMono(g, o, a, t);
    }
  }

  lemma StrongMono(g: G, o: Object, a: set<Ref>, t: set<Ref>)
    requires !o.Table? && StrongIn(g.heap, g.upvals, o, a) && a <= t
    ensures StrongIn(g.heap, g.upvals, o, t) && MetIn(g.heap, o, t, false)
  {
    RefsMono(g.heap, g.upvals, o, a, t);
  }

  /** What 'atomic' leaves marked, when tracing was not disturbed and nothing is to be finalized. */
  lemma AtomicKept(g: G, d: G, limit: set<Ref>)
    requires AtomicDone(g, d, limit) && Tidy(g) && NothingDead(g) && BitsOK(g)
    ensures Retains(g, Alive(d)) && d.finobj == g.finobj && d.tobefnz == [] && Alive(d) <= limit
    ensures Fate(g.heap, d.heap, Alive(d), Alive(d))
  {
    hide Fate, Select, Shaped, RefsAlive, RefsBut, MetasAlive, MetasIn, TwupsAlive, Tidy, StrongClosed, WeakStrings, StrongIn,
      MetIn, FewerHeap, NothingDead;
    TidyMetas(g);
    MetasFromIn(g, Marks(g), d);
    RefsWhole(d);
    var a, m :| Strongly(g, d, a, m);
    forall r | r in g.heap && r in Alive(d)
      ensures StrongIn(g.heap, g.upvals, g.heap[r], Alive(d)) && MetIn(g.heap, g.heap[r], Alive(d), false)
    {
      SameKeys(g, d);
      ObjectKept(g, d, a, m, r);
    }
    forall r | r in g.fixedgc ensures r in Alive(d) { assert r in Marks(g); }
    KeptFin(g, d, a, m);
    FateLift(g.heap, d.heap, a, Alive(d));
  }

  lemma SameKeys(g: G, d: G)
    requires FewerHeap(d.heap, g.heap)
    ensures d.heap.Keys == g.heap.Keys
  {
  }

  lemma FateLift(h: Heap, d: Heap, a: set<Ref>, t: set<Ref>)
    requires Fate(h, d, a, t) && t <= a + Strings(h)
    ensures Fate(h, d, t, t)
  {
    forall r | r in h ensures FateObject(h, d[r], h[r], t, t) {
      assert FateObject(h, d[r], h[r], a, t);
      if h[r].Table? && d[r] != h[r] {
        forall i | 0 <= i < |h[r].arr| ensures FateVal(h, d[r].arr[i], h[r].arr[i], t) {
          assert FateVal(h, d[r].arr[i], h[r].arr[i], a);
        }
        forall i | 0 <= i < |h[r].nodes| ensures FateNode(h, d[r].nodes[i], h[r].nodes[i], t, t) {
          assert FateNode(h, d[r].nodes[i], h[r].nodes[i], a, t);
        }
      }
    }
  }

  lemma AtomicCollects(g: G, s: G, m: G, d: G, limit: set<Ref>)
    requires Inv(g) && g.gcstate == Pause && Undisturbed(Emptied(g), s, limit) && AtomicDone(s, m, limit)
    requires Sweeps(m.(gcstate := SwpAllGc), d.(sweepgc := Null), AllGc)
    ensures Collected(g, d, limit)
  {
    hide Inv, AtomicDone, LimitOK, Clean, Traced, Tidy, Fate, Retains, BitsOK, TouchUps, NothingDead;
    var e := Emptied(g);
    AtomicJoin(e, s, m, limit);
    TidyEmptied(g);
    BitsEmptied(g);
    AtomicKept(e, m, limit);
    assert Alive(d) == Alive(m);
    RetainsEmptied(g, Alive(d));
    DoneFixed(e, m, limit);
    FateParts(g.heap, m.heap, Alive(m), Alive(m));
  }

  lemma TidyEmptied(g: G)
    ensures Tidy(Emptied(g))
  {
  }

  lemma BitsEmptied(g: G)
    requires Inv(g)
    ensures BitsOK(Emptied(g))
  {
  }

  lemma RetainsEmptied(g: G, s: set<Ref>)
    requires Retains(Emptied(g), s)
    ensures Retains(g, s)
  {
    assert Alive(Emptied(g)) == Alive(g);
  }

  lemma DoneFixed(g: G, d: G, limit: set<Ref>)
    requires AtomicDone(g, d, limit)
    ensures d.fixedgc == g.fixedgc
  {
  }

  /** Nothing is separated. */
  lemma KeptFin(g: G, d: G, a: set<Ref>, m: map<Ref, Color>)
    requires Strongly(g, d, a, m) && Tidy(g) && NothingDead(g)
    ensures d.finobj == g.finobj && d.tobefnz == []
  {
    hide Tidy, TouchedIn, StrongClosed, WeakStrings, Fate;
    assert Seed(g, a);
    forall r | r in g.finobj ensures r in m && !m[r].White? {
      assert r in a;
      assert r in Marked(m);
    }
    SelectNobody(g.finobj, m);
  }

  lemma FateParts(h: Heap, d: Heap, s1: set<Ref>, s: set<Ref>)
    requires Fate(h, d, s1, s)
    ensures d.Keys == h.Keys && forall r :: r in h ==> FateObject(h, d[r], h[r], s1, s)
  {
  }

  lemma CollectedTrimmed(g: G, m: G, d: G, limit: set<Ref>)
    requires Collected(g, m, limit) && Trimmed(m, d)
    ensures Collected(g, d, limit)
  {
    hide Retains;
  }

  lemma PauseUndisturbed(g: G, d: G, max: nat, limit: set<Ref>)
    requires g.gcstate == Pause && NothingDead(Emptied(g)) && Stepped(g, d, max, 0, limit)
    ensures Undisturbed(Emptied(g), d, limit) && d.gcstate == Propagate
  {
    hide LimitOK;
    assert Marks(Emptied(g)) == Marks(g);
  }

  lemma PropagateUndisturbed(g: G, s: G, d: G, max: nat, limit: set<Ref>)
    requires Undisturbed(g, s, limit) && s.gcstate == Propagate && Stepped(s, d, max, 0, limit)
    ensures Undisturbed(g, d, limit) && (d.gcstate == Propagate || d.gcstate == Atomic)
  {
    hide LimitOK, Tidy, Clean, Traced, TouchUps, NothingDead;
    TracedTrans(g, s, d);
    CleanTrans(g, s, d);
    TidyClean(s, d);
    TouchTrans(g, s, d);
  }

  lemma TouchTrans(g: G, m: G, d: G)
    requires TouchUps(m.upvals, g.upvals) && TouchUps(d.upvals, m.upvals)
    ensures TouchUps(d.upvals, g.upvals)
  {
    forall u | u in g.upvals ensures TouchUp(d.upvals[u], g.upvals[u]) {
      assert TouchUp(m.upvals[u], g.upvals[u]) && TouchUp(d.upvals[u], m.upvals[u]);
    }
  }

  /** From the start of a cycle to the start of its sweep. */
  method MarkCycle(g: GlobalState, max: nat, ghost limit: set<Ref>)
    requires Inv(g.Snap()) && g.gcstate == Pause && NothingDead(Emptied(g.Snap())) && LimitOK(g.Snap(), limit)
    modifies g
    ensures Inv(g.Snap()) && g.gcstate == SwpAllGc && Collected(old(g.Snap()), g.Snap(), limit)
  {
    hide Inv, Held, Undisturbed, Collected, AtomicDone, Sweeps, LimitOK, Unmarked, MetasMarked;
    ghost var s0 := g.Snap();
    InvHeld(s0);
    SingleStep(g, max, 0, limit);
    PauseUndisturbed(s0, g.Snap(), max, limit);
    while g.gcstate == Propagate
      invariant Inv(g.Snap()) && (g.gcstate == Propagate || g.gcstate == Atomic) && Undisturbed(Emptied(s0), g.Snap(), limit)
      decreases |Whites(g.Snap())|, |g.gray|, if g.gcstate == Propagate then 1 else 0
    {
      ghost var m := g.Snap();
      UndisturbedLimit(Emptied(s0), m, limit);
      InvHeld(m);
      SingleStep(g, max, 0, limit);
      PropagateUndisturbed(Emptied(s0), m, g.Snap(), max, limit);
    }
    ghost var m := g.Snap();
    UndisturbedLimit(Emptied(s0), m, limit);
    InvHeld(m);
    SingleStep(g, max, 0, limit);
    ghost var e :| AtomicDone(m, e, limit) && Sweeps(e.(gcstate := SwpAllGc), g.Snap().(sweepgc := Null), AllGc);
    AtomicCollects(s0, m, e, g.Snap(), limit);
  }

  lemma UndisturbedLimit(g: G, d: G, limit: set<Ref>)
    requires Undisturbed(g, d, limit)
    ensures LimitOK(d, limit) && Marks(d) <= limit && MetasMarked(d)
  {
    TidyMetas(d);
  }

  // ----- luaC_fullgc -----

  /** The outcome of a full collection from state g: the objects left are exactly the needed ones,
      all white again, and nothing disappeared from them but entries with dead keys or values. */
  ghost predicate FullyCollected(g: G, d: G) {
    && d.gcstate == Pause && Inv(d) && d.heap.Keys == Needed(g)
    && (forall r :: r in d.heap ==> r in g.heap && FateObject(g.heap, d.heap[r], g.heap[r], d.heap.Keys, d.heap.Keys))
  }

  /** An entry of a table that is left stays if and only if its key and its value are left. */
  lemma EntriesLeft(g: G, d: G, r: Ref, i: nat)
    requires FullyCollected(g, d) && r in d.heap && g.heap[r].Table? && i < |g.heap[r].nodes| && g.heap[r].nodes[i].val != Nil
    ensures d.heap[r].Table? && |d.heap[r].nodes| == |g.heap[r].nodes|
    ensures var n := g.heap[r].nodes[i];
            if In(n.key, Needed(g)) && In(n.val, Needed(g)) then d.heap[r].nodes[i] == n else d.heap[r].nodes[i].val == Nil
  {
    hide Needed;
    RestingRefs(d, r);
    assert FateObject(g.heap, d.heap[r], g.heap[r], d.heap.Keys, d.heap.Keys);
    assert d.heap[r] == g.heap[r] || FateNode(g.heap, d.heap[r].nodes[i], g.heap[r].nodes[i], d.heap.Keys, d.heap.Keys);
    assert EntryIn(d.heap[r].nodes[i], d.heap.Keys);
  }

  lemma RestingRefs(g: G, r: Ref)
    requires Inv(g) && g.gcstate == Pause && r in g.heap
    ensures RefsIn(g.heap, g.upvals, g.heap[r], g.heap.Keys)
  {
    RestingAlive(g);
  }

  lemma FullEnd(g: G, m: G, d: G)
    requires Core(g) && Trimmed(g, m) && Collected(m, d, Needed(g)) && Inv(d) && d.gcstate == Pause && Inv(m) && m.gcstate == Pause
    ensures FullyCollected(g, d)
  {
    hide Inv, Needed, Retains, Core, FateObject;
    RestingAlive(d);
    RestingAlive(m);
    RetainsMore(g, m, d.heap.Keys);
    NeededLeast(g);
    forall r | r in d.heap ensures FateObject(g.heap, d.heap[r], g.heap[r], d.heap.Keys, d.heap.Keys) {
      FateMore(m.heap, g.heap, d.heap[r], m.heap[r], d.heap.Keys, d.heap.Keys);
    }
  }

  /** Objects that were dead before do not matter. */
  lemma RetainsMore(g: G, m: G, s: set<Ref>)
    requires Trimmed(g, m) && Inv(m) && m.gcstate == Pause && Retains(m, s) && s <= m.heap.Keys
    ensures Retains(g, s)
  {
    hide Inv;
    RestingAlive(m);
    forall r | r in g.heap && r in s ensures StrongIn(g.heap, g.upvals, g.heap[r], s) && MetIn(g.heap, g.heap[r], s, false) {
      RetainsAt(m, s, r);
      RestingRefs(m, r);
      ObjectMore(m, g, m.heap[r], s);
    }
    forall u | u in g.upvals && g.upvals[u].Open? && g.upvals[u].touched && g.upvals[u].th in Alive(g)
      ensures In(UpValue(g.heap, g.upvals, u), s)
    {
      assert m.upvals[u] == g.upvals[u];
      assert UpValue(m.heap, m.upvals, u) == UpValue(g.heap, g.upvals, u);
    }
  }

  lemma ObjectMore(m: G, g: G, o: Object, s: set<Ref>)
    requires Trimmed(g, m) && StrongIn(m.heap, m.upvals, o, s) && MetIn(m.heap, o, s, false)
    requires RefsIn(m.heap, m.upvals, o, m.heap.Keys)
    ensures StrongIn(g.heap, g.upvals, o, s) && MetIn(g.heap, o, s, false)
  {
    match o
    case LCl(p, ups) =>
      forall i | 0 <= i < |ups| ensures In(UpValue(g.heap, g.upvals, ups[i]), s) {
        assert UpValue(m.heap, m.upvals, ups[i]) == UpValue(g.heap, g.upvals, ups[i]);
      }
    case Table(meta, mode, arr, nodes) =>
      TableClauses(m.heap, m.upvals, o, s);
      forall i | 0 <= i < |nodes| ensures NodeRetained(g.heap, mode, nodes[i], s) {
        assert EntryIn(nodes[i], m.heap.Keys);
        assert NodeRetained(m.heap, mode, nodes[i], s);
      }
      TableClauses(g.heap, g.upvals, o, s);
    case _ =>
  }

  lemma FateMore(h: Heap, g: Heap, o': Object, o: Object, s1: set<Ref>, s: set<Ref>)
    requires FateObject(h, o', o, s1, s) && h.Keys <= g.Keys && forall r :: r in h ==> h[r] == g[r]
    ensures FateObject(g, o', o, s1, s)
  {
    if o.Table? && o' != o {
      forall i | 0 <= i < |o.nodes| ensures FateNode(g, o'.nodes[i], o.nodes[i], s1, s) {
        assert FateNode(h, o'.nodes[i], o.nodes[i], s1, s);
      }
      forall i | 0 <= i < |o.arr| ensures FateVal(g, o'.arr[i], o.arr[i], s1) {
        assert FateVal(h, o'.arr[i], o.arr[i], s1);
      }
    }
  }

  /** 'luaC_fullgc' (not in an emergency): from any state with nothing to finalize, exactly the needed
      objects are left. */
  method FullGc(g: GlobalState, max: nat)
    requires Inv(g.Snap()) && NothingToFinalize(g.Snap()) && max > 0
    modifies g
    ensures FullyCollected(old(g.Snap()), g.Snap())
  {
    hide Inv, Held, Trimmed, Collected, Sweeps, LimitOK, FullyCollected, Retains, Needed, Core, Framed, NothingDead, Emptied;
    ghost var s0 := g.Snap();
    ghost var limit := Needed(s0);
    InvCoreOf(s0);
    NeededLeast(s0);
    TrimmedRefl(s0);
    if KeepInvariant(g.gcstate) {
      InvPointer(s0);
      EnterSweep(g);
      EnterTrimmed(s0, g.Snap());
      EnterInv(s0, g.Snap());
    }
    ghost var s1 := g.Snap();
    InvHeld(s1);
    NotInside(s1);
    TrimmedFin(s0, s1);
    FinishCycle(g, Pause, max);
    ghost var m := g.Snap();
    TrimmedTrans(s0, s1, m);
    TrimmedFin(s1, m);
    TrimmedLimit(s0, m);
    MarkCycle(g, max, limit);
    ghost var s2 := g.Snap();
    CollectedFin(m, s2, limit);
    FinishCycle(g, CallFin, max);
    ghost var s3 := g.Snap();
    TrimmedFin(s2, s3);
    FinishCycle(g, Pause, max);
    TrimmedTrans(s2, s3, g.Snap());
    CollectedTrimmed(m, s2, g.Snap(), limit);
    FullEnd(s0, m, g.Snap());
  }

  lemma InvCoreOf(g: G)
    requires Inv(g)
    ensures Core(g)
  {
  }

  lemma CollectedFin(g: G, d: G, limit: set<Ref>)
    requires Collected(g, d, limit)
    ensures d.tobefnz == []
  {
  }

  lemma InvPointer(g: G)
    requires Inv(g) && KeepInvariant(g.gcstate)
    ensures Framed(g) && g.sweepgc == Null
  {
  }

  lemma EnterInv(g: G, d: G)
    requires Inv(g) && Held(d) && Sweeps(g.(gcstate := SwpAllGc), d.(sweepgc := Null), AllGc)
    ensures Inv(d)
  {
    hide Inv, Held, Sweeps, RefsAlive, RefsBut, MetasAlive, Framed, Phase;
    var a, b := g.(gcstate := SwpAllGc), d.(sweepgc := Null);
    InvHeld(g);
    InvHeld(d);
    StateRefs(g, a);
    InvShaped(g);
    SameShaped(g, a);
    SweepsRefs(a, b, AllGc);
    StateRefs(b, d);
  }

  lemma InvShaped(g: G)
    requires Inv(g)
    ensures Shaped(g)
  {
  }

  lemma EnterTrimmed(g: G, d: G)
    requires Sweeps(g.(gcstate := SwpAllGc), d.(sweepgc := Null), AllGc)
    ensures Trimmed(g, d)
  {
    assert Alive(d) == Alive(g);
  }
}
