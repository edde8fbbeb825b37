/** What the running program does to the heap: every operation keeps the collector's invariant. */
module LgcMutator {
  import opened LgcHeap
  import opened LgcGrow
  import opened LgcMark
  import opened LgcPropagate
  import opened LgcAtomic
  import opened LgcInv
  import opened LgcSweep
  import opened LgcStep
  import opened LgcCycle
  import opened LgcBarrier

  // ----- Changing one object -----

  /** The contents of an object may change, its type may not; a stack keeps its open slots. */
  ghost predicate SameKind(g: G, r: Ref, n: Object)
    requires r in g.heap
  {
    match g.heap[r]
    case Str => false
    case Udata(_, _) => n.Udata?
    case Table(_, _, _, _) => n.Table? && KeysBelow(n, g.top)
    case LCl(_, _) => n.LCl? && forall i :: 0 <= i < |n.ups| ==> n.ups[i] in g.upvals
    case CCl(_) => n.CCl?
    case Thread(_) => n.Thread? && forall u :: u in g.upvals && g.upvals[u].Open? && g.upvals[u].th == r ==> g.upvals[u].level < |n.stack|
    case Proto(_) => n.Proto?
  }

  function Store(g: G, r: Ref, n: Object): G {
    g.(heap := g.heap[r := n])
  }

  /** A gray object that no list will bring back before the end of the cycle: a fully weak table
      that was visited. */
  predicate ParkedWeak(g: G, r: Ref) {
    KeepInvariant(g.gcstate) && r in g.marked && g.marked[r].Gray? && r !in g.gray && r !in g.grayagain
  }

  lemma StoreWf(g: G, r: Ref, n: Object)
    requires Wf(g) && r in g.heap && SameKind(g, r, n) && RefsIn(g.heap, g.upvals, n, Alive(g))
    requires n.Thread? ==> ValsIn(n.stack, Alive(g))
    ensures Wf(Store(g, r, n))
  {
    var d := Store(g, r, n);
    forall a | a in Alive(d) && a in d.heap ensures RefsIn(d.heap, d.upvals, d.heap[a], Alive(d)) {
      if a != r { assert RefsIn(g.heap, g.upvals, g.heap[a], Alive(g)); }
      if d.heap[a].LCl? {
        var ups := d.heap[a].ups;
        forall i | 0 <= i < |ups| ensures In(UpValue(d.heap, d.upvals, ups[i]), Alive(d)) {
          assert In(UpValue(g.heap, g.upvals, ups[i]), Alive(g));
        }
      }
    }
    assert UpsOK(d);
  }

  lemma StoreCore(g: G, r: Ref, n: Object)
    requires Core(g) && r in g.heap && SameKind(g, r, n) && RefsIn(g.heap, g.upvals, n, Alive(g))
    ensures Core(Store(g, r, n))
  {
    hide Wf;
    var d := Store(g, r, n);
    StoreWf(g, r, n);
    assert TwupsAlive(d);
    assert d.heap.Keys == g.heap.Keys;
    assert BitsOK(d);
  }

  lemma StoreTri(g: G, r: Ref, n: Object)
    requires Tri(g, {}, false) && r in g.heap
    ensures Tri(Store(g, r, n), {r}, false)
  {
    var d := Store(g, r, n);
    forall a | a in d.marked && a != r && d.marked[a].Black? && a in d.heap
      ensures BlackIn(d.heap, d.upvals, d.heap[a], Marks(d), false)
    {
      assert BlackIn(g.heap, g.upvals, g.heap[a], Marks(g), false);
      if g.heap[a].LCl? {
        forall i | 0 <= i < |g.heap[a].ups| ensures UpIn(d.heap, d.upvals, g.heap[a].ups[i], Marks(d), false) {
          assert UpIn(g.heap, g.upvals, g.heap[a].ups[i], Marks(g), false);
        }
      } else if g.heap[a].Table? {
        forall i | 0 <= i < |g.heap[a].nodes| ensures NodeIn(d.heap, g.heap[a].nodes[i], Marks(d)) {
          assert NodeIn(g.heap, g.heap[a].nodes[i], Marks(g));
        }
      }
    }
  }

  lemma StoreQueued(g: G, r: Ref, n: Object)
    requires Queued(g, {}, g.grayagain, []) && r in g.heap && SameKind(g, r, n) && KeepInvariant(g.gcstate)
    requires AllWaiting(g) && g.weak == [] && g.ephemeron == []
    ensures Queued(Store(g, r, n), {}, g.grayagain, []) && AllWaiting(Store(g, r, n))
  {
    var d := Store(g, r, n);
    forall a | MarkedTable(g, a) ensures MarkedTable(d, a) {}
    forall a | Idle(d, {}, d.grayagain, a)
      ensures Waiting(d, a, Marks(d)) && Parked(d, a, [], Marks(d))
    {
      assert Idle(g, {}, g.grayagain, a);
    }
  }

  /** The general store: r gets new contents; what is left to the barrier is its own blackness. */
  lemma StoreInv(g: G, r: Ref, n: Object)
    requires Inv(g) && r in g.heap && SameKind(g, r, n) && RefsIn(g.heap, g.upvals, n, Alive(g))
    ensures InvBut(Store(g, r, n), {r}) && Alive(Store(g, r, n)) == Alive(g)
  {
    hide Core, Tri, Queued, AllWaiting, SameKind;
    StoreCore(g, r, n);
    if KeepInvariant(g.gcstate) {
      StoreTri(g, r, n);
      StoreQueued(g, r, n);
    } else {
      StorePhase(g, r, n);
    }
  }

  lemma StorePhase(g: G, r: Ref, n: Object)
    requires Phase(g) && !KeepInvariant(g.gcstate) && r in g.heap
    ensures Phase(Store(g, r, n))
  {
    assert Store(g, r, n).heap.Keys == g.heap.Keys;
  }

  // ----- Tables -----

  lemma AliveRefs(g: G, r: Ref)
    requires Core(g) && r in g.heap && r in Alive(g)
    ensures RefsIn(g.heap, g.upvals, g.heap[r], Alive(g)) && KeysBelow(g.heap[r], g.top)
  {
  }

  lemma InvCore(g: G)
    requires Inv(g)
    ensures Core(g)
  {
  }

  /** What a black object refers to before the change. */
  lemma InvBlack(g: G, r: Ref)
    requires Inv(g) && KeepInvariant(g.gcstate) && r in g.heap && r in g.marked && g.marked[r].Black?
    ensures BlackIn(g.heap, g.upvals, g.heap[r], Marks(g), false)
  {
  }

  /** Changing entries of a table: v is the only new reference. */
  lemma TableStore(g: G, t: Ref, n: Object, v: TValue)
    requires Inv(g) && t in g.heap && t in Alive(g) && g.heap[t].Table? && n.Table?
    requires n.meta == g.heap[t].meta && KeysBelow(n, g.top) && In(v, Alive(g))
    requires forall s :: RefsIn(g.heap, g.upvals, g.heap[t], s) && In(v, s) ==> RefsIn(g.heap, g.upvals, n, s)
    requires forall s :: BlackIn(g.heap, g.upvals, g.heap[t], s, false) && In(v, s) ==> BlackIn(g.heap, g.upvals, n, s, false)
    ensures var d := Store(g, t, n);
            InvBut(d, {t}) && BlackBut(d, t, v) && t in Alive(d) && In(v, Alive(d))
  {
    hide Phase, Core, BlackIn, RefsIn;
    InvCore(g);
    AliveRefs(g, t);
    assert RefsIn(g.heap, g.upvals, n, Alive(g));
    StoreInv(g, t, n);
    var d := Store(g, t, n);
    if KeepInvariant(g.gcstate) && g.marked[t].Black? {
      InvBlack(g, t);
      BlackMono(g.heap, g.upvals, g.heap[t], Marks(g), Marks(g) + RefOf(v), false);
      assert BlackIn(g.heap, g.upvals, n, Marks(g) + RefOf(v), false);
      BlackStore(g, t, n, Marks(g) + RefOf(v));
    }
  }

  lemma BlackStore(g: G, t: Ref, n: Object, s: set<Ref>)
    requires t in g.heap && n.Table? && BlackIn(g.heap, g.upvals, n, s, false)
    ensures var d := Store(g, t, n); BlackIn(d.heap, d.upvals, n, s, false)
  {
    forall i | 0 <= i < |n.nodes| ensures NodeIn(Store(g, t, n).heap, n.nodes[i], s) {
      assert NodeIn(g.heap, n.nodes[i], s);
    }
  }

  /** A store keeps the metatables of 'allweak' marked, unless it is an unmarked metatable. */
  lemma StoreMetas(g: G, r: Ref, n: Object)
    requires MetasMarked(g) && r in g.heap
    requires n.Table? ==> g.heap[r].Table? && (n.meta == g.heap[r].meta || r !in g.allweak || In(n.meta, Marks(g)))
    ensures MetasMarked(Store(g, r, n))
  {
    var d := Store(g, r, n);
    assert Marks(d) == Marks(g);
  }

  /** A table of 'allweak' is gray, and not waiting for a visit. */
  lemma AllWeakParked(g: G, r: Ref)
    requires Inv(g) && KeepInvariant(g.gcstate) && r in g.allweak
    ensures ParkedWeak(g, r)
  {
  }

  lemma StoredMetas(g: G, m: G, d: G, r: Ref)
    requires r in g.heap && r in m.heap && m == Store(g, r, m.heap[r]) && Steady(m, d)
    requires m.heap[r].Table? ==> g.heap[r].Table? && m.heap[r].meta == g.heap[r].meta
    ensures MetasMarked(g) ==> MetasMarked(d)
  {
    if MetasMarked(g) {
      StoreMetas(g, r, m.heap[r]);
      SteadyMetas(m, d);
    }
  }

  /** Store into the array part ('lua_rawseti', OP_SETLIST). */
  method SetArray(g: GlobalState, t: Ref, i: nat, v: TValue)
    requires Inv(g.Snap()) && t in g.heap && t in Alive(g.Snap()) && In(v, Alive(g.Snap()))
    requires g.heap[t].Table? && i < |g.heap[t].arr|
    modifies g
    ensures Inv(g.Snap()) && g.heap == old(g.heap)[t := old(g.heap)[t].(arr := old(g.heap)[t].arr[i := v])]
    ensures MetasMarked(old(g.Snap())) ==> MetasMarked(g.Snap())
    ensures g.Snap() == Regrayed(Store(old(g.Snap()), t, g.heap[t]), t, v)
  {
    hide Inv, InvBut, BlackBut, MetasMarked;
    var n := g.heap[t].(arr := g.heap[t].arr[i := v]);
    InvCore(g.Snap());
    AliveRefs(g.Snap(), t);
    TableStore(g.Snap(), t, n, v);
    ghost var s := g.Snap();
    g.heap := g.heap[t := n];
    ghost var m := g.Snap();
    BarrierBack(g, t, v);
    StoredMetas(s, m, g.Snap(), t);
  }

  /** Store into an existing entry ('lua_rawset', 'luaV_finishset', OP_SETTABLE). The program holds
      the key. */
  method SetNode(g: GlobalState, t: Ref, i: nat, v: TValue)
    requires Inv(g.Snap()) && t in g.heap && t in Alive(g.Snap()) && In(v, Alive(g.Snap()))
    requires g.heap[t].Table? && i < |g.heap[t].nodes|
    requires In(g.heap[t].nodes[i].key, Alive(g.Snap()))
    modifies g
    ensures Inv(g.Snap())
    ensures g.heap == old(g.heap)[t := old(g.heap)[t].(nodes := old(g.heap)[t].nodes[i := Node(old(g.heap)[t].nodes[i].key, v)])]
    ensures MetasMarked(old(g.Snap())) ==> MetasMarked(g.Snap())
    ensures g.Snap() == Regrayed(Store(old(g.Snap()), t, g.heap[t]), t, v)
  {
    hide Inv, InvBut, BlackBut, MetasMarked;
    ghost var s := g.Snap();
    var n := g.heap[t].(nodes := g.heap[t].nodes[i := Node(g.heap[t].nodes[i].key, v)]);
    InvCore(s);
    AliveRefs(s, t);
    NodeStore(s, t, i, v);
    g.heap := g.heap[t := n];
    ghost var m := g.Snap();
    BarrierBack(g, t, v);
    StoredMetas(s, m, g.Snap(), t);
  }

  lemma NodeStore(g: G, t: Ref, i: nat, v: TValue)
    requires Inv(g) && t in g.heap && t in Alive(g) && In(v, Alive(g))
    requires g.heap[t].Table? && i < |g.heap[t].nodes| && In(g.heap[t].nodes[i].key, Alive(g))
    ensures var n := g.heap[t].(nodes := g.heap[t].nodes[i := Node(g.heap[t].nodes[i].key, v)]);
            var d := Store(g, t, n);
            InvBut(d, {t}) && BlackBut(d, t, v) && t in Alive(d) && In(v, Alive(d))
  {
    hide Phase, Core;
    var o := g.heap[t];
    var n := o.(nodes := o.nodes[i := Node(o.nodes[i].key, v)]);
    InvCore(g);
    AliveRefs(g, t);
    forall j | 0 <= j < |n.nodes| ensures EntryIn(n.nodes[j], Alive(g)) {
      assert EntryIn(o.nodes[j], Alive(g));
    }
    StoreInv(g, t, n);
    var d := Store(g, t, n);
    if KeepInvariant(g.gcstate) && g.marked[t].Black? {
      InvBlack(g, t);
      forall j | 0 <= j < |n.nodes| ensures NodeIn(d.heap, n.nodes[j], Marks(d) + RefOf(v)) {
        assert NodeIn(g.heap, o.nodes[j], Marks(g));
      }
    }
  }

  /** The entries of n come from o, at most with a fresh key k without a value: what a rehash and
      'luaH_newkey' may do to the hash part. */
  predicate Rehashed(o: Object, n: Object, k: TValue) {
    && o.Table? && n.Table? && n.meta == o.meta && n.mode == o.mode && n.arr == o.arr
    && forall j :: 0 <= j < |n.nodes| ==> n.nodes[j] in o.nodes || n.nodes[j] == Node(k, Nil) || n.nodes[j] == Node(Nil, Nil)
  }

  /** 'luaH_newkey': a new entry, possibly after a rehash. */
  method NewKey(g: GlobalState, t: Ref, nodes: seq<Node>, k: TValue)
    requires Inv(g.Snap()) && t in g.heap && t in Alive(g.Snap()) && In(k, Alive(g.Snap()))
    requires g.heap[t].Table? && Rehashed(g.heap[t], g.heap[t].(nodes := nodes), k)
    modifies g
    ensures Inv(g.Snap()) && g.heap == old(g.heap)[t := old(g.heap)[t].(nodes := nodes)]
    ensures MetasMarked(old(g.Snap())) ==> MetasMarked(g.Snap())
    ensures g.Snap() == Regrayed(Store(old(g.Snap()), t, g.heap[t]), t, k)
  {
    hide Inv, InvBut, BlackBut, MetasMarked, Rehashed;
    ghost var s := g.Snap();
    var n := g.heap[t].(nodes := nodes);
    InvCore(s);
    AliveRefs(s, t);
    RehashBelow(s, t, n, k);
    RehashRefs(s, t, n, k);
    TableStore(s, t, n, k);
    g.heap := g.heap[t := n];
    ghost var m := g.Snap();
    BarrierBack(g, t, k);
    StoredMetas(s, m, g.Snap(), t);
  }

  lemma RehashBelow(g: G, t: Ref, n: Object, k: TValue)
    requires Core(g) && t in g.heap && KeysBelow(g.heap[t], g.top) && Rehashed(g.heap[t], n, k) && In(k, Alive(g))
    ensures KeysBelow(n, g.top)
  {
    assert k.Coll? ==> k.ref in g.heap;
    forall i | 0 <= i < |n.nodes| && n.nodes[i].key.Coll? ensures n.nodes[i].key.ref < g.top {
      assert n.nodes[i] in g.heap[t].nodes || n.nodes[i] == Node(k, Nil);
    }
  }

  lemma RehashRefs(g: G, t: Ref, n: Object, k: TValue)
    requires t in g.heap && Rehashed(g.heap[t], n, k)
    ensures forall s :: RefsIn(g.heap, g.upvals, g.heap[t], s) && In(k, s) ==> RefsIn(g.heap, g.upvals, n, s)
    ensures forall s :: BlackIn(g.heap, g.upvals, g.heap[t], s, false) && In(k, s) ==> BlackIn(g.heap, g.upvals, n, s, false)
  {
    forall s | RefsIn(g.heap, g.upvals, g.heap[t], s) && In(k, s) ensures RefsIn(g.heap, g.upvals, n, s) {
      forall j | 0 <= j < |n.nodes| ensures EntryIn(n.nodes[j], s) {
        if n.nodes[j] in g.heap[t].nodes { var i :| 0 <= i < |g.heap[t].nodes| && g.heap[t].nodes[i] == n.nodes[j]; }
      }
    }
    forall s | BlackIn(g.heap, g.upvals, g.heap[t], s, false) && In(k, s) ensures BlackIn(g.heap, g.upvals, n, s, false) {
      forall j | 0 <= j < |n.nodes| ensures NodeIn(g.heap, n.nodes[j], s) {
        if n.nodes[j] in g.heap[t].nodes { var i :| 0 <= i < |g.heap[t].nodes| && g.heap[t].nodes[i] == n.nodes[j]; }
      }
    }
  }

  /** The '__mode' that a table's metatable shows changes. */
  method SetMode(g: GlobalState, t: Ref, mode: Mode)
    requires Inv(g.Snap()) && t in g.heap && t in Alive(g.Snap()) && g.heap[t].Table?
    modifies g
    ensures Inv(g.Snap()) && g.heap == old(g.heap)[t := old(g.heap)[t].(mode := mode)]
    ensures MetasMarked(old(g.Snap())) ==> MetasMarked(g.Snap())
    ensures g.Snap() == Store(old(g.Snap()), t, g.heap[t])
  {
    hide Inv, InvBut, BlackBut, MetasMarked;
    ghost var s := g.Snap();
    InvCore(s);
    AliveRefs(s, t);
    TableStore(s, t, g.heap[t].(mode := mode), Nil);
    AliveMarked(s, t);
    g.heap := g.heap[t := g.heap[t].(mode := mode)];
    Restored(g.Snap(), t, Nil);
    StoredMetas(s, g.Snap(), g.Snap(), t);
  }

  // ----- Metatables, user values, closures, prototypes -----

  /** n is o with metatable mt. */
  predicate MetaStored(o: Object, n: Object, mt: TValue) {
    if o.Udata? then n.Udata? && n.meta == mt && n.user == o.user
    else o.Table? && n.Table? && n.meta == mt && n.mode == o.mode && n.arr == o.arr && n.nodes == o.nodes
  }

  function WithMeta(o: Object, mt: TValue): Object
    requires o.Table?
  {
    Table(mt, o.mode, o.arr, o.nodes)
  }

  /** 'lua_setmetatable' on a table, without the finalizer check. A fully weak table that was
      already visited in this cycle is gray, so nothing marks its new metatable. */
  method SetTableMeta(g: GlobalState, t: Ref, mt: TValue)
    requires Inv(g.Snap()) && t in g.heap && t in Alive(g.Snap()) && In(mt, Alive(g.Snap())) && g.heap[t].Table?
    modifies g
    ensures Inv(g.Snap()) && g.heap == old(g.heap)[t := WithMeta(old(g.heap)[t], mt)] && g.gcstate == old(g.gcstate)
    ensures MetasMarked(old(g.Snap())) && (ParkedWeak(old(g.Snap()), t) ==> In(mt, Marks(old(g.Snap())))) ==> MetasMarked(g.Snap())
    ensures ParkedWeak(old(g.Snap()), t) ==> g.Snap() == old(g.Snap()).(heap := g.heap)
    ensures g.allweak == old(g.allweak) && (KeepInvariant(g.gcstate) ==> Marks(old(g.Snap())) <= Marks(g.Snap()))
    ensures t in Alive(g.Snap()) && MetaStored(old(g.heap)[t], g.heap[t], mt)
    ensures Barriered(Store(old(g.Snap()), t, g.heap[t]), g.Snap(), t, mt)
  {
    hide Inv, InvBut, BlackBut, MetasMarked, ParkedWeak;
    ghost var s := g.Snap();
    var n := WithMeta(g.heap[t], mt);
    InvCore(s);
    MetaStore(s, t, n, mt);
    g.heap := g.heap[t := n];
    ghost var m := g.Snap();
    Barrier(g, t, mt);
    StoreParked(s, m, g.Snap(), t, mt);
  }

  lemma StoreParked(g: G, m: G, d: G, t: Ref, mt: TValue)
    requires Inv(g) && t in g.heap && g.heap[t].Table? && m == Store(g, t, WithMeta(g.heap[t], mt)) && Steady(m, d)
    requires !(t in m.marked && m.marked[t].Black?) ==> d == m
    ensures MetasMarked(g) && (ParkedWeak(g, t) ==> In(mt, Marks(g))) ==> MetasMarked(d)
    ensures ParkedWeak(g, t) ==> d == g.(heap := d.heap)
    ensures d.allweak == g.allweak && (KeepInvariant(g.gcstate) ==> Marks(g) <= Marks(d)) && Alive(g) <= Alive(d)
  {
    hide Inv;
    assert Marks(m) == Marks(g) && Alive(m) == Alive(g);
    if MetasMarked(g) && (ParkedWeak(g, t) ==> In(mt, Marks(g))) {
      if KeepInvariant(g.gcstate) && t in g.allweak { AllWeakParked(g, t); }
      if KeepInvariant(g.gcstate) { StoreMetas(g, t, WithMeta(g.heap[t], mt)); }
      SteadyMetas(m, d);
    }
  }

  lemma MetaStore(g: G, t: Ref, n: Object, mt: TValue)
    requires Inv(g) && t in g.heap && t in Alive(g) && In(mt, Alive(g)) && g.heap[t].Table? && n == WithMeta(g.heap[t], mt)
    ensures var d := Store(g, t, n);
            InvBut(d, {t}) && BlackBut(d, t, mt) && t in Alive(d) && In(mt, Alive(d))
  {
    hide Phase, Core;
    InvCore(g);
    AliveRefs(g, t);
    StoreInv(g, t, n);
    var d := Store(g, t, n);
    if KeepInvariant(g.gcstate) && g.marked[t].Black? {
      InvBlack(g, t);
      forall j | 0 <= j < |n.nodes| ensures NodeIn(d.heap, n.nodes[j], Marks(d) + RefOf(mt)) {
        assert NodeIn(g.heap, g.heap[t].nodes[j], Marks(g));
      }
    }
  }

  datatype Slot = MetaSlot | UserSlot | ValSlot(i: nat) | NewConst

  predicate HasSlot(o: Object, slot: Slot) {
    match slot
    case MetaSlot => o.Udata?
    case UserSlot => o.Udata?
    case ValSlot(i) => (o.CCl? && i < |o.vals|) || (o.Proto? && i < |o.consts|)
    case NewConst => o.Proto?
  }

  /** n is o with v in the slot: the metatable and the user value of a userdata do not touch each
      other, a numbered slot leaves the other ones alone, a new constant is the last one. */
  predicate SlotWritten(o: Object, n: Object, slot: Slot, v: TValue) {
    match slot
    case MetaSlot => MetaStored(o, n, v)
    case UserSlot => o.Udata? && n.Udata? && n.user == v && n.meta == o.meta
    case ValSlot(i) =>
      if o.CCl? then n.CCl? && |n.vals| == |o.vals| && forall j :: 0 <= j < |o.vals| ==> n.vals[j] == if j == i then v else o.vals[j]
      else o.Proto? && n.Proto? && |n.consts| == |o.consts| && forall j :: 0 <= j < |o.consts| ==> n.consts[j] == if j == i then v else o.consts[j]
    case NewConst => o.Proto? && n.Proto? && n.consts == o.consts + [v]
  }

  /** One slot of a userdata, C closure or prototype gets value v. */
  function WithSlot(o: Object, slot: Slot, v: TValue): Object
    requires HasSlot(o, slot)
  {
    match slot
    case MetaSlot => Udata(v, o.user)
    case UserSlot => Udata(o.meta, v)
    case ValSlot(i) => if o.CCl? then CCl(o.vals[i := v]) else Proto(o.consts[i := v])
    case NewConst => Proto(o.consts + [v])
  }

  /** Stores guarded by 'luaC_barrier': metatable and user value of a userdata, upvalues of a C
      closure, constants and names of a prototype under construction. */
  method SetSlot(g: GlobalState, r: Ref, slot: Slot, v: TValue)
    requires Inv(g.Snap()) && r in g.heap && r in Alive(g.Snap()) && In(v, Alive(g.Snap()))
    requires HasSlot(g.heap[r], slot)
    modifies g
    ensures Inv(g.Snap()) && g.heap == old(g.heap)[r := WithSlot(old(g.heap)[r], slot, v)] && r in Alive(g.Snap())
    ensures SlotWritten(old(g.heap)[r], g.heap[r], slot, v)
    ensures MetasMarked(old(g.Snap())) ==> MetasMarked(g.Snap())
    ensures Barriered(Store(old(g.Snap()), r, g.heap[r]), g.Snap(), r, v)
  {
    hide Inv, InvBut, BlackBut, MetasMarked;
    ghost var s := g.Snap();
    InvCore(s);
    SlotStore(s, r, slot, v);
    g.heap := g.heap[r := WithSlot(g.heap[r], slot, v)];
    ghost var m := g.Snap();
    Barrier(g, r, v);
    StoredMetas(s, m, g.Snap(), r);
  }

  lemma SlotStore(g: G, r: Ref, slot: Slot, v: TValue)
    requires Inv(g) && r in g.heap && r in Alive(g) && In(v, Alive(g)) && HasSlot(g.heap[r], slot)
    ensures var n := WithSlot(g.heap[r], slot, v); var d := Store(g, r, n);
            InvBut(d, {r}) && BlackBut(d, r, v) && r in Alive(d) && In(v, Alive(d)) && !n.Str?
  {
    hide Phase, Core;
    InvCore(g);
    AliveRefs(g, r);
    StoreInv(g, r, WithSlot(g.heap[r], slot, v));
    if KeepInvariant(g.gcstate) && g.marked[r].Black? { InvBlack(g, r); }
  }

  // ----- Stacks and roots -----

  /** The program rewrites a stack; threads are never black, so no barrier is needed. */
  method SetStack(g: GlobalState, th: Ref, stack: seq<TValue>)
    requires Inv(g.Snap()) && th in g.heap && th in Alive(g.Snap()) && g.heap[th].Thread? && ValsIn(stack, Alive(g.Snap()))
    requires forall u :: u in g.upvals && g.upvals[u].Open? && g.upvals[u].th == th ==> g.upvals[u].level < |stack|
    modifies g
    ensures Inv(g.Snap()) && g.heap == old(g.heap)[th := Thread(stack)]
    ensures MetasMarked(old(g.Snap())) ==> MetasMarked(g.Snap())
    ensures g.Snap() == Store(old(g.Snap()), th, g.heap[th])
  {
    hide Inv, InvBut, MetasMarked;
    ghost var s := g.Snap();
    InvCore(s);
    StackStore(s, th, Thread(stack));
    g.heap := g.heap[th := Thread(stack)];
    StoredMetas(s, g.Snap(), g.Snap(), th);
  }

  lemma StackStore(g: G, th: Ref, n: Object)
    requires Inv(g) && th in g.heap && th in Alive(g) && g.heap[th].Thread? && n.Thread?
    requires SameKind(g, th, n) && ValsIn(n.stack, Alive(g))
    ensures Inv(Store(g, th, n))
  {
    hide Core, Phase;
    AliveMarked(g, th);
    if KeepInvariant(g.gcstate) && g.marked[th].Black? { InvBlack(g, th); }
    StoreInv(g, th, n);
    Restored(Store(g, th, n), th, Nil);
  }

  /** The registry, the basic metatables and the running thread are marked again in 'atomic'. */
  method SetRoots(g: GlobalState, registry: TValue, mt: seq<TValue>, running: Ref)
    requires Inv(g.Snap()) && In(registry, Alive(g.Snap())) && ValsIn(mt, Alive(g.Snap())) && running in Alive(g.Snap())
    modifies g`registry, g`mt, g`running
    ensures Inv(g.Snap()) && g.registry == registry && g.mt == mt && g.running == running
    ensures MetasMarked(old(g.Snap())) ==> MetasMarked(g.Snap())
  {
    hide Inv, MetasMarked, Grow;
    ghost var s := g.Snap();
    g.registry, g.mt, g.running := registry, mt, running;
    RootsInv(s, g.Snap());
    MetasFrame(s, g.Snap());
  }

  lemma RootsInv(g: G, d: G)
    requires Inv(g) && d == g.(registry := d.registry, mt := d.mt, running := d.running)
    requires In(d.registry, Alive(g)) && ValsIn(d.mt, Alive(g)) && d.running in Alive(g)
    ensures Inv(d)
  {
    hide Wf;
    SameWf(g, d);
    assert TwupsAlive(d);
    if KeepInvariant(g.gcstate) {
      assert Tri(d, {}, false);
      SameQueues(g, d);
    }
  }

  /** The queues depend on the heap, the marks and the lists of gray objects. */
  lemma SameQueues(g: G, d: G)
    requires Queued(g, {}, g.grayagain, []) && AllWaiting(g) && KeepInvariant(g.gcstate)
    requires d.heap == g.heap && d.marked == g.marked && d.gcstate == g.gcstate && d.gray == g.gray
    requires d.grayagain == g.grayagain && d.weak == g.weak && d.allweak == g.allweak && d.ephemeron == g.ephemeron
    ensures Queued(d, {}, d.grayagain, []) && AllWaiting(d)
  {
    forall r | Idle(d, {}, d.grayagain, r) ensures Waiting(d, r, Marks(d)) && Parked(d, r, [], Marks(d)) {
      assert Idle(g, {}, g.grayagain, r);
    }
  }
}
