/** Whole runs: collector steps and program steps in any order. */
module LgcRun {
  import opened LgcHeap
  import opened LgcGrow
  import opened LgcMark
  import opened LgcAtomic
  import opened LgcInv
  import opened LgcCycle
  import opened LgcBarrier
  import opened LgcMutator
  import opened LgcClosures
  import opened LgcObjects

  /** What can happen next: a step of the collector or an operation of the program. */
  datatype Action =
    | Collect(max: nat, fins: nat)
    | Create(n: Object)
    | ArraySet(t: Ref, i: nat, v: TValue)
    | NodeSet(t: Ref, i: nat, v: TValue)
    | KeyNew(t: Ref, nodes: seq<Node>, k: TValue)
    | ModeSet(t: Ref, mode: Mode)
    | MetaSet(o: Ref, meta: TValue, hasgc: bool)
    | SlotSet(o: Ref, slot: Slot, v: TValue)
    | StackSet(th: Ref, stack: seq<TValue>)
    | RootsSet(registry: TValue, mt: seq<TValue>, running: Ref)
    | StringFind(o: Ref)
    | StringFix(o: Ref)
    | UpvalFind(u: UpRef, th: Ref, level: nat)
    | UpvalSet(u: UpRef, v: TValue)
    | UpvalClose(u: UpRef)
    | UpvalJoin(f: Ref, i: nat, u: UpRef)

  /** The operands of an operation are live objects of the right kind. */
  predicate Enabled(g: G, a: Action) {
    match a
    case Collect(_, _) => true
    case Create(n) => Newborn(g, n)
    case ArraySet(t, i, v) =>
      t in g.heap && t in Alive(g) && In(v, Alive(g)) && g.heap[t].Table? && i < |g.heap[t].arr|
    case NodeSet(t, i, v) =>
      && t in g.heap && t in Alive(g) && In(v, Alive(g)) && g.heap[t].Table? && i < |g.heap[t].nodes|
      && In(g.heap[t].nodes[i].key, Alive(g))
    case KeyNew(t, nodes, k) =>
      && t in g.heap && t in Alive(g) && In(k, Alive(g)) && g.heap[t].Table?
      && Rehashed(g.heap[t], g.heap[t].(nodes := nodes), k)
    case ModeSet(t, _) => t in g.heap && t in Alive(g) && g.heap[t].Table?
    case MetaSet(o, mt, _) =>
      o in g.heap && o in Alive(g) && In(mt, Alive(g)) && (g.heap[o].Udata? || g.heap[o].Table?)
    case SlotSet(o, slot, v) => o in g.heap && o in Alive(g) && In(v, Alive(g)) && HasSlot(g.heap[o], slot)
    case StackSet(th, stack) =>
      && th in g.heap && th in Alive(g) && g.heap[th].Thread? && ValsIn(stack, Alive(g))
      && forall u :: u in g.upvals && g.upvals[u].Open? && g.upvals[u].th == th ==> g.upvals[u].level < |stack|
    case RootsSet(registry, mt, running) =>
      In(registry, Alive(g)) && ValsIn(mt, Alive(g)) && running in Alive(g)
    case StringFind(o) => IsString(g.heap, o)
    case StringFix(o) => g.allgc != [] && o == g.allgc[0] && IsString(g.heap, o) && o in Alive(g) && g.sweepgc != Next(o)
    case UpvalFind(u, th, level) =>
      u !in g.upvals && th in g.heap && th in Alive(g) && g.heap[th].Thread? && level < |g.heap[th].stack|
    case UpvalSet(u, v) => u in g.upvals && In(v, Alive(g))
    case UpvalClose(u) => u in g.upvals && g.upvals[u].Open? && g.upvals[u].th in Alive(g)
    case UpvalJoin(f, i, u) =>
      && f in g.heap && f in Alive(g) && g.heap[f].LCl? && i < |g.heap[f].ups|
      && u in g.upvals && In(UpValue(g.heap, g.upvals, u), Alive(g))
  }

  /** The metatable is not white, or the table is not gray and parked. */
  predicate Guarded(g: G, a: Action) {
    a.MetaSet? ==> In(a.meta, Marks(g)) || !ParkedWeak(g, a.o)
  }

  /** The object with its new metatable. */
  function NewMeta(o: Object, mt: TValue): Object
    requires o.Table? || o.Udata?
  {
    if o.Table? then WithMeta(o, mt) else WithSlot(o, MetaSlot, mt)
  }

  /** The store, the barrier, and the move to 'finobj' if the metatable has a finalizer. */
  ghost predicate MetaActed(g: G, o: Ref, mt: TValue, hasgc: bool, d: G)
    requires o in g.heap && (g.heap[o].Table? || g.heap[o].Udata?)
  {
    exists m :: Barriered(Store(g, o, NewMeta(g.heap[o], mt)), m, o, mt) &&
                if mt != Nil && hasgc && o !in g.fin then Enlisted(m, d, o) else d == m
  }

  /** What an action does. */
  ghost predicate Acted(g: G, a: Action, d: G)
    requires Enabled(g, a)
  {
    match a
    case Collect(max, fins) => exists limit :: Stepped(g, d, max, fins, limit)
    case Create(n) => d == Created(g, n)
    case ArraySet(t, i, v) => d == Regrayed(Store(g, t, g.heap[t].(arr := g.heap[t].arr[i := v])), t, v)
    case NodeSet(t, i, v) =>
      d == Regrayed(Store(g, t, g.heap[t].(nodes := g.heap[t].nodes[i := Node(g.heap[t].nodes[i].key, v)])), t, v)
    case KeyNew(t, nodes, k) => d == Regrayed(Store(g, t, g.heap[t].(nodes := nodes)), t, k)
    case ModeSet(t, mode) => d == Store(g, t, g.heap[t].(mode := mode))
    case MetaSet(o, mt, hasgc) => MetaActed(g, o, mt, hasgc, d)
    case SlotSet(o, slot, v) => Barriered(Store(g, o, WithSlot(g.heap[o], slot, v)), d, o, v)
    case StackSet(th, stack) => d == Store(g, th, Thread(stack))
    case RootsSet(registry, mt, running) => d == g.(registry := registry, mt := mt, running := running)
    case StringFind(o) => d == g.(marked := if o in Alive(g) then g.marked else g.marked[o := White(g.cw)])
    case StringFix(o) => d == Fixed(g)
    case UpvalFind(u, th, level) =>
      d == g.(upvals := g.upvals[u := Open(th, level, true)], twups := if th in g.twups then g.twups else [th] + g.twups)
    case UpvalSet(u, v) => Assigned(g, d, u, v)
    case UpvalClose(u) => UpBarriered(WithClosed(g, u, UpValue(g.heap, g.upvals, u)), d, u)
    case UpvalJoin(f, i, u) =>
      if g.upvals[u].Open? then d == Joined(g, f, i, u) else UpBarriered(Joined(g, f, i, u), d, u)
  }

  /** 'lua_setmetatable' */
  method SetMetatable(g: GlobalState, o: Ref, mt: TValue, hasgc: bool)
    requires Inv(g.Snap()) && Enabled(g.Snap(), MetaSet(o, mt, hasgc))
    modifies g
    ensures Inv(g.Snap()) && o in g.heap && MetaStored(old(g.heap)[o], g.heap[o], mt)
    ensures forall r :: r in g.heap ==> r in old(g.heap) && (r != o ==> g.heap[r] == old(g.heap)[r])
    ensures forall r :: r in old(g.heap) && r in Alive(old(g.Snap())) ==> r in g.heap
    ensures MetaActed(old(g.Snap()), o, mt, hasgc, g.Snap())
    ensures MetasMarked(old(g.Snap())) && Guarded(old(g.Snap()), MetaSet(o, mt, hasgc)) ==> MetasMarked(g.Snap())
    ensures g.tobefnz == old(g.tobefnz)
    ensures g.finobj == if mt != Nil && hasgc && o !in old(g.fin) then [o] + old(g.finobj) else old(g.finobj)
  {
    hide Inv, MetasMarked, Guarded, Barriered, Enlisted, MetaStored, NewMeta, Living;
    ghost var s := g.Snap();
    StoreMeta(g, o, mt, hasgc);
    ghost var m := g.Snap();
    BarrieredFin(Store(s, o, NewMeta(s.heap[o], mt)), m, o, mt);
    if mt != Nil { CheckFinalizer(g, o, hasgc); }
    assert Barriered(Store(s, o, NewMeta(s.heap[o], mt)), m, o, mt);
    MetaSetStores(s, o, mt, hasgc, g.Snap());
  }

  /** The store and its barrier. */
  method StoreMeta(g: GlobalState, o: Ref, mt: TValue, ghost hasgc: bool)
    requires Inv(g.Snap()) && Enabled(g.Snap(), MetaSet(o, mt, hasgc))
    modifies g
    ensures Inv(g.Snap()) && o in g.heap && o in Alive(g.Snap()) && (g.heap[o].Table? || g.heap[o].Udata?)
    ensures Barriered(Store(old(g.Snap()), o, NewMeta(old(g.heap)[o], mt)), g.Snap(), o, mt)
    ensures MetasMarked(old(g.Snap())) && Guarded(old(g.Snap()), MetaSet(o, mt, hasgc)) ==> MetasMarked(g.Snap())
  {
    hide Inv, MetasMarked, ParkedWeak, Barriered, SlotWritten, MetaStored, Living;
    InvCore(g.Snap());
    if g.heap[o].Table? {
      SetTableMeta(g, o, mt);
    } else {
      SetSlot(g, o, MetaSlot, mt);
    }
  }

  /** Setting a metatable in a run writes the field of the object, and nothing else in the heap; a
      sweep that passes the object may free dead ones. */
  lemma MetaSetStores(g: G, o: Ref, mt: TValue, hasgc: bool, d: G)
    requires Enabled(g, MetaSet(o, mt, hasgc)) && Acted(g, MetaSet(o, mt, hasgc), d)
    ensures o in d.heap && MetaStored(g.heap[o], d.heap[o], mt)
    ensures forall r :: r in d.heap ==> r in g.heap && (r != o ==> d.heap[r] == g.heap[r])
    ensures forall r :: r in g.heap && r in Alive(g) ==> r in d.heap
  {
    hide Enlisted, Barriered;
    var s := Store(g, o, NewMeta(g.heap[o], mt));
    var m :| Barriered(s, m, o, mt) && if mt != Nil && hasgc && o !in g.fin then Enlisted(m, d, o) else d == m;
    BarrieredHeap(s, m, o, mt);
    if mt != Nil && hasgc && o !in g.fin { EnlistedHeap(m, d, o); }
  }

  /** A store into a slot in a run. */
  lemma SlotSetStores(g: G, o: Ref, slot: Slot, v: TValue, d: G)
    requires Enabled(g, SlotSet(o, slot, v)) && Acted(g, SlotSet(o, slot, v), d)
    ensures d.heap.Keys == g.heap.Keys && SlotWritten(g.heap[o], d.heap[o], slot, v)
    ensures forall r :: r in g.heap && r != o ==> d.heap[r] == g.heap[r]
  {
    hide Barriered;
    BarrieredHeap(Store(g, o, WithSlot(g.heap[o], slot, v)), d, o, v);
  }

  lemma BarrieredHeap(g: G, d: G, p: Ref, v: TValue)
    requires Barriered(g, d, p, v)
    ensures d.heap == g.heap && Alive(g) <= Alive(d)
  {
    if BlackToWhite(g, p, v) && KeepInvariant(g.gcstate) { GrowMarks(g, d, {}, g.heap.Keys); }
  }

  /** A barrier leaves the objects with finalizers where they are. */
  lemma BarrieredFin(g: G, d: G, p: Ref, v: TValue)
    requires Barriered(g, d, p, v)
    ensures d.finobj == g.finobj && d.tobefnz == g.tobefnz && d.fin == g.fin && d.heap.Keys == g.heap.Keys
  {
  }

  /** A live fully weak table that waits in 'allweak' refers to a dead metatable: the atomic step
      has just left it so. */
  ghost predicate Lost(g: G) {
    g.gcstate == SwpAllGc && Held(g) && RefsBut(g) && !MetasAlive(g)
  }

  /** The bound for marking that a collector step may assume. */
  ghost predicate Allowed(g: G, a: Action, limit: set<Ref>) {
    a.Collect? ==>
      && (Tracing(g.gcstate) ==> LimitOK(g, limit))
      && (g.gcstate == Propagate || g.gcstate == Atomic ==> Marks(g) <= limit)
  }

  lemma AllAllowed(g: G, a: Action)
    requires Inv(g)
    ensures Allowed(g, a, g.heap.Keys)
  {
    hide Inv, LimitOK;
    if Tracing(g.gcstate) { NoLimit(g); }
  }

  /** A step of the collector. */
  method Step(g: GlobalState, max: nat, fins: nat, ghost limit: set<Ref>)
    requires Inv(g.Snap()) && Allowed(g.Snap(), Collect(max, fins), limit)
    modifies g
    ensures Inv(g.Snap()) || (old(g.gcstate) == Atomic && Lost(g.Snap()))
    ensures MetasMarked(old(g.Snap())) ==> Inv(g.Snap()) && MetasMarked(g.Snap())
    ensures Stepped(old(g.Snap()), g.Snap(), max, fins, limit)
  {
    hide Inv, Held, MetasMarked, RefsBut, MetasAlive, LimitOK;
    ghost var s := g.Snap();
    InvHeld(s);
    SingleStep(g, max, fins, limit);
    if s.gcstate == Atomic {
      AfterAtomic(s, g.Snap(), max, fins, limit);
      RefsWhole(g.Snap());
      InvHeld(g.Snap());
    }
  }

  lemma AfterAtomic(g: G, d: G, max: nat, fins: nat, limit: set<Ref>)
    requires g.gcstate == Atomic && Stepped(g, d, max, fins, limit)
    ensures d.gcstate == SwpAllGc
  {
  }

  /** A store into a table, userdata, closure or prototype. */
  method ActStore(g: GlobalState, a: Action)
    requires Inv(g.Snap()) && Enabled(g.Snap(), a)
    requires a.ArraySet? || a.NodeSet? || a.KeyNew? || a.ModeSet? || a.MetaSet? || a.SlotSet?
    modifies g
    ensures Inv(g.Snap()) && Acted(old(g.Snap()), a, g.Snap())
    ensures MetasMarked(old(g.Snap())) && Guarded(old(g.Snap()), a) ==> MetasMarked(g.Snap())
  {
    hide Inv, MetasMarked, Guarded, Barriered, MetaActed;
    match a {
      case ArraySet(t, i, v) => SetArray(g, t, i, v);
      case NodeSet(t, i, v) => SetNode(g, t, i, v);
      case KeyNew(t, nodes, k) => NewKey(g, t, nodes, k);
      case ModeSet(t, mode) => SetMode(g, t, mode);
      case MetaSet(o, mt, hasgc) => SetMetatable(g, o, mt, hasgc);
      case SlotSet(o, slot, v) => SetSlot(g, o, slot, v);
    }
  }

  /** An operation on upvalues. */
  method ActUpval(g: GlobalState, a: Action)
    requires Inv(g.Snap()) && Enabled(g.Snap(), a)
    requires a.UpvalFind? || a.UpvalSet? || a.UpvalClose? || a.UpvalJoin?
    modifies g
    ensures Inv(g.Snap()) && Acted(old(g.Snap()), a, g.Snap())
    ensures MetasMarked(old(g.Snap())) ==> MetasMarked(g.Snap())
  {
    hide Inv, MetasMarked, UpBarriered;
    match a {
      case UpvalFind(u, th, level) => FindUpval(g, u, th, level);
      case UpvalSet(u, v) => SetUpval(g, u, v);
      case UpvalClose(u) => CloseUpval(g, u);
      case UpvalJoin(f, i, u) => JoinUpval(g, f, i, u);
    }
  }

  /** A new object or a new stack. */
  method ActObject(g: GlobalState, a: Action)
    requires Inv(g.Snap()) && Enabled(g.Snap(), a) && (a.Create? || a.StackSet?)
    modifies g
    ensures Inv(g.Snap()) && Acted(old(g.Snap()), a, g.Snap())
    ensures MetasMarked(old(g.Snap())) ==> MetasMarked(g.Snap())
  {
    hide Inv, MetasMarked, Created, Newborn;
    match a {
      case Create(n) => var _ := NewObject(g, n);
      case StackSet(th, stack) => SetStack(g, th, stack);
    }
  }

  /** Other roots, or a string from the string table. */
  method ActRoot(g: GlobalState, a: Action)
    requires Inv(g.Snap()) && Enabled(g.Snap(), a) && (a.RootsSet? || a.StringFind? || a.StringFix?)
    modifies g
    ensures Inv(g.Snap()) && Acted(old(g.Snap()), a, g.Snap())
    ensures MetasMarked(old(g.Snap())) ==> MetasMarked(g.Snap())
  {
    hide Inv, MetasMarked, Fixed, White2Gray, Living, Grow, AtomicDone;
    match a {
      case RootsSet(registry, mt, running) => SetRoots(g, registry, mt, running);
      case StringFind(o) => FindString(g, o);
      case StringFix(o) => Fix(g, o);
    }
  }

  /** The next action: only the atomic step can break the invariant, and only in this way. */
  method Act(g: GlobalState, a: Action, ghost limit: set<Ref>)
    requires Inv(g.Snap()) && Enabled(g.Snap(), a) && Allowed(g.Snap(), a, limit)
    modifies g
    ensures Inv(g.Snap()) || (a.Collect? && old(g.gcstate) == Atomic && Lost(g.Snap()))
    ensures MetasMarked(old(g.Snap())) && Guarded(old(g.Snap()), a) ==> Inv(g.Snap()) && MetasMarked(g.Snap())
    ensures Acted(old(g.Snap()), a, g.Snap())
    ensures a.Collect? ==> Stepped(old(g.Snap()), g.Snap(), a.max, a.fins, limit)
  {
    hide Inv, MetasMarked, Guarded, Enabled, Acted, Stepped, Lost;
    ghost var s := g.Snap();
    match a {
      case Collect(max, fins) =>
        Step(g, max, fins, limit);
        CollectActed(s, max, fins, g.Snap(), limit);
      case Create(_) => ActObject(g, a);
      case StackSet(_, _) => ActObject(g, a);
      case RootsSet(_, _, _) => ActRoot(g, a);
      case StringFind(_) => ActRoot(g, a);
      case StringFix(_) => ActRoot(g, a);
      case UpvalFind(_, _, _) => ActUpval(g, a);
      case UpvalSet(_, _) => ActUpval(g, a);
      case UpvalClose(_) => ActUpval(g, a);
      case UpvalJoin(_, _, _) => ActUpval(g, a);
      case _ => ActStore(g, a);
    }
  }

  lemma CollectActed(g: G, max: nat, fins: nat, d: G, limit: set<Ref>)
    requires Stepped(g, d, max, fins, limit)
    ensures Enabled(g, Collect(max, fins)) && Acted(g, Collect(max, fins), d)
  {
    hide Stepped;
  }

  // ----- Histories -----

  /** The states h that the actions lead through. */
  ghost predicate History(h: seq<G>, acts: seq<Action>) {
    && |h| == |acts| + 1
    && forall i :: 0 <= i < |acts| ==> Enabled(h[i], acts[i]) && Acted(h[i], acts[i], h[i + 1])
  }

  lemma HistoryMore(h: seq<G>, acts: seq<Action>, a: Action, d: G)
    requires History(h, acts) && Enabled(h[|acts|], a) && Acted(h[|acts|], a, d)
    ensures History(h + [d], acts + [a]) && (h + [d])[|acts| + 1] == d
  {
    hide Enabled, Acted;
    var h', acts' := h + [d], acts + [a];
    forall i | 0 <= i < |acts'| ensures Enabled(h'[i], acts'[i]) && Acted(h'[i], acts'[i], h'[i + 1]) {
      if i < |acts| { assert h'[i] == h[i] && h'[i + 1] == h[i + 1]; }
    }
  }

  /** No object that the program can reach has been freed. */
  ghost predicate Safe(g: G) {
    forall r :: Reachable(g, r) ==> r in g.heap
  }

  lemma InvSafe(g: G)
    requires Inv(g)
    ensures Safe(g)
  {
    forall r | Reachable(g, r) ensures r in g.heap { ReachableAlive(g, r); }
  }

  lemma LostOrNot(g: G)
    ensures Inv(g) ==> MetasAlive(g)
    ensures Lost(g) ==> !MetasAlive(g)
  {
    hide Held, Core, Phase;
    InvHeld(g);
    RefsWhole(g);
  }

  /** Safety over whole runs: collector steps and enabled program operations, in any order, never
      free an object that the program can reach, unless an atomic step leaves a parked table with
      a dead metatable. */
  method Run(g: GlobalState, acts: seq<Action>) returns (done: nat, ghost h: seq<G>)
    requires Inv(g.Snap())
    modifies g
    ensures done <= |acts| && (done < |acts| ==> !Enabled(g.Snap(), acts[done]) || Lost(g.Snap()))
    ensures if Lost(g.Snap()) then done > 0 && acts[done - 1].Collect? else Inv(g.Snap()) && Safe(g.Snap())
    ensures History(h, acts[..done]) && h[0] == old(g.Snap()) && h[done] == g.Snap()
    ensures forall i :: 0 <= i < done ==> Inv(h[i])
  {
    hide Inv, Safe, Enabled, Lost, MetasAlive, MetasMarked, Acted, History, Stepped, Allowed;
    done := 0;
    h := [g.Snap()];
    HistoryStart(g.Snap(), acts);
    InvSafe(g.Snap());
    LostOrNot(g.Snap());
    while done < |acts|
      invariant done <= |acts| && Inv(g.Snap()) && Safe(g.Snap()) && !Lost(g.Snap())
      invariant History(h, acts[..done]) && |h| == done + 1 && h[0] == old(g.Snap()) && h[done] == g.Snap()
      invariant forall i :: 0 <= i < done ==> Inv(h[i])
    {
      if !Enabled(g.Snap(), acts[done]) { return; }
      ghost var s := g.Snap();
      AllAllowed(s, acts[done]);
      Act(g, acts[done], g.heap.Keys);
      HistoryNext(h, acts, done, g.Snap());
      h := h + [g.Snap()];
      done := done + 1;
      LostOrNot(g.Snap());
      if !MetasAlive(g.Snap()) { return; }
      InvSafe(g.Snap());
    }
  }

  lemma HistoryStart(g: G, acts: seq<Action>)
    ensures History([g], acts[..0])
  {
  }

  lemma HistoryNext(h: seq<G>, acts: seq<Action>, k: nat, d: G)
    requires k < |acts| && History(h, acts[..k]) && |h| == k + 1 && Enabled(h[k], acts[k]) && Acted(h[k], acts[k], d)
    ensures History(h + [d], acts[..k + 1])
  {
    hide Enabled, Acted, History;
    assert acts[..k + 1] == acts[..k] + [acts[k]];
    HistoryMore(h, acts[..k], acts[k], d);
  }

  /** Safety without exception, if no parked table gets a white metatable. */
  method RunGuarded(g: GlobalState, acts: seq<Action>) returns (done: nat, ghost h: seq<G>)
    requires Inv(g.Snap()) && MetasMarked(g.Snap())
    modifies g
    ensures done <= |acts| && (done < |acts| ==> !Enabled(g.Snap(), acts[done]) || !Guarded(g.Snap(), acts[done]))
    ensures Inv(g.Snap()) && MetasMarked(g.Snap()) && Safe(g.Snap())
    ensures History(h, acts[..done]) && h[0] == old(g.Snap()) && h[done] == g.Snap()
    ensures forall i :: 0 <= i <= done ==> Inv(h[i]) && Safe(h[i])
  {
    hide Inv, Safe, Enabled, Guarded, Lost, MetasMarked, Acted, Stepped, Allowed, History;
    done := 0;
    h := [g.Snap()];
    HistoryStart(g.Snap(), acts);
    InvSafe(g.Snap());
    while done < |acts|
      invariant done <= |acts| && Inv(g.Snap()) && MetasMarked(g.Snap()) && Safe(g.Snap())
      invariant History(h, acts[..done]) && |h| == done + 1 && h[0] == old(g.Snap()) && h[done] == g.Snap()
      invariant forall i :: 0 <= i <= done ==> Inv(h[i]) && Safe(h[i])
    {
      if !Enabled(g.Snap(), acts[done]) || !Guarded(g.Snap(), acts[done]) { return; }
      AllAllowed(g.Snap(), acts[done]);
      Act(g, acts[done], g.heap.Keys);
      HistoryNext(h, acts, done, g.Snap());
      h := h + [g.Snap()];
      InvSafe(g.Snap());
      done := done + 1;
    }
  }

  /** The new state satisfies the invariant. */
  lemma InitialInv(th: Ref)
    ensures Inv(Initial(th)) && MetasMarked(Initial(th))
  {
    var g := Initial(th);
    assert g.heap.Keys - {th} == {};
    assert ListsOK(g);
  }

  /** Runs from the beginning. */
  method RunNew(th: Ref, acts: seq<Action>) returns (g: GlobalState, done: nat, ghost h: seq<G>)
    ensures fresh(g) && done <= |acts| && (done < |acts| ==> !Enabled(g.Snap(), acts[done]) || !Guarded(g.Snap(), acts[done]))
    ensures Inv(g.Snap()) && Safe(g.Snap())
    ensures History(h, acts[..done]) && h[0] == Initial(th) && h[done] == g.Snap()
    ensures forall i :: 0 <= i <= done ==> Inv(h[i]) && Safe(h[i])
  {
    hide Inv, Safe, Enabled, Guarded, MetasMarked, History, Acted;
    g := new GlobalState(th);
    InitialInv(th);
    done, h := RunGuarded(g, acts);
  }
}
