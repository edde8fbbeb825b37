/** Upvalues as the collector sees them: opening, assigning, sharing and closing. */
module LgcClosures {
  import opened LgcHeap
  import opened LgcGrow
  import opened LgcMark
  import opened LgcPropagate
  import opened LgcAtomic
  import opened LgcInv
  import opened LgcSweep
  import opened LgcStep
  import opened LgcCycle
  import opened LgcBarrier
  import opened LgcMutator

  // ----- luaF_findupval -----

  function Opened(g: G, u: UpRef, th: Ref, level: nat): G {
    g.(upvals := g.upvals[u := Open(th, level, true)], twups := if th in g.twups then g.twups else [th] + g.twups)
  }

  lemma OpenedUp(g: G, u: UpRef, th: Ref, level: nat, v: UpRef)
    requires u !in g.upvals && v in g.upvals
    ensures UpValue(g.heap, Opened(g, u, th, level).upvals, v) == UpValue(g.heap, g.upvals, v)
  {
  }

  lemma OpenedCore(g: G, u: UpRef, th: Ref, level: nat)
    requires Core(g) && u !in g.upvals && th in Alive(g) && th in g.heap && g.heap[th].Thread? && level < |g.heap[th].stack|
    ensures Core(Opened(g, u, th, level))
  {
    var d := Opened(g, u, th, level);
    forall r | r in Alive(d) && r in d.heap ensures RefsIn(d.heap, d.upvals, d.heap[r], Alive(d)) {
      assert RefsIn(g.heap, g.upvals, g.heap[r], Alive(g));
      if g.heap[r].LCl? {
        forall i | 0 <= i < |g.heap[r].ups| ensures In(UpValue(d.heap, d.upvals, g.heap[r].ups[i]), Alive(d)) {
          OpenedUp(g, u, th, level, g.heap[r].ups[i]);
        }
      }
    }
    assert UpsOK(d);
    assert TwupsAlive(d);
    assert BitsOK(d);
  }

  lemma OpenedTri(g: G, u: UpRef, th: Ref, level: nat)
    requires Tri(g, {}, false) && u !in g.upvals
    ensures Tri(Opened(g, u, th, level), {}, false)
  {
    var d := Opened(g, u, th, level);
    forall r | r in d.marked && d.marked[r].Black? && r in d.heap
      ensures BlackIn(d.heap, d.upvals, d.heap[r], Marks(d), false)
    {
      assert BlackIn(g.heap, g.upvals, g.heap[r], Marks(g), false);
      if g.heap[r].LCl? {
        forall i | 0 <= i < |g.heap[r].ups| ensures UpIn(d.heap, d.upvals, g.heap[r].ups[i], Marks(d), false) {
          assert UpIn(g.heap, g.upvals, g.heap[r].ups[i], Marks(g), false);
        }
      }
    }
  }

  /** 'luaF_findupval' when there is no upvalue for the slot yet: the new one is touched and its
      thread is in 'twups'. */
  method FindUpval(g: GlobalState, u: UpRef, th: Ref, level: nat)
    requires Inv(g.Snap()) && u !in g.upvals && th in Alive(g.Snap())
    requires th in g.heap && g.heap[th].Thread? && level < |g.heap[th].stack|
    modifies g`upvals, g`twups
    ensures Inv(g.Snap()) && g.upvals == old(g.upvals)[u := Open(th, level, true)]
    ensures MetasMarked(old(g.Snap())) ==> MetasMarked(g.Snap())
    ensures g.Snap() == old(g.Snap()).(upvals := g.upvals, twups := if th in old(g.twups) then old(g.twups) else [th] + old(g.twups))
  {
    hide Core, Tri, Queued, AllWaiting, Phase, MetasMarked;
    ghost var s := g.Snap();
    g.upvals := g.upvals[u := Open(th, level, true)];
    if th !in g.twups { g.twups := [th] + g.twups; }
    OpenedInv(s, u, th, level);
    MetasFrame(s, g.Snap());
  }

  lemma OpenedInv(g: G, u: UpRef, th: Ref, level: nat)
    requires Inv(g) && u !in g.upvals && th in Alive(g) && th in g.heap && g.heap[th].Thread? && level < |g.heap[th].stack|
    ensures Inv(Opened(g, u, th, level))
  {
    hide Core, Tri, Queued, AllWaiting;
    OpenedCore(g, u, th, level);
    if KeepInvariant(g.gcstate) {
      OpenedTri(g, u, th, level);
      SameQueues(g, Opened(g, u, th, level));
    }
  }

  // ----- Assignment to an upvalue -----

  /** The slot of an open upvalue, whose thread may even be dead. */
  function SlotStored(g: G, u: UpRef, v: TValue): G
    requires u in g.upvals && g.upvals[u].Open? && UpsOK(g)
  {
    var th := g.upvals[u].th;
    Store(g, th, Thread(g.heap[th].stack[g.upvals[u].level := v]))
  }

  lemma SlotCore(g: G, u: UpRef, v: TValue)
    requires Core(g) && u in g.upvals && g.upvals[u].Open? && In(v, Alive(g))
    ensures Core(SlotStored(g, u, v))
  {
    hide Grow;
    var d := SlotStored(g, u, v);
    var th := g.upvals[u].th;
    assert d.heap.Keys == g.heap.Keys;
    forall r | r in Alive(d) && r in d.heap ensures RefsIn(d.heap, d.upvals, d.heap[r], Alive(d)) {
      SlotRefs(g, u, v, r);
    }
    hide RefsIn, UpValue;
    assert UpsOK(d);
    assert TwupsAlive(d);
    assert BitsOK(d);
  }

  lemma SlotRefs(g: G, u: UpRef, v: TValue, r: Ref)
    requires Core(g) && u in g.upvals && g.upvals[u].Open? && In(v, Alive(g)) && r in Alive(g) && r in g.heap
    ensures var d := SlotStored(g, u, v); r in d.heap && RefsIn(d.heap, d.upvals, d.heap[r], Alive(d))
  {
    hide Grow, TwupsAlive, ListsOK, BitsOK, RootsIn, FinIn;
    var d := SlotStored(g, u, v);
    assert RefsIn(g.heap, g.upvals, g.heap[r], Alive(g));
    if g.heap[r].LCl? {
      var ups := g.heap[r].ups;
      forall i | 0 <= i < |ups| ensures In(UpValue(d.heap, d.upvals, ups[i]), Alive(d)) {
        assert In(UpValue(g.heap, g.upvals, ups[i]), Alive(g));
      }
    }
  }

  lemma SlotInv(g: G, u: UpRef, v: TValue)
    requires Inv(g) && u in g.upvals && g.upvals[u].Open? && In(v, Alive(g)) && UpsOK(g)
    ensures Inv(SlotStored(g, u, v))
  {
    hide Tri, Queued, AllWaiting;
    var th := g.upvals[u].th;
    var n := Thread(g.heap[th].stack[g.upvals[u].level := v]);
    SlotCore(g, u, v);
    if KeepInvariant(g.gcstate) {
      if th in g.marked && g.marked[th].Black? { InvBlack(g, th); }
      StoreTri(g, th, n);
      StoreQueued(g, th, n);
      NotBlackTri(Store(g, th, n), th);
    } else {
      StorePhase(g, th, n);
    }
  }

  lemma NotBlackTri(g: G, r: Ref)
    requires Tri(g, {r}, false) && (r in g.marked ==> !g.marked[r].Black?)
    ensures Tri(g, {}, false)
  {
  }

  function WithClosed(g: G, u: UpRef, v: TValue): G {
    g.(upvals := g.upvals[u := Closed(v)])
  }

  /** Upvalue u becomes, or is, closed with value v. */
  lemma ClosedCore(g: G, u: UpRef, v: TValue)
    requires Core(g) && u in g.upvals && In(v, Alive(g))
    ensures Core(WithClosed(g, u, v))
  {
    var d := WithClosed(g, u, v);
    forall r | r in Alive(d) && r in d.heap ensures RefsIn(d.heap, d.upvals, d.heap[r], Alive(d)) {
      assert RefsIn(g.heap, g.upvals, g.heap[r], Alive(g));
      if g.heap[r].LCl? {
        var ups := g.heap[r].ups;
        forall i | 0 <= i < |ups| ensures In(UpValue(d.heap, d.upvals, ups[i]), Alive(d)) {
          assert In(UpValue(g.heap, g.upvals, ups[i]), Alive(g));
        }
      }
    }
    assert UpsOK(d);
    assert TwupsAlive(d);
  }

  lemma ClosedTri(g: G, u: UpRef)
    requires Tri(g, {}, false) && u in g.upvals
    ensures Tri(WithClosed(g, u, Nil), {}, false)
  {
    var d := WithClosed(g, u, Nil);
    forall r | r in d.marked && d.marked[r].Black? && r in d.heap
      ensures BlackIn(d.heap, d.upvals, d.heap[r], Marks(d), false)
    {
      assert BlackIn(g.heap, g.upvals, g.heap[r], Marks(g), false);
      if g.heap[r].LCl? {
        forall i | 0 <= i < |g.heap[r].ups| ensures UpIn(d.heap, d.upvals, g.heap[r].ups[i], Marks(d), false) {
          assert UpIn(g.heap, g.upvals, g.heap[r].ups[i], Marks(g), false);
        }
      }
    }
  }

  lemma ClosedUpval(g: G, u: UpRef, v: TValue)
    requires Inv(g) && u in g.upvals && In(v, Alive(g))
    ensures UpvalBut(WithClosed(g, u, v), u) && In(v, Alive(WithClosed(g, u, v)))
  {
    hide Core, Tri, Queued, AllWaiting;
    var d := WithClosed(g, u, v);
    ClosedCore(g, u, v);
    if KeepInvariant(g.gcstate) {
      ClosedTri(g, u);
      assert Without(d, u) == WithClosed(g, u, Nil);
      SameQueues(g, d);
    }
  }

  /** What 'luaC_upvalbarrier' does after a store into the closed upvalue u. */
  ghost predicate UpBarriered(g: G, d: G, u: UpRef)
    requires u in g.upvals && g.upvals[u].Closed?
  {
    && d.heap == g.heap && d.upvals == g.upvals
    && if KeepInvariant(g.gcstate) then Grow(g, d, {}, g.heap.Keys) && In(g.upvals[u].v, Marks(d)) else d == g
  }

  /** Assignment through an upvalue: to a stack slot, or to the upvalue's own value. */
  ghost predicate Assigned(g: G, d: G, u: UpRef, v: TValue)
    requires u in g.upvals
  {
    match g.upvals[u]
    case Open(th, level, _) =>
      && th in g.heap && g.heap[th].Thread? && level < |g.heap[th].stack|
      && d == g.(heap := g.heap[th := Thread(g.heap[th].stack[level := v])])
    case Closed(_) => UpBarriered(WithClosed(g, u, v), d, u)
  }

  /** OP_SETUPVAL, 'lua_setupvalue', 'lua_load': assignment through an upvalue. */
  method SetUpval(g: GlobalState, u: UpRef, v: TValue)
    requires Inv(g.Snap()) && u in g.upvals && In(v, Alive(g.Snap()))
    modifies g
    ensures Inv(g.Snap()) && UpValue(g.heap, g.upvals, u) == v
    ensures g.upvals == if old(g.upvals)[u].Open? then old(g.upvals) else old(g.upvals)[u := Closed(v)]
    ensures MetasMarked(old(g.Snap())) ==> MetasMarked(g.Snap())
    ensures Assigned(old(g.Snap()), g.Snap(), u, v)
  {
    hide Core, Phase, Inv, UpvalBut, MetasMarked;
    ghost var s := g.Snap();
    InvUps(s);
    if g.upvals[u].Open? {
      var th, level := g.upvals[u].th, g.upvals[u].level;
      SlotInv(s, u, v);
      g.heap := g.heap[th := Thread(g.heap[th].stack[level := v])];
    } else {
      ClosedUpval(s, u, v);
      g.upvals := g.upvals[u := Closed(v)];
      UpvalBarrier(g, u);
    }
    MetasFrame(s, g.Snap());
  }

  lemma InvUps(g: G)
    requires Inv(g)
    ensures UpsOK(g) && g.marked.Keys == g.heap.Keys
  {
  }

  /** One round of 'luaF_close': the value moves from the stack into the upvalue. */
  method CloseUpval(g: GlobalState, u: UpRef)
    requires Inv(g.Snap()) && u in g.upvals && g.upvals[u].Open? && g.upvals[u].th in Alive(g.Snap())
    modifies g
    ensures Inv(g.Snap()) && g.upvals == old(g.upvals)[u := Closed(UpValue(old(g.heap), old(g.upvals), u))]
    ensures UpValue(g.heap, g.upvals, u) == UpValue(old(g.heap), old(g.upvals), u) && g.heap == old(g.heap)
    ensures MetasMarked(old(g.Snap())) ==> MetasMarked(g.Snap())
    ensures UpBarriered(WithClosed(old(g.Snap()), u, UpValue(old(g.heap), old(g.upvals), u)), g.Snap(), u)
  {
    hide Core, Phase, Inv, UpvalBut, MetasMarked;
    ghost var s := g.Snap();
    var v := UpValue(g.heap, g.upvals, u);
    SlotAlive(s, u);
    ClosedUpval(s, u, v);
    g.upvals := g.upvals[u := Closed(v)];
    UpvalBarrier(g, u);
    MetasFrame(s, g.Snap());
  }

  lemma SlotAlive(g: G, u: UpRef)
    requires Inv(g) && u in g.upvals && g.upvals[u].Open? && g.upvals[u].th in Alive(g)
    ensures In(UpValue(g.heap, g.upvals, u), Alive(g))
  {
    var th := g.upvals[u].th;
    assert RefsIn(g.heap, g.upvals, g.heap[th], Alive(g));
  }

  // ----- lua_upvaluejoin -----

  function Joined(g: G, f: Ref, i: nat, u: UpRef): G
    requires f in g.heap && g.heap[f].LCl? && i < |g.heap[f].ups| && u in g.upvals
  {
    g.(heap := g.heap[f := LCl(g.heap[f].proto, g.heap[f].ups[i := u])],
       upvals := if g.upvals[u].Open? then g.upvals[u := g.upvals[u].(touched := true)] else g.upvals)
  }

  lemma JoinedValue(g: G, f: Ref, i: nat, u: UpRef, w: UpRef)
    requires f in g.heap && g.heap[f].LCl? && i < |g.heap[f].ups| && u in g.upvals && UpsOK(g)
    ensures var d := Joined(g, f, i, u); UpValue(d.heap, d.upvals, w) == UpValue(g.heap, g.upvals, w)
  {
  }

  lemma JoinedWf(g: G, f: Ref, i: nat, u: UpRef)
    requires Wf(g) && f in g.heap && g.heap[f].LCl? && i < |g.heap[f].ups| && u in g.upvals
    requires f in Alive(g) && In(UpValue(g.heap, g.upvals, u), Alive(g))
    ensures Wf(Joined(g, f, i, u))
  {
    var d := Joined(g, f, i, u);
    forall r | r in Alive(d) && r in d.heap ensures RefsIn(d.heap, d.upvals, d.heap[r], Alive(d)) {
      assert RefsIn(g.heap, g.upvals, g.heap[r], Alive(g));
      if g.heap[r].LCl? {
        forall j | 0 <= j < |d.heap[r].ups| ensures In(UpValue(d.heap, d.upvals, d.heap[r].ups[j]), Alive(d)) {
          JoinedValue(g, f, i, u, d.heap[r].ups[j]);
        }
      }
    }
    assert UpsOK(d);
  }

  lemma JoinedCore(g: G, f: Ref, i: nat, u: UpRef)
    requires Core(g) && f in g.heap && g.heap[f].LCl? && i < |g.heap[f].ups| && u in g.upvals
    requires f in Alive(g) && In(UpValue(g.heap, g.upvals, u), Alive(g))
    ensures Core(Joined(g, f, i, u))
  {
    hide Wf;
    var d := Joined(g, f, i, u);
    JoinedWf(g, f, i, u);
    assert d.heap.Keys == g.heap.Keys;
    assert TwupsAlive(d);
    assert BitsOK(d);
  }

  lemma JoinedTri(g: G, f: Ref, i: nat, u: UpRef)
    requires Tri(g, {}, false) && f in g.heap && g.heap[f].LCl? && i < |g.heap[f].ups| && u in g.upvals && UpsOK(g)
    ensures var d := Joined(g, f, i, u);
            if d.upvals[u].Closed? then Tri(Without(d, u), {}, false) else Tri(d, {}, false)
  {
    var d := Joined(g, f, i, u);
    var w := if d.upvals[u].Closed? then Without(d, u) else d;
    forall r | r in w.marked && w.marked[r].Black? && r in w.heap
      ensures BlackIn(w.heap, w.upvals, w.heap[r], Marks(w), false)
    {
      assert BlackIn(g.heap, g.upvals, g.heap[r], Marks(g), false);
      if g.heap[r].LCl? {
        var ups := w.heap[r].ups;
        forall j | 0 <= j < |ups| ensures UpIn(w.heap, w.upvals, ups[j], Marks(w), false) {
          if r != f || j != i { assert UpIn(g.heap, g.upvals, g.heap[r].ups[j], Marks(g), false); }
        }
      } else if g.heap[r].Table? {
        forall j | 0 <= j < |g.heap[r].nodes| ensures NodeIn(w.heap, g.heap[r].nodes[j], Marks(w)) {
          assert NodeIn(g.heap, g.heap[r].nodes[j], Marks(g));
        }
      }
    }
  }

  lemma JoinedQueues(g: G, f: Ref, i: nat, u: UpRef)
    requires Queued(g, {}, g.grayagain, []) && AllWaiting(g) && KeepInvariant(g.gcstate)
    requires g.weak == [] && g.ephemeron == []
    requires f in g.heap && g.heap[f].LCl? && i < |g.heap[f].ups| && u in g.upvals
    ensures Queued(Joined(g, f, i, u), {}, g.grayagain, []) && AllWaiting(Joined(g, f, i, u))
  {
    var d := Joined(g, f, i, u);
    forall a | MarkedTable(g, a) ensures MarkedTable(d, a) {}
    forall a | Idle(d, {}, d.grayagain, a) ensures Waiting(d, a, Marks(d)) && Parked(d, a, [], Marks(d)) {
      assert Idle(g, {}, g.grayagain, a);
    }
  }

  lemma JoinedInv(g: G, f: Ref, i: nat, u: UpRef)
    requires Inv(g) && f in g.heap && g.heap[f].LCl? && i < |g.heap[f].ups| && u in g.upvals && UpsOK(g)
    requires f in Alive(g) && In(UpValue(g.heap, g.upvals, u), Alive(g))
    ensures var d := Joined(g, f, i, u);
            if d.upvals[u].Closed? then UpvalBut(d, u) && In(d.upvals[u].v, Alive(d)) else Inv(d)
  {
    hide Core, Tri, Queued, AllWaiting;
    JoinedCore(g, f, i, u);
    JoinedValue(g, f, i, u, u);
    if KeepInvariant(g.gcstate) {
      JoinedTri(g, f, i, u);
      JoinedQueues(g, f, i, u);
    } else {
      assert Joined(g, f, i, u).heap.Keys == g.heap.Keys;
    }
  }

  /** 'lua_upvaluejoin': closure f shares upvalue u. */
  method JoinUpval(g: GlobalState, f: Ref, i: nat, u: UpRef)
    requires Inv(g.Snap()) && f in g.heap && f in Alive(g.Snap()) && g.heap[f].LCl? && i < |g.heap[f].ups|
    requires u in g.upvals && In(UpValue(g.heap, g.upvals, u), Alive(g.Snap()))
    modifies g
    ensures Inv(g.Snap()) && g.heap == old(g.heap)[f := LCl(old(g.heap)[f].proto, old(g.heap)[f].ups[i := u])]
    ensures g.upvals == if old(g.upvals)[u].Open? then old(g.upvals)[u := old(g.upvals)[u].(touched := true)] else old(g.upvals)
    ensures MetasMarked(old(g.Snap())) ==> MetasMarked(g.Snap())
    ensures if old(g.upvals)[u].Open? then g.Snap() == Joined(old(g.Snap()), f, i, u)
            else UpBarriered(Joined(old(g.Snap()), f, i, u), g.Snap(), u)
  {
    hide Core, Phase, Inv, UpvalBut, MetasMarked, Grow, Marking;
    ghost var s := g.Snap();
    InvUps(s);
    JoinedInv(s, f, i, u);
    g.heap := g.heap[f := LCl(g.heap[f].proto, g.heap[f].ups[i := u])];
    if g.upvals[u].Open? {
      g.upvals := g.upvals[u := g.upvals[u].(touched := true)];
    } else {
      UpvalBarrier(g, u);
    }
    MetasFrame(s, g.Snap());
  }
}
