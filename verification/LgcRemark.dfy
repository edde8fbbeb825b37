/** 'remarkupvals': the values of touched open upvalues of threads that were not reached. */
module LgcRemark {
  import opened LgcHeap
  import opened LgcGrow
  import opened LgcMark
  import opened LgcPropagate

  /** An upvalue of a black closure while 'twups' is being walked: touched and still to be looked
      at (its thread is in l or itself in w), or taken care of. */
  predicate UpSeen(h: Heap, us: UpVals, u: UpRef, s: set<Ref>, l: seq<Ref>, w: set<UpRef>) {
    u in us &&
    match us[u]
    case Closed(v) => In(v, s)
    case Open(th, _, touched) => (touched && (th in l || u in w)) || In(UpValue(h, us, u), s) || th in s
  }

  ghost predicate ClosureSeen(h: Heap, us: UpVals, o: Object, s: set<Ref>, l: seq<Ref>, w: set<UpRef>)
    requires o.LCl?
  {
    In(o.proto, s) && forall i :: 0 <= i < |o.ups| ==> UpSeen(h, us, o.ups[i], s, l, w)
  }

  ghost predicate TriSeen(g: G, l: seq<Ref>, w: set<UpRef>) {
    forall r :: r in g.marked && g.marked[r].Black? && r in g.heap ==>
      if g.heap[r].LCl? then ClosureSeen(g.heap, g.upvals, g.heap[r], Marks(g), l, w)
      else BlackIn(g.heap, g.upvals, g.heap[r], Marks(g), true)
  }

  /** Every thread with open upvalues is in 'twups'. */
  ghost predicate TwupsComplete(g: G) {
    forall u :: u in g.upvals && g.upvals[u].Open? ==> g.upvals[u].th in g.twups
  }

  lemma StartSeen(g: G)
    requires Tri(g, {}, false) && TwupsComplete(g)
    ensures TriSeen(g, g.twups, {})
  {
    forall r | r in g.marked && g.marked[r].Black? && r in g.heap
      ensures if g.heap[r].LCl? then ClosureSeen(g.heap, g.upvals, g.heap[r], Marks(g), g.twups, {})
              else BlackIn(g.heap, g.upvals, g.heap[r], Marks(g), true)
    {
      assert BlackIn(g.heap, g.upvals, g.heap[r], Marks(g), false);
      if g.heap[r].LCl? {
        forall i | 0 <= i < |g.heap[r].ups| ensures UpSeen(g.heap, g.upvals, g.heap[r].ups[i], Marks(g), g.twups, {}) {
          assert UpIn(g.heap, g.upvals, g.heap[r].ups[i], Marks(g), false);
        }
      }
    }
  }

  lemma EndSeen(g: G)
    requires TriSeen(g, [], {})
    ensures Tri(g, {}, true)
  {
    forall r | r in g.marked && g.marked[r].Black? && r in g.heap
      ensures BlackIn(g.heap, g.upvals, g.heap[r], Marks(g), true)
    {
      if g.heap[r].LCl? {
        forall i | 0 <= i < |g.heap[r].ups| ensures UpIn(g.heap, g.upvals, g.heap[r].ups[i], Marks(g), true) {
          assert UpSeen(g.heap, g.upvals, g.heap[r].ups[i], Marks(g), [], {});
        }
      }
    }
  }

  /** The upvalues of thread th are those of w: it may leave the list. */
  lemma SkipSeen(g: G, th: Ref, l: seq<Ref>, w: set<UpRef>)
    requires TriSeen(g, [th] + l, {})
    requires th in Marks(g) || forall u :: u in g.upvals && g.upvals[u].Open? && g.upvals[u].th == th ==> u in w
    ensures TriSeen(g, l, w)
  {
    forall r | r in g.marked && g.marked[r].Black? && r in g.heap && g.heap[r].LCl?
      ensures ClosureSeen(g.heap, g.upvals, g.heap[r], Marks(g), l, w)
    {
      forall i | 0 <= i < |g.heap[r].ups| ensures UpSeen(g.heap, g.upvals, g.heap[r].ups[i], Marks(g), l, w) {
        assert UpSeen(g.heap, g.upvals, g.heap[r].ups[i], Marks(g), [th] + l, {});
      }
    }
  }

  lemma GrowSeen(g: G, d: G, l: seq<Ref>, w: set<UpRef>, limit: set<Ref>)
    requires Grow(g, d, {}, limit) && d.heap == g.heap && d.upvals == g.upvals && TriSeen(g, l, w)
    ensures TriSeen(d, l, w)
  {
    GrowMarks(g, d, {}, limit);
    forall r | r in d.marked && d.marked[r].Black? && r in d.heap
      ensures if d.heap[r].LCl? then ClosureSeen(d.heap, d.upvals, d.heap[r], Marks(d), l, w)
              else BlackIn(d.heap, d.upvals, d.heap[r], Marks(d), true)
    {
      if g.marked[r].White? {
        assert Visited(g.heap[r], Marks(d) + {});
        assert Marks(d) + {} == Marks(d);
      } else if g.heap[r].LCl? {
        forall i | 0 <= i < |g.heap[r].ups| ensures UpSeen(d.heap, d.upvals, d.heap[r].ups[i], Marks(d), l, w) {
          assert UpSeen(g.heap, g.upvals, g.heap[r].ups[i], Marks(g), l, w);
        }
      } else {
        BlackMono(g.heap, g.upvals, g.heap[r], Marks(g), Marks(d), true);
      }
    }
  }

  function Untouched(us: UpVals, u: UpRef): UpVals
    requires u in us && us[u].Open?
  {
    us[u := us[u].(touched := false)]
  }

  lemma UntouchValue(h: Heap, us: UpVals, u: UpRef, v: UpRef)
    requires u in us && us[u].Open?
    ensures UpValue(h, Untouched(us, u), v) == UpValue(h, us, v)
  {
  }

  /** The value of u is marked: its note may be erased. */
  lemma UntouchSeen(g: G, u: UpRef, l: seq<Ref>, w: set<UpRef>)
    requires TriSeen(g, l, w) && u in g.upvals && g.upvals[u].Open?
    requires g.upvals[u].touched ==> In(UpValue(g.heap, g.upvals, u), Marks(g))
    ensures TriSeen(g.(upvals := Untouched(g.upvals, u)), l, w - {u})
  {
    var d := g.(upvals := Untouched(g.upvals, u));
    forall r | r in d.marked && d.marked[r].Black? && r in d.heap
      ensures if d.heap[r].LCl? then ClosureSeen(d.heap, d.upvals, d.heap[r], Marks(d), l, w - {u})
              else BlackIn(d.heap, d.upvals, d.heap[r], Marks(d), true)
    {
      if g.heap[r].LCl? {
        forall i | 0 <= i < |g.heap[r].ups| ensures UpSeen(d.heap, d.upvals, d.heap[r].ups[i], Marks(d), l, w - {u}) {
          assert UpSeen(g.heap, g.upvals, g.heap[r].ups[i], Marks(g), l, w);
          UntouchValue(g.heap, g.upvals, u, g.heap[r].ups[i]);
        }
      }
    }
  }

  lemma UntouchReady(g: G, u: UpRef, limit: set<Ref>)
    requires Ready(g, limit) && u in g.upvals && g.upvals[u].Open?
    ensures Ready(g.(upvals := Untouched(g.upvals, u)), limit)
  {
    var d := g.(upvals := Untouched(g.upvals, u));
    forall o, s | RefsIn(g.heap, g.upvals, o, s) ensures RefsIn(d.heap, d.upvals, o, s) {
      if o.LCl? {
        forall i | 0 <= i < |o.ups| ensures In(UpValue(d.heap, d.upvals, o.ups[i]), s) {
          UntouchValue(g.heap, g.upvals, u, o.ups[i]);
        }
      }
    }
    forall v | v in d.upvals && d.upvals[v].Open? && d.upvals[v].touched ensures In(UpValue(d.heap, d.upvals, v), limit) {
      UntouchValue(g.heap, g.upvals, u, v);
    }
  }

  ghost predicate SameOpen(us: UpVals, us': UpVals) {
    us'.Keys == us.Keys && forall u :: u in us ==> us'[u] == us[u] || (us[u].Open? && us'[u] == us[u].(touched := false))
  }

  lemma SameHasOpen(us: UpVals, us': UpVals, th: Ref)
    requires SameOpen(us, us')
    ensures HasOpen(us, th) == HasOpen(us', th)
  {
    if HasOpen(us, th) {
      var u :| u in us && us[u].Open? && us[u].th == th;
      assert us'[u].Open? && us'[u].th == th;
    }
    if HasOpen(us', th) {
      var u :| u in us' && us'[u].Open? && us'[u].th == th;
      assert us[u].Open? && us[u].th == th;
    }
  }

  /** Queues do not depend on notes; a gray thread with open upvalues stays in 'twups'. */
  lemma RemarkQueued(g: G, d: G, q: seq<Ref>)
    requires Queued(g, {}, q, []) && d == g.(upvals := d.upvals, twups := d.twups) && SameOpen(g.upvals, d.upvals)
    requires forall r :: r in g.twups && r !in d.twups ==>
               !HasOpen(g.upvals, r) || (r in g.marked && !g.marked[r].Gray?)
    ensures Queued(d, {}, q, [])
  {
    forall r | Idle(d, {}, q, r)
      ensures if d.gcstate == Propagate then Waiting(d, r, Marks(d)) else Parked(d, r, [], Marks(d))
    {
      assert Idle(g, {}, q, r);
      SameHasOpen(g.upvals, d.upvals, r);
    }
  }

  /** Remarking leads from g to d. */
  ghost predicate Remarks(g: G, d: G) {
    && d == g.(upvals := d.upvals, marked := d.marked, gray := d.gray, twups := d.twups)
    && SameOpen(g.upvals, d.upvals) && Marks(g) <= Marks(d) && d.marked.Keys == g.marked.Keys
    && forall r :: r in d.twups ==> r in g.twups
  }

  /** One upvalue: its value is marked if it was touched, and the note is erased. */
  method RemarkUpval(g: GlobalState, u: UpRef, ghost q: seq<Ref>, ghost l: seq<Ref>, ghost w: set<UpRef>, ghost limit: set<Ref>)
    requires Ready(g.Snap(), limit) && Queued(g.Snap(), {}, q, []) && TriSeen(g.Snap(), l, w)
    requires u in g.upvals && g.upvals[u].Open?
    modifies g
    ensures Ready(g.Snap(), limit) && Queued(g.Snap(), {}, q, []) && TriSeen(g.Snap(), l, w - {u})
    ensures Remarks(old(g.Snap()), g.Snap()) && g.twups == old(g.twups) && g.upvals == Untouched(old(g.upvals), u)
    ensures old(g.upvals)[u].touched ==> In(UpValue(old(g.heap), old(g.upvals), u), Marks(g.Snap()))
  {
    hide Queued, Ready, TriSeen, Grow, Marked;
    ghost var s := g.Snap();
    GrowRefl(s, limit);
    if g.upvals[u].touched {
      TouchedBound(s, u, limit);
      MarkValue(g, UpValue(g.heap, g.upvals, u), limit);
      GrowOn0(s, g.Snap(), limit);
      GrowFacts(s, g.Snap(), limit);
      ReadyKeys(s, limit);
      GrowQueued(s, g.Snap(), {}, q, [], limit);
      GrowSeen(s, g.Snap(), l, w, limit);
    }
    ghost var m := g.Snap();
    g.upvals := Untouched(g.upvals, u);
    UntouchSeen(m, u, l, w);
    UntouchReady(m, u, limit);
    RemarkQueued(m, g.Snap(), q);
    GrowMarks0(s, m, limit);
  }

  /** The touched upvalues of a thread that is not marked (or has none). */
  method RemarkThread(g: GlobalState, th: Ref, ghost q: seq<Ref>, ghost l: seq<Ref>, ghost limit: set<Ref>)
    requires Ready(g.Snap(), limit) && Queued(g.Snap(), {}, q, []) && TriSeen(g.Snap(), [th] + l, {})
    modifies g
    ensures Ready(g.Snap(), limit) && Queued(g.Snap(), {}, q, []) && TriSeen(g.Snap(), l, {})
    ensures Remarks(old(g.Snap()), g.Snap()) && g.twups == old(g.twups)
    ensures forall u :: u in g.upvals && g.upvals[u].Open? && g.upvals[u].th == th ==> !g.upvals[u].touched
    ensures TouchedDone(old(g.Snap()), g.Snap())
  {
    hide Queued, Ready, TriSeen, Remarks, TouchedDone;
    ghost var s0 := g.Snap();
    var us := set u | u in g.upvals && g.upvals[u].Open? && g.upvals[u].th == th;
    SkipSeen(s0, th, l, us);
    RemarksRefl(s0);
    NothingDone(s0);
    while us != {}
      invariant Ready(g.Snap(), limit) && Queued(g.Snap(), {}, q, []) && TriSeen(g.Snap(), l, us)
      invariant Remarks(s0, g.Snap()) && g.twups == s0.twups
      invariant forall u :: u in us ==> u in g.upvals && g.upvals[u].Open?
      invariant TouchedDone(s0, g.Snap())
      invariant forall u :: u in g.upvals && g.upvals[u].Open? && g.upvals[u].th == th && u !in us ==> !g.upvals[u].touched
      decreases |us|
    {
      var u :| u in us;
      ghost var s := g.Snap();
      RemarkUpval(g, u, q, l, us, limit);
      DoneMarks(s, g.Snap());
      DoneMarks(s0, s);
      OneDone(s, g.Snap(), u);
      DoneTrans(s0, s, g.Snap());
      RemarksTrans(s0, s, g.Snap());
      us := us - {u};
    }
  }

  /** What is no longer noted has its value marked. */
  ghost predicate TouchedDone(g: G, d: G) {
    forall u :: u in g.upvals && g.upvals[u].Open? && g.upvals[u].touched ==>
      u in d.upvals && (d.upvals[u] == g.upvals[u] || In(UpValue(g.heap, g.upvals, u), Marks(d)))
  }

  lemma NothingDone(g: G)
    ensures TouchedDone(g, g)
  {
  }

  lemma OneDone(g: G, d: G, u: UpRef)
    requires u in g.upvals && g.upvals[u].Open? && d.upvals == Untouched(g.upvals, u)
    requires g.upvals[u].touched ==> In(UpValue(g.heap, g.upvals, u), Marks(d))
    ensures TouchedDone(g, d)
  {
  }

  lemma DoneTrans(g: G, m: G, d: G)
    requires TouchedDone(g, m) && TouchedDone(m, d) && m.heap == g.heap && Marks(m) <= Marks(d) && m.upvals.Keys == d.upvals.Keys
    ensures TouchedDone(g, d)
  {
    forall u | u in g.upvals && g.upvals[u].Open? && g.upvals[u].touched
      ensures u in d.upvals && (d.upvals[u] == g.upvals[u] || In(UpValue(g.heap, g.upvals, u), Marks(d)))
    {
      if m.upvals[u] == g.upvals[u] {
        assert UpValue(m.heap, m.upvals, u) == UpValue(g.heap, g.upvals, u);
      }
    }
  }

  lemma DoneMarks(g: G, d: G)
    requires Remarks(g, d)
    ensures d.heap == g.heap && Marks(g) <= Marks(d) && d.upvals.Keys == g.upvals.Keys
  {
  }

  lemma RemarksRefl(g: G)
    ensures Remarks(g, g)
  {
  }

  lemma RemarksTrans(g: G, m: G, d: G)
    requires Remarks(g, m) && Remarks(m, d)
    ensures Remarks(g, d)
  {
  }

  lemma GrowMarks0(s: G, m: G, limit: set<Ref>)
    requires Grow(s, m, {}, limit)
    ensures Marks(s) <= Marks(m) && m.marked.Keys == s.marked.Keys
  {
    GrowMarks(s, m, {}, limit);
  }

  lemma TouchedBound(g: G, u: UpRef, limit: set<Ref>)
    requires Ready(g, limit) && u in g.upvals && g.upvals[u].Open? && g.upvals[u].touched
    ensures In(UpValue(g.heap, g.upvals, u), limit) && In(UpValue(g.heap, g.upvals, u), g.heap.Keys)
  {
    var th := g.upvals[u].th;
    assert th in Alive(g);
    assert RefsIn(g.heap, g.upvals, g.heap[th], Alive(g));
  }

  /** Open upvalues that are still noted belong to marked threads, or to threads of l. */
  ghost predicate NotedIn(g: G, l: seq<Ref>) {
    forall u :: u in g.upvals && g.upvals[u].Open? && g.upvals[u].touched ==>
      g.upvals[u].th in Marks(g) || g.upvals[u].th in l
  }

  lemma NotedOn(s: G, d: G, th: Ref, l: seq<Ref>)
    requires NotedIn(s, [th] + l) && SameOpen(s.upvals, d.upvals) && Marks(s) <= Marks(d)
    requires th in Marks(s) || forall u :: u in d.upvals && d.upvals[u].Open? && d.upvals[u].th == th ==> !d.upvals[u].touched
    ensures NotedIn(d, l)
  {
    forall u | u in d.upvals && d.upvals[u].Open? && d.upvals[u].touched
      ensures d.upvals[u].th in Marks(d) || d.upvals[u].th in l
    {
      assert d.upvals[u] == s.upvals[u];
    }
  }

  /** A thread that is dead, or has no open upvalues, leaves 'twups'. */
  method DropThread(g: GlobalState, i: nat, ghost q: seq<Ref>, ghost s0: G, ghost limit: set<Ref>)
    requires i < |g.twups| && g.twups[i] in g.marked
    requires !g.marked[g.twups[i]].Gray? || !HasOpen(g.upvals, g.twups[i])
    requires Ready(g.Snap(), limit) && Queued(g.Snap(), {}, q, []) && TriSeen(g.Snap(), g.twups[i..], {})
    requires Remarks(s0, g.Snap()) && NotedIn(g.Snap(), g.twups[i..]) && TouchedDone(s0, g.Snap())
    modifies g
    ensures g.twups == old(g.twups)[..i] + old(g.twups)[i + 1..]
    ensures Ready(g.Snap(), limit) && Queued(g.Snap(), {}, q, []) && TriSeen(g.Snap(), g.twups[i..], {})
    ensures Remarks(s0, g.Snap()) && NotedIn(g.Snap(), g.twups[i..]) && TouchedDone(s0, g.Snap())
    ensures Marks(old(g.Snap())) <= Marks(g.Snap()) && g.marked.Keys == old(g.marked).Keys
  {
    hide Queued, Ready, TriSeen, NotedIn, TouchedDone, Living, HasOpen, Marked;
    ghost var s := g.Snap();
    var th := g.twups[i];
    assert g.twups[i..] == [th] + g.twups[i + 1..];
    g.twups := g.twups[..i] + g.twups[i + 1..];
    ghost var m := g.Snap();
    assert g.twups[i..] == s.twups[i + 1..];
    RemarkQueued(s, m, q);
    SeenTwups(s, m, [th] + g.twups[i..], limit);
    RemarkThread(g, th, q, g.twups[i..], limit);
    DoneAgain(s0, s, m, g.Snap());
    RemarksOn(s0, s, m, g.Snap());
    NotedOn(s, g.Snap(), th, g.twups[i..]);
  }

  /** 'remarkupvals' */
  method RemarkUpvals(g: GlobalState, ghost q: seq<Ref>, ghost limit: set<Ref>)
    requires Ready(g.Snap(), limit) && Marking(g.Snap(), {}, q, [], false)
    requires TwupsComplete(g.Snap()) && forall r :: r in g.twups ==> r in g.marked
    modifies g
    ensures Ready(g.Snap(), limit) && Marking(g.Snap(), {}, q, [], true)
    ensures Remarks(old(g.Snap()), g.Snap()) && forall r :: r in g.twups ==> r in Marks(g.Snap())
    ensures NotedIn(g.Snap(), []) && TouchedDone(old(g.Snap()), g.Snap())
  {
    hide Queued, Ready, TriSeen, Tri, NotedIn, TouchedDone, Living;
    ghost var s0 := g.Snap();
    NothingDone(s0);
    StartSeen(s0);
    assert g.twups[0..] == g.twups;
    StartNoted(s0);
    var i := 0;
    while i < |g.twups|
      invariant 0 <= i <= |g.twups|
      invariant Ready(g.Snap(), limit) && Queued(g.Snap(), {}, q, []) && TriSeen(g.Snap(), g.twups[i..], {})
      invariant Remarks(s0, g.Snap()) && NotedIn(g.Snap(), g.twups[i..]) && TouchedDone(s0, g.Snap())
      invariant forall r :: r in g.twups ==> r in g.marked
      invariant forall j :: 0 <= j < i ==> g.twups[j] in Marks(g.Snap())
      decreases |g.twups| - i
    {
      var th := g.twups[i];
      ghost var s := g.Snap();
      assert g.twups[i..] == [th] + g.twups[i + 1..];
      var open := exists u :: u in g.upvals && g.upvals[u].Open? && g.upvals[u].th == th;
      if g.marked[th].Gray? && open {
        SkipSeen(s, th, g.twups[i + 1..], {});
        NotedOn(s, s, th, g.twups[i + 1..]);
        i := i + 1;
      } else {
        DropThread(g, i, q, s0, limit);
      }
    }
    assert g.twups[i..] == [];
    EndSeen(g.Snap());
  }

  lemma DoneAgain(g: G, s: G, m: G, d: G)
    requires TouchedDone(g, s) && Remarks(g, s) && m == s.(twups := m.twups) && TouchedDone(m, d) && Remarks(m, d)
    ensures TouchedDone(g, d)
  {
    hide TouchedDone;
    assert TouchedDone(g, m) by { DoneTwups(g, s, m); }
    DoneMarks(g, s);
    DoneMarks(m, d);
    DoneTrans(g, m, d);
  }

  lemma DoneTwups(g: G, s: G, m: G)
    requires TouchedDone(g, s) && m == s.(twups := m.twups)
    ensures TouchedDone(g, m)
  {
    assert Marks(m) == Marks(s);
  }

  lemma StartNoted(g: G)
    requires TwupsComplete(g)
    ensures NotedIn(g, g.twups)
  {
  }

  lemma SeenTwups(g: G, d: G, l: seq<Ref>, limit: set<Ref>)
    requires TriSeen(g, l, {}) && d == g.(twups := d.twups) && Ready(g, limit)
    ensures TriSeen(d, l, {}) && Ready(d, limit)
  {
  }

  lemma RemarksOn(g: G, s: G, m: G, d: G)
    requires Remarks(g, s) && Remarks(m, d) && m == s.(twups := m.twups)
    requires forall r :: r in m.twups ==> r in s.twups
    ensures Remarks(g, d)
  {
  }
}
