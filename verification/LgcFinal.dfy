/** The order of finalization, over whole runs: objects found dead in one cycle have their finalizers
    called in reverse order of being marked for finalization. */
module LgcFinal {
  import opened LgcHeap
  import opened LgcGrow
  import opened LgcMark
  import opened LgcPropagate
  import opened LgcWeak
  import opened LgcAtomic
  import opened LgcInv
  import opened LgcSweep
  import opened LgcStep
  import opened LgcCycle
  import opened LgcBarrier
  import opened LgcMutator
  import opened LgcClosures
  import opened LgcObjects
  import opened LgcRun

  /** a stands before b in l. */
  ghost predicate Precedes(l: seq<Ref>, a: Ref, b: Ref) {
    exists i, j :: 0 <= i < j < |l| && l[i] == a && l[j] == b
  }

  lemma InFront(l: seq<Ref>, a: Ref, b: Ref)
    requires b in l
    ensures Precedes([a] + l, a, b)
  {
    var i :| 0 <= i < |l| && l[i] == b;
    assert ([a] + l)[0] == a && ([a] + l)[i + 1] == b;
  }

  lemma PrecedesBehind(k: seq<Ref>, l: seq<Ref>, a: Ref, b: Ref)
    requires Precedes(l, a, b)
    ensures Precedes(k + l, a, b)
  {
    var i, j :| 0 <= i < j < |l| && l[i] == a && l[j] == b;
    assert (k + l)[|k| + i] == a && (k + l)[|k| + j] == b;
  }

  /** Separation keeps the order of what stays and of what goes. */
  lemma SelectInOrder(l: seq<Ref>, m: map<Ref, Color>, a: Ref, b: Ref)
    requires Precedes(l, a, b)
    ensures var stay, go := Select(l, m, false, false), Select(l, m, false, true);
            && (a in stay && b in stay ==> Precedes(stay, a, b))
            && (a !in stay && b !in stay ==> Precedes(go, a, b))
  {
    var i, j :| 0 <= i < j < |l| && l[i] == a && l[j] == b;
    if Doomed(m, false, a) {
      NotSelected(l, m, a, false);
    } else {
      var _ := SelectHas(l, m, false, false, i);
    }
    if Doomed(m, false, b) {
      NotSelected(l, m, b, false);
    } else {
      var _ := SelectHas(l, m, false, false, j);
    }
    if Doomed(m, false, a) == Doomed(m, false, b) {
      var p, q := SelectOrder(l, m, false, Doomed(m, false, a), i, j);
      assert Precedes(Select(l, m, false, Doomed(m, false, a)), a, b);
    }
  }

  lemma NotSelected(l: seq<Ref>, m: map<Ref, Color>, a: Ref, want: bool)
    requires Doomed(m, false, a) != want
    ensures a !in Select(l, m, false, want)
  {
    if l != [] { NotSelected(l[..|l| - 1], m, a, want); }
  }

  /** Finalizers are called from the front: when b has been finalized, so has a. */
  lemma FinalizedInOrder(g: G, d: G, k: nat, a: Ref, b: Ref)
    requires FinalizedMany(g, d, k) && NoDups(g.tobefnz) && Precedes(g.tobefnz, a, b) && b !in d.tobefnz
    ensures a !in d.tobefnz
  {
    var i, j :| 0 <= i < j < |g.tobefnz| && g.tobefnz[i] == a && g.tobefnz[j] == b;
    InTail(g.tobefnz, k, j);
    NotInTail(g.tobefnz, k, i);
  }

  lemma InTail(l: seq<Ref>, k: nat, j: nat)
    requires k <= |l| && j < |l|
    ensures k <= j ==> l[j] in l[k..]
  {
    if k <= j { assert l[k..][j - k] == l[j]; }
  }

  lemma NotInTail(l: seq<Ref>, k: nat, i: nat)
    requires NoDups(l) && i < k <= |l|
    ensures l[i] !in l[k..]
  {
    forall x | 0 <= x < |l| - k ensures l[k..][x] != l[i] {
      assert l[k..][x] == l[k + x];
    }
  }

  lemma FirstGone(l: seq<Ref>, k: nat, a: Ref, b: Ref)
    requires NoDups(l) && k <= |l| && Precedes(l, a, b) && a in l[k..]
    ensures Precedes(l[k..], a, b)
  {
    var i, j :| 0 <= i < j < |l| && l[i] == a && l[j] == b;
    var x :| 0 <= x < |l| - k && l[k..][x] == a;
    assert l[k + x] == a;
    assert l[k..][j - k] == b;
  }

  // ----- What one action does to the lists -----

  /** The action marks object a for finalization. */
  predicate Enlists(g: G, act: Action, a: Ref) {
    act.MetaSet? && act.o == a && act.hasgc && act.meta != Nil && a !in g.fin
  }

  ghost predicate Separates(g: G, d: G) {
    exists m :: d.finobj == Select(g.finobj, m, false, false) && d.tobefnz == g.tobefnz + Select(g.finobj, m, false, true)
  }

  ghost predicate CallsFirst(g: G, d: G) {
    d.finobj == g.finobj && exists k :: 0 <= k <= |g.tobefnz| && d.tobefnz == g.tobefnz[k..]
  }

  /** Objects get into 'finobj' at its front, from there to the end of 'tobefnz' when they are found
      dead, and leave that from its front. */
  ghost predicate ListsMove(g: G, act: Action, d: G) {
    if act.MetaSet? && Enlists(g, act, act.o) then d.finobj == [act.o] + g.finobj && d.tobefnz == g.tobefnz
    else if act.Collect? && g.gcstate == Atomic then Separates(g, d)
    else CallsFirst(g, d)
  }

  lemma SameLists(g: G, d: G)
    requires d.finobj == g.finobj && d.tobefnz == g.tobefnz
    ensures CallsFirst(g, d)
  {
    assert g.tobefnz[0..] == g.tobefnz;
  }

  lemma AtomicMoves(g: G, m: G, d: G, limit: set<Ref>)
    requires AtomicDone(g, m, limit) && d.finobj == m.finobj && d.tobefnz == m.tobefnz
    ensures Separates(g, d)
  {
    hide Shaped, RefsBut, MetasFrom, TwupsAlive, RootsIn, FinIn, FewerHeap, StrongClosed, Tidy, TouchedIn, WeakStrings, Fate, Select,
      Living, Marked;
    var s, c :| Strongly(g, m, s, c);
    assert d.finobj == Select(g.finobj, c, false, false);
  }

  lemma SweepsLists(g: G, d: G, w: Which)
    requires Sweeps(g, d, w)
    ensures d.finobj == g.finobj && d.tobefnz == g.tobefnz
  {
    hide SameUpvals, Living;
  }

  lemma TracedLists(g: G, d: G)
    requires Traced(g, d)
    ensures d.finobj == g.finobj && d.tobefnz == g.tobefnz
  {
    hide FewerHeap, Marked;
  }

  lemma CollectMoves(g: G, max: nat, fins: nat, d: G, limit: set<Ref>)
    requires Stepped(g, d, max, fins, limit)
    ensures if g.gcstate == Atomic then Separates(g, d) else CallsFirst(g, d)
  {
    hide Clean, Tidy, LimitOK, Grow, VisitsFirst, RootsIn, TouchUps, Traced, AtomicDone, Sweeps, Rest, Separates, CallsFirst;
    match g.gcstate
    case Atomic =>
      var m :| AtomicDone(g, m, limit) && Sweeps(m.(gcstate := SwpAllGc), d.(sweepgc := Null), AllGc);
      SweepsLists(m.(gcstate := SwpAllGc), d.(sweepgc := Null), AllGc);
      AtomicMoves(g, m, d, limit);
    case Pause =>
      TracedLists(g, d);
      SameLists(g, d);
    case Propagate =>
      TracedLists(g, d);
      SameLists(g, d);
    case CallFin =>
      if g.tobefnz == [] { SameLists(g, d); } else { FinalizesFirst(g, d, if fins < |g.tobefnz| then fins else |g.tobefnz|); }
    case SwpEnd =>
      SameLists(g, d);
    case _ =>
      SweepsLists(g, d.(gcstate := g.gcstate, sweepgc := g.sweepgc), ListFor(g.gcstate));
      SameLists(g, d);
  }

  lemma FinalizesFirst(g: G, d: G, k: nat)
    requires FinalizedMany(g, d, k)
    ensures CallsFirst(g, d)
  {
  }

  lemma GrowLists(g: G, d: G, limit: set<Ref>)
    requires Grow(g, d, {}, limit)
    ensures d.finobj == g.finobj && d.tobefnz == g.tobefnz
  {
  }

  lemma EnlistedMoves(g: G, d: G, o: Ref)
    requires Enlisted(g, d, o)
    ensures d.finobj == [o] + g.finobj && d.tobefnz == g.tobefnz
  {
    var m :| SteppedOff(g, m, o) && o in m.allgc && d == Moved(m, IndexOf(m.allgc, o));
    hide SteppedOff;
    SteppedLists(g, m, o);
  }

  lemma SteppedLists(g: G, m: G, o: Ref)
    requires SteppedOff(g, m, o)
    ensures m.finobj == g.finobj && m.tobefnz == g.tobefnz
  {
    hide Sweeps;
    if IsSweepPhase(g.gcstate) && g.sweepgc == Next(o) {
      SweepsLists(Whitened(g, o), m.(sweepgc := g.sweepgc), AllGc);
    }
  }

  lemma MetaMoves(g: G, o: Ref, mt: TValue, hasgc: bool, d: G)
    requires o in g.heap && (g.heap[o].Table? || g.heap[o].Udata?) && MetaActed(g, o, mt, hasgc, d)
    ensures if mt != Nil && hasgc && o !in g.fin then d.finobj == [o] + g.finobj && d.tobefnz == g.tobefnz else CallsFirst(g, d)
  {
    hide Enlisted, Barriered, CallsFirst;
    var s := Store(g, o, NewMeta(g.heap[o], mt));
    var m :| Barriered(s, m, o, mt) && if mt != Nil && hasgc && o !in g.fin then Enlisted(m, d, o) else d == m;
    BarrieredFin(s, m, o, mt);
    if mt != Nil && hasgc && o !in g.fin { EnlistedMoves(m, d, o); } else { SameLists(g, d); }
  }

  /** Every action moves objects between the lists in this way only. */
  lemma ActedMoves(g: G, act: Action, d: G)
    requires Enabled(g, act) && Acted(g, act, d)
    ensures ListsMove(g, act, d)
  {
    hide Stepped, Barriered, UpBarriered, MetaActed, CallsFirst, Separates, Newborn, Living;
    match act
    case Collect(max, fins) =>
      var limit :| Stepped(g, d, max, fins, limit);
      CollectMoves(g, max, fins, d, limit);
    case MetaSet(o, mt, hasgc) => MetaMoves(g, o, mt, hasgc, d);
    case SlotSet(o, slot, v) =>
      BarrieredFin(Store(g, o, WithSlot(g.heap[o], slot, v)), d, o, v);
      SameLists(g, d);
    case UpvalSet(u, v) =>
      if g.upvals[u].Closed? { UpvalMoves(WithClosed(g, u, v), d, u); }
      SameLists(g, d);
    case UpvalClose(u) =>
      UpvalMoves(WithClosed(g, u, UpValue(g.heap, g.upvals, u)), d, u);
      SameLists(g, d);
    case UpvalJoin(f, i, u) =>
      if g.upvals[u].Closed? { UpvalMoves(LgcClosures.Joined(g, f, i, u), d, u); }
      SameLists(g, d);
    case _ => SameLists(g, d);
  }

  lemma UpvalMoves(g: G, d: G, u: UpRef)
    requires u in g.upvals && g.upvals[u].Closed? && UpBarriered(g, d, u)
    ensures d.finobj == g.finobj && d.tobefnz == g.tobefnz
  {
  }

  // ----- The order, over any history -----

  /** States and actions of a run that has not gone wrong before its last step. */
  ghost predicate RunOf(h: seq<G>, acts: seq<Action>) {
    History(h, acts) && forall k :: 0 <= k < |acts| ==> Inv(h[k])
  }

  lemma Moves(h: seq<G>, acts: seq<Action>, k: nat)
    requires RunOf(h, acts) && k < |acts|
    ensures |h| == |acts| + 1 && ListsMove(h[k], acts[k], h[k + 1]) && NoDups(h[k].finobj) && NoDups(h[k].tobefnz)
  {
    hide Inv, Enabled, Acted, ListsMove;
    ActedMoves(h[k], acts[k], h[k + 1]);
    InvNoDups(h[k]);
  }

  lemma InvNoDups(g: G)
    requires Inv(g)
    ensures NoDups(g.finobj) && NoDups(g.tobefnz)
  {
    ListsNoDups(g);
  }

  /** Objects that stay in 'finobj' keep their order. */
  lemma {:induction false} StayInOrder(h: seq<G>, acts: seq<Action>, i: nat, n: nat, b: Ref, a: Ref)
    requires RunOf(h, acts) && i <= n <= |acts| && Precedes(h[i].finobj, b, a)
    requires forall k :: i <= k <= n ==> a in h[k].finobj && b in h[k].finobj
    ensures Precedes(h[n].finobj, b, a)
    decreases n - i
  {
    hide RunOf, Precedes, Select, Enlists;
    if i < n {
      Moves(h, acts, i);
      var g, d := h[i], h[i + 1];
      if acts[i].MetaSet? && Enlists(g, acts[i], acts[i].o) {
        PrecedesBehind([acts[i].o], g.finobj, b, a);
      } else if acts[i].Collect? && g.gcstate == Atomic {
        var m :| d.finobj == Select(g.finobj, m, false, false) && d.tobefnz == g.tobefnz + Select(g.finobj, m, false, true);
        SelectInOrder(g.finobj, m, b, a);
      }
      StayInOrder(h, acts, i + 1, n, b, a);
    }
  }

  /** Of two objects that were marked for finalization, at steps i and j, and have been in 'finobj'
      ever since, the one marked later stands in front. */
  lemma MarkedInReverse(h: seq<G>, acts: seq<Action>, i: nat, j: nat, n: nat, a: Ref, b: Ref)
    requires RunOf(h, acts) && i < j < n <= |acts| && Enlists(h[i], acts[i], a) && Enlists(h[j], acts[j], b)
    requires forall k :: i < k <= n ==> a in h[k].finobj
    requires forall k :: j < k <= n ==> b in h[k].finobj
    ensures Precedes(h[n].finobj, b, a)
  {
    hide RunOf, Precedes;
    Moves(h, acts, j);
    InFront(h[j].finobj, b, a);
    StayInOrder(h, acts, j + 1, n, b, a);
  }

  /** Objects that wait in 'tobefnz' keep their order: no finalizer is called before those in front. */
  lemma {:induction false} WaitInOrder(h: seq<G>, acts: seq<Action>, i: nat, n: nat, b: Ref, a: Ref)
    requires RunOf(h, acts) && i <= n <= |acts| && Precedes(h[i].tobefnz, b, a)
    requires forall k :: i <= k <= n ==> b in h[k].tobefnz
    ensures Precedes(h[n].tobefnz, b, a)
    decreases n - i
  {
    hide RunOf, Precedes, Select, Enlists, NoDups;
    if i < n {
      Moves(h, acts, i);
      var g, d := h[i], h[i + 1];
      if acts[i].MetaSet? && Enlists(g, acts[i], acts[i].o) {
      } else if acts[i].Collect? && g.gcstate == Atomic {
        var m :| d.finobj == Select(g.finobj, m, false, false) && d.tobefnz == g.tobefnz + Select(g.finobj, m, false, true);
        PrecedesBefore(g.tobefnz, Select(g.finobj, m, false, true), b, a);
      } else {
        var k :| 0 <= k <= |g.tobefnz| && d.tobefnz == g.tobefnz[k..];
        FirstGone(g.tobefnz, k, b, a);
      }
      WaitInOrder(h, acts, i + 1, n, b, a);
    }
  }

  lemma PrecedesBefore(l: seq<Ref>, k: seq<Ref>, a: Ref, b: Ref)
    requires Precedes(l, a, b)
    ensures Precedes(l + k, a, b)
  {
    var i, j :| 0 <= i < j < |l| && l[i] == a && l[j] == b;
    assert (l + k)[i] == a && (l + k)[j] == b;
  }

  /** Two objects that leave 'finobj' in the same step were found dead together; they wait in the order
      that they had. */
  lemma DeadTogether(h: seq<G>, acts: seq<Action>, n: nat, b: Ref, a: Ref)
    requires RunOf(h, acts) && n < |acts| && Precedes(h[n].finobj, b, a)
    requires a !in h[n + 1].finobj && b !in h[n + 1].finobj
    ensures acts[n].Collect? && h[n].gcstate == Atomic && Precedes(h[n + 1].tobefnz, b, a)
  {
    hide RunOf, Select, Enlists, ListsMove, Precedes;
    Moves(h, acts, n);
    var g, d := h[n], h[n + 1];
    InList(g.finobj, b, a);
    LeftFinobj(g, acts[n], d, a);
    var m :| d.finobj == Select(g.finobj, m, false, false) && d.tobefnz == g.tobefnz + Select(g.finobj, m, false, true);
    SelectInOrder(g.finobj, m, b, a);
    PrecedesBehind(g.tobefnz, Select(g.finobj, m, false, true), b, a);
  }

  lemma InList(l: seq<Ref>, a: Ref, b: Ref)
    requires Precedes(l, a, b)
    ensures a in l && b in l
  {
  }

  /** The only way out of 'finobj'. */
  lemma LeftFinobj(g: G, act: Action, d: G, a: Ref)
    requires ListsMove(g, act, d) && a in g.finobj
    ensures a !in d.finobj ==> act.Collect? && g.gcstate == Atomic && Separates(g, d)
  {
  }

  /** In every run, whatever the program and the collector do in between: objects found dead by the
      same cycle, at step n, are finalized in the reverse of the order in which they were marked. As
      long as b, marked later, waits for its finalizer, a waits behind it. */
  lemma ReverseOrder(h: seq<G>, acts: seq<Action>, i: nat, j: nat, n: nat, e: nat, a: Ref, b: Ref)
    requires RunOf(h, acts) && i < j < n < e <= |acts| && Enlists(h[i], acts[i], a) && Enlists(h[j], acts[j], b)
    requires forall k :: i < k <= n ==> a in h[k].finobj
    requires forall k :: j < k <= n ==> b in h[k].finobj
    requires a !in h[n + 1].finobj && b !in h[n + 1].finobj
    requires forall k :: n < k <= e ==> b in h[k].tobefnz
    ensures Precedes(h[e].tobefnz, b, a)
  {
    hide RunOf, Precedes, Enlists;
    MarkedInReverse(h, acts, i, j, n, a, b);
    DeadTogether(h, acts, n, b, a);
    WaitInOrder(h, acts, n + 1, e, b, a);
  }
}
