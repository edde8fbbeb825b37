/** The invariant of the collector, in every state it can be in. */
module LgcInv {
  import opened LgcHeap
  import opened LgcGrow
  import opened LgcPropagate
  import opened LgcAtomic

  // ----- Reachability -----

  function RefOf(v: TValue): set<Ref> {
    if v.Coll? then {v.ref} else {}
  }

  function RefsOf(vs: seq<TValue>): set<Ref> {
    set i | 0 <= i < |vs| && vs[i].Coll? :: vs[i].ref
  }

  function KeyRefs(ns: seq<Node>): set<Ref> {
    set i | 0 <= i < |ns| && ns[i].val != Nil && ns[i].key.Coll? :: ns[i].key.ref
  }

  function ValRefs(ns: seq<Node>): set<Ref> {
    set i | 0 <= i < |ns| && ns[i].val.Coll? :: ns[i].val.ref
  }

  function UpRefs(h: Heap, us: UpVals, ups: seq<UpRef>): set<Ref> {
    set i | 0 <= i < |ups| && UpValue(h, us, ups[i]).Coll? :: UpValue(h, us, ups[i]).ref
  }

  /** Everything the program can reach from o in one step, through weak entries too. */
  function Children(h: Heap, us: UpVals, o: Object): set<Ref> {
    match o
    case Str => {}
    case Udata(meta, user) => RefOf(meta) + RefOf(user)
    case Table(meta, _, arr, nodes) => RefOf(meta) + RefsOf(arr) + KeyRefs(nodes) + ValRefs(nodes)
    case LCl(p, ups) => RefOf(p) + UpRefs(h, us, ups)
    case CCl(vals) => RefsOf(vals)
    case Thread(stack) => RefsOf(stack)
    case Proto(consts) => RefsOf(consts)
  }

  lemma ChildrenIn(h: Heap, us: UpVals, o: Object, s: set<Ref>)
    ensures RefsIn(h, us, o, s) <==> Children(h, us, o) <= s
  {
    match o
    case Table(meta, _, arr, nodes) =>
      ValsInRefs(arr, s);
      EntriesInRefs(nodes, s);
    case LCl(p, ups) =>
      if UpRefs(h, us, ups) <= s {
        forall i | 0 <= i < |ups| ensures In(UpValue(h, us, ups[i]), s) {
          assert UpValue(h, us, ups[i]).Coll? ==> UpValue(h, us, ups[i]).ref in UpRefs(h, us, ups);
        }
      }
    case CCl(vals) => ValsInRefs(vals, s);
    case Thread(stack) => ValsInRefs(stack, s);
    case Proto(consts) => ValsInRefs(consts, s);
    case _ =>
  }

  lemma ValsInRefs(vs: seq<TValue>, s: set<Ref>)
    ensures ValsIn(vs, s) <==> RefsOf(vs) <= s
  {
    if RefsOf(vs) <= s {
      forall i | 0 <= i < |vs| ensures In(vs[i], s) {
        assert vs[i].Coll? ==> vs[i].ref in RefsOf(vs);
      }
    }
  }

  lemma EntriesInRefs(ns: seq<Node>, s: set<Ref>)
    ensures EntriesIn(ns, s) <==> KeyRefs(ns) + ValRefs(ns) <= s
  {
    if EntriesIn(ns, s) {
      forall i | 0 <= i < |ns| ensures EntryIn(ns[i], s) {}
    }
    if KeyRefs(ns) + ValRefs(ns) <= s {
      forall i | 0 <= i < |ns| ensures EntryIn(ns[i], s) {
        assert ns[i].val != Nil && ns[i].key.Coll? ==> ns[i].key.ref in KeyRefs(ns);
        assert ns[i].val.Coll? ==> ns[i].val.ref in ValRefs(ns);
      }
    }
  }

  predicate IsRoot(g: G, r: Ref) {
    r == g.mainthread || r == g.running || r in RefOf(g.registry) || r in RefsOf(g.mt) || r in g.tobefnz
  }

  /** A chain of references that starts at a root. */
  ghost predicate Path(g: G, p: seq<Ref>) {
    && p != [] && IsRoot(g, p[0])
    && forall i :: 0 <= i < |p| - 1 ==> p[i] in g.heap && p[i + 1] in Children(g.heap, g.upvals, g.heap[p[i]])
  }

  ghost predicate Reachable(g: G, r: Ref) {
    exists p :: Path(g, p) && p[|p| - 1] == r
  }

  lemma ReachChild(g: G, r: Ref, c: Ref)
    requires Reachable(g, r) && r in g.heap && c in Children(g.heap, g.upvals, g.heap[r])
    ensures Reachable(g, c)
  {
    hide Children;
    var p :| Path(g, p) && p[|p| - 1] == r;
    var q := p + [c];
    forall i | 0 <= i < |q| - 1 ensures q[i] in g.heap && q[i + 1] in Children(g.heap, g.upvals, g.heap[q[i]]) {
      if i < |p| - 1 { assert q[i] == p[i] && q[i + 1] == p[i + 1]; }
    }
    assert Path(g, q) && q[|q| - 1] == c;
  }

  ghost predicate Reaches(g: G, v: TValue) {
    v.Coll? ==> Reachable(g, v.ref)
  }

  /** The roots can be reached. */
  lemma RootsReachable(g: G)
    ensures Reachable(g, g.mainthread) && Reachable(g, g.running) && Reaches(g, g.registry)
    ensures forall i :: 0 <= i < |g.mt| ==> Reaches(g, g.mt[i])
    ensures forall r :: r in g.tobefnz ==> Reachable(g, r)
  {
    RootReachable(g, g.mainthread);
    RootReachable(g, g.running);
    if g.registry.Coll? { RootReachable(g, g.registry.ref); }
    forall i | 0 <= i < |g.mt| ensures Reaches(g, g.mt[i]) {
      if g.mt[i].Coll? { RootReachable(g, g.mt[i].ref); }
    }
    forall r | r in g.tobefnz ensures Reachable(g, r) { RootReachable(g, r); }
  }

  lemma RootReachable(g: G, r: Ref)
    requires IsRoot(g, r)
    ensures Reachable(g, r)
  {
    assert Path(g, [r]);
  }

  /** Whatever an object that can be reached has in its fields can be reached, the two ends of
      the entries of weak tables included. */
  lemma FieldsReachable(g: G, r: Ref)
    requires Reachable(g, r) && r in g.heap
    ensures match g.heap[r]
      case Str => true
      case Udata(meta, user) => Reaches(g, meta) && Reaches(g, user)
      case Table(meta, _, arr, nodes) =>
        && Reaches(g, meta) && (forall i :: 0 <= i < |arr| ==> Reaches(g, arr[i]))
        && (forall i :: 0 <= i < |nodes| ==> Reaches(g, nodes[i].val) && (nodes[i].val != Nil ==> Reaches(g, nodes[i].key)))
      case LCl(p, ups) =>
        && Reaches(g, p)
        && (forall i :: 0 <= i < |ups| && ups[i] in g.upvals ==>
              match g.upvals[ups[i]]
              case Closed(v) => Reaches(g, v)
              case Open(th, level, _) =>
                th in g.heap && g.heap[th].Thread? && level < |g.heap[th].stack| ==> Reaches(g, g.heap[th].stack[level]))
      case CCl(vals) => forall i :: 0 <= i < |vals| ==> Reaches(g, vals[i])
      case Thread(stack) => forall i :: 0 <= i < |stack| ==> Reaches(g, stack[i])
      case Proto(consts) => forall i :: 0 <= i < |consts| ==> Reaches(g, consts[i])
  {
    hide Reachable;
    var o := g.heap[r];
    var c := Children(g.heap, g.upvals, o);
    forall x | x in c ensures Reachable(g, x) { ReachChild(g, r, x); }
    ChildrenIn(g.heap, g.upvals, o, c);
  }

  lemma {:induction false} PathIn(g: G, p: seq<Ref>, s: set<Ref>)
    requires Path(g, p) && RootsIn(g, s)
    requires forall r :: r in s && r in g.heap ==> RefsIn(g.heap, g.upvals, g.heap[r], s)
    ensures p[|p| - 1] in s
  {
    if |p| == 1 {
      ValsInRefs(g.mt, s);
    } else {
      var q := p[..|p| - 1];
      PathIn(g, q, s);
      var a := q[|q| - 1];
      assert a == p[|p| - 2] && p[|p| - 1] in Children(g.heap, g.upvals, g.heap[a]);
      ChildrenIn(g.heap, g.upvals, g.heap[a], s);
    }
  }

  // ----- The invariant -----

  /** Every object but the main thread is in exactly one of the four lists. */
  ghost predicate ListsOK(g: G) {
    multiset(g.allgc) + multiset(g.finobj) + multiset(g.tobefnz) + multiset(g.fixedgc)
      == multiset(g.heap.Keys - {g.mainthread})
  }

  /** The finalizer bit tells who is in 'finobj' or 'tobefnz'; fixed objects are strings that no
      cycle turns white. */
  ghost predicate BitsOK(g: G) {
    && (forall r :: r in g.fin <==> r in g.finobj || r in g.tobefnz)
    && (forall r :: r in g.fixedgc ==> IsString(g.heap, r) && r in g.marked && !g.marked[r].White?)
    && g.mainthread in g.heap && g.heap[g.mainthread].Thread?
    && (forall r :: r in g.twups ==> r in g.heap && g.heap[r].Thread?)
  }

  /** What holds in all states: live objects, among them roots and objects with finalizers, refer
      to live objects only. */
  ghost predicate Core(g: G) {
    Wf(g) && TwupsAlive(g) && RootsIn(g, Alive(g)) && FinIn(g, Alive(g)) && ListsOK(g) && BitsOK(g)
  }

  /** The same without the references of live objects: all that the sweeper relies on. */
  ghost predicate Framed(g: G) {
    Shaped(g) && TwupsAlive(g) && RootsIn(g, Alive(g)) && FinIn(g, Alive(g)) && ListsOK(g) && BitsOK(g)
  }

  lemma CoreFramed(g: G)
    ensures Core(g) <==> Framed(g) && RefsAlive(g)
  {
  }

  ghost predicate AllWhite(g: G, l: seq<Ref>) {
    forall r :: r in l ==> r in g.marked && g.marked[r] == White(g.cw)
  }

  /** Index of the first occurrence. */
  function IndexOf(l: seq<Ref>, r: Ref): (i: nat)
    requires r in l
    ensures i < |l| && l[i] == r && forall j :: 0 <= j < i ==> l[j] != r
  {
    if l[0] == r then 0 else 1 + IndexOf(l[1..], r)
  }

  /** Number of elements of l that the sweeper has passed. */
  function Pos(l: seq<Ref>, p: Ptr): (k: nat)
    requires p.Next? ==> p.ref in l
    ensures k <= |l|
  {
    match p
    case Null => |l|
    case Head => 0
    case Next(r) => IndexOf(l, r) + 1
  }

  /** The part of l that the sweeper has passed is white again. */
  ghost predicate Passed(g: G, l: seq<Ref>) {
    && (g.sweepgc.Next? ==> g.sweepgc.ref in l)
    && AllWhite(g, l[..Pos(l, g.sweepgc)])
  }

  ghost predicate MarkPhase(g: G) {
    && NoDead(g) && Marking(g, {}, g.grayagain, [], false) && AllWaiting(g)
    && g.mainthread in Marks(g) && g.weak == [] && g.ephemeron == [] && g.sweepgc == Null
    && (g.gcstate == Propagate ==> g.gray != [])
  }

  ghost predicate Resting(g: G) {
    && g.sweepgc == Null
    && forall r :: r in g.heap ==> r in g.marked && (g.marked[r] == White(g.cw) || r in g.fixedgc)
  }

  ghost predicate Phase(g: G) {
    match g.gcstate
    case Propagate => MarkPhase(g)
    case Atomic => MarkPhase(g)
    case InsideAtomic => false
    case SwpAllGc => Passed(g, g.allgc) && g.sweepgc != Head
    case SwpFinObj => AllWhite(g, g.allgc) && Passed(g, g.finobj)
    case SwpToBeFnz => AllWhite(g, g.allgc) && AllWhite(g, g.finobj) && Passed(g, g.tobefnz)
    case SwpEnd => AllWhite(g, g.allgc) && AllWhite(g, g.finobj) && AllWhite(g, g.tobefnz) && g.sweepgc == Null
    case CallFin => Resting(g)
    case Pause => Resting(g)
  }

  ghost predicate Inv(g: G) {
    Core(g) && Phase(g)
  }

  ghost predicate Held(g: G) {
    Framed(g) && Phase(g)
  }

  lemma InvHeld(g: G)
    ensures Inv(g) <==> Held(g) && RefsAlive(g)
  {
    hide Framed, Core, Phase;
    CoreFramed(g);
  }

  /** In every state of the invariant an object that the program can reach exists and is not
      dead. */
  lemma ReachableAlive(g: G, r: Ref)
    requires Core(g) && Reachable(g, r)
    ensures r in Alive(g) && r in g.heap
  {
    var p :| Path(g, p) && p[|p| - 1] == r;
    PathIn(g, p, Alive(g));
  }

  // ----- Lists as multisets -----

  lemma InMultiset(l: seq<Ref>, r: Ref)
    ensures r in l <==> r in multiset(l)
    ensures r in l ==> multiset(l)[r] >= 1
  {
  }

  /** An object is in one place of one list. */
  lemma OneList(g: G, r: Ref)
    requires ListsOK(g)
    ensures multiset(g.allgc)[r] + multiset(g.finobj)[r] + multiset(g.tobefnz)[r] + multiset(g.fixedgc)[r]
            == if r in g.heap && r != g.mainthread then 1 else 0
  {
    assert multiset(g.heap.Keys - {g.mainthread})[r] == if r in g.heap && r != g.mainthread then 1 else 0;
  }

  lemma Twice(l: seq<Ref>, i: nat, j: nat)
    requires i < j < |l| && l[i] == l[j]
    ensures multiset(l)[l[i]] >= 2
  {
    var a, b := l[..j], l[j..];
    assert l == a + b;
    assert a[i] == l[i] && b[0] == l[j];
    InMultiset(a, l[i]);
    InMultiset(b, l[i]);
    assert multiset(l)[l[i]] == multiset(a)[l[i]] + multiset(b)[l[i]];
  }

  lemma NoDupsOf(l: seq<Ref>)
    requires forall r :: multiset(l)[r] <= 1
    ensures NoDups(l)
  {
    forall i, j | 0 <= i < j < |l| ensures l[i] != l[j] {
      if l[i] == l[j] { Twice(l, i, j); }
    }
  }

  lemma ListsNoDups(g: G)
    requires ListsOK(g)
    ensures NoDups(g.allgc) && NoDups(g.finobj) && NoDups(g.tobefnz) && NoDups(g.fixedgc)
  {
    forall r ensures multiset(g.allgc)[r] <= 1 && multiset(g.finobj)[r] <= 1 && multiset(g.tobefnz)[r] <= 1 && multiset(g.fixedgc)[r] <= 1 {
      OneList(g, r);
    }
    NoDupsOf(g.allgc);
    NoDupsOf(g.finobj);
    NoDupsOf(g.tobefnz);
    NoDupsOf(g.fixedgc);
  }

  lemma CutMultiset(l: seq<Ref>, k: nat)
    requires k < |l|
    ensures multiset(l[..k] + l[k + 1..]) == multiset(l) - multiset{l[k]}
    ensures forall r :: r in l <==> r in l[..k] + l[k + 1..] || r == l[k]
  {
    assert l == l[..k] + [l[k]] + l[k + 1..];
  }
}
