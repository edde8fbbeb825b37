/** The sweep phase: dead objects are freed, the others become white again. */
module LgcSweep {
  import opened LgcHeap
  import opened LgcGrow
  import opened LgcMark
  import opened LgcPropagate
  import opened LgcAtomic
  import opened LgcInv

  datatype Which = AllGc | FinObj | ToBeFnz

  function ListOf(g: G, w: Which): seq<Ref> {
    match w
    case AllGc => g.allgc
    case FinObj => g.finobj
    case ToBeFnz => g.tobefnz
  }

  function WithList(g: G, w: Which, l: seq<Ref>): G {
    match w
    case AllGc => g.(allgc := l)
    case FinObj => g.(finobj := l)
    case ToBeFnz => g.(tobefnz := l)
  }

  // ----- freeobj -----

  /** 'luaF_close' on a whole stack: its open upvalues keep their value. */
  function CloseAll(h: Heap, us: UpVals, th: Ref): (us': UpVals)
    ensures us'.Keys == us.Keys
    ensures forall u :: u in us ==>
              us'[u] == if us[u].Open? && us[u].th == th then Closed(UpValue(h, us, u)) else us[u]
  {
    map u | u in us :: if us[u].Open? && us[u].th == th then Closed(UpValue(h, us, u)) else us[u]
  }

  /** 'freeobj': a thread closes its upvalues before it goes. */
  function Freed(g: G, o: Ref): G
    requires o in g.heap
  {
    g.(heap := g.heap - {o}, marked := g.marked - {o},
       upvals := if g.heap[o].Thread? then CloseAll(g.heap, g.upvals, o) else g.upvals)
  }

  lemma FreedUp(g: G, o: Ref, u: UpRef)
    requires o in g.heap && UpsOK(g)
    ensures UpValue(Freed(g, o).heap, Freed(g, o).upvals, u) == UpValue(g.heap, g.upvals, u)
  {
  }

  lemma FreedShaped(g: G, o: Ref)
    requires Shaped(g) && o in g.heap && o !in Alive(g)
    ensures Shaped(Freed(g, o)) && Alive(Freed(g, o)) == Alive(g)
  {
  }

  lemma FreedLists(g: G, k: nat)
    requires ListsOK(g) && BitsOK(g) && k < |g.allgc|
    ensures var o := g.allgc[k]; var d := g.(heap := g.heap - {o}, allgc := g.allgc[..k] + g.allgc[k + 1..]);
            ListsOK(d) && o in g.heap && o != g.mainthread && o !in g.finobj && o !in g.tobefnz && o !in g.fixedgc
  {
    var o := g.allgc[k];
    OneList(g, o);
    InMultiset(g.allgc, o);
    InMultiset(g.finobj, o);
    InMultiset(g.tobefnz, o);
    InMultiset(g.fixedgc, o);
    CutMultiset(g.allgc, k);
    var d := g.(heap := g.heap - {o}, allgc := g.allgc[..k] + g.allgc[k + 1..]);
    assert multiset(d.heap.Keys - {g.mainthread}) == multiset(g.heap.Keys - {g.mainthread}) - multiset{o} by {
      assert d.heap.Keys - {g.mainthread} == (g.heap.Keys - {g.mainthread}) - {o};
    }
    assert multiset(g.allgc) - multiset{o} + multiset(g.finobj) + multiset(g.tobefnz) + multiset(g.fixedgc)
        == multiset(g.heap.Keys - {g.mainthread}) - multiset{o};
  }

  /** A dead object can be in 'allgc' only. */
  lemma DeadInAllGc(g: G, w: Which, k: nat)
    requires Framed(g) && k < |ListOf(g, w)| && ListOf(g, w)[k] !in Alive(g)
    ensures w == AllGc
  {
    assert ListOf(g, w)[k] in ListOf(g, w);
  }

  lemma FreedFramed(g: G, k: nat)
    requires Framed(g) && k < |g.allgc| && g.allgc[k] !in Alive(g)
    ensures var o := g.allgc[k];
            o in g.heap && Framed(Freed(g, o).(allgc := g.allgc[..k] + g.allgc[k + 1..]))
  {
    hide Shaped;
    var o := g.allgc[k];
    FreedLists(g, k);
    FreedShaped(g, o);
    var f := Freed(g, o);
    var d := f.(allgc := g.allgc[..k] + g.allgc[k + 1..]);
    assert Shaped(d) by { SameShaped(f, d); }
    assert TwupsAlive(d) by {
      forall u | u in d.upvals && d.upvals[u].Open? && d.upvals[u].th in Alive(d) ensures d.upvals[u].th in d.twups {}
    }
    assert ListsOK(d);
    FreedBits(g, d, o);
  }

  lemma FreedBits(g: G, d: G, o: Ref)
    requires BitsOK(g) && TwupsAlive(g) && o !in Alive(g) && o != g.mainthread && o !in g.fixedgc
    requires d == g.(heap := g.heap - {o}, marked := g.marked - {o}, upvals := d.upvals, allgc := d.allgc)
    ensures BitsOK(d)
  {
  }

  lemma SameShaped(g: G, d: G)
    requires Shaped(g) && d.heap == g.heap && d.upvals == g.upvals && d.marked == g.marked && d.top == g.top
    ensures Shaped(d)
  {
  }

  lemma SameWf(g: G, d: G)
    requires Wf(g) && d.heap == g.heap && d.upvals == g.upvals && d.marked == g.marked && d.cw == g.cw && d.top == g.top
    ensures Wf(d)
  {
  }

  // ----- Turning white -----

  function Whitened(g: G, o: Ref): G {
    g.(marked := g.marked[o := White(g.cw)])
  }

  lemma WhitenedAlive(g: G, o: Ref)
    requires o in Alive(g)
    ensures Alive(Whitened(g, o)) == Alive(g) && Whitened(g, o).marked.Keys == g.marked.Keys
  {
  }

  lemma WhitenedCore(g: G, o: Ref)
    requires Core(g) && o in Alive(g) && o !in g.fixedgc
    ensures Core(Whitened(g, o))
  {
    WhitenedAlive(g, o);
    var d := Whitened(g, o);
    assert Wf(d);
    assert TwupsAlive(d);
  }

  lemma WhitenedFramed(g: G, o: Ref)
    requires Framed(g) && o in Alive(g) && o !in g.fixedgc
    ensures Framed(Whitened(g, o))
  {
    WhitenedAlive(g, o);
    assert TwupsAlive(Whitened(g, o));
  }

  // ----- sweeplist -----

  method SetList(g: GlobalState, w: Which, l: seq<Ref>)
    modifies g
    ensures g.Snap() == WithList(old(g.Snap()), w, l)
  {
    match w {
      case AllGc => g.allgc := l;
      case FinObj => g.finobj := l;
      case ToBeFnz => g.tobefnz := l;
    }
  }

  /** 'freeobj' is called on objects that the program cannot reach, as long as the references of
      live objects are in order. */
  method FreeObj(g: GlobalState, o: Ref)
    requires o in g.heap && (Core(g.Snap()) ==> !Reachable(g.Snap(), o))
    modifies g
    ensures g.Snap() == Freed(old(g.Snap()), o)
    ensures g.heap == old(g.heap) - {o} && g.marked == old(g.marked) - {o} && g.upvals.Keys == old(g.upvals).Keys
    ensures forall u :: u in g.upvals ==>
              g.upvals[u] == if old(g.heap)[o].Thread? && old(g.upvals)[u].Open? && old(g.upvals)[u].th == o
                             then Closed(UpValue(old(g.heap), old(g.upvals), u)) else old(g.upvals)[u]
  {
    if g.heap[o].Thread? {
      g.upvals := CloseAll(g.heap, g.upvals, o);
    }
    g.heap := g.heap - {o};
    g.marked := g.marked - {o};
  }

  /** The pointer p stands before element k of l. */
  predicate Before(l: seq<Ref>, p: Ptr, k: nat) {
    k <= |l| && !p.Null? && (p.Next? ==> p.ref in l) && Pos(l, p) == k
  }

  /** One element: freed if dead, white again otherwise. */
  ghost predicate SweptOne(g: G, d: G, w: Which, k: nat)
    requires k < |ListOf(g, w)|
  {
    var l := ListOf(g, w);
    var o := l[k];
    if o in Alive(g) then d == Whitened(g, o)
    else o in g.heap && d == WithList(Freed(g, o), w, l[..k] + l[k + 1..])
  }

  method SweepOne(g: GlobalState, w: Which, k: nat) returns (live: bool)
    requires Framed(g.Snap()) && k < |ListOf(g.Snap(), w)|
    modifies g
    ensures SweptOne(old(g.Snap()), g.Snap(), w, k) && Framed(g.Snap())
    ensures live == (ListOf(old(g.Snap()), w)[k] in Alive(old(g.Snap())))
  {
    hide Framed, Core, Reachable;
    ghost var s := g.Snap();
    var l := match w { case AllGc => g.allgc case FinObj => g.finobj case ToBeFnz => g.tobefnz };
    var curr := l[k];
    ListedFacts(s, w, k);
    live := g.marked[curr] != White(!g.cw);
    if live {
      WhitenedFramed(s, curr);
      g.marked := g.marked[curr := White(g.cw)];
    } else {
      DeadInAllGc(s, w, k);
      FreedFramed(s, k);
      if Core(s) { NotReachable(s, curr); }
      FreeObj(g, curr);
      SetList(g, w, l[..k] + l[k + 1..]);
    }
  }

  lemma NotReachable(g: G, o: Ref)
    requires Core(g) && o !in Alive(g)
    ensures !Reachable(g, o)
  {
    if Reachable(g, o) { ReachableAlive(g, o); }
  }

  lemma ListedFacts(g: G, w: Which, k: nat)
    requires Framed(g) && k < |ListOf(g, w)|
    ensures var o := ListOf(g, w)[k]; o in g.heap && o in g.marked && o !in g.fixedgc && o != g.mainthread
    ensures var o := ListOf(g, w)[k]; g.marked[o] != White(!g.cw) <==> o in Alive(g)
  {
    var o := ListOf(g, w)[k];
    assert o in ListOf(g, w);
    OneList(g, o);
    InMultiset(g.allgc, o);
    InMultiset(g.finobj, o);
    InMultiset(g.tobefnz, o);
    InMultiset(g.fixedgc, o);
  }

  /** Sweeping leads from g to d: dead objects of list w disappeared, some live ones are white. */
  ghost predicate Sweeps(g: G, d: G, w: Which) {
    && d == WithList(g, w, ListOf(d, w)).(heap := d.heap, upvals := d.upvals, marked := d.marked)
    && Alive(d) == Alive(g) && d.heap.Keys <= g.heap.Keys && Alive(g) * g.heap.Keys <= d.heap.Keys
    && (forall r :: r in d.heap ==> d.heap[r] == g.heap[r]) && SameUpvals(g, d)
    && (forall r :: r in d.marked ==> r in g.marked && (d.marked[r] == g.marked[r] || d.marked[r] == White(g.cw)))
    && (forall r :: r in ListOf(d, w) ==> r in ListOf(g, w))
    && (forall r :: r in ListOf(g, w) && r in Alive(g) ==> r in ListOf(d, w))
    && (w != AllGc ==> ListOf(d, w) == ListOf(g, w))
  }

  /** Upvalues keep their values; those of freed threads were closed. */
  ghost predicate SameUpvals(g: G, d: G) {
    && d.upvals.Keys == g.upvals.Keys
    && (forall u :: UpValue(d.heap, d.upvals, u) == UpValue(g.heap, g.upvals, u))
    && forall u :: u in g.upvals && d.upvals[u] != g.upvals[u] ==>
         d.upvals[u].Closed? && g.upvals[u].Open? && g.upvals[u].th !in d.heap
  }

  lemma SameUpvalsTrans(g: G, m: G, d: G)
    requires SameUpvals(g, m) && SameUpvals(m, d) && d.heap.Keys <= m.heap.Keys
    ensures SameUpvals(g, d)
  {
    forall u ensures UpValue(d.heap, d.upvals, u) == UpValue(g.heap, g.upvals, u) {
      assert UpValue(m.heap, m.upvals, u) == UpValue(g.heap, g.upvals, u);
    }
  }

  /** Live objects and what they refer to do not change. */
  lemma SweepsRefs(g: G, d: G, w: Which)
    requires Sweeps(g, d, w) && Shaped(g)
    ensures RefsAlive(g) ==> RefsAlive(d)
    ensures RefsBut(g) ==> RefsBut(d)
    ensures MetasAlive(d) == MetasAlive(g)
  {
    forall r, o | r in g.heap && RefsIn(g.heap, g.upvals, o, Alive(g)) ensures RefsIn(d.heap, d.upvals, o, Alive(d)) {
      if o.LCl? {
        forall i | 0 <= i < |o.ups| ensures In(UpValue(d.heap, d.upvals, o.ups[i]), Alive(d)) {
          assert UpValue(d.heap, d.upvals, o.ups[i]) == UpValue(g.heap, g.upvals, o.ups[i]);
        }
      }
    }
    forall r | r in Alive(g) ensures r in g.heap ==> r in d.heap {}
    assert d.allweak == g.allweak;
  }

  lemma SweepsRefl(g: G, w: Which)
    ensures Sweeps(g, g, w)
  {
  }

  lemma SweepsTrans(g: G, m: G, d: G, w: Which)
    requires Sweeps(g, m, w) && Sweeps(m, d, w)
    ensures Sweeps(g, d, w)
  {
    SameUpvalsTrans(g, m, d);
  }

  lemma SweptSweeps(g: G, d: G, w: Which, k: nat)
    requires Framed(g) && k < |ListOf(g, w)| && SweptOne(g, d, w, k)
    ensures Sweeps(g, d, w)
  {
    hide TwupsAlive, RootsIn, FinIn, BitsOK;
    var l := ListOf(g, w);
    if l[k] in Alive(g) {
      WhitenedAlive(g, l[k]);
    } else {
      forall u ensures UpValue(Freed(g, l[k]).heap, Freed(g, l[k]).upvals, u) == UpValue(g.heap, g.upvals, u) {
        FreedUp(g, l[k], u);
      }
      CutMultiset(l, k);
      DeadInAllGc(g, w, k);
      FreedAlive(g, l[k]);
    }
  }

  lemma FreedAlive(g: G, o: Ref)
    requires o in g.heap && o !in Alive(g)
    ensures Alive(Freed(g, o)) == Alive(g)
  {
  }

  /** After one element the passed part is still white, and one longer if the element lived. */
  lemma SweptPassed(g: G, d: G, w: Which, k: nat)
    requires Framed(g) && k < |ListOf(g, w)| && SweptOne(g, d, w, k) && AllWhite(g, ListOf(g, w)[..k])
    ensures var l, l' := ListOf(g, w), ListOf(d, w);
            if l[k] in Alive(g) then l' == l && AllWhite(d, l[..k + 1])
            else l' == l[..k] + l[k + 1..] && AllWhite(d, l'[..k]) && l'[..k] == l[..k]
  {
    hide Shaped, TwupsAlive, RootsIn, FinIn, BitsOK;
    var l, l' := ListOf(g, w), ListOf(d, w);
    ListsNoDups(g);
    if l[k] in Alive(g) {
      forall r | r in l[..k + 1] ensures r in d.marked && d.marked[r] == White(d.cw) {
        if r != l[k] { assert r in l[..k]; }
      }
    } else {
      assert l'[..k] == l[..k];
      forall r | r in l[..k] ensures r != l[k] {
        var i :| 0 <= i < k && l[i] == r;
      }
    }
  }

  lemma BeforeNext(l: seq<Ref>, k: nat)
    requires NoDups(l) && 0 < k <= |l|
    ensures Before(l, Next(l[k - 1]), k)
  {
    assert l[k - 1] in l;
    assert IndexOf(l, l[k - 1]) == k - 1;
  }

  /** Cutting out an element behind the pointer does not move the pointer. */
  lemma BeforeCut(l: seq<Ref>, p: Ptr, k: nat)
    requires NoDups(l) && Before(l, p, k) && k < |l|
    ensures Before(l[..k] + l[k + 1..], p, k) && NoDups(l[..k] + l[k + 1..])
  {
    var l' := l[..k] + l[k + 1..];
    forall i, j | 0 <= i < j < |l'| ensures l'[i] != l'[j] {
      assert l'[i] == l[if i < k then i else i + 1] && l'[j] == l[if j < k then j else j + 1];
    }
    if p.Next? {
      assert l[k - 1] == p.ref && l'[k - 1] == p.ref;
      BeforeNext(l', k);
    }
  }

  /** The sweeper in list w: it started at p before element k0 and is at q before element k. */
  ghost predicate Going(g: G, d: G, w: Which, p: Ptr, q: Ptr, k0: nat, k: nat) {
    var l, l' := ListOf(g, w), ListOf(d, w);
    && Framed(d) && Sweeps(g, d, w) && NoDups(l') && Before(l, p, k0) && NoDups(l)
    && Before(l', q, k) && AllWhite(d, l'[..k]) && |l'| <= |l|
    && k0 <= k && l'[..k0] == l[..k0]
    && (if k == k0 then q == p else q != p)
  }

  lemma GoOn(g: G, s: G, d: G, w: Which, p: Ptr, q: Ptr, k0: nat, k: nat)
    requires Going(g, s, w, p, q, k0, k) && k < |ListOf(s, w)| && SweptOne(s, d, w, k) && Framed(d)
    ensures var o := ListOf(s, w)[k];
            if o in Alive(s) then Going(g, d, w, p, Next(o), k0, k + 1)
            else Going(g, d, w, p, q, k0, k) && |ListOf(d, w)| == |ListOf(s, w)| - 1
    ensures ListOf(s, w)[k] in Alive(s) ==> |ListOf(d, w)| == |ListOf(s, w)|
  {
    hide Framed, Sweeps, SweptOne, AllWhite, Pos;
    var o := ListOf(s, w)[k];
    SweptSweeps(s, d, w, k);
    SweptPassed(s, d, w, k);
    SweepsTrans(g, s, d, w);
    CoreNoDups(d, w);
    if o in Alive(s) {
      BeforeNext(ListOf(d, w), k + 1);
      NextMoves(ListOf(g, w), ListOf(d, w), p, k0, k + 1);
    } else {
      BeforeCut(ListOf(s, w), q, k);
      assert ListOf(d, w)[..k0] == ListOf(s, w)[..k][..k0] == ListOf(s, w)[..k0];
    }
  }

  lemma GoingEnd(g: G, d: G, w: Which, p: Ptr, q: Ptr, k0: nat, k: nat)
    requires Going(g, d, w, p, q, k0, k)
    ensures var l := ListOf(d, w); var r := if k == |l| then Null else q;
            (r.Next? ==> r.ref in l) && AllWhite(d, l[..Pos(l, r)]) && (r.Null? || Pos(l, r) < |l|)
    ensures Framed(d) && Sweeps(g, d, w) && |ListOf(d, w)| <= |ListOf(g, w)| && k <= |ListOf(d, w)|
    ensures (q.Next? ==> q.ref in ListOf(d, w)) && Pos(ListOf(d, w), q) == k
  {
    var l := ListOf(d, w);
    assert l[..|l|] == l;
  }

  lemma GoingStart(g: G, w: Which, p: Ptr)
    requires Framed(g)
    requires var l := ListOf(g, w); !p.Null? && (p.Next? ==> p.ref in l) && AllWhite(g, l[..Pos(l, p)])
    ensures var k := Pos(ListOf(g, w), p); Going(g, g, w, p, p, k, k)
  {
    SweepsRefl(g, w);
    CoreNoDups(g, w);
  }

  /** The sweeper got from index j to the element that is at index k now: nothing from there on has
      been swept. */
  ghost predicate Ahead(g: G, d: G, w: Which, j: nat, k: nat) {
    var l, l' := ListOf(g, w), ListOf(d, w);
    j <= |l| && k <= |l'| && l'[k..] == l[j..] && forall r :: r in l[j..] && r in g.marked ==> r in d.marked && d.marked[r] == g.marked[r]
  }

  lemma TailOn(l: seq<Ref>, j: nat, m: seq<Ref>, k: nat)
    requires NoDups(m) && j <= |l| && k < |m| && m[k..] == l[j..]
    ensures j < |l| && m[k + 1..] == l[j + 1..] && (m[..k] + m[k + 1..])[k..] == m[k + 1..]
    ensures forall r :: r in l[j + 1..] ==> r in l[j..] && r != m[k]
  {
    assert m[k..] == [m[k]] + m[k + 1..] && l[j..] == [l[j]] + l[j + 1..];
    var tail := m[k + 1..];
    forall i | 0 <= i < |tail| ensures tail[i] != m[k] { assert m[k + 1 + i] == tail[i]; }
  }

  lemma AheadOn(g: G, s: G, d: G, w: Which, j: nat, k: nat)
    requires Ahead(g, s, w, j, k) && k < |ListOf(s, w)| && SweptOne(s, d, w, k) && Framed(s)
    ensures j < |ListOf(g, w)|
    ensures Ahead(g, d, w, j + 1, if ListOf(s, w)[k] in Alive(s) then k + 1 else k)
  {
    CoreNoDups(s, w);
    hide Framed, NoDups, Living;
    SweptList(s, d, w, k);
    SweptMarks(s, d, w, k);
    hide SweptOne, ListOf, Marked;
    var l, m := ListOf(g, w), ListOf(s, w);
    TailOn(l, j, m, k);
    SameMarks(l[j..], l[j + 1..], g.marked, s.marked, d.marked, m[k]);
  }

  lemma SameMarks(t: seq<Ref>, t': seq<Ref>, a: map<Ref, Color>, b: map<Ref, Color>, c: map<Ref, Color>, o: Ref)
    requires forall r :: r in t && r in a ==> r in b && b[r] == a[r]
    requires forall r :: r in b && r != o ==> r in c && c[r] == b[r]
    requires forall r :: r in t' ==> r in t && r != o
    ensures forall r :: r in t' && r in a ==> r in c && c[r] == a[r]
  {
  }

  lemma SweptList(s: G, d: G, w: Which, k: nat)
    requires k < |ListOf(s, w)| && SweptOne(s, d, w, k)
    ensures var m := ListOf(s, w); ListOf(d, w) == if m[k] in Alive(s) then m else m[..k] + m[k + 1..]
  {
  }

  lemma SweptMarks(s: G, d: G, w: Which, k: nat)
    requires k < |ListOf(s, w)| && SweptOne(s, d, w, k)
    ensures forall r :: r in s.marked && r != ListOf(s, w)[k] ==> r in d.marked && d.marked[r] == s.marked[r]
  {
    hide CloseAll;
  }

  /** The sweeper after 'done' elements. */
  ghost predicate Underway(g: G, d: G, w: Which, p: Ptr, q: Ptr, k0: nat, k: nat, done: nat) {
    && Framed(d) && Going(g, d, w, p, q, k0, k) && Ahead(g, d, w, k0 + done, k) && k <= |ListOf(d, w)|
    && |ListOf(d, w)| - k == |ListOf(g, w)| - k0 - done && k0 <= k && (q == p <==> k == k0) && (q.Head? ==> p.Head?)
    && (done > 0 && k == k0 ==> |ListOf(d, w)| < |ListOf(g, w)|)
  }

  lemma UnderwayStart(g: G, w: Which, p: Ptr, k: nat)
    requires Framed(g)
    requires var l := ListOf(g, w); !p.Null? && (p.Next? ==> p.ref in l) && AllWhite(g, l[..Pos(l, p)]) && k == Pos(l, p)
    ensures Underway(g, g, w, p, p, k, k, 0)
  {
    hide Framed, AllWhite, Pos, ListOf, Going;
    GoingStart(g, w, p);
    AheadStart(g, w, k);
  }

  lemma UnderwayNext(g: G, s: G, d: G, w: Which, p: Ptr, q: Ptr, k0: nat, k: nat, done: nat)
    requires Underway(g, s, w, p, q, k0, k, done) && k < |ListOf(s, w)| && SweptOne(s, d, w, k) && Framed(d)
    ensures var o := ListOf(s, w)[k];
            if o in Alive(s) then Underway(g, d, w, p, Next(o), k0, k + 1, done + 1) else Underway(g, d, w, p, q, k0, k, done + 1)
  {
    hide Framed, Going, SweptOne, ListOf, Ahead, Living;
    GoOn(g, s, d, w, p, q, k0, k);
    AheadOn(g, s, d, w, k0 + done, k);
    if ListOf(s, w)[k] in Alive(s) {
      GoingMoved(g, d, w, p, Next(ListOf(s, w)[k]), k0, k + 1);
      GoingEnd(g, d, w, p, Next(ListOf(s, w)[k]), k0, k + 1);
    } else {
      GoingMoved(g, d, w, p, q, k0, k);
      GoingEnd(g, d, w, p, q, k0, k);
    }
  }

  /** 'sweeplist': at most 'count' elements from p on; the result is Null at the end of the list. */
  method SweepList(g: GlobalState, w: Which, p: Ptr, count: nat) returns (q: Ptr)
    requires Framed(g.Snap())
    requires var l := ListOf(g.Snap(), w);
             !p.Null? && (p.Next? ==> p.ref in l) && AllWhite(g.Snap(), l[..Pos(l, p)])
    modifies g
    ensures Framed(g.Snap()) && Sweeps(old(g.Snap()), g.Snap(), w)
    ensures var l := ListOf(g.Snap(), w);
            (q.Next? ==> q.ref in l) && AllWhite(g.Snap(), l[..Pos(l, q)]) && (q.Null? || Pos(l, q) < |l|)
    ensures q == p && count > 0 ==> |ListOf(g.Snap(), w)| < |ListOf(old(g.Snap()), w)|
    ensures q.Head? ==> p.Head?
    ensures var l, l' := ListOf(old(g.Snap()), w), ListOf(g.Snap(), w);
            count > 0 && !q.Null? ==> |l'| - Pos(l', q) < |l| - Pos(l, p)
    ensures |ListOf(g.Snap(), w)| <= |ListOf(old(g.Snap()), w)|
    ensures SweptFew(old(g.Snap()), g.Snap(), w, p, q, count)
  {
    hide Framed, Sweeps, SweptOne, Going, AllWhite, Pos, ListOf, Underway, SweptFew;
    ghost var s0 := g.Snap();
    var k: nat := Pos(ListIn(g, w), p);
    ghost var k0 := k;
    var n: nat := count;
    q := p;
    UnderwayStart(s0, w, p, k0);
    while k < |ListIn(g, w)| && n > 0
      invariant n <= count && Underway(s0, g.Snap(), w, p, q, k0, k, count - n)
      invariant Framed(g.Snap())
      decreases n
    {
      n := n - 1;
      ghost var s := g.Snap();
      var curr := ListIn(g, w)[k];
      var live := SweepOne(g, w, k);
      UnderwayNext(s0, s, g.Snap(), w, p, q, k0, k, count - n - 1);
      if live {
        k := k + 1;
        q := Next(curr);
      }
    }
    UnderwayEnd(s0, g.Snap(), w, p, q, count, n, k0, k);
    if k == |ListIn(g, w)| { q := Null; }
  }

  lemma UnderwayEnd(g: G, d: G, w: Which, p: Ptr, q: Ptr, count: nat, n: nat, k0: nat, k: nat)
    requires n <= count && Underway(g, d, w, p, q, k0, k, count - n) && (n == 0 || k >= |ListOf(d, w)|)
    requires !p.Null? && (p.Next? ==> p.ref in ListOf(g, w)) && k0 == Pos(ListOf(g, w), p)
    ensures k <= |ListOf(d, w)| && Sweeps(g, d, w) && |ListOf(d, w)| <= |ListOf(g, w)|
    ensures var l := ListOf(d, w); var r := if k == |l| then Null else q;
            && (r.Next? ==> r.ref in l) && AllWhite(d, l[..Pos(l, r)]) && (r.Null? || Pos(l, r) < |l|)
            && (r == p && count > 0 ==> |l| < |ListOf(g, w)|) && (r.Head? ==> p.Head?)
            && (count > 0 && !r.Null? ==> |l| - Pos(l, r) < |ListOf(g, w)| - Pos(ListOf(g, w), p))
            && SweptFew(g, d, w, p, r, count)
  {
    hide Framed, Sweeps, Going, AllWhite, Pos, ListOf, Ahead, SweptFew;
    GoingEnd(g, d, w, p, q, k0, k);
    FewSwept(g, d, w, p, q, count, n, k0, k);
  }

  /** Exactly 'count' elements behind p were swept, or all that there are; q is behind them. */
  ghost predicate SweptFew(g: G, d: G, w: Which, p: Ptr, q: Ptr, count: nat) {
    var l, l' := ListOf(g, w), ListOf(d, w);
    && (p.Next? ==> p.ref in l) && (q.Next? ==> q.ref in l')
    && Ahead(g, d, w, if count < |l| - Pos(l, p) then Pos(l, p) + count else |l|, Pos(l', q))
  }

  lemma FewSwept(g: G, d: G, w: Which, p: Ptr, q: Ptr, count: nat, n: nat, k0: nat, k: nat)
    requires n <= count && Ahead(g, d, w, k0 + (count - n), k) && (n == 0 || k == |ListOf(d, w)|)
    requires (p.Next? ==> p.ref in ListOf(g, w)) && (q.Next? ==> q.ref in ListOf(d, w))
    requires Pos(ListOf(g, w), p) == k0 && Pos(ListOf(d, w), q) == k
    requires |ListOf(d, w)| - k == |ListOf(g, w)| - k0 - (count - n)
    ensures SweptFew(g, d, w, p, if k == |ListOf(d, w)| then Null else q, count)
  {
    hide ListOf;
    PosNull(ListOf(d, w));
  }

  lemma AheadStart(g: G, w: Which, k: nat)
    requires k <= |ListOf(g, w)|
    ensures Ahead(g, g, w, k, k)
  {
  }

  lemma PosNull(l: seq<Ref>)
    ensures Pos(l, Null) == |l|
  {
  }

  lemma GoingMoved(g: G, d: G, w: Which, p: Ptr, q: Ptr, k0: nat, k: nat)
    requires Going(g, d, w, p, q, k0, k)
    ensures k0 <= k && (q == p <==> k == k0) && Framed(d)
  {
  }

  function ListIn(g: GlobalState, w: Which): (l: seq<Ref>)
    reads g
    ensures l == ListOf(g.Snap(), w)
  {
    match w
    case AllGc => g.allgc
    case FinObj => g.finobj
    case ToBeFnz => g.tobefnz
  }

  lemma CoreNoDups(g: G, w: Which)
    requires Framed(g)
    ensures NoDups(ListOf(g, w))
  {
    ListsNoDups(g);
  }

  /** A pointer further on is a different pointer. */
  lemma NextMoves(l: seq<Ref>, l': seq<Ref>, p: Ptr, k0: nat, k: nat)
    requires NoDups(l') && k0 < k <= |l'| && Before(l, p, k0) && l'[..k0] == l[..k0]
    ensures Next(l'[k - 1]) != p
  {
    if p.Next? {
      assert l[k0 - 1] == p.ref && l'[k0 - 1] == l[..k0][k0 - 1];
    }
  }
}
