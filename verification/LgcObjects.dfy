/** Creation of objects, objects with finalizers, fixed objects. */
module LgcObjects {
  import opened LgcHeap
  import opened LgcGrow
  import opened LgcMark
  import opened LgcPropagate
  import opened LgcAtomic
  import opened LgcInv
  import opened LgcSweep
  import opened LgcStep
  import opened LgcCycle
  import opened LgcBarrier
  import opened LgcMutator

  // ----- luaC_newobj -----

  function Created(g: G, n: Object): G {
    g.(heap := g.heap[g.top := n], marked := g.marked[g.top := White(g.cw)], allgc := [g.top] + g.allgc, top := g.top + 1)
  }

  /** Contents with which an object can be born: live references, existing upvalues. */
  predicate Newborn(g: G, n: Object) {
    && RefsIn(g.heap, g.upvals, n, Alive(g)) && KeysBelow(n, g.top)
    && (n.LCl? ==> forall i :: 0 <= i < |n.ups| ==> n.ups[i] in g.upvals)
  }

  lemma CreatedAlive(g: G, n: Object)
    requires Wf(g)
    ensures g.top !in g.heap && g.top !in g.marked
    ensures Alive(Created(g, n)) == Alive(g) + {g.top} && Marks(Created(g, n)) == Marks(g)
  {
    assert g.top !in g.heap;
  }

  lemma CreatedWf(g: G, n: Object)
    requires Wf(g) && Newborn(g, n)
    ensures Wf(Created(g, n))
  {
    var d := Created(g, n);
    CreatedAlive(g, n);
    assert forall u :: u in g.upvals ==> UpValue(d.heap, d.upvals, u) == UpValue(g.heap, g.upvals, u);
    forall r | r in Alive(d) && r in d.heap ensures RefsIn(d.heap, d.upvals, d.heap[r], Alive(d)) {
      assert RefsIn(g.heap, g.upvals, d.heap[r], Alive(g));
      RefsMono(g.heap, g.upvals, d.heap[r], Alive(g), Alive(d));
    }
    forall r | r in d.heap ensures r < d.top && KeysBelow(d.heap[r], d.top) {
      if r in g.heap { assert KeysBelow(g.heap[r], g.top); }
    }
  }

  lemma CreatedCore(g: G, n: Object)
    requires Core(g) && Newborn(g, n)
    ensures Core(Created(g, n))
  {
    var d := Created(g, n);
    CreatedWf(g, n);
    CreatedAlive(g, n);
    CreatedLists(g, n);
    assert TwupsAlive(d);
    assert BitsOK(d);
  }

  lemma CreatedLists(g: G, n: Object)
    requires ListsOK(g) && g.top !in g.heap && g.mainthread in g.heap
    ensures ListsOK(Created(g, n))
  {
    var d := Created(g, n);
    var s := g.heap.Keys - {g.mainthread};
    assert d.heap.Keys - {d.mainthread} == s + {g.top};
    assert multiset(s + {g.top}) == multiset(s) + multiset{g.top};
    assert multiset(d.allgc) == multiset{g.top} + multiset(g.allgc);
  }

  lemma CreatedTri(g: G, n: Object)
    requires Tri(g, {}, false) && Wf(g)
    ensures Tri(Created(g, n), {}, false)
  {
    var d := Created(g, n);
    CreatedAlive(g, n);
    forall r | r in d.marked && d.marked[r].Black? && r in d.heap
      ensures BlackIn(d.heap, d.upvals, d.heap[r], Marks(d), false)
    {
      assert BlackIn(g.heap, g.upvals, g.heap[r], Marks(g), false);
      if g.heap[r].LCl? {
        forall i | 0 <= i < |g.heap[r].ups| ensures UpIn(d.heap, d.upvals, g.heap[r].ups[i], Marks(d), false) {
          assert UpIn(g.heap, g.upvals, g.heap[r].ups[i], Marks(g), false);
        }
      } else if g.heap[r].Table? {
        forall i | 0 <= i < |g.heap[r].nodes| ensures NodeIn(d.heap, g.heap[r].nodes[i], Marks(d)) {
          assert NodeIn(g.heap, g.heap[r].nodes[i], Marks(g));
        }
      }
    }
  }

  lemma CreatedQueues(g: G, n: Object)
    requires Queued(g, {}, g.grayagain, []) && AllWaiting(g) && Wf(g) && KeepInvariant(g.gcstate)
    requires g.weak == [] && g.ephemeron == []
    ensures Queued(Created(g, n), {}, g.grayagain, []) && AllWaiting(Created(g, n))
  {
    var d := Created(g, n);
    CreatedAlive(g, n);
    forall a | MarkedTable(g, a) ensures MarkedTable(d, a) {}
    forall a | Idle(d, {}, d.grayagain, a) ensures Waiting(d, a, Marks(d)) && Parked(d, a, [], Marks(d)) {
      assert Idle(g, {}, g.grayagain, a);
    }
  }

  /** A white object in front of the list does not disturb the sweeper. */
  lemma CreatedPassed(l: seq<Ref>, p: Ptr, o: Ref)
    requires (p.Next? ==> p.ref in l) && o !in l
    ensures p.Next? ==> p.ref in [o] + l
    ensures Pos([o] + l, p) == if p.Head? then 0 else Pos(l, p) + 1
  {
    if p.Next? {
      assert ([o] + l)[1..] == l;
    }
  }

  lemma CreatedPhase(g: G, n: Object)
    requires Core(g) && Phase(g) && !KeepInvariant(g.gcstate)
    ensures Phase(Created(g, n))
  {
    var d := Created(g, n);
    var o := g.top;
    CreatedAlive(g, n);
    assert o !in g.allgc by { OneList(g, o); InMultiset(g.allgc, o); }
    if g.gcstate == SwpAllGc {
      CreatedPassed(g.allgc, g.sweepgc, o);
      var k := Pos(g.allgc, g.sweepgc);
      assert d.allgc[..k + 1] == [o] + g.allgc[..k];
    }
  }

  /** 'luaC_newobj': a new object has the current white. */
  method NewObject(g: GlobalState, n: Object) returns (o: Ref)
    requires Inv(g.Snap()) && Newborn(g.Snap(), n)
    modifies g
    ensures Inv(g.Snap()) && o !in old(g.heap) && g.heap == old(g.heap)[o := n] && o in Alive(g.Snap())
    ensures g.allgc == [o] + old(g.allgc) && g.Snap() == Created(old(g.Snap()), n) && g.marked == old(g.marked)[o := White(g.cw)]
    ensures MetasMarked(old(g.Snap())) ==> MetasMarked(g.Snap())
  {
    hide Inv, Newborn, Living, MetasMarked;
    ghost var s := g.Snap();
    o := g.top;
    CreatedInv(s, n);
    g.heap := g.heap[o := n];
    g.marked := g.marked[o := White(g.cw)];
    g.allgc := [o] + g.allgc;
    g.top := g.top + 1;
    CreatedMetas(s, n);
  }

  lemma CreatedMetas(g: G, n: Object)
    requires Inv(g)
    ensures MetasMarked(g) ==> MetasMarked(Created(g, n))
  {
    if KeepInvariant(g.gcstate) {
      assert g.top !in g.allweak;
      assert Marks(Created(g, n)) == Marks(g) by { CreatedAlive(g, n); }
    }
  }

  lemma CreatedInv(g: G, n: Object)
    requires Inv(g) && Newborn(g, n)
    ensures Inv(Created(g, n)) && g.top !in g.heap && g.top in Alive(Created(g, n))
  {
    hide Core, Tri, Queued, AllWaiting, Phase;
    InvWf(g);
    CreatedCore(g, n);
    CreatedAlive(g, n);
    if KeepInvariant(g.gcstate) {
      InvMark(g);
      CreatedTri(g, n);
      CreatedQueues(g, n);
      MarkPhaseOf(Created(g, n));
    } else {
      CreatedPhase(g, n);
    }
  }

  lemma InvWf(g: G)
    requires Inv(g)
    ensures Core(g) && Wf(g) && Phase(g)
  {
  }

  lemma MarkPhaseOf(g: G)
    requires Core(g) && MarkPhase(g) && KeepInvariant(g.gcstate)
    ensures Inv(g)
  {
  }

  // ----- Strings: resurrection and fixed ones -----

  /** A dead string is alive again ('changewhite'). */
  lemma RevivedCore(g: G, o: Ref)
    requires Core(g) && IsString(g.heap, o) && o in g.marked && g.marked[o] == White(!g.cw)
    ensures Core(Whitened(g, o)) && Alive(Whitened(g, o)) == Alive(g) + {o} && o !in g.fixedgc
  {
    var d := Whitened(g, o);
    assert Alive(d) == Alive(g) + {o};
    forall r | r in Alive(d) && r in d.heap ensures RefsIn(d.heap, d.upvals, d.heap[r], Alive(d)) {
      if r != o { RefsMono(g.heap, g.upvals, g.heap[r], Alive(g), Alive(d)); }
    }
    assert TwupsAlive(d);
  }

  lemma DeadLater(g: G, o: Ref)
    requires Inv(g) && o in g.marked && g.marked[o] == White(!g.cw)
    ensures !KeepInvariant(g.gcstate)
  {
    assert KeepInvariant(g.gcstate) ==> Alive(g) == g.marked.Keys;
  }

  lemma RevivedInv(g: G, o: Ref)
    requires Inv(g) && IsString(g.heap, o) && o in g.marked && g.marked[o] == White(!g.cw)
    ensures Inv(Whitened(g, o)) && !KeepInvariant(g.gcstate)
  {
    hide Core;
    InvWf(g);
    RevivedCore(g, o);
    DeadLater(g, o);
    CoreLists(g);
    WhiterPhase(g, Whitened(g, o));
  }

  /** 'internshrstr' finds string o in the string table: it may be dead, but not swept yet. */
  method FindString(g: GlobalState, o: Ref)
    requires Inv(g.Snap()) && IsString(g.heap, o)
    modifies g`marked
    ensures Inv(g.Snap()) && o in Alive(g.Snap()) && Alive(g.Snap()) == Alive(old(g.Snap())) + {o}
    ensures g.marked == if o in Alive(old(g.Snap())) then old(g.marked) else old(g.marked)[o := White(g.cw)]
    ensures MetasMarked(old(g.Snap())) ==> MetasMarked(g.Snap())
  {
    hide Inv, MetasMarked;
    ghost var s := g.Snap();
    InvKeys(s);
    if g.marked[o] == White(!g.cw) {
      InvCore(s);
      RevivedInv(s, o);
      RevivedCore(s, o);
      g.marked := g.marked[o := White(g.cw)];
      NotMarking(g.Snap());
    } else {
      assert Alive(s) == Alive(s) + {o};
    }
  }

  lemma InvKeys(g: G)
    requires Inv(g)
    ensures g.marked.Keys == g.heap.Keys
  {
  }

  /** 'white2gray' */
  function White2Gray(m: map<Ref, Color>, o: Ref): map<Ref, Color> {
    if o in m && m[o].White? then m[o := Gray] else m
  }

  /** String o, at the head of 'allgc', is never collected any more. */
  function Fixed(g: G): G
    requires g.allgc != []
  {
    g.(allgc := g.allgc[1..], fixedgc := [g.allgc[0]] + g.fixedgc, marked := White2Gray(g.marked, g.allgc[0]))
  }

  lemma FixedLists(g: G)
    requires ListsOK(g) && g.allgc != []
    ensures ListsOK(Fixed(g))
  {
    assert g.allgc == [g.allgc[0]] + g.allgc[1..];
  }

  lemma FixedShape(g: G)
    requires Wf(g) && TwupsAlive(g) && g.allgc != [] && g.allgc[0] in Alive(g)
    ensures Wf(Fixed(g)) && TwupsAlive(Fixed(g)) && Alive(Fixed(g)) == Alive(g) && Fixed(g).marked.Keys == g.marked.Keys
  {
    hide RefsIn, KeysBelow;
    assert Alive(Fixed(g)) == Alive(g);
  }

  lemma FixedBits(g: G)
    requires BitsOK(g) && g.allgc != [] && IsString(g.heap, g.allgc[0]) && g.allgc[0] in g.marked
    ensures BitsOK(Fixed(g))
  {
  }

  lemma FixedCore(g: G)
    requires Core(g) && g.allgc != [] && IsString(g.heap, g.allgc[0]) && g.allgc[0] in Alive(g)
    ensures Core(Fixed(g)) && Alive(Fixed(g)) == Alive(g)
  {
    hide Wf, TwupsAlive, BitsOK, ListsOK, White2Gray;
    FixedLists(g);
    FixedShape(g);
    FixedBits(g);
  }

  lemma FixedOnce(g: G)
    requires Core(g) && g.allgc != []
    ensures var o := g.allgc[0]; o !in g.allgc[1..] && o !in g.finobj && o !in g.tobefnz
  {
    hide Wf, TwupsAlive, RootsIn, FinIn, BitsOK;
    var o := g.allgc[0];
    ListsNoDups(g);
    OneList(g, o);
    InMultiset(g.allgc, o);
    InMultiset(g.finobj, o);
    InMultiset(g.tobefnz, o);
  }

  lemma FixedWhite(g: G, l: seq<Ref>)
    requires AllWhite(g, l) && g.allgc != [] && g.allgc[0] !in l
    ensures AllWhite(Fixed(g), l)
  {
  }

  lemma FixedAllGc(g: G)
    requires ListsOK(g) && Passed(g, g.allgc) && g.allgc != [] && g.sweepgc != Next(g.allgc[0]) && g.sweepgc != Head
    requires g.allgc[0] !in g.allgc[1..]
    ensures Passed(Fixed(g), Fixed(g).allgc)
  {
    var l := g.allgc[1..];
    MovedPassed(g, 0);
    assert g.allgc[..0] + g.allgc[1..] == l;
    FixedWhite(g, l[..Pos(l, g.sweepgc)]) by {
      forall r | r in l[..Pos(l, g.sweepgc)] ensures r in l {}
    }
  }

  lemma FixedPhase(g: G)
    requires Core(g) && Phase(g) && !KeepInvariant(g.gcstate) && g.allgc != [] && g.allgc[0] in Alive(g)
    requires g.sweepgc != Next(g.allgc[0])
    ensures Phase(Fixed(g))
  {
    hide Core, AllWhite, Pos;
    CoreLists(g);
    FixedOnce(g);
    var o := g.allgc[0];
    assert g.allgc == [o] + g.allgc[1..];
    match g.gcstate
    case SwpAllGc =>
      FixedAllGc(g);
    case SwpFinObj =>
      RestWhite(g);
      FixedWhite(g, g.allgc[1..]);
      FixedPassed(g, g.finobj, o);
    case SwpToBeFnz =>
      RestWhite(g);
      FixedWhite(g, g.allgc[1..]);
      FixedWhite(g, g.finobj);
      FixedPassed(g, g.tobefnz, o);
    case SwpEnd =>
      RestWhite(g);
      FixedWhite(g, g.allgc[1..]);
      FixedWhite(g, g.finobj);
      FixedWhite(g, g.tobefnz);
    case _ =>
  }

  lemma RestWhite(g: G)
    requires AllWhite(g, g.allgc) && g.allgc != []
    ensures AllWhite(g, g.allgc[1..])
  {
  }

  lemma FixedPassed(g: G, l: seq<Ref>, o: Ref)
    requires Passed(g, l) && o !in l && g.allgc != [] && o == g.allgc[0]
    ensures Passed(Fixed(g), l)
  {
    forall r | r in l[..Pos(l, g.sweepgc)] ensures r in l {}
  }

  lemma FixedTri(g: G)
    requires Tri(g, {}, false) && g.allgc != [] && g.allgc[0] in g.marked
    ensures Tri(Fixed(g), {}, false) && Marks(g) <= Marks(Fixed(g))
  {
    var d := Fixed(g);
    forall r | r in d.marked && d.marked[r].Black? && r in d.heap
      ensures BlackIn(d.heap, d.upvals, d.heap[r], Marks(d), false)
    {
      BlackMono(g.heap, g.upvals, g.heap[r], Marks(g), Marks(d), false);
    }
  }

  lemma FixedQueues(g: G)
    requires Queued(g, {}, g.grayagain, []) && AllWaiting(g) && KeepInvariant(g.gcstate)
    requires g.allgc != [] && IsString(g.heap, g.allgc[0]) && g.weak == [] && g.ephemeron == []
    ensures Queued(Fixed(g), {}, g.grayagain, []) && AllWaiting(Fixed(g))
  {
    var d := Fixed(g);
    forall r | MarkedTable(g, r) ensures MarkedTable(d, r) {}
    forall r | Idle(d, {}, d.grayagain, r) ensures Waiting(d, r, Marks(d)) && Parked(d, r, [], Marks(d)) {
      assert Idle(g, {}, g.grayagain, r);
    }
  }

  lemma FixedInv(g: G)
    requires Inv(g) && g.allgc != [] && IsString(g.heap, g.allgc[0]) && g.allgc[0] in Alive(g) && g.sweepgc != Next(g.allgc[0])
    ensures Inv(Fixed(g)) && Alive(Fixed(g)) == Alive(g) && (MetasMarked(g) ==> MetasMarked(Fixed(g)))
  {
    hide Core, Tri, Queued, AllWaiting, Phase, MetasMarked;
    InvWf(g);
    FixedCore(g);
    if KeepInvariant(g.gcstate) {
      InvMark(g);
      InvKeys(g);
      FixedTri(g);
      FixedQueues(g);
      MarkPhaseOf(Fixed(g));
      MetasFrame(g, Fixed(g));
    } else {
      FixedPhase(g);
      NotMarking(Fixed(g));
    }
  }

  /** With the sweeper right behind the object the invariant is lost: the pointer is in no list. */
  lemma FixedAstray(g: G)
    requires Inv(g) && g.allgc != [] && g.sweepgc == Next(g.allgc[0])
    ensures !Inv(Fixed(g))
  {
    hide Wf, AllWhite;
    var o := g.allgc[0];
    CoreLists(g);
    FixedOnce(g);
    assert o in g.allgc && o !in g.allgc[1..];
  }

  /** 'luaC_fix': the newest object, a string, moves to 'fixedgc' and is not white from then on. This keeps the
      invariant exactly if the sweeper does not stand right behind the object. */
  method Fix(g: GlobalState, o: Ref)
    requires Inv(g.Snap()) && g.allgc != [] && o == g.allgc[0] && IsString(g.heap, o) && o in Alive(g.Snap())
    modifies g`allgc, g`fixedgc, g`marked
    ensures Inv(g.Snap()) <==> g.sweepgc != Next(o)
    ensures g.Snap() == Fixed(old(g.Snap())) && g.allgc == old(g.allgc)[1..] && g.fixedgc == [o] + old(g.fixedgc)
    ensures g.marked == if o in old(g.marked) && old(g.marked)[o].White? then old(g.marked)[o := Gray] else old(g.marked)
    ensures g.sweepgc != Next(o) ==> Alive(g.Snap()) == Alive(old(g.Snap()))
    ensures g.sweepgc != Next(o) && MetasMarked(old(g.Snap())) ==> MetasMarked(g.Snap())
  {
    hide Inv, MetasMarked;
    if g.sweepgc == Next(o) {
      FixedAstray(g.Snap());
    } else {
      FixedInv(g.Snap());
    }
    g.marked := White2Gray(g.marked, o);
    g.allgc := g.allgc[1..];
    g.fixedgc := [o] + g.fixedgc;
  }

  // ----- luaC_checkfinalizer -----

  /** Object o, at index k of 'allgc', moves to 'finobj'. */
  function Moved(g: G, k: nat): G
    requires k < |g.allgc|
  {
    g.(allgc := g.allgc[..k] + g.allgc[k + 1..], finobj := [g.allgc[k]] + g.finobj, fin := g.fin + {g.allgc[k]})
  }

  lemma MovedCore(g: G, k: nat)
    requires Core(g) && k < |g.allgc| && g.allgc[k] in Alive(g)
    ensures Core(Moved(g, k))
  {
    hide Wf;
    var d := Moved(g, k);
    var o := g.allgc[k];
    CutMultiset(g.allgc, k);
    InMultiset(g.allgc, o);
    assert o in g.allgc;
    SameWf(g, d);
    assert TwupsAlive(d);
    assert ListsOK(d);
  }

  predicate AllIn(l: seq<Ref>, m: seq<Ref>) {
    forall i :: 0 <= i < |l| ==> l[i] in m
  }

  /** Cutting out an element that the pointer does not stand on: what was passed was passed
      before. */
  lemma CutPassed(l: seq<Ref>, k: nat, r: Ref)
    requires NoDups(l) && k < |l| && r in l && r != l[k]
    ensures var l' := l[..k] + l[k + 1..];
            r in l' && AllIn(l'[..IndexOf(l', r) + 1], l[..IndexOf(l, r) + 1])
  {
    var l' := l[..k] + l[k + 1..];
    var i := IndexOf(l, r);
    var j := if i < k then i else i - 1;
    assert l'[j] == r;
    forall a | 0 <= a < j ensures l'[a] != r {
      assert l'[a] == l[if a < k then a else a + 1];
    }
    FirstIndex(l', r, j);
    forall a | 0 <= a < j + 1 ensures l'[a] in l[..i + 1] {
      assert l[..i + 1][if a < k then a else a + 1] == l'[a];
    }
  }

  /** Cutting an element that the pointer does not stand on keeps what was passed. */
  lemma MovedPassed(g: G, k: nat)
    requires ListsOK(g) && Passed(g, g.allgc) && k < |g.allgc| && g.sweepgc != Next(g.allgc[k])
    requires g.sweepgc != Head
    ensures Passed(Moved(g, k), Moved(g, k).allgc)
  {
    hide ListsOK, NoDups, IndexOf;
    ListsNoDups(g);
    var l, l' := g.allgc, Moved(g, k).allgc;
    if g.sweepgc.Next? {
      CutPassed(l, k, g.sweepgc.ref);
    } else {
      assert l[..|l|] == l && l'[..|l'|] == l';
    }
  }

  lemma FirstIndex(l: seq<Ref>, r: Ref, j: nat)
    requires j < |l| && l[j] == r && forall a :: 0 <= a < j ==> l[a] != r
    ensures r in l && IndexOf(l, r) == j
  {
  }

  /** A white object in front of 'finobj' does not disturb the sweeper there. */
  lemma MovedFin(g: G, o: Ref)
    requires Passed(g, g.finobj) && o !in g.finobj && o in g.marked && g.marked[o] == White(g.cw)
    ensures Passed(g.(finobj := [o] + g.finobj), [o] + g.finobj)
  {
    CreatedPassed(g.finobj, g.sweepgc, o);
    var k := Pos(g.finobj, g.sweepgc);
    assert ([o] + g.finobj)[..k + 1] == [o] + g.finobj[..k];
  }

  lemma MovedPhase(g: G, k: nat)
    requires Core(g) && Phase(g) && !KeepInvariant(g.gcstate) && k < |g.allgc|
    requires IsSweepPhase(g.gcstate) ==> g.allgc[k] in g.marked && g.marked[g.allgc[k]] == White(g.cw)
    requires g.sweepgc != Next(g.allgc[k]) && (g.gcstate == SwpAllGc ==> g.sweepgc != Head)
    ensures Phase(Moved(g, k))
  {
    hide Core;
    var d := Moved(g, k);
    var o := g.allgc[k];
    assert o in g.allgc;
    assert ListsOK(g) by { CoreLists(g); }
    OneList(g, o);
    InMultiset(g.allgc, o);
    InMultiset(g.finobj, o);
    CutMultiset(g.allgc, k);
    if g.gcstate == SwpAllGc {
      MovedPassed(g, k);
    } else if g.gcstate == SwpFinObj {
      MovedFin(g, o);
    }
  }

  lemma CoreLists(g: G)
    requires Core(g)
    ensures ListsOK(g) && BitsOK(g)
  {
  }

  /** An object that may have finalizers and is not marked for one is in 'allgc'. */
  lemma InAllGc(g: G, o: Ref)
    requires Core(g) && o in g.heap && (g.heap[o].Table? || g.heap[o].Udata?) && o !in g.fin
    ensures o in g.allgc && o !in g.finobj && o !in g.tobefnz && o !in g.fixedgc
  {
    OneList(g, o);
    InMultiset(g.allgc, o);
    InMultiset(g.finobj, o);
    InMultiset(g.tobefnz, o);
    InMultiset(g.fixedgc, o);
  }

  lemma WhitenedInv(g: G, o: Ref)
    requires Inv(g) && IsSweepPhase(g.gcstate) && o in Alive(g) && o !in g.fixedgc
    ensures Inv(Whitened(g, o)) && Alive(Whitened(g, o)) == Alive(g)
  {
    hide Wf, TwupsAlive;
    WhitenedAlive(g, o);
    WhitenedCore(g, o);
    WhiterPhase(g, Whitened(g, o));
  }

  /** The sweeper can stand on an object of 'allgc' only while it sweeps that list. */
  lemma PointerInAllGc(g: G, o: Ref)
    requires Inv(g) && o in g.allgc && o !in g.finobj && o !in g.tobefnz && g.sweepgc == Next(o)
    ensures g.gcstate == SwpAllGc && AllWhite(g, g.allgc[..Pos(g.allgc, g.sweepgc)])
  {
  }

  lemma SweptKeeps(g: G, d: G, o: Ref)
    requires Sweeps(g, d, AllGc) && o in g.allgc && o in Alive(g) && o in g.heap
    ensures o in d.allgc && o in Alive(d) && o in d.heap && d.heap[o] == g.heap[o] && d.fin == g.fin && d.cw == g.cw
    ensures o in g.marked && g.marked[o] == White(g.cw) ==> o in d.marked && d.marked[o] == White(g.cw)
    ensures d.finobj == g.finobj && d.tobefnz == g.tobefnz && d.gcstate == g.gcstate && d.fixedgc == g.fixedgc
  {
  }

  /** The first half of 'luaC_checkfinalizer': during a sweep the object counts as swept, and the
      sweeper does not stay on it. */
  method StepOff(g: GlobalState, o: Ref)
    requires Inv(g.Snap()) && o in Alive(g.Snap()) && o in g.heap && o in g.allgc
    requires o !in g.finobj && o !in g.tobefnz && o !in g.fixedgc && (g.heap[o].Table? || g.heap[o].Udata?)
    modifies g
    ensures Inv(g.Snap()) && o in Alive(g.Snap()) && o in g.allgc && g.sweepgc != Next(o) && g.gcstate == old(g.gcstate)
    ensures IsSweepPhase(g.gcstate) ==> o in g.marked && g.marked[o] == White(g.cw)
    ensures g.fin == old(g.fin) && g.finobj == old(g.finobj) && g.tobefnz == old(g.tobefnz) && g.fixedgc == old(g.fixedgc)
    ensures (forall r :: r in g.allgc ==> r in old(g.allgc)) && g.mainthread == old(g.mainthread)
    ensures forall r :: r in old(g.allgc) && r in Alive(old(g.Snap())) ==> r in g.allgc
    ensures o in g.heap && g.heap[o] == old(g.heap)[o] && (KeepInvariant(g.gcstate) ==> g.Snap() == old(g.Snap()))
    ensures SteppedOff(old(g.Snap()), g.Snap(), o)
  {
    hide Core, Framed, Sweeps, Held, Inv, RefsAlive, Living, Marking;
    ghost var s := g.Snap();
    NoPointer(s);
    if IsSweepPhase(g.gcstate) {
      WhitenedInv(s, o);
      g.marked := g.marked[o := White(g.cw)];
      ghost var s1 := g.Snap();
      if g.sweepgc == Next(o) {
        PointerInAllGc(s1, o);
        InvHeld(s1);
        HeldFramed(s1);
        var q := SweepToLive(g, AllGc, g.sweepgc);
        ghost var s2 := g.Snap();
        SweptKeeps(s1, s2, o);
        SweepsFields(s1, s2, AllGc);
        SweptOn(s1, s2, q);
        StepOffLists(s1, s2);
        g.sweepgc := q;
        assert g.Snap() == s2.(sweepgc := q);
        PushedInv(s1, s2, g.Snap());
      }
    }
  }

  lemma HeldFramed(g: G)
    requires Held(g)
    ensures Framed(g)
  {
  }

  lemma PushedInv(g: G, m: G, d: G)
    requires Inv(g) && Sweeps(g, m, AllGc) && d == m.(sweepgc := d.sweepgc) && Held(d)
    ensures Inv(d)
  {
    hide Sweeps, Inv, Held, Framed, Phase, RefsAlive, RefsBut, MetasAlive, Shaped;
    InvHeld(g);
    InvHeld(d);
    HeldShaped(g);
    SweepsRefs(g, m, AllGc);
    StateRefs(m, d);
  }

  lemma HeldShaped(g: G)
    requires Held(g)
    ensures Shaped(g)
  {
  }

  lemma NoPointer(g: G)
    requires Inv(g)
    ensures !IsSweepPhase(g.gcstate) ==> g.sweepgc == Null
  {
  }

  lemma StepOffLists(g: G, d: G)
    requires Sweeps(g, d, AllGc)
    ensures (forall r :: r in d.allgc ==> r in g.allgc) && forall r :: r in g.allgc && r in Alive(g) ==> r in d.allgc
    ensures Alive(d) == Alive(g)
  {
  }

  /** In a sweep the object is swept, and the sweeper steps off it. */
  ghost predicate SteppedOff(g: G, d: G, o: Ref) {
    if !IsSweepPhase(g.gcstate) then d == g
    else if g.sweepgc != Next(o) then d == Whitened(g, o)
    else d.sweepgc != Next(o) && Sweeps(Whitened(g, o), d.(sweepgc := g.sweepgc), AllGc)
  }

  /** Object o is now the first of 'finobj'. */
  ghost predicate Enlisted(g: G, d: G, o: Ref) {
    exists m :: SteppedOff(g, m, o) && o in m.allgc && d == Moved(m, IndexOf(m.allgc, o))
  }

  lemma EnlistedOf(g: G, m: G, d: G, o: Ref)
    requires SteppedOff(g, m, o) && o in m.allgc && d == Moved(m, IndexOf(m.allgc, o))
    ensures Enlisted(g, d, o)
  {
    hide SteppedOff;
  }

  lemma EnlistedHeap(g: G, d: G, o: Ref)
    requires Enlisted(g, d, o)
    ensures forall r :: r in d.heap ==> r in g.heap && d.heap[r] == g.heap[r]
    ensures forall r :: r in g.heap && r in Alive(g) ==> r in d.heap
  {
    hide SteppedOff, Living;
    var m :| SteppedOff(g, m, o) && o in m.allgc && d == Moved(m, IndexOf(m.allgc, o));
    SteppedOffHeap(g, m, o);
  }

  lemma SteppedOffHeap(g: G, d: G, o: Ref)
    requires SteppedOff(g, d, o)
    ensures forall r :: r in d.heap ==> r in g.heap && d.heap[r] == g.heap[r]
    ensures forall r :: r in g.heap && r in Alive(g) ==> r in d.heap
  {
    hide SameUpvals, ListOf, WithList;
    var w := Whitened(g, o);
    assert forall r :: r in Alive(g) ==> r in Alive(w);
  }

  /** 'luaC_checkfinalizer': an object whose metatable has a '__gc' field moves to 'finobj', in
      front of those that were there. */
  method CheckFinalizer(g: GlobalState, o: Ref, hasgc: bool)
    requires Inv(g.Snap()) && o in Alive(g.Snap()) && o in g.heap && (g.heap[o].Table? || g.heap[o].Udata?)
    modifies g
    ensures Inv(g.Snap())
    ensures g.tobefnz == old(g.tobefnz) && g.fixedgc == old(g.fixedgc)
    ensures if o in old(g.fin) || !hasgc then g.Snap() == old(g.Snap())
            else g.finobj == [o] + old(g.finobj) && g.fin == old(g.fin) + {o} && o !in g.allgc
    ensures o in g.heap && g.heap[o] == old(g.heap)[o] && g.gcstate == old(g.gcstate)
    ensures KeepInvariant(g.gcstate) ==> g.Snap() == old(g.Snap()).(allgc := g.allgc, finobj := g.finobj, fin := g.fin)
    ensures MetasMarked(old(g.Snap())) ==> MetasMarked(g.Snap())
    ensures o !in old(g.fin) && hasgc ==> Enlisted(old(g.Snap()), g.Snap(), o)
  {
    hide Inv, MetasMarked, Held, Wf, Core, Living, SteppedOff, Enlisted;
    ghost var s0 := g.Snap();
    if o in g.fin || !hasgc { return; }
    InvCore(s0);
    InAllGc(s0, o);
    StepOff(g, o);
    ghost var m := g.Snap();
    MoveToFin(g, o);
    EnlistedOf(s0, m, g.Snap(), o);
    if KeepInvariant(g.gcstate) { MetasFrame(s0, g.Snap()); } else { NotMarking(g.Snap()); }
  }

  /** The second half: from 'allgc' to the front of 'finobj'. */
  method MoveToFin(g: GlobalState, o: Ref)
    requires Inv(g.Snap()) && o in g.allgc && o in Alive(g.Snap()) && g.sweepgc != Next(o)
    requires IsSweepPhase(g.gcstate) ==> o in g.marked && g.marked[o] == White(g.cw)
    modifies g`allgc, g`finobj, g`fin
    ensures Inv(g.Snap()) && g.finobj == [o] + old(g.finobj) && g.fin == old(g.fin) + {o} && o !in g.allgc
    ensures o in old(g.allgc) && g.Snap() == Moved(old(g.Snap()), IndexOf(old(g.allgc), o))
  {
    hide Inv, Living;
    var k := IndexOf(g.allgc, o);
    MovedInv(g.Snap(), k);
    g.allgc := g.allgc[..k] + g.allgc[k + 1..];
    g.finobj := [o] + g.finobj;
    g.fin := g.fin + {o};
  }

  lemma NotMarking(g: G)
    requires !KeepInvariant(g.gcstate)
    ensures MetasMarked(g)
  {
  }

  lemma MovedInv(g: G, k: nat)
    requires Inv(g) && k < |g.allgc| && g.allgc[k] in Alive(g) && g.sweepgc != Next(g.allgc[k])
    requires IsSweepPhase(g.gcstate) ==> g.allgc[k] in g.marked && g.marked[g.allgc[k]] == White(g.cw)
    ensures Inv(Moved(g, k)) && g.allgc[k] !in Moved(g, k).allgc
  {
    hide Core, Tri, Queued, AllWaiting, Phase;
    InvWf(g);
    MovedCore(g, k);
    MovedOut(g, k);
    if KeepInvariant(g.gcstate) {
      InvMark(g);
      MovedMark(g, k);
    } else {
      NotHead(g);
      MovedPhase(g, k);
    }
  }

  lemma NotHead(g: G)
    requires Phase(g)
    ensures g.gcstate == SwpAllGc ==> g.sweepgc != Head
  {
  }

  lemma MovedMark(g: G, k: nat)
    requires MarkPhase(g) && KeepInvariant(g.gcstate) && k < |g.allgc| && Core(Moved(g, k))
    ensures Inv(Moved(g, k))
  {
    hide Core;
    assert Tri(Moved(g, k), {}, false);
    SameQueues(g, Moved(g, k));
  }

  lemma MovedOut(g: G, k: nat)
    requires Core(g) && k < |g.allgc|
    ensures g.allgc[k] !in Moved(g, k).allgc
  {
    ListsNoDups(g);
    CutMultiset(g.allgc, k);
    var l := g.allgc[..k] + g.allgc[k + 1..];
    forall i | 0 <= i < |l| ensures l[i] != g.allgc[k] {
      assert l[i] == g.allgc[if i < k then i else i + 1];
    }
  }
}
