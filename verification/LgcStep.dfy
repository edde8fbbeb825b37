/** The sweep states of 'singlestep'. */
module LgcStep {
  import opened LgcHeap
  import opened LgcGrow
  import opened LgcMark
  import opened LgcPropagate
  import opened LgcRemark
  import opened LgcAtomic
  import opened LgcInv
  import opened LgcSweep

  // ----- Sweeping -----

  lemma SweepsWhite(g: G, d: G, w: Which, l: seq<Ref>)
    requires Sweeps(g, d, w) && AllWhite(g, l)
    ensures AllWhite(d, l)
  {
    forall r | r in l ensures r in d.marked && d.marked[r] == White(d.cw) {
      assert r in Alive(g);
    }
  }

  /** 'sweeptolive': sweep until a live object or the end of the list. */
  method SweepToLive(g: GlobalState, w: Which, p: Ptr) returns (q: Ptr)
    requires Framed(g.Snap())
    requires var l := ListOf(g.Snap(), w);
             !p.Null? && (p.Next? ==> p.ref in l) && AllWhite(g.Snap(), l[..Pos(l, p)])
    modifies g
    ensures Framed(g.Snap()) && Sweeps(old(g.Snap()), g.Snap(), w) && q != p && !q.Head?
    ensures var l := ListOf(g.Snap(), w); (q.Next? ==> q.ref in l) && AllWhite(g.Snap(), l[..Pos(l, q)])
  {
    hide Framed, Sweeps, AllWhite, Pos;
    ghost var s0 := g.Snap();
    q := SweepList(g, w, p, 1);
    while q == p
      invariant Framed(g.Snap()) && Sweeps(s0, g.Snap(), w) && (q.Head? ==> p.Head?)
      invariant var l := ListOf(g.Snap(), w); (q.Next? ==> q.ref in l) && AllWhite(g.Snap(), l[..Pos(l, q)])
      decreases |ListOf(g.Snap(), w)|, if q == p then 1 else 0
    {
      ghost var s := g.Snap();
      q := SweepList(g, w, p, 1);
      SweepsTrans(s0, s, g.Snap(), w);
    }
  }

  /** 'entersweep' */
  method EnterSweep(g: GlobalState)
    requires Framed(g.Snap()) && g.sweepgc == Null
    modifies g
    ensures Held(g.Snap()) && g.gcstate == SwpAllGc
    ensures Sweeps(old(g.Snap()).(gcstate := SwpAllGc), g.Snap().(sweepgc := Null), AllGc)
  {
    hide Framed, Sweeps;
    ghost var s := g.Snap();
    g.gcstate := SwpAllGc;
    FramedState(s, g.Snap());
    var q := SweepToLive(g, AllGc, Head);
    ghost var m := g.Snap();
    SweepsFields(s.(gcstate := SwpAllGc), m, AllGc);
    g.sweepgc := q;
    assert m.(sweepgc := q) == g.Snap();
    FramedState(m, g.Snap());
    assert g.Snap().(sweepgc := Null) == m;
  }

  lemma FramedState(g: G, d: G)
    requires Framed(g) && d == g.(gcstate := d.gcstate, sweepgc := d.sweepgc, gray := d.gray, grayagain := d.grayagain,
                                  weak := d.weak, allweak := d.allweak, ephemeron := d.ephemeron)
    ensures Framed(d)
  {
    SameShaped(g, d);
    assert TwupsAlive(d);
  }

  lemma CoreState(g: G, d: G)
    requires Core(g) && d == g.(gcstate := d.gcstate, sweepgc := d.sweepgc, gray := d.gray, grayagain := d.grayagain,
                                weak := d.weak, allweak := d.allweak, ephemeron := d.ephemeron)
    ensures Core(d)
  {
    SameWf(g, d);
    assert TwupsAlive(d);
  }

  lemma SweepsFields(g: G, d: G, w: Which)
    requires Sweeps(g, d, w)
    ensures d.gcstate == g.gcstate && d.sweepgc == g.sweepgc && d.cw == g.cw && d.mainthread == g.mainthread
    ensures w != AllGc ==> d.allgc == g.allgc
    ensures w != FinObj ==> d.finobj == g.finobj
    ensures w != ToBeFnz ==> d.tobefnz == g.tobefnz
  {
  }

  function NextState(st: GcState): GcState {
    match st
    case SwpAllGc => SwpFinObj
    case SwpFinObj => SwpToBeFnz
    case _ => SwpEnd
  }

  predicate Sweeping(st: GcState) {
    st.SwpAllGc? || st.SwpFinObj? || st.SwpToBeFnz?
  }

  function ListFor(st: GcState): Which {
    match st
    case SwpAllGc => AllGc
    case SwpFinObj => FinObj
    case _ => ToBeFnz
  }

  /** Elements that the sweeper has yet to pass. */
  ghost function Rest(g: G): int {
    var l := ListOf(g, ListFor(g.gcstate));
    if g.sweepgc.Next? && g.sweepgc.ref !in l then 0 else |l| - Pos(l, g.sweepgc)
  }

  /** 'sweepstep': up to 'max' elements are swept; at the end of its list the sweeper goes to the
      head of the next one. */
  ghost predicate SweptStep(g: G, d: G, max: nat) {
    && Swept(g, d)
    && if d.gcstate == g.gcstate then g.sweepgc != Null && d.sweepgc != Null && (max > 0 ==> Rest(d) < Rest(g))
       else d.gcstate == NextState(g.gcstate) && d.sweepgc == (if d.gcstate == SwpEnd then Null else Head)
  }

  /** 'sweepstep' */
  method SweepStep(g: GlobalState, max: nat)
    requires Held(g.Snap()) && Sweeping(g.gcstate)
    modifies g
    ensures Held(g.Snap()) && SweptStep(old(g.Snap()), g.Snap(), max)
    ensures g.gcstate != old(g.gcstate) ==> AllWhite(g.Snap(), ListOf(g.Snap(), ListFor(old(g.gcstate))))
  {
    hide Held, Framed, Passed, Sweeps, SweptFew, SweptStep, AllWhite, Pos, ListOf;
    ghost var s := g.Snap();
    var w := ListFor(g.gcstate);
    SweepsRefl(s, w);
    PhaseOf(s);
    ghost var m := s;
    if g.sweepgc != Null {
      var q := SweepList(g, w, g.sweepgc, max);
      m := g.Snap();
      SweptOn(s, m, q);
      g.sweepgc := q;
      if q != Null {
        SweptPart(s, m, q, max);
        return;
      }
    }
    g.gcstate := NextState(g.gcstate);
    g.sweepgc := if g.gcstate == SwpEnd then Null else Head;
    SweptWhole(s, m, max);
  }

  lemma SweptPart(g: G, m: G, q: Ptr, max: nat)
    requires Sweeping(g.gcstate) && g.sweepgc != Null && q != Null
    requires var l, l' := ListOf(g, ListFor(g.gcstate)), ListOf(m, ListFor(g.gcstate));
             && (q.Next? ==> q.ref in l') && (g.sweepgc.Next? ==> g.sweepgc.ref in l)
             && (max > 0 ==> |l'| - Pos(l', q) < |l| - Pos(l, g.sweepgc))
    requires Held(g) && Sweeps(g, m, ListFor(g.gcstate)) && Held(m.(sweepgc := q))
    ensures SweptStep(g, m.(sweepgc := q), max) && m.gcstate == g.gcstate
  {
    hide Held, Sweeps, Pos, Swept, Rest;
    var d := m.(sweepgc := q);
    SweepsFields(g, m, ListFor(g.gcstate));
    SweptState(g, m, d);
    RestIs(g);
    RestIs(d);
  }

  lemma SweptWhole(g: G, m: G, max: nat)
    requires Sweeping(g.gcstate) && Sweeps(g, m, ListFor(g.gcstate)) && Held(m.(sweepgc := Null))
    ensures var d := m.(gcstate := NextState(g.gcstate), sweepgc := if NextState(g.gcstate) == SwpEnd then Null else Head);
            Held(d) && SweptStep(g, d, max) && AllWhite(d, ListOf(d, ListFor(g.gcstate)))
  {
    hide Held, Sweeps, Swept, Rest, AllWhite;
    var e := m.(sweepgc := Null);
    var d := m.(gcstate := NextState(g.gcstate), sweepgc := if NextState(g.gcstate) == SwpEnd then Null else Head);
    SweepsFields(g, m, ListFor(g.gcstate));
    NextPhase(e, d);
    SweptState(g, m, d);
    ListDone(e, d);
  }

  /** A sweep step keeps the references of live objects in order if they were. */
  lemma SweptRefs(g: G, d: G)
    requires Held(g) && Swept(g, d)
    ensures RefsAlive(g) ==> RefsAlive(d)
    ensures RefsBut(g) ==> RefsBut(d)
    ensures MetasAlive(d) == MetasAlive(g)
  {
    hide RefsAlive, RefsBut, MetasAlive, Sweeps;
    var m := d.(gcstate := g.gcstate, sweepgc := g.sweepgc);
    SweepsRefs(g, m, ListFor(g.gcstate));
    StateRefs(m, d);
  }

  lemma StateRefs(g: G, d: G)
    requires d == g.(gcstate := d.gcstate, sweepgc := d.sweepgc)
    ensures RefsAlive(d) == RefsAlive(g) && RefsBut(d) == RefsBut(g) && MetasAlive(d) == MetasAlive(g)
  {
    assert Alive(d) == Alive(g);
    forall r | r in g.heap ensures Seen(d, r) == Seen(g, r) {}
  }

  lemma WhitenedRefs(g: G, o: Ref)
    requires o in Alive(g)
    ensures var d := Whitened(g, o);
            RefsAlive(d) == RefsAlive(g) && RefsBut(d) == RefsBut(g) && MetasAlive(d) == MetasAlive(g)
  {
    WhitenedAlive(g, o);
    forall r | r in g.heap ensures Seen(Whitened(g, o), r) == Seen(g, r) {}
  }

  lemma RestIs(g: G)
    requires Held(g) && Sweeping(g.gcstate)
    ensures var l := ListOf(g, ListFor(g.gcstate)); (g.sweepgc.Next? ==> g.sweepgc.ref in l) && Rest(g) == |l| - Pos(l, g.sweepgc)
  {
  }

  lemma ListDone(g: G, d: G)
    requires Held(g) && Sweeping(g.gcstate) && g.sweepgc == Null && d == g.(gcstate := d.gcstate, sweepgc := d.sweepgc)
    ensures AllWhite(d, ListOf(d, ListFor(g.gcstate)))
  {
    hide Framed;
    var l := ListOf(g, ListFor(g.gcstate));
    assert l[..|l|] == l;
  }

  /** Sweeping from g to d, the state and the pointer aside. */
  ghost predicate Swept(g: G, d: G) {
    Sweeps(g, d.(gcstate := g.gcstate, sweepgc := g.sweepgc), ListFor(g.gcstate))
  }

  lemma SweptState(g: G, m: G, d: G)
    requires Sweeps(g, m, ListFor(g.gcstate)) && d == m.(gcstate := d.gcstate, sweepgc := d.sweepgc)
    ensures Swept(g, d)
  {
    assert d.(gcstate := g.gcstate, sweepgc := g.sweepgc) == m;
  }

  lemma PhaseOf(g: G)
    requires Held(g) && Sweeping(g.gcstate)
    ensures Framed(g) && Passed(g, ListOf(g, ListFor(g.gcstate)))
  {
  }

  lemma SweptOn(g: G, m: G, q: Ptr)
    requires Held(g) && Sweeping(g.gcstate) && Framed(m) && Sweeps(g, m, ListFor(g.gcstate))
    requires var l := ListOf(m, ListFor(g.gcstate)); (q.Next? ==> q.ref in l) && AllWhite(m, l[..Pos(l, q)])
    requires q.Head? ==> g.sweepgc.Head?
    ensures Held(m.(sweepgc := q)) && m.gcstate == g.gcstate
  {
    hide Framed, Sweeps, Pos;
    var d := m.(sweepgc := q);
    SweepsFields(g, m, ListFor(g.gcstate));
    FramedState(m, d);
    if g.gcstate != SwpAllGc { SweepsWhite(g, m, ListFor(g.gcstate), g.allgc); }
    if g.gcstate == SwpToBeFnz { SweepsWhite(g, m, ListFor(g.gcstate), g.finobj); }
  }

  lemma NextPhase(g: G, d: G)
    requires Held(g) && Sweeping(g.gcstate) && g.sweepgc == Null
    requires d == g.(gcstate := NextState(g.gcstate), sweepgc := if NextState(g.gcstate) == SwpEnd then Null else Head)
    ensures Held(d)
  {
    hide Framed;
    FramedState(g, d);
    var l := ListOf(g, ListFor(g.gcstate));
    assert l[..|l|] == l;
  }

  /** 'GCSswpend': the main thread is in no list. */
  method EndSweep(g: GlobalState)
    requires Held(g.Snap()) && g.gcstate == SwpEnd
    modifies g
    ensures Held(g.Snap()) && g.gcstate == CallFin
    ensures g.Snap() == old(g.Snap()).(gcstate := CallFin, marked := old(g.marked)[g.mainthread := White(g.cw)])
  {
    hide Framed;
    ghost var s := g.Snap();
    MainFacts(s);
    g.marked := g.marked[g.mainthread := White(g.cw)];
    g.gcstate := CallFin;
    WhitenedFramed(s, s.mainthread);
    FramedState(Whitened(s, s.mainthread), g.Snap());
    AllResting(s, g.Snap());
  }

  lemma EndRefs(g: G, d: G)
    requires Held(g) && d == g.(gcstate := CallFin, marked := g.marked[g.mainthread := White(g.cw)])
    ensures Alive(d) == Alive(g) && RefsAlive(d) == RefsAlive(g) && RefsBut(d) == RefsBut(g) && MetasAlive(d) == MetasAlive(g)
  {
    MainFacts(g);
    WhitenedAlive(g, g.mainthread);
    WhitenedRefs(g, g.mainthread);
    StateRefs(Whitened(g, g.mainthread), d);
  }

  lemma MainFacts(g: G)
    requires Framed(g)
    ensures g.mainthread in g.heap && g.mainthread in Alive(g) && g.mainthread !in g.fixedgc
  {
    OneList(g, g.mainthread);
    InMultiset(g.fixedgc, g.mainthread);
  }

  lemma AllResting(g: G, d: G)
    requires Framed(g) && AllWhite(g, g.allgc) && AllWhite(g, g.finobj) && AllWhite(g, g.tobefnz) && g.sweepgc == Null
    requires d == g.(gcstate := CallFin, marked := g.marked[g.mainthread := White(g.cw)])
    ensures Resting(d)
  {
    forall r | r in d.heap ensures r in d.marked && (d.marked[r] == White(d.cw) || r in d.fixedgc) {
      OneList(g, r);
      InMultiset(g.allgc, r);
      InMultiset(g.finobj, r);
      InMultiset(g.tobefnz, r);
      InMultiset(g.fixedgc, r);
    }
  }
}
