/** Runs from the beginning that end where one would not expect: a metatable freed under its table,
    and a full collection that keeps an object nobody can reach. */
module LgcExamples {
  import opened LgcHeap
  import opened LgcGrow
  import opened LgcMark
  import opened LgcPropagate
  import opened LgcWeak
  import opened LgcAtomic
  import opened LgcInv
  import opened LgcSweep
  import opened LgcStep
  import opened LgcCycle
  import opened LgcBarrier
  import opened LgcMutator
  import opened LgcClosures
  import opened LgcObjects
  import opened LgcRun
  import opened LgcFull
  import opened LgcExact
  import opened LgcParked

  const PLAIN: Object := Table(Nil, Mode(false, false), [], [])

  // ----- Programs that run while the collector rests -----

  function Whites0(heap: Heap): map<Ref, Color> {
    map r | r in heap :: White(false)
  }

  /** A state before the first cycle. */
  function Paused(heap: Heap, us: UpVals, twups: seq<Ref>, allgc: seq<Ref>, top: nat): G {
    G(heap, us, Whites0(heap), false, Pause, [], [], [], [], [],
      allgc, [], [], [], {}, Null, 0, 0, Nil, [], twups, top)
  }

  lemma PausedInitial()
    ensures Initial(0) == Paused(map[0 := Thread([])], map[], [], [], 1)
  {
  }

  lemma PausedAlive(heap: Heap, us: UpVals, twups: seq<Ref>, allgc: seq<Ref>, top: nat)
    ensures Alive(Paused(heap, us, twups, allgc, top)) == heap.Keys
  {
  }

  lemma PausedStore(heap: Heap, us: UpVals, twups: seq<Ref>, allgc: seq<Ref>, top: nat, r: Ref, n: Object)
    requires r in heap
    ensures Store(Paused(heap, us, twups, allgc, top), r, n) == Paused(heap[r := n], us, twups, allgc, top)
  {
    assert Whites0(heap[r := n]) == Whites0(heap);
  }

  /** A table, a thread or another object without references is created. */
  lemma PausedCreate(heap: Heap, us: UpVals, twups: seq<Ref>, allgc: seq<Ref>, top: nat, n: Object)
    requires n == PLAIN || n == Thread([])
    ensures var g, a := Paused(heap, us, twups, allgc, top), Create(n);
            Enabled(g, a) && forall d :: Acted(g, a, d) ==> d == Paused(heap[top := n], us, twups, [top] + allgc, top + 1)
  {
    assert Whites0(heap[top := n]) == Whites0(heap)[top := White(false)];
  }

  lemma PausedStack(heap: Heap, us: UpVals, twups: seq<Ref>, allgc: seq<Ref>, top: nat, th: Ref, stack: seq<TValue>)
    requires th in heap && heap[th].Thread? && ValsIn(stack, heap.Keys)
    requires forall u :: u in us && us[u].Open? && us[u].th == th ==> us[u].level < |stack|
    ensures var g, a := Paused(heap, us, twups, allgc, top), StackSet(th, stack);
            Enabled(g, a) && forall d :: Acted(g, a, d) ==> d == Paused(heap[th := Thread(stack)], us, twups, allgc, top)
  {
    PausedAlive(heap, us, twups, allgc, top);
    PausedStore(heap, us, twups, allgc, top, th, Thread(stack));
  }

  lemma PausedMode(heap: Heap, us: UpVals, twups: seq<Ref>, allgc: seq<Ref>, top: nat, t: Ref, mode: Mode)
    requires t in heap && heap[t].Table?
    ensures var g, a := Paused(heap, us, twups, allgc, top), ModeSet(t, mode);
            Enabled(g, a) && forall d :: Acted(g, a, d) ==> d == Paused(heap[t := heap[t].(mode := mode)], us, twups, allgc, top)
  {
    PausedAlive(heap, us, twups, allgc, top);
    PausedStore(heap, us, twups, allgc, top, t, heap[t].(mode := mode));
  }

  lemma PausedMeta(heap: Heap, us: UpVals, twups: seq<Ref>, allgc: seq<Ref>, top: nat, t: Ref, mt: Ref)
    requires t in heap && heap[t].Table? && mt in heap
    ensures var g, a := Paused(heap, us, twups, allgc, top), MetaSet(t, Coll(mt), false);
            Enabled(g, a) && forall d :: Acted(g, a, d) ==> d == Paused(heap[t := WithMeta(heap[t], Coll(mt))], us, twups, allgc, top)
  {
    PausedAlive(heap, us, twups, allgc, top);
    PausedStore(heap, us, twups, allgc, top, t, WithMeta(heap[t], Coll(mt)));
    var g := Paused(heap, us, twups, allgc, top);
    MetaQuiet(g, t, Coll(mt));
  }

  /** Without a finalizer and on an object that is not black, only the metatable changes. */
  lemma MetaQuiet(g: G, t: Ref, mt: TValue)
    requires t in g.heap && g.heap[t].Table? && (t in g.marked ==> !g.marked[t].Black?)
    ensures forall d :: MetaActed(g, t, mt, false, d) ==> d == Store(g, t, WithMeta(g.heap[t], mt))
  {
    hide Forwarded, Enlisted;
    var s := Store(g, t, WithMeta(g.heap[t], mt));
    forall d | MetaActed(g, t, mt, false, d) ensures d == s {
      var m :| Barriered(s, m, t, mt) && d == m;
    }
  }

  lemma PausedUpval(heap: Heap, us: UpVals, twups: seq<Ref>, allgc: seq<Ref>, top: nat, u: UpRef, th: Ref, level: nat)
    requires u !in us && th in heap && heap[th].Thread? && level < |heap[th].stack| && th !in twups
    ensures var g, a := Paused(heap, us, twups, allgc, top), UpvalFind(u, th, level);
            Enabled(g, a) &&
            forall d :: Acted(g, a, d) ==> d == Paused(heap, us[u := Open(th, level, true)], [th] + twups, allgc, top)
  {
    PausedAlive(heap, us, twups, allgc, top);
  }

  /** A history follows the states s as long as each action can only lead to the next of them. */
  lemma Follows(h: seq<G>, acts: seq<Action>, done: nat, s: seq<G>)
    requires done <= |acts| && History(h, acts[..done]) && |s| == |acts| + 1 && h[0] == s[0]
    requires forall k :: 0 <= k < |acts| ==> Enabled(s[k], acts[k]) && forall d :: Acted(s[k], acts[k], d) ==> d == s[k + 1]
    ensures |h| == done + 1 && h[done] == s[done]
  {
    hide Enabled, Acted;
    assert |h| == done + 1;
    var k := 0;
    while k < done
      invariant k <= done && h[k] == s[k]
    {
      assert acts[..done][k] == acts[k];
      assert Acted(h[k], acts[k], h[k + 1]);
      k := k + 1;
    }
  }

  // ----- A touched upvalue of a dead thread -----

  /** A table and a coroutine are created; the table goes to the stack of the coroutine, where a
      closure captures it; then the program drops both. */
  function StaleActs(): seq<Action> {
    [Create(PLAIN), StackSet(0, [Coll(1)]), Create(Thread([])), StackSet(0, [Coll(1), Coll(2)]), StackSet(2, [Coll(1)]),
     UpvalFind(0, 2, 0), StackSet(0, [])]
  }

  function StaleHeap(k: nat): Heap {
    var h0: Heap := map[0 := Thread([])];
    var h1 := h0[1 := PLAIN];
    var h2 := h1[0 := Thread([Coll(1)])];
    var h3 := h2[2 := Thread([])];
    var h4 := h3[0 := Thread([Coll(1), Coll(2)])];
    var h5 := h4[2 := Thread([Coll(1)])];
    var h7 := h5[0 := Thread([])];
    if k == 0 then h0 else if k == 1 then h1 else if k == 2 then h2 else if k == 3 then h3 else if k == 4 then h4
    else if k <= 6 then h5 else h7
  }

  function StaleState(k: nat): G {
    Paused(StaleHeap(k), if k < 6 then map[] else map[0 := Open(2, 0, true)], if k < 6 then [] else [2],
           if k == 0 then [] else if k < 3 then [1] else [2, 1], if k == 0 then 1 else if k < 3 then 2 else 3)
  }

  lemma StaleStep(k: nat)
    requires k < 7
    ensures Enabled(StaleState(k), StaleActs()[k]) && forall d :: Acted(StaleState(k), StaleActs()[k], d) ==> d == StaleState(k + 1)
  {
    hide Enabled, Acted, Paused;
    var h := StaleHeap(k);
    assert [1] + [] == [1] && [2] + [1] == [2, 1] && [2] + [] == [2];
    var us: UpVals := map[];
    assert us[0 := Open(2, 0, true)] == map[0 := Open(2, 0, true)];
    if k == 0 { PausedCreate(h, map[], [], [], 1, PLAIN); }
    if k == 1 { PausedStack(h, map[], [], [1], 2, 0, [Coll(1)]); }
    if k == 2 { PausedCreate(h, map[], [], [1], 2, Thread([])); }
    if k == 3 { PausedStack(h, map[], [], [2, 1], 3, 0, [Coll(1), Coll(2)]); }
    if k == 4 { PausedStack(h, map[], [], [2, 1], 3, 2, [Coll(1)]); }
    if k == 5 { PausedUpval(h, map[], [], [2, 1], 3, 0, 2, 0); }
    if k == 6 { PausedStack(h, map[0 := Open(2, 0, true)], [2], [2, 1], 3, 0, []); }
  }

  function StaleStates(): seq<G> {
    [StaleState(0), StaleState(1), StaleState(2), StaleState(3), StaleState(4), StaleState(5), StaleState(6), StaleState(7)]
  }

  lemma StaleFollows(h: seq<G>, done: nat)
    requires done <= 7 && History(h, StaleActs()[..done]) && h[0] == Initial(0)
    ensures |h| == done + 1 && h[done] == StaleState(done)
    ensures done < 7 ==> Enabled(h[done], StaleActs()[done])
  {
    hide Enabled, Acted, StaleState, StaleActs, Initial;
    StaleLength();
    assert Initial(0) == StaleState(0) by { PausedInitial(); StaleStart(); }
    forall k | 0 <= k < 7
      ensures Enabled(StaleStates()[k], StaleActs()[k]) && forall d :: Acted(StaleStates()[k], StaleActs()[k], d) ==> d == StaleStates()[k + 1]
    {
      StaleStep(k);
    }
    assert h[0] == StaleStates()[0];
    Follows(h, StaleActs(), done, StaleStates());
    if done < 7 { StaleStep(done); }
  }

  lemma StaleLength()
    ensures |StaleActs()| == 7 && forall k :: 0 <= k < 7 ==> !StaleActs()[k].Collect?
  {
  }

  lemma StaleStart()
    ensures StaleState(0) == Paused(map[0 := Thread([])], map[], [], [], 1)
  {
  }

  /** What the roots of the last state refer to. */
  lemma StaleReach()
    ensures var g := StaleState(7); g.finobj == [] && g.tobefnz == [] && NoWeakTables(g) && !Reachable(g, 1) && g.fixedgc == [] && Alive(g) == {0, 1, 2}
  {
    var g := StaleState(7);
    PausedAlive(g.heap, g.upvals, [2], [2, 1], 3);
    if Reachable(g, 1) {
      var p :| Path(g, p) && p[|p| - 1] == 1;
      PathIn(g, p, {0});
    }
  }

  lemma StaleHeld(s: set<Ref>)
    requires Retains(StaleState(7), s)
    ensures 1 in s
  {
    StaleReach();
    var g := StaleState(7);
    assert UpValue(g.heap, g.upvals, 0) == Coll(1);
  }

  /** The table cannot be reached, and a full collection keeps it. */
  method StaleUpvalueKept() returns (g: GlobalState, ghost h: seq<G>)
    ensures fresh(g) && History(h, StaleActs()) && h[0] == Initial(0)
    ensures !Reachable(h[7], 1) && NoWeakTables(h[7]) && NothingToFinalize(h[7])
    ensures FullyCollected(h[7], g.Snap()) && 1 in g.heap
  {
    hide Inv, Safe, Lost, History, Enabled, StaleState, StaleActs, Retains, FullyCollected, Initial, Reachable;
    g := new GlobalState(0);
    InitialInv(0);
    StaleLength();
    var done;
    done, h := Run(g, StaleActs());
    StaleFollows(h, done);
    assert StaleActs()[..7] == StaleActs();
    StaleReach();
    FullGc(g, 1);
    StaleLeft(h[7], g.Snap());
  }

  lemma StaleLeft(g: G, d: G)
    requires g == StaleState(7) && FullyCollected(g, d)
    ensures 1 in d.heap
  {
    hide Inv, FateObject, Retains, StaleState;
    forall s | Retains(g, s) ensures 1 in s { StaleHeld(s); }
    StaleHas();
    assert 1 in Needed(g);
  }

  lemma StaleHas()
    ensures 1 in StaleState(7).heap
  {
  }

  // ----- A metatable freed under its table -----

  const BOTH: Mode := Mode(true, true)

  /** A table gets a metatable that makes it weak in both ways; it stays on the stack. */
  function SetupActs(): seq<Action> {
    [Create(PLAIN), StackSet(0, [Coll(1)]), Create(PLAIN), StackSet(0, [Coll(1), Coll(2)]), MetaSet(1, Coll(2), false),
     ModeSet(1, BOTH), StackSet(0, [Coll(1)])]
  }

  function SetupHeap(k: nat): Heap {
    var h0: Heap := map[0 := Thread([])];
    var h1 := h0[1 := PLAIN];
    var h2 := h1[0 := Thread([Coll(1)])];
    var h3 := h2[2 := PLAIN];
    var h4 := h3[0 := Thread([Coll(1), Coll(2)])];
    var h5 := h4[1 := WithMeta(h4[1], Coll(2))];
    var h6 := h5[1 := h5[1].(mode := BOTH)];
    var h7 := h6[0 := Thread([Coll(1)])];
    if k == 0 then h0 else if k == 1 then h1 else if k == 2 then h2 else if k == 3 then h3 else if k == 4 then h4
    else if k == 5 then h5 else if k == 6 then h6 else h7
  }

  function SetupState(k: nat): G {
    Paused(SetupHeap(k), map[], [], if k == 0 then [] else if k < 3 then [1] else [2, 1], if k == 0 then 1 else if k < 3 then 2 else 3)
  }

  lemma SetupStep(k: nat)
    requires k < 7
    ensures Enabled(SetupState(k), SetupActs()[k]) && forall d :: Acted(SetupState(k), SetupActs()[k], d) ==> d == SetupState(k + 1)
  {
    hide Enabled, Acted, Paused;
    var h := SetupHeap(k);
    assert [1] + [] == [1] && [2] + [1] == [2, 1];
    if k == 0 { PausedCreate(h, map[], [], [], 1, PLAIN); }
    if k == 1 { PausedStack(h, map[], [], [1], 2, 0, [Coll(1)]); }
    if k == 2 { PausedCreate(h, map[], [], [1], 2, PLAIN); }
    if k == 3 { PausedStack(h, map[], [], [2, 1], 3, 0, [Coll(1), Coll(2)]); }
    if k == 4 { PausedMeta(h, map[], [], [2, 1], 3, 1, 2); }
    if k == 5 { PausedMode(h, map[], [], [2, 1], 3, 1, BOTH); }
    if k == 6 { PausedStack(h, map[], [], [2, 1], 3, 0, [Coll(1)]); }
  }

  function SetupStates(): seq<G> {
    [SetupState(0), SetupState(1), SetupState(2), SetupState(3), SetupState(4), SetupState(5), SetupState(6), SetupState(7)]
  }

  lemma SetupFollows(h: seq<G>, done: nat)
    requires done <= 7 && History(h, SetupActs()[..done]) && h[0] == Initial(0)
    ensures |h| == done + 1 && h[done] == SetupState(done)
    ensures done < 7 ==> Enabled(h[done], SetupActs()[done])
  {
    hide Enabled, Acted, SetupState, SetupActs, Initial;
    SetupLength();
    assert Initial(0) == SetupState(0) by { PausedInitial(); SetupStart(); }
    forall k | 0 <= k < 7
      ensures Enabled(SetupStates()[k], SetupActs()[k]) && forall d :: Acted(SetupStates()[k], SetupActs()[k], d) ==> d == SetupStates()[k + 1]
    {
      SetupStep(k);
    }
    assert h[0] == SetupStates()[0];
    Follows(h, SetupActs(), done, SetupStates());
    if done < 7 { SetupStep(done); }
  }

  lemma SetupLength()
    ensures |SetupActs()| == 7 && forall k :: 0 <= k < 7 ==> !SetupActs()[k].Collect?
  {
  }

  lemma SetupStart()
    ensures SetupState(0) == Paused(map[0 := Thread([])], map[], [], [], 1)
  {
  }

  /** The first cycle has not met anything but these objects. */
  const LIMIT: set<Ref> := {0, 1, 2}

  lemma SetupLimit()
    ensures var g := SetupState(7); LimitOK(g, LIMIT) && Marks(g) == {}
  {
    var g := SetupState(7);
    assert Strings(g.heap) == {};
    assert Bound(Emptied(g), LIMIT);
  }

  /** Marking goes on: the table was not visited, or is gray and does not come back. */
  ghost predicate OnTheWay(g: G) {
    && g == SetupState(7).(marked := g.marked, gcstate := g.gcstate, gray := g.gray, grayagain := g.grayagain, weak := g.weak,
                           allweak := g.allweak, ephemeron := g.ephemeron, twups := g.twups)
    && g.marked.Keys == LIMIT && 1 !in g.grayagain && !g.marked[1].Black? && (0 in g.gray || !g.marked[1].White?)
    && (g.gcstate == Propagate || (g.gcstate == Atomic && g.gray == []))
  }

  lemma SameHeap(g: Heap, d: Heap)
    requires DeadKeys(d, g) && forall r :: r in g && g[r].Table? ==> g[r].nodes == []
    ensures d == g
  {
    forall r | r in g ensures d[r] == g[r] { assert DeadKeyObject(d[r], g[r]); }
  }

  lemma SetupShape()
    ensures var h := SetupHeap(7);
            h.Keys == LIMIT && h[0] == Thread([Coll(1)]) && h[1] == Table(Coll(2), BOTH, [], []) && h[2] == PLAIN
  {
  }

  lemma FirstOnTheWay(d: G)
    requires Stepped(SetupState(7), d, 1, 0, LIMIT)
    ensures OnTheWay(d) && LimitOK(d, LIMIT) && Marks(d) <= LIMIT
  {
    hide LimitOK, Tidy, SetupHeap;
    SetupShape();
    var g := SetupState(7);
    assert Grow(Emptied(g), d.(gcstate := Pause), {}, LIMIT);
    assert d.upvals == map[];
    assert 0 in Marks(d);
    assert 0 in Added(Emptied(g), d.(gcstate := Pause)) <==> NewlyGray(Emptied(g), d.(gcstate := Pause), 0);
  }

  lemma NextOnTheWay(s: G, d: G)
    requires OnTheWay(s) && s.gcstate == Propagate && Stepped(s, d, 1, 0, LIMIT)
    ensures OnTheWay(d) && LimitOK(d, LIMIT) && Marks(d) <= LIMIT
  {
    hide LimitOK, SetupHeap, Clean, FewerHeap;
    SetupShape();
    assert d.heap == s.heap by { CleanHeap(s, d); }
    assert d.upvals == map[] by { assert TouchUps(d.upvals, s.upvals); }
    hide Stepped, SetupState, Traced;
    VisitOnTheWay(s, d);
  }

  lemma VisitOnTheWay(s: G, d: G)
    requires OnTheWay(s) && VisitsFirst(s, d) && d.marked.Keys == LIMIT
    ensures 1 !in d.grayagain && !d.marked[1].Black? && (0 in d.gray || !d.marked[1].White?)
  {
    hide SetupHeap;
    SetupShape();
    var o := s.gray[0];
    assert s.gray == [o] + s.gray[1..];
    forall r | r in s.gray[1..] ensures r in d.gray { InSuffix(s.gray[1..], d.gray, r); }
    assert 1 in Marks(d) <==> !d.marked[1].White?;
    assert o == 0 ==> In([Coll(1)][0], Marks(d));
  }

  lemma InSuffix(l: seq<Ref>, m: seq<Ref>, r: Ref)
    requires Suffix(l, m) && r in l
    ensures r in m
  {
    assert m == m[..|m| - |l|] + l;
  }

  lemma CleanHeap(g: G, d: G)
    requires Clean(g, d) && forall r :: r in g.heap && g.heap[r].Table? ==> g.heap[r].nodes == []
    ensures d.heap == g.heap
  {
    SameHeap(g.heap, d.heap);
  }

  /** When the atomic step is due the table is parked. */
  lemma NowParked(g: G)
    requires OnTheWay(g) && Inv(g) && g.gcstate == Atomic
    ensures ParkedWeak(g, 1) && 1 in g.allweak && Alive(g) == LIMIT
  {
    hide Core, Tri, Queued, SetupHeap;
    SetupShape();
    assert 1 in g.heap && g.heap[1].Table? by { assert g.heap == SetupHeap(7); }
    assert Idle(g, {}, g.grayagain, 1);
    assert Waiting(g, 1, Marks(g));
    assert Alive(g) == g.marked.Keys;
  }

  /** The program creates another table and makes it the metatable of the parked one. */
  function StoreActs(): seq<Action> {
    [Create(PLAIN), StackSet(0, [Coll(1), Coll(3)]), MetaSet(1, Coll(3), false), StackSet(0, [Coll(1)])]
  }

  /** The states that these actions lead through, from g. */
  function StoreState(g: G, k: nat): G
    requires g.heap == SetupHeap(7)
  {
    var h1 := g.heap[3 := PLAIN];
    var h2 := h1[0 := Thread([Coll(1), Coll(3)])];
    var h3 := h2[1 := WithMeta(h2[1], Coll(3))];
    var h4 := h3[0 := Thread([Coll(1)])];
    if k == 0 then g
    else g.(heap := if k == 1 then h1 else if k == 2 then h2 else if k == 3 then h3 else h4,
            marked := g.marked[3 := White(g.cw)], allgc := [3] + g.allgc, top := 4)
  }

  /** A state in which the table is parked. */
  ghost predicate ParkedTable(g: G) {
    && OnTheWay(g) && g.gcstate == Atomic && 1 in g.allweak && Alive(g) == LIMIT && g.heap == SetupHeap(7)
  }

  lemma StoreStep(g: G, k: nat)
    requires k < 4 && ParkedTable(g)
    ensures var s := StoreState(g, k);
            Enabled(s, StoreActs()[k]) && forall d :: Acted(s, StoreActs()[k], d) ==> d == StoreState(g, k + 1)
  {
    hide MetaActed, SetupHeap;
    SetupShape();
    var s := StoreState(g, k);
    assert k > 0 ==> Alive(s) == {0, 1, 2, 3};
    if k == 2 { MetaQuiet(s, 1, Coll(3)); }
  }

  function StoreStates(g: G): seq<G>
    requires g.heap == SetupHeap(7)
  {
    [StoreState(g, 0), StoreState(g, 1), StoreState(g, 2), StoreState(g, 3), StoreState(g, 4)]
  }

  lemma StoreFollows(g: G, h: seq<G>, done: nat)
    requires ParkedTable(g) && done <= 4 && History(h, StoreActs()[..done]) && h[0] == g
    ensures |h| == done + 1 && h[done] == StoreState(g, done)
    ensures done < 4 ==> Enabled(h[done], StoreActs()[done])
  {
    hide Enabled, Acted, StoreActs, OnTheWay, SetupHeap;
    StoreLength();
    forall k | 0 <= k < 4
      ensures Enabled(StoreStates(g)[k], StoreActs()[k])
      ensures forall d :: Acted(StoreStates(g)[k], StoreActs()[k], d) ==> d == StoreStates(g)[k + 1]
    {
      StoreStep(g, k);
      assert StoreStates(g)[k] == StoreState(g, k) && StoreStates(g)[k + 1] == StoreState(g, k + 1);
    }
    Follows(h, StoreActs(), done, StoreStates(g));
    if done < 4 { StoreStep(g, done); }
  }

  lemma StoreLength()
    ensures |StoreActs()| == 4 && forall k :: 0 <= k < 4 ==> !StoreActs()[k].Collect?
  {
  }

  /** The objects from before the store bound what the cycle can still mark: the table is in
      'allweak', so nothing will look at its metatable. */
  lemma StoreLimit(g: G)
    requires ParkedTable(g)
    ensures var s := StoreState(g, 4); LimitOK(s, LIMIT) && Marks(s) <= LIMIT && s.gcstate == Atomic
  {
    hide SetupHeap;
    SetupShape();
    var s := StoreState(g, 4);
    assert Strings(s.heap) == {};
    assert Bound(s, LIMIT);
  }

  /** n steps of the collector. */
  function Collects(n: nat): (s: seq<Action>)
    ensures |s| == n
  {
    if n == 0 then [] else Collects(n - 1) + [Collect(1, 0)]
  }

  lemma HistoryJoin(h: seq<G>, acts: seq<Action>, h': seq<G>, acts': seq<Action>)
    requires History(h, acts) && History(h', acts') && h[|acts|] == h'[0]
    ensures History(h + h'[1..], acts + acts') && (h + h'[1..])[|acts| + |acts'|] == h'[|acts'|] && (h + h'[1..])[0] == h[0]
  {
    hide Enabled, Acted;
    var l, a := h + h'[1..], acts + acts';
    forall i | 0 <= i < |a| ensures Enabled(l[i], a[i]) && Acted(l[i], a[i], l[i + 1]) {
      if i < |acts| {
        assert l[i] == h[i] && l[i + 1] == h[i + 1] && a[i] == acts[i];
      } else {
        assert l[i] == h'[i - |acts|] && l[i + 1] == h'[i + 1 - |acts|] && a[i] == acts'[i - |acts|];
      }
    }
  }

  lemma HistoryOne(g: G)
    ensures History([g], Collects(0))
  {
  }

  lemma CollectMore(h: seq<G>, n: nat, d: G, limit: set<Ref>)
    requires History(h, Collects(n)) && Stepped(h[n], d, 1, 0, limit)
    ensures History(h + [d], Collects(n + 1)) && (h + [d])[n + 1] == d && (h + [d])[0] == h[0]
  {
    hide Enabled, Acted, Stepped, History;
    HistoryLength(h, Collects(n));
    CollectActed(h[n], 1, 0, d, limit);
    HistoryMore(h, Collects(n), Collect(1, 0), d);
  }

  lemma HistoryLength(h: seq<G>, acts: seq<Action>)
    requires History(h, acts)
    ensures |h| == |acts| + 1
  {
  }

  /** The cycle starts, and marks until the atomic step is due. */
  method MarkOn(g: GlobalState) returns (n: nat, ghost h: seq<G>)
    requires g.Snap() == SetupState(7) && Inv(g.Snap())
    modifies g
    ensures History(h, Collects(n)) && |h| == n + 1 && h[0] == old(g.Snap()) && h[n] == g.Snap()
    ensures Inv(g.Snap()) && ParkedTable(g.Snap())
  {
    hide Inv, Stepped, LimitOK, OnTheWay, Acted, History, SetupState, Unmarked, Lost;
    SetupLimit();
    SetupPause();
    h := [g.Snap()];
    HistoryOne(g.Snap());
    Act(g, Collect(1, 0), LIMIT);
    FirstOnTheWay(g.Snap());
    CollectMore(h, 0, g.Snap(), LIMIT);
    h, n := h + [g.Snap()], 1;
    while g.gcstate != Atomic
      invariant Inv(g.Snap()) && OnTheWay(g.Snap()) && LimitOK(g.Snap(), LIMIT) && Marks(g.Snap()) <= LIMIT
      invariant History(h, Collects(n)) && |h| == n + 1 && h[0] == old(g.Snap()) && h[n] == g.Snap()
      decreases |Whites(g.Snap())|, |g.gray|, if g.gcstate == Atomic then 0 else 1
    {
      ghost var s := g.Snap();
      StillTracing(s);
      Act(g, Collect(1, 0), LIMIT);
      NextOnTheWay(s, g.Snap());
      Progress(s, g.Snap());
      CollectMore(h, n, g.Snap(), LIMIT);
      h, n := h + [g.Snap()], n + 1;
    }
    NowParked(g.Snap());
    StillTracing(g.Snap());
  }

  lemma SetupPause()
    ensures SetupState(7).gcstate == Pause
  {
  }

  lemma StillTracing(g: G)
    requires OnTheWay(g)
    ensures (g.gcstate == Propagate || g.gcstate == Atomic) && g.heap == SetupHeap(7)
  {
  }

  lemma Progress(g: G, d: G)
    requires g.gcstate == Propagate && Stepped(g, d, 1, 0, LIMIT)
    ensures |Whites(d)| < |Whites(g)| || (|Whites(d)| == |Whites(g)| && |d.gray| < |g.gray|)
  {
    hide Clean, Traced, LimitOK, VisitsFirst;
  }

  /** The sweep, to its end. */
  method SweepOn(g: GlobalState) returns (n: nat, ghost h: seq<G>)
    requires Held(g.Snap()) && Sweeping(g.gcstate)
    modifies g
    ensures History(h, Collects(n)) && |h| == n + 1 && h[0] == old(g.Snap()) && h[n] == g.Snap()
    ensures Held(g.Snap()) && g.gcstate == CallFin && Trimmed(old(g.Snap()), g.Snap())
  {
    hide Held, Inv, Trimmed, Stepped, Rest, RefsAlive, History, Acted;
    ghost var s0 := g.Snap();
    TrimmedRefl(s0);
    h, n := [s0], 0;
    HistoryOne(s0);
    while g.gcstate != CallFin
      invariant Held(g.Snap()) && Trimmed(s0, g.Snap()) && (Sweeping(g.gcstate) || g.gcstate == SwpEnd || g.gcstate == CallFin)
      invariant History(h, Collects(n)) && |h| == n + 1 && h[0] == s0 && h[n] == g.Snap()
      decreases LateRank(g.Snap()), LateRest(g.Snap())
    {
      ghost var s := g.Snap();
      SingleStep(g, 1, 0, {});
      LateStep(s, g.Snap(), 1, {});
      TrimmedTrans(s0, s, g.Snap());
      SweepNext(s, g.Snap(), 1);
      RestNat(g.Snap());
      RestNat(s);
      CollectMore(h, n, g.Snap(), {});
      h, n := h + [g.Snap()], n + 1;
    }
  }

  /** From the beginning: the table and its first metatable, marking, the store, and the collector to the
      end of the sweep. The new metatable is freed, and the table on the stack still refers to it. */
  method ParkedMetatableFreed() returns (g: GlobalState, n: nat, m: nat, ghost h: seq<G>)
    ensures fresh(g) && History(h, SetupActs() + Collects(n) + StoreActs() + Collects(m)) && h[0] == Initial(0)
    ensures h[|h| - 1] == g.Snap() && !Safe(g.Snap())
  {
    hide Inv, Safe, Lost, History, Enabled, Acted, SetupState, SetupActs, StoreActs, StoreState, Initial, ParkedTable, LimitOK, Stepped,
      AtomicDone, Sweeps, Trimmed, SweptOut, Held, MetasAlive;
    g := new GlobalState(0);
    InitialInv(0);
    SetupLength();
    var done, h1 := Run(g, SetupActs());
    SetupFollows(h1, done);
    assert SetupActs()[..7] == SetupActs();
    ghost var h2;
    n, h2 := MarkOn(g);
    ghost var a := g.Snap();
    StoreLength();
    ghost var h3;
    done, h3 := Run(g, StoreActs());
    StoreFollows(a, h3, done);
    assert StoreActs()[..4] == StoreActs();
    StoreLimit(a);
    ghost var s := g.Snap();
    CollectEnabled(s);
    Act(g, Collect(1, 0), LIMIT);
    ghost var s2 := g.Snap();
    AfterStore(s, s2);
    var k, h4 := SweepOn(g);
    m := k + 1;
    StoreFreed(a, s, s2, g.Snap());
    h := JoinAll(h1, h2, n, h3, s, s2, h4, k);
  }

  lemma CollectEnabled(g: G)
    ensures Enabled(g, Collect(1, 0))
  {
  }

  lemma CollectsMore(k: nat)
    ensures Collects(1) + Collects(k) == Collects(k + 1)
  {
    assert Collects(0) == [] && Collects(1) == [] + [Collect(1, 0)];
    if k > 0 {
      CollectsMore(k - 1);
      assert Collects(1) + Collects(k) == (Collects(1) + Collects(k - 1)) + [Collect(1, 0)];
    }
  }

  lemma JoinAll(h1: seq<G>, h2: seq<G>, n: nat, h3: seq<G>, s: G, s2: G, h4: seq<G>, k: nat) returns (h: seq<G>)
    requires History(h1, SetupActs()) && History(h2, Collects(n)) && History(h3, StoreActs()) && History(h4, Collects(k))
    requires h1[7] == h2[0] && h2[n] == h3[0] && h3[4] == s && Stepped(s, s2, 1, 0, LIMIT) && s2 == h4[0]
    ensures History(h, SetupActs() + Collects(n) + StoreActs() + Collects(k + 1)) && h[0] == h1[0] && h[|h| - 1] == h4[k]
  {
    hide Stepped, Enabled, Acted, History;
    SetupLength();
    StoreLength();
    HistoryLength(h1, SetupActs());
    HistoryLength(h2, Collects(n));
    HistoryLength(h3, StoreActs());
    HistoryLength(h4, Collects(k));
    hide SetupActs, StoreActs, Collects;
    HistoryOne(s);
    CollectMore([s], 0, s2, LIMIT);
    var h5 := [s] + [s2];
    HistoryJoin(h5, Collects(1), h4, Collects(k));
    CollectsMore(k);
    var t5 := h5 + h4[1..];
    HistoryLength(t5, Collects(k + 1));
    HistoryJoin(h1, SetupActs(), h2, Collects(n));
    var t2 := h1 + h2[1..];
    HistoryJoin(t2, SetupActs() + Collects(n), h3, StoreActs());
    var t3 := t2 + h3[1..];
    HistoryJoin(t3, SetupActs() + Collects(n) + StoreActs(), t5, Collects(k + 1));
    h := t3 + t5[1..];
    HistoryLength(h, SetupActs() + Collects(n) + StoreActs() + Collects(k + 1));
  }

  lemma AfterStore(s: G, d: G)
    requires s.gcstate == Atomic && Stepped(s, d, 1, 0, LIMIT) && (Inv(d) || Lost(d))
    ensures Held(d) && Sweeping(d.gcstate)
  {
    hide Inv, Held, RefsBut, MetasAlive;
    InvHeld(d);
    AfterAtomic(s, d, 1, 0, LIMIT);
  }

  lemma StoreFreed(a: G, s: G, s2: G, d: G)
    requires ParkedTable(a) && s == StoreState(a, 4) && Stepped(s, s2, 1, 0, LIMIT)
    requires Trimmed(s2, d) && Held(d) && d.gcstate == CallFin
    ensures !Safe(d)
  {
    hide Trimmed, Held, Safe, SweptOut, AtomicDone, Sweeps, ParkedTable;
    StoreKept(a);
    hide StoreState;
    var m :| AtomicDone(s, m, LIMIT) && Sweeps(m.(gcstate := SwpAllGc), s2.(sweepgc := Null), AllGc);
    CallFinAlive(d);
    TrimmedSwept(m, s2, d);
    ParkedOutcome(s, m, d);
  }

  lemma StoreKept(a: G)
    requires ParkedTable(a)
    ensures var s := StoreState(a, 4);
            && s.gcstate == Atomic && s.mainthread == 0 && 0 in s.heap && s.heap[0] == Thread([Coll(1)])
            && 1 in s.heap && s.heap[1].Table? && s.heap[1].meta == Coll(3) && 1 in Marks(s)
  {
    hide SetupHeap;
    SetupShape();
  }

  /** The marked table is still there, the thread too, and nothing beyond the limit. */
  lemma ParkedOutcome(s: G, m: G, d: G)
    requires s.mainthread == 0 && 0 in s.heap && s.heap[0] == Thread([Coll(1)])
    requires 1 in s.heap && s.heap[1].Table? && s.heap[1].meta == Coll(3) && 1 in Marks(s)
    requires AtomicDone(s, m, LIMIT) && SweptOut(m, d)
    ensures !Safe(d)
  {
    hide Strongly, RefsBut, Shaped, MetasFrom, TwupsAlive, FinIn;
    assert Fewer(m.heap[0], s.heap[0]) && Fewer(m.heap[1], s.heap[1]);
    assert 0 in Alive(m) && 1 in Alive(m) && 3 !in d.heap;
    ParkedChain(d);
  }

  lemma ParkedChain(d: G)
    requires d.mainthread == 0 && 0 in d.heap && d.heap[0] == Thread([Coll(1)])
    requires 1 in d.heap && d.heap[1].Table? && d.heap[1].meta == Coll(3) && 3 !in d.heap
    ensures !Safe(d)
  {
    assert 1 in RefsOf([Coll(1)]) by { assert [Coll(1)][0].ref == 1; }
    assert Path(d, [0, 1, 3]);
    assert Reachable(d, 3);
  }
}
