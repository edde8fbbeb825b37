/** The marking functions of lgc.c. */
module LgcMark {
  import opened LgcHeap
  import opened LgcGrow

  class GlobalState {
    var heap: Heap
    var upvals: UpVals
    var marked: map<Ref, Color>
    var cw: bool                   // currentwhite
    var gcstate: GcState
    var gray: seq<Ref>
    var grayagain: seq<Ref>
    var weak: seq<Ref>
    var allweak: seq<Ref>
    var ephemeron: seq<Ref>
    var allgc: seq<Ref>
    var finobj: seq<Ref>
    var tobefnz: seq<Ref>
    var fixedgc: seq<Ref>
    var fin: set<Ref>              // FINALIZEDBIT
    var sweepgc: Ptr
    var mainthread: Ref
    var running: Ref
    var registry: TValue
    var mt: seq<TValue>
    var twups: seq<Ref>
    var top: nat                   // addresses below were used

    constructor (th: Ref)
      ensures Snap() == Initial(th)
    {
      heap, upvals, marked, cw := map[th := Thread([])], map[], map[th := White(false)], false;
      gcstate, sweepgc := Pause, Null;
      gray, grayagain, weak, allweak, ephemeron := [], [], [], [], [];
      allgc, finobj, tobefnz, fixedgc, fin := [], [], [], [], {};
      mainthread, running, registry, mt, twups, top := th, th, Nil, [], [], th + 1;
    }

    function Snap(): G
      reads this
    {
      G(heap, upvals, marked, cw, gcstate, gray, grayagain, weak, allweak, ephemeron,
        allgc, finobj, tobefnz, fixedgc, fin, sweepgc, mainthread, running, registry, mt, twups, top)
    }
  }

  /** A state in which marking makes sense. */
  ghost predicate Ready(g: G, limit: set<Ref>) {
    Wf(g) && NoDead(g) && Bound(g, limit) && Marks(g) <= limit
  }

  lemma GrowReady(g: G, d: G, x: set<Ref>, limit: set<Ref>)
    requires Grow(g, d, x, limit) && Ready(g, limit)
    ensures Ready(d, limit)
  {
    GrowWf(g, d, x, limit);
    GrowBound(g, d, x, limit);
    GrowMarks(g, d, x, limit);
  }

  // ----- reallymarkobject -----

  lemma ReadyKeys(g: G, limit: set<Ref>)
    requires Ready(g, limit)
    ensures g.marked.Keys == g.heap.Keys
  {
  }

  lemma MarkLeaf(g: G, o: Ref, limit: set<Ref>)
    requires Ready(g, limit) && o in g.heap && g.marked[o].White? && o in limit && g.heap[o].Str?
    ensures Grow(g, g.(marked := g.marked[o := Black]), {}, limit)
  {
  }

  lemma MarkGray(g: G, o: Ref, limit: set<Ref>)
    requires Ready(g, limit) && o in g.heap && g.marked[o].White? && o in limit && Traversable(g.heap[o])
    ensures Grow(g, g.(marked := g.marked[o := Gray], gray := [o] + g.gray), {}, limit)
  {
  }

  /** A userdata is gray while its metatable is being marked and black afterwards; its user value
      is still to be marked. */
  lemma MarkUdata(g: G, o: Ref, m: G, limit: set<Ref>)
    requires Ready(g, limit) && o in g.heap && g.marked[o].White? && o in limit && g.heap[o].Udata?
    requires Grow(g.(marked := g.marked[o := Gray]), m, {}, limit) && In(g.heap[o].meta, Marks(m))
    ensures o in m.marked && m.marked[o] == Gray && m.heap[o] == g.heap[o]
    ensures var user := g.heap[o].user;
            Grow(g, m.(marked := m.marked[o := Black]), if user.Coll? then {user.ref} else {}, limit)
  {
    hide Grayed, Recolored, Visited, Wf, Bound, NoDead, TouchUps;
    var d := m.(marked := m.marked[o := Black]);
    ReadyKeys(g, limit);
    UdataKept(g, o, m, limit);
    UdataGrayed(g, o, m, limit);
    UdataRecolored(g, o, m, limit);
    UdataVisited(g, o, m);
  }

  lemma UdataKept(g: G, o: Ref, m: G, limit: set<Ref>)
    requires o in g.heap && o in g.marked && g.heap[o].Udata? && FewerHeap(m.heap, g.heap)
    requires Recolored(g.(marked := g.marked[o := Gray]), m, limit)
    ensures o in m.marked && m.marked[o] == Gray && o in m.heap && m.heap[o] == g.heap[o]
    ensures m.marked.Keys == g.marked.Keys
  {
    assert Fewer(m.heap[o], g.heap[o]);
    assert o in g.marked[o := Gray];
  }

  lemma UdataVisited(g: G, o: Ref, m: G)
    requires o in g.heap && o in g.marked && g.heap[o].Udata? && o in m.marked && m.marked[o] == Gray
    requires In(g.heap[o].meta, Marks(m)) && m.marked.Keys == g.marked.Keys
    requires forall r :: r in g.heap && r in g.marked && g.marked[o := Gray][r].White? && m.marked[r].Black? ==>
                           Visited(g.heap[r], Marks(m) + {})
    ensures var user := g.heap[o].user;
            var d := m.(marked := m.marked[o := Black]);
            var x := if user.Coll? then {user.ref} else {};
            forall r :: r in g.heap && r in g.marked && g.marked[r].White? && d.marked[r].Black? ==>
                          Visited(g.heap[r], Marks(d) + x)
  {
    var user := g.heap[o].user;
    var d := m.(marked := m.marked[o := Black]);
    var x := if user.Coll? then {user.ref} else {};
    assert Marks(d) == Marks(m);
    forall r | r in g.heap && r in g.marked && g.marked[r].White? && d.marked[r].Black?
      ensures Visited(g.heap[r], Marks(d) + x)
    {
      if r != o { assert Visited(g.heap[r], Marks(m) + {}); }
    }
  }

  lemma UdataRecolored(g: G, o: Ref, m: G, limit: set<Ref>)
    requires o in g.heap && o in g.marked && g.marked[o].White? && o in limit && g.heap[o].Udata?
    requires Recolored(g.(marked := g.marked[o := Gray]), m, limit)
    ensures Recolored(g, m.(marked := m.marked[o := Black]), limit)
  {
    var g1 := g.(marked := g.marked[o := Gray]);
    forall r | r in g.marked ensures r in g1.marked {}
  }

  lemma UdataGrayed(g: G, o: Ref, m: G, limit: set<Ref>)
    requires o in g.marked && g.marked[o].White?
    requires var g1 := g.(marked := g.marked[o := Gray]); Recolored(g1, m, limit) && Grayed(g1, m)
    ensures Grayed(g, m.(marked := m.marked[o := Black]))
  {
    var g1, d := g.(marked := g.marked[o := Gray]), m.(marked := m.marked[o := Black]);
    assert Added(g, d) == Added(g1, m);
    forall r ensures r in Added(g, d) <==> NewlyGray(g, d, r) {
      assert r in Added(g1, m) <==> NewlyGray(g1, m, r);
    }
  }

  /** 'reallymarkobject': userdata, strings are turned black here, other objects are marked gray
      and linked into the gray list. */
  method ReallyMarkObject(g: GlobalState, o: Ref, ghost limit: set<Ref>)
    requires Ready(g.Snap(), limit) && o in g.heap && g.marked[o].White? && o in limit
    modifies g
    ensures Grow(old(g.Snap()), g.Snap(), {}, limit) && o in Marks(g.Snap())
    ensures g.heap == old(g.heap) && g.upvals == old(g.upvals)
    decreases |Whites(g.Snap())|, 0
  {
    hide Grow, Ready;
    ghost var s0 := g.Snap();
    var c := o;
    ReadyKeys(s0, limit);
    GrowRefl(s0, limit);
    while g.heap[c].Udata?
      invariant g.heap == s0.heap && g.upvals == s0.upvals
      invariant Ready(g.Snap(), limit) && c in g.heap && c in g.marked && g.marked[c].White? && c in limit
      invariant Grow(s0, g.Snap(), if c == o then {} else {c}, limit) && (c == o || o in Marks(g.Snap()))
      decreases |Whites(g.Snap())|
    {
      var meta, user := g.heap[c].meta, g.heap[c].user;
      ghost var s := g.Snap();
      g.marked := g.marked[c := Gray];
      UdataReady(s, c, limit);
      MarkValue(g, meta, limit);
      ghost var m := g.Snap();
      MarkUdata(s, c, m, limit);
      g.marked := g.marked[c := Black];
      NextUdata(s0, s, g.Snap(), o, c, limit);
      var w := ValIsWhite(g, user);
      if w {
        c := user.ref;
      } else {
        return;
      }
    }
    ghost var s := g.Snap();
    if g.heap[c].Str? {
      g.marked := g.marked[c := Black];
      MarkLeaf(s, c, limit);
    } else {
      g.marked, g.gray := g.marked[c := Gray], [c] + g.gray;
      MarkGray(s, c, limit);
    }
    GrowTrans(s0, s, g.Snap(), if c == o then {} else {c}, {}, limit);
    GrowMarks(s, g.Snap(), {}, limit);
  }

  lemma UdataReady(s: G, c: Ref, limit: set<Ref>)
    requires Ready(s, limit) && c in s.heap && s.marked[c].White? && c in limit && s.heap[c].Udata?
    ensures var s1 := s.(marked := s.marked[c := Gray]);
            Ready(s1, limit) && |Whites(s1)| < |Whites(s)|
    ensures In(s.heap[c].meta, s.heap.Keys) && In(s.heap[c].meta, limit)
    ensures In(s.heap[c].user, s.heap.Keys) && In(s.heap[c].user, limit)
  {
    var s1 := s.(marked := s.marked[c := Gray]);
    assert c in Whites(s) && c !in Whites(s1);
    Subset(Whites(s1), Whites(s));
    assert Alive(s1) == Alive(s);
    assert c in Alive(s);
  }

  lemma NextUdata(s0: G, s: G, d: G, o: Ref, c: Ref, limit: set<Ref>)
    requires Ready(s, limit) && c in s.heap && s.marked[c].White? && s.heap[c].Udata?
    requires Grow(s0, s, if c == o then {} else {c}, limit) && (c == o || o in Marks(s))
    requires var user := s.heap[c].user; Grow(s, d, if user.Coll? then {user.ref} else {}, limit)
    requires c in d.marked && d.marked[c].Black?
    requires In(s.heap[c].user, s.heap.Keys) && In(s.heap[c].user, limit)
    ensures Ready(d, limit) && |Whites(d)| < |Whites(s)| && o in Marks(d)
    ensures In(s.heap[c].user, d.marked.Keys)
    ensures var user := s.heap[c].user; Grow(s0, d, if user.Coll? then {user.ref} else {}, limit)
    ensures var user := s.heap[c].user; In(user, Marks(d)) ==> Grow(s0, d, {}, limit)
  {
    hide Ready, Grow;
    var user := s.heap[c].user;
    var x, y := if c == o then {} else {c}, if user.Coll? then {user.ref} else {};
    GrowReady(s, d, y, limit);
    ReadyKeys(s, limit);
    ReadyKeys(d, limit);
    GrowMarks(s, d, y, limit);
    assert d.heap.Keys == s.heap.Keys by { GrowKeys(s, d, y, limit); }
    assert c in Whites(s) && c !in Whites(d);
    Subset(Whites(d), Whites(s));
    GrowTrans(s0, s, d, x, y, limit);
    if In(user, Marks(d)) {
      GrowRefl(d, limit);
      GrowTrans(s0, d, d, y, {}, limit);
    }
  }

  lemma GrowKeys(s: G, d: G, y: set<Ref>, limit: set<Ref>)
    requires Grow(s, d, y, limit)
    ensures d.heap.Keys == s.heap.Keys
  {
  }

  /** 'valiswhite'. The mark of a key that outlived its object is unspecified. */
  method ValIsWhite(g: GlobalState, v: TValue) returns (w: bool)
    ensures !v.Coll? ==> !w
    ensures v.Coll? && v.ref in g.marked ==> w == g.marked[v.ref].White?
  {
    if !v.Coll? {
      w := false;
    } else if v.ref in g.marked {
      w := g.marked[v.ref].White?;
    } else {
      w := *;
    }
  }

  /** 'markvalue' (and 'markobject', 'markobjectN') */
  method MarkValue(g: GlobalState, v: TValue, ghost limit: set<Ref>)
    requires Ready(g.Snap(), limit) && In(v, g.heap.Keys) && In(v, limit)
    modifies g
    ensures Grow(old(g.Snap()), g.Snap(), {}, limit) && In(v, Marks(g.Snap()))
    ensures g.heap == old(g.heap) && g.upvals == old(g.upvals)
    decreases |Whites(g.Snap())|, 1
  {
    GrowRefl(g.Snap(), limit);
    var w := ValIsWhite(g, v);
    if w { ReallyMarkObject(g, v.ref, limit); }
  }

  /** Mark a vector of values. */
  method MarkValues(g: GlobalState, vs: seq<TValue>, ghost limit: set<Ref>)
    requires Ready(g.Snap(), limit) && ValsIn(vs, g.heap.Keys) && ValsIn(vs, limit)
    modifies g
    ensures Grow(old(g.Snap()), g.Snap(), {}, limit) && ValsIn(vs, Marks(g.Snap()))
    ensures g.heap == old(g.heap) && g.upvals == old(g.upvals)
  {
    hide Grow, Ready;
    ghost var s0 := g.Snap();
    GrowRefl(s0, limit);
    for i := 0 to |vs|
      invariant Ready(g.Snap(), limit) && Grow(s0, g.Snap(), {}, limit)
      invariant g.heap == s0.heap && g.upvals == s0.upvals
      invariant forall j :: 0 <= j < i ==> In(vs[j], Marks(g.Snap()))
    {
      ghost var s := g.Snap();
      MarkValue(g, vs[i], limit);
      GrowOn(s0, s, g.Snap(), limit);
    }
  }

  lemma GrowOn(g: G, m: G, d: G, limit: set<Ref>)
    requires Ready(g, limit) && Grow(g, m, {}, limit) && Grow(m, d, {}, limit)
    ensures Grow(g, d, {}, limit) && Ready(d, limit) && Marks(m) <= Marks(d)
  {
    GrowTrans(g, m, d, {}, {}, limit);
    GrowReady(g, d, {}, limit);
    GrowMarks(m, d, {}, limit);
  }

  lemma GrowFacts(g: G, d: G, limit: set<Ref>)
    requires Grow(g, d, {}, limit)
    ensures d.heap.Keys == g.heap.Keys && d.marked.Keys == g.marked.Keys
    ensures d == g.(heap := d.heap, upvals := d.upvals, marked := d.marked, gray := d.gray)
    ensures forall r :: r in g.heap ==> Fewer(d.heap[r], g.heap[r])
  {
  }

  // ----- Tables -----

  lemma DeadKeysRefl(h: Heap)
    ensures DeadKeys(h, h)
  {
  }

  lemma ShrinkGrow(g: G, h: Ref, o: Object, limit: set<Ref>)
    requires h in g.heap && Fewer(o, g.heap[h])
    ensures Grow(g, g.(heap := g.heap[h := o]), {}, limit)
  {
  }

  /** 'removeentry' */
  method RemoveEntry(g: GlobalState, h: Ref, i: nat, ghost limit: set<Ref>)
    requires Ready(g.Snap(), limit)
    requires h in g.heap && g.heap[h].Table? && i < |g.heap[h].nodes| && g.heap[h].nodes[i].val == Nil
    modifies g
    ensures Grow(old(g.Snap()), g.Snap(), {}, limit) && g.marked == old(g.marked) && g.upvals == old(g.upvals)
    ensures h in g.heap && g.heap[h].Table? && |g.heap[h].nodes| == |old(g.heap)[h].nodes|
    ensures g.heap == old(g.heap)[h := old(g.heap)[h].(nodes := old(g.heap)[h].nodes[i := g.heap[h].nodes[i]])]
    ensures NodeIn(g.heap, g.heap[h].nodes[i], Marks(g.Snap())) && g.heap[h].nodes[i].val == Nil
    ensures DeadKeys(g.heap, old(g.heap))
  {
    ghost var s := g.Snap();
    var n := g.heap[h].nodes[i];
    GrowRefl(s, limit);
    assert g.heap[h].nodes == g.heap[h].nodes[i := n];
    var w := ValIsWhite(g, n.key);
    if w {
      var o := g.heap[h].(nodes := g.heap[h].nodes[i := Node(DeadKey(n.key.ref), Nil)]);
      ShrinkGrow(s, h, o, limit);
      g.heap := g.heap[h := o];
    }
  }

  /** 'iscleared': can the key or value be cleared from a weak table? Strings are marked, and
      never cleared. */
  method IsCleared(g: GlobalState, v: TValue, ghost limit: set<Ref>) returns (c: bool)
    requires Ready(g.Snap(), limit) && In(v, g.heap.Keys) && StrIn(g.heap, v, limit)
    modifies g
    ensures Grow(old(g.Snap()), g.Snap(), {}, limit) && g.heap == old(g.heap) && g.upvals == old(g.upvals)
    ensures c <==> !In(v, Marks(g.Snap()))
    ensures c ==> v.Coll? && v.ref in g.heap && !IsString(g.heap, v.ref)
    ensures forall r :: r in Marks(g.Snap()) && r !in Marks(old(g.Snap())) ==> IsString(g.heap, r)
  {
    GrowRefl(g.Snap(), limit);
    if !v.Coll? {
      c := false;
    } else if g.heap[v.ref].Str? {
      MarkString(g, v, limit);
      c := false;
    } else {
      c := g.marked[v.ref].White?;
    }
  }

  method MarkString(g: GlobalState, v: TValue, ghost limit: set<Ref>)
    requires Ready(g.Snap(), limit) && v.Coll? && IsString(g.heap, v.ref) && v.ref in limit
    modifies g
    ensures Grow(old(g.Snap()), g.Snap(), {}, limit) && g.heap == old(g.heap) && g.upvals == old(g.upvals)
    ensures Marks(g.Snap()) == Marks(old(g.Snap())) + {v.ref}
  {
    GrowRefl(g.Snap(), limit);
    var w := ValIsWhite(g, v);
    if w {
      MarkLeaf(g.Snap(), v.ref, limit);
      g.marked := g.marked[v.ref := Black];
    }
  }

  /** 'traversestrongtable' */
  method TraverseStrongTable(g: GlobalState, h: Ref, ghost limit: set<Ref>)
    requires Ready(g.Snap(), limit) && h in g.heap && g.heap[h].Table?
    requires ValsIn(g.heap[h].arr, limit) && EntriesIn(g.heap[h].nodes, limit)
    modifies g
    ensures Grow(old(g.Snap()), g.Snap(), {}, limit) && g.upvals == old(g.upvals) && DeadKeys(g.heap, old(g.heap))
    ensures h in g.heap && g.heap[h].Table?
    ensures ValsIn(g.heap[h].arr, Marks(g.Snap())) && NodesIn(g.heap, g.heap[h].nodes, Marks(g.Snap()))
  {
    hide Grow, Ready, DeadKeys;
    ghost var s0 := g.Snap();
    ghost var ns := g.heap[h].nodes;
    TableRefs(s0, h, limit);
    DeadKeysRefl(s0.heap);
    MarkValues(g, g.heap[h].arr, limit);
    GrowOn0(s0, g.Snap(), limit);
    for i := 0 to |g.heap[h].nodes|
      invariant Ready(g.Snap(), limit) && Grow(s0, g.Snap(), {}, limit) && g.upvals == s0.upvals
      invariant h in g.heap && g.heap.Keys == s0.heap.Keys && DeadKeys(g.heap, s0.heap)
      invariant g.heap[h].Table? && g.heap[h].arr == s0.heap[h].arr && |g.heap[h].nodes| == |ns|
      invariant ValsIn(g.heap[h].arr, Marks(g.Snap()))
      invariant forall j :: i <= j < |ns| ==> g.heap[h].nodes[j] == ns[j]
      invariant forall j :: 0 <= j < i ==> NodeIn(g.heap, g.heap[h].nodes[j], Marks(g.Snap()))
    {
      ghost var s := g.Snap();
      var n := g.heap[h].nodes[i];
      assert n == ns[i] && EntryIn(ns[i], s0.heap.Keys) && EntryIn(ns[i], limit);
      if n.val == Nil {
        RemoveEntry(g, h, i, limit);
        DeadKeysTrans(s0.heap, s.heap, g.heap);
      } else {
        MarkValue(g, n.key, limit);
        ghost var m := g.Snap();
        GrowOn0(s, m, limit);
        MarkValue(g, n.val, limit);
        GrowOn(s, m, g.Snap(), limit);
      }
      GrowOn(s0, s, g.Snap(), limit);
      GrowFacts(s0, g.Snap(), limit);
    }
  }

  lemma GrowOn0(g: G, d: G, limit: set<Ref>)
    requires Ready(g, limit) && Grow(g, d, {}, limit)
    ensures Ready(d, limit) && Marks(g) <= Marks(d)
  {
    GrowReady(g, d, {}, limit);
    GrowMarks(g, d, {}, limit);
  }

  lemma TableRefs(g: G, h: Ref, limit: set<Ref>)
    requires Ready(g, limit) && h in g.heap && g.heap[h].Table?
    ensures In(g.heap[h].meta, g.heap.Keys) && ValsIn(g.heap[h].arr, g.heap.Keys) && EntriesIn(g.heap[h].nodes, g.heap.Keys)
  {
    assert h in Alive(g);
  }
}
