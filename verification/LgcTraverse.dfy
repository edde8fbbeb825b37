/** The traversal functions of lgc.c: they visit one gray object and link weak tables into the
    list that fits. */
module LgcTraverse {
  import opened LgcHeap
  import opened LgcGrow
  import opened LgcMark

  /** The tables' lists of d as they were in g. */
  function Unlinked(g: G, d: G): G {
    d.(grayagain := g.grayagain, weak := g.weak, allweak := g.allweak, ephemeron := g.ephemeron)
  }

  // ----- Weak values -----

  /** Scan of the hash part of a table with weak values: is there a value to clear? */
  method ScanWeakValue(g: GlobalState, h: Ref, ghost limit: set<Ref>) returns (hasclears: bool)
    requires Ready(g.Snap(), limit) && h in g.heap && g.heap[h].Table? && KeysIn(g.heap[h].nodes, limit)
    requires StrValsIn(g.heap, g.heap[h].nodes, limit)
    modifies g
    ensures Grow(old(g.Snap()), g.Snap(), {}, limit) && g.upvals == old(g.upvals) && DeadKeys(g.heap, old(g.heap))
    ensures h in g.heap && g.heap[h].Table? && g.heap[h].arr == old(g.heap)[h].arr
    ensures KeysIn(g.heap[h].nodes, Marks(g.Snap()))
    ensures !hasclears ==> g.heap[h].arr == [] && EntriesIn(g.heap[h].nodes, Marks(g.Snap()))
  {
    hide Grow, Ready, DeadKeys;
    ghost var s0 := g.Snap();
    ghost var ns := g.heap[h].nodes;
    hasclears := |g.heap[h].arr| > 0;
    TableRefs(s0, h, limit);
    GrowRefl(s0, limit);
    DeadKeysRefl(s0.heap);
    for i := 0 to |g.heap[h].nodes|
      invariant Ready(g.Snap(), limit) && Grow(s0, g.Snap(), {}, limit) && g.upvals == s0.upvals
      invariant h in g.heap && g.heap.Keys == s0.heap.Keys && DeadKeys(g.heap, s0.heap)
      invariant g.heap[h].Table? && g.heap[h].arr == s0.heap[h].arr && |g.heap[h].nodes| == |ns|
      invariant hasclears || g.heap[h].arr == []
      invariant forall j :: i <= j < |ns| ==> g.heap[h].nodes[j] == ns[j]
      invariant forall j :: 0 <= j < i ==> g.heap[h].nodes[j].val != Nil ==> In(g.heap[h].nodes[j].key, Marks(g.Snap()))
      invariant !hasclears ==> forall j :: 0 <= j < i ==> EntryIn(g.heap[h].nodes[j], Marks(g.Snap()))
    {
      ghost var s := g.Snap();
      var n := g.heap[h].nodes[i];
      assert n == ns[i] && EntryIn(ns[i], s0.heap.Keys);
      if n.val == Nil {
        RemoveEntry(g, h, i, limit);
        DeadKeysTrans(s0.heap, s.heap, g.heap);
      } else {
        MarkValue(g, n.key, limit);
        ghost var m := g.Snap();
        GrowOn0(s, m, limit);
        if !hasclears {
          ScanStr(s0, m, n.val, limit);
          hasclears := IsCleared(g, n.val, limit);
          GrowOn(s, m, g.Snap(), limit);
        }
      }
      GrowOn(s0, s, g.Snap(), limit);
      GrowFacts(s0, g.Snap(), limit);
    }
  }

  lemma ScanStr(s0: G, m: G, v: TValue, limit: set<Ref>)
    requires DeadKeys(m.heap, s0.heap) && StrIn(s0.heap, v, limit)
    ensures StrIn(m.heap, v, limit)
  {
    DeadKeysFewer(s0.heap, m.heap);
    StrFewer(s0.heap, m.heap, v, limit);
  }

  /** 'traverseweakvalue' */
  method TraverseWeakValue(g: GlobalState, h: Ref, ghost limit: set<Ref>)
    requires Ready(g.Snap(), limit) && h in g.heap && g.heap[h].Table? && KeysIn(g.heap[h].nodes, limit)
    requires StrValsIn(g.heap, g.heap[h].nodes, limit)
    modifies g
    ensures Grow(old(g.Snap()), Unlinked(old(g.Snap()), g.Snap()), {}, limit) && g.upvals == old(g.upvals)
    ensures DeadKeys(g.heap, old(g.heap))
    ensures h in g.heap && g.heap[h].Table? && KeysIn(g.heap[h].nodes, Marks(g.Snap()))
    ensures g.allweak == old(g.allweak) && g.ephemeron == old(g.ephemeron)
    ensures if g.gcstate == Propagate then g.grayagain == [h] + old(g.grayagain) && g.weak == old(g.weak)
            else g.grayagain == old(g.grayagain)
                 && (g.weak == [h] + old(g.weak) ||
                     (g.weak == old(g.weak) && g.heap[h].arr == [] && EntriesIn(g.heap[h].nodes, Marks(g.Snap()))))
  {
    hide Grow, Ready, Marked;
    var hasclears := ScanWeakValue(g, h, limit);
    GrowFacts(old(g.Snap()), g.Snap(), limit);
    ghost var d := g.Snap();
    if g.gcstate == Propagate {
      g.grayagain := [h] + g.grayagain;
    } else if hasclears {
      g.weak := [h] + g.weak;
    }
    assert Unlinked(old(g.Snap()), g.Snap()) == d;
  }

  // ----- Ephemerons -----

  /** Entries of an ephemeron table whose key is held have their value in s; string keys count as
      held. */
  predicate Settled(h: Heap, ns: seq<Node>, s: set<Ref>) {
    EphemeronIn(ns, s) && StringKeysIn(h, ns, s)
  }

  predicate StringKeysIn(h: Heap, ns: seq<Node>, s: set<Ref>) {
    forall i :: 0 <= i < |ns| && ns[i].val != Nil && ns[i].key.Coll? && IsString(h, ns[i].key.ref) ==>
      ns[i].key.ref in s
  }

  /** One entry: its string key is in s, and so is its value if its key is. */
  predicate SettledNode(h: Heap, n: Node, s: set<Ref>) {
    n.val != Nil ==>
      && (n.key.Coll? && IsString(h, n.key.ref) ==> n.key.ref in s)
      && (In(n.key, s) ==> In(n.val, s))
  }

  predicate StringsOnly(h: Heap, s: set<Ref>, t: set<Ref>) {
    forall r :: r in t && r !in s ==> IsString(h, r)
  }

  /** Only strings have been marked in between. */
  lemma SettledMore(h: Heap, h': Heap, n: Node, s: set<Ref>, t: set<Ref>)
    requires SettledNode(h, n, s) && StringsOnly(h', s, t) && s <= t
    requires forall r :: IsString(h, r) <==> IsString(h', r)
    ensures SettledNode(h', n, t)
  {
  }

  /** 'traverseephemeron' without its last part: visits the entries. */
  method ScanEphemeron(g: GlobalState, h: Ref, ghost limit: set<Ref>)
    returns (marked: bool, hasclears: bool, hasww: bool)
    requires Ready(g.Snap(), limit) && h in g.heap && g.heap[h].Table?
    requires ValsIn(g.heap[h].arr, limit) && EphemeronIn(g.heap[h].nodes, limit)
    requires StrKeysIn(g.heap, g.heap[h].nodes, limit, false)
    modifies g
    ensures Grow(old(g.Snap()), g.Snap(), {}, limit) && g.upvals == old(g.upvals) && DeadKeys(g.heap, old(g.heap))
    ensures h in g.heap && g.heap[h].Table? && g.heap[h].arr == old(g.heap)[h].arr
    ensures ValsIn(g.heap[h].arr, Marks(g.Snap()))
    ensures !hasclears ==> EntriesIn(g.heap[h].nodes, Marks(g.Snap()))
    ensures !hasww ==> AllVals(g.heap[h].nodes, Marks(g.Snap()))
    ensures marked ==> |Whites(g.Snap())| < |Whites(old(g.Snap()))|
    ensures !marked ==> Settled(g.heap, g.heap[h].nodes, Marks(g.Snap()))
                        && StringsOnly(g.heap, Marks(old(g.Snap())), Marks(g.Snap()))
  {
    hide Grow, Ready, DeadKeys, Marked, Unmarked, Settled, SettledNode, Scanned;
    ghost var s0 := g.Snap();
    TableRefs(s0, h, limit);
    marked := ScanArray(g, g.heap[h].arr, limit);
    GrowOn0(s0, g.Snap(), limit);
    hasclears, hasww := false, false;
    ScanStart(s0, g.Snap(), h, marked, limit);
    for i := 0 to |g.heap[h].nodes|
      invariant h in g.heap && g.heap[h].Table? && |g.heap[h].nodes| == |s0.heap[h].nodes|
      invariant Scanned(s0, g.Snap(), h, i, marked, hasclears, hasww, limit)
    {
      ghost var s := g.Snap();
      ScanNode(s0, s, h, i, marked, hasclears, hasww, limit);
      var m, c, w := ScanEntry(g, h, i, limit);
      ScanOn(s0, s, g.Snap(), h, i, marked, hasclears, hasww, m, c, w, limit);
      marked, hasclears, hasww := marked || m, hasclears || c, hasww || w;
    }
    ScanEnd(s0, g.Snap(), h, marked, hasclears, hasww, limit);
  }

  /** The first i entries have been visited. */
  ghost predicate Scanned(s0: G, d: G, h: Ref, i: nat, marked: bool, hasclears: bool, hasww: bool, limit: set<Ref>) {
    && h in s0.heap && s0.heap[h].Table? && h in d.heap && d.heap[h].Table?
    && Ready(s0, limit) && Ready(d, limit) && Grow(s0, d, {}, limit) && d.upvals == s0.upvals && DeadKeys(d.heap, s0.heap)
    && var ns, s := d.heap[h].nodes, Marks(d);
       && |ns| == |s0.heap[h].nodes| && i <= |ns| && d.heap[h].arr == s0.heap[h].arr && ValsIn(d.heap[h].arr, s)
       && (forall j :: i <= j < |ns| ==> ns[j] == s0.heap[h].nodes[j])
       && (marked ==> |Whites(d)| < |Whites(s0)|)
       && (!hasclears ==> EntriesIn(ns[..i], s))
       && (!hasww ==> AllVals(ns[..i], s))
       && (!marked ==> StringsOnly(d.heap, Marks(s0), s) && SettledTo(d.heap, ns, i, s))
  }

  lemma ScanStart(s0: G, d: G, h: Ref, marked: bool, limit: set<Ref>)
    requires Ready(s0, limit) && Ready(d, limit) && Grow(s0, d, {}, limit) && d.heap == s0.heap && d.upvals == s0.upvals
    requires h in s0.heap && s0.heap[h].Table? && ValsIn(d.heap[h].arr, Marks(d))
    requires marked ==> |Whites(d)| < |Whites(s0)|
    requires !marked ==> Marks(d) == Marks(s0)
    ensures Scanned(s0, d, h, 0, marked, false, false, limit)
  {
    hide Grow, Ready;
    DeadKeysRefl(s0.heap);
  }

  lemma ScanNode(s0: G, s: G, h: Ref, i: nat, marked: bool, hasclears: bool, hasww: bool, limit: set<Ref>)
    requires Scanned(s0, s, h, i, marked, hasclears, hasww, limit) && i < |s0.heap[h].nodes|
    requires EphemeronIn(s0.heap[h].nodes, limit) && StrKeysIn(s0.heap, s0.heap[h].nodes, limit, false)
    ensures Ready(s, limit) && i < |s.heap[h].nodes|
    ensures var n := s.heap[h].nodes[i];
            n.val != Nil ==> In(n.key, s.heap.Keys) && In(n.val, s.heap.Keys) && (In(n.key, limit) ==> In(n.val, limit))
                             && StrIn(s.heap, n.key, limit)
  {
    hide Grow, Ready;
    TableRefs(s0, h, limit);
    if s0.heap[h].nodes[i].val != Nil { ScanStr(s0, s, s0.heap[h].nodes[i].key, limit); }
    assert EntryIn(s0.heap[h].nodes[i], s0.heap.Keys);
  }

  lemma ScanOn(s0: G, s: G, d: G, h: Ref, i: nat, marked: bool, hasclears: bool, hasww: bool,
               m: bool, c: bool, w: bool, limit: set<Ref>)
    requires Scanned(s0, s, h, i, marked, hasclears, hasww, limit) && i < |s0.heap[h].nodes|
    requires Grow(s, d, {}, limit) && d.upvals == s.upvals && DeadKeys(d.heap, s.heap)
    requires h in d.heap && d.heap[h].Table? && |d.heap[h].nodes| == |s.heap[h].nodes|
    requires d.heap == s.heap[h := s.heap[h].(nodes := s.heap[h].nodes[i := d.heap[h].nodes[i]])]
    requires !c ==> EntryIn(d.heap[h].nodes[i], Marks(d))
    requires !w ==> In(d.heap[h].nodes[i].val, Marks(d))
    requires m ==> |Whites(d)| < |Whites(s)|
    requires !m ==> SettledNode(d.heap, d.heap[h].nodes[i], Marks(d)) && StringsOnly(d.heap, Marks(s), Marks(d))
    ensures Scanned(s0, d, h, i + 1, marked || m, hasclears || c, hasww || w, limit)
  {
    hide Grow, Ready, DeadKeys, SettledNode, Marked, Unmarked, IsString;
    GrowOn(s0, s, d, limit);
    DeadKeysTrans(s0.heap, s.heap, d.heap);
    LessWhite0(s0, s, d, limit);
    if marked { LessWhite0(s0, s, d, limit); } else if m { LessWhite(s0, s, d, limit); }
    var ns := d.heap[h].nodes;
    assert ns[..i + 1] == s.heap[h].nodes[..i] + [ns[i]];
    if !marked && !m {
      SettledStep(s, d, h, i);
      StringsMore(s.heap, d.heap, Marks(s0), Marks(s), Marks(d));
    }
  }

  lemma StringsMore(h: Heap, h': Heap, s: set<Ref>, t: set<Ref>, u: set<Ref>)
    requires StringsOnly(h, s, t) && StringsOnly(h', t, u) && DeadKeys(h', h)
    ensures StringsOnly(h', s, u)
  {
    forall r | r in u && r !in s ensures IsString(h', r) {
      if r in t { assert IsString(h, r) && DeadKeyObject(h'[r], h[r]); }
    }
  }

  lemma ScanEnd(s0: G, d: G, h: Ref, marked: bool, hasclears: bool, hasww: bool, limit: set<Ref>)
    requires h in d.heap && d.heap[h].Table? && Scanned(s0, d, h, |d.heap[h].nodes|, marked, hasclears, hasww, limit)
    ensures Grow(s0, d, {}, limit) && d.upvals == s0.upvals && DeadKeys(d.heap, s0.heap) && d.heap[h].arr == s0.heap[h].arr
    ensures var ns, s := d.heap[h].nodes, Marks(d);
            && ValsIn(d.heap[h].arr, s) && (!hasclears ==> EntriesIn(ns, s)) && (!hasww ==> AllVals(ns, s))
            && (marked ==> |Whites(d)| < |Whites(s0)|)
            && (!marked ==> Settled(d.heap, ns, s) && StringsOnly(d.heap, Marks(s0), s))
  {
    hide Grow, Ready, DeadKeys, SettledNode;
    var ns := d.heap[h].nodes;
    assert ns[..|ns|] == ns;
    if !marked { SettledEnd(d.heap, ns, Marks(d)); }
  }

  predicate SettledTo(h: Heap, ns: seq<Node>, n: nat, s: set<Ref>) {
    n <= |ns| && forall j :: 0 <= j < n ==> SettledNode(h, ns[j], s)
  }

  lemma SettledEnd(h: Heap, ns: seq<Node>, s: set<Ref>)
    requires SettledTo(h, ns, |ns|, s)
    ensures Settled(h, ns, s)
  {
    forall i | 0 <= i < |ns| ensures SettledNode(h, ns[i], s) {}
  }

  lemma SettledStep(s: G, d: G, h: Ref, i: nat)
    requires h in s.heap && s.heap[h].Table? && h in d.heap && d.heap[h].Table? && i < |s.heap[h].nodes|
    requires SettledTo(s.heap, s.heap[h].nodes, i, Marks(s)) && StringsOnly(d.heap, Marks(s), Marks(d)) && Marks(s) <= Marks(d)
    requires |d.heap[h].nodes| == |s.heap[h].nodes|
    requires d.heap == s.heap[h := s.heap[h].(nodes := s.heap[h].nodes[i := d.heap[h].nodes[i]])]
    requires SettledNode(d.heap, d.heap[h].nodes[i], Marks(d))
    ensures SettledTo(d.heap, d.heap[h].nodes, i + 1, Marks(d))
  {
    forall j | 0 <= j < i ensures SettledNode(d.heap, d.heap[h].nodes[j], Marks(d)) {
      SettledMore(s.heap, d.heap, s.heap[h].nodes[j], Marks(s), Marks(d));
    }
  }

  lemma LessWhite(g: G, m: G, d: G, limit: set<Ref>)
    requires Grow(g, m, {}, limit) && Grow(m, d, {}, limit) && |Whites(d)| < |Whites(m)|
    ensures |Whites(d)| < |Whites(g)|
  {
    GrowMarks(g, m, {}, limit);
  }

  lemma LessWhite0(g: G, m: G, d: G, limit: set<Ref>)
    requires Grow(g, m, {}, limit) && Grow(m, d, {}, limit)
    ensures |Whites(d)| <= |Whites(m)| && Marks(m) <= Marks(d)
  {
    GrowMarks(m, d, {}, limit);
  }

  /** The array part: is any element white? */
  method ScanArray(g: GlobalState, vs: seq<TValue>, ghost limit: set<Ref>) returns (marked: bool)
    requires Ready(g.Snap(), limit) && ValsIn(vs, g.heap.Keys) && ValsIn(vs, limit)
    modifies g
    ensures Grow(old(g.Snap()), g.Snap(), {}, limit) && ValsIn(vs, Marks(g.Snap()))
    ensures g.heap == old(g.heap) && g.upvals == old(g.upvals)
    ensures marked ==> |Whites(g.Snap())| < |Whites(old(g.Snap()))|
    ensures !marked ==> Marks(g.Snap()) == Marks(old(g.Snap()))
  {
    hide Grow, Ready;
    ghost var s0 := g.Snap();
    marked := false;
    GrowRefl(s0, limit);
    for i := 0 to |vs|
      invariant Ready(g.Snap(), limit) && Grow(s0, g.Snap(), {}, limit)
      invariant g.heap == s0.heap && g.upvals == s0.upvals
      invariant forall j :: 0 <= j < i ==> In(vs[j], Marks(g.Snap()))
      invariant marked ==> |Whites(g.Snap())| < |Whites(s0)|
      invariant !marked ==> g.Snap() == s0
    {
      ghost var s := g.Snap();
      var w := ValIsWhite(g, vs[i]);
      ReadyKeys(s, limit);
      if w {
        marked := true;
        ReallyMarkObject(g, vs[i].ref, limit);
        MoreMarked(s, g.Snap(), vs[i].ref, limit);
        GrowOn(s0, s, g.Snap(), limit);
        LessWhite(s0, s, g.Snap(), limit);
      }
    }
  }

  lemma MoreMarked(g: G, d: G, o: Ref, limit: set<Ref>)
    requires Grow(g, d, {}, limit) && o in Whites(g) && o in Marks(d)
    ensures |Whites(d)| < |Whites(g)|
  {
    GrowMarks(g, d, {}, limit);
    assert o !in Whites(d);
    Subset(Whites(d), Whites(g));
  }

  /** One entry of the hash part: was its value marked, is its key clearable, are both white? */
  method ScanEntry(g: GlobalState, h: Ref, i: nat, ghost limit: set<Ref>)
    returns (marked: bool, hasclears: bool, hasww: bool)
    requires Ready(g.Snap(), limit) && h in g.heap && g.heap[h].Table? && i < |g.heap[h].nodes|
    requires var n := g.heap[h].nodes[i];
             n.val != Nil ==> In(n.key, g.heap.Keys) && In(n.val, g.heap.Keys) && (In(n.key, limit) ==> In(n.val, limit))
                              && StrIn(g.heap, n.key, limit)
    modifies g
    ensures Grow(old(g.Snap()), g.Snap(), {}, limit) && g.upvals == old(g.upvals) && DeadKeys(g.heap, old(g.heap))
    ensures h in g.heap && g.heap[h].Table? && |g.heap[h].nodes| == |old(g.heap)[h].nodes|
    ensures g.heap == old(g.heap)[h := old(g.heap)[h].(nodes := old(g.heap)[h].nodes[i := g.heap[h].nodes[i]])]
    ensures !hasclears ==> EntryIn(g.heap[h].nodes[i], Marks(g.Snap()))
    ensures !hasww ==> In(g.heap[h].nodes[i].val, Marks(g.Snap()))
    ensures marked ==> |Whites(g.Snap())| < |Whites(old(g.Snap()))|
    ensures !marked ==> SettledNode(g.heap, g.heap[h].nodes[i], Marks(g.Snap()))
                        && StringsOnly(g.heap, Marks(old(g.Snap())), Marks(g.Snap()))
  {
    hide Grow, Ready;
    ghost var s := g.Snap();
    var n := g.heap[h].nodes[i];
    marked, hasclears, hasww := false, false, false;
    DeadKeysRefl(g.heap);
    assert g.heap[h].nodes == g.heap[h].nodes[i := n];
    if n.val == Nil {
      RemoveEntry(g, h, i, limit);
    } else {
      hasclears := IsCleared(g, n.key, limit);
      GrowOn0(s, g.Snap(), limit);
      ghost var m := g.Snap();
      ReadyKeys(m, limit);
      if hasclears {
        hasww := ValIsWhite(g, n.val);
      } else {
        var w := ValIsWhite(g, n.val);
        if w {
          marked := true;
          KeyBound(m, n.key, limit);
          ReallyMarkObject(g, n.val.ref, limit);
          MoreMarked(m, g.Snap(), n.val.ref, limit);
          GrowOn(s, m, g.Snap(), limit);
          LessWhite(s, m, g.Snap(), limit);
        }
      }
    }
  }

  lemma KeyBound(g: G, v: TValue, limit: set<Ref>)
    requires Ready(g, limit) && In(v, Marks(g))
    ensures In(v, limit)
  {
  }

  predicate AllVals(ns: seq<Node>, s: set<Ref>) {
    forall i :: 0 <= i < |ns| ==> In(ns[i].val, s)
  }

  /** 'traverseephemeron' */
  method TraverseEphemeron(g: GlobalState, h: Ref, ghost limit: set<Ref>) returns (marked: bool)
    requires Ready(g.Snap(), limit) && h in g.heap && g.heap[h].Table?
    requires ValsIn(g.heap[h].arr, limit) && EphemeronIn(g.heap[h].nodes, limit)
    requires StrKeysIn(g.heap, g.heap[h].nodes, limit, false)
    modifies g
    ensures Grow(old(g.Snap()), Unlinked(old(g.Snap()), g.Snap()), {}, limit) && g.upvals == old(g.upvals)
    ensures DeadKeys(g.heap, old(g.heap))
    ensures h in g.heap && g.heap[h].Table? && ValsIn(g.heap[h].arr, Marks(g.Snap()))
    ensures marked ==> |Whites(g.Snap())| < |Whites(old(g.Snap()))|
    ensures !marked ==> Settled(g.heap, g.heap[h].nodes, Marks(g.Snap()))
                        && StringsOnly(g.heap, Marks(old(g.Snap())), Marks(g.Snap()))
    ensures g.weak == old(g.weak)
    ensures if g.gcstate == Propagate
            then g.grayagain == [h] + old(g.grayagain) && g.ephemeron == old(g.ephemeron) && g.allweak == old(g.allweak)
            else g.grayagain == old(g.grayagain)
                 && ((g.ephemeron == [h] + old(g.ephemeron) && g.allweak == old(g.allweak)) ||
                     (g.ephemeron == old(g.ephemeron) && g.allweak == [h] + old(g.allweak)
                      && AllVals(g.heap[h].nodes, Marks(g.Snap()))) ||
                     (g.ephemeron == old(g.ephemeron) && g.allweak == old(g.allweak)
                      && EntriesIn(g.heap[h].nodes, Marks(g.Snap()))))
  {
    hide Grow, Ready, Marked, Unmarked, Settled, StringsOnly;
    var hasclears, hasww;
    marked, hasclears, hasww := ScanEphemeron(g, h, limit);
    GrowFacts(old(g.Snap()), g.Snap(), limit);
    ghost var d := g.Snap();
    if g.gcstate == Propagate {
      g.grayagain := [h] + g.grayagain;
    } else if hasww {
      g.ephemeron := [h] + g.ephemeron;
    } else if hasclears {
      g.allweak := [h] + g.allweak;
    }
    assert Unlinked(old(g.Snap()), g.Snap()) == d;
  }
}
