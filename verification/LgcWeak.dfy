/** Clearing weak tables and the convergence of ephemeron tables. */
module LgcWeak {
  import opened LgcHeap
  import opened LgcGrow
  import opened LgcMark
  import opened LgcTraverse
  import opened LgcPropagate

  predicate NodeValuesIn(ns: seq<Node>, s: set<Ref>) {
    forall i :: 0 <= i < |ns| ==> In(ns[i].val, s)
  }

  /** Values of table o are in s. */
  predicate ValuesIn(o: Object, s: set<Ref>) {
    o.Table? && ValsIn(o.arr, s) && NodeValuesIn(o.nodes, s)
  }

  predicate HeldKeys(o: Object, s: set<Ref>) {
    o.Table? && KeysIn(o.nodes, s)
  }

  predicate Tables(h: Heap, l: seq<Ref>) {
    forall r :: r in l ==> r in h && h[r].Table?
  }

  /** The value belongs to an object that is not in s and is no string. */
  predicate DeadVal(h: Heap, v: TValue, s: set<Ref>) {
    v.Coll? && v.ref !in s && v.ref in h && !h[v.ref].Str?
  }

  /** n' is n, or n was emptied because its key (or its value) is dead. */
  predicate ClearedNode(h: Heap, n': Node, n: Node, s: set<Ref>, keys: bool) {
    || n' == n
    || (n.val != Nil && DeadVal(h, if keys then n.key else n.val, s) && FewerNode(n', n) && n'.val == Nil)
  }

  predicate ClearedVal(h: Heap, v': TValue, v: TValue, s: set<Ref>, keys: bool) {
    v' == v || (!keys && DeadVal(h, v, s) && v' == Nil)
  }

  predicate ClearedObject(h: Heap, o': Object, o: Object, s: set<Ref>, keys: bool) {
    o' == o ||
    (o.Table? && o'.Table? && o'.meta == o.meta && o'.mode == o.mode && |o'.arr| == |o.arr| && |o'.nodes| == |o.nodes|
     && (forall i :: 0 <= i < |o.arr| ==> ClearedVal(h, o'.arr[i], o.arr[i], s, keys))
     && (forall i :: 0 <= i < |o.nodes| ==> ClearedNode(h, o'.nodes[i], o.nodes[i], s, keys)))
  }

  /** Only entries with a dead key (or value) were emptied. */
  ghost predicate ClearedHeap(h': Heap, h: Heap, s: set<Ref>, keys: bool) {
    h'.Keys == h.Keys && forall r :: r in h ==> ClearedObject(h, h'[r], h[r], s, keys)
  }

  lemma ClearedHeapRefl(h: Heap, s: set<Ref>, keys: bool)
    ensures ClearedHeap(h, h, s, keys)
  {
  }

  /** What is dead stays dead while strings get marked. */
  lemma ClearedHeapTrans(h: Heap, m: Heap, d: Heap, s: set<Ref>, t: set<Ref>, keys: bool)
    requires ClearedHeap(m, h, s, keys) && ClearedHeap(d, m, t, keys) && StringsOnly(d, s, t) && s <= t
    ensures ClearedHeap(d, h, t, keys)
  {
    forall r | r in h ensures h[r].Str? == m[r].Str? == d[r].Str? {
      assert ClearedObject(h, m[r], h[r], s, keys) && ClearedObject(m, d[r], m[r], t, keys);
    }
    forall r | r in h ensures ClearedObject(h, d[r], h[r], t, keys) {
      ClearedObjectTrans(h, m, d, h[r], m[r], d[r], s, t, keys);
    }
  }

  lemma ClearedObjectTrans(h: Heap, m: Heap, d: Heap, o: Object, p: Object, q: Object, s: set<Ref>, t: set<Ref>, keys: bool)
    requires ClearedObject(h, p, o, s, keys) && ClearedObject(m, q, p, t, keys)
    requires h.Keys == m.Keys == d.Keys && forall r :: r in h ==> h[r].Str? == m[r].Str? == d[r].Str?
    requires StringsOnly(d, s, t) && s <= t
    ensures ClearedObject(h, q, o, t, keys)
  {
    if o.Table? {
      forall i | 0 <= i < |o.arr| ensures ClearedVal(h, q.arr[i], o.arr[i], t, keys) {
        assert ClearedVal(h, p.arr[i], o.arr[i], s, keys) && ClearedVal(m, q.arr[i], p.arr[i], t, keys);
      }
      forall i | 0 <= i < |o.nodes| ensures ClearedNode(h, q.nodes[i], o.nodes[i], t, keys) {
        assert ClearedNode(h, p.nodes[i], o.nodes[i], s, keys) && ClearedNode(m, q.nodes[i], p.nodes[i], t, keys);
      }
    }
  }

  /** Clearing leads from g to d: entries with dead keys (or values) were emptied, strings
      marked. */
  ghost predicate Clears(g: G, d: G, keys: bool, limit: set<Ref>) {
    && Grow(g, d, {}, limit) && d.gray == g.gray && StringsOnly(d.heap, Marks(g), Marks(d))
    && ClearedHeap(d.heap, g.heap, Marks(d), keys)
  }

  lemma ClearsRefl(g: G, keys: bool, limit: set<Ref>)
    ensures Clears(g, g, keys, limit)
  {
    GrowRefl(g, limit);
  }

  lemma ClearsTrans(g: G, m: G, d: G, keys: bool, limit: set<Ref>)
    requires Clears(g, m, keys, limit) && Clears(m, d, keys, limit)
    ensures Clears(g, d, keys, limit)
  {
    hide Grow, ClearedHeap;
    GrowMarks(g, m, {}, limit);
    GrowTrans(g, m, d, {}, {}, limit);
    GrowMarks(m, d, {}, limit);
    GrowFacts(m, d, limit);
    forall r | r in Marks(d) && r !in Marks(g) ensures IsString(d.heap, r) {
      if r in Marks(m) { assert IsString(m.heap, r); assert Fewer(d.heap[r], m.heap[r]); }
    }
    ClearedHeapTrans(g.heap, m.heap, d.heap, Marks(m), Marks(d), keys);
  }

  lemma ClearsReady(g: G, d: G, keys: bool, limit: set<Ref>)
    requires Clears(g, d, keys, limit) && Ready(g, limit)
    ensures Ready(d, limit) && Marks(g) <= Marks(d) && FewerHeap(d.heap, g.heap)
    ensures d == g.(heap := d.heap, upvals := d.upvals, marked := d.marked)
  {
    GrowReady(g, d, {}, limit);
    GrowMarks(g, d, {}, limit);
  }

  /** Strings go from white to black, not into a list. */
  lemma StringsNotGray(g: G, d: G, limit: set<Ref>)
    requires Grow(g, d, {}, limit) && StringsOnly(d.heap, Marks(g), Marks(d)) && g.marked.Keys == g.heap.Keys
    ensures d.gray == g.gray
  {
    forall r ensures r !in Added(g, d) {
      assert r in Added(g, d) <==> NewlyGray(g, d, r);
      assert NewlyGray(g, d, r) ==> r in Marks(d) && r !in Marks(g);
      if r in g.heap && r in g.marked { assert Fewer(d.heap[r], g.heap[r]); }
    }
    if Added(g, d) != [] { var _ := Member(Added(g, d)); }
  }

  lemma FewerValues(o': Object, o: Object, s: set<Ref>, t: set<Ref>)
    requires Fewer(o', o) && s <= t
    ensures ValuesIn(o, s) ==> ValuesIn(o', t)
    ensures HeldKeys(o, s) ==> HeldKeys(o', t)
  {
    if o.Table? {
      forall i | 0 <= i < |o.nodes| ensures FewerNode(o'.nodes[i], o.nodes[i]) {}
    }
  }

  lemma SetArr(g: G, h: Ref, i: nat, limit: set<Ref>)
    requires h in g.heap && g.heap[h].Table? && i < |g.heap[h].arr| && DeadVal(g.heap, g.heap[h].arr[i], Marks(g))
    ensures Clears(g, g.(heap := g.heap[h := g.heap[h].(arr := g.heap[h].arr[i := Nil])]), false, limit)
  {
    var o := g.heap[h].(arr := g.heap[h].arr[i := Nil]);
    ShrinkGrow(g, h, o, limit);
  }

  /** 'iscleared' as a clearing step */
  method Cleared(g: GlobalState, v: TValue, ghost keys: bool, ghost limit: set<Ref>) returns (c: bool)
    requires Ready(g.Snap(), limit) && In(v, g.heap.Keys) && StrIn(g.heap, v, limit)
    modifies g
    ensures Clears(old(g.Snap()), g.Snap(), keys, limit) && g.heap == old(g.heap) && g.upvals == old(g.upvals)
    ensures if c then DeadVal(g.heap, v, Marks(g.Snap())) else In(v, Marks(g.Snap()))
  {
    hide Grow, Ready;
    ghost var s := g.Snap();
    c := IsCleared(g, v, limit);
    ReadyKeys(s, limit);
    StringsNotGray(s, g.Snap(), limit);
    ClearedHeapRefl(s.heap, Marks(g.Snap()), keys);
  }

  /** The entry loses its value, and an unmarked key is declared dead. */
  method EmptyEntry(g: GlobalState, h: Ref, i: nat, ghost keys: bool, ghost limit: set<Ref>)
    requires Ready(g.Snap(), limit) && h in g.heap && g.heap[h].Table? && i < |g.heap[h].nodes|
    requires var n := g.heap[h].nodes[i];
             n.val != Nil && DeadVal(g.heap, if keys then n.key else n.val, Marks(g.Snap()))
    modifies g
    ensures Clears(old(g.Snap()), g.Snap(), keys, limit) && g.upvals == old(g.upvals)
    ensures h in g.heap && g.heap[h].Table? && |g.heap[h].nodes| == |old(g.heap)[h].nodes|
    ensures g.heap == old(g.heap)[h := old(g.heap)[h].(nodes := old(g.heap)[h].nodes[i := g.heap[h].nodes[i]])]
    ensures g.heap[h].nodes[i].val == Nil
  {
    hide Grow, Ready;
    ghost var s := g.Snap();
    var t := g.heap[h];
    var n := Node(t.nodes[i].key, Nil);
    EmptyStart(s, h, i, n, limit);
    ReadyKeys(s, limit);
    g.heap := g.heap[h := t.(nodes := t.nodes[i := n])];
    ghost var m := g.Snap();
    RemoveEntry(g, h, i, limit);
    EmptyEnd(s, m, g.Snap(), h, i, keys, limit);
  }

  lemma EmptyStart(s: G, h: Ref, i: nat, n: Node, limit: set<Ref>)
    requires Ready(s, limit) && h in s.heap && s.heap[h].Table? && i < |s.heap[h].nodes| && n == Node(s.heap[h].nodes[i].key, Nil)
    ensures var m := s.(heap := s.heap[h := s.heap[h].(nodes := s.heap[h].nodes[i := n])]);
            Grow(s, m, {}, limit) && Ready(m, limit)
  {
    var o := s.heap[h].(nodes := s.heap[h].nodes[i := n]);
    ShrinkGrow(s, h, o, limit);
    GrowReady(s, s.(heap := s.heap[h := o]), {}, limit);
  }

  lemma EmptyEnd(s: G, m: G, d: G, h: Ref, i: nat, keys: bool, limit: set<Ref>)
    requires Grow(s, m, {}, limit) && Grow(m, d, {}, limit) && d.marked == s.marked == m.marked && s.marked.Keys == s.heap.Keys
    requires h in s.heap && s.heap[h].Table? && i < |s.heap[h].nodes| && h in m.heap && m.heap[h].Table? && i < |m.heap[h].nodes|
    requires m.heap == s.heap[h := s.heap[h].(nodes := s.heap[h].nodes[i := m.heap[h].nodes[i]])]
    requires m.heap[h].nodes[i] == Node(s.heap[h].nodes[i].key, Nil)
    requires h in d.heap && d.heap[h].Table? && |d.heap[h].nodes| == |s.heap[h].nodes|
    requires d.heap == m.heap[h := m.heap[h].(nodes := m.heap[h].nodes[i := d.heap[h].nodes[i]])]
    requires DeadKeys(d.heap, m.heap)
    requires var n := s.heap[h].nodes[i];
             n.val != Nil && DeadVal(s.heap, if keys then n.key else n.val, Marks(s))
    ensures Clears(s, d, keys, limit) && d.heap[h].nodes[i].val == Nil
    ensures d.heap == s.heap[h := s.heap[h].(nodes := s.heap[h].nodes[i := d.heap[h].nodes[i]])]
  {
    hide Grow;
    GrowTrans(s, m, d, {}, {}, limit);
    StringsNotGray(s, d, limit);
    assert DeadKeyObject(d.heap[h], m.heap[h]);
    assert DeadKeyNode(d.heap[h].nodes[i], m.heap[h].nodes[i]);
    assert d.heap[h].nodes == s.heap[h].nodes[i := d.heap[h].nodes[i]];
  }

  lemma ClearsOn(g: G, m: G, d: G, keys: bool, limit: set<Ref>)
    requires Ready(g, limit) && Clears(g, m, keys, limit) && Clears(m, d, keys, limit)
    ensures Clears(g, d, keys, limit) && Ready(d, limit) && Marks(m) <= Marks(d) && d.heap.Keys == g.heap.Keys
  {
    hide Clears;
    ClearsTrans(g, m, d, keys, limit);
    ClearsReady(g, d, keys, limit);
    ClearsReady(g, m, keys, limit);
    ClearsReady(m, d, keys, limit);
  }

  /** One table of 'clearvalues': the array part */
  method ClearArray(g: GlobalState, h: Ref, ghost limit: set<Ref>)
    requires Ready(g.Snap(), limit) && h in g.heap && g.heap[h].Table? && StrsIn(g.heap, g.heap[h].arr, limit)
    modifies g
    ensures Clears(old(g.Snap()), g.Snap(), false, limit) && g.upvals == old(g.upvals)
    ensures h in g.heap && g.heap[h].Table? && ValsIn(g.heap[h].arr, Marks(g.Snap()))
  {
    hide Ready, Clears;
    ghost var s0 := g.Snap();
    ghost var vs := g.heap[h].arr;
    TableRefs(s0, h, limit);
    ClearsRefl(s0, false, limit);
    for i := 0 to |g.heap[h].arr|
      invariant Ready(g.Snap(), limit) && Clears(s0, g.Snap(), false, limit) && g.upvals == s0.upvals
      invariant g.heap.Keys == s0.heap.Keys && h in g.heap && g.heap[h].Table? && |g.heap[h].arr| == |vs|
      invariant forall j :: i <= j < |vs| ==> g.heap[h].arr[j] == vs[j]
      invariant forall j :: 0 <= j < i ==> In(g.heap[h].arr[j], Marks(g.Snap()))
    {
      ghost var s := g.Snap();
      ClearsStr(s0, s, vs[i], false, limit);
      var c := Cleared(g, g.heap[h].arr[i], false, limit);
      ghost var m := g.Snap();
      ClearsOn(s0, s, m, false, limit);
      if c {
        SetArr(m, h, i, limit);
        g.heap := g.heap[h := g.heap[h].(arr := g.heap[h].arr[i := Nil])];
        ClearsOn(s0, m, g.Snap(), false, limit);
      }
    }
  }

  /** One table of 'clearvalues': the hash part */
  method ClearNodes(g: GlobalState, h: Ref, ghost limit: set<Ref>)
    requires Ready(g.Snap(), limit) && h in g.heap && g.heap[h].Table? && ValsIn(g.heap[h].arr, Marks(g.Snap()))
    requires StrValsIn(g.heap, g.heap[h].nodes, limit)
    modifies g
    ensures Clears(old(g.Snap()), g.Snap(), false, limit) && g.upvals == old(g.upvals)
    ensures h in g.heap && ValuesIn(g.heap[h], Marks(g.Snap()))
  {
    hide Ready, Clears;
    ghost var s0 := g.Snap();
    ghost var ns := g.heap[h].nodes;
    TableRefs(s0, h, limit);
    ClearsRefl(s0, false, limit);
    for i := 0 to |g.heap[h].nodes|
      invariant Ready(g.Snap(), limit) && Clears(s0, g.Snap(), false, limit) && g.upvals == s0.upvals
      invariant g.heap.Keys == s0.heap.Keys && h in g.heap && g.heap[h].Table? && |g.heap[h].nodes| == |ns|
      invariant ValsIn(g.heap[h].arr, Marks(g.Snap()))
      invariant forall j :: i <= j < |ns| ==> g.heap[h].nodes[j] == ns[j]
      invariant forall j :: 0 <= j < i ==> In(g.heap[h].nodes[j].val, Marks(g.Snap()))
    {
      ghost var s := g.Snap();
      var n := g.heap[h].nodes[i];
      assert EntryIn(ns[i], s0.heap.Keys);
      if n.val != Nil {
        ClearsStr(s0, s, ns[i].val, false, limit);
        var c := Cleared(g, n.val, false, limit);
        ghost var m := g.Snap();
        ClearsOn(s0, s, m, false, limit);
        if c {
          EmptyEntry(g, h, i, false, limit);
          ClearsOn(s0, m, g.Snap(), false, limit);
        }
      }
    }
  }

  lemma ClearsStr(g: G, d: G, v: TValue, keys: bool, limit: set<Ref>)
    requires Clears(g, d, keys, limit) && StrIn(g.heap, v, limit)
    ensures StrIn(d.heap, v, limit)
  {
    StrFewer(g.heap, d.heap, v, limit);
  }

  /** Strings among the values of the tables of l are within the limit. */
  predicate ValuesMet(h: Heap, l: seq<Ref>, limit: set<Ref>) {
    forall r :: r in l && r in h && h[r].Table? ==> StrsIn(h, h[r].arr, limit) && StrValsIn(h, h[r].nodes, limit)
  }

  /** Strings among the keys of the tables of l are within the limit. */
  predicate KeysMet(h: Heap, l: seq<Ref>, limit: set<Ref>) {
    forall r :: r in l && r in h && h[r].Table? ==> StrKeysIn(h, h[r].nodes, limit, false)
  }

  lemma FewerMets(h: Heap, h': Heap, l: seq<Ref>, limit: set<Ref>)
    requires FewerHeap(h', h)
    ensures ValuesMet(h, l, limit) ==> ValuesMet(h', l, limit)
    ensures KeysMet(h, l, limit) ==> KeysMet(h', l, limit)
  {
    forall r | IsString(h', r) ensures IsString(h, r) { assert Fewer(h'[r], h[r]); }
    forall r | r in l && r in h && h[r].Table?
      ensures StrsIn(h, h[r].arr, limit) && StrValsIn(h, h[r].nodes, limit) ==>
              StrsIn(h', h'[r].arr, limit) && StrValsIn(h', h'[r].nodes, limit)
      ensures StrKeysIn(h, h[r].nodes, limit, false) ==> StrKeysIn(h', h'[r].nodes, limit, false)
    {
      assert Fewer(h'[r], h[r]);
      forall i | 0 <= i < |h[r].nodes| ensures FewerNode(h'[r].nodes[i], h[r].nodes[i]) {}
    }
    forall r | r in h' && h'[r].Table? ensures h[r].Table? { assert Fewer(h'[r], h[r]); }
  }

  /** One table of 'clearvalues' */
  method ClearTableValues(g: GlobalState, h: Ref, ghost limit: set<Ref>)
    requires Ready(g.Snap(), limit) && h in g.heap && g.heap[h].Table? && ValuesMet(g.heap, [h], limit)
    modifies g
    ensures Clears(old(g.Snap()), g.Snap(), false, limit) && g.upvals == old(g.upvals)
    ensures h in g.heap && ValuesIn(g.heap[h], Marks(g.Snap()))
  {
    hide Ready, Clears, Fewer, StrsIn, StrValsIn, ValuesIn;
    ghost var s0 := g.Snap();
    assert h in [h];
    ClearsRefl(s0, false, limit);
    ClearArray(g, h, limit);
    ghost var m := g.Snap();
    ClearsMet(s0, m, [h], false, limit);
    ClearsOn(s0, s0, m, false, limit);
    ClearNodes(g, h, limit);
    ClearsOn(s0, m, g.Snap(), false, limit);
  }

  /** 'clearvalues' on the tables of l */
  method ClearValues(g: GlobalState, l: seq<Ref>, ghost limit: set<Ref>)
    requires Ready(g.Snap(), limit) && Tables(g.heap, l) && ValuesMet(g.heap, l, limit)
    modifies g
    ensures Clears(old(g.Snap()), g.Snap(), false, limit) && g.upvals == old(g.upvals) && Ready(g.Snap(), limit)
    ensures forall r :: r in l ==> r in g.heap && ValuesIn(g.heap[r], Marks(g.Snap()))
  {
    hide Ready, Clears, Fewer, StrsIn, StrValsIn, ValuesIn;
    ghost var s0 := g.Snap();
    ClearsRefl(s0, false, limit);
    for k := 0 to |l|
      invariant Ready(g.Snap(), limit) && Clears(s0, g.Snap(), false, limit) && g.upvals == s0.upvals
      invariant Tables(g.heap, l) && ValuesMet(g.heap, l, limit)
      invariant forall r :: r in l[..k] ==> r in g.heap && ValuesIn(g.heap[r], Marks(g.Snap()))
    {
      ghost var s := g.Snap();
      assert l[k] in l;
      ClearTableValues(g, l[k], limit);
      ClearsOn(s0, s, g.Snap(), false, limit);
      ClearsMet(s, g.Snap(), l, false, limit);
      KeepValues(s, g.Snap(), l, l[..k], false, limit);
      assert l[..k + 1] == l[..k] + [l[k]];
    }
    assert l[..|l|] == l;
  }

  lemma ClearsMet(g: G, d: G, l: seq<Ref>, keys: bool, limit: set<Ref>)
    requires Clears(g, d, keys, limit)
    ensures ValuesMet(g.heap, l, limit) ==> ValuesMet(d.heap, l, limit)
    ensures KeysMet(g.heap, l, limit) ==> KeysMet(d.heap, l, limit)
  {
    FewerMets(g.heap, d.heap, l, limit);
  }

  lemma KeepValues(g: G, d: G, l: seq<Ref>, done: seq<Ref>, keys: bool, limit: set<Ref>)
    requires Clears(g, d, keys, limit) && Tables(g.heap, l)
    ensures Tables(d.heap, l)
    ensures (forall r :: r in done ==> r in g.heap && ValuesIn(g.heap[r], Marks(g))) ==>
            (forall r :: r in done ==> r in d.heap && ValuesIn(d.heap[r], Marks(d)))
    ensures (forall r :: r in done ==> r in g.heap && HeldKeys(g.heap[r], Marks(g))) ==>
            (forall r :: r in done ==> r in d.heap && HeldKeys(d.heap[r], Marks(d)))
  {
    GrowMarks(g, d, {}, limit);
    forall r | r in g.heap
      ensures (ValuesIn(g.heap[r], Marks(g)) ==> ValuesIn(d.heap[r], Marks(d))) && Fewer(d.heap[r], g.heap[r])
      ensures HeldKeys(g.heap[r], Marks(g)) ==> HeldKeys(d.heap[r], Marks(d))
    {
      assert Fewer(d.heap[r], g.heap[r]);
      FewerValues(d.heap[r], g.heap[r], Marks(g), Marks(d));
    }
  }

  /** One table of 'clearkeys' */
  method ClearTableKeys(g: GlobalState, h: Ref, ghost limit: set<Ref>)
    requires Ready(g.Snap(), limit) && h in g.heap && g.heap[h].Table? && StrKeysIn(g.heap, g.heap[h].nodes, limit, false)
    modifies g
    ensures Clears(old(g.Snap()), g.Snap(), true, limit) && g.upvals == old(g.upvals)
    ensures h in g.heap && HeldKeys(g.heap[h], Marks(g.Snap()))
  {
    hide Ready, Clears;
    ghost var s0 := g.Snap();
    ghost var ns := g.heap[h].nodes;
    TableRefs(s0, h, limit);
    ClearsRefl(s0, true, limit);
    for i := 0 to |g.heap[h].nodes|
      invariant Ready(g.Snap(), limit) && Clears(s0, g.Snap(), true, limit) && g.upvals == s0.upvals
      invariant g.heap.Keys == s0.heap.Keys && h in g.heap && g.heap[h].Table? && |g.heap[h].nodes| == |ns|
      invariant forall j :: i <= j < |ns| ==> g.heap[h].nodes[j] == ns[j]
      invariant forall j :: 0 <= j < i ==> g.heap[h].nodes[j].val != Nil ==> In(g.heap[h].nodes[j].key, Marks(g.Snap()))
    {
      ghost var s := g.Snap();
      var n := g.heap[h].nodes[i];
      assert EntryIn(ns[i], s0.heap.Keys);
      if n.val != Nil {
        ClearsStr(s0, s, ns[i].key, true, limit);
        var c := Cleared(g, n.key, true, limit);
        ghost var m := g.Snap();
        ClearsOn(s0, s, m, true, limit);
        if c {
          EmptyEntry(g, h, i, true, limit);
          ClearsOn(s0, m, g.Snap(), true, limit);
        }
      }
    }
  }

  /** 'clearkeys' on the tables of l */
  method ClearKeys(g: GlobalState, l: seq<Ref>, ghost limit: set<Ref>)
    requires Ready(g.Snap(), limit) && Tables(g.heap, l) && KeysMet(g.heap, l, limit)
    modifies g
    ensures Clears(old(g.Snap()), g.Snap(), true, limit) && g.upvals == old(g.upvals) && Ready(g.Snap(), limit)
    ensures forall r :: r in l ==> r in g.heap && HeldKeys(g.heap[r], Marks(g.Snap()))
  {
    hide Ready, Clears, Fewer, StrKeysIn;
    ghost var s0 := g.Snap();
    ClearsRefl(s0, true, limit);
    for k := 0 to |l|
      invariant Ready(g.Snap(), limit) && Clears(s0, g.Snap(), true, limit) && g.upvals == s0.upvals
      invariant Tables(g.heap, l) && KeysMet(g.heap, l, limit)
      invariant forall r :: r in l[..k] ==> r in g.heap && HeldKeys(g.heap[r], Marks(g.Snap()))
    {
      ghost var s := g.Snap();
      assert l[k] in l;
      ClearTableKeys(g, l[k], limit);
      ClearsOn(s0, s, g.Snap(), true, limit);
      ClearsMet(s, g.Snap(), l, true, limit);
      KeepValues(s, g.Snap(), l, l[..k], true, limit);
      assert l[..k + 1] == l[..k] + [l[k]];
    }
    assert l[..|l|] == l;
  }

  // ----- What a whole cycle does to an entry -----

  /** From n to n' over a cycle: an absent entry may only lose its key; another one stays as it is
      unless its value is dead already in s1 (before finalizers are considered) or its key is dead
      in s (at the end). */
  predicate FateNode(h: Heap, n': Node, n: Node, s1: set<Ref>, s: set<Ref>) {
    || n' == n
    || (n'.val == Nil && FewerNode(n', n)
        && (n.val != Nil ==> DeadVal(h, n.val, s1) || DeadVal(h, n.key, s)))
  }

  predicate FateVal(h: Heap, v': TValue, v: TValue, s1: set<Ref>) {
    v' == v || (v' == Nil && DeadVal(h, v, s1))
  }

  predicate FateObject(h: Heap, o': Object, o: Object, s1: set<Ref>, s: set<Ref>) {
    o' == o ||
    (o.Table? && o'.Table? && o'.meta == o.meta && o'.mode == o.mode && |o'.arr| == |o.arr| && |o'.nodes| == |o.nodes|
     && (forall i :: 0 <= i < |o.arr| ==> FateVal(h, o'.arr[i], o.arr[i], s1))
     && (forall i :: 0 <= i < |o.nodes| ==> FateNode(h, o'.nodes[i], o.nodes[i], s1, s)))
  }

  /** Nothing disappears from the heap h but entries that refer to dead objects. */
  ghost predicate Fate(h: Heap, h': Heap, s1: set<Ref>, s: set<Ref>) {
    h'.Keys == h.Keys && forall r :: r in h ==> FateObject(h, h'[r], h[r], s1, s)
  }

  lemma FateDeadKeys(h: Heap, m: Heap, d: Heap, s1: set<Ref>, s: set<Ref>)
    requires Fate(h, m, s1, s) && DeadKeys(d, m)
    ensures Fate(h, d, s1, s)
  {
    forall r | r in h ensures FateObject(h, d[r], h[r], s1, s) {
      assert FateObject(h, m[r], h[r], s1, s) && DeadKeyObject(d[r], m[r]);
      if h[r].Table? {
        forall i | 0 <= i < |h[r].nodes| ensures FateNode(h, d[r].nodes[i], h[r].nodes[i], s1, s) {
          assert FateNode(h, m[r].nodes[i], h[r].nodes[i], s1, s) && DeadKeyNode(d[r].nodes[i], m[r].nodes[i]);
        }
      }
    }
  }

  lemma FateCleared(h: Heap, m: Heap, d: Heap, s1: set<Ref>, s: set<Ref>, t: set<Ref>, keys: bool)
    requires Fate(h, m, s1, s) && ClearedHeap(d, m, t, keys)
    requires if keys then StringsOnly(m, t, s) else s1 <= t
    ensures Fate(h, d, s1, s)
  {
    forall r | r in h ensures h[r].Str? == m[r].Str? { assert FateObject(h, m[r], h[r], s1, s); }
    forall r | r in h ensures FateObject(h, d[r], h[r], s1, s) {
      assert FateObject(h, m[r], h[r], s1, s) && ClearedObject(m, d[r], m[r], t, keys);
      if h[r].Table? {
        forall i | 0 <= i < |h[r].arr| ensures FateVal(h, d[r].arr[i], h[r].arr[i], s1) {
          assert FateVal(h, m[r].arr[i], h[r].arr[i], s1) && ClearedVal(m, d[r].arr[i], m[r].arr[i], t, keys);
        }
        forall i | 0 <= i < |h[r].nodes| ensures FateNode(h, d[r].nodes[i], h[r].nodes[i], s1, s) {
          assert FateNode(h, m[r].nodes[i], h[r].nodes[i], s1, s) && ClearedNode(m, d[r].nodes[i], m[r].nodes[i], t, keys);
        }
      }
    }
  }

  lemma FateStart(h: Heap, s1: set<Ref>, s: set<Ref>)
    ensures Fate(h, h, s1, s)
  {
  }
}
