/** What marking does to the state: colours only go from white to gray or black. */
module LgcGrow {
  import opened LgcHeap

  predicate FewerNode(n': Node, n: Node) {
    n' == n || (n'.val == Nil && (n'.key == n.key || (n.key.Coll? && n'.key == DeadKey(n.key.ref))))
  }

  predicate FewerNodes(ns': seq<Node>, ns: seq<Node>) {
    |ns'| == |ns| && forall i :: 0 <= i < |ns| ==> FewerNode(ns'[i], ns[i])
  }

  predicate FewerVals(vs': seq<TValue>, vs: seq<TValue>) {
    |vs'| == |vs| && forall i :: 0 <= i < |vs| ==> vs'[i] == vs[i] || vs'[i] == Nil
  }

  /** Some entries of a table were emptied. */
  predicate Fewer(o': Object, o: Object) {
    o' == o ||
    (o.Table? && o'.Table? && o'.meta == o.meta && o'.mode == o.mode
     && FewerVals(o'.arr, o.arr) && FewerNodes(o'.nodes, o.nodes))
  }

  ghost predicate FewerHeap(h': Heap, h: Heap) {
    h'.Keys == h.Keys && forall r :: r in h ==> Fewer(h'[r], h[r])
  }

  /** Traversing a table only declares keys of absent entries dead ('removeentry'). */
  predicate DeadKeyNode(n': Node, n: Node) {
    n' == n || (n.val == Nil && n.key.Coll? && n' == Node(DeadKey(n.key.ref), Nil))
  }

  predicate DeadKeyObject(o': Object, o: Object) {
    o' == o ||
    (o.Table? && o'.Table? && o'.meta == o.meta && o'.mode == o.mode && o'.arr == o.arr && |o'.nodes| == |o.nodes|
     && forall i :: 0 <= i < |o.nodes| ==> DeadKeyNode(o'.nodes[i], o.nodes[i]))
  }

  ghost predicate DeadKeys(h': Heap, h: Heap) {
    h'.Keys == h.Keys && forall r :: r in h ==> DeadKeyObject(h'[r], h[r])
  }

  lemma DeadKeysTrans(h: Heap, m: Heap, d: Heap)
    requires DeadKeys(m, h) && DeadKeys(d, m)
    ensures DeadKeys(d, h)
  {
    forall r | r in h ensures DeadKeyObject(d[r], h[r]) {
      assert DeadKeyObject(m[r], h[r]) && DeadKeyObject(d[r], m[r]);
      if h[r].Table? {
        forall i | 0 <= i < |h[r].nodes| ensures DeadKeyNode(d[r].nodes[i], h[r].nodes[i]) {
          assert DeadKeyNode(m[r].nodes[i], h[r].nodes[i]) && DeadKeyNode(d[r].nodes[i], m[r].nodes[i]);
        }
      }
    }
  }

  lemma DeadKeysFewer(h: Heap, d: Heap)
    requires DeadKeys(d, h)
    ensures FewerHeap(d, h)
  {
    forall r | r in h ensures Fewer(d[r], h[r]) {
      assert DeadKeyObject(d[r], h[r]);
      if h[r].Table? && d[r] != h[r] {
        forall i | 0 <= i < |h[r].nodes| ensures FewerNode(d[r].nodes[i], h[r].nodes[i]) {
          assert DeadKeyNode(d[r].nodes[i], h[r].nodes[i]);
        }
      }
    }
  }

  predicate TouchUp(u': UpVal, u: UpVal) {
    u' == u || (u.Open? && u' == u.(touched := true))
  }

  ghost predicate TouchUps(us': UpVals, us: UpVals) {
    us'.Keys == us.Keys && forall u :: u in us ==> TouchUp(us'[u], us[u])
  }

  predicate NoDups(l: seq<Ref>) {
    forall i, j :: 0 <= i < j < |l| ==> l[i] != l[j]
  }

  /** Colour of an object just marked. */
  function Fresh(o: Object): Color {
    if Traversable(o) then Gray else Black
  }

  /** An object that 'reallymarkobject' turned black has its references marked. */
  predicate Visited(o: Object, s: set<Ref>) {
    o.Str? || (o.Udata? && In(o.meta, s) && In(o.user, s))
  }

  ghost predicate NewlyGray(g: G, d: G, r: Ref) {
    r in g.marked && r in d.marked && g.marked[r].White? && d.marked[r].Gray?
  }

  /** Marking leads from g to d: white objects of 'limit' got marked, the traversable ones are now
      in front of the gray list, references of the others are marked or in x; entries of tables
      were at most emptied and open upvalues touched. */
  ghost predicate Grow(g: G, d: G, x: set<Ref>, limit: set<Ref>) {
    && d == g.(heap := d.heap, upvals := d.upvals, marked := d.marked, gray := d.gray)
    && FewerHeap(d.heap, g.heap) && TouchUps(d.upvals, g.upvals)
    && (forall u :: u in g.upvals && d.upvals[u] != g.upvals[u] ==> In(UpValue(g.heap, g.upvals, u), limit))
    && Recolored(g, d, limit)
    && (forall r :: r in g.heap && r in g.marked && g.marked[r].White? && d.marked[r].Black? ==>
          Visited(g.heap[r], Marks(d) + x))
    && Grayed(g, d)
  }

  ghost predicate Recolored(g: G, d: G, limit: set<Ref>) {
    && d.marked.Keys == g.marked.Keys
    && forall r :: r in g.marked ==>
          d.marked[r] == g.marked[r] ||
          (g.marked[r].White? && r in limit && r in g.heap && d.marked[r] == Fresh(g.heap[r]))
  }

  /** What was put in front of the gray list. */
  function Added(g: G, d: G): seq<Ref>
    requires |d.gray| >= |g.gray|
  {
    d.gray[..|d.gray| - |g.gray|]
  }

  ghost predicate Grayed(g: G, d: G) {
    && |d.gray| >= |g.gray| && d.gray == Added(g, d) + g.gray
    && NoDups(Added(g, d))
    && forall r :: r in Added(g, d) <==> NewlyGray(g, d, r)
  }

  // ----- Grow is a preorder -----

  lemma GrowRefl(g: G, limit: set<Ref>)
    ensures Grow(g, g, {}, limit)
  {
  }

  lemma GrowMarks(g: G, d: G, x: set<Ref>, limit: set<Ref>)
    requires Grow(g, d, x, limit)
    ensures Marks(g) <= Marks(d) && Whites(d) <= Whites(g) && |Whites(d)| <= |Whites(g)|
    ensures Marks(d) <= Marks(g) + limit
    ensures Alive(d) >= Alive(g) && (Alive(g) == g.marked.Keys ==> Alive(d) == g.marked.Keys)
    ensures Marks(d) == Marks(g) <==> Whites(d) == Whites(g)
  {
    hide Grayed, FewerHeap, TouchUps;
    RecoloredMarks(g, d, limit);
  }

  lemma RecoloredMarks(g: G, d: G, limit: set<Ref>)
    requires Recolored(g, d, limit) && d.cw == g.cw
    ensures Marks(g) <= Marks(d) && Whites(d) <= Whites(g) && |Whites(d)| <= |Whites(g)|
    ensures Marks(d) <= Marks(g) + limit
    ensures Alive(d) >= Alive(g) && (Alive(g) == g.marked.Keys ==> Alive(d) == g.marked.Keys)
    ensures Marks(d) == Marks(g) <==> Whites(d) == Whites(g)
  {
    forall r | r in Alive(g) ensures r in Alive(d) {}
    Subset(Whites(d), Whites(g));
    MarksPartition(g);
    MarksPartition(d);
  }

  lemma MarksPartition(g: G)
    ensures Marks(g) == g.marked.Keys - Whites(g) && Whites(g) == g.marked.Keys - Marks(g)
  {
  }

  lemma Subset(a: set<Ref>, b: set<Ref>)
    requires a <= b
    ensures |a| <= |b| && (a != b ==> |a| < |b|)
  {
    assert b == a + (b - a);
    if a != b { assert b - a != {}; }
  }

  lemma GrayTrans(g: G, m: G, d: G, limit: set<Ref>)
    requires Recolored(g, m, limit) && Recolored(m, d, limit) && Grayed(g, m) && Grayed(m, d)
    ensures d.marked.Keys == g.marked.Keys && Grayed(g, d)
  {
    var p, q := Added(m, d), Added(g, m);
    assert d.gray == p + (q + g.gray) == (p + q) + g.gray;
    assert Added(g, d) == p + q;
    AppendNoDups(p, q);
    forall r ensures r in p + q <==> NewlyGray(g, d, r) {
      assert r in p <==> NewlyGray(m, d, r);
      assert r in q <==> NewlyGray(g, m, r);
    }
  }

  lemma AppendNoDups(p: seq<Ref>, q: seq<Ref>)
    requires NoDups(p) && NoDups(q) && forall r :: r in p ==> r !in q
    ensures NoDups(p + q)
  {
    forall i, j | 0 <= i < j < |p + q| ensures (p + q)[i] != (p + q)[j] {
      if i < |p| <= j { assert (p + q)[i] in p && (p + q)[j] in q; }
    }
  }

  lemma FewerTrans(h: Heap, m: Heap, d: Heap)
    requires FewerHeap(m, h) && FewerHeap(d, m)
    ensures FewerHeap(d, h)
  {
    forall r | r in h ensures Fewer(d[r], h[r]) {
      assert Fewer(m[r], h[r]) && Fewer(d[r], m[r]);
      if h[r].Table? {
        forall i | 0 <= i < |h[r].nodes| ensures FewerNode(d[r].nodes[i], h[r].nodes[i]) {
          assert FewerNode(m[r].nodes[i], h[r].nodes[i]) && FewerNode(d[r].nodes[i], m[r].nodes[i]);
        }
      }
    }
  }

  /** Marking in two stretches is marking; what the first one left for later must be done. */
  lemma GrowTrans(g: G, m: G, d: G, x: set<Ref>, y: set<Ref>, limit: set<Ref>)
    requires Grow(g, m, x, limit) && Grow(m, d, y, limit) && x <= Marks(d) + y
    ensures Grow(g, d, y, limit)
  {
    GrayTrans(g, m, d, limit);
    FewerTrans(g.heap, m.heap, d.heap);
    assert TouchUps(d.upvals, g.upvals) by {
      forall u | u in g.upvals ensures TouchUp(d.upvals[u], g.upvals[u]) {
        assert TouchUp(m.upvals[u], g.upvals[u]) && TouchUp(d.upvals[u], m.upvals[u]);
      }
    }
    forall u | u in g.upvals && d.upvals[u] != g.upvals[u] ensures In(UpValue(g.heap, g.upvals, u), limit) {
      SameUp(g.heap, g.upvals, m.heap, m.upvals, u);
    }
    assert Recolored(g, d, limit) by {
      forall r | r in g.marked && d.marked[r] != g.marked[r]
        ensures g.marked[r].White? && r in limit && r in g.heap && d.marked[r] == Fresh(g.heap[r])
      {
        if r in g.heap { assert Fewer(m.heap[r], g.heap[r]); }
      }
    }
    GrowMarks(m, d, y, limit);
    forall r | r in g.heap && r in g.marked && g.marked[r].White? && d.marked[r].Black?
      ensures Visited(g.heap[r], Marks(d) + y)
    {
      assert Fewer(m.heap[r], g.heap[r]);
      if m.marked[r].White? {
        assert Visited(m.heap[r], Marks(d) + y);
      } else {
        assert Visited(g.heap[r], Marks(m) + x);
      }
    }
  }

  /** An object that was marked before may be repainted throughout. */
  lemma Repaint(g: G, d: G, x: set<Ref>, limit: set<Ref>, h: Ref, c: Color)
    requires Grow(g, d, x, limit) && h in g.marked && !g.marked[h].White? && !c.White?
    ensures h in d.marked && d.marked[h] == g.marked[h]
    ensures Grow(g.(marked := g.marked[h := c]), d.(marked := d.marked[h := c]), x, limit)
  {
    var g', d' := g.(marked := g.marked[h := c]), d.(marked := d.marked[h := c]);
    assert Marks(d') == Marks(d);
    assert Recolored(g', d', limit);
    assert Grayed(g', d') by { RepaintGrayed(g, d, limit, h, c); }
  }

  lemma RepaintGrayed(g: G, d: G, limit: set<Ref>, h: Ref, c: Color)
    requires Recolored(g, d, limit) && Grayed(g, d) && h in g.marked && !g.marked[h].White? && !c.White?
    ensures Grayed(g.(marked := g.marked[h := c]), d.(marked := d.marked[h := c]))
  {
    var g', d' := g.(marked := g.marked[h := c]), d.(marked := d.marked[h := c]);
    assert Added(g', d') == Added(g, d);
    forall r ensures NewlyGray(g', d', r) <==> NewlyGray(g, d, r) {}
  }

  // ----- What marking keeps -----

  lemma FewerRefs(h: Heap, us: UpVals, h': Heap, us': UpVals, o: Object, o': Object, s: set<Ref>)
    requires FewerHeap(h', h) && TouchUps(us', us) && Fewer(o', o)
    requires RefsIn(h, us, o, s)
    ensures RefsIn(h', us', o', s)
  {
    if o.LCl? {
      forall i | 0 <= i < |o.ups| ensures In(UpValue(h', us', o.ups[i]), s) {
        SameUp(h, us, h', us', o.ups[i]);
      }
    } else if o.Table? {
      forall i | 0 <= i < |o.nodes| ensures EntryIn(o'.nodes[i], s) {
        assert FewerNode(o'.nodes[i], o.nodes[i]) && EntryIn(o.nodes[i], s);
      }
    }
  }

  lemma SameUp(h: Heap, us: UpVals, h': Heap, us': UpVals, u: UpRef)
    requires FewerHeap(h', h) && TouchUps(us', us)
    ensures UpValue(h', us', u) == UpValue(h, us, u)
  {
    if u in us {
      assert TouchUp(us'[u], us[u]);
      if us[u].Open? && us[u].th in h { assert Fewer(h'[us[u].th], h[us[u].th]); }
    }
  }

  lemma FewerBlack(h: Heap, us: UpVals, h': Heap, us': UpVals, o: Object, o': Object, s: set<Ref>, inside: bool)
    requires FewerHeap(h', h) && TouchUps(us', us) && Fewer(o', o)
    requires BlackIn(h, us, o, s, inside)
    ensures BlackIn(h', us', o', s, inside)
  {
    match o
    case LCl(p, ups) =>
      forall i | 0 <= i < |ups| ensures UpIn(h', us', ups[i], s, inside) {
        assert UpIn(h, us, ups[i], s, inside);
        SameUp(h, us, h', us', ups[i]);
        assert TouchUp(us'[ups[i]], us[ups[i]]);
      }
    case Table(_, _, _, nodes) =>
      forall i | 0 <= i < |nodes| ensures NodeIn(h', o'.nodes[i], s) {
        assert FewerNode(o'.nodes[i], nodes[i]) && NodeIn(h, nodes[i], s);
      }
    case _ =>
      FewerRefs(h, us, h', us', o, o', s);
  }

  /** The main invariant survives marking. */
  lemma GrowTri(g: G, d: G, limit: set<Ref>, x: set<Ref>, inside: bool)
    requires Grow(g, d, {}, limit) && Tri(g, x, inside)
    ensures Tri(d, x, inside)
  {
    GrowMarks(g, d, {}, limit);
    forall r | r in d.marked && r !in x && d.marked[r].Black? && r in d.heap
      ensures BlackIn(d.heap, d.upvals, d.heap[r], Marks(d), inside)
    {
      assert Fewer(d.heap[r], g.heap[r]);
      if g.marked[r].White? {
        assert Visited(g.heap[r], Marks(d) + {});
        assert Marks(d) + {} == Marks(d);
      } else {
        BlackMono(g.heap, g.upvals, g.heap[r], Marks(g), Marks(d), inside);
        FewerBlack(g.heap, g.upvals, d.heap, d.upvals, g.heap[r], d.heap[r], Marks(d), inside);
      }
    }
  }

  /** All whites of a marking phase are the current one. */
  predicate NoDead(g: G) {
    Alive(g) == g.marked.Keys
  }

  lemma GrowWf(g: G, d: G, x: set<Ref>, limit: set<Ref>)
    requires Grow(g, d, x, limit) && Wf(g) && NoDead(g)
    ensures Wf(d) && NoDead(d)
  {
    GrowMarks(g, d, x, limit);
    forall r | r in Alive(d) && r in d.heap ensures RefsIn(d.heap, d.upvals, d.heap[r], Alive(d)) {
      assert Fewer(d.heap[r], g.heap[r]);
      FewerRefs(g.heap, g.upvals, d.heap, d.upvals, g.heap[r], d.heap[r], Alive(d));
    }
    assert UpsOK(d) by {
      forall r | r in d.heap ensures Fewer(d.heap[r], g.heap[r]) {}
      forall u | u in d.upvals ensures TouchUp(d.upvals[u], g.upvals[u]) {}
    }
  }

  // ----- An upper bound for what gets marked -----

  /** The collector's notion of reachability: s is closed under the references of o that the
      mode of a weak table does not exclude. */
  predicate StrongIn(h: Heap, us: UpVals, o: Object, s: set<Ref>) {
    ContentIn(h, us, o, s) && (o.Table? ==> In(o.meta, s))
  }

  predicate ContentIn(h: Heap, us: UpVals, o: Object, s: set<Ref>) {
    if !o.Table? then RefsIn(h, us, o, s)
    else
      && (!o.mode.weakValue ==> ValsIn(o.arr, s))
      && (!o.mode.weakKey ==> KeysIn(o.nodes, s))
      && (!o.mode.weakValue ==> EphemeronIn(o.nodes, s))
  }

  /** Values of entries whose key is in s. */
  predicate EphemeronIn(ns: seq<Node>, s: set<Ref>) {
    forall i :: 0 <= i < |ns| ==> ns[i].val != Nil && In(ns[i].key, s) ==> In(ns[i].val, s)
  }

  predicate StrIn(h: Heap, v: TValue, s: set<Ref>) {
    v.Coll? && IsString(h, v.ref) ==> v.ref in s
  }

  predicate StrsIn(h: Heap, vs: seq<TValue>, s: set<Ref>) {
    forall i :: 0 <= i < |vs| ==> StrIn(h, vs[i], s)
  }

  predicate StrValsIn(h: Heap, ns: seq<Node>, s: set<Ref>) {
    forall i :: 0 <= i < |ns| ==> StrIn(h, ns[i].val, s)
  }

  /** String keys of entries; with `values`, of the entries whose value is in s. */
  predicate StrKeysIn(h: Heap, ns: seq<Node>, s: set<Ref>, values: bool) {
    forall i :: 0 <= i < |ns| && ns[i].val != Nil && (values ==> In(ns[i].val, s)) ==> StrIn(h, ns[i].key, s)
  }

  /** The strings that 'iscleared' meets in table o, and marks, are in s: strings are values, never
      removed from a weak table. `all` says that the table waits in 'allweak'. */
  predicate MetIn(h: Heap, o: Object, s: set<Ref>, all: bool) {
    o.Table? ==>
      && (o.mode.weakValue || all ==> StrsIn(h, o.arr, s) && StrValsIn(h, o.nodes, s))
      && (o.mode.weakKey ==> StrKeysIn(h, o.nodes, s, o.mode.weakValue))
      && (all ==> StrKeysIn(h, o.nodes, s, true))
  }

  /** s is closed under strong references, holds the strings met in weak tables, and the values
      of touched open upvalues. The metatables of tables that wait in 'allweak' do not matter: such
      a table was visited, and is not visited again. */
  ghost predicate Bound(g: G, s: set<Ref>) {
    && (forall r :: r in g.heap && r in s ==>
          && ContentIn(g.heap, g.upvals, g.heap[r], s) && MetIn(g.heap, g.heap[r], s, r in g.allweak)
          && (g.heap[r].Table? && r !in g.allweak ==> In(g.heap[r].meta, s)))
    && (forall u :: u in g.upvals && g.upvals[u].Open? && g.upvals[u].touched ==>
          In(UpValue(g.heap, g.upvals, u), s))
  }

  lemma BoundAt(g: G, s: set<Ref>, r: Ref)
    requires Bound(g, s) && r in g.heap && r in s
    ensures ContentIn(g.heap, g.upvals, g.heap[r], s) && MetIn(g.heap, g.heap[r], s, r in g.allweak)
    ensures r !in g.allweak ==> StrongIn(g.heap, g.upvals, g.heap[r], s)
  {
  }

  /** Two bounds share a bound. */
  lemma BoundMeet(g: G, s: set<Ref>, t: set<Ref>)
    requires Bound(g, s) && Bound(g, t)
    ensures Bound(g, s * t)
  {
    forall r | r in g.heap && r in s * t
      ensures ContentIn(g.heap, g.upvals, g.heap[r], s * t) && MetIn(g.heap, g.heap[r], s * t, r in g.allweak)
      ensures g.heap[r].Table? && r !in g.allweak ==> In(g.heap[r].meta, s * t)
    {
      BoundAt(g, s, r);
      BoundAt(g, t, r);
    }
  }

  lemma StrFewer(h: Heap, h': Heap, v: TValue, s: set<Ref>)
    requires FewerHeap(h', h) && StrIn(h, v, s)
    ensures StrIn(h', v, s)
  {
    if v.Coll? && v.ref in h { assert Fewer(h'[v.ref], h[v.ref]); }
  }

  lemma FewerMet(h: Heap, h': Heap, o: Object, o': Object, s: set<Ref>, all: bool)
    requires FewerHeap(h', h) && Fewer(o', o) && MetIn(h, o, s, all)
    ensures MetIn(h', o', s, all)
  {
    if o.Table? {
      forall r | IsString(h', r) ensures IsString(h, r) { assert Fewer(h'[r], h[r]); }
      forall i | 0 <= i < |o.nodes| ensures FewerNode(o'.nodes[i], o.nodes[i]) {}
    }
  }

  lemma FewerContent(h: Heap, us: UpVals, h': Heap, us': UpVals, o: Object, o': Object, s: set<Ref>)
    requires FewerHeap(h', h) && TouchUps(us', us) && Fewer(o', o) && ContentIn(h, us, o, s)
    ensures ContentIn(h', us', o', s)
  {
    if o.Table? {
      forall i | 0 <= i < |o.nodes| ensures FewerNode(o'.nodes[i], o.nodes[i]) {}
    } else {
      FewerRefs(h, us, h', us', o, o', s);
    }
  }

  lemma GrowBound(g: G, d: G, x: set<Ref>, limit: set<Ref>)
    requires Grow(g, d, x, limit) && Bound(g, limit)
    ensures Bound(d, limit)
  {
    forall r | r in d.heap ensures Fewer(d.heap[r], g.heap[r]) {}
    forall r | r in d.heap && r in limit
      ensures ContentIn(d.heap, d.upvals, d.heap[r], limit) && MetIn(d.heap, d.heap[r], limit, r in d.allweak)
      ensures d.heap[r].Table? && r !in d.allweak ==> In(d.heap[r].meta, limit)
    {
      BoundAt(g, limit, r);
      FewerContent(g.heap, g.upvals, d.heap, d.upvals, g.heap[r], d.heap[r], limit);
      FewerMet(g.heap, d.heap, g.heap[r], d.heap[r], limit, r in g.allweak);
    }
    forall u | u in d.upvals && d.upvals[u].Open? && d.upvals[u].touched
      ensures In(UpValue(d.heap, d.upvals, u), limit)
    {
      SameUp(g.heap, g.upvals, d.heap, d.upvals, u);
      assert TouchUp(d.upvals[u], g.upvals[u]);
    }
  }
}
