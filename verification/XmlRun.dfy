/** Whole runs over a document: any sequence of creations, insertions, deletions and Clear. */
module XmlRun {
  import opened XmlTree
  import opened XmlOwn
  import opened XmlDom

  datatype Action =
    | Create(kind: Kind)
    | InsertEnd(self: Node, addThis: Node)
    | InsertFirst(self: Node, addThis: Node)
    | InsertAfter(self: Node, afterThis: Node, addThis: Node)
    | Delete(node: Node)
    | ClearAll

  /** The moved node is neither the new parent nor above it. */
  ghost predicate Movable(d: XMLDocument, self: Node, addThis: Node)
    reads d
  {
    self in d.parent.Keys && addThis in d.parent.Keys && addThis != ROOT && !Above(d.parent, addThis, self)
  }

  /** The operands are nodes of the document, no node moves below itself, and InsertAfterChild is
      not asked to move the last child behind the child before it. */
  ghost predicate Enabled(d: XMLDocument, a: Action)
    reads d
  {
    match a
    case Create(_) => true
    case InsertEnd(self, addThis) => Movable(d, self, addThis)
    case InsertFirst(self, addThis) => Movable(d, self, addThis)
    case InsertAfter(self, after, addThis) =>
      && Movable(d, self, addThis) && after in d.parent.Keys && after in d.next.Keys && addThis in d.next.Keys
      && !(addThis != after && d.next[after] == addThis && d.next[addThis] == NULL)
    case Delete(node) => node in d.parent.Keys && node != ROOT
    case ClearAll => true
  }

  ghost function OfKind(nodes: set<Node>, kind: Kind): set<Node> {
    set n | n in nodes && n > 0 && KindOf(n) == kind
  }

  /** The nodes without a parent are the unlinked ones; every pool counts its nodes and its
      unlinked nodes. */
  ghost predicate Accounted(d: XMLDocument)
    reads d, d.elementPool, d.textPool, d.commentPool
  {
    && NoDups(d.unlinked)
    && (forall n :: n in d.unlinked <==> n in d.parent.Keys && n != ROOT && d.parent[n] == NULL)
    && (forall k :: d.Pool(k).currentAllocs == |OfKind(d.parent.Keys, k)|)
    && (forall k :: d.Pool(k).nUntracked == |Pending(d.unlinked, k, {})|)
    && (forall k :: d.Pool(k).live == Items(d.parent.Keys, k))
  }

  /** A pool has as many items in use as the document has nodes of its kind. */
  lemma {:induction false} ItemCount(nodes: set<Node>, kind: Kind)
    ensures |Items(nodes, kind)| == |OfKind(nodes, kind)|
    decreases |nodes|
  {
    if n :| n in OfKind(nodes, kind) {
      ItemsFreed(nodes, n);
      ItemCount(nodes - {n}, kind);
      assert OfKind(nodes - {n}, kind) == OfKind(nodes, kind) - {n};
    } else {
      assert OfKind(nodes, kind) == {} && Items(nodes, kind) == {};
    }
  }

  lemma ValidAccounted(d: XMLDocument)
    requires d.Valid()
    ensures Accounted(d)
  {
    hide Forest, Acyclic, Items, Pending, OfKind, KindOf;
    ItemCount(d.parent.Keys, ELEMENT);
    ItemCount(d.parent.Keys, TEXT);
    ItemCount(d.parent.Keys, COMMENT);
  }

  /** Whether a is n or above n, found by climbing. */
  method IsAbove(d: XMLDocument, a: Node, n: Node) returns (above: bool)
    requires d.Valid() && a in d.parent.Keys && n in d.parent.Keys
    ensures above <==> Above(d.parent, a, n)
  {
    hide Forest, Above, Climb;
    ShapeFacts(d.Snap(), d.unlinked, {});
    ghost var rank :| Ranks(rank, d.parent);
    var x := n;
    while x != NULL
      invariant x == NULL || (x in d.parent.Keys && x in rank.Keys)
      invariant Above(d.parent, a, n) <==> Above(d.parent, a, x)
      decreases if x == NULL then 0 else rank[x] + 1
    {
      if x == a {
        AboveSelf(d.parent, a);
        return true;
      }
      AboveStep(d.parent, a, x);
      ChildKnown(d.Snap(), d.unlinked, {}, x);
      x := d.parent[x];
    }
    NothingAbove(d.parent, a);
    return false;
  }

  // --- What an action does ---

  /** The parents, the children in order, and the list of unlinked nodes. */
  datatype Moment = Moment(parent: map<Node, Node>, kids: map<Node, seq<Node>>, unlinked: seq<Node>)

  ghost function Now(d: XMLDocument): Moment
    reads d
  {
    Moment(d.parent, d.kids, d.unlinked)
  }

  /** Node n is new: it was not there, it has neither parent nor children, and it is the last of
      the unlinked nodes. */
  ghost predicate Made(m: Moment, w: Moment, n: Node, kind: Kind) {
    && n > 0 && n !in m.parent.Keys && KindOf(n) == kind
    && w.parent == m.parent[n := NULL] && w.kids == m.kids[n := []] && w.unlinked == m.unlinked + [n]
  }

  /** Node a has become a child of self. Everywhere else the children are the same and in the same
      order, and a is in no other list. */
  ghost predicate Moved(m: Moment, w: Moment, self: Node, a: Node) {
    && w.parent == m.parent[a := self] && w.kids.Keys == m.kids.Keys && self in w.kids.Keys && a in w.kids[self]
    && (forall p <- m.kids.Keys :: Without(w.kids[p], a) == Without(m.kids[p], a))
    && (forall p <- m.kids.Keys :: p != self ==> a !in w.kids[p])
    && NoDups(w.kids[self]) && SwapRemoves(m.unlinked, w.unlinked, a)
  }

  /** The node and what was below it are gone, and nothing else. */
  ghost predicate Removed(m: Moment, w: Moment, node: Node) {
    && (forall n :: n in w.parent.Keys <==> n in m.parent.Keys && !Above(m.parent, node, n))
    && (forall n <- w.parent.Keys :: n in m.parent.Keys && w.parent[n] == m.parent[n])
    && w.kids.Keys == w.parent.Keys && w.kids.Keys <= m.kids.Keys
    && (forall n <- w.kids.Keys :: w.kids[n] == Without(m.kids[n], node))
    && SwapRemoves(m.unlinked, w.unlinked, node)
  }

  /** What an action does. */
  ghost predicate Performed(m: Moment, a: Action, w: Moment) {
    match a
    case Create(kind) => exists n :: Made(m, w, n, kind)
    case InsertEnd(self, b) => Moved(m, w, self, b) && w.kids[self][|w.kids[self]| - 1] == b
    case InsertFirst(self, b) => Moved(m, w, self, b) && w.kids[self][0] == b
    case InsertAfter(self, after, b) =>
      if after == b || after !in m.parent.Keys || m.parent[after] != self then w == m
      else Moved(m, w, self, b)
           && exists i :: 0 < i < |w.kids[self]| && w.kids[self][i] == b && w.kids[self][i - 1] == after
    case Delete(node) => Removed(m, w, node)
    case ClearAll => w == Moment(map[ROOT := NULL], map[ROOT := []], [])
  }

  /** From an insertion's list to its effect. */
  lemma PlacedAt(l: Links, us: seq<Node>, us': seq<Node>, w: Moment, self: Node, a: Node, i: nat)
    requires Shape(l, us, {}) && a in l.parent.Keys && self in l.kids.Keys && (l.parent[a] != NULL ==> l.parent[a] in l.kids.Keys)
    requires i <= |Remaining(l, a, self)| && SwapRemoves(us, us', a)
    requires w == Moment(Adopted(l.parent, a, self), Placing(l, a, self, i), us')
    ensures Moved(Moment(l.parent, l.kids, us), w, self, a) && self in w.kids.Keys
    ensures |w.kids[self]| == |Remaining(l, a, self)| + 1 && w.kids[self][i] == a
    ensures forall j :: 0 <= j < i ==> w.kids[self][j] == Remaining(l, a, self)[j]
  {
    hide SwapRemoves, Shape, NoDups, Without, Inserted, Detached;
    DetachedAt(l, us, a, self);
    InsertedBack(Remaining(l, a, self), i, a);
    forall p <- l.kids.Keys ensures Without(w.kids[p], a) == Without(l.kids[p], a) && (p != self ==> a !in w.kids[p]) {
      DetachedAt(l, us, a, p);
    }
  }

  lemma InsertedBack(r: seq<Node>, i: nat, a: Node)
    requires i <= |r| && a !in r && NoDups(r) && a != NULL
    ensures var s := Inserted(r, i, a); |s| == |r| + 1 && s[i] == a && a in s && Without(s, a) == r && NoDups(s)
    ensures forall j :: 0 <= j < i ==> Inserted(r, i, a)[j] == r[j]
  {
    InsertedIn(r, i, a);
    hide NoDups;
    var s := Inserted(r, i, a);
    forall j | 0 <= j < |s| ensures s[j] == if j < i then r[j] else if j == i then a else r[j - 1] {}
    assert IndexOf(s, a) == i;
    assert s[..i] == r[..i] && s[i + 1..] == r[i..];
    assert r[..i] + r[i..] == r;
  }

  lemma DetachedAt(l: Links, us: seq<Node>, a: Node, p: Node)
    requires Shape(l, us, {}) && a in l.parent.Keys && p in l.kids.Keys && (l.parent[a] != NULL ==> l.parent[a] in l.kids.Keys)
    ensures a != NULL && Detached(l, a).Keys == l.kids.Keys
    ensures a !in Detached(l, a)[p] && NoDups(Detached(l, a)[p])
    ensures Without(l.kids[p], a) == Without(Detached(l, a)[p], a) == Detached(l, a)[p]
  {
    hide Above, Acyclic, SwapRemoves, Siblings;
    ShapeFacts(l, us, {});
    SiblingsOf(l, l.parent.Keys, p);
    if a in l.kids[p] { ChildPlaced(l, l.parent.Keys, p, a); }
    KidsNoDups(l, l.parent.Keys, p);
    WithoutIn(l.kids[p], a);
  }

  lemma KidsNoDups(l: Links, nodes: set<Node>, p: Node)
    requires Forest(l, nodes) && p in nodes
    ensures NoDups(l.kids[p])
  {
    assert Siblings(l, nodes, p);
  }

  /** Performs an action, if it is enabled. */
  method Perform(d: XMLDocument, a: Action) returns (done: bool)
    requires d.Valid()
    modifies d, d.elementPool, d.textPool, d.commentPool
    ensures d.Valid() && (done <==> old(Enabled(d, a)))
    ensures if done then Performed(old(Now(d)), a, Now(d)) else Now(d) == old(Now(d)) && !Enabled(d, a)
  {
    hide Shape, Above, d.Counts, Performed;
    done := true;
    match a {
      case Create(kind) => DoCreate(d, kind);
      case InsertEnd(self, addThis) =>
        done := CanMove(d, self, addThis);
        if done { DoInsertEnd(d, self, addThis); }
      case InsertFirst(self, addThis) =>
        done := CanMove(d, self, addThis);
        if done { DoInsertFirst(d, self, addThis); }
      case InsertAfter(self, after, addThis) =>
        done := DoInsertAfter(d, self, after, addThis);
      case Delete(node) =>
        if node !in d.parent.Keys || node == ROOT {
          done := false;
        } else {
          DoDelete(d, node);
        }
      case ClearAll => DoClear(d);
    }
  }

  method DoCreate(d: XMLDocument, kind: Kind)
    requires d.Valid()
    modifies d, d.elementPool, d.textPool, d.commentPool
    ensures d.Valid() && Performed(old(Now(d)), Create(kind), Now(d))
  {
    hide Shape, d.Counts, KindOf;
    ghost var m := Now(d);
    var n := d.CreateUnlinkedNode(kind);
    assert Made(m, Now(d), n, kind);
  }

  method DoInsertEnd(d: XMLDocument, self: Node, addThis: Node)
    requires d.Valid() && Movable(d, self, addThis)
    modifies d, d.elementPool, d.textPool, d.commentPool
    ensures d.Valid() && Performed(old(Now(d)), InsertEnd(self, addThis), Now(d))
  {
    hide Shape, Above, d.Counts, Moved, SwapRemoves, Placing, Remaining, Adopted;
    ghost var l, us := d.Snap(), d.unlinked;
    Starting(l, us, addThis);
    var _ := d.InsertEndChild(self, addThis, d.id);
    PlacedAt(l, us, d.unlinked, Now(d), self, addThis, |Remaining(l, addThis, self)|);
  }

  method DoInsertFirst(d: XMLDocument, self: Node, addThis: Node)
    requires d.Valid() && Movable(d, self, addThis)
    modifies d, d.elementPool, d.textPool, d.commentPool
    ensures d.Valid() && Performed(old(Now(d)), InsertFirst(self, addThis), Now(d))
  {
    hide Shape, Above, d.Counts, Moved, SwapRemoves, Placing, Remaining, Adopted;
    ghost var l, us := d.Snap(), d.unlinked;
    Starting(l, us, addThis);
    var _ := d.InsertFirstChild(self, addThis, d.id);
    PlacedAt(l, us, d.unlinked, Now(d), self, addThis, 0);
  }

  method DoInsertAfter(d: XMLDocument, self: Node, after: Node, addThis: Node) returns (done: bool)
    requires d.Valid()
    modifies d, d.elementPool, d.textPool, d.commentPool
    ensures d.Valid() && (done <==> old(Enabled(d, InsertAfter(self, after, addThis))))
    ensures if done then Performed(old(Now(d)), InsertAfter(self, after, addThis), Now(d))
            else Now(d) == old(Now(d)) && !Enabled(d, InsertAfter(self, after, addThis))
  {
    hide Shape, Above, d.Counts, Moved, SwapRemoves, Placing, Remaining, Adopted, IndexOf;
    ghost var l, us := d.Snap(), d.unlinked;
    ShapeFacts(l, us, {});
    done := CanMove(d, self, addThis);
    SameKeys(l, d.parent.Keys);
    if !done || after !in d.parent.Keys || (addThis != after && d.next[after] == addThis && d.next[addThis] == NULL) {
      return false;
    }
    Starting(l, us, addThis);
    var _, crashed := d.InsertAfterChild(self, after, addThis, d.id);
    if after != addThis && l.parent[after] == self {
      ghost var i := IndexOf(Remaining(l, addThis, self), after);
      PlacedAt(l, us, d.unlinked, Now(d), self, addThis, i + 1);
      assert Now(d).kids[self][i + 1 - 1] == after;
    }
  }

  method DoDelete(d: XMLDocument, node: Node)
    requires d.Valid() && node in d.parent.Keys && node != ROOT
    modifies d, d.elementPool, d.textPool, d.commentPool
    ensures d.Valid() && Performed(old(Now(d)), Delete(node), Now(d))
  {
    hide Shape, Above, d.Counts, SwapRemoves, Removed, Pruned;
    ghost var l, us := d.Snap(), d.unlinked;
    d.DeleteNode(node);
    NodeRemoved(l, us, d.Snap(), d.unlinked, node);
  }

  lemma NodeRemoved(l: Links, us: seq<Node>, l': Links, us': seq<Node>, node: Node)
    requires Shape(l, us, {}) && Shape(l', us', {}) && node in l.parent.Keys && Pruned(l.parent, l'.parent, {node})
    requires SwapRemoves(us, us', node)
    requires forall n <- l'.parent.Keys :: n in l'.kids.Keys && n in l.kids.Keys
    requires forall n <- l'.parent.Keys :: l'.kids[n] == if n == l.parent[node] then Without(l.kids[n], node) else l.kids[n]
    ensures Removed(Moment(l.parent, l.kids, us), Moment(l'.parent, l'.kids, us'), node)
  {
    hide Above, SwapRemoves, Acyclic, Siblings, Shape;
    ShapeFacts(l, us, {});
    ShapeFacts(l', us', {});
    forall n <- l.parent.Keys ensures n !in l'.parent.Keys <==> Above(l.parent, node, n) {
      Subtree(l, us, l', us', node, n);
    }
    PrunedKeys(l.parent, l'.parent, node);
    forall n <- l'.kids.Keys ensures l'.kids[n] == Without(l.kids[n], node) {
      if n != l.parent[node] { NotAmong(l, us, n, node); }
    }
  }

  lemma PrunedKeys(l: map<Node, Node>, m: map<Node, Node>, node: Node)
    requires Pruned(l, m, {node})
    ensures m.Keys <= l.Keys && forall n <- m.Keys :: m[n] == l[n]
  {
  }

  lemma Subtree(l: Links, us: seq<Node>, l': Links, us': seq<Node>, node: Node, n: Node)
    requires Shape(l, us, {}) && Shape(l', us', {}) && node in l.parent.Keys && n in l.parent.Keys
    requires Pruned(l.parent, l'.parent, {node})
    ensures n !in l'.parent.Keys <==> Above(l.parent, node, n)
  {
    hide Above, Siblings, Pruned;
    ShapeFacts(l, us, {});
    ShapeFacts(l', us', {});
    PrunedSubtree(l.parent, l'.parent, node, n);
  }

  /** A node that is not the parent does not have the child in its list. */
  lemma NotAmong(l: Links, us: seq<Node>, p: Node, c: Node)
    requires Shape(l, us, {}) && p in l.parent.Keys && c in l.parent.Keys && l.parent[c] != p
    ensures p in l.kids.Keys && c !in l.kids[p] && Without(l.kids[p], c) == l.kids[p]
  {
    hide Above, Acyclic;
    ShapeFacts(l, us, {});
    if c in l.kids[p] { ChildPlaced(l, l.parent.Keys, p, c); }
  }

  method DoClear(d: XMLDocument)
    requires d.Valid()
    modifies d, d.elementPool, d.textPool, d.commentPool
    ensures d.Valid() && Performed(old(Now(d)), ClearAll, Now(d))
  {
    hide Shape, d.Counts;
    d.Clear();
    RootAlone(d.Snap(), d.unlinked);
  }

  lemma RootAlone(l: Links, us: seq<Node>)
    requires Shape(l, us, {}) && l.parent.Keys == {ROOT}
    ensures l.parent == map[ROOT := NULL] && l.kids == map[ROOT := []]
  {
    hide Acyclic;
    ShapeFacts(l, us, {});
    if l.kids[ROOT] != [] { ChildPlaced(l, l.parent.Keys, ROOT, l.kids[ROOT][0]); }
  }

  method CanMove(d: XMLDocument, self: Node, addThis: Node) returns (can: bool)
    requires d.Valid()
    ensures can <==> Movable(d, self, addThis)
  {
    hide Shape, Above, d.Counts;
    if self !in d.parent.Keys || addThis !in d.parent.Keys || addThis == ROOT {
      return false;
    }
    var above := IsAbove(d, addThis, self);
    return !above;
  }

  // --- Whole runs ---

  /** The moments h that the actions lead through. */
  ghost predicate History(h: seq<Moment>, acts: seq<Action>) {
    |h| == |acts| + 1 && forall k :: 0 <= k < |acts| ==> Performed(h[k], acts[k], h[k + 1])
  }

  lemma HistoryMore(h: seq<Moment>, acts: seq<Action>, k: nat, w: Moment)
    requires k < |acts| && |h| == k + 1 && History(h, acts[..k]) && Performed(h[k], acts[k], w)
    ensures History(h + [w], acts[..k + 1])
  {
    hide Performed;
    assert acts[..k + 1] == acts[..k] + [acts[k]];
  }

  /** An item is never handed out while a node has it: at every creation in a history there is
      one new node, and no node of its kind that is there has its item. */
  lemma NotHandedOut(h: seq<Moment>, acts: seq<Action>, k: nat, n: Node)
    requires History(h, acts) && k < |acts| && acts[k].Create? && n in h[k].parent.Keys && n > 0
    ensures exists c :: Made(h[k], h[k + 1], c, acts[k].kind) && (KindOf(n) == KindOf(c) ==> ItemOf(n) != ItemOf(c))
  {
    hide KindOf, ItemOf;
    assert Performed(h[k], acts[k], h[k + 1]);
    var c :| Made(h[k], h[k + 1], c, acts[k].kind);
    AddressOf(n);
    AddressOf(c);
  }

  /** Whole runs: from a new document, every action up to the first one that is not enabled does
      what it is meant to do, and afterwards the accounts are right. */
  method Run(id: nat, elementItems: nat, textItems: nat, commentItems: nat, acts: seq<Action>)
    returns (d: XMLDocument, done: nat, ghost h: seq<Moment>)
    requires elementItems > 0 && textItems > 0 && commentItems > 0
    ensures done <= |acts| && (done < |acts| ==> !Enabled(d, acts[done]))
    ensures d.Valid() && Accounted(d)
    ensures History(h, acts[..done]) && h[0] == Moment(map[ROOT := NULL], map[ROOT := []], []) && h[done] == Now(d)
  {
    hide Shape, Enabled, Accounted, Performed, History, d.Counts;
    d := new XMLDocument(id, elementItems, textItems, commentItems);
    done := 0;
    RootAlone(d.Snap(), d.unlinked);
    h := [Now(d)];
    Begun(h, acts);
    ValidAccounted(d);
    while done < |acts|
      invariant done <= |acts| && d.Valid() && Accounted(d)
      invariant History(h, acts[..done]) && |h| == done + 1 && h[done] == Now(d)
      invariant h[0] == Moment(map[ROOT := NULL], map[ROOT := []], [])
      modifies d, d.elementPool, d.textPool, d.commentPool
    {
      var ok := Perform(d, acts[done]);
      ValidAccounted(d);
      if !ok {
        return;
      }
      HistoryMore(h, acts, done, Now(d));
      h := h + [Now(d)];
      done := done + 1;
    }
  }

  lemma Begun(h: seq<Moment>, acts: seq<Action>)
    requires |h| == 1
    ensures History(h, acts[..0])
  {
  }

  /** Nothing but the document is above the document. */
  lemma AboveRoot(parent: map<Node, Node>, a: Node)
    requires ROOT in parent.Keys && parent[ROOT] == NULL && NULL !in parent.Keys && a > 0
    ensures !Above(parent, a, ROOT)
  {
    AboveStep(parent, a, ROOT);
    NothingAbove(parent, a);
  }

  lemma TwoChildren(l: Links, us: seq<Node>, a: Node, b: Node)
    requires Shape(l, us, {}) && ROOT in l.kids.Keys && l.kids[ROOT] == [a, b]
    ensures a in l.parent.Keys && b in l.parent.Keys && a in l.next.Keys && b in l.next.Keys && a != b
    ensures l.parent[a] == ROOT && l.next[a] == b && l.next[b] == NULL
  {
    hide Acyclic, Owns;
    ShapeFacts(l, us, {});
    SiblingsOf(l, l.parent.Keys, ROOT);
    KidPlaced(l, l.parent.Keys, ROOT, 0);
    KidPlaced(l, l.parent.Keys, ROOT, 1);
  }

  /** An unlinked node goes to the end of the document's list. */
  lemma Appended(l: Links, a: Node, s: seq<Node>)
    requires a in l.parent.Keys && l.parent[a] == NULL && ROOT in l.kids.Keys && l.kids[ROOT] == s
    ensures Remaining(l, a, ROOT) == s && ROOT in Placing(l, a, ROOT, |s|).Keys
    ensures Placing(l, a, ROOT, |s|)[ROOT] == s + [a] && Placing(l, a, ROOT, |s|).Keys == l.kids.Keys
  {
    assert Inserted(s, |s|, a) == s + [a];
  }

  method AppendElement(d: XMLDocument, ghost s: seq<Node>) returns (n: Node)
    requires d.Valid() && ROOT in d.kids.Keys && d.kids[ROOT] == s
    modifies d, d.elementPool, d.textPool, d.commentPool
    ensures d.Valid() && ROOT in d.kids.Keys && d.kids[ROOT] == s + [n] && n in d.parent.Keys && n > 0
  {
    hide Shape, Above, Placing, Remaining, d.Counts;
    ShapeFacts(d.Snap(), d.unlinked, {});
    n := d.CreateUnlinkedNode(ELEMENT);
    ShapeFacts(d.Snap(), d.unlinked, {});
    AboveRoot(d.parent, n);
    Appended(d.Snap(), n, s);
    var _ := d.InsertEndChild(ROOT, n, d.id);
  }

  /** <a/><b/> under the document, and InsertAfterChild(a, b): the source reads through null. */
  method LastBehindItself() returns (crashed: bool)
    ensures crashed
  {
    hide Shape, Pending, XMLDocument.Counts, XMLDocument.Valid;
    var d := new XMLDocument(0, 1, 1, 1);
    var a := AppendElement(d, []);
    var b := AppendElement(d, [a]);
    crashed := MoveBehind(d, a, b);
  }

  /** An element inserted under itself is its own parent; nothing refuses it. */
  method UnderItself() returns (d: XMLDocument, a: Node)
    ensures fresh(d) && d.Sound() && !Acyclic(d.parent) && a in d.parent.Keys && d.parent[a] == a
  {
    hide Shape, Woven, Pending, Acyclic, Above, XMLDocument.Counts;
    d := new XMLDocument(0, 1, 1, 1);
    a := AppendElement(d, []);
    AboveSelf(d.parent, a);
    var _ := d.InsertEndChild(a, a, d.id);
  }

  method MoveBehind(d: XMLDocument, a: Node, b: Node) returns (crashed: bool)
    requires d.Valid() && ROOT in d.kids.Keys && d.kids[ROOT] == [a, b] && b > 0
    modifies d, d.elementPool, d.textPool, d.commentPool
    ensures crashed
  {
    hide Shape, Above, d.Counts;
    ShapeFacts(d.Snap(), d.unlinked, {});
    AboveRoot(d.parent, b);
    TwoChildren(d.Snap(), d.unlinked, a, b);
    var _, c := d.InsertAfterChild(ROOT, a, b, d.id);
    return c;
  }
}
