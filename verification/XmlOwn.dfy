/** Who owns a node: the accounting of XMLDocument on values.  The links of the nodes form a
    forest of trees, its roots other than the document are the unlinked nodes, and creating,
    moving and deleting nodes keep it so. */
module XmlOwn {
  import opened XmlTree

  // --- Addresses ---

  /** The node pools: elements, texts, and one for comments, declarations and unknowns. */
  datatype Kind = ELEMENT | TEXT | COMMENT

  /** The document node, which no pool holds. */
  const ROOT: Node := 0

  function KindOf(n: Node): Kind {
    if n % 3 == 0 then ELEMENT else if n % 3 == 1 then TEXT else COMMENT
  }

  function ItemOf(n: Node): nat
    requires n > 0
  {
    (n - 1) / 3
  }

  function Address(kind: Kind, item: nat): (n: Node)
    ensures n > 0 && KindOf(n) == kind && ItemOf(n) == item
  {
    item * 3 + if kind == ELEMENT then 3 else if kind == TEXT then 1 else 2
  }

  lemma AddressOf(n: Node)
    requires n > 0
    ensures Address(KindOf(n), ItemOf(n)) == n
  {
  }

  // --- Accounting, on values ---

  /** The unlinked list holds exactly the nodes without a parent, the document node and the
      nodes on their way (x) aside. */
  ghost predicate Owns(unlinked: seq<Node>, parent: map<Node, Node>, x: set<Node>) {
    && NoDups(unlinked)
    && (forall n :: n in unlinked ==> n in parent.Keys && n != ROOT && parent[n] == NULL)
    && (forall n :: n in parent.Keys && n != ROOT && parent[n] == NULL && n !in x ==> n in unlinked)
  }

  ghost function Pending(unlinked: seq<Node>, kind: Kind, x: set<Node>): set<Node> {
    set n | n in unlinked && KindOf(n) == kind && n !in x
  }

  ghost function Items(nodes: set<Node>, kind: Kind): set<nat> {
    set n | n in nodes && n > 0 && KindOf(n) == kind :: ItemOf(n)
  }

  /** The rank falls from every node to its parent. */
  ghost predicate Ranks(rank: map<Node, nat>, parent: map<Node, Node>) {
    && parent.Keys <= rank.Keys
    && forall n <- parent.Keys :: parent[n] in parent.Keys ==> rank[parent[n]] < rank[n]
  }

  /** No node is below itself. */
  ghost predicate Acyclic(parent: map<Node, Node>) {
    exists rank :: Ranks(rank, parent)
  }

  /** The k-th ancestor. */
  ghost function Climb(parent: map<Node, Node>, n: Node, k: nat): Node
    decreases k
  {
    if k == 0 || n !in parent.Keys then n else Climb(parent, parent[n], k - 1)
  }

  /** a is n or an ancestor of n. */
  ghost predicate Above(parent: map<Node, Node>, a: Node, n: Node) {
    exists k: nat :: Climb(parent, n, k) == a
  }

  lemma AboveStep(parent: map<Node, Node>, a: Node, n: Node)
    requires n in parent.Keys && a != n
    ensures Above(parent, a, n) <==> Above(parent, a, parent[n])
  {
    if Above(parent, a, n) {
      var k: nat :| Climb(parent, n, k) == a;
      assert Climb(parent, parent[n], k - 1) == a;
    }
    if Above(parent, a, parent[n]) {
      var k: nat :| Climb(parent, parent[n], k) == a;
      assert Climb(parent, n, k + 1) == a;
    }
  }

  lemma AboveSelf(parent: map<Node, Node>, a: Node)
    ensures Above(parent, a, a)
  {
    assert Climb(parent, a, 0) == a;
  }

  lemma {:induction false} ClimbRank(rank: map<Node, nat>, parent: map<Node, Node>, q: map<Node, Node>, a: Node, n: Node, k: nat)
    requires Ranks(rank, q) && a in q.Keys && n in q.Keys && q.Keys == parent.Keys && Climb(parent, n, k) == a
    requires forall x <- q.Keys :: x != a ==> q[x] == parent[x]
    ensures rank[a] <= rank[n]
    decreases k
  {
    if n != a {
      assert Climb(parent, parent[n], k - 1) == a;
      if parent[n] in parent.Keys {
        ClimbRank(rank, parent, q, a, parent[n], k - 1);
      }
    }
  }

  /** Hanging a root under another node makes a cycle exactly if it is that node or above it. */
  lemma AdoptedAcyclic(parent: map<Node, Node>, a: Node, p: Node)
    requires Acyclic(parent) && a in parent.Keys && p in parent.Keys && parent[a] !in parent.Keys
    ensures Acyclic(Write(parent, a, p)) <==> !Above(parent, a, p)
  {
    var q := Write(parent, a, p);
    if Above(parent, a, p) {
      if Acyclic(q) {
        var rank :| Ranks(rank, q);
        var k: nat :| Climb(parent, p, k) == a;
        ClimbRank(rank, parent, q, a, p, k);
        assert false;
      }
    } else {
      var rank :| Ranks(rank, parent);
      var rank' := map n | n in parent.Keys :: rank[n] + if Above(parent, a, n) then rank[p] + 1 else 0;
      AboveSelf(parent, a);
      forall n <- q.Keys | q[n] in q.Keys ensures rank'[q[n]] < rank'[n] {
        if n != a {
          AboveStep(parent, a, n);
        }
      }
      assert Ranks(rank', q);
    }
  }

  /** Cutting a node off keeps what is above another node, up to the cut. */
  lemma {:induction false} AboveCut(parent: map<Node, Node>, a: Node, n: Node, k: nat)
    requires a in parent.Keys && Climb(Write(parent, a, NULL), n, k) == a
    ensures Above(parent, a, n)
    decreases k
  {
    if n == a {
      AboveSelf(parent, a);
    } else if k > 0 && n in parent.Keys {
      AboveCut(parent, a, parent[n], k - 1);
      AboveStep(parent, a, n);
    }
  }

  /** Moving a node, whatever its parent: a cycle arises exactly if it moves below itself. */
  lemma MovedAcyclic(parent: map<Node, Node>, a: Node, p: Node)
    requires Acyclic(parent) && a in parent.Keys && p in parent.Keys && NULL !in parent.Keys
    ensures Acyclic(Write(parent, a, NULL))
    ensures Acyclic(Adopted(parent, a, p)) <==> !Above(parent, a, p)
  {
    var cut := Write(parent, a, NULL);
    var rank :| Ranks(rank, parent);
    assert Ranks(rank, cut);
    AdoptedAcyclic(cut, a, p);
    assert Write(cut, a, p) == Adopted(parent, a, p);
    if Above(cut, a, p) {
      var k: nat :| Climb(cut, p, k) == a;
      AboveCut(parent, a, p, k);
    }
    if Above(parent, a, p) {
      var k: nat :| Climb(parent, p, k) == a;
      CutAbove(parent, a, p, k);
    }
  }

  lemma {:induction false} CutAbove(parent: map<Node, Node>, a: Node, n: Node, k: nat)
    requires a in parent.Keys && Climb(parent, n, k) == a
    ensures Above(Write(parent, a, NULL), a, n)
    decreases k
  {
    if n == a {
      AboveSelf(Write(parent, a, NULL), a);
    } else if k > 0 && n in parent.Keys {
      CutAbove(parent, a, parent[n], k - 1);
      AboveStep(Write(parent, a, NULL), a, n);
    }
  }

  /** The links are a forest over the nodes, and the unlinked list knows its roots. */
  ghost predicate Shape(l: Links, us: seq<Node>, x: set<Node>) {
    Woven(l, us, x) && Acyclic(l.parent)
  }

  /** The same, cycles of parents aside. */
  ghost predicate Woven(l: Links, us: seq<Node>, x: set<Node>) {
    var nodes := l.parent.Keys;
    && Forest(l, nodes) && ROOT in nodes && l.parent[ROOT] == NULL && ROOT !in x
    && (forall n <- nodes :: n >= 0)
    && (forall n <- x :: n in nodes && l.parent[n] == NULL)
    && Owns(us, l.parent, x)
  }

  lemma ShapeFacts(l: Links, us: seq<Node>, x: set<Node>)
    requires Shape(l, us, x)
    ensures Over(l, l.parent.Keys) && Forest(l, l.parent.Keys) && ROOT in l.parent.Keys && l.parent[ROOT] == NULL
    ensures NULL !in l.parent.Keys && NoDups(us) && Acyclic(l.parent)
    ensures forall n :: n in us ==> n in l.parent.Keys && n != ROOT && n > 0 && l.parent[n] == NULL
  {
    hide NoDups, Siblings, InParent, Acyclic;
  }

  // --- A new node ---

  function Grown(l: Links, n: Node): Links {
    Links(l.parent[n := NULL], l.first[n := NULL], l.last[n := NULL], l.prev[n := NULL], l.next[n := NULL], l.kids[n := []])
  }

  /** A new node without links joins the forest. */
  lemma ForestGrown(l: Links, nodes: set<Node>, n: Node)
    requires Forest(l, nodes) && n !in nodes && n != NULL
    ensures Forest(Grown(l, n), nodes + {n})
  {
    hide NoDups, At;
    var m := Grown(l, n);
    AtEmpty();
    forall a <- nodes + {n} ensures Siblings(m, nodes + {n}, a) && InParent(m, nodes + {n}, a) {
      if a != n {
        SiblingsOf(l, nodes, a);
        ParentOf(l, nodes, a);
        forall i | 0 <= i < |m.kids[a]| ensures Placed(m, nodes + {n}, a, i) {
          assert Placed(l, nodes, a, i);
        }
      }
    }
  }

  lemma AtEmpty()
    ensures At([], 0) == NULL && At([], -1) == NULL && NoDups([])
  {
  }

  lemma ShapeGrown(l: Links, us: seq<Node>, n: Node)
    requires Shape(l, us, {}) && n !in l.parent.Keys && n > 0
    ensures Shape(Grown(l, n), us + [n], {}) && n !in us
  {
    hide Forest, Acyclic;
    ForestGrown(l, l.parent.Keys, n);
    ShapeFacts(l, us, {});
    forall c <- l.parent.Keys ensures l.parent[c] != n {
      ParentOf(l, l.parent.Keys, c);
    }
    GrownAcyclic(l.parent, n);
    assert forall a :: a in us + [n] <==> a in us || a == n;
    assert Grown(l, n).parent.Keys == l.parent.Keys + {n};
  }

  lemma RootAcyclic()
    ensures Acyclic(map[ROOT := NULL])
  {
    assert Ranks(map[ROOT := 0], map[ROOT := NULL]);
  }

  lemma RootShape()
    ensures Shape(Links(map[ROOT := NULL], map[ROOT := NULL], map[ROOT := NULL], map[ROOT := NULL], map[ROOT := NULL],
                        map[ROOT := []]), [], {})
  {
    AtEmpty();
    RootAcyclic();
  }

  lemma GrownAcyclic(parent: map<Node, Node>, n: Node)
    requires Acyclic(parent) && n !in parent.Keys && n != NULL && NULL !in parent.Keys && forall c <- parent.Keys :: parent[c] != n
    ensures Acyclic(parent[n := NULL])
  {
    var rank :| Ranks(rank, parent);
    assert Ranks(rank[n := 0], parent[n := NULL]);
  }

  lemma ItemsGrown(nodes: set<Node>, n: Node)
    requires n > 0
    ensures forall k :: Items(nodes + {n}, k) == Items(nodes, k) + if KindOf(n) == k then {ItemOf(n)} else {}
  {
  }

  lemma PendingGrown(us: seq<Node>, n: Node)
    requires n !in us
    ensures forall k :: |Pending(us + [n], k, {})| == |Pending(us, k, {})| + if KindOf(n) == k then 1 else 0
  {
    forall k ensures |Pending(us + [n], k, {})| == |Pending(us, k, {})| + if KindOf(n) == k then 1 else 0 {
      assert Pending(us + [n], k, {}) == Pending(us, k, {}) + if KindOf(n) == k then {n} else {};
    }
  }

  lemma NewAddress(nodes: set<Node>, k: Kind, item: nat)
    requires item !in Items(nodes, k)
    ensures Address(k, item) !in nodes
  {
  }

  // --- A node in use ---

  lemma SwapRemoved(s: seq<Node>, i: nat)
    requires NoDups(s) && i < |s|
    ensures var r := s[i := s[|s| - 1]][..|s| - 1];
      NoDups(r) && forall n :: n in r <==> n in s && n != s[i]
  {
    var r := s[i := s[|s| - 1]][..|s| - 1];
    forall n | n in s && n != s[i] ensures n in r {
      var k := IndexOf(s, n);
      if k < |s| - 1 { assert r[k] == n; } else { assert r[i] == n; }
    }
  }

  /** Node n leaves the list, if it is there; the last one takes its place. */
  ghost predicate SwapRemoves(us: seq<Node>, us': seq<Node>, n: Node) {
    && (n !in us ==> us' == us)
    && forall i :: 0 <= i < |us| && us[i] == n ==> us' == us[i := us[|us| - 1]][..|us| - 1]
  }

  lemma NothingRemoved(us: seq<Node>, n: Node)
    requires n !in us
    ensures SwapRemoves(us, us, n)
  {
  }

  /** A node taken off the unlinked list is on its way. */
  lemma ShapeUsed(l: Links, us: seq<Node>, us': seq<Node>, x: set<Node>, n: Node)
    requires Shape(l, us, x) && n in l.parent.Keys && n != ROOT && l.parent[n] == NULL
    requires NoDups(us') && forall a :: a in us' <==> a in us && a != n
    ensures Shape(l, us', x + {n})
  {
    hide Forest, NoDups, Acyclic;
  }

  // --- Unlinking ---

  lemma ChildFacts(l: Links, us: seq<Node>, x: set<Node>, self: Node, child: Node)
    requires Shape(l, us, x) && self in l.parent.Keys && child in l.parent.Keys && l.parent[child] == self
    ensures Over(l, l.parent.Keys) && child != ROOT && child in l.kids[self]
    ensures l.prev[child] != NULL ==> l.prev[child] in l.parent.Keys && l.prev[child] != child && l.prev[child] != l.next[child]
    ensures l.next[child] != NULL ==> l.next[child] in l.parent.Keys && l.next[child] != child
  {
    ParentOf(l, l.parent.Keys, child);
    CutNeighbours(l, l.parent.Keys, self, child);
  }

  /** The fields after the writes of Unlink. */
  ghost predicate Written(l: Links, m: Links, nodes: set<Node>, self: Node, child: Node)
    requires Over(l, nodes) && Over(m, nodes) && self in nodes && child in nodes
    requires (l.prev[child] != NULL ==> l.prev[child] in nodes) && (l.next[child] != NULL ==> l.next[child] in nodes)
  {
    var before, after := l.prev[child], l.next[child];
    && m.parent == Write(l.parent, child, NULL) && m.kids == Write(l.kids, self, Without(l.kids[self], child))
    && m.first == (if l.first[self] == child then Write(l.first, self, after) else l.first)
    && m.last == (if l.last[self] == child then Write(l.last, self, before) else l.last)
    && m.next == Write(if before != NULL then Write(l.next, before, after) else l.next, child, NULL)
    && m.prev == Write(if after != NULL then Write(l.prev, after, before) else l.prev, child, NULL)
  }

  lemma CutWritten(l: Links, m: Links, nodes: set<Node>, self: Node, child: Node)
    requires Over(l, nodes) && Over(m, nodes) && self in nodes && child in nodes
    requires (l.prev[child] != NULL ==> l.prev[child] in nodes) && (l.next[child] != NULL ==> l.next[child] in nodes)
    requires Written(l, m, nodes, self, child)
    ensures Cut(l, m, nodes, self, child)
  {
    hide Write, Without;
  }

  /** Unlinking keeps the shape, with the child on its way. */
  lemma ShapeCut(l: Links, m: Links, us: seq<Node>, x: set<Node>, self: Node, child: Node)
    requires Shape(l, us, x) && self in l.parent.Keys && child in l.parent.Keys && l.parent[child] == self
    requires Over(l, l.parent.Keys) && Over(m, l.parent.Keys) && Cut(l, m, l.parent.Keys, self, child)
    ensures Shape(m, us, x + {child}) && child !in us && child !in m.kids[self]
  {
    hide Forest, Without, Cut, Write, Owns, NoDups, Acyclic;
    ShapeFacts(l, us, x);
    CutAcyclic(l, m, l.parent.Keys, self, child);
    CutForest(l, m, l.parent.Keys, self, child);
    CutParents(l, m, l.parent.Keys, self, child);
    NotKid(m, l.parent.Keys, self, child);
    OwnsCut(us, l.parent, m.parent, x, child);
  }

  lemma CutAcyclic(l: Links, m: Links, nodes: set<Node>, self: Node, child: Node)
    requires Over(l, nodes) && Over(m, nodes) && self in nodes && child in nodes && Cut(l, m, nodes, self, child)
    requires Acyclic(l.parent)
    ensures Acyclic(m.parent)
  {
    MovedAcyclic(l.parent, child, self);
  }

  lemma CutParents(l: Links, m: Links, nodes: set<Node>, self: Node, child: Node)
    requires Over(l, nodes) && Over(m, nodes) && self in nodes && child in nodes && Cut(l, m, nodes, self, child)
    ensures forall n <- nodes :: m.parent[n] == if n == child then NULL else l.parent[n]
  {
  }

  lemma OwnsCut(us: seq<Node>, parent: map<Node, Node>, parent': map<Node, Node>, x: set<Node>, child: Node)
    requires Owns(us, parent, x) && child in parent.Keys && parent[child] != NULL && parent'.Keys == parent.Keys
    requires forall n <- parent.Keys :: parent'[n] == if n == child then NULL else parent[n]
    ensures Owns(us, parent', x + {child}) && child !in us
  {
    hide NoDups;
  }

  // --- Putting in ---

  lemma ShapePut(l: Links, m: Links, us: seq<Node>, x: set<Node>, self: Node, child: Node, i: nat)
    requires Shape(l, us, x + {child}) && self in l.parent.Keys && child in l.parent.Keys && l.parent[child] == NULL
    requires child !in us && child !in x
    requires Over(l, l.parent.Keys) && Over(m, l.parent.Keys) && i <= |l.kids[self]| && Put(l, m, l.parent.Keys, self, child, i)
    ensures Woven(m, us, x) && (Shape(m, us, x) <==> Acyclic(m.parent))
  {
    hide Forest, Put, Owns, Acyclic;
    ShapeFacts(l, us, x + {child});
    PutForest(l, m, l.parent.Keys, self, child, i);
    PutParents(l, m, l.parent.Keys, self, child, i);
    OwnsPut(us, l.parent, m.parent, x, self, child);
  }

  lemma PutParents(l: Links, m: Links, nodes: set<Node>, self: Node, child: Node, i: nat)
    requires Over(l, nodes) && Over(m, nodes) && self in nodes && child in nodes && i <= |l.kids[self]|
    requires Put(l, m, nodes, self, child, i)
    ensures forall n <- nodes :: m.parent[n] == if n == child then self else l.parent[n]
  {
  }

  lemma OwnsPut(us: seq<Node>, parent: map<Node, Node>, parent': map<Node, Node>, x: set<Node>, self: Node, child: Node)
    requires Owns(us, parent, x + {child}) && child !in us && parent'.Keys == parent.Keys && self != NULL
    requires forall n <- parent.Keys :: parent'[n] == if n == child then self else parent[n]
    ensures Owns(us, parent', x)
  {
    hide NoDups;
  }

  /** The children with a taken out of its parent's list. */
  ghost function Detached(l: Links, a: Node): map<Node, seq<Node>>
    requires a in l.parent.Keys && (l.parent[a] != NULL ==> l.parent[a] in l.kids.Keys)
  {
    if l.parent[a] == NULL then l.kids else Write(l.kids, l.parent[a], Without(l.kids[l.parent[a]], a))
  }

  // --- What a deletion removes ---

  ghost function Linked(parent: map<Node, Node>): set<Node> {
    set n | n in parent.Keys && parent[n] != NULL
  }

  ghost function ChildrenOf(parent: map<Node, Node>, self: Node): set<Node> {
    set n | n in parent.Keys && parent[n] == self
  }

  /** The nodes of top are gone, and a node is gone only if it is one of them or was below
      one that is gone; the others keep their parents. */
  ghost predicate Pruned(l: map<Node, Node>, m: map<Node, Node>, top: set<Node>) {
    && m.Keys <= l.Keys
    && (forall n <- m.Keys :: m[n] == l[n] && n !in top)
    && (forall n <- l.Keys :: n !in m.Keys && n !in top ==> l[n] in l.Keys && l[n] !in m.Keys)
  }

  // --- The edit an insertion makes ---

  function Adopted(parent: map<Node, Node>, a: Node, self: Node): map<Node, Node>
    requires a in parent.Keys
  {
    Write(parent, a, self)
  }

  /** The children of self once a has left its place. */
  ghost function Remaining(l: Links, a: Node, self: Node): seq<Node>
    requires a in l.parent.Keys && self in l.kids.Keys && (l.parent[a] != NULL ==> l.parent[a] in l.kids.Keys)
  {
    Detached(l, a)[self]
  }

  /** The children after a has moved to position i of self's list. */
  ghost function Placing(l: Links, a: Node, self: Node, i: nat): map<Node, seq<Node>>
    requires a in l.parent.Keys && self in l.kids.Keys && (l.parent[a] != NULL ==> l.parent[a] in l.kids.Keys)
    requires i <= |Remaining(l, a, self)|
  {
    Write(Detached(l, a), self, Inserted(Remaining(l, a, self), i, a))
  }

  lemma Starting(l: Links, us: seq<Node>, a: Node)
    requires Shape(l, us, {}) && a in l.parent.Keys
    ensures l.kids.Keys == l.parent.Keys && (l.parent[a] != NULL ==> l.parent[a] in l.kids.Keys)
  {
    hide Siblings;
    ParentOf(l, l.parent.Keys, a);
  }

  /** Where linking starts: a has left its place. */
  lemma Reached(l: Links, us: seq<Node>, self: Node, a: Node)
    requires Shape(l, us, {a}) && a in l.parent.Keys && self in l.parent.Keys
    ensures Over(l, l.parent.Keys) && self in l.kids.Keys && self in l.last.Keys && self in l.first.Keys
    ensures Siblings(l, l.parent.Keys, self) && l.parent[a] == NULL && a !in l.kids[self]
    ensures l.last[self] != NULL ==> l.last[self] in l.parent.Keys && l.last[self] != a
    ensures l.first[self] != NULL ==> l.first[self] in l.parent.Keys && l.first[self] != a
  {
    hide NoDups;
    NotKid(l, l.parent.Keys, self, a);
    SiblingsOf(l, l.parent.Keys, self);
    var s := l.kids[self];
    if s != [] {
      KidPlaced(l, l.parent.Keys, self, 0);
      KidPlaced(l, l.parent.Keys, self, |s| - 1);
    }
  }

  ghost predicate LinkedLast(l: Links, m: Links, self: Node, a: Node)
    requires Over(l, l.parent.Keys) && self in l.parent.Keys && a in l.parent.Keys
    requires l.last[self] != NULL ==> l.last[self] in l.parent.Keys
  {
    var end := l.last[self];
    && m.parent == Write(l.parent, a, self) && m.kids == Write(l.kids, self, l.kids[self] + [a])
    && m.last == Write(l.last, self, a) && m.first == (if end == NULL then Write(l.first, self, a) else l.first)
    && m.prev == Write(l.prev, a, end) && m.next == Write(if end == NULL then l.next else Write(l.next, end, a), a, NULL)
  }

  lemma EndPut(l: Links, m: Links, self: Node, a: Node)
    requires Over(l, l.parent.Keys) && self in l.parent.Keys && a in l.parent.Keys && a !in l.kids[self]
    requires Siblings(l, l.parent.Keys, self) && (l.last[self] != NULL ==> l.last[self] in l.parent.Keys)
    requires LinkedLast(l, m, self, a)
    ensures Over(m, l.parent.Keys) && Put(l, m, l.parent.Keys, self, a, |l.kids[self]|)
  {
    hide Write, Siblings;
    var s := l.kids[self];
    assert Inserted(s, |s|, a) == s + [a];
    LastIs(l, self);
  }

  ghost predicate LinkedFirst(l: Links, m: Links, self: Node, a: Node)
    requires Over(l, l.parent.Keys) && self in l.parent.Keys && a in l.parent.Keys
    requires l.first[self] != NULL ==> l.first[self] in l.parent.Keys
  {
    var begin := l.first[self];
    && m.parent == Write(l.parent, a, self) && m.kids == Write(l.kids, self, [a] + l.kids[self])
    && m.first == Write(l.first, self, a) && m.last == (if begin == NULL then Write(l.last, self, a) else l.last)
    && m.next == Write(l.next, a, begin) && m.prev == Write(if begin == NULL then l.prev else Write(l.prev, begin, a), a, NULL)
  }

  lemma FirstPut(l: Links, m: Links, self: Node, a: Node)
    requires Over(l, l.parent.Keys) && self in l.parent.Keys && a in l.parent.Keys && a !in l.kids[self]
    requires Siblings(l, l.parent.Keys, self) && (l.first[self] != NULL ==> l.first[self] in l.parent.Keys)
    requires LinkedFirst(l, m, self, a)
    ensures Over(m, l.parent.Keys) && Put(l, m, l.parent.Keys, self, a, 0)
  {
    hide Write, Siblings;
    var s := l.kids[self];
    assert Inserted(s, 0, a) == [a] + s;
    LastIs(l, self);
  }

  ghost predicate LinkedAfter(l: Links, m: Links, self: Node, after: Node, a: Node)
    requires Over(l, l.parent.Keys) && self in l.parent.Keys && a in l.parent.Keys && after in l.parent.Keys
    requires l.next[after] in l.parent.Keys && after in l.kids[self]
  {
    && m.parent == Write(l.parent, a, self)
    && m.kids == Write(l.kids, self, Inserted(l.kids[self], IndexOf(l.kids[self], after) + 1, a))
    && m.first == l.first && m.last == l.last
    && m.next == Write(Write(l.next, a, l.next[after]), after, a)
    && m.prev == Write(Write(l.prev, a, after), l.next[after], a)
  }

  lemma AfterPut(l: Links, m: Links, self: Node, after: Node, a: Node)
    requires Over(l, l.parent.Keys) && self in l.parent.Keys && a in l.parent.Keys && a !in l.kids[self]
    requires Siblings(l, l.parent.Keys, self) && after in l.kids[self] && after in l.parent.Keys
    requires l.next[after] in l.parent.Keys && LinkedAfter(l, m, self, after, a)
    ensures Over(m, l.parent.Keys) && Put(l, m, l.parent.Keys, self, a, IndexOf(l.kids[self], after) + 1)
  {
    hide Write, NoDups, IndexOf, Inserted;
    var s := l.kids[self];
    var k := IndexOf(s, after);
    KidPlaced(l, l.parent.Keys, self, k);
    assert At(s, k + 1) == l.next[after] != NULL;
    assert At(s, k) == after;
  }

  /** A child without a next sibling is the last one, so inserting after it is appending. */
  lemma AfterLast(l: Links, us: seq<Node>, self: Node, after: Node, a: Node)
    requires Shape(l, us, {}) && self in l.parent.Keys && a in l.parent.Keys && after in l.parent.Keys
    requires l.parent[after] == self && after != a && (l.parent[a] != NULL ==> l.parent[a] in l.kids.Keys)
    ensures self in l.kids.Keys && after in l.next.Keys && after in Remaining(l, a, self)
    ensures l.next[after] == NULL ==>
      IndexOf(Remaining(l, a, self), after) + 1 == |Remaining(l, a, self)|
    ensures l.next[after] == NULL ==> !(l.next[after] == a)
  {
    var nodes := l.parent.Keys;
    ParentOf(l, nodes, after);
    SiblingsOf(l, nodes, self);
    var s := l.kids[self];
    var k := IndexOf(s, after);
    KidPlaced(l, nodes, self, k);
    WithoutIn(s, a);
    if l.next[after] == NULL {
      NothingThere(s, k + 1);
      LastStays(s, after, a);
      if a !in s { assert Without(s, a) == s; }
    }
  }

  lemma NothingThere(s: seq<Node>, k: nat)
    requires NoDups(s)
    ensures At(s, k) == NULL <==> k >= |s|
  {
  }

  lemma LastStays(s: seq<Node>, x: Node, a: Node)
    requires NoDups(s) && x in s && x != a && IndexOf(s, x) == |s| - 1
    ensures x in Without(s, a) && IndexOf(Without(s, a), x) == |Without(s, a)| - 1
  {
    WithoutIn(s, a);
    var r := Without(s, a);
    if a in s {
      assert r[|r| - 1] == x;
    }
    IndexIs(r, |r| - 1);
  }

  /** After the preamble the next link of afterThis is gone exactly if addThis was the last
      child, right behind it. */
  lemma StillAfter(l0: Links, l: Links, us: seq<Node>, self: Node, after: Node, a: Node)
    requires Shape(l, us, {a}) && self in l.parent.Keys && a in l.parent.Keys && after in l.parent.Keys && after != a
    requires Over(l0, l.parent.Keys) && Forest(l0, l.parent.Keys) && l0.parent[after] == self && l0.next[after] != NULL
    requires l.parent == Write(l0.parent, a, NULL) && l.kids == Detached(l0, a)
    requires l0.parent[a] == NULL ==> l == l0
    requires l0.parent[a] != NULL ==> Over(l, l.parent.Keys) && l0.parent[a] in l.parent.Keys && Cut(l0, l, l.parent.Keys, l0.parent[a], a)
    ensures self in l.kids.Keys && after in l.next.Keys && after in l.kids[self]
    ensures l.next[after] == NULL <==> l0.next[after] == a && l0.next[a] == NULL
    ensures l.next[after] != NULL ==> l.next[after] in l.parent.Keys && l.next[after] != a
  {
    hide Forest, Acyclic, Siblings, IndexOf, Write;
    var nodes := l.parent.Keys;
    ParentOf(l, nodes, after);
    SiblingsOf(l, nodes, self);
    KidPlaced(l, nodes, self, IndexOf(l.kids[self], after));
    var k := IndexOf(l.kids[self], after);
    if k + 1 < |l.kids[self]| { KidPlaced(l, nodes, self, k + 1); }
    ParentOf(l0, nodes, after);
    CutNeighbours(l0, nodes, self, after);
    if l0.parent[a] != NULL {
      ParentOf(l0, nodes, a);
      CutNeighbours(l0, nodes, l0.parent[a], a);
    } else {
      NotKid(l0, nodes, self, a);
    }
  }

  lemma LastIs(l: Links, self: Node)
    requires Over(l, l.parent.Keys) && self in l.parent.Keys && Siblings(l, l.parent.Keys, self)
    ensures var s := l.kids[self];
      && l.last[self] == At(s, |s| - 1) && l.first[self] == At(s, 0)
      && (l.last[self] == NULL <==> s == []) && (l.first[self] == NULL <==> s == [])
  {
    var s := l.kids[self];
    assert s != [] ==> s[0] != NULL && s[|s| - 1] != NULL;
  }

  /** Where linking ends. */
  lemma Landed(l0: Links, l: Links, m: Links, us: seq<Node>, self: Node, a: Node, i: nat)
    requires Shape(l, us, {a}) && self in l.parent.Keys && a in l.parent.Keys && l.parent[a] == NULL && a !in us
    requires Over(l, l.parent.Keys) && Over(m, l.parent.Keys) && i <= |l.kids[self]|
    requires Put(l, m, l.parent.Keys, self, a, i)
    requires a in l0.parent.Keys && (l0.parent[a] != NULL ==> l0.parent[a] in l0.kids.Keys)
    requires l.parent == Write(l0.parent, a, NULL) && l.kids == Detached(l0, a)
    requires Acyclic(l0.parent) && self in l0.parent.Keys && NULL !in l0.parent.Keys
    ensures Woven(m, us, {}) && (if Above(l0.parent, a, self) then !Acyclic(m.parent) else Shape(m, us, {}))
    ensures m.parent == Adopted(l0.parent, a, self) && i <= |Remaining(l0, a, self)| && m.kids == Placing(l0, a, self, i)
  {
    hide Shape, Woven, Inserted, Acyclic, Above;
    assert {} + {a} == {a};
    assert Write(Write(l0.parent, a, NULL), a, self) == Write(l0.parent, a, self);
    MovedAcyclic(l0.parent, a, self);
    ShapePut(l, m, us, {}, self, a, i);
  }

  lemma ParentKnown(l: Links, us: seq<Node>, x: set<Node>, a: Node)
    requires Shape(l, us, x) && a in l.parent.Keys && l.parent[a] != NULL
    ensures l.parent[a] in l.parent.Keys && l.parent[a] in l.kids.Keys
  {
    ParentOf(l, l.parent.Keys, a);
  }

  lemma SameWrite(m: map<Node, Node>, a: Node)
    requires a in m.Keys && m[a] == NULL
    ensures Write(m, a, NULL) == m
  {
  }

  lemma PendingSame(us: seq<Node>, a: Node)
    requires a !in us
    ensures forall k :: Pending(us, k, {a}) == Pending(us, k, {})
  {
  }

  lemma WasPending(l: Links, us: seq<Node>, a: Node)
    requires Shape(l, us, {}) && a in l.parent.Keys && a != ROOT && l.parent[a] == NULL
    ensures a in us
  {
  }

  lemma PendingLess(us: seq<Node>, us': seq<Node>, a: Node)
    requires a in us && forall n :: n in us' <==> n in us && n != a
    ensures forall k :: |Pending(us', k, {a})| == |Pending(us, k, {})| - if KindOf(a) == k then 1 else 0
  {
    forall k ensures |Pending(us', k, {a})| == |Pending(us, k, {})| - if KindOf(a) == k then 1 else 0 {
      assert Pending(us', k, {a}) == Pending(us, k, {}) - {a};
    }
  }

  lemma SameKeys(l: Links, nodes: set<Node>)
    requires Over(l, nodes)
    ensures nodes == l.parent.Keys == l.first.Keys == l.last.Keys == l.prev.Keys == l.next.Keys == l.kids.Keys
    ensures NULL !in nodes
  {
  }

  lemma KeysBack(l: Links, nodes: set<Node>)
    requires nodes == l.parent.Keys == l.first.Keys == l.last.Keys == l.prev.Keys == l.next.Keys == l.kids.Keys
    requires NULL !in nodes
    ensures Over(l, nodes)
  {
  }

  // --- Freeing a node ---

  lemma OnTheWay(l: Links, us: seq<Node>, x: set<Node>, node: Node)
    requires Shape(l, us, x) && node in x
    ensures node in l.parent.Keys && node > 0 && l.parent[node] == NULL
  {
    hide Forest, Owns, Acyclic;
  }

  lemma NotOnTheWay(l: Links, us: seq<Node>, x: set<Node>, node: Node)
    requires Shape(l, us, x) && node in l.parent.Keys && l.parent[node] != NULL
    ensures node !in x && node > 0
  {
    hide Forest, Owns, Acyclic;
  }

  function Freed(l: Links, n: Node): Links {
    Links(l.parent - {n}, l.first - {n}, l.last - {n}, l.prev - {n}, l.next - {n}, l.kids - {n})
  }

  lemma ForestFreed(l: Links, nodes: set<Node>, n: Node)
    requires Forest(l, nodes) && n in nodes && l.parent[n] == NULL && l.kids[n] == []
    ensures Forest(Freed(l, n), nodes - {n})
  {
    hide NoDups, At;
    var m, rest := Freed(l, n), nodes - {n};
    forall a <- rest ensures Siblings(m, rest, a) && InParent(m, rest, a) {
      SiblingsOf(l, nodes, a);
      ParentOf(l, nodes, a);
      NotKid(l, nodes, a, n);
      forall i | 0 <= i < |m.kids[a]| ensures Placed(m, rest, a, i) {
        assert Placed(l, nodes, a, i);
        assert l.kids[a][i] in l.kids[a];
      }
    }
  }

  lemma FreedAcyclic(parent: map<Node, Node>, n: Node)
    requires Acyclic(parent)
    ensures Acyclic(parent - {n})
  {
    var rank :| Ranks(rank, parent);
    assert Ranks(rank, parent - {n});
  }

  lemma ShapeFreed(l: Links, us: seq<Node>, x: set<Node>, n: Node)
    requires Shape(l, us, x + {n}) && n !in x && n !in us && Over(l, l.parent.Keys) && n in l.parent.Keys && l.kids[n] == []
    ensures Shape(Freed(l, n), us, x) && Freed(l, n).parent.Keys == l.parent.Keys - {n}
  {
    hide Forest, Acyclic, NoDups;
    ForestFreed(l, l.parent.Keys, n);
    FreedAcyclic(l.parent, n);
  }

  lemma ItemsFreed(nodes: set<Node>, n: Node)
    requires n in nodes && n > 0
    ensures ItemOf(n) in Items(nodes, KindOf(n))
    ensures forall k :: Items(nodes - {n}, k) == Items(nodes, k) - if KindOf(n) == k then {ItemOf(n)} else {}
  {
    forall a | a in nodes && a > 0 && KindOf(a) == KindOf(n) && ItemOf(a) == ItemOf(n) ensures a == n {
      AddressOf(a);
      AddressOf(n);
    }
  }

  lemma PendingFreed(us: seq<Node>, x: set<Node>, n: Node)
    requires n !in us
    ensures forall k :: Pending(us, k, x + {n}) == Pending(us, k, x)
  {
  }

  lemma PendingDoomed(us: seq<Node>, us': seq<Node>, x: set<Node>, n: Node)
    requires n in x && forall a :: a in us' <==> a in us && a != n
    ensures forall k :: Pending(us', k, x) == Pending(us, k, x)
  {
  }

  lemma PendingTracked(us: seq<Node>, n: Node)
    requires n in us
    ensures forall k :: |Pending(us, k, {n})| == |Pending(us, k, {})| - if KindOf(n) == k then 1 else 0
  {
    forall k ensures |Pending(us, k, {n})| == |Pending(us, k, {})| - if KindOf(n) == k then 1 else 0 {
      assert Pending(us, k, {n}) == Pending(us, k, {}) - {n};
    }
  }

  lemma ShapeDoomed(l: Links, us: seq<Node>, n: Node)
    requires Shape(l, us, {}) && n in l.parent.Keys && n != ROOT && l.parent[n] == NULL
    ensures Shape(l, us, {n})
  {
    hide Forest, Acyclic, NoDups;
  }

  lemma NothingLeft()
    ensures forall k :: Items({ROOT}, k) == {} && Pending([], k, {}) == {}
  {
  }

  lemma Smaller<T>(a: set<T>, b: set<T>)
    requires a < b
    ensures |a| < |b|
  {
    var x :| x in b && x !in a;
    Subset(a, b - {x});
  }

  // --- What survives ---

  /** These nodes keep their lists. */
  ghost predicate Kept(l: map<Node, seq<Node>>, m: map<Node, seq<Node>>, nodes: set<Node>) {
    forall n <- nodes :: n in l.Keys && n in m.Keys && m[n] == l[n]
  }

  lemma KeptFacts(l: map<Node, seq<Node>>, m: map<Node, seq<Node>>, nodes: set<Node>)
    requires Kept(l, m, nodes)
    ensures forall n <- nodes :: n in l.Keys && n in m.Keys && m[n] == l[n]
  {
  }

  lemma KeptAll(l: map<Node, seq<Node>>, nodes: set<Node>)
    requires nodes <= l.Keys
    ensures forall some :: some <= nodes ==> Kept(l, l, some)
  {
  }

  lemma KeptMore(l: map<Node, seq<Node>>, k: map<Node, seq<Node>>, m: map<Node, seq<Node>>, some: set<Node>, fewer: set<Node>)
    requires Kept(l, k, some) && Kept(k, m, fewer) && fewer <= some
    ensures Kept(l, m, fewer)
  {
  }

  lemma KeptOn(l: map<Node, seq<Node>>, m: map<Node, seq<Node>>, k: map<Node, seq<Node>>, nodes: set<Node>, n: Node)
    requires Kept(l, m, nodes - {n}) && k == m - {n}
    ensures Kept(l, k, nodes - {n})
  {
  }

  // --- Pruning ---

  lemma PrunedNode(l: map<Node, Node>, m: map<Node, Node>, n: Node)
    requires Pruned(l, m, ChildrenOf(l, n)) && n in m.Keys
    ensures Pruned(l, m - {n}, {n})
  {
  }

  lemma PrunedNothing(l: map<Node, Node>)
    ensures Pruned(l, l, {})
  {
  }

  lemma PrunedOn(l: map<Node, Node>, k: map<Node, Node>, m: map<Node, Node>, self: Node, c: Node)
    requires Pruned(l, k, ChildrenOf(l, self) - ChildrenOf(k, self)) && Pruned(k, m, {c})
    requires c in k.Keys && k[c] == self
    ensures Pruned(l, m, ChildrenOf(l, self) - ChildrenOf(m, self))
  {
  }

  /** Cutting the node first does not matter. */
  lemma PrunedCut(l: map<Node, Node>, m: map<Node, Node>, n: Node)
    requires n in l.Keys && Pruned(Write(l, n, NULL), m, {n})
    ensures Pruned(l, m, {n})
  {
  }

  /** What goes with a node ranks no lower, so a parent outlives its child. */
  lemma {:induction false} PrunedRank(rank: map<Node, nat>, l: map<Node, Node>, m: map<Node, Node>, n: Node, c: Node)
    requires Ranks(rank, l) && Pruned(l, m, {n}) && n in l.Keys && c in l.Keys && c !in m.Keys
    ensures rank[n] <= rank[c]
    decreases rank[c]
  {
    if c != n {
      PrunedRank(rank, l, m, n, l[c]);
    }
  }

  lemma ParentOutlives(l: map<Node, Node>, m: map<Node, Node>, n: Node)
    requires Acyclic(l) && n in l.Keys && l[n] in l.Keys && Pruned(l, m, {n})
    ensures l[n] in m.Keys
  {
    var rank :| Ranks(rank, l);
    if l[n] !in m.Keys {
      PrunedRank(rank, l, m, n, l[n]);
    }
  }

  /** Exactly the nodes with the deleted node above them are gone. */
  lemma PrunedSubtree(l: map<Node, Node>, m: map<Node, Node>, n: Node, c: Node)
    requires Acyclic(l) && n in l.Keys && c in l.Keys && NULL !in l.Keys && Pruned(l, m, {n})
    requires forall a <- l.Keys :: l[a] == NULL || l[a] in l.Keys
    requires forall a <- m.Keys :: m[a] == NULL || m[a] in m.Keys
    ensures c !in m.Keys <==> Above(l, n, c)
  {
    var rank :| Ranks(rank, l);
    SubtreeGone(rank, l, m, n, c);
  }

  lemma {:induction false} SubtreeGone(rank: map<Node, nat>, l: map<Node, Node>, m: map<Node, Node>, n: Node, c: Node)
    requires Ranks(rank, l) && n in l.Keys && c in l.Keys && NULL !in l.Keys && Pruned(l, m, {n})
    requires forall a <- l.Keys :: l[a] == NULL || l[a] in l.Keys
    requires forall a <- m.Keys :: m[a] == NULL || m[a] in m.Keys
    ensures c !in m.Keys <==> Above(l, n, c)
    decreases rank[c]
  {
    if c == n {
      AboveSelf(l, n);
    } else {
      AboveStep(l, n, c);
      if l[c] == NULL {
        NothingAbove(l, n);
      } else {
        SubtreeGone(rank, l, m, n, l[c]);
      }
    }
  }

  lemma NothingAbove(l: map<Node, Node>, n: Node)
    requires NULL !in l.Keys && n != NULL
    ensures !Above(l, n, NULL)
  {
    forall k: nat ensures Climb(l, NULL, k) == NULL {
    }
  }

  lemma RootGone(l: map<Node, Node>, m: map<Node, Node>, n: Node)
    requires Pruned(l, m, {n}) && n in l.Keys
    ensures m.Keys < l.Keys
  {
  }

  lemma NothingWithout(us: seq<Node>)
    ensures Without([], 0) == []
  {
  }

  lemma LinkedPruned(l: map<Node, Node>, m: map<Node, Node>, top: set<Node>)
    requires Pruned(l, m, top)
    ensures |Linked(m)| <= |Linked(l)|
  {
    forall n | n in Linked(m) ensures n in Linked(l) {
      assert n in m.Keys && m[n] == l[n];
    }
    Subset(Linked(m), Linked(l));
  }

  lemma {:induction false} Subset<T>(a: set<T>, b: set<T>)
    requires a <= b
    ensures |a| <= |b|
  {
    if a != {} {
      var x :| x in a;
      Subset(a - {x}, b - {x});
    }
  }

  lemma LinkedCut(l: map<Node, Node>, n: Node)
    requires n in l.Keys && l[n] != NULL
    ensures |Linked(Write(l, n, NULL))| < |Linked(l)|
  {
    assert Linked(Write(l, n, NULL)) == Linked(l) - {n};
  }

  /** Cutting a child and destroying it, put together. */
  lemma ChildGone(l: Links, k: Links, parent: map<Node, Node>, kids: map<Node, seq<Node>>, self: Node, n: Node)
    requires Acyclic(l.parent) && n in l.parent.Keys && l.parent[n] == self && self in l.parent.Keys && self != NULL
    requires l.kids.Keys == l.parent.Keys && k.parent == Write(l.parent, n, NULL)
    requires k.kids == Write(l.kids, self, Without(l.kids[self], n))
    requires Pruned(k.parent, parent, {n}) && Kept(k.kids, kids, parent.Keys)
    ensures Pruned(l.parent, parent, {n}) && parent.Keys < l.parent.Keys && self in parent.Keys && self in kids.Keys
    ensures kids[self] == Without(l.kids[self], n) && Kept(l.kids, kids, parent.Keys - {self})
    ensures |Linked(parent)| < |Linked(l.parent)| && |Linked(k.parent)| < |Linked(l.parent)|
  {
    hide Without, Linked, Acyclic;
    LinkedCut(l.parent, n);
    LinkedPruned(k.parent, parent, {n});
    PrunedCut(l.parent, parent, n);
    ParentOutlives(l.parent, parent, n);
    RootGone(l.parent, parent, n);
  }

  // --- Children ---

  lemma FirstChild(l: Links, us: seq<Node>, x: set<Node>, self: Node)
    requires Shape(l, us, x) && self in l.parent.Keys
    ensures self in l.first.Keys && self in l.kids.Keys
    ensures l.first[self] != NULL ==> l.first[self] in l.parent.Keys && l.parent[l.first[self]] == self && l.first[self] != self
    ensures l.first[self] == NULL ==> l.kids[self] == [] && ChildrenOf(l.parent, self) == {}
  {
    hide Acyclic, Owns;
    ShapeFacts(l, us, x);
    SiblingsOf(l, l.parent.Keys, self);
    LastIs(l, self);
    if l.kids[self] != [] {
      KidPlaced(l, l.parent.Keys, self, 0);
      NotOwnChild(l.parent, l.first[self]);
    }
    forall n | n in l.parent.Keys && l.parent[n] == self ensures n in l.kids[self] {
      ParentOf(l, l.parent.Keys, n);
    }
  }

  lemma NotOwnChild(parent: map<Node, Node>, n: Node)
    requires Acyclic(parent) && n in parent.Keys
    ensures parent[n] != n
  {
  }

  lemma ChildKnown(l: Links, us: seq<Node>, x: set<Node>, n: Node)
    requires Shape(l, us, x) && n in l.parent.Keys
    ensures l.kids.Keys == l.parent.Keys && (l.parent[n] != NULL ==> l.parent[n] in l.parent.Keys)
  {
    hide Acyclic, Owns;
    ShapeFacts(l, us, x);
    ParentOf(l, l.parent.Keys, n);
  }

  // --- Clearing ---

  /** With no unlinked node and no child of the document there is nothing left. */
  lemma OnlyRoot(l: Links)
    requires Shape(l, [], {}) && ROOT in l.kids.Keys && l.kids[ROOT] == []
    ensures l.parent.Keys == {ROOT}
  {
    hide Forest, Owns;
    ShapeFacts(l, [], {});
    var rank :| Ranks(rank, l.parent);
    forall n <- l.parent.Keys ensures n == ROOT {
      RootOnly(rank, l, n);
    }
  }

  lemma {:induction false} RootOnly(rank: map<Node, nat>, l: Links, n: Node)
    requires Shape(l, [], {}) && ROOT in l.kids.Keys && l.kids[ROOT] == [] && Ranks(rank, l.parent) && n in l.parent.Keys
    ensures n == ROOT
    decreases rank[n]
  {
    hide Forest, Acyclic, NoDups;
    ShapeFacts(l, [], {});
    ParentOf(l, l.parent.Keys, n);
    if n != ROOT {
      RootOnly(rank, l, l.parent[n]);
      assert false;
    }
  }
}
