/** The intrusive sibling lists of XMLNode: taking a child out and putting a node in, as edits
    of the sequence of children. */
module XmlTree {
  /** A node is known by its address. */
  type Node = int

  const NULL: Node := -1

  // --- Lists ---

  function At(s: seq<Node>, i: int): Node {
    if 0 <= i < |s| then s[i] else NULL
  }

  predicate NoDups(s: seq<Node>) {
    NULL !in s && forall i, j :: 0 <= i < j < |s| ==> s[i] != s[j]
  }

  function IndexOf(s: seq<Node>, x: Node): (i: nat)
    requires x in s
    ensures i < |s| && s[i] == x && x !in s[..i]
  {
    if s[0] == x then 0 else 1 + IndexOf(s[1..], x)
  }

  function Without(s: seq<Node>, x: Node): (r: seq<Node>) {
    if x in s then s[..IndexOf(s, x)] + s[IndexOf(s, x) + 1..] else s
  }

  lemma IndexIs(s: seq<Node>, i: nat)
    requires NoDups(s) && i < |s|
    ensures s[i] in s && IndexOf(s, s[i]) == i
  {
    var k := IndexOf(s, s[i]);
    assert forall j :: 0 <= j < k ==> s[..k][j] == s[j];
  }

  lemma WithoutAt(s: seq<Node>, x: Node, j: int)
    requires NoDups(s) && x in s
    ensures |Without(s, x)| == |s| - 1
    ensures var i := IndexOf(s, x); At(Without(s, x), j) == At(s, if j < i then j else j + 1)
  {
    hide NoDups;
  }

  lemma WithoutIn(s: seq<Node>, x: Node)
    requires NoDups(s)
    ensures NoDups(Without(s, x)) && forall c :: c in Without(s, x) <==> c in s && c != x
  {
    hide IndexOf, NoDups;
    if x in s {
      var i, r := IndexOf(s, x), Without(s, x);
      assert |r| == |s| - 1 && (forall j :: 0 <= j < i ==> r[j] == s[j]) && forall j :: i <= j < |r| ==> r[j] == s[j + 1];
      DropKeeps(s, r, i);
      forall c ensures c in r <==> c in s && c != x { DropHas(s, r, i, c); }
    }
  }

  /** r is s without its i-th element. */
  predicate Dropped(s: seq<Node>, r: seq<Node>, i: nat) {
    i < |s| && |r| == |s| - 1 && (forall j :: 0 <= j < i ==> r[j] == s[j]) && forall j :: i <= j < |r| ==> r[j] == s[j + 1]
  }

  lemma DropKeeps(s: seq<Node>, r: seq<Node>, i: nat)
    requires Dropped(s, r, i) && NoDups(s)
    ensures NoDups(r)
  {
    forall j, k | 0 <= j < k < |r| ensures r[j] != r[k] {
      var j', k' := if j < i then j else j + 1, if k < i then k else k + 1;
      assert r[j] == s[j'] && r[k] == s[k'] && j' < k';
    }
    forall j | 0 <= j < |r| ensures r[j] != NULL {
      var j' := if j < i then j else j + 1;
      assert r[j] == s[j'] && s[j'] in s;
    }
  }

  lemma DropHas(s: seq<Node>, r: seq<Node>, i: nat, c: Node)
    requires Dropped(s, r, i) && NoDups(s)
    ensures c in r <==> c in s && c != s[i]
  {
    if c in r {
      var j :| 0 <= j < |r| && r[j] == c;
      var j' := if j < i then j else j + 1;
      assert s[j'] == c && j' != i;
    }
    if c in s && c != s[i] {
      var j :| 0 <= j < |s| && s[j] == c;
      assert r[if j < i then j else j - 1] == c;
    }
  }

  // --- Snapshots of the links ---

  /** A field write: one node's entry changes. */
  function Write<V>(m: map<Node, V>, k: Node, v: V): (r: map<Node, V>)
    requires k in m.Keys
    ensures r.Keys == m.Keys
    ensures forall x :: x in m.Keys ==> r[x] == if x == k then v else m[x]
  {
    m[k := v]
  }

  datatype Links = Links(
    parent: map<Node, Node>,
    first: map<Node, Node>,
    last: map<Node, Node>,
    prev: map<Node, Node>,
    next: map<Node, Node>,
    kids: map<Node, seq<Node>>)

  ghost predicate Over(l: Links, nodes: set<Node>) {
    l.parent.Keys == l.first.Keys == l.last.Keys == l.prev.Keys == l.next.Keys == l.kids.Keys == nodes && NULL !in nodes
  }

  /** The c-th child stands where the list says. */
  ghost predicate Placed(l: Links, nodes: set<Node>, n: Node, i: nat)
    requires Over(l, nodes) && n in nodes && i < |l.kids[n]|
  {
    var c := l.kids[n][i];
    c in nodes && l.parent[c] == n && l.prev[c] == At(l.kids[n], i - 1) && l.next[c] == At(l.kids[n], i + 1)
  }

  /** The links of n and of its children spell the list of n. */
  ghost predicate Siblings(l: Links, nodes: set<Node>, n: Node)
    requires Over(l, nodes) && n in nodes
  {
    var s := l.kids[n];
    && NoDups(s)
    && l.first[n] == At(s, 0) && l.last[n] == At(s, |s| - 1)
    && forall i :: 0 <= i < |s| ==> Placed(l, nodes, n, i)
  }

  ghost predicate InParent(l: Links, nodes: set<Node>, n: Node)
    requires Over(l, nodes) && n in nodes
  {
    var p := l.parent[n];
    if p == NULL then l.prev[n] == NULL && l.next[n] == NULL else p in nodes && n in l.kids[p]
  }

  /** Every list is well formed, and every child is in its parent's list. */
  ghost predicate Forest(l: Links, nodes: set<Node>) {
    && Over(l, nodes)
    && (forall n <- nodes :: Siblings(l, nodes, n))
    && (forall n <- nodes :: InParent(l, nodes, n))
  }

  lemma ChildPlaced(l: Links, nodes: set<Node>, p: Node, c: Node)
    requires Forest(l, nodes) && p in nodes && c in l.kids[p]
    ensures c in nodes && l.parent[c] == p && Placed(l, nodes, p, IndexOf(l.kids[p], c))
  {
    hide InParent, IndexOf;
    assert Siblings(l, nodes, p);
    assert Placed(l, nodes, p, IndexOf(l.kids[p], c));
  }

  // --- Taking a child out ---

  /** What the writes of Unlink do. */
  ghost predicate Cut(l: Links, m: Links, nodes: set<Node>, p: Node, c: Node)
    requires Over(l, nodes) && Over(m, nodes) && p in nodes && c in nodes
  {
    && m.parent == Write(l.parent, c, NULL)
    && (forall x <- nodes :: m.next[x] == if x == c then NULL else if x == l.prev[c] then l.next[c] else l.next[x])
    && (forall x <- nodes :: m.prev[x] == if x == c then NULL else if x == l.next[c] then l.prev[c] else l.prev[x])
    && m.kids == Write(l.kids, p, Without(l.kids[p], c))
    && m.first == (if l.first[p] == c then Write(l.first, p, l.next[c]) else l.first)
    && m.last == (if l.last[p] == c then Write(l.last, p, l.prev[c]) else l.last)
  }

  lemma CutOther(l: Links, m: Links, nodes: set<Node>, p: Node, c: Node, n: Node)
    requires Forest(l, nodes) && Over(m, nodes) && p in nodes && c in nodes && l.parent[c] == p
    requires Cut(l, m, nodes, p, c) && n in nodes && n != p
    ensures Siblings(m, nodes, n)
  {
    hide IndexOf, Without, NoDups;
    assert Siblings(l, nodes, n) && Siblings(l, nodes, p) && InParent(l, nodes, c);
    ChildPlaced(l, nodes, p, c);
    forall i | 0 <= i < |m.kids[n]| ensures Placed(m, nodes, n, i) {
      assert Placed(l, nodes, n, i);
      CutNeighbours(l, nodes, p, c);
    }
  }

  /** The neighbours of a child are other children of the same parent. */
  lemma CutNeighbours(l: Links, nodes: set<Node>, p: Node, c: Node)
    requires Forest(l, nodes) && p in nodes && c in nodes && c in l.kids[p]
    ensures var x := l.prev[c]; x != NULL ==> x in nodes && l.parent[x] == p && x != c && l.next[x] == c
    ensures var x := l.next[c]; x != NULL ==> x in nodes && l.parent[x] == p && x != c && l.prev[x] == c
    ensures l.prev[c] != NULL ==> l.prev[c] != l.next[c]
  {
    var s := l.kids[p];
    var i := IndexOf(s, c);
    ChildPlaced(l, nodes, p, c);
    assert Siblings(l, nodes, p);
    assert i > 0 ==> Placed(l, nodes, p, i - 1);
    assert i + 1 < |s| ==> Placed(l, nodes, p, i + 1);
  }

  lemma CutSelf(l: Links, m: Links, nodes: set<Node>, p: Node, c: Node)
    requires Over(l, nodes) && Forest(l, nodes) && Over(m, nodes) && p in nodes && c in l.kids[p]
    requires c in nodes && Cut(l, m, nodes, p, c)
    ensures Siblings(m, nodes, p)
  {
    hide Forest, NoDups, Without, IndexOf, Cut;
    var s := l.kids[p];
    var t, i := Without(s, c), IndexOf(s, c);
    SiblingsOf(l, nodes, p);
    CutKids(l, m, nodes, p, c, p);
    WithoutIn(s, c);
    WithoutAt(s, c, 0);
    WithoutAt(s, c, |t| - 1);
    ChildPlaced(l, nodes, p, c);
    forall j | 0 <= j < |t| ensures Placed(m, nodes, p, j) {
      WithoutAt(s, c, j - 1);
      WithoutAt(s, c, j);
      WithoutAt(s, c, j + 1);
      CutPlaced(l, m, nodes, p, c, j);
    }
    IndexEnds(s, c);
  }

  lemma SiblingsOf(l: Links, nodes: set<Node>, p: Node)
    requires Forest(l, nodes) && p in nodes
    ensures Siblings(l, nodes, p)
  {
  }

  lemma IndexEnds(s: seq<Node>, c: Node)
    requires NoDups(s) && c in s
    ensures At(s, 0) == c <==> IndexOf(s, c) == 0
    ensures At(s, |s| - 1) == c <==> IndexOf(s, c) == |s| - 1
  {
    IndexIs(s, 0);
    IndexIs(s, |s| - 1);
  }

  /** A child of p stays in place when c is cut: k is where it stood, j where it stands. */
  lemma CutPlaced(l: Links, m: Links, nodes: set<Node>, p: Node, c: Node, j: nat)
    requires Over(l, nodes) && Over(m, nodes) && p in nodes && Siblings(l, nodes, p) && c in l.kids[p]
    requires c in nodes && Cut(l, m, nodes, p, c) && Placed(l, nodes, p, IndexOf(l.kids[p], c))
    requires j < |m.kids[p]| && |m.kids[p]| == |l.kids[p]| - 1
    requires forall a :: j - 1 <= a <= j + 1 ==>
      At(m.kids[p], a) == At(l.kids[p], if a < IndexOf(l.kids[p], c) then a else a + 1)
    ensures Placed(m, nodes, p, j)
  {
    hide Without, IndexOf, NoDups, Cut, Siblings, At;
    var s := l.kids[p];
    var i: int := IndexOf(s, c);
    var k := if j < i then j else j + 1;
    KidPlaced(l, nodes, p, k);
    var x := s[k];
    AtIndex(s, k);
    AtIndex(m.kids[p], j);
    CutFields(l, m, nodes, p, c, x);
    SameAt(s, k, i);
    if j < i {
      SameAt(s, k, i - 1);
      SameAt(s, k, i + 1);
      assert At(m.kids[p], j - 1) == At(s, k - 1);
    } else {
      SameAt(s, k, i - 1);
      SameAt(s, k, i + 1);
      assert At(m.kids[p], j + 1) == At(s, k + 1);
    }
  }

  lemma AtIndex(s: seq<Node>, k: nat)
    requires k < |s|
    ensures At(s, k) == s[k]
  {
  }

  lemma KidPlaced(l: Links, nodes: set<Node>, p: Node, k: nat)
    requires Over(l, nodes) && p in nodes && Siblings(l, nodes, p) && k < |l.kids[p]|
    ensures Placed(l, nodes, p, k) && NoDups(l.kids[p])
  {
  }

  lemma CutKids(l: Links, m: Links, nodes: set<Node>, p: Node, c: Node, n: Node)
    requires Over(l, nodes) && Over(m, nodes) && p in nodes && c in nodes && n in nodes && Cut(l, m, nodes, p, c)
    ensures m.kids[n] == if n == p then Without(l.kids[p], c) else l.kids[n]
    ensures m.first[n] == if n == p && l.first[p] == c then l.next[c] else l.first[n]
    ensures m.last[n] == if n == p && l.last[p] == c then l.prev[c] else l.last[n]
  {
    hide Without;
  }

  lemma CutFields(l: Links, m: Links, nodes: set<Node>, p: Node, c: Node, x: Node)
    requires Over(l, nodes) && Over(m, nodes) && p in nodes && c in nodes && x in nodes && Cut(l, m, nodes, p, c)
    ensures m.parent[x] == if x == c then NULL else l.parent[x]
    ensures m.next[x] == if x == c then NULL else if x == l.prev[c] then l.next[c] else l.next[x]
    ensures m.prev[x] == if x == c then NULL else if x == l.next[c] then l.prev[c] else l.prev[x]
  {
  }

  lemma SameAt(s: seq<Node>, k: nat, a: int)
    requires NoDups(s) && k < |s|
    ensures s[k] == At(s, a) <==> k == a
  {
  }

  lemma CutForest(l: Links, m: Links, nodes: set<Node>, p: Node, c: Node)
    requires Forest(l, nodes) && Over(m, nodes) && p in nodes && c in nodes && l.parent[c] == p
    requires Cut(l, m, nodes, p, c)
    ensures Forest(m, nodes)
  {
    hide Siblings, Without, IndexOf, Forest, InParent;
    ParentOf(l, nodes, c);
    forall n <- nodes ensures Siblings(m, nodes, n) && InParent(m, nodes, n) {
      ParentOf(l, nodes, n);
      if n == p {
        CutSelf(l, m, nodes, p, c);
      } else {
        CutOther(l, m, nodes, p, c, n);
      }
      CutFields(l, m, nodes, p, c, n);
      CutIn(l, m, nodes, p, c, n);
    }
    ForestIntro(m, nodes);
  }

  lemma ForestIntro(m: Links, nodes: set<Node>)
    requires Over(m, nodes) && forall n <- nodes :: Siblings(m, nodes, n) && InParent(m, nodes, n)
    ensures Forest(m, nodes)
  {
  }

  lemma ParentOf(l: Links, nodes: set<Node>, n: Node)
    requires Forest(l, nodes) && n in nodes
    ensures Over(l, nodes) && InParent(l, nodes, n)
    ensures l.parent[n] != NULL ==> l.parent[n] in nodes && n in l.kids[l.parent[n]]
  {
  }

  lemma CutIn(l: Links, m: Links, nodes: set<Node>, p: Node, c: Node, n: Node)
    requires Forest(l, nodes) && Over(m, nodes) && p in nodes && c in l.kids[p] && c in nodes && n in nodes
    requires l.parent[c] == p && Cut(l, m, nodes, p, c) && InParent(l, nodes, n)
    ensures InParent(m, nodes, n)
  {
    hide Without, IndexOf;
    SiblingsOf(l, nodes, p);
    WithoutIn(l.kids[p], c);
    CutNeighbours(l, nodes, p, c);
  }

  // --- Putting a node in ---

  function Inserted(s: seq<Node>, i: nat, c: Node): seq<Node>
    requires i <= |s|
  {
    s[..i] + [c] + s[i..]
  }

  lemma InsertedAt(s: seq<Node>, i: nat, c: Node, j: int)
    requires i <= |s|
    ensures |Inserted(s, i, c)| == |s| + 1
    ensures At(Inserted(s, i, c), j) == if j == i then c else At(s, if j < i then j else j - 1)
  {
  }

  lemma InsertedIn(s: seq<Node>, i: nat, c: Node)
    requires i <= |s| && NoDups(s) && c !in s && c != NULL
    ensures NoDups(Inserted(s, i, c)) && forall x :: x in Inserted(s, i, c) <==> x in s || x == c
  {
    assert s == s[..i] + s[i..];
  }

  /** What the writes of an insertion at position i do, for a node without a parent. */
  ghost predicate Put(l: Links, m: Links, nodes: set<Node>, p: Node, c: Node, i: nat)
    requires Over(l, nodes) && Over(m, nodes) && p in nodes && c in nodes && i <= |l.kids[p]|
  {
    var s := l.kids[p];
    && m.parent == Write(l.parent, c, p)
    && (forall x <- nodes :: m.next[x] == if x == c then At(s, i) else if x == At(s, i - 1) then c else l.next[x])
    && (forall x <- nodes :: m.prev[x] == if x == c then At(s, i - 1) else if x == At(s, i) then c else l.prev[x])
    && m.kids == Write(l.kids, p, Inserted(s, i, c))
    && m.first == (if i == 0 then Write(l.first, p, c) else l.first)
    && m.last == (if i == |s| then Write(l.last, p, c) else l.last)
  }

  lemma PutFields(l: Links, m: Links, nodes: set<Node>, p: Node, c: Node, i: nat, x: Node)
    requires Over(l, nodes) && Over(m, nodes) && p in nodes && c in nodes && i <= |l.kids[p]| && x in nodes
    requires Put(l, m, nodes, p, c, i)
    ensures m.parent[x] == if x == c then p else l.parent[x]
    ensures m.next[x] == if x == c then At(l.kids[p], i) else if x == At(l.kids[p], i - 1) then c else l.next[x]
    ensures m.prev[x] == if x == c then At(l.kids[p], i - 1) else if x == At(l.kids[p], i) then c else l.prev[x]
  {
  }

  lemma PutOther(l: Links, m: Links, nodes: set<Node>, p: Node, c: Node, i: nat, n: Node)
    requires Forest(l, nodes) && Over(m, nodes) && p in nodes && c in nodes && l.parent[c] == NULL && i <= |l.kids[p]|
    requires Put(l, m, nodes, p, c, i) && n in nodes && n != p
    ensures Siblings(m, nodes, n)
  {
    hide NoDups, Put, Inserted;
    SiblingsOf(l, nodes, n);
    SiblingsOf(l, nodes, p);
    PutKids(l, m, nodes, p, c, i, n);
    forall j | 0 <= j < |m.kids[n]| ensures Placed(m, nodes, n, j) {
      KidPlaced(l, nodes, n, j);
      PutFields(l, m, nodes, p, c, i, l.kids[n][j]);
      if i > 0 { KidPlaced(l, nodes, p, i - 1); }
      if i < |l.kids[p]| { KidPlaced(l, nodes, p, i); }
    }
  }

  lemma PutKids(l: Links, m: Links, nodes: set<Node>, p: Node, c: Node, i: nat, n: Node)
    requires Over(l, nodes) && Over(m, nodes) && p in nodes && c in nodes && i <= |l.kids[p]| && n in nodes
    requires Put(l, m, nodes, p, c, i)
    ensures m.kids[n] == if n == p then Inserted(l.kids[p], i, c) else l.kids[n]
    ensures m.first[n] == if n == p && i == 0 then c else l.first[n]
    ensures m.last[n] == if n == p && i == |l.kids[p]| then c else l.last[n]
  {
  }

  lemma PutPlaced(l: Links, m: Links, nodes: set<Node>, p: Node, c: Node, i: nat, j: nat)
    requires Over(l, nodes) && Over(m, nodes) && p in nodes && c in nodes && c !in l.kids[p] && i <= |l.kids[p]|
    requires Siblings(l, nodes, p) && Put(l, m, nodes, p, c, i) && j <= |l.kids[p]| && |m.kids[p]| == |l.kids[p]| + 1
    ensures Placed(m, nodes, p, j)
  {
    hide Put, Siblings, NoDups, Inserted;
    var s := l.kids[p];
    PutKids(l, m, nodes, p, c, i, p);
    InsertedAt(s, i, c, j - 1);
    InsertedAt(s, i, c, j);
    InsertedAt(s, i, c, j + 1);
    if j == i {
      PutFields(l, m, nodes, p, c, i, c);
    } else {
      var k := if j < i then j else j - 1;
      KidPlaced(l, nodes, p, k);
      SameAt(s, k, i - 1);
      SameAt(s, k, i);
      PutFields(l, m, nodes, p, c, i, s[k]);
    }
  }

  lemma PutSelf(l: Links, m: Links, nodes: set<Node>, p: Node, c: Node, i: nat)
    requires Forest(l, nodes) && Over(m, nodes) && p in nodes && c in nodes && l.parent[c] == NULL && i <= |l.kids[p]|
    requires Put(l, m, nodes, p, c, i)
    ensures Siblings(m, nodes, p)
  {
    hide NoDups, Put, Inserted, Placed;
    var s := l.kids[p];
    SiblingsOf(l, nodes, p);
    NotKid(l, nodes, p, c);
    InsertedIn(s, i, c);
    InsertedAt(s, i, c, 0);
    InsertedAt(s, i, c, |s|);
    PutKids(l, m, nodes, p, c, i, p);
    forall j | 0 <= j < |m.kids[p]| ensures Placed(m, nodes, p, j) {
      PutPlaced(l, m, nodes, p, c, i, j);
    }
  }

  lemma NotKid(l: Links, nodes: set<Node>, p: Node, c: Node)
    requires Forest(l, nodes) && p in nodes && c in nodes && l.parent[c] == NULL
    ensures c !in l.kids[p]
  {
    if c in l.kids[p] {
      ChildPlaced(l, nodes, p, c);
    }
  }

  lemma PutForest(l: Links, m: Links, nodes: set<Node>, p: Node, c: Node, i: nat)
    requires Forest(l, nodes) && Over(m, nodes) && p in nodes && c in nodes && l.parent[c] == NULL && i <= |l.kids[p]|
    requires Put(l, m, nodes, p, c, i)
    ensures Forest(m, nodes)
  {
    hide Siblings, Put, Forest, InParent, Inserted;
    ParentOf(l, nodes, c);
    forall n <- nodes ensures Siblings(m, nodes, n) && InParent(m, nodes, n) {
      if n == p {
        PutSelf(l, m, nodes, p, c, i);
      } else {
        PutOther(l, m, nodes, p, c, i, n);
      }
      PutIn(l, m, nodes, p, c, i, n);
    }
    ForestIntro(m, nodes);
  }

  lemma PutIn(l: Links, m: Links, nodes: set<Node>, p: Node, c: Node, i: nat, n: Node)
    requires Forest(l, nodes) && Over(m, nodes) && p in nodes && c in nodes && l.parent[c] == NULL && i <= |l.kids[p]|
    requires Put(l, m, nodes, p, c, i) && n in nodes
    ensures InParent(m, nodes, n)
  {
    hide Put, Inserted, NoDups;
    ParentOf(l, nodes, n);
    SiblingsOf(l, nodes, p);
    NotKid(l, nodes, p, c);
    InsertedIn(l.kids[p], i, c);
    PutFields(l, m, nodes, p, c, i, n);
    if i > 0 { KidPlaced(l, nodes, p, i - 1); }
    if i < |l.kids[p]| { KidPlaced(l, nodes, p, i); }
    if m.parent[n] != NULL {
      PutKids(l, m, nodes, p, c, i, m.parent[n]);
    }
  }
}
