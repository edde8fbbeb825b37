/** XMLDocument as the owner of its nodes: creation, the Insert operations, deletion and
    Clear, with the list of unlinked nodes and the pools. */
module XmlDom {
  import XmlPool
  import opened XmlOwn
  import opened XmlTree

  class XMLDocument {
    const id: nat
    const elementPool: XmlPool.MemPool
    const textPool: XmlPool.MemPool
    const commentPool: XmlPool.MemPool
    /** The link fields of the nodes, by node, and the children in order. */
    var parent: map<Node, Node>
    var first: map<Node, Node>
    var last: map<Node, Node>
    var prev: map<Node, Node>
    var next: map<Node, Node>
    ghost var kids: map<Node, seq<Node>>
    var unlinked: seq<Node>

    ghost function Snap(): Links
      reads this`parent, this`first, this`last, this`prev, this`next, this`kids
    {
      Links(parent, first, last, prev, next, kids)
    }

    function Pool(kind: Kind): XmlPool.MemPool {
      match kind
      case ELEMENT => elementPool
      case TEXT => textPool
      case COMMENT => commentPool
    }

    ghost predicate Holds(p: XmlPool.MemPool, items: set<nat>, untracked: int)
      reads p
    {
      p.Valid() && p.live == items && p.nUntracked == untracked
    }

    /** Each pool hands out exactly its nodes' items and counts its unlinked nodes. */
    ghost predicate Counts(x: set<Node>)
      reads this`parent, this`unlinked, elementPool, textPool, commentPool
    {
      && elementPool != textPool && elementPool != commentPool && textPool != commentPool
      && Holds(elementPool, Items(parent.Keys, ELEMENT), |Pending(unlinked, ELEMENT, x)|)
      && Holds(textPool, Items(parent.Keys, TEXT), |Pending(unlinked, TEXT, x)|)
      && Holds(commentPool, Items(parent.Keys, COMMENT), |Pending(unlinked, COMMENT, x)|)
    }

    /** Valid, a cycle of parents aside. */
    ghost predicate Sound()
      reads this, elementPool, textPool, commentPool
    {
      Woven(Snap(), unlinked, {}) && Counts({})
    }

    ghost predicate Valid()
      reads this, elementPool, textPool, commentPool
    {
      Shape(Snap(), unlinked, {}) && Counts({})
    }

    constructor (id: nat, elementItems: nat, textItems: nat, commentItems: nat)
      requires elementItems > 0 && textItems > 0 && commentItems > 0
      ensures Valid() && this.id == id && parent.Keys == {ROOT} && kids == map[ROOT := []] && unlinked == []
      ensures fresh(elementPool) && fresh(textPool) && fresh(commentPool)
    {
      hide Shape;
      this.id := id;
      elementPool := new XmlPool.MemPool(elementItems);
      textPool := new XmlPool.MemPool(textItems);
      commentPool := new XmlPool.MemPool(commentItems);
      unlinked := [];
      parent, first, last, prev, next, kids :=
        map[ROOT := NULL], map[ROOT := NULL], map[ROOT := NULL], map[ROOT := NULL], map[ROOT := NULL], map[ROOT := []];
      new;
      RootShape();
    }

    /** XMLDocument::CreateUnlinkedNode: the node's place was not in use. */
    method CreateUnlinkedNode(kind: Kind) returns (n: Node)
      requires Valid()
      modifies this, elementPool, textPool, commentPool
      ensures Valid() && n !in old(parent.Keys) && KindOf(n) == kind
      ensures n > 0 && Snap() == Grown(old(Snap()), n) && unlinked == old(unlinked) + [n]
    {
      hide Shape, XmlPool.MemPool.Valid, Pending, Items, KindOf, ItemOf, Address, XMLDocument.Holds;
      ghost var nodes, us := parent.Keys, unlinked;
      var item := TakeItem(kind);
      n := Address(kind, item);
      NewAddress(nodes, kind, item);
      ShapeGrown(Snap(), unlinked, n);
      GrowLinks(n);
      ItemsGrown(nodes, n);
      PendingGrown(us, n);
    }

    method GrowLinks(n: Node)
      modifies this`parent, this`first, this`last, this`prev, this`next, this`kids, this`unlinked
      ensures Snap() == Grown(old(Snap()), n) && unlinked == old(unlinked) + [n] && parent.Keys == old(parent).Keys + {n}
    {
      parent, first, last, prev, next, kids :=
        parent[n := NULL], first[n := NULL], last[n := NULL], prev[n := NULL], next[n := NULL], kids[n := []];
      unlinked := unlinked + [n];
    }

    method TakeItem(kind: Kind) returns (item: nat)
      requires Counts({})
      modifies elementPool, textPool, commentPool
      ensures item !in Items(parent.Keys, kind)
      ensures Holds(elementPool, Items(parent.Keys, ELEMENT) + (if kind == ELEMENT then {item} else {}),
                    |Pending(unlinked, ELEMENT, {})| + if kind == ELEMENT then 1 else 0)
      ensures Holds(textPool, Items(parent.Keys, TEXT) + (if kind == TEXT then {item} else {}),
                    |Pending(unlinked, TEXT, {})| + if kind == TEXT then 1 else 0)
      ensures Holds(commentPool, Items(parent.Keys, COMMENT) + (if kind == COMMENT then {item} else {}),
                    |Pending(unlinked, COMMENT, {})| + if kind == COMMENT then 1 else 0)
    {
      hide XmlPool.MemPool.Valid, Pending, Items;
      item := Pool(kind).Alloc();
    }

    /** XMLDocument::MarkInUse: swap-remove of the first match. */
    method MarkInUse(node: Node)
      requires NoDups(unlinked)
      modifies this`unlinked
      ensures NoDups(unlinked) && forall n :: n in unlinked <==> n in old(unlinked) && n != node
      ensures SwapRemoves(old(unlinked), unlinked, node)
    {
      var i := 0;
      while i < |unlinked|
        invariant 0 <= i <= |unlinked| && unlinked == old(unlinked)
        invariant forall j :: 0 <= j < i ==> unlinked[j] != node
      {
        if unlinked[i] == node {
          SwapRemoved(unlinked, i);
          unlinked := unlinked[i := unlinked[|unlinked| - 1]][..|unlinked| - 1];
          break;
        }
        i := i + 1;
      }
    }

    // --- Links ---

    /** XMLNode::Unlink */
    method Unlink(self: Node, child: Node, ghost x: set<Node>)
      requires Shape(Snap(), unlinked, x) && self in parent.Keys && child in parent.Keys && parent[child] == self
      modifies this`parent, this`first, this`last, this`prev, this`next, this`kids
      ensures Shape(Snap(), unlinked, x + {child}) && child !in unlinked && parent.Keys == old(parent.Keys)
      ensures kids == Write(old(kids), self, Without(old(kids[self]), child)) && parent == Write(old(parent), child, NULL)
      ensures child !in kids[self] && Over(old(Snap()), parent.Keys) && Over(Snap(), parent.Keys)
      ensures Cut(old(Snap()), Snap(), parent.Keys, self, child)
    {
      hide Shape, Without, Write, Over, Cut;
      ghost var l := Snap();
      ChildFacts(l, unlinked, x, self, child);
      CutLinks(self, child);
      CutWritten(l, Snap(), l.parent.Keys, self, child);
      ShapeCut(l, Snap(), unlinked, x, self, child);
    }

    /** The writes of Unlink. */
    method CutLinks(self: Node, child: Node)
      requires Over(Snap(), parent.Keys) && self in parent.Keys && child in parent.Keys
      requires prev[child] != NULL ==> prev[child] in parent.Keys && prev[child] != child && prev[child] != next[child]
      requires next[child] != NULL ==> next[child] in parent.Keys && next[child] != child
      modifies this`parent, this`first, this`last, this`prev, this`next, this`kids
      ensures Over(Snap(), old(parent.Keys)) && Written(old(Snap()), Snap(), old(parent.Keys), self, child)
    {
      hide Without, Write, Over;
      ghost var l := Snap();
      SameKeys(l, parent.Keys);
      CutEnds(self, child);
      CutNeighbours(child);
      parent := Write(parent, child, NULL);
      kids := Write(kids, self, Without(kids[self], child));
      KeysBack(Snap(), l.parent.Keys);
    }

    /** The ends of the parent's list. */
    method CutEnds(self: Node, child: Node)
      requires self in first.Keys && self in last.Keys && child in next.Keys && child in prev.Keys
      modifies this`first, this`last
      ensures first == if old(first[self]) == child then Write(old(first), self, next[child]) else old(first)
      ensures last == if old(last[self]) == child then Write(old(last), self, prev[child]) else old(last)
    {
      hide Write;
      if child == first[self] {
        first := Write(first, self, next[child]);
      }
      if child == last[self] {
        last := Write(last, self, prev[child]);
      }
    }

    /** The links of the child and of its neighbours. */
    method CutNeighbours(child: Node)
      requires next.Keys == prev.Keys && child in next.Keys
      requires prev[child] != NULL ==> prev[child] in next.Keys && prev[child] != child
      requires next[child] != NULL ==> next[child] in next.Keys && next[child] != child
      modifies this`next, this`prev
      ensures next == Write(if old(prev[child]) != NULL then Write(old(next), old(prev[child]), old(next[child])) else old(next), child, NULL)
      ensures prev == Write(if old(next[child]) != NULL then Write(old(prev), old(next[child]), old(prev[child])) else old(prev), child, NULL)
    {
      hide Write;
      if prev[child] != NULL {
        next := Write(next, prev[child], next[child]);
      }
      if next[child] != NULL {
        prev := Write(prev, next[child], prev[child]);
      }
      next := Write(next, child, NULL);
      prev := Write(prev, child, NULL);
    }

    // --- Insertion ---

    /** XMLNode::InsertChildPreamble: the node leaves its parent, or the list of unlinked nodes. */
    method InsertChildPreamble(a: Node)
      requires Valid() && a in parent.Keys && a != ROOT
      modifies this, elementPool, textPool, commentPool
      ensures Shape(Snap(), unlinked, {a}) && Counts({a}) && a !in unlinked
      ensures parent == Write(old(parent), a, NULL) && kids == Detached(old(Snap()), a)
      ensures old(parent[a]) == NULL ==> Snap() == old(Snap())
      ensures old(parent[a]) != NULL ==> Cut(old(Snap()), Snap(), parent.Keys, old(parent[a]), a)
      ensures SwapRemoves(old(unlinked), unlinked, a)
    {
      hide SwapRemoves, Shape, Cut, Over, XmlPool.MemPool.Valid, Pending, Items, KindOf, Write;
      assert {} + {a} == {a};
      if parent[a] != NULL {
        ParentKnown(Snap(), unlinked, {}, a);
        Unlink(parent[a], a, {});
        NothingRemoved(unlinked, a);
        PendingSame(unlinked, a);
      } else {
        SameWrite(parent, a);
        UseNode(a);
      }
    }

    method UseNode(a: Node)
      requires Valid() && a in parent.Keys && a != ROOT && parent[a] == NULL
      modifies this`unlinked, elementPool, textPool, commentPool
      ensures Shape(Snap(), unlinked, {a}) && Counts({a}) && a !in unlinked && SwapRemoves(old(unlinked), unlinked, a)
    {
      hide SwapRemoves, Shape, XmlPool.MemPool.Valid, Pending, Items, KindOf;
      ghost var us := unlinked;
      ShapeFacts(Snap(), unlinked, {});
      MarkInUse(a);
      ShapeUsed(Snap(), us, unlinked, {}, a);
      assert {} + {a} == {a};
      WasPending(Snap(), us, a);
      PendingLess(us, unlinked, a);
      Pool(KindOf(a)).SetTracked();
    }

    /** XMLNode::InsertEndChild; owner is the document that addThis belongs to. */
    method InsertEndChild(self: Node, addThis: Node, owner: nat) returns (r: Node)
      requires Valid() && self in parent.Keys
      requires owner == id ==> addThis in parent.Keys && addThis != ROOT
      modifies this, elementPool, textPool, commentPool
      ensures if owner == id && old(Above(parent, addThis, self)) then Sound() && !Acyclic(parent) else Valid()
      ensures owner != id ==> r == NULL && Snap() == old(Snap()) && unlinked == old(unlinked)
      ensures owner == id ==> SwapRemoves(old(unlinked), unlinked, addThis)
      ensures owner == id ==> r == addThis && parent == Adopted(old(parent), addThis, self)
      ensures owner == id ==> kids == Placing(old(Snap()), addThis, self, |Remaining(old(Snap()), addThis, self)|)
    {
      hide SwapRemoves, Shape, Woven, Over, Put, Cut, XmlPool.MemPool.Valid, Pending, Items, Write, Inserted, Acyclic, Above;
      if owner != id {
        return NULL;
      }
      ghost var l0 := Snap();
      ShapeFacts(l0, unlinked, {});
      Starting(l0, unlinked, addThis);
      InsertChildPreamble(addThis);
      ghost var l := Snap();
      Reached(l, unlinked, self, addThis);
      LinkLast(self, addThis);
      EndPut(l, Snap(), self, addThis);
      Landed(l0, l, Snap(), unlinked, self, addThis, |l.kids[self]|);
      CountsBack(addThis);
      return addThis;
    }

    method LinkLast(self: Node, a: Node)
      requires Over(Snap(), parent.Keys) && self in parent.Keys && a in parent.Keys
      requires last[self] != NULL ==> last[self] in parent.Keys && last[self] != a
      modifies this`parent, this`first, this`last, this`prev, this`next, this`kids
      ensures LinkedLast(old(Snap()), Snap(), self, a)
    {
      hide Write, Over;
      SameKeys(Snap(), parent.Keys);
      EndLinks(self, a);
      parent := Write(parent, a, self);
      kids := Write(kids, self, kids[self] + [a]);
    }

    /** The chain of siblings gets a at its end. */
    method EndLinks(self: Node, a: Node)
      requires self in last.Keys && self in first.Keys && a in prev.Keys && a in next.Keys
      requires last[self] != NULL ==> last[self] in next.Keys
      modifies this`first, this`last, this`prev, this`next
      ensures last == Write(old(last), self, a) && prev == Write(old(prev), a, old(last)[self])
      ensures first == if old(last)[self] == NULL then Write(old(first), self, a) else old(first)
      ensures next == Write(if old(last)[self] == NULL then old(next) else Write(old(next), old(last)[self], a), a, NULL)
    {
      hide Write;
      if last[self] != NULL {
        next := Write(next, last[self], a);
        prev := Write(prev, a, last[self]);
        last := Write(last, self, a);
        next := Write(next, a, NULL);
      } else {
        last := Write(last, self, a);
        first := Write(first, self, a);
        prev := Write(prev, a, NULL);
        next := Write(next, a, NULL);
      }
    }

    /** The chain of siblings gets a at its beginning. */
    method FrontLinks(self: Node, a: Node)
      requires self in last.Keys && self in first.Keys && a in prev.Keys && a in next.Keys
      requires first[self] != NULL ==> first[self] in prev.Keys
      modifies this`first, this`last, this`prev, this`next
      ensures first == Write(old(first), self, a) && next == Write(old(next), a, old(first)[self])
      ensures last == if old(first)[self] == NULL then Write(old(last), self, a) else old(last)
      ensures prev == Write(if old(first)[self] == NULL then old(prev) else Write(old(prev), old(first)[self], a), a, NULL)
    {
      hide Write;
      if first[self] != NULL {
        prev := Write(prev, first[self], a);
        next := Write(next, a, first[self]);
        first := Write(first, self, a);
        prev := Write(prev, a, NULL);
      } else {
        last := Write(last, self, a);
        first := Write(first, self, a);
        prev := Write(prev, a, NULL);
        next := Write(next, a, NULL);
      }
    }

    /** XMLNode::InsertFirstChild */
    method InsertFirstChild(self: Node, addThis: Node, owner: nat) returns (r: Node)
      requires Valid() && self in parent.Keys
      requires owner == id ==> addThis in parent.Keys && addThis != ROOT
      modifies this, elementPool, textPool, commentPool
      ensures if owner == id && old(Above(parent, addThis, self)) then Sound() && !Acyclic(parent) else Valid()
      ensures owner != id ==> r == NULL && Snap() == old(Snap()) && unlinked == old(unlinked)
      ensures owner == id ==> SwapRemoves(old(unlinked), unlinked, addThis)
      ensures owner == id ==> r == addThis && parent == Adopted(old(parent), addThis, self)
      ensures owner == id ==> kids == Placing(old(Snap()), addThis, self, 0)
    {
      hide SwapRemoves, Shape, Woven, Over, Put, Cut, XmlPool.MemPool.Valid, Pending, Items, Write, Inserted, Acyclic, Above;
      if owner != id {
        return NULL;
      }
      ghost var l0 := Snap();
      ShapeFacts(l0, unlinked, {});
      Starting(l0, unlinked, addThis);
      InsertChildPreamble(addThis);
      ghost var l := Snap();
      Reached(l, unlinked, self, addThis);
      LinkFirst(self, addThis);
      FirstPut(l, Snap(), self, addThis);
      Landed(l0, l, Snap(), unlinked, self, addThis, 0);
      CountsBack(addThis);
      return addThis;
    }

    method LinkFirst(self: Node, a: Node)
      requires Over(Snap(), parent.Keys) && self in parent.Keys && a in parent.Keys
      requires first[self] != NULL ==> first[self] in parent.Keys && first[self] != a
      modifies this`parent, this`first, this`last, this`prev, this`next, this`kids
      ensures LinkedFirst(old(Snap()), Snap(), self, a)
    {
      hide Write, Over;
      SameKeys(Snap(), parent.Keys);
      FrontLinks(self, a);
      parent := Write(parent, a, self);
      kids := Write(kids, self, [a] + kids[self]);
    }

    /** XMLNode::InsertAfterChild.  `crashed` reports the read through a null link that the
        source makes when addThis is the last child, right after afterThis. */
    method InsertAfterChild(self: Node, afterThis: Node, addThis: Node, owner: nat) returns (r: Node, crashed: bool)
      requires Valid() && self in parent.Keys
      requires owner == id ==> addThis in parent.Keys && addThis != ROOT
      requires afterThis in parent.Keys
      modifies this, elementPool, textPool, commentPool
      ensures owner == id && old(parent[afterThis]) == self ==>
        (crashed <==> addThis != afterThis && old(next[afterThis]) == addThis && old(next[addThis]) == NULL)
      ensures !crashed ==>
        if owner == id && old(parent[afterThis]) == self && addThis != afterThis && old(Above(parent, addThis, self))
        then Sound() && !Acyclic(parent) else Valid()
      ensures owner != id || old(parent[afterThis]) != self || addThis == afterThis ==>
        !crashed && Snap() == old(Snap()) && unlinked == old(unlinked)
        && r == if owner != id || old(parent[afterThis]) != self then NULL else addThis
      ensures owner == id && old(parent[afterThis]) == self && addThis != afterThis && !crashed ==>
        && SwapRemoves(old(unlinked), unlinked, addThis)
        && r == addThis && parent == Adopted(old(parent), addThis, self)
        && afterThis in Remaining(old(Snap()), addThis, self)
        && kids == Placing(old(Snap()), addThis, self, IndexOf(Remaining(old(Snap()), addThis, self), afterThis) + 1)
    {
      hide SwapRemoves, Shape, Woven, Over, Put, Cut, XmlPool.MemPool.Valid, Pending, Items, Write, Inserted, IndexOf, Acyclic, Above;
      ghost var l0 := Snap();
      ShapeFacts(l0, unlinked, {});
      SameKeys(l0, parent.Keys);
      crashed := false;
      if owner != id || parent[afterThis] != self {
        return NULL, false;
      }
      if afterThis == addThis {
        return addThis, false;
      }
      Starting(l0, unlinked, addThis);
      AfterLast(l0, unlinked, self, afterThis, addThis);
      if next[afterThis] == NULL {
        r := InsertEndChild(self, addThis, owner);
        return;
      }
      crashed := InsertBehind(self, afterThis, addThis);
      return if crashed then NULL else addThis, crashed;
    }

    /** The end of InsertAfterChild, where afterThis has a next sibling at first. */
    method InsertBehind(self: Node, afterThis: Node, addThis: Node) returns (crashed: bool)
      requires Valid() && self in parent.Keys && addThis in parent.Keys && addThis != ROOT && afterThis in parent.Keys
      requires Forest(Snap(), parent.Keys) && parent[afterThis] == self && afterThis != addThis && next[afterThis] != NULL
      requires kids.Keys == parent.Keys && (parent[addThis] != NULL ==> parent[addThis] in kids.Keys)
      requires afterThis in Remaining(Snap(), addThis, self)
      modifies this, elementPool, textPool, commentPool
      ensures crashed <==> old(next[afterThis]) == addThis && old(next[addThis]) == NULL
      ensures !crashed ==> SwapRemoves(old(unlinked), unlinked, addThis)
      ensures !crashed ==> parent == Adopted(old(parent), addThis, self)
      ensures !crashed ==> if old(Above(parent, addThis, self)) then Sound() && !Acyclic(parent) else Valid()
      ensures !crashed ==>
        kids == Placing(old(Snap()), addThis, self, IndexOf(Remaining(old(Snap()), addThis, self), afterThis) + 1)
    {
      hide SwapRemoves, Shape, Woven, Over, Put, Cut, XmlPool.MemPool.Valid, Pending, Items, Write, Inserted, IndexOf, Siblings, InParent, Acyclic, Above;
      ghost var l0 := Snap();
      ShapeFacts(l0, unlinked, {});
      InsertChildPreamble(addThis);
      ghost var l := Snap();
      Reached(l, unlinked, self, addThis);
      StillAfter(l0, l, unlinked, self, afterThis, addThis);
      if next[afterThis] == NULL {
        return true;
      }
      LinkAfter(self, afterThis, addThis);
      AfterPut(l, Snap(), self, afterThis, addThis);
      Landed(l0, l, Snap(), unlinked, self, addThis, IndexOf(l.kids[self], afterThis) + 1);
      CountsBack(addThis);
      return false;
    }

    method LinkAfter(self: Node, after: Node, a: Node)
      requires Over(Snap(), parent.Keys) && self in parent.Keys && a in parent.Keys && after in parent.Keys && after != a
      requires next[after] in parent.Keys && next[after] != a && after in kids[self]
      modifies this`parent, this`prev, this`next, this`kids
      ensures LinkedAfter(old(Snap()), Snap(), self, after, a)
    {
      hide Write, Over, Inserted, IndexOf;
      SameKeys(Snap(), parent.Keys);
      MiddleLinks(after, a);
      parent := Write(parent, a, self);
      kids := Write(kids, self, Inserted(kids[self], IndexOf(kids[self], after) + 1, a));
    }

    /** The chain of siblings gets a behind 'after', which is not the last one. */
    method MiddleLinks(after: Node, a: Node)
      requires after in next.Keys && a in prev.Keys && a in next.Keys && next[after] in prev.Keys && after != a
      modifies this`prev, this`next
      ensures next == Write(Write(old(next), a, old(next)[after]), after, a)
      ensures prev == Write(Write(old(prev), a, after), old(next)[after], a)
    {
      hide Write;
      prev := Write(prev, a, after);
      next := Write(next, a, next[after]);
      prev := Write(prev, next[after], a);
      next := Write(next, after, a);
    }

    lemma CountsBack(a: Node)
      requires Counts({a}) && a !in unlinked
      ensures Counts({})
    {
      hide XmlPool.MemPool.Valid, Pending, Items;
      PendingSame(unlinked, a);
    }

    // --- Deletion ---

    /** The static XMLNode::DeleteNode and the destructor: the node, which has no parent any more,
        goes with everything below it.  x are the nodes further up that are being deleted. */
    method DestroyNode(node: Node, ghost x: set<Node>)
      requires Shape(Snap(), unlinked, x + {node}) && Counts(x + {node}) && node !in x
      modifies this, elementPool, textPool, commentPool
      ensures Shape(Snap(), unlinked, x) && Counts(x) && SwapRemoves(old(unlinked), unlinked, node)
      ensures Pruned(old(parent), parent, {node}) && Kept(old(kids), kids, parent.Keys)
      decreases |Linked(parent)|, 2
    {
      hide SwapRemoves, Shape, Counts, Pruned, Kept;
      ghost var l := Snap();
      TakeOff(node, x + {node});
      DeleteChildren(node, x + {node});
      PrunedNode(l.parent, parent, node);
      KeptOn(l.kids, kids, kids - {node}, parent.Keys, node);
      FreeNode(node, x);
    }

    method TakeOff(node: Node, ghost x: set<Node>)
      requires Shape(Snap(), unlinked, x) && Counts(x) && node in x
      modifies this`unlinked
      ensures Shape(Snap(), unlinked, x) && Counts(x) && node !in unlinked && SwapRemoves(old(unlinked), unlinked, node)
      ensures node in parent.Keys
    {
      hide SwapRemoves, Shape, Items, Pending, XmlPool.MemPool.Valid;
      ghost var us := unlinked;
      ShapeFacts(Snap(), us, x);
      OnTheWay(Snap(), us, x, node);
      MarkInUse(node);
      ShapeUsed(Snap(), us, unlinked, x, node);
      assert x + {node} == x;
      PendingDoomed(us, unlinked, x, node);
    }

    /** The destructor's end: the item goes back to its pool. */
    method FreeNode(node: Node, ghost x: set<Node>)
      requires Shape(Snap(), unlinked, x + {node}) && Counts(x + {node}) && node !in x && node !in unlinked
      requires node in parent.Keys && node in kids.Keys && kids[node] == []
      modifies this`parent, this`first, this`last, this`prev, this`next, this`kids, elementPool, textPool, commentPool
      ensures Shape(Snap(), unlinked, x) && Counts(x) && parent == old(parent) - {node} && kids == old(kids) - {node}
    {
      hide Shape, Items, Pending, XmlPool.MemPool.Valid, KindOf, ItemOf, Over;
      ghost var l := Snap();
      ShapeFacts(l, unlinked, x + {node});
      OnTheWay(l, unlinked, x + {node}, node);
      ShapeFreed(l, unlinked, x, node);
      ItemsFreed(parent.Keys, node);
      PendingFreed(unlinked, x, node);
      Pool(KindOf(node)).Free(ItemOf(node));
      DropLinks(node);
    }

    method DropLinks(node: Node)
      modifies this`parent, this`first, this`last, this`prev, this`next, this`kids
      ensures parent == old(parent) - {node} && kids == old(kids) - {node}
      ensures Snap() == Links(old(parent) - {node}, old(first) - {node}, old(last) - {node}, old(prev) - {node}, old(next) - {node}, old(kids) - {node})
    {
      parent, first, last, prev, next, kids :=
        parent - {node}, first - {node}, last - {node}, prev - {node}, next - {node}, kids - {node};
    }

    /** XMLNode::DeleteChildren */
    method DeleteChildren(self: Node, ghost x: set<Node>)
      requires Shape(Snap(), unlinked, x) && Counts(x) && self in parent.Keys
      modifies this, elementPool, textPool, commentPool
      ensures Shape(Snap(), unlinked, x) && Counts(x) && unlinked == old(unlinked)
      ensures self in parent.Keys && self in kids.Keys && kids[self] == []
      ensures Pruned(old(parent), parent, ChildrenOf(old(parent), self))
      ensures Kept(old(kids), kids, parent.Keys - {self})
      decreases |Linked(parent)|, 1
    {
      hide Shape, Counts, Pruned, Kept;
      ghost var l := Snap();
      FirstChild(l, unlinked, x, self);
      ChildKnown(l, unlinked, x, self);
      PrunedNothing(parent);
      KeptAll(kids, parent.Keys);
      assert ChildrenOf(l.parent, self) - ChildrenOf(l.parent, self) == {};
      LinkedPruned(parent, parent, {});
      while first[self] != NULL
        invariant self in parent.Keys && self in first.Keys && Shape(Snap(), unlinked, x) && Counts(x)
        invariant unlinked == old(unlinked)
        invariant Pruned(l.parent, parent, ChildrenOf(l.parent, self) - ChildrenOf(parent, self))
        invariant Kept(l.kids, kids, parent.Keys - {self})
        invariant |Linked(parent)| <= |Linked(l.parent)|
        decreases |Linked(parent)|
      {
        ghost var l1, c := Snap(), first[self];
        FirstChild(l1, unlinked, x, self);
        DeleteChild(self, first[self], x);
        PrunedOn(l.parent, l1.parent, parent, self, c);
        KeptMore(l.kids, l1.kids, kids, l1.parent.Keys - {self}, parent.Keys - {self});
        FirstChild(Snap(), unlinked, x, self);
      }
      FirstChild(Snap(), unlinked, x, self);
      assert ChildrenOf(l.parent, self) - ChildrenOf(parent, self) == ChildrenOf(l.parent, self);
    }

    /** XMLNode::DeleteChild */
    method DeleteChild(self: Node, node: Node, ghost x: set<Node>)
      requires Shape(Snap(), unlinked, x) && Counts(x) && self in parent.Keys && node in parent.Keys && parent[node] == self
      modifies this, elementPool, textPool, commentPool
      ensures Shape(Snap(), unlinked, x) && Counts(x) && unlinked == old(unlinked)
      ensures Pruned(old(parent), parent, {node}) && parent.Keys < old(parent.Keys)
      ensures self in parent.Keys && self in kids.Keys && self in old(kids).Keys
      ensures kids[self] == Without(old(kids)[self], node) && Kept(old(kids), kids, parent.Keys - {self})
      ensures |Linked(parent)| < |Linked(old(parent))|
      decreases |Linked(parent)|, 0
    {
      hide Shape, Counts, Pruned, Kept, Without, Write, Cut, Over, Acyclic, Linked;
      ghost var l := Snap();
      ShapeFacts(l, unlinked, x);
      ChildKnown(l, unlinked, x, node);
      NotOnTheWay(l, unlinked, x, node);
      UnlinkChild(self, node, x);
      ghost var l1 := Snap();
      LinkedCut(l.parent, node);
      DestroyNode(node, x);
      ChildGone(l, l1, parent, kids, self, node);
    }

    method UnlinkChild(self: Node, node: Node, ghost x: set<Node>)
      requires Shape(Snap(), unlinked, x) && Counts(x) && self in parent.Keys && node in parent.Keys && parent[node] == self
      modifies this`parent, this`first, this`last, this`prev, this`next, this`kids
      ensures node !in unlinked
      ensures Shape(Snap(), unlinked, x + {node}) && Counts(x + {node}) && parent.Keys == old(parent.Keys)
      ensures self in old(kids).Keys && kids == Write(old(kids), self, Without(old(kids)[self], node))
      ensures parent == Write(old(parent), node, NULL)
    {
      hide Shape, XmlPool.MemPool.Valid, Pending, Items, Without, Write, Cut, Over;
      ChildKnown(Snap(), unlinked, x, node);
      Unlink(self, node, x);
      PendingFreed(unlinked, x, node);
    }

    /** XMLDocument::DeleteNode */
    method DeleteNode(node: Node)
      requires Valid() && node in parent.Keys && node != ROOT
      modifies this, elementPool, textPool, commentPool
      ensures Valid() && Pruned(old(parent), parent, {node}) && parent.Keys < old(parent.Keys)
      ensures SwapRemoves(old(unlinked), unlinked, node)
      ensures forall n <- parent.Keys :: n in kids.Keys && n in old(kids).Keys
      ensures forall n <- parent.Keys :: kids[n] == if n == old(parent[node]) then Without(old(kids)[n], node) else old(kids)[n]
    {
      hide Shape, Counts, Pruned, Kept, Without;
      ghost var l := Snap();
      ChildKnown(l, unlinked, {}, node);
      ShapeFacts(l, unlinked, {});
      if parent[node] != NULL {
        DeleteChild(parent[node], node, {});
        KeptFacts(l.kids, kids, parent.Keys - {l.parent[node]});
      } else {
        Track(node);
        assert {} + {node} == {node};
        DestroyNode(node, {});
        KeptFacts(l.kids, kids, parent.Keys);
        RootGone(l.parent, parent, node);
      }
    }

    /** An unlinked node that is about to go is no longer counted. */
    method Track(node: Node)
      requires Valid() && node in parent.Keys && node != ROOT && parent[node] == NULL
      modifies elementPool, textPool, commentPool
      ensures Shape(Snap(), unlinked, {node}) && Counts({node})
    {
      hide Shape, Items, Pending, XmlPool.MemPool.Valid, KindOf;
      WasPending(Snap(), unlinked, node);
      ShapeDoomed(Snap(), unlinked, node);
      PendingTracked(unlinked, node);
      Pool(KindOf(node)).SetTracked();
    }

    /** XMLDocument::Clear: the tree goes, then the unlinked nodes, and the pools are empty. */
    method Clear()
      requires Valid()
      modifies this, elementPool, textPool, commentPool
      ensures Valid() && parent.Keys == {ROOT} && unlinked == []
      ensures elementPool.currentAllocs == textPool.currentAllocs == commentPool.currentAllocs == 0
      ensures elementPool.nUntracked == textPool.nUntracked == commentPool.nUntracked == 0
    {
      hide Shape, Pruned, Kept, Without, Items, Pending;
      ShapeFacts(Snap(), unlinked, {});
      DeleteChildren(ROOT, {});
      while |unlinked| > 0
        invariant Valid() && ROOT in kids.Keys && kids[ROOT] == []
        decreases |parent.Keys|
      {
        ghost var before := parent.Keys;
        ShapeFacts(Snap(), unlinked, {});
        DeleteNode(unlinked[0]);
        ShapeFacts(Snap(), unlinked, {});
        Smaller(parent.Keys, before);
        NothingWithout(unlinked);
      }
      OnlyRoot(Snap());
      NothingLeft();
    }
  }
}
