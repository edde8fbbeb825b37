/** Open and closed upvalues (lfunc.c), and what the reallocation of a stack does to them (ldo.c):
    they behave as if every local variable lived in a box of its own. */
module LuaUpvals {

  type Ref = nat
  type Value = int

  const NIL: Value := 0

  /** 'v' of an upvalue: the address of a stack slot, or of its own value. */
  datatype Where = Slot(addr: int) | Own

  datatype UpVal = UpVal(v: Where, value: Value, refcount: nat)

  datatype CallInfo = LuaCall(func: int, top: int, base: int) | CCall(func: int, top: int)

  /** The stack of a thread, its open upvalues in list order, and all upvalues. */
  datatype Vm = Vm(stack: int, slots: seq<Value>, openupval: seq<Ref>, upvals: map<Ref, UpVal>, names: Ref)

  // ----- The simple form: variables in boxes -----

  /** The variable that slot 'slot' has stood for since 'born'. */
  datatype Box = Box(slot: nat, born: nat)

  /** What the boxes hold, as far as they were assigned, and which box an upvalue refers to. */
  datatype Boxes = Boxes(born: seq<nat>, clock: nat, store: map<Box, Value>, up: map<Ref, Box>)

  function BoxAt(b: Boxes, i: nat): Box
    requires i < |b.born|
  {
    Box(i, b.born[i])
  }

  /** A closure takes hold of the variable in slot i. */
  function Capture(b: Boxes, i: nat, u: Ref): Boxes
    requires i < |b.born|
  {
    b.(up := b.up[u := BoxAt(b, i)])
  }

  function Assign(b: Boxes, x: Box, v: Value): Boxes {
    b.(store := b.store[x := v])
  }

  function Times(n: nat, t: nat): (l: seq<nat>)
    ensures |l| == n && forall i :: 0 <= i < n ==> l[i] == t
  {
    if n == 0 then [] else Times(n - 1, t) + [t]
  }

  /** The variables of the slots from k on go out of scope; upvalues of 'freed' disappear. */
  function Leave(b: Boxes, k: nat, freed: set<Ref>): Boxes
    requires k <= |b.born|
  {
    Boxes(b.born[..k] + Times(|b.born| - k, b.clock + 1), b.clock + 1, b.store, b.up - freed)
  }

  /** The stack has n slots now. */
  function Resize(b: Boxes, n: nat): Boxes {
    if n <= |b.born| then b.(born := b.born[..n])
    else Boxes(b.born + Times(n - |b.born|, b.clock + 1), b.clock + 1, b.store, b.up)
  }

  // ----- The list of open upvalues -----

  predicate IsOpen(us: map<Ref, UpVal>, u: Ref) {
    u in us && us[u].v.Slot?
  }

  function Addr(us: map<Ref, UpVal>, u: Ref): int {
    if IsOpen(us, u) then us[u].v.addr else 0
  }

  /** The list holds exactly the open upvalues, from the highest slot to the lowest. */
  ghost predicate Ordered(us: map<Ref, UpVal>, l: seq<Ref>) {
    && (forall i :: 0 <= i < |l| ==> IsOpen(us, l[i]))
    && (forall i, j :: 0 <= i < j < |l| ==> Addr(us, l[i]) > Addr(us, l[j]))
    && (forall u :: IsOpen(us, u) ==> u in l)
  }

  /** A slot has at most one upvalue. */
  lemma OnePerSlot(us: map<Ref, UpVal>, l: seq<Ref>, u: Ref, w: Ref)
    requires Ordered(us, l) && IsOpen(us, u) && IsOpen(us, w) && us[u].v == us[w].v
    ensures u == w
  {
    var i :| 0 <= i < |l| && l[i] == u;
    var j :| 0 <= j < |l| && l[j] == w;
    assert Addr(us, l[i]) == Addr(us, l[j]);
  }

  function Opened(us: map<Ref, UpVal>, u: Ref, level: int): map<Ref, UpVal> {
    us[u := UpVal(Slot(level), NIL, 0)]
  }

  function Insert(l: seq<Ref>, i: nat, u: Ref): (r: seq<Ref>)
    requires i <= |l|
    ensures |r| == |l| + 1 && forall j :: 0 <= j < |r| ==> r[j] == if j < i then l[j] else if j == i then u else l[j - 1]
  {
    l[..i] + [u] + l[i..]
  }

  lemma Inserted(us: map<Ref, UpVal>, l: seq<Ref>, i: nat, u: Ref, level: int)
    requires Ordered(us, l) && u !in us && i <= |l|
    requires forall j :: 0 <= j < i ==> Addr(us, l[j]) > level
    requires i < |l| ==> Addr(us, l[i]) < level
    ensures Ordered(Opened(us, u, level), Insert(l, i, u))
  {
    var us', l' := Opened(us, u, level), Insert(l, i, u);
    Same(us, l, u, level);
    forall j | i <= j < |l| ensures Addr(us, l[j]) < level {
      if j > i { assert Addr(us, l[i]) > Addr(us, l[j]); }
    }
    forall j, k | 0 <= j < k < |l'| ensures Addr(us', l'[j]) > Addr(us', l'[k]) {
      if j < i && k > i { assert Addr(us, l[j]) > Addr(us, l[k - 1]); }
      if i < j { assert Addr(us, l[j - 1]) > Addr(us, l[k - 1]); }
    }
    forall w | IsOpen(us', w) ensures w in l' {
      if w == u {
        assert l'[i] == u;
      } else {
        InsertHas(l, i, u, w);
      }
    }
  }

  lemma InsertHas(l: seq<Ref>, i: nat, u: Ref, w: Ref)
    requires i <= |l| && w in l
    ensures w in Insert(l, i, u)
  {
    var j :| 0 <= j < |l| && l[j] == w;
    assert Insert(l, i, u)[if j < i then j else j + 1] == w;
  }

  lemma Same(us: map<Ref, UpVal>, l: seq<Ref>, u: Ref, level: int)
    requires Ordered(us, l) && u !in us
    ensures var us' := Opened(us, u, level);
            && Addr(us', u) == level && IsOpen(us', u)
            && (forall j :: 0 <= j < |l| ==> IsOpen(us', l[j]) && Addr(us', l[j]) == Addr(us, l[j]))
            && forall w :: IsOpen(us', w) ==> w == u || w in l
  {
  }

  // ----- The relation -----

  ghost predicate InStack(v: Vm) {
    forall u :: IsOpen(v.upvals, u) ==> v.stack <= v.upvals[u].v.addr < v.stack + |v.slots|
  }

  ghost predicate Good(v: Vm) {
    Ordered(v.upvals, v.openupval) && InStack(v)
    && (forall u :: u in v.upvals ==> u < v.names && (v.upvals[u].v.Own? ==> v.upvals[u].refcount > 0))
  }

  /** Slots and upvalues hold what the boxes hold. An open upvalue refers to the variable of its
      slot; a closed one has a box to itself. */
  ghost predicate Refines(v: Vm, b: Boxes) {
    && |b.born| == |v.slots| && (forall i :: 0 <= i < |b.born| ==> b.born[i] <= b.clock)
    && (forall x :: x in b.store ==> x.born <= b.clock)
    && (forall i :: 0 <= i < |b.born| && BoxAt(b, i) in b.store ==> b.store[BoxAt(b, i)] == v.slots[i])
    && b.up.Keys == v.upvals.Keys
    && (forall u :: u in v.upvals ==> Refers(v, b, u))
    && (forall u, w :: u in v.upvals && w in v.upvals && u != w ==> b.up[u] != b.up[w])
  }

  ghost predicate Refers(v: Vm, b: Boxes, u: Ref)
    requires u in v.upvals && u in b.up
  {
    if v.upvals[u].v.Slot? then
      var i := v.upvals[u].v.addr - v.stack;
      0 <= i < |b.born| && b.up[u] == BoxAt(b, i)
    else
      && b.up[u].born <= b.clock && (b.up[u].slot < |b.born| ==> b.up[u].born != b.born[b.up[u].slot])
      && (b.up[u] in b.store ==> b.store[b.up[u]] == v.upvals[u].value)
  }

  /** What a closure reads through upvalue u. */
  function Read(v: Vm, u: Ref): Value
    requires u in v.upvals
  {
    match v.upvals[u].v
    case Own => v.upvals[u].value
    case Slot(a) => if v.stack <= a < v.stack + |v.slots| then v.slots[a - v.stack] else NIL
  }

  /** Reading through an upvalue is reading its box; so two closures that share a box see each
      other's assignments, before and after the scope of the variable ends. */
  lemma ReadsBox(v: Vm, b: Boxes, u: Ref)
    requires Good(v) && Refines(v, b) && u in v.upvals && b.up[u] in b.store
    ensures Read(v, u) == b.store[b.up[u]]
  {
    assert Refers(v, b, u);
  }

  /** The value of a variable in its slot. */
  lemma SlotBox(v: Vm, b: Boxes, i: nat)
    requires Refines(v, b) && i < |v.slots| && BoxAt(b, i) in b.store
    ensures v.slots[i] == b.store[BoxAt(b, i)]
  {
  }

  lemma CapturedOld(v: Vm, b: Boxes, u: Ref)
    requires Refines(v, b) && IsOpen(v.upvals, u)
    ensures var i := v.upvals[u].v.addr - v.stack; 0 <= i < |b.born| && Capture(b, i, u) == b
  {
    assert Refers(v, b, u);
    assert b.up[u := b.up[u]] == b.up;
  }

  lemma CapturedNew(v: Vm, b: Boxes, d: Vm, u: Ref, level: int)
    requires Good(v) && Refines(v, b) && u !in v.upvals && v.stack <= level < v.stack + |v.slots|
    requires d == v.(upvals := Opened(v.upvals, u, level), openupval := d.openupval, names := d.names)
    requires forall w :: IsOpen(v.upvals, w) ==> v.upvals[w].v != Slot(level)
    ensures 0 <= level - v.stack < |b.born| && Refines(d, Capture(b, level - v.stack, u))
  {
    hide Refers, Good;
    var c := Capture(b, level - v.stack, u);
    forall w | w in d.upvals ensures Refers(d, c, w) {
      if w != u { StillRefers(v, b, d, c, w); } else { NewRefers(d, c, u, level); }
    }
    forall w | w in v.upvals ensures b.up[w] != c.up[u] {
      OtherBox(v, b, w, level);
    }
  }

  lemma StillRefers(v: Vm, b: Boxes, d: Vm, c: Boxes, w: Ref)
    requires w in v.upvals && w in b.up && Refers(v, b, w) && w in d.upvals && w in c.up
    requires d.upvals[w] == v.upvals[w] && c.up[w] == b.up[w] && d.stack == v.stack
    requires c.born == b.born && c.clock == b.clock && c.store == b.store
    ensures Refers(d, c, w)
  {
  }

  lemma NewRefers(d: Vm, c: Boxes, u: Ref, level: int)
    requires u in d.upvals && d.upvals[u].v == Slot(level) && d.stack <= level < d.stack + |c.born|
    requires u in c.up && c.up[u] == BoxAt(c, level - d.stack)
    ensures Refers(d, c, u)
  {
  }

  /** Nobody refers yet to the variable of a slot without an upvalue. */
  lemma OtherBox(v: Vm, b: Boxes, w: Ref, level: int)
    requires w in v.upvals && w in b.up && Refers(v, b, w) && v.stack <= level < v.stack + |b.born|
    requires v.upvals[w].v != Slot(level)
    ensures b.up[w] != BoxAt(b, level - v.stack)
  {
  }

  lemma Assigned(v: Vm, b: Boxes, d: Vm, x: Box, val: Value)
    requires Good(v) && Refines(v, b) && x.born <= b.clock && d.stack == v.stack && |d.slots| == |v.slots| && d.upvals.Keys == v.upvals.Keys
    requires forall i :: 0 <= i < |v.slots| ==> d.slots[i] == if BoxAt(b, i) == x then val else v.slots[i]
    requires forall u :: u in v.upvals ==>
               d.upvals[u] == if v.upvals[u].v.Own? && b.up[u] == x then v.upvals[u].(value := val) else v.upvals[u]
    ensures Refines(d, Assign(b, x, val))
  {
    var c := Assign(b, x, val);
    forall u | u in d.upvals ensures Refers(d, c, u) { assert Refers(v, b, u); }
  }

  /** State and boxes after 'luaF_close': upvalues of slots from 'level' on that nobody refers to
      are gone, the others got their values. */
  ghost predicate ClosedFrom(v: Vm, d: Vm, level: int) {
    && d.stack == v.stack && d.slots == v.slots && d.names == v.names
    && (forall u :: u in d.upvals <==> u in v.upvals && (IsOpen(v.upvals, u) && v.upvals[u].v.addr >= level ==> v.upvals[u].refcount > 0))
    && forall u :: u in d.upvals && u in v.upvals ==>
         d.upvals[u] == if IsOpen(v.upvals, u) && v.upvals[u].v.addr >= level then UpVal(Own, Read(v, u), v.upvals[u].refcount)
                        else v.upvals[u]
  }

  lemma ClosedBoxes(v: Vm, b: Boxes, d: Vm, level: int)
    requires Good(v) && Refines(v, b) && ClosedFrom(v, d, level) && v.stack <= level <= v.stack + |v.slots|
    ensures 0 <= level - v.stack <= |b.born| && Refines(d, Leave(b, level - v.stack, v.upvals.Keys - d.upvals.Keys))
  {
    hide Refers, Good;
    var k := level - v.stack;
    var c := Leave(b, k, v.upvals.Keys - d.upvals.Keys);
    LeaveBorn(b, k, v.upvals.Keys - d.upvals.Keys);
    forall i | 0 <= i < |c.born| && BoxAt(c, i) in c.store ensures c.store[BoxAt(c, i)] == d.slots[i] {
      if i < k { assert BoxAt(c, i) == BoxAt(b, i); }
    }
    forall u | u in d.upvals ensures Refers(d, c, u) { ClosedRefers(v, b, d, level, u); }
  }

  lemma LeaveBorn(b: Boxes, k: nat, freed: set<Ref>)
    requires k <= |b.born|
    ensures var c := Leave(b, k, freed);
            |c.born| == |b.born| && forall i :: 0 <= i < |c.born| ==> c.born[i] == if i < k then b.born[i] else b.clock + 1
  {
  }

  /** An upvalue that was open for a slot from 'level' on has the box of that slot to itself now. */
  lemma ClosedRefers(v: Vm, b: Boxes, d: Vm, level: int, u: Ref)
    requires Refines(v, b) && ClosedFrom(v, d, level) && v.stack <= level <= v.stack + |v.slots| && u in d.upvals
    ensures var c := Leave(b, level - v.stack, v.upvals.Keys - d.upvals.Keys);
            u in c.up && Refers(d, c, u)
  {
    hide Refers, Times, ClosedFrom;
    var c := Leave(b, level - v.stack, v.upvals.Keys - d.upvals.Keys);
    LeaveBorn(b, level - v.stack, v.upvals.Keys - d.upvals.Keys);
    ClosedAt(v, d, level, u);
    assert c.up[u] == b.up[u];
    if IsOpen(v.upvals, u) {
      OpenRefers(v, b, u);
      var i := v.upvals[u].v.addr - v.stack;
      if BoxAt(b, i) in b.store { SlotBox(v, b, i); }
      if i < level - v.stack {
        assert BoxAt(c, i) == BoxAt(b, i);
        NewRefers(d, c, u, v.upvals[u].v.addr);
      } else {
        OwnRefers(d, c, u);
      }
    } else {
      OwnBefore(v, b, u);
      OwnRefers(d, c, u);
    }
  }

  lemma ClosedAt(v: Vm, d: Vm, level: int, u: Ref)
    requires ClosedFrom(v, d, level) && u in d.upvals
    ensures d.stack == v.stack && d.slots == v.slots && u in v.upvals
    ensures d.upvals[u] == if IsOpen(v.upvals, u) && v.upvals[u].v.addr >= level then UpVal(Own, Read(v, u), v.upvals[u].refcount)
                           else v.upvals[u]
  {
  }

  lemma OpenRefers(v: Vm, b: Boxes, u: Ref)
    requires Refines(v, b) && IsOpen(v.upvals, u)
    ensures var i := v.upvals[u].v.addr - v.stack; 0 <= i < |b.born| && u in b.up && b.up[u] == BoxAt(b, i)
  {
    assert Refers(v, b, u);
  }

  lemma OwnBefore(v: Vm, b: Boxes, u: Ref)
    requires Refines(v, b) && u in v.upvals && v.upvals[u].v.Own?
    ensures b.up[u].born <= b.clock && (b.up[u].slot < |b.born| ==> b.up[u].born != b.born[b.up[u].slot])
    ensures b.up[u] in b.store ==> b.store[b.up[u]] == v.upvals[u].value
  {
    assert Refers(v, b, u);
  }

  lemma OwnRefers(d: Vm, c: Boxes, u: Ref)
    requires u in d.upvals && u in c.up && d.upvals[u].v.Own?
    requires c.up[u].born <= c.clock && (c.up[u].slot < |c.born| ==> c.up[u].born != c.born[c.up[u].slot])
    requires c.up[u] in c.store ==> c.store[c.up[u]] == d.upvals[u].value
    ensures Refers(d, c, u)
  {
  }

  /** Another size and another place. */
  lemma ResizedBoxes(v: Vm, b: Boxes, d: Vm, n: nat)
    requires Good(v) && Refines(v, b) && |d.slots| == n && d.upvals.Keys == v.upvals.Keys
    requires forall i :: 0 <= i < n && i < |v.slots| ==> d.slots[i] == v.slots[i]
    requires forall u :: u in v.upvals ==>
               d.upvals[u] == if v.upvals[u].v.Own? then v.upvals[u]
                              else v.upvals[u].(v := Slot(v.upvals[u].v.addr + (d.stack - v.stack)))
    requires forall u :: IsOpen(v.upvals, u) ==> v.upvals[u].v.addr < v.stack + n
    ensures Refines(d, Resize(b, n))
  {
    hide Refers, Good, Times;
    var c := Resize(b, n);
    ResizeBorn(b, n);
    forall i | 0 <= i < n && BoxAt(c, i) in c.store ensures c.store[BoxAt(c, i)] == d.slots[i] {
      if i < |b.born| { assert BoxAt(c, i) == BoxAt(b, i); }
    }
    forall u | u in d.upvals ensures Refers(d, c, u) {
      if IsOpen(v.upvals, u) {
        OpenRefers(v, b, u);
        assert BoxAt(c, v.upvals[u].v.addr - v.stack) == BoxAt(b, v.upvals[u].v.addr - v.stack);
        NewRefers(d, c, u, d.upvals[u].v.addr);
      } else {
        OwnBefore(v, b, u);
        OwnRefers(d, c, u);
      }
    }
  }

  lemma ResizeBorn(b: Boxes, n: nat)
    ensures var c := Resize(b, n);
            |c.born| == n && forall i :: 0 <= i < n ==> c.born[i] == if i < |b.born| then b.born[i] else b.clock + 1
    ensures Resize(b, n).clock >= b.clock
  {
  }

  lemma Relocated(us: map<Ref, UpVal>, us': map<Ref, UpVal>, l: seq<Ref>, delta: int)
    requires Ordered(us, l) && us'.Keys == us.Keys
    requires forall u :: u in us ==> us'[u] == if us[u].v.Own? then us[u] else us[u].(v := Slot(us[u].v.addr + delta))
    ensures Ordered(us', l)
  {
    forall u ensures IsOpen(us', u) == IsOpen(us, u) && (IsOpen(us, u) ==> Addr(us', u) == Addr(us, u) + delta) {}
  }

  lemma Popped(us: map<Ref, UpVal>, us': map<Ref, UpVal>, l: seq<Ref>)
    requires Ordered(us, l) && l != [] && !IsOpen(us', l[0])
    requires forall u :: u != l[0] ==> (u in us' <==> u in us) && (u in us ==> us'[u] == us[u])
    ensures Ordered(us', l[1..])
  {
    forall i | 0 < i < |l| ensures l[i] != l[0] { assert Addr(us, l[0]) > Addr(us, l[i]); }
    forall u | IsOpen(us', u) ensures u in l[1..] {
      assert IsOpen(us, u);
      var j :| 0 <= j < |l| && l[j] == u;
      assert l[1..][j - 1] == u;
    }
  }

  /** The search stopped at index pp: no upvalue for the slot. */
  lemma NoneAt(us: map<Ref, UpVal>, l: seq<Ref>, pp: nat, level: int)
    requires Ordered(us, l) && pp <= |l| && (forall j :: 0 <= j < pp ==> Addr(us, l[j]) > level)
    requires pp < |l| ==> Addr(us, l[pp]) < level
    ensures forall u :: IsOpen(us, u) ==> us[u].v != Slot(level)
  {
    forall u | IsOpen(us, u) ensures us[u].v.addr != level {
      var j :| 0 <= j < |l| && l[j] == u;
      if j > pp { assert Addr(us, l[pp]) > Addr(us, l[j]); }
    }
  }

  lemma InsertedGood(v: Vm, i: nat, level: int)
    requires Good(v) && i <= |v.openupval| && v.stack <= level < v.stack + |v.slots|
    requires forall j :: 0 <= j < i ==> Addr(v.upvals, v.openupval[j]) > level
    requires i < |v.openupval| ==> Addr(v.upvals, v.openupval[i]) < level
    ensures v.names !in v.upvals
    ensures Good(v.(upvals := Opened(v.upvals, v.names, level), openupval := Insert(v.openupval, i, v.names), names := v.names + 1))
  {
    hide Ordered;
    Inserted(v.upvals, v.openupval, i, v.names, level);
  }

  predicate ToClose(v: Vm, u: Ref, level: int) {
    IsOpen(v.upvals, u) && v.upvals[u].v.addr >= level
  }

  /** Upvalue u while 'luaF_close' runs: not affected, waiting, freed or closed. */
  predicate Closing(v: Vm, d: Vm, u: Ref, level: int)
    requires u in v.upvals
  {
    || (u in d.upvals && d.upvals[u] == v.upvals[u])
    || (ToClose(v, u, level) && v.upvals[u].refcount == 0 && u !in d.upvals)
    || (ToClose(v, u, level) && v.upvals[u].refcount > 0 && u in d.upvals
        && d.upvals[u] == UpVal(Own, Read(v, u), v.upvals[u].refcount))
  }

  ghost predicate ClosedPart(v: Vm, d: Vm, level: int) {
    && d.stack == v.stack && d.slots == v.slots && d.names == v.names
    && (forall u :: u in d.upvals ==> u in v.upvals)
    && forall u :: u in v.upvals ==> Closing(v, d, u, level)
  }

  lemma NothingClosed(v: Vm, level: int)
    ensures ClosedPart(v, v, level)
  {
  }

  /** The first upvalue of the list is taken off. */
  lemma CloseFirst(v: Vm, m: Vm, d: Vm, uv: Ref, level: int)
    requires Good(m) && ClosedPart(v, m, level) && m.openupval != [] && uv == m.openupval[0] && ToClose(m, uv, level)
    requires d == m.(upvals := d.upvals, openupval := m.openupval[1..])
    requires d.upvals == if m.upvals[uv].refcount == 0 then m.upvals - {uv}
                         else m.upvals[uv := UpVal(Own, Read(m, uv), m.upvals[uv].refcount)]
    ensures Good(d) && ClosedPart(v, d, level)
  {
    hide ClosedPart;
    Popped(m.upvals, d.upvals, m.openupval);
    hide Ordered;
    ClosedMore(v, m, d, uv, level);
  }

  lemma ClosedMore(v: Vm, m: Vm, d: Vm, uv: Ref, level: int)
    requires ClosedPart(v, m, level) && uv in m.upvals && ToClose(m, uv, level)
    requires d.stack == m.stack && d.slots == m.slots && d.names == m.names
    requires d.upvals == if m.upvals[uv].refcount == 0 then m.upvals - {uv}
                         else m.upvals[uv := UpVal(Own, Read(m, uv), m.upvals[uv].refcount)]
    ensures ClosedPart(v, d, level)
  {
    assert Closing(v, m, uv, level);
    forall u | u in v.upvals ensures Closing(v, d, u, level) { assert Closing(v, m, u, level); }
  }

  lemma ClosedAll(v: Vm, d: Vm, level: int)
    requires Good(v) && Good(d) && ClosedPart(v, d, level) && (d.openupval != [] ==> Addr(d.upvals, d.openupval[0]) < level)
    ensures ClosedFrom(v, d, level) && forall u :: IsOpen(d.upvals, u) ==> d.upvals[u].v.addr < level
  {
    var l := d.openupval;
    forall u | IsOpen(d.upvals, u) ensures d.upvals[u].v.addr < level {
      var j :| 0 <= j < |l| && l[j] == u;
      if j > 0 { assert Addr(d.upvals, l[0]) > Addr(d.upvals, l[j]); }
    }
    forall u | u in v.upvals
      ensures u in d.upvals <==> (ToClose(v, u, level) ==> v.upvals[u].refcount > 0)
      ensures u in d.upvals ==>
                d.upvals[u] == if ToClose(v, u, level) then UpVal(Own, Read(v, u), v.upvals[u].refcount) else v.upvals[u]
    {
      assert Closing(v, d, u, level);
    }
  }

  lemma Counted(v: Vm, b: Boxes, d: Vm, u: Ref)
    requires Good(v) && Refines(v, b) && u in v.upvals && d == v.(upvals := d.upvals)
    requires d.upvals.Keys == v.upvals.Keys && (forall w :: w in v.upvals && w != u ==> d.upvals[w] == v.upvals[w])
    requires d.upvals[u] == v.upvals[u].(refcount := d.upvals[u].refcount)
    requires d.upvals[u].refcount == 0 ==> v.upvals[u].v.Slot?
    ensures Good(d) && Refines(d, b)
  {
    CountedRefines(v, b, d, u);
    hide Refines, Read;
    forall w ensures IsOpen(d.upvals, w) == IsOpen(v.upvals, w) && Addr(d.upvals, w) == Addr(v.upvals, w) {}
  }

  lemma CountedRefines(v: Vm, b: Boxes, d: Vm, u: Ref)
    requires Refines(v, b) && u in v.upvals && d == v.(upvals := d.upvals)
    requires d.upvals.Keys == v.upvals.Keys && (forall w :: w in v.upvals && w != u ==> d.upvals[w] == v.upvals[w])
    requires d.upvals[u] == v.upvals[u].(refcount := d.upvals[u].refcount)
    ensures Refines(d, b)
  {
    forall w | w in d.upvals ensures Refers(d, b, w) { assert Refers(v, b, w); }
  }

  lemma Dropped(v: Vm, b: Boxes, d: Vm, u: Ref)
    requires Good(v) && Refines(v, b) && u in v.upvals && v.upvals[u].v.Own? && d == v.(upvals := v.upvals - {u})
    ensures Good(d) && Refines(d, b.(up := b.up - {u}))
  {
    hide Refers;
    var c := b.(up := b.up - {u});
    forall w ensures IsOpen(d.upvals, w) == IsOpen(v.upvals, w) && Addr(d.upvals, w) == Addr(v.upvals, w) {}
    forall w | w in d.upvals ensures Refers(d, c, w) { DroppedRefers(v, b, d, c, w); }
  }

  lemma DroppedRefers(v: Vm, b: Boxes, d: Vm, c: Boxes, w: Ref)
    requires w in v.upvals && w in b.up && Refers(v, b, w) && w in d.upvals && w in c.up && c == b.(up := c.up)
    requires d.upvals[w] == v.upvals[w] && c.up[w] == b.up[w] && d.stack == v.stack
    ensures Refers(d, c, w)
  {
  }

  lemma SlotAssigned(v: Vm, b: Boxes, d: Vm, i: nat, x: Value)
    requires Good(v) && Refines(v, b) && i < |v.slots| && d == v.(slots := v.slots[i := x])
    ensures Good(d) && Refines(d, Assign(b, BoxAt(b, i), x))
  {
    hide Refers, Ordered;
    forall u | u in v.upvals && v.upvals[u].v.Own? ensures b.up[u] != BoxAt(b, i) { OwnBefore(v, b, u); }
    Assigned(v, b, d, BoxAt(b, i), x);
  }

  lemma OwnAssigned(v: Vm, b: Boxes, d: Vm, u: Ref, x: Value)
    requires Good(v) && Refines(v, b) && u in v.upvals && v.upvals[u].v.Own?
    requires d == v.(upvals := v.upvals[u := v.upvals[u].(value := x)])
    ensures u in b.up && Good(d) && Refines(d, Assign(b, b.up[u], x))
  {
    forall w ensures IsOpen(d.upvals, w) == IsOpen(v.upvals, w) && Addr(d.upvals, w) == Addr(v.upvals, w) {}
    OwnBefore(v, b, u);
    Assigned(v, b, d, b.up[u], x);
  }

  /** The upvalues of l have been moved. */
  ghost predicate Moved(us: map<Ref, UpVal>, us': map<Ref, UpVal>, l: seq<Ref>, delta: int) {
    us'.Keys == us.Keys
    && forall u :: u in us ==> us'[u] == if u in l && us[u].v.Slot? then us[u].(v := Slot(us[u].v.addr + delta)) else us[u]
  }

  lemma MovedNext(us: map<Ref, UpVal>, us': map<Ref, UpVal>, l: seq<Ref>, k: nat, delta: int)
    requires Ordered(us, l) && k < |l| && Moved(us, us', l[..k], delta)
    ensures IsOpen(us', l[k]) && us'[l[k]] == us[l[k]]
    ensures Moved(us, us'[l[k] := us[l[k]].(v := Slot(us[l[k]].v.addr + delta))], l[..k + 1], delta)
  {
    NotBefore(us, l, k);
    hide Ordered;
    OneMore(l, k);
  }

  lemma OneMore(l: seq<Ref>, k: nat)
    requires k < |l|
    ensures forall u :: u in l[..k + 1] <==> u in l[..k] || u == l[k]
  {
    assert l[..k + 1] == l[..k] + [l[k]];
  }

  lemma NotBefore(us: map<Ref, UpVal>, l: seq<Ref>, k: nat)
    requires Ordered(us, l) && k < |l|
    ensures l[k] !in l[..k] && IsOpen(us, l[k])
  {
    forall j | 0 <= j < k ensures l[j] != l[k] { assert Addr(us, l[j]) > Addr(us, l[k]); }
  }

  lemma MovedAll(us: map<Ref, UpVal>, us': map<Ref, UpVal>, l: seq<Ref>, delta: int)
    requires Ordered(us, l) && Moved(us, us', l, delta)
    ensures us'.Keys == us.Keys
    ensures forall u :: u in us ==> us'[u] == if us[u].v.Own? then us[u] else us[u].(v := Slot(us[u].v.addr + delta))
  {
    forall u | u in us && us[u].v.Slot? ensures u in l { assert IsOpen(us, u); }
  }

  function MovedInfo(c: CallInfo, from: int, to: int): CallInfo {
    var m := c.(func := c.func - from + to, top := c.top - from + to);
    if c.LuaCall? then m.(base := c.base - from + to) else m
  }

  /** Stack and upvalues in another place. */
  lemma MovedReads(v: Vm, d: Vm, n: nat)
    requires InStack(v) && d.upvals.Keys == v.upvals.Keys && |d.slots| == n
    requires forall i :: 0 <= i < n && i < |v.slots| ==> d.slots[i] == v.slots[i]
    requires forall u :: u in v.upvals ==>
               d.upvals[u] == if v.upvals[u].v.Own? then v.upvals[u]
                              else v.upvals[u].(v := Slot(v.upvals[u].v.addr + (d.stack - v.stack)))
    requires forall u :: IsOpen(v.upvals, u) ==> v.upvals[u].v.addr < v.stack + n
    ensures InStack(d) && forall u :: u in d.upvals ==> Read(d, u) == Read(v, u)
  {
    forall u | u in d.upvals ensures Read(d, u) == Read(v, u) && (IsOpen(d.upvals, u) ==> d.stack <= d.upvals[u].v.addr < d.stack + n) {
      assert IsOpen(v.upvals, u) == IsOpen(d.upvals, u);
    }
  }

  lemma BoxKeys(v: Vm, b: Boxes)
    requires Refines(v, b)
    ensures b.up.Keys == v.upvals.Keys && |b.born| == |v.slots|
  {
  }

  // ----- Runs -----

  /** What happens to a stack and its upvalues: captures, the end of scopes, reallocations,
      assignments to a slot or through an upvalue, and closures that take or give up an upvalue. */
  datatype Action =
    | Capturing(i: nat)
    | Leaving(i: nat)
    | Moving(place: int, size: nat)
    | Assigning(i: nat, x: Value)
    | Through(u: Ref, x: Value)
    | Taking(u: Ref)
    | Dropping(u: Ref)

  predicate Possible(v: Vm, a: Action) {
    match a
    case Capturing(i) => i < |v.slots|
    case Leaving(i) => i <= |v.slots|
    case Moving(_, n) => forall u :: u in v.upvals && v.upvals[u].v.Slot? ==> v.upvals[u].v.addr < v.stack + n
    case Assigning(i, _) => i < |v.slots|
    case Through(u, _) => u in v.upvals
    case Taking(u) => u in v.upvals
    case Dropping(u) => u in v.upvals && v.upvals[u].refcount > 0
  }

  ghost predicate SameUpval(v: Vm, d: Vm, u: Ref) {
    (u in d.upvals <==> u in v.upvals) && (u in d.upvals ==> d.upvals[u] == v.upvals[u])
  }

  /** Upvalue u is the one of slot i: the one that was there, or a new one. */
  ghost predicate Found(v: Vm, d: Vm, u: Ref, i: nat) {
    var level := v.stack + i;
    && u in d.upvals && d.upvals[u].v == Slot(level) && (forall w :: w != u ==> SameUpval(v, d, w))
    && if u in v.upvals then d == v
       else d.upvals[u].refcount == 0 && forall w :: w in v.upvals ==> v.upvals[w].v != Slot(level)
  }

  /** Upvalue u when the slots from i on go out of scope. */
  ghost predicate Outlives(v: Vm, d: Vm, u: Ref, i: nat) {
    var level := v.stack + i;
    if u in v.upvals && v.upvals[u].v.Slot? && v.upvals[u].v.addr >= level then
      && (u in d.upvals <==> v.upvals[u].refcount > 0) && 0 <= v.upvals[u].v.addr - v.stack < |v.slots|
      && (u in d.upvals ==> d.upvals[u] == UpVal(Own, v.slots[v.upvals[u].v.addr - v.stack], v.upvals[u].refcount))
    else SameUpval(v, d, u)
  }

  /** What an action does to the stack and the upvalues. */
  ghost predicate Did(v: Vm, a: Action, d: Vm)
    requires Possible(v, a)
  {
    match a
    case Capturing(i) => d.stack == v.stack && d.slots == v.slots && exists u :: Found(v, d, u, i)
    case Leaving(i) => d.stack == v.stack && d.slots == v.slots && forall u :: Outlives(v, d, u, i)
    case Moving(place, n) =>
      && d.stack == place && |d.slots| == n && d.upvals.Keys == v.upvals.Keys
      && (forall i :: 0 <= i < n ==> d.slots[i] == if i < |v.slots| then v.slots[i] else NIL)
      && forall u :: u in v.upvals ==>
           d.upvals[u] == if v.upvals[u].v.Own? then v.upvals[u]
                          else v.upvals[u].(v := Slot(place + (v.upvals[u].v.addr - v.stack)))
    case Assigning(i, x) => d == v.(slots := v.slots[i := x])
    case Through(u, x) =>
      (match v.upvals[u].v
       case Own => d == v.(upvals := v.upvals[u := v.upvals[u].(value := x)])
       case Slot(a) => 0 <= a - v.stack < |v.slots| && d == v.(slots := v.slots[a - v.stack := x]))
    case Taking(u) => d == v.(upvals := v.upvals[u := v.upvals[u].(refcount := v.upvals[u].refcount + 1)])
    case Dropping(u) =>
      if v.upvals[u].refcount == 1 && v.upvals[u].v.Own? then d == v.(upvals := v.upvals - {u})
      else d == v.(upvals := v.upvals[u := v.upvals[u].(refcount := v.upvals[u].refcount - 1)])
  }

  /** What an action does to the boxes. */
  ghost predicate Applied(b: Boxes, a: Action, c: Boxes) {
    match a
    case Capturing(i) => i < |b.born| && exists u :: c == Capture(b, i, u)
    case Leaving(k) => k <= |b.born| && exists freed :: c == Leave(b, k, freed)
    case Moving(_, n) => c == Resize(b, n)
    case Assigning(i, x) => i < |b.born| && c == Assign(b, BoxAt(b, i), x)
    case Through(u, x) => u in b.up && c == Assign(b, b.up[u], x)
    case Taking(_) => c == b
    case Dropping(u) => c == b || c == b.(up := b.up - {u})
  }

  /** The states h that the actions lead through. */
  ghost predicate History(h: seq<Vm>, acts: seq<Action>) {
    && |h| == |acts| + 1 && (forall k :: 0 <= k < |h| ==> Good(h[k]))
    && forall k :: 0 <= k < |acts| ==> Possible(h[k], acts[k]) && Did(h[k], acts[k], h[k + 1])
  }

  ghost predicate BoxHistory(h: seq<Boxes>, acts: seq<Action>) {
    |h| == |acts| + 1 && forall k :: 0 <= k < |acts| ==> Applied(h[k], acts[k], h[k + 1])
  }

  lemma HistoryMore(h: seq<Vm>, hb: seq<Boxes>, acts: seq<Action>, k: nat, d: Vm, c: Boxes)
    requires k < |acts| && |h| == |hb| == k + 1 && History(h, acts[..k]) && BoxHistory(hb, acts[..k]) && Good(d)
    requires Possible(h[k], acts[k]) && Did(h[k], acts[k], d) && Applied(hb[k], acts[k], c)
    ensures History(h + [d], acts[..k + 1]) && BoxHistory(hb + [c], acts[..k + 1])
  {
    hide Possible, Did, Applied, Good;
    assert acts[..k + 1] == acts[..k] + [acts[k]];
  }

  /** The action assigns to the variable of upvalue u: through it, or to the slot for which it is
      open. */
  predicate Writes(v: Vm, a: Action, u: Ref) {
    (a.Through? && a.u == u) || (a.Assigning? && u in v.upvals && v.upvals[u].v == Slot(v.stack + a.i))
  }

  /** An upvalue that a closure has reads what the action assigns to its variable, or as before. */
  lemma StepReads(v: Vm, a: Action, d: Vm, u: Ref)
    requires Good(v) && Possible(v, a) && Did(v, a, d) && u in v.upvals && v.upvals[u].refcount > 0 && a != Dropping(u)
    ensures u in d.upvals && d.upvals[u].refcount > 0 && Read(d, u) == if Writes(v, a, u) then a.x else Read(v, u)
  {
    hide Ordered;
    match a
    case Capturing(i) =>
      var w :| Found(v, d, w, i);
      assert w != u ==> SameUpval(v, d, u);
    case Leaving(i) =>
      assert Outlives(v, d, u, i);
    case Through(w, x) =>
      if w != u && IsOpen(v.upvals, u) && IsOpen(v.upvals, w) && v.upvals[u].v == v.upvals[w].v {
        OnePerSlot(v.upvals, v.openupval, u, w);
      }
    case _ =>
  }

  /** Over any history, an upvalue that is held all the time reads at the end what was assigned
      last to its variable, by whatever way, or what it read at first. */
  lemma {:induction false} LastAssigned(h: seq<Vm>, acts: seq<Action>, u: Ref, k: nat)
    requires History(h, acts) && k <= |acts| && u in h[0].upvals && h[0].upvals[u].refcount > 0 && Dropping(u) !in acts
    requires forall j :: k <= j < |acts| ==> !Writes(h[j], acts[j], u)
    requires k > 0 ==> Writes(h[k - 1], acts[k - 1], u)
    ensures u in h[|acts|].upvals && h[|acts|].upvals[u].refcount > 0
    ensures Read(h[|acts|], u) == if k > 0 then acts[k - 1].x else Read(h[0], u)
  {
    HeldUpTo(h, acts, u, k);
    HeldUpTo(h, acts, u, |acts|);
    Unwritten(h, acts, u, k, |acts|);
    if k > 0 {
      HeldUpTo(h, acts, u, k - 1);
      StepReads(h[k - 1], acts[k - 1], h[k], u);
    }
  }

  lemma {:induction false} HeldUpTo(h: seq<Vm>, acts: seq<Action>, u: Ref, k: nat)
    requires History(h, acts) && k <= |acts| && u in h[0].upvals && h[0].upvals[u].refcount > 0 && Dropping(u) !in acts
    ensures u in h[k].upvals && h[k].upvals[u].refcount > 0
  {
    hide Did, Good;
    if k > 0 {
      HeldUpTo(h, acts, u, k - 1);
      StepReads(h[k - 1], acts[k - 1], h[k], u);
    }
  }

  lemma {:induction false} Unwritten(h: seq<Vm>, acts: seq<Action>, u: Ref, k: nat, n: nat)
    requires History(h, acts) && k <= n <= |acts| && u in h[0].upvals && h[0].upvals[u].refcount > 0 && Dropping(u) !in acts
    requires forall j :: k <= j < n ==> !Writes(h[j], acts[j], u)
    ensures u in h[k].upvals && u in h[n].upvals && Read(h[n], u) == Read(h[k], u)
    decreases n
  {
    hide Did, Good, Read;
    HeldUpTo(h, acts, u, n);
    if n > k {
      HeldUpTo(h, acts, u, n - 1);
      Unwritten(h, acts, u, k, n - 1);
      StepReads(h[n - 1], acts[n - 1], h[n], u);
    }
  }

  // ----- The thread -----

  class LuaState {
    var stack: int                 // address of slot 0
    var slots: seq<Value>
    var top: int
    var ci: seq<CallInfo>
    var openupval: seq<Ref>
    var upvals: map<Ref, UpVal>
    var names: Ref                 // references below were used
    ghost var boxes: Boxes

    function Snap(): Vm
      reads this
    {
      Vm(stack, slots, openupval, upvals, names)
    }

    ghost predicate Valid()
      reads this
    {
      Good(Snap()) && Refines(Snap(), boxes)
    }

    constructor (base: int)
      ensures Valid() && Snap() == Vm(base, [], [], map[], 0) && top == base && ci == []
    {
      stack, slots, top, ci := base, [], base, [];
      openupval, upvals, names := [], map[], 0;
      boxes := Boxes([], 0, map[], map[]);
    }

    /** 'luaF_findupval': the upvalue of a slot, a new one if there is none. */
    method FindUpval(level: int) returns (uv: Ref)
      requires Valid() && stack <= level < stack + |slots|
      modifies this`openupval, this`upvals, this`names, this`boxes
      ensures Valid() && uv in upvals && upvals[uv].v == Slot(level) && boxes == Capture(old(boxes), level - stack, uv)
      ensures if exists u :: IsOpen(old(upvals), u) && old(upvals)[u].v == Slot(level)
              then uv in old(upvals) && Snap() == old(Snap())
              else uv !in old(upvals) && upvals == Opened(old(upvals), uv, level)
    {
      hide Refines, InStack, Insert;
      var pp := 0;
      while pp < |openupval| && upvals[openupval[pp]].v.addr >= level
        invariant 0 <= pp <= |openupval|
        invariant forall j :: 0 <= j < pp ==> Addr(upvals, openupval[j]) > level
      {
        var p := openupval[pp];
        if upvals[p].v.addr == level {
          CapturedOld(Snap(), boxes, p);
          return p;
        }
        pp := pp + 1;
      }
      ghost var s := Snap();
      uv := names;
      NoneAt(upvals, openupval, pp, level);
      InsertedGood(s, pp, level);
      openupval := Insert(openupval, pp, uv);
      upvals := Opened(upvals, uv, level);
      names := names + 1;
      CapturedNew(s, boxes, Snap(), uv, level);
      boxes := Capture(boxes, level - stack, uv);
    }

    /** 'luaF_close': the upvalues of the slots from 'level' on are closed, or freed if no closure
        has them. */
    method Close(level: int)
      requires Valid() && stack <= level <= stack + |slots|
      modifies this`openupval, this`upvals, this`boxes
      ensures Valid() && ClosedFrom(old(Snap()), Snap(), level)
      ensures boxes == Leave(old(boxes), level - stack, old(upvals).Keys - upvals.Keys)
      ensures forall u :: IsOpen(upvals, u) ==> upvals[u].v.addr < level
    {
      hide Refines, ClosedFrom, Leave, ClosedPart;
      ghost var b := boxes;
      ghost var s := Snap();
      NothingClosed(s, level);
      while openupval != [] && upvals[openupval[0]].v.addr >= level
        invariant Good(Snap()) && ClosedPart(s, Snap(), level) && boxes == b
        decreases |openupval|
      {
        var uv := openupval[0];
        ghost var m := Snap();
        if upvals[uv].refcount == 0 {
          upvals := upvals - {uv};
        } else {
          upvals := upvals[uv := UpVal(Own, Read(Snap(), uv), upvals[uv].refcount)];
        }
        openupval := openupval[1..];
        CloseFirst(s, m, Snap(), uv, level);
      }
      ClosedAll(s, Snap(), level);
      ClosedBoxes(s, boxes, Snap(), level);
      boxes := Leave(boxes, level - stack, s.upvals.Keys - upvals.Keys);
    }

    /** A closure takes upvalue u ('refcount'). */
    method AddRef(u: Ref)
      requires Valid() && u in upvals
      modifies this`upvals
      ensures Valid() && upvals == old(upvals)[u := old(upvals)[u].(refcount := old(upvals)[u].refcount + 1)]
    {
      hide Ordered;
      ghost var s := Snap();
      upvals := upvals[u := upvals[u].(refcount := upvals[u].refcount + 1)];
      Counted(s, boxes, Snap(), u);
    }

    /** 'luaC_upvdeccount': a closed upvalue that no closure has is freed. */
    method Release(u: Ref)
      requires Valid() && u in upvals && upvals[u].refcount > 0
      modifies this`upvals, this`boxes
      ensures Valid()
      ensures if old(upvals)[u].refcount == 1 && old(upvals)[u].v.Own?
              then upvals == old(upvals) - {u} && boxes == old(boxes).(up := old(boxes).up - {u})
              else upvals == old(upvals)[u := old(upvals)[u].(refcount := old(upvals)[u].refcount - 1)] && boxes == old(boxes)
    {
      hide Ordered;
      ghost var s := Snap();
      if upvals[u].refcount == 1 && upvals[u].v.Own? {
        upvals := upvals - {u};
        Dropped(s, boxes, Snap(), u);
        boxes := boxes.(up := boxes.up - {u});
      } else {
        upvals := upvals[u := upvals[u].(refcount := upvals[u].refcount - 1)];
        Counted(s, boxes, Snap(), u);
      }
    }

    /** Assignment to the variable in slot i. */
    method SetSlot(i: nat, x: Value)
      requires Valid() && i < |slots|
      modifies this`slots, this`boxes
      ensures Valid() && slots == old(slots)[i := x] && boxes == Assign(old(boxes), BoxAt(old(boxes), i), x)
    {
      ghost var s := Snap();
      slots := slots[i := x];
      SlotAssigned(s, boxes, Snap(), i, x);
      boxes := Assign(boxes, BoxAt(boxes, i), x);
    }

    /** Assignment through upvalue u (OP_SETUPVAL). */
    method SetUpval(u: Ref, x: Value)
      requires Valid() && u in upvals
      modifies this`slots, this`upvals, this`boxes
      ensures Valid() && boxes == Assign(old(boxes), old(boxes).up[u], x) && openupval == old(openupval)
      ensures if old(upvals)[u].v.Own? then slots == old(slots) && upvals == old(upvals)[u := old(upvals)[u].(value := x)]
              else upvals == old(upvals) && stack <= old(upvals)[u].v.addr < stack + |old(slots)|
                   && slots == old(slots)[old(upvals)[u].v.addr - stack := x]
    {
      hide Ordered, Refines;
      ghost var s := Snap();
      if upvals[u].v.Own? {
        upvals := upvals[u := upvals[u].(value := x)];
        OwnAssigned(s, boxes, Snap(), u, x);
      } else {
        OpenRefers(s, boxes, u);
        slots := slots[upvals[u].v.addr - stack := x];
        SlotAssigned(s, boxes, Snap(), upvals[u].v.addr - stack, x);
      }
      boxes := Assign(boxes, boxes.up[u], x);
    }

    /** The vector of slots gets a new size; new slots are nil. */
    method ResizeSlots(newsize: nat)
      modifies this`slots
      ensures |slots| == newsize && forall i :: 0 <= i < newsize ==> slots[i] == if i < |old(slots)| then old(slots)[i] else NIL
    {
      var lim := |slots|;
      if newsize < lim { slots := slots[..newsize]; }
      while lim < newsize
        invariant lim >= |old(slots)| && |slots| == if lim < newsize then lim else newsize
        invariant forall i :: 0 <= i < |slots| ==> slots[i] == if i < |old(slots)| then old(slots)[i] else NIL
        decreases newsize - lim
      {
        slots := slots + [NIL];
        lim := lim + 1;
      }
    }

    /** 'correctstack' */
    method CorrectStack(oldstack: int)
      requires Ordered(upvals, openupval)
      modifies this`top, this`upvals, this`ci
      ensures top == old(top) - oldstack + stack && upvals.Keys == old(upvals).Keys
      ensures forall u :: u in upvals ==>
                upvals[u] == if old(upvals)[u].v.Own? then old(upvals)[u]
                             else old(upvals)[u].(v := Slot(old(upvals)[u].v.addr + (stack - oldstack)))
      ensures |ci| == |old(ci)| && forall k :: 0 <= k < |ci| ==> ci[k] == MovedInfo(old(ci)[k], oldstack, stack)
    {
      hide Ordered;
      top := top - oldstack + stack;
      ghost var us := upvals;
      var k := 0;
      while k < |openupval|
        invariant 0 <= k <= |openupval| && Moved(us, upvals, openupval[..k], stack - oldstack)
        invariant top == old(top) - oldstack + stack && ci == old(ci)
        decreases |openupval| - k
      {
        MovedNext(us, upvals, openupval, k, stack - oldstack);
        var up := openupval[k];
        upvals := upvals[up := upvals[up].(v := Slot(upvals[up].v.addr - oldstack + stack))];
        k := k + 1;
      }
      assert openupval[..k] == openupval;
      MovedAll(us, upvals, openupval, stack - oldstack);
      ghost var us' := upvals;
      k := 0;
      while k < |ci|
        invariant 0 <= k <= |ci| && |ci| == |old(ci)| && top == old(top) - oldstack + stack && upvals == us'
        invariant forall j :: 0 <= j < k ==> ci[j] == MovedInfo(old(ci)[j], oldstack, stack)
        invariant forall j :: k <= j < |ci| ==> ci[j] == old(ci)[j]
        decreases |ci| - k
      {
        ci := ci[k := ci[k].(top := ci[k].top - oldstack + stack)];
        ci := ci[k := ci[k].(func := ci[k].func - oldstack + stack)];
        if ci[k].LuaCall? {
          ci := ci[k := ci[k].(base := ci[k].base - oldstack + stack)];
        }
        k := k + 1;
      }
    }

    /** 'luaD_reallocstack': the stack moves to another place; open upvalues and the pointers of all
        activation records move along. */
    method ReallocStack(place: int, newsize: nat)
      requires Valid() && forall u :: IsOpen(upvals, u) ==> upvals[u].v.addr < stack + newsize
      modifies this`stack, this`slots, this`top, this`ci, this`upvals, this`boxes
      ensures Valid() && stack == place && boxes == Resize(old(boxes), newsize)
      ensures |slots| == newsize && forall i :: 0 <= i < newsize ==> slots[i] == if i < |old(slots)| then old(slots)[i] else NIL
      ensures upvals.Keys == old(upvals).Keys
      ensures forall u :: u in upvals ==> Read(Snap(), u) == Read(old(Snap()), u)
      ensures forall u :: u in upvals ==>
                upvals[u] == if old(upvals)[u].v.Own? then old(upvals)[u]
                             else old(upvals)[u].(v := Slot(place + (old(upvals)[u].v.addr - old(stack))))
      ensures top - stack == old(top) - old(stack)
      ensures |ci| == |old(ci)| && forall k :: 0 <= k < |ci| ==> ci[k] == MovedInfo(old(ci)[k], old(stack), stack)
    {
      hide Refines, Ordered;
      ghost var s := Snap();
      var oldstack := stack;
      ResizeSlots(newsize);
      stack := place;
      CorrectStack(oldstack);
      Relocated(s.upvals, upvals, openupval, place - oldstack);
      ResizedBoxes(s, boxes, Snap(), newsize);
      MovedReads(s, Snap(), newsize);
      boxes := Resize(boxes, newsize);
    }

    /** Any sequence of actions: the states they lead through, and the boxes. */
    method Run(acts: seq<Action>) returns (done: nat, ghost h: seq<Vm>, ghost hb: seq<Boxes>)
      requires Valid()
      modifies this
      ensures Valid() && done <= |acts| && (done < |acts| ==> !Possible(Snap(), acts[done]))
      ensures History(h, acts[..done]) && h[0] == old(Snap()) && h[done] == Snap()
      ensures BoxHistory(hb, acts[..done]) && hb[0] == old(boxes) && hb[done] == boxes
    {
      hide Good, Refines, Did, Applied, Possible;
      done := 0;
      h, hb := [Snap()], [boxes];
      while done < |acts|
        invariant done <= |acts| && Valid() && |h| == |hb| == done + 1
        invariant History(h, acts[..done]) && h[0] == old(Snap()) && h[done] == Snap()
        invariant BoxHistory(hb, acts[..done]) && hb[0] == old(boxes) && hb[done] == boxes
      {
        if !Possible(Snap(), acts[done]) { return; }
        Step(acts[done]);
        HistoryMore(h, hb, acts, done, Snap(), boxes);
        h, hb := h + [Snap()], hb + [boxes];
        done := done + 1;
      }
    }

    method Step(a: Action)
      requires Valid() && Possible(Snap(), a)
      modifies this
      ensures Valid() && Did(old(Snap()), a, Snap()) && Applied(old(boxes), a, boxes)
    {
      hide Good, Refines, Did, Applied;
      match a {
        case Capturing(_) => StepStack(a);
        case Leaving(_) => StepStack(a);
        case Moving(_, _) => StepStack(a);
        case Assigning(_, _) => StepAssign(a);
        case Through(_, _) => StepAssign(a);
        case Taking(_) => StepCount(a);
        case Dropping(_) => StepCount(a);
      }
    }

    method StepStack(a: Action)
      requires Valid() && Possible(Snap(), a) && (a.Capturing? || a.Leaving? || a.Moving?)
      modifies this
      ensures Valid() && Did(old(Snap()), a, Snap()) && Applied(old(boxes), a, boxes)
    {
      hide Refines, Ordered;
      ghost var v := Snap();
      BoxKeys(v, boxes);
      match a {
        case Capturing(i) =>
          var u := FindUpval(stack + i);
          assert Found(v, Snap(), u, i);
        case Leaving(i) => Close(stack + i);
        case Moving(place, n) => ReallocStack(place, n);
      }
    }

    method StepAssign(a: Action)
      requires Valid() && Possible(Snap(), a) && (a.Assigning? || a.Through?)
      modifies this
      ensures Valid() && Did(old(Snap()), a, Snap()) && Applied(old(boxes), a, boxes)
    {
      hide Refines, Good;
      BoxKeys(Snap(), boxes);
      match a {
        case Assigning(i, x) => SetSlot(i, x);
        case Through(u, x) => SetUpval(u, x);
      }
    }

    method StepCount(a: Action)
      requires Valid() && Possible(Snap(), a) && (a.Taking? || a.Dropping?)
      modifies this
      ensures Valid() && Did(old(Snap()), a, Snap()) && Applied(old(boxes), a, boxes)
    {
      hide Refines, Good;
      match a {
        case Taking(u) => AddRef(u);
        case Dropping(u) => Release(u);
      }
    }
  }
}
