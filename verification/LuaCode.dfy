/** The code generator of lcode.c. A method returns Fail where the original raises a syntax error
    and abandons the function. */
module LuaCode {
  import opened LuaMachine
  import opened LuaSpec
  import opened LuaProof
  import opened LuaCompose

  datatype Error = TooLong | TooManyRegs | TooManyConsts

  datatype Outcome = Pass | Fail(error: Error) {
    predicate IsFailure() {
      Fail?
    }

    function PropagateFailure(): Outcome
      requires Fail?
    {
      this
    }
  }

  /** 'luaK_dischargevars': a local variable already is in a register. */
  function DischargeVars(e: ExpDesc): ExpDesc {
    if e.k.VLocal? then e.(k := VNonReloc(e.k.reg)) else e
  }

  // ----- Patch lists under code changes -----

  lemma ExitsOpen(b: S, s: S, own: set<int>, T: seq<int>, F: seq<int>)
    requires Frame(b, s, own, T, F)
    ensures forall j :: j in T || j in F ==> j in s.open && j !in s.pend && j !in own
    ensures ToSet(T) !! ToSet(F)
  {
    forall j | j in T || j in F ensures j in s.open && j !in s.pend && j !in own {
      assert j in ToSet(T) || j in ToSet(F);
      assert j in s.pend <==> j in ToSet(s.pend);
    }
  }

  lemma EmitLists(s: S, code: seq<Instr>, h: int, l: seq<int>)
    requires IsList(s.code, h, l) && Discharged(s).code <= code
    requires forall j :: j in l ==> j !in s.pend
    ensures IsList(code, h, l)
  {
    forall j | j in l ensures j < |code| && code[j] == s.code[j] {
      assert 0 <= j < |s.code| && s.code[j].Jmp?;
      assert code[j] == Discharged(s).code[j] == PatchedAt(s.code, s.pend, |s.code|, NO_REG, |s.code|, j);
    }
    ListKept(s.code, code, h, l);
  }

  lemma StrippedLists(code: seq<Instr>, l: seq<int>, h: int, m: seq<int>)
    requires IsList(code, h, m)
    ensures IsList(Stripped(code, l), h, m)
  {
    ListKept(code, Stripped(code, l), h, m);
  }

  /** Element i of a list, or the end mark. */
  function Link(l: seq<int>, i: nat): int {
    if i < |l| then l[i] else NO_JUMP
  }

  lemma NextOf(code: seq<Instr>, h: int, l: seq<int>, i: nat)
    requires IsList(code, h, l) && i < |l|
    ensures 0 <= l[i] < |code| && code[l[i]].Jmp? && l[i] in l
    ensures GetJump(code, l[i]) == Link(l, i + 1)
    ensures i + 1 < |l| ==> l[i + 1] >= 0
  {
  }

  lemma EmptyList(code: seq<Instr>, h: int, l: seq<int>)
    ensures IsList(code, NO_JUMP, [])
    ensures IsList(code, h, l) ==> (l == [] <==> h == NO_JUMP)
  {
    if IsList(code, h, l) && l != [] { assert l[0] in l; }
  }

  lemma JoinLists(code: seq<Instr>, code': seq<Instr>, a: seq<int>, ha: int, c: seq<int>, hc: int)
    requires IsList(code, ha, a) && IsList(code, hc, c) && a != [] && c != [] && ToSet(a) !! ToSet(c)
    requires |code'| == |code|
    requires forall i :: 0 <= i < |code| && i != a[|a| - 1] ==> code'[i] == code[i]
    requires code'[a[|a| - 1]] == Jmp(code[a[|a| - 1]].close, c[0] - (a[|a| - 1] + 1))
    ensures IsList(code', ha, a + c)
  {
    var l, n := a + c, |a|;
    NoDupsConcat(a, c);
    forall i | 0 <= i < |l|
      ensures 0 <= l[i] < |code'| && code'[l[i]].Jmp?
      ensures GetJump(code', l[i]) == if i + 1 < |l| then l[i + 1] else NO_JUMP
    {
      if i >= n {
        assert l[i] == c[i - n] && l[i] in ToSet(c);
        assert i + 1 < |l| ==> l[i + 1] == c[i + 1 - n];
        assert a[n - 1] in ToSet(a);
        assert code'[l[i]] == code[l[i]];
        NextOf(code, hc, c, i - n);
      } else if i < n - 1 {
        assert l[i] == a[i] != a[n - 1] && l[i + 1] == a[i + 1];
        assert code'[l[i]] == code[l[i]];
        NextOf(code, ha, a, i);
      } else {
        assert c[0] in ToSet(c) && a[n - 1] in ToSet(a);
        assert c[0] >= 0 && l[i] == a[n - 1] && l[i + 1] == c[0];
        assert code'[l[i]].sbx != NO_JUMP;
      }
    }
    assert IsList(code', ha, l);
  }

  lemma NoJumps(code: seq<Instr>, e: ExpDesc, T: seq<int>, F: seq<int>)
    requires IsList(code, e.t, T) && IsList(code, e.f, F) && ToSet(T) !! ToSet(F)
    ensures HasJumps(e) <==> T != [] || F != []
    ensures !HasJumps(e) ==> T == [] && F == [] && e.t == NO_JUMP && e.f == NO_JUMP
  {
    if T != [] { assert T[0] in T; assert T[0] in ToSet(T); }
    if F != [] { assert F[0] in F; assert F[0] in ToSet(F); }
  }

  // ----- Claims -----

  lemma LocalInRegister(b: S, s: S, x: nat, T: seq<int>, F: seq<int>, e: Expr)
    requires Sim(b, s, HasValue(VLocal(x), -1), T, F, e)
    ensures Sim(b, s, HasValue(VNonReloc(x), -1), T, F, e)
  {
    assert x < 256;
    Relabel(b, s, HasValue(VLocal(x), -1), HasValue(VNonReloc(x), -1), T, F, e);
  }

  lemma Spare(b: S, s: S, x: nat, T: seq<int>, F: seq<int>, e: Expr, spare: int, spare': int)
    requires Sim(b, s, HasValue(VNonReloc(x), spare), T, F, e)
    requires spare < 0 || spare >= b.freereg || spare' == spare
    ensures Sim(b, s, HasValue(VNonReloc(x), spare'), T, F, e)
  {
    Relabel(b, s, HasValue(VNonReloc(x), spare), HasValue(VNonReloc(x), spare'), T, F, e);
  }

  ghost function ConstOf(d: Kind): Option<Value> {
    match d
    case VNil => Some(Nil)
    case VTrue => Some(Bool(true))
    case VFalse => Some(Bool(false))
    case VKInt(n) => Some(Int(n))
    case VKFlt(x) => Some(Flt(x))
    case _ => None
  }

  /** A constant moves to the constant table. */
  lemma ToTable(b: S, s: S, s': S, d: Kind, idx: nat, T: seq<int>, F: seq<int>, e: Expr)
    requires Sim(b, s, HasValue(d, -1), T, F, e)
    requires s' == s.(k := s'.k) && s.k <= s'.k && idx < |s'.k| && ConstOf(d) == Some(s'.k[idx])
    ensures Sim(b, s', HasValue(VK(idx), -1), T, F, e)
  {
    Adjust(b, s, s', HasValue(d, -1), T, F, e);
    Relabel(b, s', HasValue(d, -1), HasValue(VK(idx), -1), T, F, e);
  }

  function Negation(d: Kind): Kind {
    if d.VNil? || d.VFalse? then VTrue else VFalse
  }

  lemma KnownNegation(b: S, s: S, d: Kind, T: seq<int>, F: seq<int>, e: Expr)
    requires Sim(b, s, HasValue(d, -1), T, F, e)
    requires d.VTrue? || d.VK? || d.VKInt? || d.VKFlt? || d.VNil? || d.VFalse?
    requires d.VK? ==> Truthy(s.k[d.idx])
    ensures Sim(b, s, HasNot(Negation(d)), T, F, e)
  {
    Relabel(b, s, HasValue(d, -1), HasNot(Negation(d)), T, F, e);
  }

  // ----- The generator -----

  class FuncState {
    const ops: Ops
    var code: seq<Instr>      // f->code[0..pc)
    var k: seq<Value>         // f->k[0..nk)
    var cache: map<Value, nat>  // the scanner's table of constants
    var jpc: int
    var lasttarget: int
    var freereg: nat
    var nactvar: nat
    var maxstacksize: nat
    ghost var open: set<int>   // jumps without a destination
    ghost var pend: seq<int>   // the list at jpc

    ghost function Snap(): S
      reads this
    {
      S(ops, code, k, open, pend, freereg, nactvar, lasttarget)
    }

    ghost predicate Valid()
      reads this
    {
      && WF(Snap())
      && IsList(code, jpc, pend)
      && freereg <= maxstacksize < MAXREGS
    }

    /** A failure means that a limit of the implementation was hit. */
    ghost predicate Limit(o: Outcome, top: nat)
      reads this
    {
      match o
      case Pass => true
      case Fail(TooLong) => |code| > MAXARG_sBx
      case Fail(TooManyRegs) => top >= MAXREGS
      case Fail(TooManyConsts) => |k| >= MAXARG_Ax
    }

    /** 'open_func' */
    constructor (ops: Ops)
      ensures Valid() && Snap() == S(ops, [], [], {}, [], 0, 0, 0)
    {
      this.ops := ops;
      code, k, cache := [], [], map[];
      jpc, lasttarget, freereg, nactvar, maxstacksize := NO_JUMP, 0, 0, 0, 2;
      open, pend := {}, [];
    }

    // ----- Patch lists -----

    method FixJump(pc: int, dest: int) returns (o: Outcome)
      requires 0 <= pc < |code| && code[pc].Jmp? && dest != NO_JUMP
      modifies `code
      ensures o.Pass? <==> -MAXARG_sBx <= dest - (pc + 1) <= MAXARG_sBx
      ensures o.Fail? ==> o.error == TooLong && code == old(code)
      ensures o.Pass? ==> code == old(code)[pc := Jmp(old(code[pc].close), dest - (pc + 1))]
    {
      var offset := dest - (pc + 1);
      if offset > MAXARG_sBx || -offset > MAXARG_sBx {
        return Fail(TooLong);
      }
      code := code[pc := Jmp(code[pc].close, offset)];
      return Pass;
    }

    /** 'getjumpcontrol' */
    function JumpControl(pc: int): (c: int)
      requires 0 <= pc < |code|
      reads this
      ensures 0 <= c < |code| && (IsTestSet(code, pc) ==> c == pc - 1)
      ensures code[pc].Jmp? ==> (code[c].TestSet? <==> IsTestSet(code, pc))
    {
      if pc >= 1 && IsTest(code[pc - 1]) then pc - 1 else pc
    }

    method NeedValue(list: int, ghost l: seq<int>) returns (r: bool)
      requires IsList(code, list, l)
      ensures r <==> NeedsValue(code, l)
    {
      var p := list;
      ghost var i := 0;
      while p != NO_JUMP
        invariant 0 <= i <= |l| && p == Link(l, i)
        invariant forall n :: 0 <= n < i ==> IsTestSet(code, l[n])
        decreases |l| - i
      {
        NextOf(code, list, l, i);
        if !code[JumpControl(p)].TestSet? {
          return true;
        }
        p := GetJump(code, p);
        i := i + 1;
      }
      assert forall j :: j in l ==> IsTestSet(code, j);
      return false;
    }

    method PatchTestReg(node: int, reg: nat) returns (r: bool)
      requires 0 <= node < |code| && code[node].Jmp?
      modifies `code
      ensures r <==> old(IsTestSet(code, node))
      ensures code == if r then old(code)[node - 1 := PatchTest(old(code[node - 1]), reg)] else old(code)
    {
      var c := JumpControl(node);
      if !code[c].TestSet? {
        return false;
      }
      var i := code[c];
      if reg != NO_REG && reg != i.b {
        code := code[c := TestSet(reg, i.b, i.cond)];
      } else {
        code := code[c := Test(i.b, i.cond)];
      }
      return true;
    }

    method RemoveValues(list: int, ghost l: seq<int>)
      requires IsList(code, list, l)
      modifies `code
      ensures code == Stripped(old(code), l)
    {
      var p := list;
      ghost var i := 0;
      ghost var c0 := code;
      while p != NO_JUMP
        invariant 0 <= i <= |l| && p == Link(l, i)
        invariant code == Stripped(c0, l[..i])
        decreases |l| - i
      {
        assert l[..i + 1] == l[..i] + [l[i]];
        NextOf(c0, list, l, i);
        assert code[p] == StrippedAt(c0, l[..i], p) == c0[p];
        if p >= 1 { assert code[p - 1] == StrippedAt(c0, l[..i], p - 1); }
        var next := GetJump(code, p);
        assert next == GetJump(c0, l[i]) == Link(l, i + 1);
        var _ := PatchTestReg(p, NO_REG);
        StrippedStep(c0, l[..i], p, code);
        p := next;
        i := i + 1;
      }
      assert l[..i] == l;
    }

    static lemma StrippedStep(c: seq<Instr>, l: seq<int>, p: int, d: seq<Instr>)
      requires 0 <= p < |c| && |d| == |c|
      requires forall i :: 0 <= i < |c| && i != p - 1 ==> d[i] == Stripped(c, l)[i]
      requires p >= 1 ==> d[p - 1] == if IsTestSet(c, p) then Test(c[p - 1].b, c[p - 1].cond) else Stripped(c, l)[p - 1]
      ensures d == Stripped(c, l + [p])
    {
      forall i | 0 <= i < |c| ensures d[i] == StrippedAt(c, l + [p], i) {
        assert Stripped(c, l)[i] == StrippedAt(c, l, i);
      }
    }

    /** The jump at pc can be sent to its target. */
    static predicate InReach(code: seq<Instr>, pc: int, vtarget: int, dtarget: int) {
      -MAXARG_sBx <= (if IsTestSet(code, pc) then vtarget else dtarget) - (pc + 1) <= MAXARG_sBx
    }

    /** Every jump of the list lands on its value target, or on the default target when it does
        not produce a value; no other instruction changes. */
    method PatchListAux(list: int, ghost l: seq<int>, vtarget: int, reg: nat, dtarget: int)
      returns (o: Outcome)
      requires IsList(code, list, l) && 0 <= vtarget <= |code| && dtarget <= |code|
      requires NeedsValue(code, l) ==> dtarget >= 0
      modifies `code
      ensures |code| == |old(code)|
      ensures o.Pass? ==> code == Patched(old(code), l, vtarget, reg, dtarget)
      ensures o.Pass? <==> forall j :: j in l ==> InReach(old(code), j, vtarget, dtarget)
      ensures o.Fail? ==> o.error == TooLong && |code| > MAXARG_sBx
    {
      hide Patched;
      var p := list;
      ghost var i := 0;
      ghost var c0 := code;
      PatchedNone(c0, vtarget, reg, dtarget);
      assert l[..0] == [];
      while p != NO_JUMP
        invariant 0 <= i <= |l| && p == Link(l, i)
        invariant code == Patched(c0, l[..i], vtarget, reg, dtarget)
        invariant forall j :: j in l[..i] ==> InReach(c0, j, vtarget, dtarget)
        decreases |l| - i
      {
        NextOf(c0, list, l, i);
        PatchAhead(c0, code, l, i, vtarget, reg, dtarget);
        var next := GetJump(code, p);
        :- PatchOne(p, vtarget, reg, dtarget);
        PatchedStep(c0, l[..i], l[i], vtarget, reg, dtarget, code);
        p := next;
        i := i + 1;
      }
      assert l[..i] == l;
      return Pass;
    }

    static lemma PatchedNone(c: seq<Instr>, vt: int, reg: nat, dt: int)
      ensures Patched(c, [], vt, reg, dt) == c
    {
    }

    /** The next jump of the list has not been touched. */
    static lemma PatchAhead(c: seq<Instr>, d: seq<Instr>, l: seq<int>, i: nat, vt: int, reg: nat, dt: int)
      requires i < |l| && (forall j :: j in l ==> 0 <= j < |c| && c[j].Jmp?) && l[i] !in l[..i]
      requires d == Patched(c, l[..i], vt, reg, dt)
      ensures l[i] in l && l[..i + 1] == l[..i] + [l[i]] && d[l[i]] == c[l[i]] && IsTestSet(d, l[i]) == IsTestSet(c, l[i])
    {
      var p := l[i];
      assert p in l;
      assert d[p] == PatchedAt(c, l[..i], vt, reg, dt, p);
      if p >= 1 { assert d[p - 1] == PatchedAt(c, l[..i], vt, reg, dt, p - 1); }
    }

    /** One round of 'patchlistaux'. */
    method PatchOne(p: int, vtarget: int, reg: nat, dtarget: int) returns (o: Outcome)
      requires 0 <= p < |code| && code[p].Jmp?
      requires 0 <= vtarget <= |code| && dtarget <= |code| && (IsTestSet(code, p) || dtarget >= 0)
      modifies `code
      ensures |code| == |old(code)|
      ensures o.Pass? ==> code[p] == Jmp(old(code)[p].close, (if old(IsTestSet(code, p)) then vtarget else dtarget) - (p + 1))
      ensures o.Pass? && old(IsTestSet(code, p)) ==> code[p - 1] == PatchTest(old(code)[p - 1], reg)
      ensures o.Pass? ==> forall i :: 0 <= i < |code| && i != p && !(i == p - 1 && old(IsTestSet(code, p))) ==>
                            code[i] == old(code)[i]
      ensures o.Pass? <==> InReach(old(code), p, vtarget, dtarget)
      ensures o.Fail? ==> o.error == TooLong && |code| > MAXARG_sBx
    {
      var isValue := PatchTestReg(p, reg);
      if isValue {
        :- FixJump(p, vtarget);
      } else {
        :- FixJump(p, dtarget);
      }
      return Pass;
    }

    static lemma PatchedStep(c: seq<Instr>, l: seq<int>, p: int, vt: int, reg: nat, dt: int, d: seq<Instr>)
      requires 0 <= p < |c| && c[p].Jmp? && p !in l && |d| == |c|
      requires forall j :: j in l ==> 0 <= j < |c| && c[j].Jmp?
      requires d[p] == Jmp(c[p].close, (if IsTestSet(c, p) then vt else dt) - (p + 1))
      requires IsTestSet(c, p) ==> d[p - 1] == PatchTest(c[p - 1], reg)
      requires forall i :: 0 <= i < |c| && i != p && !(i == p - 1 && IsTestSet(c, p)) ==>
                 d[i] == Patched(c, l, vt, reg, dt)[i]
      ensures d == Patched(c, l + [p], vt, reg, dt)
    {
      forall i | 0 <= i < |c| ensures d[i] == PatchedAt(c, l + [p], vt, reg, dt, i) {
        if i != p && !(i == p - 1 && IsTestSet(c, p)) {
          assert d[i] == PatchedAt(c, l, vt, reg, dt, i);
        }
      }
    }

    method DischargeJpc() returns (o: Outcome)
      requires IsList(code, jpc, pend)
      modifies `code, `jpc, `open, `pend
      ensures o.Pass? ==> Snap() == Discharged(old(Snap())) && jpc == NO_JUMP
      ensures Limit(o, 0)
    {
      o := Pass;
      :- PatchListAux(jpc, pend, |code|, NO_REG, |code|);
      jpc := NO_JUMP;
      open, pend := open - ToSet(pend), [];
      return Pass;
    }

    method GetLabel() returns (pc: int)
      modifies `lasttarget
      ensures pc == lasttarget == |code|
    {
      lasttarget := |code|;
      return |code|;
    }

    /** The result lists the jumps of the first list, then those of the second; no instruction
        changes except the last link of the first list. */
    method Concat(l1: int, l2: int, ghost a: seq<int>, ghost c: seq<int>) returns (o: Outcome, l: int)
      requires IsList(code, l1, a) && IsList(code, l2, c) && ToSet(a) !! ToSet(c)
      modifies `code
      ensures |code| == |old(code)|
      ensures forall i :: 0 <= i < |code| ==>
                code[i] == old(code)[i] || (a != [] && i == a[|a| - 1] && old(code)[i].Jmp? && code[i].Jmp? &&
                                             code[i].close == old(code)[i].close)
      ensures o.Pass? ==> IsList(code, l, a + c) && (c == [] ==> code == old(code) && l == l1)
      ensures o.Pass? && a == [] ==> l == l2 && code == old(code)
      ensures o.Pass? && a != [] ==> l == l1
      ensures o.Fail? ==> o.error == TooLong && |code| > MAXARG_sBx
    {
      l := l1;
      if l2 == NO_JUMP {
        assert c == [];
        assert a + c == a;
        return Pass, l1;
      } else if l1 == NO_JUMP {
        assert a == [];
        assert a + c == c;
        return Pass, l2;
      } else {
        var list := l1;
        var next := GetJump(code, list);
        ghost var i := 0;
        while next != NO_JUMP
          invariant 0 <= i < |a| && list == a[i]
          invariant next == (if i + 1 < |a| then a[i + 1] else NO_JUMP)
          decreases |a| - i
        {
          list := next;
          next := GetJump(code, list);
          i := i + 1;
        }
        assert i == |a| - 1;
        assert c[0] in c;
        :- FixJump(list, l2);
        JoinLists(old(code), code, a, l1, c, l2);
        return Pass, l1;
      }
    }

    /** 'luaK_code' */
    method Code(i: Instr) returns (o: Outcome, pc: int)
      requires IsList(code, jpc, pend)
      modifies `code, `jpc, `open, `pend
      ensures o.Pass? ==> Snap() == Emit(old(Snap()), i) && jpc == NO_JUMP && pc == |old(code)|
      ensures Limit(o, 0)
    {
      pc := |code|;
      :- DischargeJpc();
      code := code + [i];
      return Pass, |code| - 1;
    }

    /** 'luaK_jump': jumps pending at this point stay on hold with the new jump. */
    method Jump() returns (o: Outcome, j: int)
      requires IsList(code, jpc, pend)
      modifies `code, `jpc, `open, `pend
      ensures o.Pass? ==>
                && |code| == |old(code)| + 1 && code[|old(code)|].Jmp?
                && Snap() == Dangle(old(Snap()), code[|old(code)|].sbx)
                && jpc == NO_JUMP && j == |old(code)|
                && IsList(code, j, [j] + old(pend))
                && (old(pend) == [] ==> code[j].sbx == NO_JUMP && code[j].close == 0)
      ensures Limit(o, 0)
    {
      j := |code|;
      var saved := jpc;
      ghost var held := pend;
      ghost var s0 := Snap();
      jpc, pend := NO_JUMP, [];
      ghost var s1 := Snap();
      DischargedNone(s1);
      j :- Code(Jmp(0, NO_JUMP));
      assert code == s0.code + [Jmp(0, NO_JUMP)] && open == s0.open;
      open := open + {j};
      assert code[j] == Jmp(0, NO_JUMP);
      assert GetJump(code, j) == NO_JUMP;
      assert IsList(code, j, [j]);
      ListKept(s0.code, code, saved, held);
      assert ToSet([j]) !! ToSet(held);
      var l;
      l :- Concat(j, saved, [j], held);
      assert code == s0.code + [code[j]];
      assert Snap() == Dangle(s0, code[j].sbx);
      return Pass, l;
    }

    /** A test followed by a dangling jump. */
    method CondJump(i: Instr) returns (o: Outcome, j: int)
      requires IsList(code, jpc, pend)
      modifies `code, `jpc, `open, `pend
      ensures o.Pass? ==> Snap() == LuaProof.CondJump(old(Snap()), i) && jpc == NO_JUMP
                          && j == |old(code)| + 1 && IsList(code, j, [j])
      ensures Limit(o, 0)
    {
      j := NO_JUMP;
      var _ :- Code(i);
      j :- Jump();
      assert [j] + [] == [j];
      return Pass, j;
    }

    // ----- Registers and constants -----

    method CheckStack(n: nat) returns (o: Outcome)
      modifies `maxstacksize
      ensures o.Fail? <==> freereg + n > old(maxstacksize) && freereg + n >= MAXREGS
      ensures o.Fail? ==> o.error == TooManyRegs && maxstacksize == old(maxstacksize)
      ensures o.Pass? ==> maxstacksize == if freereg + n > old(maxstacksize) then freereg + n else old(maxstacksize)
    {
      var newstack := freereg + n;
      if newstack > maxstacksize {
        if newstack >= MAXREGS {
          return Fail(TooManyRegs);
        }
        maxstacksize := newstack;
      }
      return Pass;
    }

    method ReserveRegs(n: nat) returns (o: Outcome)
      requires maxstacksize < MAXREGS
      modifies `maxstacksize, `freereg
      ensures Limit(o, old(freereg) + n)
      ensures o.Pass? ==> freereg == old(freereg) + n <= maxstacksize < MAXREGS
    {
      o := Pass;
      :- CheckStack(n);
      freereg := freereg + n;
      return Pass;
    }

    method FreeReg(reg: nat)
      requires reg < BITRK && reg >= nactvar ==> reg + 1 == freereg
      modifies `freereg
      ensures freereg == if reg < BITRK && reg >= nactvar then reg else old(freereg)
    {
      if reg < BITRK && reg >= nactvar {
        freereg := freereg - 1;
        assert reg == freereg;
      }
    }

    method FreeExp(e: ExpDesc)
      requires e.k.VNonReloc? && e.k.reg < BITRK && e.k.reg >= nactvar ==> e.k.reg + 1 == freereg
      modifies `freereg
      ensures freereg == if e.k.VNonReloc? && nactvar <= e.k.reg < BITRK then e.k.reg else old(freereg)
    {
      if e.k.VNonReloc? {
        FreeReg(e.k.reg);
      }
    }

    /** A constant index that holds v; existing constants stay where they are. */
    method AddK(v: Value) returns (o: Outcome, idx: nat)
      modifies `k, `cache
      ensures o.Pass? ==> old(k) <= k && idx < |k| && k[idx] == v
      ensures o.Pass? ==> k == old(k) || k == old(k) + [v]
      ensures o.Fail? ==> k == old(k)
      ensures Limit(o, 0)
    {
      idx := 0;
      if v in cache {
        idx := cache[v];
        if idx < |k| && k[idx] == v {
          return Pass, idx;
        }
      }
      idx := |k|;
      cache := cache[v := idx];
      if idx >= MAXARG_Ax {
        return Fail(TooManyConsts), idx;
      }
      k := k + [v];
      return Pass, idx;
    }

    // ----- Putting values into registers -----

    /** The descriptor's register discipline: a temporary is the register just above those in use
        before the expression. */
    ghost predicate RegOK(b: S, e: ExpDesc)
      reads this
    {
      if e.k.VNonReloc? && e.k.reg >= nactvar then e.k.reg == b.freereg && freereg == b.freereg + 1
      else freereg == b.freereg
    }

    lemma EmitKeeps(s: S, e: ExpDesc, b: S, cl: Claim, T: seq<int>, F: seq<int>)
      requires WF(s) && Frame(b, s, Own(cl), T, F) && IsList(s.code, e.t, T) && IsList(s.code, e.f, F)
      requires Discharged(s).code <= code
      ensures IsList(code, e.t, T) && IsList(code, e.f, F)
    {
      ExitsOpen(b, s, Own(cl), T, F);
      EmitLists(s, code, e.t, T);
      EmitLists(s, code, e.f, F);
    }

    method CodeK(reg: nat, idx: nat, ghost b: S, e: ExpDesc, ghost T: seq<int>, ghost F: seq<int>, ghost x: Expr)
      returns (o: Outcome)
      requires Valid() && Sim(b, Snap(), HasValue(VK(idx), -1), T, F, x)
      requires IsList(code, e.t, T) && IsList(code, e.f, F) && reg < NO_REG
      modifies `code, `jpc, `open, `pend
      ensures Limit(o, 0)
      ensures o.Pass? ==> Valid() && Sim(b, Snap(), HasValue(VNonReloc(reg), reg), T, F, x)
      ensures o.Pass? ==> IsList(code, e.t, T) && IsList(code, e.f, F)
    {
      hide Exec, Frame, WF, ClaimWF, SemAt;
      ghost var s := Snap();
      if idx <= MAXARG_Bx {
        var _ :- Code(LoadK(reg, idx));
        EmitLoad(b, s, VK(idx), T, F, x, LoadK(reg, idx), reg);
      } else {
        var _ :- Code(LoadKX(reg));
        ghost var m := Snap();
        var _ :- Code(ExtraArg(idx));
        EmitLoadKX(b, s, idx, T, F, x, reg);
        DischargedNone(m);
        assert Discharged(s).code <= code;
      }
      EmitKeeps(s, e, b, HasValue(VK(idx), -1), T, F);
      return Pass;
    }

    method ExtendNil(pfrom: nat, pl: nat, reg: nat, ghost b: S, e: ExpDesc, ghost T: seq<int>, ghost F: seq<int>, ghost x: Expr)
      requires Valid() && Sim(b, Snap(), HasValue(VNil, -1), T, F, x)
      requires IsList(code, e.t, T) && IsList(code, e.f, F) && reg < NO_REG
      requires |code| > lasttarget && pfrom <= pl && code[|code| - 1] == LoadNil(pfrom, pl - pfrom)
      requires (pfrom <= reg <= pl + 1) || (reg <= pfrom <= reg + 1)
      modifies `code
      ensures Valid() && Sim(b, Snap(), HasValue(VNonReloc(reg), reg), T, F, x)
      ensures IsList(code, e.t, T) && IsList(code, e.f, F)
    {
      hide Sim, Frame;
      ghost var s := Snap();
      SimFacts(b, s, HasValue(VNil, -1), T, F, x);
      var from := if pfrom < reg then pfrom else reg;
      var l := if pl > reg then pl else reg;
      var i := LoadNil(from, l - from);
      MergeNil(b, s, T, F, x, reg, pfrom, pl - pfrom, i);
      code := code[|code| - 1 := i];
      SimFacts(b, Snap(), HasValue(VNonReloc(reg), reg), T, F, x);
      assert pend == [];
      ReplaceLast(s.code, i, e.t, T);
      ReplaceLast(s.code, i, e.f, F);
    }

    static lemma ReplaceLast(code: seq<Instr>, i: Instr, h: int, l: seq<int>)
      requires code != [] && !code[|code| - 1].Jmp? && IsList(code, h, l)
      ensures IsList(code[|code| - 1 := i], h, l)
    {
      ListKept(code, code[|code| - 1 := i], h, l);
    }

    /** 'luaK_nil' for one register: extend a preceding OP_LOADNIL when nothing can jump in
        between. */
    method LoadNilInto(reg: nat, ghost b: S, e: ExpDesc, ghost T: seq<int>, ghost F: seq<int>, ghost x: Expr)
      returns (o: Outcome)
      requires Valid() && Sim(b, Snap(), HasValue(VNil, -1), T, F, x)
      requires IsList(code, e.t, T) && IsList(code, e.f, F) && reg < NO_REG
      modifies `code, `jpc, `open, `pend
      ensures Limit(o, 0)
      ensures o.Pass? ==> Valid() && Sim(b, Snap(), HasValue(VNonReloc(reg), reg), T, F, x)
      ensures o.Pass? ==> IsList(code, e.t, T) && IsList(code, e.f, F)
    {
      hide Exec;
      ghost var s := Snap();
      if |code| > lasttarget && code[|code| - 1].LoadNil? {
        var pfrom := code[|code| - 1].a;
        var pl := pfrom + code[|code| - 1].b;
        if (pfrom <= reg <= pl + 1) || (reg <= pfrom <= reg + 1) {
          ExtendNil(pfrom, pl, reg, b, e, T, F, x);
          return Pass;
        }
      }
      var _ :- Code(LoadNil(reg, 0));
      EmitLoad(b, s, VNil, T, F, x, LoadNil(reg, 0), reg);
      EmitKeeps(s, e, b, HasValue(VNil, -1), T, F);
      return Pass;
    }

    /** Load with one instruction. */
    method Load(d: Kind, i: Instr, reg: nat, ghost b: S, e: ExpDesc, ghost T: seq<int>, ghost F: seq<int>, ghost x: Expr)
      returns (o: Outcome)
      requires Valid() && Sim(b, Snap(), HasValue(d, -1), T, F, x)
      requires IsList(code, e.t, T) && IsList(code, e.f, F) && reg < NO_REG && Loads(Snap(), d, i, reg)
      modifies `code, `jpc, `open, `pend
      ensures Limit(o, 0)
      ensures o.Pass? ==> Valid() && Sim(b, Snap(), HasValue(VNonReloc(reg), reg), T, F, x)
      ensures o.Pass? ==> IsList(code, e.t, T) && IsList(code, e.f, F)
    {
      ghost var s := Snap();
      var _ :- Code(i);
      EmitLoad(b, s, d, T, F, x, i, reg);
      EmitKeeps(s, e, b, HasValue(d, -1), T, F);
      return Pass;
    }

    method LoadNumber(d: Kind, reg: nat, ghost b: S, e: ExpDesc, ghost T: seq<int>, ghost F: seq<int>, ghost x: Expr)
      returns (o: Outcome)
      requires IsNumeral(d) && Valid() && Sim(b, Snap(), HasValue(d, -1), T, F, x)
      requires IsList(code, e.t, T) && IsList(code, e.f, F) && reg < NO_REG
      modifies `code, `jpc, `open, `pend, `k, `cache
      ensures Limit(o, 0)
      ensures o.Pass? ==> Valid() && Sim(b, Snap(), HasValue(VNonReloc(reg), reg), T, F, x)
      ensures o.Pass? ==> IsList(code, e.t, T) && IsList(code, e.f, F)
    {
      ghost var s := Snap();
      var idx :- AddK(NumeralValue(d));
      ToTable(b, s, Snap(), d, idx, T, F, x);
      :- CodeK(reg, idx, b, e, T, F, x);
      return Pass;
    }

    method Relocate(pc: int, reg: nat, ghost b: S, e: ExpDesc, ghost T: seq<int>, ghost F: seq<int>, ghost x: Expr)
      requires Valid() && Sim(b, Snap(), HasValue(VReloc(pc), -1), T, F, x)
      requires IsList(code, e.t, T) && IsList(code, e.f, F) && reg < NO_REG
      modifies `code
      ensures Valid() && Sim(b, Snap(), HasValue(VNonReloc(reg), reg), T, F, x)
      ensures IsList(code, e.t, T) && IsList(code, e.f, F)
    {
      hide Sim, Frame;
      ghost var s := Snap();
      SimFacts(b, s, HasValue(VReloc(pc), -1), T, F, x);
      var i := SetArgA(code[pc], reg);
      SetTarget(b, s, T, F, x, i, reg);
      code := code[pc := i];
      SimFacts(b, Snap(), HasValue(VNonReloc(reg), reg), T, F, x);
      assert pend == [];
      ReplaceLast(s.code, i, e.t, T);
      ReplaceLast(s.code, i, e.f, F);
    }

    /** 'discharge2reg' */
    method Discharge2Reg(e: ExpDesc, reg: nat, ghost b: S, ghost T: seq<int>, ghost F: seq<int>, ghost x: Expr)
      returns (o: Outcome, e': ExpDesc)
      requires Valid() && Sim(b, Snap(), HasValue(e.k, -1), T, F, x)
      requires IsList(code, e.t, T) && IsList(code, e.f, F) && reg < NO_REG
      modifies `code, `jpc, `open, `pend, `k, `cache
      ensures Limit(o, 0)
      ensures o.Pass? && e.k.VJmp? ==> e' == e && Snap() == old(Snap()) && Valid() && Sim(b, Snap(), HasValue(e.k, -1), T, F, x)
      ensures o.Pass? && e.k.VJmp? ==> IsList(code, e.t, T) && IsList(code, e.f, F)
      ensures o.Pass? && !e.k.VJmp? ==> e' == e.(k := VNonReloc(reg))
                                        && Valid() && Sim(b, Snap(), HasValue(VNonReloc(reg), reg), T, F, x)
                                          && IsList(code, e'.t, T) && IsList(code, e'.f, F)
    {
      hide Sim, Frame, WF, IsList, Exec;
      SimFacts(b, Snap(), HasValue(e.k, -1), T, F, x);
      e' := DischargeVars(e);
      if e.k.VLocal? { LocalInRegister(b, Snap(), e.k.reg, T, F, x); }
      SimFacts(b, Snap(), HasValue(e'.k, -1), T, F, x);
      match e'.k {
        case VNil =>
          :- LoadNilInto(reg, b, e', T, F, x);
        case VFalse =>
          :- Load(VFalse, LoadBool(reg, false, false), reg, b, e', T, F, x);
        case VTrue =>
          :- Load(VTrue, LoadBool(reg, true, false), reg, b, e', T, F, x);
        case VK(idx) =>
          :- CodeK(reg, idx, b, e', T, F, x);
        case VKFlt(f) =>
          :- LoadNumber(e'.k, reg, b, e', T, F, x);
        case VKInt(n) =>
          :- LoadNumber(e'.k, reg, b, e', T, F, x);
        case VReloc(pc) =>
          Relocate(pc, reg, b, e', T, F, x);
        case VNonReloc(r) =>
          if reg != r {
            :- Load(VNonReloc(r), Move(reg, r), reg, b, e', T, F, x);
          } else {
            Relabel(b, Snap(), HasValue(VNonReloc(r), -1), HasValue(VNonReloc(r), reg), T, F, x);
          }
        case VLocal(_) =>
        case VJmp(_) => return Pass, e';
      }
      e' := e'.(k := VNonReloc(reg));
      return Pass, e';
    }

    /** 'discharge2anyreg', for anything but a comparison. */
    method Discharge2AnyReg(e: ExpDesc, ghost b: S, ghost T: seq<int>, ghost F: seq<int>, ghost x: Expr)
      returns (o: Outcome, e': ExpDesc)
      requires Valid() && Sim(b, Snap(), HasValue(e.k, -1), T, F, x)
      requires IsList(code, e.t, T) && IsList(code, e.f, F) && RegOK(b, e) && !e.k.VJmp? && !e.k.VLocal?
      modifies this
      ensures Limit(o, b.freereg + 1) && nactvar == old(nactvar)
      ensures o.Pass? ==> e'.k.VNonReloc? && e'.t == e.t && e'.f == e.f && RegOK(b, e')
      ensures o.Pass? ==> Valid() && Sim(b, Snap(), HasValue(e'.k, -1), T, F, x)
      ensures o.Pass? ==> IsList(code, e'.t, T) && IsList(code, e'.f, F)
    {
      e' := e;
      if !e.k.VNonReloc? {
        ghost var s := Snap();
        :- ReserveRegs(1);
        Adjust(b, s, Snap(), HasValue(e.k, -1), T, F, x);
        e' :- Discharge2Reg(e, freereg - 1, b, T, F, x);
        Spare(b, Snap(), e'.k.reg, T, F, x, e'.k.reg, -1);
      }
      return Pass, e';
    }

    /** 'luaK_patchtohere': the list joins the jumps pending at the current position. */
    method PatchToHere(list: int, ghost l: seq<int>) returns (o: Outcome)
      requires IsList(code, jpc, pend) && IsList(code, list, l) && ToSet(pend) !! ToSet(l)
      modifies `code, `jpc, `pend, `lasttarget
      ensures |code| == |old(code)|
      ensures forall i :: 0 <= i < |code| ==>
                code[i] == old(code)[i] ||
                (old(pend) != [] && i == old(pend)[|old(pend)| - 1] && old(code)[i].Jmp? && code[i].Jmp?)
      ensures o.Pass? ==> lasttarget == |code| && pend == old(pend) + l && IsList(code, jpc, pend)
      ensures o.Pass? && (old(pend) == [] || l == []) ==> code == old(code)
      ensures Limit(o, 0)
    {
      var _ := GetLabel();
      jpc :- Concat(jpc, list, pend, l);
      pend := pend + l;
      return Pass;
    }

    /** The two LOADBOOLs of 'exp2reg', skipped by a jump when the value is already in place. */
    method CodeBooleans(falls: bool, reg: nat) returns (o: Outcome, p_f: int, p_t: int)
      requires IsList(code, jpc, pend) && (falls ==> pend == [])
      modifies `code, `jpc, `open, `pend, `lasttarget
      ensures o.Pass? ==>
                && TwoBooleans(old(Snap()), old(Snap()).(code := code, open := open, pend := pend), reg)
                && |code| == |old(code)| + (if falls then 2 else 3)
                && p_f == |code| - 2 && p_t == |code| - 1
                && pend == (if falls then [] else [|old(code)|]) + old(pend)
                && lasttarget == |code| && IsList(code, jpc, pend)
      ensures Limit(o, 0)
    {
      hide Exec, Discharged, Patched, IsList, NoDups;
      p_f, p_t := NO_JUMP, NO_JUMP;
      var fj := NO_JUMP;
      ghost var hold: seq<int> := [];
      ghost var s := Snap();
      if !falls {
        fj :- Jump();
        hold := [fj] + s.pend;
      }
      ghost var s1 := Snap();
      var _ := GetLabel();
      DischargedNone(Snap());
      p_f :- Code(LoadBool(reg, false, true));
      var _ := GetLabel();
      DischargedNone(Snap());
      p_t :- Code(LoadBool(reg, true, false));
      assert code == s1.code + [LoadBool(reg, false, true), LoadBool(reg, true, false)];
      forall j | j in hold ensures j < |code| && code[j] == s1.code[j] {}
      ListKept(s1.code, code, fj, hold);
      :- PatchToHere(fj, hold);
      return Pass, p_f, p_t;
    }

    /** Patch the two exit lists of an expression. */
    method PatchExits(f: int, t: int, ghost F: seq<int>, ghost T: seq<int>, final: int, reg: nat, p_f: int, p_t: int)
      returns (o: Outcome)
      requires IsList(code, f, F) && IsList(code, t, T) && IsList(code, jpc, pend)
      requires ToSet(F) !! ToSet(T) !! ToSet(pend)
      requires p_f >= 0 || !NeedsValue(code, F)
      requires p_t >= 0 || !NeedsValue(code, T)
      requires 0 <= final <= |code| && p_f <= |code| && p_t <= |code|
      modifies `code, `open
      ensures o.Pass? ==> Snap() == BothPatched(old(Snap()), F, T, final, reg, p_f, p_t) && IsList(code, jpc, pend)
      ensures Limit(o, 0)
    {
      ghost var c0 := code;
      :- PatchListAux(f, F, final, reg, p_f);
      ghost var c1 := code;
      forall j | j in T || j in pend ensures c1[j] == c0[j] && IsTestSet(c1, j) == IsTestSet(c0, j) {
        assert j in ToSet(T) || j in ToSet(pend);
        assert j !in F;
        PatchedKept(c0, F, [], final, reg, p_f, p_t, j);
        PatchedNone(c1, final, reg, p_t);
      }
      ListKept(c0, c1, t, T);
      ListKept(c0, c1, jpc, pend);
      assert NeedsValue(c1, T) ==> NeedsValue(c0, T);
      :- PatchListAux(t, T, final, reg, p_t);
      forall j | j in pend ensures code[j] == c1[j] {
        assert j in ToSet(pend);
        assert j !in T;
        assert code[j] == PatchedAt(c1, T, final, reg, p_t, j);
      }
      ListKept(c1, code, jpc, pend);
      open := open - ToSet(F) - ToSet(T);
      return Pass;
    }

    /** Some exit needs an explicit boolean. */
    method MaterializeJumps(e: ExpDesc, reg: nat, ghost b: S, ghost cl: Claim, ghost T: seq<int>, ghost F: seq<int>, ghost x: Expr)
      returns (o: Outcome)
      requires cl == if e.k.VJmp? then FallsFalse else HasValue(VNonReloc(reg), reg)
      requires Valid() && Sim(b, Snap(), cl, T, F, x)
      requires IsList(code, e.t, T) && IsList(code, e.f, F) && reg < NO_REG && (e.k.VJmp? ==> pend == [])
      modifies `code, `jpc, `open, `pend, `lasttarget
      ensures Limit(o, 0)
      ensures o.Pass? ==> Valid() && Sim(b, Snap(), HasValue(VNonReloc(reg), reg), [], [], x)
    {
      hide Sim, Frame, IsList, BothPatched, NeedsValue, WF, ClaimWF, TwoBooleans, Patched, PatchedAt, ToSet;
      ghost var s := Snap();
      SimFacts(b, s, cl, T, F, x);
      var p_f, p_t :- CodeBooleans(e.k.VJmp?, reg);
      ghost var m := s.(code := code, open := open, pend := pend);
      BooleansKeepLists(s, m, reg, e.t, T);
      BooleansKeepLists(s, m, reg, e.f, F);
      PendApart(b, s, m, T, F);
      ghost var d := MaterializeSim(b, s, m, cl, T, F, x, reg);
      var final := GetLabel();
      :- PatchExits(e.f, e.t, F, T, final, reg, p_f, p_t);
      assert Snap() == d;
      SimFacts(b, d, HasValue(VNonReloc(reg), reg), [], [], x);
      return Pass;
    }

    static lemma MaterializeSim(b: S, s: S, m: S, cl: Claim, T: seq<int>, F: seq<int>, x: Expr, reg: nat) returns (d: S)
      requires Sim(b, s, cl, T, F, x) && reg < NO_REG && TwoBooleans(s, m, reg)
      requires cl == FallsFalse || cl == HasValue(VNonReloc(reg), reg)
      requires |m.code| == if cl == FallsFalse then |s.code| + 2 else |s.code| + 3
      requires cl == FallsFalse ==> s.pend == []
      requires m.pend == (if cl == FallsFalse then [] else [|s.code|]) + s.pend
      ensures Sim(b, d, HasValue(VNonReloc(reg), reg), [], [], x)
      ensures var n := |m.code|;
              d == BothPatched(m.(lasttarget := n), F, T, n, reg, n - 2, n - 1)
    {
      Materialize(b, s, m, cl, T, F, x, reg, m.pend);
      d := Materialized(m, T, F, reg, m.pend);
    }

    /** Every exit carries its value. */
    method CloseValues(e: ExpDesc, reg: nat, ghost b: S, ghost T: seq<int>, ghost F: seq<int>, ghost x: Expr)
      returns (o: Outcome)
      requires Valid() && Sim(b, Snap(), HasValue(VNonReloc(reg), reg), T, F, x)
      requires IsList(code, e.t, T) && IsList(code, e.f, F) && reg < NO_REG
      requires !NeedsValue(code, T) && !NeedsValue(code, F)
      modifies `code, `jpc, `open, `pend, `lasttarget
      ensures Limit(o, 0)
      ensures o.Pass? ==> Valid() && Sim(b, Snap(), HasValue(VNonReloc(reg), reg), [], [], x)
    {
      hide Frame, WF, ClaimWF, IsList, Good, SemAt, Patched;
      ghost var s := Snap();
      PendApart(b, s, s, T, F);
      var final := GetLabel();
      :- PatchExits(e.f, e.t, F, T, final, reg, NO_JUMP, NO_JUMP);
      CloseExits(b, s, T, F, x, reg);
      assert Snap() == Closed(s, T, F, reg);
      return Pass;
    }

    /** 'exp2reg' once the value without jumps is placed. */
    method CloseJumps(e: ExpDesc, reg: nat, ghost b: S, ghost cl: Claim, ghost T: seq<int>, ghost F: seq<int>, ghost x: Expr)
      returns (o: Outcome)
      requires e.k.VJmp? || e.k == VNonReloc(reg)
      requires cl == if e.k.VJmp? then FallsFalse else HasValue(VNonReloc(reg), reg)
      requires Valid() && Sim(b, Snap(), cl, T, F, x)
      requires IsList(code, e.t, T) && IsList(code, e.f, F) && reg < NO_REG
      requires e.k.VJmp? ==> pend == [] && NeedsValue(code, T)
      modifies `code, `jpc, `open, `pend, `lasttarget
      ensures Limit(o, 0)
      ensures o.Pass? ==> Valid() && Sim(b, Snap(), HasValue(VNonReloc(reg), reg), [], [], x)
    {
      ExitsOpen(b, Snap(), {}, T, F);
      NoJumps(code, e, T, F);
      if HasJumps(e) {
        var nt := NeedValue(e.t, T);
        var nf := NeedValue(e.f, F);
        if nt || nf {
          :- MaterializeJumps(e, reg, b, cl, T, F, x);
        } else {
          :- CloseValues(e, reg, b, T, F, x);
        }
      }
      return Pass;
    }

    static lemma BooleansKeepLists(s: S, m: S, reg: nat, h: int, l: seq<int>)
      requires TwoBooleans(s, m, reg) && IsList(s.code, h, l)
      ensures IsList(m.code, h, l)
    {
      forall j | j in l ensures j < |m.code| && m.code[j] == s.code[j] {}
      ListKept(s.code, m.code, h, l);
    }

    static lemma PendApart(b: S, s: S, m: S, T: seq<int>, F: seq<int>)
      requires WF(s) && Frame(b, s, {}, T, F)
      requires m.pend == s.pend || m.pend == [|s.code|] + s.pend
      ensures ToSet(F) !! ToSet(T) !! ToSet(m.pend)
    {
      ExitsOpen(b, s, {}, T, F);
      forall j | j in m.pend ensures j !in T && j !in F {
        if j in s.pend { assert j in ToSet(s.pend); } else { assert j == |s.code| && j !in s.open; }
      }
    }

    /** 'exp2reg': the value of e, jumps included, ends up in register reg. */
    method Exp2Reg(e: ExpDesc, reg: nat, ghost b: S, ghost T: seq<int>, ghost F: seq<int>, ghost x: Expr)
      returns (o: Outcome, e': ExpDesc)
      requires Valid() && Sim(b, Snap(), HasValue(e.k, -1), T, F, x)
      requires IsList(code, e.t, T) && IsList(code, e.f, F) && reg < NO_REG
      modifies `code, `jpc, `open, `pend, `k, `cache, `lasttarget
      ensures Limit(o, 0)
      ensures o.Pass? ==> e' == ExpDesc(VNonReloc(reg), NO_JUMP, NO_JUMP)
      ensures o.Pass? ==> Valid() && Sim(b, Snap(), HasValue(VNonReloc(reg), reg), [], [], x)
      ensures o.Pass? ==> IsList(code, e'.t, []) && IsList(code, e'.f, [])
    {
      e' :- Discharge2Reg(e, reg, b, T, F, x);
      if e'.k.VJmp? {
        :- Exp2RegJmp(e', reg, b, T, F, x);
      } else {
        :- CloseJumps(e', reg, b, HasValue(VNonReloc(reg), reg), T, F, x);
      }
      return Pass, ExpDesc(VNonReloc(reg), NO_JUMP, NO_JUMP);
    }

    method Exp2RegJmp(e: ExpDesc, reg: nat, ghost b: S, ghost T: seq<int>, ghost F: seq<int>, ghost x: Expr)
      returns (o: Outcome)
      requires e.k.VJmp? && Valid() && Sim(b, Snap(), HasValue(e.k, -1), T, F, x)
      requires IsList(code, e.t, T) && IsList(code, e.f, F) && reg < NO_REG
      modifies `code, `jpc, `open, `pend, `lasttarget
      ensures Limit(o, 0)
      ensures o.Pass? ==> Valid() && Sim(b, Snap(), HasValue(VNonReloc(reg), reg), [], [], x)
    {
      ghost var s := Snap();
      var j := e.k.pc;
      JmpList(b, s, e.k, T, F, x);
      JmpOpen(b, s, T, F, x);
      var l;
      l :- Concat(e.t, j, T, [j]);
      FalseList(b, s, e.f, T, F, x, j);
      :- CloseJumps(e.(t := l), reg, b, FallsFalse, T + [j], F, x);
      return Pass;
    }

    static lemma JmpList(b: S, s: S, d: Kind, T: seq<int>, F: seq<int>, x: Expr)
      requires d.VJmp? && Sim(b, s, HasValue(d, -1), T, F, x)
      ensures d.pc == |s.code| - 1 && d.pc >= 1 && s.code[d.pc - 1].Cmp? && s.pend == []
      ensures IsList(s.code, d.pc, [d.pc]) && ToSet(T) !! ToSet([d.pc]) && ToSet(F) !! ToSet([d.pc])
      ensures d.pc !in F && d.pc !in T && ToSet(T) !! ToSet(F)
    {
      ExitsOpen(b, s, {d.pc}, T, F);
      assert GetJump(s.code, d.pc) == NO_JUMP;
    }

    /** The jump of a comparison joined the list of true exits. */
    lemma FalseList(b: S, s: S, f: int, T: seq<int>, F: seq<int>, x: Expr, j: int)
      requires s.code != [] && j == |s.code| - 1 && Sim(b, s, FallsFalse, T + [j], F, x)
      requires Snap() == s.(code := code) && |code| == |s.code| && IsList(s.code, f, F)
      requires j >= 1 && s.code[j - 1].Cmp? && ToSet(T) !! ToSet(F) && j !in F && s.pend == [] && jpc == NO_JUMP
      requires forall i :: 0 <= i < |code| ==>
                 code[i] == s.code[i] || (T != [] && i == T[|T| - 1] && s.code[i].Jmp? && code[i].Jmp?)
      requires freereg <= maxstacksize < MAXREGS
      ensures Valid() && Sim(b, Snap(), FallsFalse, T + [j], F, x) && IsList(code, f, F)
      ensures NeedsValue(code, T + [j])
    {
      var T1 := T + [j];
      forall i | i in F ensures code[i] == s.code[i] { assert i in ToSet(F); assert i !in T; }
      ListKept(s.code, code, f, F);
      Relink(b, s, Snap(), FallsFalse, T1, F, T1, F, x);
      assert j in T1 && !IsTestSet(code, j);
    }

    /** 'luaK_exp2nextreg' */
    method Exp2NextReg(e: ExpDesc, ghost b: S, ghost T: seq<int>, ghost F: seq<int>, ghost x: Expr)
      returns (o: Outcome, e': ExpDesc)
      requires Valid() && Sim(b, Snap(), HasValue(e.k, -1), T, F, x)
      requires IsList(code, e.t, T) && IsList(code, e.f, F) && RegOK(b, e)
      modifies this
      ensures Limit(o, b.freereg + 1) && nactvar == old(nactvar)
      ensures o.Pass? ==> e' == ExpDesc(VNonReloc(b.freereg), NO_JUMP, NO_JUMP) && freereg == b.freereg + 1
      ensures o.Pass? ==> Valid() && Sim(b, Snap(), HasValue(e'.k, -1), [], [], x)
      ensures o.Pass? ==> IsList(code, e'.t, []) && IsList(code, e'.f, [])
    {
      hide Sim, Frame, WF, ClaimWF, IsList, Exec;
      e' := DischargeVars(e);
      ghost var s := Snap();
      SimFacts(b, s, HasValue(e.k, -1), T, F, x);
      if e.k.VLocal? { LocalInRegister(b, s, e.k.reg, T, F, x); }
      SimFacts(b, s, HasValue(e'.k, -1), T, F, x);
      FreeExp(e');
      :- ReserveRegs(1);
      Adjust(b, s, Snap(), HasValue(e'.k, -1), T, F, x);
      SimFacts(b, Snap(), HasValue(e'.k, -1), T, F, x);
      e' :- Exp2Reg(e', freereg - 1, b, T, F, x);
      Spare(b, Snap(), b.freereg, [], [], x, b.freereg, -1);
      return Pass, e';
    }

    /** 'luaK_exp2anyreg' */
    method Exp2AnyReg(e: ExpDesc, ghost b: S, ghost T: seq<int>, ghost F: seq<int>, ghost x: Expr)
      returns (o: Outcome, e': ExpDesc)
      requires Valid() && Sim(b, Snap(), HasValue(e.k, -1), T, F, x)
      requires IsList(code, e.t, T) && IsList(code, e.f, F) && RegOK(b, e)
      modifies this
      ensures Limit(o, b.freereg + 1) && nactvar == old(nactvar)
      ensures o.Pass? ==> e'.k.VNonReloc? && e'.t == NO_JUMP && e'.f == NO_JUMP && RegOK(b, e')
      ensures o.Pass? ==> Valid() && Sim(b, Snap(), HasValue(e'.k, -1), [], [], x)
      ensures o.Pass? ==> IsList(code, e'.t, []) && IsList(code, e'.f, []) && IsOperand(e'.k, e'.k.reg, freereg)
      ensures o.Pass? && e.k.VNonReloc? && !HasJumps(e) ==> e' == e && Snap() == old(Snap())
    {
      hide Sim, Frame, WF, ClaimWF, IsList;
      e' := DischargeVars(e);
      SimFacts(b, Snap(), HasValue(e.k, -1), T, F, x);
      if e.k.VLocal? { LocalInRegister(b, Snap(), e.k.reg, T, F, x); }
      SimFacts(b, Snap(), HasValue(e'.k, -1), T, F, x);
      ExitsOpen(b, Snap(), Own(HasValue(e'.k, -1)), T, F);
      NoJumps(code, e', T, F);
      if e'.k.VNonReloc? {
        if !HasJumps(e') {
          return Pass, e';
        }
        if e'.k.reg >= nactvar {
          var reg := e'.k.reg;
          e' :- Exp2Reg(e', reg, b, T, F, x);
          Spare(b, Snap(), reg, [], [], x, reg, -1);
          return Pass, e';
        }
      }
      e' :- Exp2NextReg(e', b, T, F, x);
      return Pass, e';
    }

    /** 'luaK_exp2RK': a register or a constant that fits an RK field. */
    method Exp2RK(e: ExpDesc, ghost b: S, ghost T: seq<int>, ghost F: seq<int>, ghost x: Expr)
      returns (o: Outcome, e': ExpDesc, rk: nat)
      requires Valid() && Sim(b, Snap(), HasValue(e.k, -1), T, F, x)
      requires IsList(code, e.t, T) && IsList(code, e.f, F) && RegOK(b, e)
      modifies this
      ensures Limit(o, b.freereg + 1) && nactvar == old(nactvar)
      ensures o.Pass? ==> e'.t == NO_JUMP && e'.f == NO_JUMP && RegOK(b, e') && IsOperand(e'.k, rk, freereg)
      ensures o.Pass? ==> Valid() && Sim(b, Snap(), HasValue(e'.k, -1), [], [], x)
      ensures o.Pass? ==> IsList(code, e'.t, []) && IsList(code, e'.f, [])
    {
      hide Sim, Frame, WF, ClaimWF, IsList, Exec, Eval;
      e', rk := DischargeVars(e), 0;
      SimFacts(b, Snap(), HasValue(e.k, -1), T, F, x);
      if e.k.VLocal? { LocalInRegister(b, Snap(), e.k.reg, T, F, x); }
      SimFacts(b, Snap(), HasValue(e'.k, -1), T, F, x);
      ExitsOpen(b, Snap(), Own(HasValue(e'.k, -1)), T, F);
      NoJumps(code, e', T, F);
      ghost var s := Snap();
      if HasJumps(e') {
        e' :- Exp2AnyReg(e', b, T, F, x);
        return Pass, e', e'.k.reg;
      }
      if (e'.k.VTrue? || e'.k.VFalse? || e'.k.VNil?) && |k| <= MAXINDEXRK {
        var v := if e'.k.VNil? then Nil else Bool(e'.k.VTrue?);
        var idx :- AddK(v);
        ToTable(b, s, Snap(), e'.k, idx, [], [], x);
        SimFacts(b, Snap(), HasValue(VK(idx), -1), [], [], x);
        e' := e'.(k := VK(idx));
        return Pass, e', BITRK + idx;
      }
      if IsNumeral(e'.k) {
        var idx :- AddK(NumeralValue(e'.k));
        ToTable(b, s, Snap(), e'.k, idx, [], [], x);
        SimFacts(b, Snap(), HasValue(VK(idx), -1), [], [], x);
        e' := e'.(k := VK(idx));
      }
      if e'.k.VK? && e'.k.idx <= MAXINDEXRK {
        return Pass, e', BITRK + e'.k.idx;
      }
      e' :- Exp2AnyReg(e', b, [], [], x);
      return Pass, e', e'.k.reg;
    }

    // ----- Control -----

    /** A constant descriptor in the table is a string. */
    ghost predicate Plain(e: ExpDesc)
      reads this
    {
      e.k.VK? ==> e.k.idx < |k| && k[e.k.idx].Str?
    }

    /** 'invertjump' on the comparison that ends the code. */
    method InvertJump(j: int)
      requires |code| >= 2 && j == |code| - 1 && code[j - 1].Cmp?
      modifies `code
      ensures Snap() == Inverted(old(Snap()))
    {
      var c := JumpControl(j);
      var i := code[c];
      code := code[c := Cmp(i.cmp, !i.want, i.b, i.c)];
    }

    lemma InvertKeeps(s: S, e: ExpDesc, T: seq<int>, F: seq<int>, h: int, l: seq<int>)
      requires IsList(s.code, h, l)
      requires |s.code| >= 2 && s.code[|s.code| - 2].Cmp? && code == Inverted(s).code
      requires IsList(s.code, e.t, T) && IsList(s.code, e.f, F) && IsList(s.code, jpc, pend)
      ensures IsList(code, e.t, T) && IsList(code, e.f, F) && IsList(code, jpc, pend) && IsList(code, h, l)
    {
      ListKept(s.code, code, h, l);
      ListKept(s.code, code, e.t, T);
      ListKept(s.code, code, e.f, F);
      ListKept(s.code, code, jpc, pend);
    }

    lemma CondJumpKeeps(s: S, i: Instr, e: ExpDesc, b: S, T: seq<int>, F: seq<int>)
      requires WF(s) && Frame(b, s, {}, T, F) && IsList(s.code, e.t, T) && IsList(s.code, e.f, F)
      requires code == LuaProof.CondJump(s, i).code
      ensures IsList(code, e.t, T) && IsList(code, e.f, F)
    {
      EmitKeeps(s, e, b, IsTrue, T, F);
    }

    /** 'jumponcond': jump if the value is 'cond'. */
    method JumpOnCond(e: ExpDesc, cond: bool, ghost b: S, ghost T: seq<int>, ghost F: seq<int>, ghost x: Expr)
      returns (o: Outcome, j: int)
      requires Valid() && Sim(b, Snap(), HasValue(e.k, -1), T, F, x)
      requires IsList(code, e.t, T) && IsList(code, e.f, F) && RegOK(b, e) && !e.k.VJmp? && !e.k.VLocal?
      modifies this
      ensures Limit(o, b.freereg + 1) && nactvar == old(nactvar)
      ensures o.Pass? ==>
                && Valid() && freereg == b.freereg && IsList(code, j, [j])
                && IsList(code, e.t, T) && IsList(code, e.f, F)
                && Sim(b, Snap(), if cond then IsFalse else IsTrue,
                       if cond then T + [j] else T, if cond then F else F + [j], x)
    {
      hide Sim, Frame, WF, ClaimWF, IsList, Exec;
      j := NO_JUMP;
      SimFacts(b, Snap(), HasValue(e.k, -1), T, F, x);
      if e.k.VReloc? {
        var ie := code[e.k.pc];
        if ie.Not? {
          j :- JumpOnNot(e, cond, b, T, F, x);
          return Pass, j;
        }
      }
      var e1 :- Discharge2AnyReg(e, b, T, F, x);
      j :- JumpOnRegister(e1, cond, b, T, F, x);
      return Pass, j;
    }

    /** The value is in a register. */
    method JumpOnRegister(e: ExpDesc, cond: bool, ghost b: S, ghost T: seq<int>, ghost F: seq<int>, ghost x: Expr)
      returns (o: Outcome, j: int)
      requires Valid() && Sim(b, Snap(), HasValue(e.k, -1), T, F, x) && e.k.VNonReloc?
      requires IsList(code, e.t, T) && IsList(code, e.f, F) && RegOK(b, e)
      modifies this
      ensures Limit(o, b.freereg + 1) && nactvar == old(nactvar)
      ensures o.Pass? ==>
                && Valid() && freereg == b.freereg && IsList(code, j, [j])
                && IsList(code, e.t, T) && IsList(code, e.f, F)
                && Sim(b, Snap(), if cond then IsFalse else IsTrue,
                       if cond then T + [j] else T, if cond then F else F + [j], x)
    {
      hide Sim, Frame, WF, ClaimWF, IsList, Exec;
      j := NO_JUMP;
      ghost var s := Snap();
      SimFacts(b, s, HasValue(e.k, -1), T, F, x);
      FreeExp(e);
      Adjust(b, s, Snap(), HasValue(e.k, -1), T, F, x);
      ghost var s1 := Snap();
      SimFacts(b, s1, HasValue(e.k, -1), T, F, x);
      var i := TestSet(NO_REG, e.k.reg, cond);
      TestRegister(b, s1, e.k.reg, -1, T, F, x, cond);
      j :- CondJump(i);
      CondJumpKeeps(s1, i, e, b, T, F);
      EmptyList(code, jpc, pend);
      SimFacts(b, Snap(), if cond then IsFalse else IsTrue,
               if cond then T + [j] else T, if cond then F else F + [j], x);
      return Pass, j;
    }

    method JumpOnNot(e: ExpDesc, cond: bool, ghost b: S, ghost T: seq<int>, ghost F: seq<int>, ghost x: Expr)
      returns (o: Outcome, j: int)
      requires Valid() && Sim(b, Snap(), HasValue(e.k, -1), T, F, x)
      requires IsList(code, e.t, T) && IsList(code, e.f, F) && RegOK(b, e)
      requires e.k.VReloc? && code[e.k.pc].Not?
      modifies `code, `jpc, `open, `pend
      ensures Limit(o, 0)
      ensures o.Pass? ==>
                && Valid() && freereg == b.freereg && IsList(code, j, [j])
                && IsList(code, e.t, T) && IsList(code, e.f, F)
                && Sim(b, Snap(), if cond then IsFalse else IsTrue,
                       if cond then T + [j] else T, if cond then F else F + [j], x)
    {
      hide Sim, Frame, WF, ClaimWF, IsList;
      ghost var s := Snap();
      SimFacts(b, s, HasValue(e.k, -1), T, F, x);
      j := NO_JUMP;
      var ie := code[e.k.pc];
      var n := |code| - 1;
      TestNegated(b, s, T, F, x, cond);
      code := code[..n];
      ghost var m := Snap();
      DropLast(b, s, m, T, F, e);
      EmptyList(s.code, jpc, pend);
      EmptyList(code, jpc, pend);
      j :- CondJump(Test(ie.b, !cond));
      CondJumpKeeps(m, Test(ie.b, !cond), e, b, T, F);
      EmptyList(code, jpc, pend);
      SimFacts(b, Snap(), if cond then IsFalse else IsTrue,
               if cond then T + [j] else T, if cond then F else F + [j], x);
      return Pass, j;
    }

    static lemma DropLast(b: S, s: S, m: S, T: seq<int>, F: seq<int>, e: ExpDesc)
      requires s.code != [] && ClaimWF(s, HasValue(VReloc(|s.code| - 1), -1)) && WF(s) && Frame(b, s, {}, T, F)
      requires |b.code| < |s.code| && m == s.(code := s.code[..|s.code| - 1])
      requires IsList(s.code, e.t, T) && IsList(s.code, e.f, F)
      ensures WF(m) && Frame(b, m, {}, T, F) && m.pend == []
      ensures IsList(m.code, e.t, T) && IsList(m.code, e.f, F)
    {
      forall j | j in s.open ensures j < |m.code| && m.code[j] == s.code[j] { assert s.code[j].Jmp?; }
      forall j | j in T || j in F ensures j < |m.code| { assert s.code[j].Jmp?; }
      ListKept(s.code, m.code, e.t, T);
      ListKept(s.code, m.code, e.f, F);
      forall j | j in Outer(b) ensures Kept(b, m, j) { assert Kept(b, s, j); }
    }

    /** End of 'luaK_goiftrue' and 'luaK_goiffalse': the new jump joins the exits that stay open,
        the other exits come here. */
    method Decide(stay: int, j: int, here: int, ghost cl: Claim, ghost T: seq<int>, ghost F: seq<int>,
                  ghost b: S, ghost K: seq<int>, ghost J: seq<int>, ghost H: seq<int>, ghost x: Expr)
      returns (o: Outcome, l: int)
      requires Valid() && IsList(code, stay, K) && IsList(code, j, J) && IsList(code, here, H)
      requires (cl == IsTrue && T == H && F == K + J) || (cl == IsFalse && T == K + J && F == H)
      requires Sim(b, Snap(), cl, T, F, x)
      modifies `code, `jpc, `pend, `lasttarget
      ensures Limit(o, 0)
      ensures o.Pass? ==> Valid() && IsList(code, l, K + J)
      ensures o.Pass? ==> Sim(b, Snap(), cl, if cl.IsTrue? then [] else T, if cl.IsTrue? then F else [], x)
    {
      hide Sim, Frame, IsList, Exec, WF, ClaimWF;
      ghost var s := Snap();
      l := NO_JUMP;
      SimFacts(b, s, cl, T, F, x);
      DecideApart(b, s, T, F, K, J, H);
      l :- Concat(stay, j, K, J);
      ghost var c1 := code;
      ListKeptOff(s.code, code, here, H, K);
      ListKeptOff(s.code, code, jpc, pend, K);
      :- PatchToHere(here, H);
      ListKeptOff(c1, code, l, K + J, s.pend);
      DecideSim(b, s, c1, code, cl, T, F, K, J, H, x);
      assert Snap() == s.(code := code, pend := s.pend + H, lasttarget := |s.code|);
      return Pass, l;
    }

    static lemma DecideSim(b: S, s: S, c1: seq<Instr>, c2: seq<Instr>, cl: Claim, T: seq<int>, F: seq<int>,
                           K: seq<int>, J: seq<int>, H: seq<int>, x: Expr)
      requires (cl == IsTrue && T == H && F == K + J) || (cl == IsFalse && T == K + J && F == H)
      requires Sim(b, s, cl, T, F, x) && |c1| == |s.code| && |c2| == |c1|
      requires forall i :: 0 <= i < |c1| ==>
                 c1[i] == s.code[i] || (K != [] && i == K[|K| - 1] && s.code[i].Jmp? && c1[i].Jmp?)
      requires forall i :: 0 <= i < |c1| ==>
                 c2[i] == c1[i] || (s.pend != [] && i == s.pend[|s.pend| - 1] && c1[i].Jmp? && c2[i].Jmp?)
      ensures var d := s.(code := c2, pend := s.pend + H, lasttarget := |s.code|);
              WF(d) && Sim(b, d, cl, if cl.IsTrue? then [] else T, if cl.IsTrue? then F else [], x)
    {
      hide Sim;
      SimFacts(b, s, cl, T, F, x);
      var s1, s2 := s.(code := c1), s.(code := c2);
      assert K != [] ==> K[|K| - 1] in K + J by { if K != [] { assert (K + J)[|K| - 1] == K[|K| - 1]; } }
      Relink(b, s, s1, cl, T, F, T, F, x);
      Relink(b, s1, s2, cl, T, F, T, F, x);
      ToHere(b, s2, T, F, x, cl);
      SimFacts(b, s.(code := c2, pend := s.pend + H, lasttarget := |s.code|), cl,
               if cl.IsTrue? then [] else T, if cl.IsTrue? then F else [], x);
    }

    static lemma DecideApart(b: S, s: S, T: seq<int>, F: seq<int>, K: seq<int>, J: seq<int>, H: seq<int>)
      requires Frame(b, s, {}, T, F) && ((T == H && F == K + J) || (T == K + J && F == H))
      ensures ToSet(K) !! ToSet(J) && ToSet(s.pend) !! ToSet(H)
      ensures ToSet(H) !! ToSet(K) && ToSet(s.pend) !! ToSet(K) && ToSet(s.pend) !! ToSet(K + J)
    {
      ExitsOpen(b, s, {}, T, F);
      var L := K + J;
      forall y | y in K ensures y in ToSet(L) { assert y in L; }
      forall y | y in J ensures y in ToSet(L) { assert y in L; }
      forall y | y in K ensures y !in J {
        var i :| 0 <= i < |K| && K[i] == y;
        assert L[i] == y;
        forall n | 0 <= n < |J| ensures J[n] != y { assert L[|K| + n] == J[n]; }
      }
    }

    static lemma ListKeptOff(c: seq<Instr>, d: seq<Instr>, h: int, l: seq<int>, m: seq<int>)
      requires IsList(c, h, l) && |d| == |c| && ToSet(l) !! ToSet(m)
      requires forall i :: 0 <= i < |c| ==> d[i] == c[i] || (m != [] && i == m[|m| - 1])
      ensures IsList(d, h, l)
    {
      forall j | j in l ensures d[j] == c[j] {
        assert j in ToSet(l);
        if m != [] { assert m[|m| - 1] in ToSet(m); }
      }
      ListKept(c, d, h, l);
    }

    /** 'luaK_goiftrue': control falls through exactly when the expression is true, and leaves
        through e'.f otherwise; no exit is left in e'.t. */
    method GoIfTrue(e: ExpDesc, ghost b: S, ghost T: seq<int>, ghost F: seq<int>, ghost x: Expr)
      returns (o: Outcome, e': ExpDesc, ghost L: seq<int>)
      requires Valid() && Sim(b, Snap(), HasValue(e.k, -1), T, F, x)
      requires IsList(code, e.t, T) && IsList(code, e.f, F) && RegOK(b, e) && Plain(e)
      modifies this
      ensures Limit(o, b.freereg + 1) && nactvar == old(nactvar)
      ensures o.Pass? ==> e'.t == NO_JUMP && freereg == b.freereg && Valid() && Sim(b, Snap(), IsTrue, [], L, x)
      ensures o.Pass? ==> IsList(code, e'.t, []) && IsList(code, e'.f, L)
    {
      hide Sim, Frame, WF, ClaimWF, IsList;
      e', L := DischargeVars(e), [];
      SimFacts(b, Snap(), HasValue(e.k, -1), T, F, x);
      if e.k.VLocal? { LocalInRegister(b, Snap(), e.k.reg, T, F, x); }
      SimFacts(b, Snap(), HasValue(e'.k, -1), T, F, x);
      var j := NO_JUMP;
      ghost var s := Snap();
      ghost var J: seq<int> := [];
      if e'.k.VJmp? {
        j := e'.k.pc;
        JmpList(b, s, e'.k, T, F, x);
        JmpIfFalse(b, s, T, F, x);
        InvertJump(j);
        InvertKeeps(s, e', T, F, j, [j]);
        J := [j];
        SimFacts(b, Snap(), IsTrue, T, F + J, x);
      } else if e'.k.VK? || e'.k.VKFlt? || e'.k.VKInt? || e'.k.VTrue? {
        KnownTruth(b, s, e'.k, T, F, x);
        assert F + J == F;
        EmptyList(code, j, J);
        SimFacts(b, s, IsTrue, T, F, x);
      } else {
        j :- JumpOnCond(e', false, b, T, F, x);
        J := [j];
      }
      var l :- Decide(e'.f, j, e'.t, IsTrue, T, F + J, b, F, J, T, x);
      L := F + J;
      EmptyList(code, NO_JUMP, []);
      e' := ExpDesc(e'.k, NO_JUMP, l);
      return Pass, e', L;
    }

    /** Constants whose truth is known to the generator. */
    static lemma KnownTruth(b: S, s: S, d: Kind, T: seq<int>, F: seq<int>, x: Expr)
      requires Sim(b, s, HasValue(d, -1), T, F, x)
      requires d.VK? ==> Truthy(s.k[d.idx])
      ensures d.VTrue? || d.VK? || d.VKInt? || d.VKFlt? ==> Sim(b, s, IsTrue, T, F, x)
      ensures d.VNil? || d.VFalse? ==> Sim(b, s, IsFalse, T, F, x)
    {
      if d.VTrue? || d.VK? || d.VKInt? || d.VKFlt? {
        Relabel(b, s, HasValue(d, -1), IsTrue, T, F, x);
      } else if d.VNil? || d.VFalse? {
        Relabel(b, s, HasValue(d, -1), IsFalse, T, F, x);
      }
    }

    /** 'luaK_goiffalse', dually. */
    method GoIfFalse(e: ExpDesc, ghost b: S, ghost T: seq<int>, ghost F: seq<int>, ghost x: Expr)
      returns (o: Outcome, e': ExpDesc, ghost L: seq<int>)
      requires Valid() && Sim(b, Snap(), HasValue(e.k, -1), T, F, x)
      requires IsList(code, e.t, T) && IsList(code, e.f, F) && RegOK(b, e) && Plain(e)
      modifies this
      ensures Limit(o, b.freereg + 1) && nactvar == old(nactvar)
      ensures o.Pass? ==> e'.f == NO_JUMP && freereg == b.freereg && Valid() && Sim(b, Snap(), IsFalse, L, [], x)
      ensures o.Pass? ==> IsList(code, e'.t, L) && IsList(code, e'.f, [])
    {
      hide Sim, Frame, WF, ClaimWF, IsList;
      e', L := DischargeVars(e), [];
      SimFacts(b, Snap(), HasValue(e.k, -1), T, F, x);
      if e.k.VLocal? { LocalInRegister(b, Snap(), e.k.reg, T, F, x); }
      SimFacts(b, Snap(), HasValue(e'.k, -1), T, F, x);
      var j := NO_JUMP;
      ghost var s := Snap();
      ghost var J: seq<int> := [];
      if e'.k.VJmp? {
        j := e'.k.pc;
        JmpList(b, s, e'.k, T, F, x);
        JmpIfTrue(b, s, T, F, x);
        J := [j];
        SimFacts(b, s, IsFalse, T + J, F, x);
      } else if e'.k.VNil? || e'.k.VFalse? {
        KnownTruth(b, s, e'.k, T, F, x);
        assert T + J == T;
        EmptyList(code, j, J);
        SimFacts(b, s, IsFalse, T, F, x);
      } else {
        j :- JumpOnCond(e', true, b, T, F, x);
        J := [j];
      }
      var l :- Decide(e'.t, j, e'.f, IsFalse, T + J, F, b, T, J, F, x);
      L := T + J;
      EmptyList(code, NO_JUMP, []);
      e' := ExpDesc(e'.k, l, NO_JUMP);
      return Pass, e', L;
    }

    // ----- Operators -----

    /** 'codenot' */
    method CodeNot(e: ExpDesc, ghost b: S, ghost T: seq<int>, ghost F: seq<int>, ghost x: Expr)
      returns (o: Outcome, e': ExpDesc)
      requires Valid() && Sim(b, Snap(), HasValue(e.k, -1), T, F, x)
      requires IsList(code, e.t, T) && IsList(code, e.f, F) && RegOK(b, e) && Plain(e)
      modifies this
      ensures Limit(o, b.freereg + 1) && nactvar == old(nactvar)
      ensures o.Pass? ==> Valid() && Sim(b, Snap(), HasValue(e'.k, -1), F, T, EUn(NotOp, x))
      ensures o.Pass? ==> IsList(code, e'.t, F) && IsList(code, e'.f, T) && RegOK(b, e') && !e'.k.VK?
    {
      hide Sim, Frame, WF, ClaimWF, IsList, Stripped, StrippedAt;
      e' := DischargeVars(e);
      SimFacts(b, Snap(), HasValue(e.k, -1), T, F, x);
      if e.k.VLocal? { LocalInRegister(b, Snap(), e.k.reg, T, F, x); }
      SimFacts(b, Snap(), HasValue(e'.k, -1), T, F, x);
      e' :- Negate(e', b, T, F, x);
      ghost var s1 := Snap();
      SimFacts(b, s1, HasNot(e'.k), T, F, x);
      e' := ExpDesc(e'.k, e'.f, e'.t);
      RemoveValues(e'.f, T);
      StrippedLists(s1.code, T, e'.t, F);
      StrippedLists(s1.code, T, e'.f, T);
      StrippedLists(s1.code, T, jpc, pend);
      ghost var c1 := code;
      RemoveValues(e'.t, F);
      StrippedLists(c1, F, e'.t, F);
      StrippedLists(c1, F, e'.f, T);
      StrippedLists(c1, F, jpc, pend);
      SwapExits(b, s1, e'.k, T, F, x);
      assert Snap() == Swapped(s1, T, F);
      SimFacts(b, Snap(), HasValue(e'.k, -1), F, T, EUn(NotOp, x));
      return Pass, e';
    }

    /** The part of 'codenot' that negates the value itself. */
    method Negate(e: ExpDesc, ghost b: S, ghost T: seq<int>, ghost F: seq<int>, ghost x: Expr)
      returns (o: Outcome, e': ExpDesc)
      requires Valid() && Sim(b, Snap(), HasValue(e.k, -1), T, F, x)
      requires IsList(code, e.t, T) && IsList(code, e.f, F) && RegOK(b, e) && Plain(e) && !e.k.VLocal?
      modifies this
      ensures Limit(o, b.freereg + 1) && nactvar == old(nactvar)
      ensures o.Pass? ==> e'.t == e.t && e'.f == e.f && freereg == b.freereg && !e'.k.VK? && !e'.k.VNonReloc?
      ensures o.Pass? ==> Valid() && Sim(b, Snap(), HasNot(e'.k), T, F, x)
      ensures o.Pass? ==> IsList(code, e'.t, T) && IsList(code, e'.f, F)
    {
      hide Sim, Frame, WF, ClaimWF, IsList;
      e' := e;
      ghost var s := Snap();
      SimFacts(b, s, HasValue(e.k, -1), T, F, x);
      if e'.k.VJmp? {
        JmpList(b, s, e'.k, T, F, x);
        Invert(b, s, T, F, x);
        InvertJump(e'.k.pc);
        InvertKeeps(s, e', T, F, jpc, pend);
        SimFacts(b, Snap(), HasNot(e'.k), T, F, x);
      } else if e'.k.VReloc? || e'.k.VNonReloc? {
        e' :- NotInRegister(e', b, T, F, x);
      } else {
        KnownNegation(b, s, e'.k, T, F, x);
        e' := e'.(k := Negation(e'.k));
      }
      return Pass, e';
    }

    method NotInRegister(e: ExpDesc, ghost b: S, ghost T: seq<int>, ghost F: seq<int>, ghost x: Expr)
      returns (o: Outcome, e': ExpDesc)
      requires Valid() && Sim(b, Snap(), HasValue(e.k, -1), T, F, x)
      requires IsList(code, e.t, T) && IsList(code, e.f, F) && RegOK(b, e)
      requires e.k.VReloc? || e.k.VNonReloc?
      modifies this
      ensures Limit(o, b.freereg + 1) && nactvar == old(nactvar)
      ensures o.Pass? ==> e'.t == e.t && e'.f == e.f && e'.k.VReloc? && freereg == b.freereg
      ensures o.Pass? ==> Valid() && Sim(b, Snap(), HasNot(e'.k), T, F, x)
      ensures o.Pass? ==> IsList(code, e'.t, T) && IsList(code, e'.f, F)
    {
      hide Sim, Frame, WF, ClaimWF, IsList;
      e' :- Discharge2AnyReg(e, b, T, F, x);
      ghost var s := Snap();
      SimFacts(b, s, HasValue(e'.k, -1), T, F, x);
      FreeExp(e');
      Adjust(b, s, Snap(), HasValue(e'.k, -1), T, F, x);
      ghost var s1 := Snap();
      SimFacts(b, s1, HasValue(e'.k, -1), T, F, x);
      EmitNot(b, s1, e'.k.reg, -1, T, F, x);
      var pc :- Code(Not(0, e'.k.reg));
      EmitKeeps(s1, e', b, HasValue(e'.k, -1), T, F);
      EmptyList(code, jpc, pend);
      SimFacts(b, Snap(), HasNot(VReloc(pc)), T, F, x);
      e' := e'.(k := VReloc(pc));
      return Pass, e';
    }

    /** 'constfolding': folds numeric constants when that cannot raise an error, but never into a
        NaN or a zero float. */
    function Folded(op: ArithOp, e1: ExpDesc, d2: Kind): (r: Option<Kind>)
      reads this
      ensures r.Some? ==> IsNumeral(e1.k) && IsNumeral(d2) && IsNumeral(r.value) && !HasJumps(e1)
      ensures r.Some? ==> NumeralValue(r.value) == ops.arith(op, NumeralValue(e1.k), NumeralValue(d2))
    {
      if HasJumps(e1) || !IsNumeral(e1.k) || !IsNumeral(d2) then None
      else
        var v1, v2 := NumeralValue(e1.k), NumeralValue(d2);
        if !ops.safe(op, v1, v2) then None
        else
          match ops.arith(op, v1, v2)
          case Int(n) => Some(VKInt(n))
          case Flt(x) => if ops.nanOrZero(x) then None else Some(VKFlt(x))
          case _ => None
    }

    /** 'luaK_prefix' for length, minus and bitwise not. */
    method CodeUnary(u: UnOp, e: ExpDesc, ghost b: S, ghost T: seq<int>, ghost F: seq<int>, ghost x: Expr)
      returns (o: Outcome, e': ExpDesc)
      requires Valid() && Sim(b, Snap(), HasValue(e.k, -1), T, F, x)
      requires IsList(code, e.t, T) && IsList(code, e.f, F) && RegOK(b, e)
      requires u != NotOp
      modifies this
      ensures Limit(o, b.freereg + 1) && nactvar == old(nactvar)
      ensures o.Pass? ==> Valid() && Sim(b, Snap(), HasValue(e'.k, -1), [], [], EUn(u, x))
      ensures o.Pass? ==> e'.t == NO_JUMP && e'.f == NO_JUMP && RegOK(b, e') && !e'.k.VK?
    {
      hide Sim, Frame, WF, ClaimWF, IsList, Exec;
      e' := e;
      SimFacts(b, Snap(), HasValue(e.k, -1), T, F, x);
      ExitsOpen(b, Snap(), Own(HasValue(e.k, -1)), T, F);
      NoJumps(code, e, T, F);
      if u.MinusOp? {
        var d := Folded(u.op, e, VKInt(0));
        if d.Some? {
          FoldUnary(b, Snap(), e.k, d.value, x, u.op);
          return Pass, ExpDesc(d.value, NO_JUMP, NO_JUMP);
        }
      }
      e' :- Exp2AnyReg(e, b, T, F, x);
      ghost var s := Snap();
      SimFacts(b, s, HasValue(e'.k, -1), [], [], x);
      FreeExp(e');
      Adjust(b, s, Snap(), HasValue(e'.k, -1), [], [], x);
      ghost var s1 := Snap();
      SimFacts(b, s1, HasValue(e'.k, -1), [], [], x);
      var i := if u.LenOp? then Len(0, e'.k.reg) else Neg(u.op, 0, e'.k.reg);
      EmitUnary(b, s1, e'.k.reg, -1, x, u, i);
      var pc :- Code(i);
      EmptyList(code, jpc, pend);
      SimFacts(b, Snap(), HasValue(VReloc(pc), -1), [], [], EUn(u, x));
      return Pass, ExpDesc(VReloc(pc), NO_JUMP, NO_JUMP);
    }

    /** What 'luaK_infix' leaves behind: for 'and' the first operand is true here, for 'or' it is
        false here, its other exits staying open in L; otherwise it is an RK operand, or a number
        kept for folding. */
    static ghost predicate Prepared(op: BinOp, b: S, m: S, e: ExpDesc, L: seq<int>, x: Expr) {
      match op
      case And => Sim(b, m, IsTrue, [], L, x) && IsList(m.code, e.f, L) && e.t == NO_JUMP && m.freereg == b.freereg
      case Or => Sim(b, m, IsFalse, L, [], x) && IsList(m.code, e.t, L) && e.f == NO_JUMP && m.freereg == b.freereg
      case _ =>
        && Sim(b, m, HasValue(e.k, -1), [], [], x) && e.t == NO_JUMP && e.f == NO_JUMP
        && ((op.Arithmetic? && IsNumeral(e.k) && m.freereg == b.freereg)
            || Placed(b, m, e))
    }

    static ghost predicate Placed(b: S, m: S, e: ExpDesc) {
      match e.k
      case VK(i) => i <= MAXINDEXRK && m.freereg == b.freereg
      case VNonReloc(r) =>
        r < m.freereg && if r >= m.nactvar then r == b.freereg && m.freereg == b.freereg + 1 else m.freereg == b.freereg
      case _ => false
    }

    /** 'luaK_infix' */
    method Infix(op: BinOp, e: ExpDesc, ghost b: S, ghost T: seq<int>, ghost F: seq<int>, ghost x: Expr)
      returns (o: Outcome, e': ExpDesc, ghost L: seq<int>)
      requires Valid() && Sim(b, Snap(), HasValue(e.k, -1), T, F, x)
      requires IsList(code, e.t, T) && IsList(code, e.f, F) && RegOK(b, e) && Plain(e)
      modifies this
      ensures Limit(o, b.freereg + 1) && nactvar == old(nactvar)
      ensures o.Pass? ==> Valid() && Prepared(op, b, Snap(), e', L, x)
    {
      hide Sim, Frame, WF, ClaimWF, IsList;
      e', L := e, [];
      SimFacts(b, Snap(), HasValue(e.k, -1), T, F, x);
      ExitsOpen(b, Snap(), Own(HasValue(e.k, -1)), T, F);
      NoJumps(code, e, T, F);
      match op {
        case And =>
          e', L :- GoIfTrue(e, b, T, F, x);
        case Or =>
          e', L :- GoIfFalse(e, b, T, F, x);
        case Arithmetic(_) =>
          if HasJumps(e) || !IsNumeral(e.k) {
            var rk;
            e', rk :- Exp2RK(e, b, T, F, x);
          }
        case _ =>
          var rk;
          e', rk :- Exp2RK(e, b, T, F, x);
      }
      return Pass, e', L;
    }

    /** 'luaK_posfix' for 'and' and 'or'. */
    method PosfixLogic(and: bool, e1: ExpDesc, e2: ExpDesc, ghost b: S, ghost m: S, ghost L: seq<int>,
                       ghost T2: seq<int>, ghost F2: seq<int>, ghost x1: Expr, ghost x2: Expr)
      returns (o: Outcome, e: ExpDesc)
      requires Prepared(if and then And else Or, b, m, e1, L, x1) && WellFormed(x2, b.nactvar)
      requires Valid() && Sim(m, Snap(), HasValue(e2.k, -1), T2, F2, x2)
      requires IsList(code, e2.t, T2) && IsList(code, e2.f, F2) && RegOK(m, e2)
      modifies `code
      ensures Limit(o, 0)
      ensures o.Pass? ==> e.k == DischargeVars(e2).k && Valid() && RegOK(b, e)
      ensures o.Pass? ==> Sim(b, Snap(), HasValue(e.k, -1), if and then T2 else T2 + L, if and then F2 + L else F2,
                              EBin(if and then And else Or, x1, x2))
      ensures o.Pass? ==> IsList(code, e.t, if and then T2 else T2 + L) && IsList(code, e.f, if and then F2 + L else F2)
    {
      hide Sim, Frame, WF, ClaimWF, IsList, Exec;
      e := DischargeVars(e2);
      ghost var s := Snap();
      SimFacts(m, s, HasValue(e2.k, -1), T2, F2, x2);
      if e2.k.VLocal? { LocalInRegister(m, s, e2.k.reg, T2, F2, x2); }
      SimFacts(m, s, HasValue(e.k, -1), T2, F2, x2);
      SimFacts(b, m, if and then IsTrue else IsFalse, if and then [] else L, if and then L else [], x1);
      ShortCircuit(b, m, s, and, L, e.k, T2, F2, x1, x2);
      LogicLists(b, m, s, and, L, Own(HasValue(e.k, -1)), T2, F2, e1, x1);
      ghost var T, F := if and then T2 else T2 + L, if and then F2 + L else F2;
      SimFacts(b, s, HasValue(e.k, -1), T, F, EBin(if and then And else Or, x1, x2));
      if and {
        var l :- JoinExits(e.f, e1.f, e.t, b, e.k, F2, L, T2, T, F, EBin(And, x1, x2));
        e := e.(f := l);
      } else {
        var l :- JoinExits(e.t, e1.t, e.f, b, e.k, T2, L, F2, T, F, EBin(Or, x1, x2));
        e := e.(t := l);
      }
      return Pass, e;
    }

    /** 'luaK_concat' of exits l of the second operand and exits kept from the first one. */
    method JoinExits(h: int, kept: int, other: int, ghost b: S, ghost d: Kind, ghost l: seq<int>, ghost L: seq<int>,
                     ghost rest: seq<int>, ghost T: seq<int>, ghost F: seq<int>, ghost x: Expr)
      returns (o: Outcome, h': int)
      requires Valid() && Sim(b, Snap(), HasValue(d, -1), T, F, x)
      requires IsList(code, h, l) && IsList(code, kept, L) && IsList(code, other, rest)
      requires ToSet(l) !! ToSet(L) && ToSet(rest) !! ToSet(l) && ToSet(pend) !! ToSet(l)
      requires forall j :: j in l ==> j in T || j in F
      modifies `code
      ensures Limit(o, 0)
      ensures o.Pass? ==> Valid() && Sim(b, Snap(), HasValue(d, -1), T, F, x) && |code| == |old(code)|
      ensures o.Pass? ==> IsList(code, h', l + L) && IsList(code, other, rest)
    {
      hide Sim, Frame, WF, ClaimWF, IsList, Exec;
      ghost var s := Snap();
      h' := NO_JUMP;
      SimFacts(b, s, HasValue(d, -1), T, F, x);
      h' :- Concat(h, kept, l, L);
      ListKeptOff(s.code, code, other, rest, l);
      ListKeptOff(s.code, code, jpc, pend, l);
      RelinkLast(b, s, code, d, T, F, l, x);
      SimFacts(b, Snap(), HasValue(d, -1), T, F, x);
      return Pass, h';
    }

    static lemma LogicLists(b: S, m: S, s: S, and: bool, L: seq<int>, own: set<int>, T2: seq<int>, F2: seq<int>,
                            e1: ExpDesc, x1: Expr)
      requires Frame(b, m, {}, if and then [] else L, if and then L else [])
      requires Frame(m, s, own, T2, F2)
      requires IsList(m.code, if and then e1.f else e1.t, L)
      ensures IsList(s.code, if and then e1.f else e1.t, L)
      ensures ToSet(T2) !! ToSet(L) && ToSet(F2) !! ToSet(L) && ToSet(T2) !! ToSet(F2)
      ensures ToSet(s.pend) !! ToSet(T2) && ToSet(s.pend) !! ToSet(F2)
    {
      forall j | j in L ensures Kept(m, s, j) && j in Outer(m) { assert j in ToSet(L); }
      ListKept(m.code, s.code, if and then e1.f else e1.t, L);
    }

    /** Only the last link of an exit list changed. */
    static lemma RelinkLast(b: S, s: S, c: seq<Instr>, d: Kind, T: seq<int>, F: seq<int>, l: seq<int>, x: Expr)
      requires Sim(b, s, HasValue(d, -1), T, F, x) && |c| == |s.code|
      requires forall j :: j in l ==> j in T || j in F
      requires forall i :: 0 <= i < |c| ==>
                 c[i] == s.code[i] || (l != [] && i == l[|l| - 1] && s.code[i].Jmp? && c[i].Jmp?)
      ensures Sim(b, s.(code := c), HasValue(d, -1), T, F, x)
    {
      SimFacts(b, s, HasValue(d, -1), T, F, x);
      if l != [] {
        var j := l[|l| - 1];
        assert j in l;
        if d.VJmp? || d.VReloc? {
          LinkBelow(b, s, c, HasValue(d, -1), T, F, j, x);
        } else {
          Relink(b, s, s.(code := c), HasValue(d, -1), T, F, T, F, x);
        }
      } else {
        assert c == s.code;
      }
    }

    /** As 'Relink', for descriptors whose value is produced by the last instructions. */
    static lemma LinkBelow(b: S, s: S, c: seq<Instr>, cl: Claim, T: seq<int>, F: seq<int>, j: int, x: Expr)
      requires Sim(b, s, cl, T, F, x) && cl.HasValue? && (cl.d.VJmp? || cl.d.VReloc?) && (j in T || j in F)
      requires |c| == |s.code|
      requires forall i :: 0 <= i < |c| ==> c[i] == s.code[i] || (i == j && s.code[i].Jmp? && c[i].Jmp?)
      ensures Sim(b, s.(code := c), cl, T, F, x)
    {
      var d := s.(code := c);
      assert j in s.open && j !in Outer(b) && j !in Own(cl) by { ExitsOpen(b, s, Own(cl), T, F); assert j in ToSet(T) || j in ToSet(F); }
      assert j < Stop(s, cl);
      LinkCarries(b, s, d, cl, T, F, j);
      Lift(b, s, cl, T, F, x, d, cl, T, F);
    }

    static lemma LinkCarries(b: S, s: S, d: S, cl: Claim, T: seq<int>, F: seq<int>, j: int)
      requires WF(s) && ClaimWF(s, cl) && Frame(b, s, Own(cl), T, F) && cl.HasValue? && (cl.d.VJmp? || cl.d.VReloc?)
      requires j in s.open && j !in Outer(b) && 0 <= j < Stop(s, cl) && d == s.(code := d.code) && |d.code| == |s.code|
      requires forall i :: 0 <= i < |s.code| ==> d.code[i] == s.code[i] || (i == j && s.code[i].Jmp? && d.code[i].Jmp?)
      ensures WF(d) && ClaimWF(d, cl) && Frame(b, d, Own(cl), T, F)
      ensures forall q: int, r: Regs :: Carries(b, s, cl, T, F, d, cl, T, F, q, r)
    {
      assert WF(d);
      assert ClaimWF(d, cl);
      forall i | i in Outer(b) ensures Kept(b, d, i) { assert Kept(b, s, i); }
      forall q: int, r: Regs ensures Carries(b, s, cl, T, F, d, cl, T, F, q, r) {
        LinkCarriesAt(b, s, d, cl, T, F, j, q, r);
      }
    }

    static lemma LinkCarriesAt(b: S, s: S, d: S, cl: Claim, T: seq<int>, F: seq<int>, j: int, q: int, r: Regs)
      requires ClaimWF(s, cl) && ClaimWF(d, cl) && cl.HasValue? && (cl.d.VJmp? || cl.d.VReloc?)
      requires j in s.open && 0 <= j < Stop(s, cl) && d == s.(code := d.code) && |d.code| == |s.code|
      requires forall i :: 0 <= i < |s.code| ==> d.code[i] == s.code[i] || (i == j && s.code[i].Jmp? && d.code[i].Jmp?)
      ensures Carries(b, s, cl, T, F, d, cl, T, F, q, r)
    {
      hide Exec;
      var o := Exec(C(s), q, r, Stop(s, cl));
      if o != Stuck { ExecSame(C(s), C(d), q, r, Stop(s, cl)); }
      assert forall i :: IsTestSet(d.code, i) == IsTestSet(s.code, i);
      forall v: Value, r0: Regs | Good(s, cl, T, F, v, o, r0, b.freereg)
        ensures Good(d, cl, T, F, v, o, r0, b.freereg) {}
    }

    /** The RK operand that 'luaK_exp2RK' gives for an operand that is already in place. */
    static function OperandOf(d: Kind): nat {
      match d
      case VK(i) => BITRK + i
      case VNonReloc(r) => r
      case _ => 0
    }

    /** Registers of two operands are freed from the top down. */
    method FreeOperands(e1: ExpDesc, e2: ExpDesc, o1: nat, o2: nat, ghost base: nat)
      requires nactvar <= base <= freereg <= base + 2
      requires IsOperand(e1.k, o1, freereg) && IsOperand(e2.k, o2, freereg)
      requires freereg == base + (if o1 < BITRK && o1 >= nactvar then 1 else 0) + (if o2 < BITRK && o2 >= nactvar then 1 else 0)
      requires nactvar <= o1 < BITRK ==> o1 >= base
      requires nactvar <= o2 < BITRK ==> o2 >= base
      requires nactvar <= o1 < BITRK && nactvar <= o2 < BITRK ==> o1 != o2
      modifies `freereg
      ensures freereg == base
    {
      if o1 > o2 {
        FreeExp(e1);
        FreeExp(e2);
      } else {
        FreeExp(e2);
        FreeExp(e1);
      }
    }

    /** 'codeexpval' for two operands. */
    method CodeArith(op: ArithOp, e1: ExpDesc, e2: ExpDesc, ghost b: S, ghost m: S,
                     ghost T2: seq<int>, ghost F2: seq<int>, ghost x1: Expr, ghost x2: Expr)
      returns (o: Outcome, e: ExpDesc)
      requires Prepared(Arithmetic(op), b, m, e1, [], x1) && WellFormed(x2, b.nactvar)
      requires Valid() && Sim(m, Snap(), HasValue(e2.k, -1), T2, F2, x2)
      requires IsList(code, e2.t, T2) && IsList(code, e2.f, F2) && RegOK(m, e2)
      modifies this
      ensures Limit(o, b.freereg + 2) && nactvar == old(nactvar)
      ensures o.Pass? ==> Valid() && Sim(b, Snap(), HasValue(e.k, -1), [], [], EBin(Arithmetic(op), x1, x2))
      ensures o.Pass? ==> e.t == NO_JUMP && e.f == NO_JUMP && freereg == b.freereg && !e.k.VK? && !e.k.VNonReloc?
    {
      hide Sim, Frame, WF, ClaimWF, IsList;
      e := e1;
      SimFacts(m, Snap(), HasValue(e2.k, -1), T2, F2, x2);
      SimFacts(b, m, HasValue(e1.k, -1), [], [], x1);
      PreparedRegs(b, m, HasValue(e1.k, -1), Snap(), HasValue(e2.k, -1), [], T2, F2);
      ExitsOpen(m, Snap(), Own(HasValue(e2.k, -1)), T2, F2);
      NoJumps(code, e2, T2, F2);
      if !HasJumps(e2) {
        var d := Folded(op, e1, e2.k);
        if d.Some? {
          AfterNumeral(b, m, Snap(), e1.k, HasValue(e2.k, -1), x1, x2);
          FoldBinary(b, m, Snap(), e1.k, e2.k, d.value, x1, x2, op);
          return Pass, ExpDesc(d.value, NO_JUMP, NO_JUMP);
        }
      }
      if IsNumeral(e1.k) {
        e :- CodeArithLate(op, e1, e2, b, m, T2, F2, x1, x2);
      } else {
        e :- CodeArithPlaced(op, e1, e2, b, m, T2, F2, x1, x2);
      }
      return Pass, e;
    }

    /** The first operand already is an RK operand. */
    method CodeArithPlaced(op: ArithOp, e1: ExpDesc, e2: ExpDesc, ghost b: S, ghost m: S,
                           ghost T2: seq<int>, ghost F2: seq<int>, ghost x1: Expr, ghost x2: Expr)
      returns (o: Outcome, e: ExpDesc)
      requires Placed(b, m, e1) && e1.t == NO_JUMP && e1.f == NO_JUMP
      requires Sim(b, m, HasValue(e1.k, -1), [], [], x1) && WellFormed(x2, b.nactvar)
      requires Valid() && Sim(m, Snap(), HasValue(e2.k, -1), T2, F2, x2)
      requires IsList(code, e2.t, T2) && IsList(code, e2.f, F2) && RegOK(m, e2)
      modifies this
      ensures Limit(o, b.freereg + 2) && nactvar == old(nactvar)
      ensures o.Pass? ==> Valid() && Sim(b, Snap(), HasValue(e.k, -1), [], [], EBin(Arithmetic(op), x1, x2))
      ensures o.Pass? ==> e.t == NO_JUMP && e.f == NO_JUMP && freereg == b.freereg && e.k.VReloc?
    {
      hide Sim, Frame, WF, ClaimWF, IsList;
      e := e1;
      SimFacts(m, Snap(), HasValue(e2.k, -1), T2, F2, x2);
      SimFacts(b, m, HasValue(e1.k, -1), [], [], x1);
      PreparedRegs(b, m, HasValue(e1.k, -1), Snap(), HasValue(e2.k, -1), [], T2, F2);
      var e2', o2 :- Exp2RK(e2, m, T2, F2, x2);
      var o1 := OperandOf(e1.k);
      ghost var s := Snap();
      SimFacts(m, s, HasValue(e2'.k, -1), [], [], x2);
      Operands(b, m, s, e1.k, e2'.k, o1, o2, x1, x2, EBin(Arithmetic(op), x1, x2));
      FreeOperands(e1, e2', o1, o2, b.freereg);
      e :- EmitBinary(op, o1, o2, b, s, x1, x2);
      return Pass, e;
    }

    static lemma PreparedRegs(b: S, m: S, cl1: Claim, s: S, cl2: Claim, L: seq<int>, T2: seq<int>, F2: seq<int>)
      requires WF(b) && Frame(b, m, Own(cl1), [], L) && Frame(m, s, Own(cl2), T2, F2)
      ensures b.nactvar == m.nactvar == s.nactvar && b.nactvar <= b.freereg && b.ops == m.ops == s.ops
    {
    }

    method EmitBinary(op: ArithOp, o1: nat, o2: nat, ghost b: S, ghost s: S, ghost x1: Expr, ghost x2: Expr)
      returns (o: Outcome, e: ExpDesc)
      requires IsList(code, jpc, pend) && freereg <= maxstacksize < MAXREGS
      requires Snap() == s.(freereg := b.freereg)
      requires Sim(b, s, HasOperands(o1, o2, x1, x2), [], [], EBin(Arithmetic(op), x1, x2))
      modifies `code, `jpc, `open, `pend
      ensures Limit(o, 0)
      ensures o.Pass? ==> Valid() && Sim(b, Snap(), HasValue(e.k, -1), [], [], EBin(Arithmetic(op), x1, x2))
      ensures o.Pass? ==> e.t == NO_JUMP && e.f == NO_JUMP && e.k.VReloc?
    {
      hide Sim, Frame, WF, ClaimWF, IsList;
      e := ExpDesc(VNil, NO_JUMP, NO_JUMP);
      SimFacts(b, s, HasOperands(o1, o2, x1, x2), [], [], EBin(Arithmetic(op), x1, x2));
      BaseRegs(b, s);
      Adjust(b, s, Snap(), HasOperands(o1, o2, x1, x2), [], [], EBin(Arithmetic(op), x1, x2));
      EmitArith(b, Snap(), o1, o2, x1, x2, op);
      var pc :- Code(Arith(op, 0, o1, o2));
      EmptyList(code, jpc, pend);
      SimFacts(b, Snap(), HasValue(VReloc(pc), -1), [], [], EBin(Arithmetic(op), x1, x2));
      return Pass, ExpDesc(VReloc(pc), NO_JUMP, NO_JUMP);
    }

    static lemma BaseRegs(b: S, s: S)
      requires WF(b) && Frame(b, s, {}, [], [])
      ensures s.nactvar <= b.freereg < MAXREGS && b.ops == s.ops && b.nactvar == s.nactvar
    {
    }

    /** A number kept for folding that was not folded becomes an operand after the second one. */
    method CodeArithLate(op: ArithOp, e1: ExpDesc, e2: ExpDesc, ghost b: S, ghost m: S,
                         ghost T2: seq<int>, ghost F2: seq<int>, ghost x1: Expr, ghost x2: Expr)
      returns (o: Outcome, e: ExpDesc)
      requires IsNumeral(e1.k) && e1.t == NO_JUMP && e1.f == NO_JUMP && m.freereg == b.freereg
      requires Sim(b, m, HasValue(e1.k, -1), [], [], x1) && WellFormed(x2, b.nactvar)
      requires Valid() && Sim(m, Snap(), HasValue(e2.k, -1), T2, F2, x2)
      requires IsList(code, e2.t, T2) && IsList(code, e2.f, F2) && RegOK(m, e2)
      modifies this
      ensures Limit(o, b.freereg + 2) && nactvar == old(nactvar)
      ensures o.Pass? ==> Valid() && Sim(b, Snap(), HasValue(e.k, -1), [], [], EBin(Arithmetic(op), x1, x2))
      ensures o.Pass? ==> e.t == NO_JUMP && e.f == NO_JUMP && freereg == b.freereg && e.k.VReloc?
    {
      hide Sim, Frame, WF, ClaimWF, IsList, Exec;
      e := e1;
      ghost var y1 := NumeralExpr(e1.k);
      SimFacts(b, m, HasValue(e1.k, -1), [], [], x1);
      var e2', o2 :- Exp2RK(e2, m, T2, F2, x2);
      ghost var s2 := Snap();
      SimFacts(m, s2, HasValue(e2'.k, -1), [], [], x2);
      PreparedRegs(b, m, HasValue(e1.k, -1), s2, HasValue(e2'.k, -1), [], [], []);
      AfterNumeral(b, m, s2, e1.k, HasValue(e2'.k, -1), x1, x2);
      Start(s2, s2, e1.k, y1);
      EmptyList(code, jpc, pend);
      var e1', o1 :- Exp2RK(e1, s2, [], [], y1);
      ghost var s3 := Snap();
      SimFacts(s2, s3, HasValue(e1'.k, -1), [], [], y1);
      PreparedRegs(b, s2, HasValue(e2'.k, -1), s3, HasValue(e1'.k, -1), [], [], []);
      Operands(b, s2, s3, e2'.k, e1'.k, o2, o1, x2, y1, EBin(Arithmetic(op), y1, x2));
      SwapOperands(b, s3, o2, o1, x2, y1, EBin(Arithmetic(op), y1, x2));
      FreeOperands(e1', e2', o1, o2, b.freereg);
      e :- EmitBinary(op, o1, o2, b, s3, y1, x2);
      Rephrase(b, m, Snap(), e1.k, HasValue(e.k, -1), x1, x2, Arithmetic(op));
      return Pass, e;
    }

    /** 'codecomp': order comparisons of the second kind exchange their operands. */
    method CodeComp(op: BinOp, e1: ExpDesc, e2: ExpDesc, ghost b: S, ghost m: S,
                    ghost T2: seq<int>, ghost F2: seq<int>, ghost x1: Expr, ghost x2: Expr)
      returns (o: Outcome, e: ExpDesc)
      requires !op.And? && !op.Or? && !op.Arithmetic?
      requires Prepared(op, b, m, e1, [], x1) && WellFormed(x2, b.nactvar)
      requires Valid() && Sim(m, Snap(), HasValue(e2.k, -1), T2, F2, x2)
      requires IsList(code, e2.t, T2) && IsList(code, e2.f, F2) && RegOK(m, e2)
      modifies this
      ensures Limit(o, b.freereg + 2) && nactvar == old(nactvar)
      ensures o.Pass? ==> Valid() && Sim(b, Snap(), HasValue(e.k, -1), [], [], EBin(op, x1, x2))
      ensures o.Pass? ==> e.t == NO_JUMP && e.f == NO_JUMP && freereg == b.freereg && e.k.VJmp?
    {
      hide Sim, Frame, WF, ClaimWF, IsList;
      e := e1;
      SimFacts(b, m, HasValue(e1.k, -1), [], [], x1);
      var o1 := OperandOf(e1.k);
      var e2', o2 :- Exp2RK(e2, m, T2, F2, x2);
      ghost var s := Snap();
      SimFacts(m, s, HasValue(e2'.k, -1), [], [], x2);
      PreparedRegs(b, m, HasValue(e1.k, -1), s, HasValue(e2'.k, -1), [], [], []);
      Operands(b, m, s, e1.k, e2'.k, o1, o2, x1, x2, EBin(op, x1, x2));
      FreeExp(e2');
      FreeExp(e1);
      e :- EmitComparison(op, o1, o2, b, s, x1, x2);
      return Pass, e;
    }

    method EmitComparison(op: BinOp, o1: nat, o2: nat, ghost b: S, ghost s: S, ghost x1: Expr, ghost x2: Expr)
      returns (o: Outcome, e: ExpDesc)
      requires !op.And? && !op.Or? && !op.Arithmetic?
      requires IsList(code, jpc, pend) && freereg <= maxstacksize < MAXREGS
      requires Snap() == s.(freereg := b.freereg)
      requires Sim(b, s, HasOperands(o1, o2, x1, x2), [], [], EBin(op, x1, x2))
      modifies `code, `jpc, `open, `pend
      ensures Limit(o, 0)
      ensures o.Pass? ==> Valid() && Sim(b, Snap(), HasValue(e.k, -1), [], [], EBin(op, x1, x2))
      ensures o.Pass? ==> e.t == NO_JUMP && e.f == NO_JUMP && e.k.VJmp?
    {
      hide Sim, Frame, WF, ClaimWF, IsList;
      e := ExpDesc(VNil, NO_JUMP, NO_JUMP);
      SimFacts(b, s, HasOperands(o1, o2, x1, x2), [], [], EBin(op, x1, x2));
      BaseRegs(b, s);
      Adjust(b, s, Snap(), HasOperands(o1, o2, x1, x2), [], [], EBin(op, x1, x2));
      var c := if op.Compare? then op.cmp else if op.NotEq? then Eq else if op.Gt? then Lt else Le;
      var cond := op.Compare?;
      var a1, a2 := o1, o2;
      if !cond && c != Eq {
        a1, a2 := a2, a1;
        cond := true;
      }
      EmitCmp(b, Snap(), o1, o2, x1, x2, op, Cmp(c, cond, a1, a2));
      var j :- CondJump(Cmp(c, cond, a1, a2));
      EmptyList(code, jpc, pend);
      SimFacts(b, Snap(), HasValue(VJmp(j), -1), [], [], EBin(op, x1, x2));
      return Pass, ExpDesc(VJmp(j), NO_JUMP, NO_JUMP);
    }

    // ----- Expressions -----

    /** 'simpleexp' for constants and local variables. */
    method Simple(x: Expr) returns (o: Outcome, e: ExpDesc)
      requires Valid() && WellFormed(x, nactvar) && !x.EParen? && !x.EUn? && !x.EBin?
      modifies `k, `cache
      ensures Limit(o, 0)
      ensures o.Pass? ==> Valid() && Sim(old(Snap()), Snap(), HasValue(e.k, -1), [], [], x)
      ensures o.Pass? ==> e.t == NO_JUMP && e.f == NO_JUMP && Plain(e) && !e.k.VNonReloc?
    {
      hide Sim;
      ghost var b := Snap();
      e := ExpDesc(VNil, NO_JUMP, NO_JUMP);
      match x {
        case ENil =>
        case ETrue => e := e.(k := VTrue);
        case EFalse => e := e.(k := VFalse);
        case EInt(n) => e := e.(k := VKInt(n));
        case EFlt(f) => e := e.(k := VKFlt(f));
        case EStr(str) =>
          var idx :- AddK(Str(str));
          e := e.(k := VK(idx));
        case ELocal(reg) => e := e.(k := VLocal(reg));
      }
      Start(b, Snap(), e.k, x);
      return Pass, e;
    }

    /** 'subexpr' of the parser: left operand, 'luaK_infix', right operand, 'luaK_posfix'; or
        operand, 'luaK_prefix'. The emitted code stands for the expression. */
    method Expression(x: Expr) returns (o: Outcome, e: ExpDesc, ghost T: seq<int>, ghost F: seq<int>)
      requires Valid() && WellFormed(x, nactvar)
      modifies this
      ensures Limit(o, old(freereg) + Need(x)) && nactvar == old(nactvar)
      ensures o.Pass? ==> Valid() && Sim(old(Snap()), Snap(), HasValue(e.k, -1), T, F, x)
      ensures o.Pass? ==> IsList(code, e.t, T) && IsList(code, e.f, F) && RegOK(old(Snap()), e) && Plain(e)
      decreases x, 1
    {
      hide Sim, Frame, WF, ClaimWF, IsList, Exec;
      ghost var b := Snap();
      e, T, F := ExpDesc(VNil, NO_JUMP, NO_JUMP), [], [];
      match x {
        case EParen(x1) =>
          e, T, F :- Expression(x1);
          Parenthesize(b, Snap(), HasValue(e.k, -1), T, F, x1);
          SimFacts(b, Snap(), HasValue(e.k, -1), T, F, x);
          if e.k.VLocal? { LocalInRegister(b, Snap(), e.k.reg, T, F, x); }
          e := DischargeVars(e);
        case EUn(u, x1) =>
          NeedPositive(x1);
          var e1, T1, F1 :- Expression(x1);
          SimFacts(b, Snap(), HasValue(e1.k, -1), T1, F1, x1);
          if u == NotOp {
            e :- CodeNot(e1, b, T1, F1, x1);
            T, F := F1, T1;
          } else {
            e :- CodeUnary(u, e1, b, T1, F1, x1);
            EmptyList(code, NO_JUMP, []);
          }
        case EBin(op, x1, x2) =>
          e, T, F :- Binary(x);
        case _ =>
          e :- Simple(x);
          EmptyList(code, NO_JUMP, []);
          SimFacts(b, Snap(), HasValue(e.k, -1), [], [], x);
      }
      return Pass, e, T, F;
    }

    method Binary(x: Expr) returns (o: Outcome, e: ExpDesc, ghost T: seq<int>, ghost F: seq<int>)
      requires x.EBin? && Valid() && WellFormed(x, nactvar)
      modifies this
      ensures Limit(o, old(freereg) + Need(x)) && nactvar == old(nactvar)
      ensures o.Pass? ==> Valid() && Sim(old(Snap()), Snap(), HasValue(e.k, -1), T, F, x)
      ensures o.Pass? ==> IsList(code, e.t, T) && IsList(code, e.f, F) && RegOK(old(Snap()), e) && Plain(e)
      decreases x, 0
    {
      hide Sim, Frame, WF, ClaimWF, IsList, Exec, Need;
      var op, x1, x2 := x.bop, x.e1, x.e2;
      ghost var b := Snap();
      e, T, F := ExpDesc(VNil, NO_JUMP, NO_JUMP), [], [];
      NeedBoth(op, x1, x2);
      var e1, T1, F1 :- Expression(x1);
      var p, L :- Infix(op, e1, b, T1, F1, x1);
      ghost var m := Snap();
      PreparedFacts(op, b, m, p, L, x1);
      var e2, T2, F2 :- Expression(x2);
      if op == And || op == Or {
        e :- PosfixLogic(op == And, p, e2, b, m, L, T2, F2, x1, x2);
        T, F := if op == And then T2 else T2 + L, if op == And then F2 + L else F2;
      } else if op.Arithmetic? {
        e :- CodeArith(op.op, p, e2, b, m, T2, F2, x1, x2);
        EmptyList(code, NO_JUMP, []);
      } else {
        e :- CodeComp(op, p, e2, b, m, T2, F2, x1, x2);
        EmptyList(code, NO_JUMP, []);
      }
      return Pass, e, T, F;
    }

    static lemma NeedBoth(op: BinOp, x1: Expr, x2: Expr)
      ensures var n := Need(EBin(op, x1, x2));
        n >= Need(x1) >= 1 && n >= Need(x2) + (if op.And? || op.Or? then 0 else 1) && Need(x2) >= 1
    {
      NeedPositive(x1);
      NeedPositive(x2);
    }

    static lemma {:induction false} NeedPositive(x: Expr)
      ensures Need(x) >= 1
    {
      match x
      case EParen(x1) => NeedPositive(x1);
      case EUn(_, x1) => NeedPositive(x1);
      case EBin(_, x1, x2) => NeedPositive(x1); NeedPositive(x2);
      case _ =>
    }

    static lemma PreparedFacts(op: BinOp, b: S, m: S, e: ExpDesc, L: seq<int>, x: Expr)
      requires Prepared(op, b, m, e, L, x)
      ensures b.nactvar == m.nactvar && b.freereg <= m.freereg <= b.freereg + 1
      ensures (op.And? || op.Or?) ==> m.freereg == b.freereg
      ensures !op.And? && !op.Or? ==> Prepared(op, b, m, e, [], x)
    {
    }

    // ----- A function that returns the value of an expression -----

    /** 'luaK_ret' */
    method Ret(first: nat, nret: nat) returns (o: Outcome)
      requires IsList(code, jpc, pend)
      modifies `code, `jpc, `open, `pend
      ensures Limit(o, 0)
      ensures o.Pass? ==> Snap() == Emit(old(Snap()), Return(first, nret + 1))
    {
      var _ :- Code(Return(first, nret + 1));
      return Pass;
    }

    /** Enter a function with n parameters ('adjustlocalvars', 'luaK_reserveregs'). */
    method Parameters(n: nat) returns (o: Outcome)
      requires Valid() && Snap() == S(ops, [], [], {}, [], 0, 0, 0)
      modifies `freereg, `nactvar, `maxstacksize
      ensures Limit(o, n)
      ensures o.Pass? ==> Valid() && Snap() == S(ops, [], [], {}, [], n, n, 0)
    {
      o := Pass;
      :- ReserveRegs(n);
      nactvar := n;
      return Pass;
    }
  }

  /** Run from its first instruction, the function returns the given values. */
  ghost predicate RunsTo(ops: Ops, code: seq<Instr>, k: seq<Value>, r: Regs, result: seq<Value>) {
    exists steps: nat :: VMRun(ops, code, k, Running(0, r), steps) == Returned(result)
  }

  /** 'return x' as a whole function with n parameters: from any arguments the machine runs from
      the first instruction to a return of exactly the value of x. */
  method CompileFunction(ops: Ops, n: nat, x: Expr) returns (o: Outcome, fs: FuncState)
    requires WellFormed(x, n)
    ensures fs.ops == ops && fs.Limit(o, n + Need(x))
    ensures o.Pass? ==> forall r: Regs :: RunsTo(ops, fs.code, fs.k, r, [Eval(ops, x, r)])
  {
    hide Sim, Frame, WF, ClaimWF, IsList;
    fs := new FuncState(ops);
    :- fs.Parameters(n);
    ghost var b := fs.Snap();
    FuncState.NeedPositive(x);
    var e, T, F :- fs.Expression(x);
    e :- fs.Exp2AnyReg(e, b, T, F, x);
    ghost var s := fs.Snap();
    var first := e.k.reg;
    :- fs.Ret(first, 1);
    ReturnRuns(b, s, fs.Snap(), first, x);
    return Pass, fs;
  }

  lemma ReturnRuns(b: S, s: S, d: S, first: nat, x: Expr)
    requires b.code == [] && b.open == {} && b.pend == [] && b.lasttarget == 0
    requires Sim(b, s, HasValue(VNonReloc(first), -1), [], [], x) && first < 256
    requires d == Emit(s, Return(first, 2))
    ensures forall r: Regs :: RunsTo(b.ops, d.code, d.k, r, [Eval(b.ops, x, r)])
  {
    SimFacts(b, s, HasValue(VNonReloc(first), -1), [], [], x);
    EmitFrame(b, s, [], [], d);
    assert d.open == {};
    forall r: Regs ensures RunsTo(b.ops, d.code, d.k, r, [Eval(b.ops, x, r)])
    {
      ArrivesWith(b, s, d, first, x, r);
      var steps := RunsToReturn(d, |s.code|, first, r);
    }
  }

  /** The code of x, run from the start, arrives at its end with the value in its register. */
  lemma ArrivesWith(b: S, s: S, d: S, first: nat, x: Expr, r: Regs)
    requires b.code == [] && b.open == {} && b.pend == [] && b.lasttarget == 0
    requires Sim(b, s, HasValue(VNonReloc(first), -1), [], [], x) && first < 256
    requires SameBelow(C(Discharged(s)), C(d), |s.code|)
    ensures var o := Exec(C(d), 0, r, |s.code|);
            o.At? && o.pc == |s.code| && o.regs[first] == Eval(b.ops, x, r)
  {
    assert SemAt(b, s, HasValue(VNonReloc(first), -1), [], [], x, 0, r);
    assert Exec(C(b), 0, r, 0) == At(0, r);
    Continue(s, d, 0, r, |s.code|);
  }

  lemma RunsToReturn(d: S, n: nat, first: nat, r: Regs) returns (steps: nat)
    requires d.open == {} && first < 256 && |d.code| == n + 1 && d.code[n] == Return(first, 2)
    requires Exec(C(d), 0, r, n).At? && Exec(C(d), 0, r, n).pc == n
    ensures VMRun(d.ops, d.code, d.k, Running(0, r), steps) == Returned([Exec(C(d), 0, r, n).regs[first]])
  {
    var o := Exec(C(d), 0, r, n);
    var m := ExecIsRun(d.ops, d.code, d.k, 0, r, n);
    assert o.regs[first .. first + 1] == [o.regs[first]];
    assert VMStep(d.ops, d.code, d.k, Running(n, o.regs)) == Returned([o.regs[first]]);
    assert VMRun(d.ops, d.code, d.k, VMStep(d.ops, d.code, d.k, Running(n, o.regs)), 0) == Returned([o.regs[first]]);
    RunAppend(d.ops, d.code, d.k, Running(0, r), m, 1);
    steps := m + 1;
  }

  function SetArgA(i: Instr, reg: nat): Instr {
    match i
    case Not(_, x) => Not(reg, x)
    case Len(_, x) => Len(reg, x)
    case Neg(op, _, x) => Neg(op, reg, x)
    case Arith(op, _, x, y) => Arith(op, reg, x, y)
    case _ => i
  }
}
