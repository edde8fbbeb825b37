/** Each step of the code generator, as a step of the relation 'Sim'. */
module LuaProof {
  import opened LuaMachine
  import opened LuaSpec

  // ----- How one step carries over -----

  /** For one entry point: every good outcome of s becomes a good outcome of d, and exits of the
      surrounding code stay what they are. */
  ghost predicate Carries(b: S, s: S, cl: Claim, T: seq<int>, F: seq<int>,
                          d: S, cl': Claim, T': seq<int>, F': seq<int>, q: int, r: Regs)
    requires ClaimWF(s, cl) && ClaimWF(d, cl')
  {
    var o := Exec(C(s), q, r, Stop(s, cl));
    var o' := Exec(C(d), q, r, Stop(d, cl'));
    && (o.Exit? && o.j in Outer(b) ==> o' == o)
    && forall v: Value, r0: Regs :: Good(s, cl, T, F, v, o, r0, b.freereg) ==>
                                    Good(d, cl', T', F', v, o', r0, b.freereg)
  }

  lemma Lift(b: S, s: S, cl: Claim, T: seq<int>, F: seq<int>, e: Expr,
             d: S, cl': Claim, T': seq<int>, F': seq<int>)
    requires Sim(b, s, cl, T, F, e)
    requires WF(d) && ClaimWF(d, cl') && Frame(b, d, Own(cl'), T', F') && |b.code| <= Stop(d, cl')
    requires forall q: int, r: Regs :: 0 <= q <= b.lasttarget ==>
               Carries(b, s, cl, T, F, d, cl', T', F', q, r)
    ensures Sim(b, d, cl', T', F', e)
  {
    forall q: int, r: Regs | 0 <= q <= b.lasttarget ensures SemAt(b, d, cl', T', F', e, q, r) {
      assert SemAt(b, s, cl, T, F, e, q, r);
      assert Carries(b, s, cl, T, F, d, cl', T', F', q, r);
      var o0 := Exec(C(b), q, r, |b.code|);
      if Arrive(o0, b.pend, |b.code|).None? && o0.Exit? { ExitIsOpen(C(b), q, r, |b.code|); }
    }
  }

  // ----- Expressions that need no code -----

  /** Constants and local variables are described before any code is emitted. */
  lemma Start(b: S, s: S, d: Kind, e: Expr)
    requires WF(b) && s == b.(k := s.k) && b.k <= s.k && WellFormed(e, b.nactvar)
    requires match d
             case VNil => e.ENil?
             case VTrue => e.ETrue?
             case VFalse => e.EFalse?
             case VKInt(n) => e == EInt(n)
             case VKFlt(x) => e == EFlt(x)
             case VK(i) => i < |s.k| && e.EStr? && s.k[i] == Str(e.s)
             case VLocal(x) => e == ELocal(x)
             case _ => false
    ensures Sim(b, s, HasValue(d, -1), [], [], e)
  {
    hide Exec;
    var cl := HasValue(d, -1);
    assert b.open == Outer(b) + ToSet(b.pend) by {
      forall x | x in b.pend ensures x in b.open {}
    }
    forall q: int, r: Regs | 0 <= q <= b.lasttarget ensures SemAt(b, s, cl, [], [], e, q, r) {
      var o0 := Exec(C(b), q, r, |b.code|);
      if o0 != Stuck { ExecSame(C(b), C(s), q, r, |b.code|); }
    }
  }

  /** A claim may be replaced by one that follows from it at the same place. */
  lemma Relabel(b: S, s: S, cl: Claim, cl': Claim, T: seq<int>, F: seq<int>, e: Expr)
    requires Sim(b, s, cl, T, F, e)
    requires ClaimWF(s, cl') && Stop(s, cl') == Stop(s, cl) && Own(cl') == Own(cl)
    requires forall v: Value, r1: Regs, r0: Regs :: Landed(s, cl, v, r1, r0, b.freereg) ==>
               Landed(s, cl', v, r1, r0, b.freereg)
    ensures Sim(b, s, cl', T, F, e)
  {
    forall q: int, r: Regs | 0 <= q <= b.lasttarget
      ensures Carries(b, s, cl, T, F, s, cl', T, F, q, r) {}
    Lift(b, s, cl, T, F, e, s, cl', T, F);
  }

  /** Parentheses do not change an expression with a single value. */
  lemma Parenthesize(b: S, s: S, cl: Claim, T: seq<int>, F: seq<int>, e: Expr)
    requires Sim(b, s, cl, T, F, e)
    ensures Sim(b, s, cl, T, F, EParen(e))
  {
    forall q: int, r: Regs | 0 <= q <= b.lasttarget
      ensures SemAt(b, s, cl, T, F, EParen(e), q, r)
    {
      assert SemAt(b, s, cl, T, F, e, q, r);
    }
  }

  lemma FrameGrow(b: S, s: S, d: S, own: set<int>, T: seq<int>, F: seq<int>, T': seq<int>, F': seq<int>)
    requires Frame(b, s, own, T, F) && WF(s)
    requires d == s.(code := d.code, k := d.k, freereg := d.freereg) && s.k <= d.k
    requires |d.code| >= |b.code|
    requires ToSet(T') == ToSet(T) && ToSet(F') == ToSet(F) && NoDups(T') && NoDups(F')
    requires forall j :: j in Outer(b) ==> Kept(b, s, j) ==> Kept(b, d, j)
    ensures Frame(b, d, own, T', F')
  {
  }

  /** More constants and another number of free registers change nothing. */
  lemma Adjust(b: S, s: S, s': S, cl: Claim, T: seq<int>, F: seq<int>, e: Expr)
    requires Sim(b, s, cl, T, F, e)
    requires s' == s.(k := s'.k, freereg := s'.freereg) && s.k <= s'.k
    requires s.nactvar <= s'.freereg < MAXREGS
    ensures Sim(b, s', cl, T, F, e)
  {
    FrameGrow(b, s, s', Own(cl), T, F, T, F);
    forall q: int, r: Regs | 0 <= q <= b.lasttarget
      ensures Carries(b, s, cl, T, F, s', cl, T, F, q, r)
    {
      CarrySame(b, s, s', cl, T, F, T, F, q, r);
    }
    Lift(b, s, cl, T, F, e, s', cl, T, F);
  }

  lemma CarrySame(b: S, s: S, d: S, cl: Claim, T: seq<int>, F: seq<int>, T': seq<int>, F': seq<int>,
                  q: int, r: Regs)
    requires ClaimWF(s, cl) && ClaimWF(d, cl)
    requires d == s.(code := d.code, k := d.k, freereg := d.freereg) && s.k <= d.k && |s.code| == |d.code|
    requires SameBelow(C(s), C(d), Stop(s, cl))
    requires Own(cl) != {} || Stop(s, cl) < |s.code| ==> d.code == s.code
    requires forall j :: IsTestSet(d.code, j) == IsTestSet(s.code, j)
    requires forall j :: j in T ==> j in T'
    requires forall j :: j in F ==> j in F'
    ensures Carries(b, s, cl, T, F, d, cl, T', F', q, r)
  {
    hide Exec;
    var o := Exec(C(s), q, r, Stop(s, cl));
    if o != Stuck {
      ExecSame(C(s), C(d), q, r, Stop(s, cl));
    }
  }

  /** Rewriting the links of dangling jumps, and regrouping equal exit lists. */
  lemma Relink(b: S, s: S, s': S, cl: Claim, T: seq<int>, F: seq<int>, T': seq<int>, F': seq<int>, e: Expr)
    requires Sim(b, s, cl, T, F, e) && Stop(s, cl) == |s.code|
    requires s' == s.(code := s'.code) && |s'.code| == |s.code|
    requires forall i :: 0 <= i < |s.code| ==>
               s'.code[i] == s.code[i] ||
               (s.code[i].Jmp? && s'.code[i].Jmp? && (i in T || i in F || i in s.pend))
    requires ToSet(T') == ToSet(T) && ToSet(F') == ToSet(F) && NoDups(T') && NoDups(F')
    ensures Sim(b, s', cl, T', F', e)
  {
    hide Exec;
    forall i | 0 <= i < |s.code| && s'.code[i] != s.code[i] ensures i in s.open && i !in Outer(b) {
      assert i in ToSet(T) || i in ToSet(F) || i in ToSet(s.pend);
    }
    assert WF(s');
    FrameGrow(b, s, s', Own(cl), T, F, T', F');
    assert forall j :: j in T ==> j in ToSet(T');
    assert forall j :: j in F ==> j in ToSet(F');
    assert SameBelow(C(s), C(s'), |s.code|);
    forall q: int, r: Regs | 0 <= q <= b.lasttarget
      ensures Carries(b, s, cl, T, F, s', cl, T', F', q, r)
    {
      CarrySame(b, s, s', cl, T, F, T', F', q, r);
    }
    Lift(b, s, cl, T, F, e, s', cl, T', F');
  }

  /** 'luaK_patchtohere': exits that agree with the claim join the pending jumps. */
  lemma ToHere(b: S, s: S, T: seq<int>, F: seq<int>, e: Expr, cl: Claim)
    requires cl.IsTrue? || cl.IsFalse?
    requires Sim(b, s, cl, T, F, e)
    ensures var l := if cl.IsTrue? then T else F;
            Sim(b, s.(pend := s.pend + l, lasttarget := |s.code|), cl,
                if cl.IsTrue? then [] else T, if cl.IsTrue? then F else [], e)
  {
    hide Exec, Outer, ToSet;
    var l := if cl.IsTrue? then T else F;
    var s' := s.(pend := s.pend + l, lasttarget := |s.code|);
    var T', F' := if cl.IsTrue? then [] else T, if cl.IsTrue? then F else [];
    assert ToSet(s'.pend) == ToSet(s.pend) + ToSet(l);
    assert WF(s') by {
      forall j | j in s'.pend ensures j in s'.open { assert j in ToSet(s'.pend); }
      forall i, j | 0 <= i < j < |s'.pend| ensures s'.pend[i] != s'.pend[j] {
        assert s'.pend[i] in (if i < |s.pend| then s.pend else l);
        assert s'.pend[j] in (if j < |s.pend| then s.pend else l);
        if i < |s.pend| <= j { assert ToSet(s.pend) !! ToSet(l); assert s'.pend[i] in ToSet(s.pend) && s'.pend[j] in ToSet(l); }
      }
    }
    assert Frame(b, s', {}, T', F') by {
      forall j | j in Outer(b) ensures Kept(b, s', j) { assert Kept(b, s, j); }
    }
    forall q: int, r: Regs | 0 <= q <= b.lasttarget
      ensures Carries(b, s, cl, T, F, s', cl, T', F', q, r)
    {
      var o := Exec(C(s), q, r, |s.code|);
      assert C(s') == C(s);
      forall v: Value, r0: Regs | Good(s, cl, T, F, v, o, r0, b.freereg)
        ensures Good(s', cl, T', F', v, o, r0, b.freereg) {}
    }
    Lift(b, s, cl, T, F, e, s', cl, T', F');
  }

  // ----- Loading a value into a register -----

  /** Instruction i puts the value described by d into register reg. */
  ghost predicate Loads(s: S, d: Kind, i: Instr, reg: nat) {
    match d
    case VNil => i == LoadNil(reg, 0)
    case VTrue => i == LoadBool(reg, true, false)
    case VFalse => i == LoadBool(reg, false, false)
    case VK(x) => i == LoadK(reg, x)
    case VNonReloc(x) => i == Move(reg, x)
    case _ => false
  }

  lemma EmitFrame(b: S, s: S, T: seq<int>, F: seq<int>, d: S)
    requires WF(b) && WF(s) && Frame(b, s, {}, T, F)
    requires d == Discharged(s).(code := d.code) && Discharged(s).code <= d.code
    ensures Frame(b, d, {}, T, F)
    ensures SameBelow(C(Discharged(s)), C(d), |s.code|)
    ensures forall j :: (j in T || j in F) ==> IsTestSet(d.code, j) == IsTestSet(s.code, j)
  {
    var p := Discharged(s);
    forall j | j in T || j in F || j in Outer(b)
      ensures j < |s.code| && d.code[j] == s.code[j] && IsTestSet(d.code, j) == IsTestSet(s.code, j)
    {
      assert j in s.open;
      assert d.code[j] == p.code[j] == PatchedAt(s.code, s.pend, |s.code|, NO_REG, |s.code|, j);
      if j >= 1 {
        assert d.code[j - 1] == p.code[j - 1]
            == PatchedAt(s.code, s.pend, |s.code|, NO_REG, |s.code|, j - 1);
      }
    }
    forall j | j in Outer(b) ensures Kept(b, d, j) { assert Kept(b, s, j); }
  }

  lemma EmitLoad(b: S, s: S, d: Kind, T: seq<int>, F: seq<int>, e: Expr, i: Instr, reg: nat)
    requires Sim(b, s, HasValue(d, -1), T, F, e) && Loads(s, d, i, reg) && reg < NO_REG
    ensures Sim(b, Emit(s, i), HasValue(VNonReloc(reg), reg), T, F, e)
  {
    var s', cl, cl' := Emit(s, i), HasValue(d, -1), HasValue(VNonReloc(reg), reg);
    DischargedWF(s);
    EmitFrame(b, s, T, F, s');
    assert s'.code[|s.code|] == i;
    forall r1: Regs, r0: Regs | Landed(s, cl, Eval(s.ops, e, r0), r1, r0, b.freereg)
      ensures Good(s', cl', T, F, Eval(s.ops, e, r0), Exec(C(s'), |s.code|, r1, |s'.code|), r0, b.freereg)
    {
      LoadGood(b, s, d, T, F, e, i, reg, r1, r0);
    }
    hide Good, Landed;
    Extend(b, s, cl, T, F, e, s', cl', T, F, e);
  }

  lemma LoadGood(b: S, s: S, d: Kind, T: seq<int>, F: seq<int>, e: Expr, i: Instr, reg: nat, r1: Regs, r0: Regs)
    requires WF(s) && WF(Emit(s, i)) && Loads(s, d, i, reg) && reg < NO_REG
    requires ClaimWF(s, HasValue(d, -1)) && ClaimWF(Emit(s, i), HasValue(VNonReloc(reg), reg))
    requires Landed(s, HasValue(d, -1), Eval(s.ops, e, r0), r1, r0, b.freereg)
    ensures var s' := Emit(s, i);
            Good(s', HasValue(VNonReloc(reg), reg), T, F, Eval(s.ops, e, r0), Exec(C(s'), |s.code|, r1, |s'.code|), r0, b.freereg)
  {
    hide Eval;
    var s' := Emit(s, i);
    assert s'.code[|s.code|] == i;
    var o := Step(C(s'), |s.code|, r1, |s'.code|);
    assert o.At? && o.pc == |s'.code| && o.regs == r1[reg := Eval(s.ops, e, r0)];
    assert Exec(C(s'), |s.code|, r1, |s'.code|) == o;
  }

  /** A constant with a large index takes LOADKX and EXTRAARG. */
  lemma EmitLoadKX(b: S, s: S, x: nat, T: seq<int>, F: seq<int>, e: Expr, reg: nat)
    requires Sim(b, s, HasValue(VK(x), -1), T, F, e) && reg < NO_REG
    ensures Sim(b, Emit(Emit(s, LoadKX(reg)), ExtraArg(x)), HasValue(VNonReloc(reg), reg), T, F, e)
  {
    var cl, cl' := HasValue(VK(x), -1), HasValue(VNonReloc(reg), reg);
    var m := Emit(s, LoadKX(reg));
    var s' := Emit(m, ExtraArg(x));
    DischargedWF(s);
    DischargedNone(m);
    EmitFrame(b, s, T, F, s');
    forall r1: Regs, r0: Regs | Landed(s, cl, Eval(s.ops, e, r0), r1, r0, b.freereg)
      ensures Good(s', cl', T, F, Eval(s.ops, e, r0), Exec(C(s'), |s.code|, r1, |s'.code|), r0, b.freereg)
    {
      var o := Step(C(s'), |s.code|, r1, |s'.code|);
      assert o == At(|s'.code|, r1[reg := Eval(s.ops, e, r0)]);
      assert Exec(C(s'), |s.code|, r1, |s'.code|) == o;
    }
    Extend(b, s, cl, T, F, e, s', cl', T, F, e);
  }

  /** 'SETARG_A' on a relocatable instruction. */
  predicate SameOperation(j: Instr, i: Instr, reg: nat) {
    match j
    case Not(_, x) => i == Not(reg, x)
    case Len(_, x) => i == Len(reg, x)
    case Neg(op, _, x) => i == Neg(op, reg, x)
    case Arith(op, _, x, y) => i == Arith(op, reg, x, y)
    case _ => false
  }

  lemma SameComputed(ops: Ops, k: seq<Value>, r: Regs, j: Instr, i: Instr, reg: nat)
    requires SameOperation(j, i, reg)
    ensures Computed(ops, k, r, j) == Computed(ops, k, r, i)
  {
  }

  /** The last instruction of a relocatable expression gets its target register. */
  lemma SetTarget(b: S, s: S, T: seq<int>, F: seq<int>, e: Expr, i: Instr, reg: nat)
    requires s.code != [] && Sim(b, s, HasValue(VReloc(|s.code| - 1), -1), T, F, e) && reg < NO_REG
    requires SameOperation(s.code[|s.code| - 1], i, reg)
    ensures Sim(b, s.(code := s.code[|s.code| - 1 := i]), HasValue(VNonReloc(reg), reg), T, F, e)
  {
    var n := |s.code| - 1;
    var s', cl, cl' := s.(code := s.code[n := i]), HasValue(VReloc(n), -1), HasValue(VNonReloc(reg), reg);
    assert Frame(b, s', {}, T, F) by {
      forall j | j in Outer(b) ensures Kept(b, s', j) { assert Kept(b, s, j); }
    }
    SetTargetTests(s, i);
    forall q: int, r: Regs | 0 <= q <= b.lasttarget
      ensures Carries(b, s, cl, T, F, s', cl', T, F, q, r)
    {
      SetTargetCarries(b, s, T, F, i, reg, q, r);
    }
    Lift(b, s, cl, T, F, e, s', cl', T, F);
  }

  lemma SetTargetCarries(b: S, s: S, T: seq<int>, F: seq<int>, i: Instr, reg: nat, q: int, r: Regs)
    requires s.code != [] && reg < 256 && ClaimWF(s, HasValue(VReloc(|s.code| - 1), -1))
    requires SameOperation(s.code[|s.code| - 1], i, reg)
    ensures var n := |s.code| - 1;
            Carries(b, s, HasValue(VReloc(n), -1), T, F, s.(code := s.code[n := i]),
                    HasValue(VNonReloc(reg), reg), T, F, q, r)
  {
    hide Exec;
    var n := |s.code| - 1;
    var s' := s.(code := s.code[n := i]);
    var o := Exec(C(s), q, r, n);
    var o' := Exec(C(s'), q, r, n + 1);
    SetTargetTests(s, i);
    SetTargetExec(s, i, reg, q, r);
    forall v: Value, r0: Regs | Good(s, HasValue(VReloc(n), -1), T, F, v, o, r0, b.freereg)
      ensures Good(s', HasValue(VNonReloc(reg), reg), T, F, v, o', r0, b.freereg)
    {
      if o.At? {
        assert Computed(s.ops, s.k, o.regs, s.code[n]) == Some(v);
      }
    }
  }

  lemma SetTargetTests(s: S, i: Instr)
    requires s.code != [] && !s.code[|s.code| - 1].TestSet? && !i.TestSet?
    ensures forall j :: IsTestSet(s.code[|s.code| - 1 := i], j) == IsTestSet(s.code, j)
  {
  }

  lemma SetTargetExec(s: S, i: Instr, reg: nat, q: int, r: Regs)
    requires s.code != [] && reg < 256
    requires SameOperation(s.code[|s.code| - 1], i, reg)
    ensures var n := |s.code| - 1;
            var o := Exec(C(s), q, r, n);
            var o' := Exec(C(s.(code := s.code[n := i])), q, r, n + 1);
            o != Stuck ==>
              if o.At? && o.pc == n && Computed(s.ops, s.k, o.regs, s.code[n]).Some? then
                o' == At(n + 1, o.regs[reg := Computed(s.ops, s.k, o.regs, s.code[n]).value])
              else o.Exit? ==> o' == o
  {
    hide Exec;
    var n := |s.code| - 1;
    var s' := s.(code := s.code[n := i]);
    var o := Exec(C(s), q, r, n);
    if o != Stuck {
      ExecSame(C(s), C(s'), q, r, n);
      ExecSplit(C(s'), q, r, n, n + 1);
      if o.At? && o.pc == n { TargetStep(s, i, reg, o.regs); }
    }
  }

  lemma TargetStep(s: S, i: Instr, reg: nat, r: Regs)
    requires s.code != [] && reg < 256
    requires SameOperation(s.code[|s.code| - 1], i, reg)
    ensures var n := |s.code| - 1;
            var v := Computed(s.ops, s.k, r, s.code[n]);
            v.Some? ==> Exec(C(s.(code := s.code[n := i])), n, r, n + 1) == At(n + 1, r[reg := v.value])
  {
    var n := |s.code| - 1;
    var s' := s.(code := s.code[n := i]);
    var v := Computed(s.ops, s.k, r, s.code[n]);
    SameComputed(s.ops, s.k, r, s.code[n], i, reg);
    if v.Some? {
      assert Step(C(s'), n, r, n + 1) == At(n + 1, r[reg := v.value]);
      assert Exec(C(s'), n, r, n + 1) == Then(C(s'), Step(C(s'), n, r, n + 1), n + 1);
    }
  }

  // ----- 'luaK_nil' -----

  /** Merge of two register ranges set to nil. */
  ghost function MergedNil(pfrom: nat, pb: nat, from: nat): Instr {
    var lo := if pfrom < from then pfrom else from;
    var hi := if pfrom + pb > from then pfrom + pb else from;
    LoadNil(lo, hi - lo)
  }

  predicate CanMerge(pfrom: nat, pb: nat, from: nat) {
    (pfrom <= from <= pfrom + pb + 1) || (from <= pfrom <= from + 1)
  }

  /** Without a label in between, the end of the code is only reached through its last
      instruction. */
  lemma {:induction false} ThroughLast(s: S, q: int, r: Regs)
    requires WF(s) && s.lasttarget < |s.code| && s.code[|s.code| - 1].LoadNil? && 0 <= q < |s.code|
    requires var o := Exec(C(s), q, r, |s.code|); o != Stuck && (o.At? ==> o.pc == |s.code|)
    ensures var o := Exec(C(s), q, r, |s.code|); var n := |s.code| - 1;
            if o.At? then
              Exec(C(s), q, r, n).At? && Exec(C(s), q, r, n).pc == n &&
              o.regs == NilRange(Exec(C(s), q, r, n).regs, s.code[n].a, s.code[n].b)
            else Exec(C(s), q, r, n) == o
    decreases |s.code| - q
  {
    var n := |s.code| - 1;
    var t := Step(C(s), q, r, n + 1);
    if q < n {
      assert Step(C(s), q, r, n) == t;
      if t.At? {
        if t.pc > n {
          assert false;
        }
        ThroughLast(s, t.pc, t.regs);
      }
    } else {
      assert t == At(n + 1, NilRange(r, s.code[n].a, s.code[n].b));
      assert Exec(C(s), n + 1, t.regs, n + 1) == t;
    }
  }

  /** 'luaK_nil' extends the range of a preceding LOADNIL. */
  lemma MergeNil(b: S, s: S, T: seq<int>, F: seq<int>, e: Expr, reg: nat, pa: nat, pb: nat, i: Instr)
    requires Sim(b, s, HasValue(VNil, -1), T, F, e) && reg < NO_REG
    requires s.lasttarget < |s.code| && s.code[|s.code| - 1] == LoadNil(pa, pb)
    requires CanMerge(pa, pb, reg) && i == MergedNil(pa, pb, reg)
    ensures Sim(b, s.(code := s.code[|s.code| - 1 := i]), HasValue(VNonReloc(reg), reg), T, F, e)
  {
    var n := |s.code| - 1;
    var s', cl, cl' := s.(code := s.code[n := i]), HasValue(VNil, -1), HasValue(VNonReloc(reg), reg);
    assert s.pend == [];
    assert Frame(b, s', {}, T, F) by {
      forall j | j in Outer(b) ensures Kept(b, s', j) { assert Kept(b, s, j); }
    }
    SetTargetTests(s, i);
    forall q: int, r: Regs | 0 <= q <= b.lasttarget
      ensures Carries(b, s, cl, T, F, s', cl', T, F, q, r)
    {
      MergeExec(s, reg, q, r);
    }
    Lift(b, s, cl, T, F, e, s', cl', T, F);
  }

  lemma MergedRange(r: Regs, a: nat, b: nat, reg: nat)
    requires CanMerge(a, b, reg) && reg < 256
    ensures var i := MergedNil(a, b, reg);
            i.LoadNil? && NilRange(r, i.a, i.b) == NilRange(r, a, b)[reg := Nil]
  {
  }

  lemma MergeExec(s: S, reg: nat, q: int, r: Regs)
    requires WF(s) && s.lasttarget < |s.code| && s.code[|s.code| - 1].LoadNil? && 0 <= q < |s.code|
    requires var p := s.code[|s.code| - 1]; CanMerge(p.a, p.b, reg)
    requires reg < 256
    ensures var n := |s.code| - 1;
            var p := s.code[n];
            var s' := s.(code := s.code[n := MergedNil(p.a, p.b, reg)]);
            var o := Exec(C(s), q, r, n + 1);
            var o' := Exec(C(s'), q, r, n + 1);
            && (o.At? && o.pc == n + 1 ==> o' == At(n + 1, o.regs[reg := Nil]))
            && (o.Exit? ==> o' == o)
  {
    var n := |s.code| - 1;
    var p := s.code[n];
    var i := MergedNil(p.a, p.b, reg);
    var s' := s.(code := s.code[n := i]);
    var o := Exec(C(s), q, r, n + 1);
    if o.Exit? || (o.At? && o.pc == n + 1) {
      ThroughLast(s, q, r);
      ExecSame(C(s), C(s'), q, r, n);
      StepLast(s', n, q, r);
      if o.At? {
        MergedRange(Exec(C(s), q, r, n).regs, p.a, p.b, reg);
      }
    }
  }

  lemma StepLast(s: S, n: nat, q: int, r: Regs)
    requires n < |s.code| && s.code[n].LoadNil? && Exec(C(s), q, r, n) != Stuck
    ensures var o := Exec(C(s), q, r, n);
            && (o.At? && o.pc == n ==>
                  Exec(C(s), q, r, n + 1) == At(n + 1, NilRange(o.regs, s.code[n].a, s.code[n].b)))
            && (o.Exit? ==> Exec(C(s), q, r, n + 1) == o)
  {
    var o := Exec(C(s), q, r, n);
    ExecSplit(C(s), q, r, n, n + 1);
    if o.At? && o.pc == n {
      var t := Step(C(s), n, o.regs, n + 1);
      assert Exec(C(s), n, o.regs, n + 1) == t;
    }
  }

  // ----- Tests and jumps -----

  /** Running through a comparison and its loose jump, both at the end of the code. */
  lemma JmpSteps(s: S, q: int, r: Regs)
    requires |s.code| >= 2 && IsTest(s.code[|s.code| - 2]) && !s.code[|s.code| - 2].TestSet?
    requires s.code[|s.code| - 1].Jmp? && |s.code| - 1 in s.open
    requires Exec(C(s), q, r, |s.code| - 2) != Stuck
    ensures var o := Exec(C(s), q, r, |s.code| - 2);
            var n := |s.code|;
            if o.At? && o.pc == n - 2 then
              var t := Taken(s.ops, s.k, o.regs, s.code[n - 2]);
              t.Some? ==> Exec(C(s), q, r, n) == if t.value then Exit(n - 1, None, o.regs) else At(n, o.regs)
            else o.Exit? ==> Exec(C(s), q, r, n) == o
  {
    var n := |s.code|;
    var o := Exec(C(s), q, r, n - 2);
    ExecSplit(C(s), q, r, n - 2, n);
    if o.At? && o.pc == n - 2 {
      var t := Taken(s.ops, s.k, o.regs, s.code[n - 2]);
      if t.Some? {
        var u := Step(C(s), n - 2, o.regs, n);
        assert u == if t.value then At(n - 1, o.regs) else At(n, o.regs);
        assert Step(C(s), n - 1, o.regs, n) == Exit(n - 1, None, o.regs);
        assert Exec(C(s), n - 1, o.regs, n) == Exit(n - 1, None, o.regs);
        assert Exec(C(s), n, o.regs, n) == At(n, o.regs);
      }
    }
  }

  lemma OwnJump(b: S, s: S, d: S, T: seq<int>, F: seq<int>, j: int)
    requires Frame(b, s, {j}, T, F)
    requires d == s.(code := d.code) && |d.code| == |s.code|
    requires forall x :: x in Outer(b) ==> Kept(b, s, x) ==> Kept(b, d, x)
    ensures Frame(b, d, {j}, T, F)
    ensures Frame(b, d, {}, T + [j], F) && Frame(b, d, {}, T, F + [j])
  {
    assert ToSet(T + [j]) == ToSet(T) + {j};
    assert ToSet(F + [j]) == ToSet(F) + {j};
  }

  /** A comparison whose jump is still loose: leaving through it means true, falling means
      exactly false. */
  lemma JmpOpen(b: S, s: S, T: seq<int>, F: seq<int>, e: Expr)
    requires s.code != [] && Sim(b, s, HasValue(VJmp(|s.code| - 1), -1), T, F, e)
    ensures Sim(b, s, FallsFalse, T + [|s.code| - 1], F, e)
  {
    var j := |s.code| - 1;
    var cl, T' := HasValue(VJmp(j), -1), T + [j];
    OwnJump(b, s, s, T, F, j);
    assert j in s.open && j !in s.pend;
    forall q: int, r: Regs | 0 <= q <= b.lasttarget
      ensures Carries(b, s, cl, T, F, s, FallsFalse, T', F, q, r)
    {
      JmpOpenCarries(b, s, T, F, q, r);
    }
    Lift(b, s, cl, T, F, e, s, FallsFalse, T', F);
  }

  lemma JmpOpenCarries(b: S, s: S, T: seq<int>, F: seq<int>, q: int, r: Regs)
    requires s.code != [] && ClaimWF(s, HasValue(VJmp(|s.code| - 1), -1))
    requires |s.code| - 1 in s.open && |s.code| - 1 !in s.pend
    ensures Carries(b, s, HasValue(VJmp(|s.code| - 1), -1), T, F, s, FallsFalse, T + [|s.code| - 1], F, q, r)
  {
    hide Exec;
    var j := |s.code| - 1;
    var o := Exec(C(s), q, r, j - 1);
    var o' := Exec(C(s), q, r, j + 1);
    if o != Stuck {
      JmpSteps(s, q, r);
      forall v: Value, r0: Regs | Good(s, HasValue(VJmp(j), -1), T, F, v, o, r0, b.freereg)
        ensures Good(s, FallsFalse, T + [j], F, v, o', r0, b.freereg)
      {
        if o.At? {
          assert v == Bool(Taken(s.ops, s.k, o.regs, s.code[j - 1]).value);
        }
      }
    }
  }

  /** 'invertjump' */
  ghost function Inverted(s: S): S
    requires |s.code| >= 2 && s.code[|s.code| - 2].Cmp?
  {
    var i := s.code[|s.code| - 2];
    s.(code := s.code[|s.code| - 2 := Cmp(i.cmp, !i.want, i.b, i.c)])
  }

  lemma InvertedExec(s: S, q: int, r: Regs)
    requires |s.code| >= 2 && s.code[|s.code| - 2].Cmp?
    ensures var n := |s.code| - 2;
            var o := Exec(C(s), q, r, n);
            && (o != Stuck ==> Exec(C(Inverted(s)), q, r, n) == o)
    ensures var n := |s.code| - 2;
            var o := Exec(C(s), q, r, n);
            o.At? ==> var t := Taken(s.ops, s.k, o.regs, s.code[n]);
                      t.Some? ==> Taken(s.ops, s.k, o.regs, Inverted(s).code[n]) == Some(!t.value)
    ensures forall j :: IsTestSet(Inverted(s).code, j) == IsTestSet(s.code, j)
    ensures forall j :: 0 <= j < |s.code| && j != |s.code| - 2 ==> Inverted(s).code[j] == s.code[j]
  {
    if Exec(C(s), q, r, |s.code| - 2) != Stuck {
      ExecSame(C(s), C(Inverted(s)), q, r, |s.code| - 2);
    }
  }

  lemma Invert(b: S, s: S, T: seq<int>, F: seq<int>, e: Expr)
    requires |s.code| >= 2 && Sim(b, s, HasValue(VJmp(|s.code| - 1), -1), T, F, e)
    ensures Sim(b, Inverted(s), HasNot(VJmp(|s.code| - 1)), T, F, e)
  {
    hide Exec;
    var j := |s.code| - 1;
    var s', cl, cl' := Inverted(s), HasValue(VJmp(j), -1), HasNot(VJmp(j));
    InvertedExec(s, 0, seq(256, _ => Nil));
    assert j - 1 !in s.open;
    OwnJump(b, s, s', T, F, j);
    forall q: int, r: Regs | 0 <= q <= b.lasttarget
      ensures Carries(b, s, cl, T, F, s', cl', T, F, q, r)
    {
      NotCarries(b, s, T, F, q, r);
    }
    Lift(b, s, cl, T, F, e, s', cl', T, F);
  }

  lemma NotCarries(b: S, s: S, T: seq<int>, F: seq<int>, q: int, r: Regs)
    requires |s.code| >= 2 && ClaimWF(s, HasValue(VJmp(|s.code| - 1), -1))
    ensures Carries(b, s, HasValue(VJmp(|s.code| - 1), -1), T, F,
                    Inverted(s), HasNot(VJmp(|s.code| - 1)), T, F, q, r)
  {
    hide Exec;
    var j := |s.code| - 1;
    var s' := Inverted(s);
    var o := Exec(C(s), q, r, j - 1);
    InvertedExec(s, q, r);
    forall v: Value, r0: Regs | Good(s, HasValue(VJmp(j), -1), T, F, v, o, r0, b.freereg)
      ensures Good(s', HasNot(VJmp(j)), T, F, v, o, r0, b.freereg)
    {
      if o.At? {
        assert v == Bool(Taken(s.ops, s.k, o.regs, s.code[j - 1]).value);
      }
    }
  }

  /** An inverted comparison falls through exactly when the expression is true. */
  lemma JmpIfFalse(b: S, s: S, T: seq<int>, F: seq<int>, e: Expr)
    requires |s.code| >= 2 && Sim(b, s, HasValue(VJmp(|s.code| - 1), -1), T, F, e)
    ensures Sim(b, Inverted(s), IsTrue, T, F + [|s.code| - 1], e)
  {
    var j := |s.code| - 1;
    var s', cl, F' := Inverted(s), HasValue(VJmp(j), -1), F + [j];
    InvertedExec(s, 0, seq(256, _ => Nil));
    assert j - 1 !in s.open && j in s.open && j !in s.pend;
    OwnJump(b, s, s', T, F, j);
    forall q: int, r: Regs | 0 <= q <= b.lasttarget
      ensures Carries(b, s, cl, T, F, s', IsTrue, T, F', q, r)
    {
      InvertedCarries(b, s, T, F, q, r);
    }
    Lift(b, s, cl, T, F, e, s', IsTrue, T, F');
  }

  lemma InvertedCarries(b: S, s: S, T: seq<int>, F: seq<int>, q: int, r: Regs)
    requires |s.code| >= 2 && ClaimWF(s, HasValue(VJmp(|s.code| - 1), -1)) && |s.code| - 1 in s.open
    ensures Carries(b, s, HasValue(VJmp(|s.code| - 1), -1), T, F,
                    Inverted(s), IsTrue, T, F + [|s.code| - 1], q, r)
  {
    hide Exec;
    var j := |s.code| - 1;
    var s' := Inverted(s);
    var o := Exec(C(s), q, r, j - 1);
    var o' := Exec(C(s'), q, r, j + 1);
    InvertedExec(s, q, r);
    if o != Stuck {
      JmpSteps(s', q, r);
      forall v: Value, r0: Regs | Good(s, HasValue(VJmp(j), -1), T, F, v, o, r0, b.freereg)
        ensures Good(s', IsTrue, T, F + [j], v, o', r0, b.freereg)
      {
        if o.At? {
          assert v == Bool(Taken(s.ops, s.k, o.regs, s.code[j - 1]).value);
        }
      }
    }
  }

  /** A comparison as it is falls through exactly when the expression is false. */
  lemma JmpIfTrue(b: S, s: S, T: seq<int>, F: seq<int>, e: Expr)
    requires |s.code| >= 2 && Sim(b, s, HasValue(VJmp(|s.code| - 1), -1), T, F, e)
    ensures Sim(b, s, IsFalse, T + [|s.code| - 1], F, e)
  {
    JmpOpen(b, s, T, F, e);
    Relabel(b, s, FallsFalse, IsFalse, T + [|s.code| - 1], F, e);
  }

  /** The state after 'condjump': a test, then a dangling jump. */
  ghost function CondJump(s: S, i: Instr): S {
    Dangle(Emit(s, i), NO_JUMP)
  }

  lemma CondJumpFrame(b: S, s: S, T: seq<int>, F: seq<int>, i: Instr, d: S)
    requires WF(b) && WF(s) && Frame(b, s, {}, T, F) && d == CondJump(s, i) && IsTest(i)
    ensures |d.code| == |s.code| + 2 && d.code[|s.code|] == i && d.code[|s.code| + 1] == Jmp(0, NO_JUMP)
    ensures WF(d) && d.pend == []
    ensures SameBelow(C(Discharged(s)), C(d), |s.code|)
    ensures forall j :: j in T || j in F ==> j < |s.code| && IsTestSet(d.code, j) == IsTestSet(s.code, j)
    ensures Frame(b, d, {|s.code| + 1}, T, F)
    ensures Frame(b, d, {}, T + [|s.code| + 1], F)
    ensures Frame(b, d, {}, T, F + [|s.code| + 1])
  {
    hide Exec, Outer, Patched, ToSet;
    var m := Emit(s, i);
    var j := |s.code| + 1;
    DischargedWF(s);
    EmitFrame(b, s, T, F, m);
    forall x | x in T || x in F || x in Outer(b) ensures x < |s.code| { assert x in s.open; }
    assert ToSet(T + [j]) == ToSet(T) + {j};
    assert ToSet(F + [j]) == ToSet(F) + {j};
    forall x | x in Outer(b) ensures Kept(b, d, x) { assert Kept(b, m, x); }
  }

  /** Test a value in a register: 'cond' tells on which outcome the jump is taken. */
  lemma TestRegister(b: S, s: S, x: nat, spare: int, T: seq<int>, F: seq<int>, e: Expr, cond: bool)
    requires Sim(b, s, HasValue(VNonReloc(x), spare), T, F, e) && x < 256
    requires spare < 0 || spare >= b.freereg
    ensures var d := CondJump(s, TestSet(NO_REG, x, cond));
            var j := |s.code| + 1;
            Sim(b, d, if cond then IsFalse else IsTrue,
                if cond then T + [j] else T, if cond then F else F + [j], e)
  {
    hide Exec;
    var i := TestSet(NO_REG, x, cond);
    var d := CondJump(s, i);
    var j := |s.code| + 1;
    var cl, cl' := HasValue(VNonReloc(x), spare), if cond then IsFalse else IsTrue;
    CondJumpFrame(b, s, T, F, i, d);
    TestLands(b, s, d, x, spare, T, F, e, cond);
    hide Good, Landed, Frame;
    if cond {
      Extend(b, s, cl, T, F, e, d, IsFalse, T + [j], F, e);
    } else {
      Extend(b, s, cl, T, F, e, d, IsTrue, T, F + [j], e);
    }
  }

  lemma TestLands(b: S, s: S, d: S, x: nat, spare: int, T: seq<int>, F: seq<int>, e: Expr, cond: bool)
    requires ClaimWF(s, HasValue(VNonReloc(x), spare)) && (spare < 0 || spare >= b.freereg)
    requires |d.code| == |s.code| + 2 && d.pend == []
    requires d.code[|s.code|] == TestSet(NO_REG, x, cond) && d.code[|s.code| + 1].Jmp?
    requires |s.code| + 1 in d.open
    ensures var j := |s.code| + 1;
            forall r1: Regs, r0: Regs ::
              Landed(s, HasValue(VNonReloc(x), spare), Eval(s.ops, e, r0), r1, r0, b.freereg) ==>
              Good(d, if cond then IsFalse else IsTrue,
                   if cond then T + [j] else T, if cond then F else F + [j],
                   Eval(s.ops, e, r0), Exec(C(d), |s.code|, r1, |d.code|), r0, b.freereg)
  {
    forall r1: Regs, r0: Regs |
      Landed(s, HasValue(VNonReloc(x), spare), Eval(s.ops, e, r0), r1, r0, b.freereg)
      ensures var j := |s.code| + 1;
              Good(d, if cond then IsFalse else IsTrue,
                   if cond then T + [j] else T, if cond then F else F + [j],
                   Eval(s.ops, e, r0), Exec(C(d), |s.code|, r1, |d.code|), r0, b.freereg)
    {
      TestSetGood(b, s, d, x, spare, T, F, cond, Eval(s.ops, e, r0), r1, r0);
    }
  }

  lemma TestSetGood(b: S, s: S, d: S, x: nat, spare: int, T: seq<int>, F: seq<int>, cond: bool,
                    v: Value, r1: Regs, r0: Regs)
    requires x < 256 && (spare < 0 || spare >= b.freereg)
    requires Landed(s, HasValue(VNonReloc(x), spare), v, r1, r0, b.freereg)
    requires |d.code| == |s.code| + 2 && d.pend == []
    requires d.code[|s.code|] == TestSet(NO_REG, x, cond) && d.code[|s.code| + 1].Jmp?
    requires |s.code| + 1 in d.open
    ensures var j := |s.code| + 1;
            Good(d, if cond then IsFalse else IsTrue,
                 if cond then T + [j] else T, if cond then F else F + [j],
                 v, Exec(C(d), |s.code|, r1, |d.code|), r0, b.freereg)
  {
    TestSetExec(d, x, cond, r1);
    assert r1[x] == v;
  }

  lemma TestSetExec(d: S, x: nat, cond: bool, r: Regs)
    requires |d.code| >= 2 && x < 256
    requires d.code[|d.code| - 2] == TestSet(NO_REG, x, cond) && d.code[|d.code| - 1].Jmp?
    requires |d.code| - 1 in d.open
    ensures Exec(C(d), |d.code| - 2, r, |d.code|) ==
            if Truthy(r[x]) == cond then Exit(|d.code| - 1, Some(r[x]), r) else At(|d.code|, r)
  {
    var o := Step(C(d), |d.code| - 2, r, |d.code|);
    assert o == if Truthy(r[x]) == cond then Exit(|d.code| - 1, Some(r[x]), r) else At(|d.code|, r);
    assert Exec(C(d), |d.code| - 2, r, |d.code|) == o;
  }

  /** A final NOT is dropped and its operand tested with the opposite condition. */
  lemma TestNegated(b: S, s: S, T: seq<int>, F: seq<int>, e: Expr, cond: bool)
    requires s.code != [] && Sim(b, s, HasValue(VReloc(|s.code| - 1), -1), T, F, e)
    requires s.code[|s.code| - 1].Not?
    ensures var n := |s.code| - 1;
            var d := CondJump(s.(code := s.code[..n]), Test(s.code[n].b, !cond));
            Sim(b, d, if cond then IsFalse else IsTrue,
                if cond then T + [n + 1] else T, if cond then F else F + [n + 1], e)
  {
    hide Exec;
    var n := |s.code| - 1;
    var x := s.code[n].b;
    var m := s.(code := s.code[..n]);
    var i := Test(x, !cond);
    var d := CondJump(m, i);
    var cl, cl' := HasValue(VReloc(n), -1), if cond then IsFalse else IsTrue;
    var T', F' := if cond then T + [n + 1] else T, if cond then F else F + [n + 1];
    assert WF(m) by { forall j | j in s.open ensures j < n { assert s.code[j].Jmp?; } }
    assert Frame(b, m, {}, T, F) by {
      forall j | j in Outer(b) ensures Kept(b, m, j) { assert Kept(b, s, j); assert s.code[j].Jmp?; }
    }
    DischargedNone(m);
    CondJumpFrame(b, m, T, F, i, d);
    forall j | j in T || j in F ensures IsTestSet(m.code, j) == IsTestSet(s.code, j) {
      assert j in ToSet(T) || j in ToSet(F);
      assert j in s.open;
      assert j < n;
    }
    forall q: int, r: Regs | 0 <= q <= b.lasttarget
      ensures Carries(b, s, cl, T, F, d, cl', T', F', q, r)
    {
      NegatedCarries(b, s, d, T, F, cond, q, r);
    }
    Lift(b, s, cl, T, F, e, d, cl', T', F');
  }

  lemma NegatedCarries(b: S, s: S, d: S, T: seq<int>, F: seq<int>, cond: bool, q: int, r: Regs)
    requires s.code != [] && |d.code| == |s.code| + 1 && s.code[|s.code| - 1].Not?
    requires ClaimWF(s, HasValue(VReloc(|s.code| - 1), -1))
    requires d.code[|s.code| - 1] == Test(s.code[|s.code| - 1].b, !cond) && d.code[|s.code|].Jmp?
    requires |s.code| in d.open && d.pend == []
    requires SameBelow(C(s), C(d), |s.code| - 1) && s.k == d.k
    requires forall j :: j in T || j in F ==> IsTestSet(d.code, j) == IsTestSet(s.code, j)
    ensures var n := |s.code| - 1;
            Carries(b, s, HasValue(VReloc(n), -1), T, F, d, if cond then IsFalse else IsTrue,
                    if cond then T + [n + 1] else T, if cond then F else F + [n + 1], q, r)
  {
    var n := |s.code| - 1;
    var o := Exec(C(s), q, r, n);
    var T', F' := if cond then T + [n + 1] else T, if cond then F else F + [n + 1];
    var cl' := if cond then IsFalse else IsTrue;
    if o != Stuck {
      ExecSame(C(s), C(d), q, r, n);
      JmpSteps(d, q, r);
      var o' := Exec(C(d), q, r, n + 2);
      forall v: Value, r0: Regs | Good(s, HasValue(VReloc(n), -1), T, F, v, o, r0, b.freereg)
        ensures Good(d, cl', T', F', v, o', r0, b.freereg)
      {
        if o.At? {
          assert o.pc == n && v == Bool(!Truthy(o.regs[s.code[n].b]));
        }
      }
    }
  }
}
