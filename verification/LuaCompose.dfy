/** Steps of the code generator that put expressions together. */
module LuaCompose {
  import opened LuaMachine
  import opened LuaSpec
  import opened LuaProof

  // ----- Operators on one value -----

  lemma EmitNot(b: S, s: S, x: nat, spare: int, T: seq<int>, F: seq<int>, e: Expr)
    requires Sim(b, s, HasValue(VNonReloc(x), spare), T, F, e) && x < 256
    requires spare < 0 || spare >= b.freereg
    ensures Sim(b, Emit(s, Not(0, x)), HasNot(VReloc(|s.code|)), T, F, e)
  {
    var d, cl, cl' := Emit(s, Not(0, x)), HasValue(VNonReloc(x), spare), HasNot(VReloc(|s.code|));
    DischargedWF(s);
    EmitFrame(b, s, T, F, d);
    forall r1: Regs, r0: Regs | Landed(s, cl, Eval(s.ops, e, r0), r1, r0, b.freereg)
      ensures Good(d, cl', T, F, Eval(s.ops, e, r0), Exec(C(d), |s.code|, r1, |s.code|), r0, b.freereg)
    {
    }
    Extend(b, s, cl, T, F, e, d, cl', T, F, e);
  }

  /** Length and arithmetic negation. */
  ghost predicate UnaryInstr(u: UnOp, x: nat, i: Instr) {
    match u
    case NotOp => false
    case LenOp => i == Len(0, x)
    case MinusOp(op) => i == Neg(op, 0, x)
  }

  lemma EmitUnary(b: S, s: S, x: nat, spare: int, e: Expr, u: UnOp, i: Instr)
    requires Sim(b, s, HasValue(VNonReloc(x), spare), [], [], e) && x < 256 && UnaryInstr(u, x, i)
    requires spare < 0 || spare >= b.freereg
    ensures Sim(b, Emit(s, i), HasValue(VReloc(|s.code|), -1), [], [], EUn(u, e))
  {
    var d, cl, cl' := Emit(s, i), HasValue(VNonReloc(x), spare), HasValue(VReloc(|s.code|), -1);
    DischargedWF(s);
    EmitFrame(b, s, [], [], d);
    forall r1: Regs, r0: Regs | Landed(s, cl, Eval(s.ops, e, r0), r1, r0, b.freereg)
      ensures Good(d, cl', [], [], Eval(s.ops, EUn(u, e), r0), Exec(C(d), |s.code|, r1, |s.code|), r0, b.freereg)
    {
      UnaryGood(b, s, x, spare, e, u, i, r1, r0);
    }
    Extend(b, s, cl, [], [], e, d, cl', [], [], EUn(u, e));
  }

  lemma UnaryGood(b: S, s: S, x: nat, spare: int, e: Expr, u: UnOp, i: Instr, r1: Regs, r0: Regs)
    requires UnaryInstr(u, x, i) && x < 256 && (spare < 0 || spare >= b.freereg) && WF(Emit(s, i)) && WF(s)
    requires ClaimWF(s, HasValue(VNonReloc(x), spare)) && ClaimWF(Emit(s, i), HasValue(VReloc(|s.code|), -1))
    requires Landed(s, HasValue(VNonReloc(x), spare), Eval(s.ops, e, r0), r1, r0, b.freereg)
    ensures var d := Emit(s, i);
            Good(d, HasValue(VReloc(|s.code|), -1), [], [], Eval(s.ops, EUn(u, e), r0), Exec(C(d), |s.code|, r1, |s.code|), r0, b.freereg)
  {
  }

  /** 'codenot' at its end: the exit lists change places and forget their values. */
  ghost function Swapped(s: S, T: seq<int>, F: seq<int>): S {
    s.(code := Stripped(Stripped(s.code, T), F))
  }

  lemma SwappedCode(s: S, T: seq<int>, F: seq<int>)
    requires WF(s) && forall j :: j in T || j in F ==> j in s.open
    ensures WF(Swapped(s, T, F))
    ensures forall i :: 0 <= i < |s.code| && !s.code[i].TestSet? ==> Swapped(s, T, F).code[i] == s.code[i]
    ensures forall j :: j in T || j in F ==> !IsTestSet(Swapped(s, T, F).code, j)
    ensures forall j :: j !in T && j !in F ==> IsTestSet(Swapped(s, T, F).code, j) == IsTestSet(s.code, j)
  {
    var c1 := Stripped(s.code, T);
    var c2 := Stripped(c1, F);
    forall i | 0 <= i < |s.code| ensures c2[i] == StrippedAt(c1, F, i) && c1[i] == StrippedAt(s.code, T, i) {}
  }

  lemma SwappedExec(s: S, T: seq<int>, F: seq<int>, q: int, r: Regs, end: int)
    requires WF(s) && end <= |s.code| && DanglingBelow(C(s), T + F, end)
    requires Exec(C(s), q, r, end) != Stuck
    ensures Exec(C(Swapped(s, T, F)), q, r, end) == Drop(T + F, Exec(C(s), q, r, end))
  {
    assert forall j :: j in T ==> j in T + F;
    assert forall j :: j in F ==> j in T + F;
    var s1 := s.(code := Stripped(s.code, T));
    ExecStripped(C(s), T, q, r, end);
    assert DanglingBelow(C(s1), F, end) by {
      forall j | j in F ensures s1.code[j] == s.code[j] { assert s.code[j].Jmp?; }
    }
    ExecStripped(C(s1), F, q, r, end);
  }

  lemma SwapExits(b: S, s: S, d: Kind, T: seq<int>, F: seq<int>, e: Expr)
    requires Sim(b, s, HasNot(d), T, F, e)
    ensures Sim(b, Swapped(s, T, F), HasValue(d, -1), F, T, EUn(NotOp, e))
  {
    hide WF, ClaimWF, Frame, SemAt, Swapped;
    var s', cl, cl' := Swapped(s, T, F), HasNot(d), HasValue(d, -1);
    SimFacts(b, s, cl, T, F, e);
    SwapFrame(b, s, d, T, F);
    forall q: int, r: Regs | 0 <= q <= b.lasttarget
      ensures SemAt(b, s', cl', F, T, EUn(NotOp, e), q, r)
    {
      assert SemAt(b, s, cl, T, F, e, q, r);
      SwapAt(b, s, d, T, F, e, q, r);
    }
  }

  lemma SwapFrame(b: S, s: S, d: Kind, T: seq<int>, F: seq<int>)
    requires WF(s) && ClaimWF(s, HasNot(d)) && Frame(b, s, Own(HasNot(d)), T, F)
    ensures var s' := Swapped(s, T, F);
            && WF(s') && ClaimWF(s', HasValue(d, -1)) && Frame(b, s', Own(HasNot(d)), F, T)
            && Stop(s', HasValue(d, -1)) == Stop(s, HasNot(d))
    ensures forall j :: j in T || j in F ==> j in s.open && j !in Outer(b) && j !in s.pend && j < Stop(s, HasNot(d))
    ensures b.ops == s.ops
  {
    hide WF, ClaimWF, Frame, Stripped;
    var s' := Swapped(s, T, F);
    ExitsApart(b, s, Own(HasNot(d)), T, F);
    OpenBelowStop(s, d);
    SwappedCode(s, T, F);
    SwappedClaim(s, s', d);
    SwappedFrame(b, s, s', Own(HasNot(d)), T, F);
    assert b.ops == s.ops by { FrameOps(b, s, Own(HasNot(d)), T, F); }
  }

  lemma FrameOps(b: S, s: S, own: set<int>, T: seq<int>, F: seq<int>)
    requires Frame(b, s, own, T, F)
    ensures b.ops == s.ops
  {
  }

  lemma OpenBelowStop(s: S, d: Kind)
    requires WF(s) && ClaimWF(s, HasNot(d))
    ensures forall j :: j in s.open && j !in Own(HasNot(d)) ==> j < Stop(s, HasNot(d))
  {
  }

  lemma ExitsApart(b: S, s: S, own: set<int>, T: seq<int>, F: seq<int>)
    requires Frame(b, s, own, T, F)
    ensures forall j :: j in T || j in F ==> j in s.open && j !in Outer(b) && j !in s.pend && j !in own
    ensures forall j :: j in Outer(b) ==> j !in T && j !in F
  {
    forall j | j in T || j in F ensures j in s.open && j !in Outer(b) && j !in s.pend && j !in own {
      assert j in ToSet(T) || j in ToSet(F);
    }
  }

  lemma SwappedClaim(s: S, s': S, d: Kind)
    requires s' == s.(code := s'.code) && |s'.code| == |s.code| && ClaimWF(s, HasNot(d))
    requires forall i :: 0 <= i < |s.code| && !s.code[i].TestSet? ==> s'.code[i] == s.code[i]
    ensures ClaimWF(s', HasValue(d, -1)) && Stop(s', HasValue(d, -1)) == Stop(s, HasNot(d))
  {
  }

  lemma SwappedFrame(b: S, s: S, s': S, own: set<int>, T: seq<int>, F: seq<int>)
    requires Frame(b, s, own, T, F) && WF(s)
    requires s' == s.(code := s'.code) && |s'.code| == |s.code|
    requires forall i :: 0 <= i < |s.code| && !s.code[i].TestSet? ==> s'.code[i] == s.code[i]
    requires forall j :: j !in T && j !in F ==> IsTestSet(s'.code, j) == IsTestSet(s.code, j)
    ensures Frame(b, s', own, F, T)
  {
    ExitsApart(b, s, own, T, F);
    forall j | j in Outer(b) ensures Kept(b, s', j) {
      assert Kept(b, s, j);
      assert s.code[j].Jmp?;
    }
    assert s'.open == Outer(b) + ToSet(F) + ToSet(T) + ToSet(s'.pend) + own;
    assert Outer(b) !! ToSet(F) !! ToSet(T) !! ToSet(s'.pend) !! own;
  }

  lemma SwapAt(b: S, s: S, d: Kind, T: seq<int>, F: seq<int>, e: Expr, q: int, r: Regs)
    requires WF(s) && ClaimWF(s, HasNot(d)) && ClaimWF(Swapped(s, T, F), HasValue(d, -1)) && b.ops == s.ops
    requires SemAt(b, s, HasNot(d), T, F, e, q, r)
    requires forall j :: j in T || j in F ==> j in s.open && j !in Outer(b) && j !in s.pend && j < Stop(s, HasNot(d))
    ensures SemAt(b, Swapped(s, T, F), HasValue(d, -1), F, T, EUn(NotOp, e), q, r)
  {
    hide Good, ClaimWF, WF, Exec;
    var n := Stop(s, HasNot(d));
    var o0 := Exec(C(b), q, r, |b.code|);
    var a := Arrive(o0, b.pend, |b.code|);
    assert Stop(Swapped(s, T, F), HasValue(d, -1)) == n;
    if a.Some? {
      var v := Eval(s.ops, e, a.value);
      assert Eval(s.ops, EUn(NotOp, e), a.value) == Bool(!Truthy(v));
      SwapOut(b, s, d, T, F, v, q, r, a.value);
    } else if o0.Exit? {
      SwapOuter(b, s, d, T, F, q, r);
    }
  }

  lemma SwapOuter(b: S, s: S, d: Kind, T: seq<int>, F: seq<int>, q: int, r: Regs)
    requires WF(s)
    requires forall j :: j in T || j in F ==> j in s.open && j !in Outer(b) && j !in s.pend && j < Stop(s, HasNot(d))
    requires var o := Exec(C(b), q, r, |b.code|);
             o.Exit? && o.j !in b.pend && Exec(C(s), q, r, Stop(s, HasNot(d))) == o
    ensures Exec(C(Swapped(s, T, F)), q, r, Stop(s, HasNot(d))) == Exec(C(s), q, r, Stop(s, HasNot(d)))
  {
    ExitIsOpen(C(b), q, r, |b.code|);
    SwappedExec(s, T, F, q, r, Stop(s, HasNot(d)));
  }

  lemma SwapOut(b: S, s: S, d: Kind, T: seq<int>, F: seq<int>, v: Value, q: int, r: Regs, r0: Regs)
    requires WF(s) && ClaimWF(s, HasNot(d)) && ClaimWF(Swapped(s, T, F), HasValue(d, -1))
    requires Good(s, HasNot(d), T, F, v, Exec(C(s), q, r, Stop(s, HasNot(d))), r0, b.freereg)
    requires forall j :: j in T || j in F ==> j in s.open && j !in s.pend && j < Stop(s, HasNot(d))
    ensures Good(Swapped(s, T, F), HasValue(d, -1), F, T, Bool(!Truthy(v)),
                 Exec(C(Swapped(s, T, F)), q, r, Stop(s, HasNot(d))), r0, b.freereg)
  {
    SwappedExec(s, T, F, q, r, Stop(s, HasNot(d)));
    SwapGood(b, s, d, T, F, v, Exec(C(s), q, r, Stop(s, HasNot(d))), r0);
  }

  lemma SwapGood(b: S, s: S, d: Kind, T: seq<int>, F: seq<int>, v: Value, o: Out, r0: Regs)
    requires ClaimWF(s, HasNot(d)) && ClaimWF(Swapped(s, T, F), HasValue(d, -1)) && WF(s)
    requires Good(s, HasNot(d), T, F, v, o, r0, b.freereg)
    requires forall j :: j in T || j in F ==> j in s.open && j !in s.pend
    ensures Good(Swapped(s, T, F), HasValue(d, -1), F, T, Bool(!Truthy(v)), Drop(T + F, o), r0, b.freereg)
  {
    SwappedCode(s, T, F);
    assert forall j :: j in T + F <==> j in T || j in F;
    match o
    case At(p, r) => SwapValue(s, d, T, F, r, Bool(!Truthy(v)));
    case Exit(j, val, r) =>
      if j in s.pend { SwapValue(s, d, T, F, r, Bool(!Truthy(v))); }
  }

  lemma SwapValue(s: S, d: Kind, T: seq<int>, F: seq<int>, r: Regs, v: Value)
    requires ClaimWF(s, HasNot(d)) && ClaimWF(Swapped(s, T, F), HasValue(d, -1)) && WF(s)
    requires ValueAt(s, d, r, v)
    requires forall j :: j in T || j in F ==> j in s.open
    ensures ValueAt(Swapped(s, T, F), d, r, v)
  {
    SwappedCode(s, T, F);
  }

  // ----- Short circuit -----

  lemma AgreeTrans(r2: Regs, r1: Regs, r0: Regs, m: nat, n: nat, spare: int)
    requires Agree(r2, r1, n, spare) && Agree(r1, r0, m, -1) && m <= n
    ensures Agree(r2, r0, m, spare)
  {
  }

  /** e1 decided, e2 coded after it: the code stands for 'e1 and e2' (or 'e1 or e2'); the exits
      kept from e1 join those of e2. */
  lemma ShortCircuit(b: S, s: S, s2: S, and: bool, L1: seq<int>, d: Kind, T2: seq<int>, F2: seq<int>,
                     e1: Expr, e2: Expr)
    requires Sim(b, s, if and then IsTrue else IsFalse, if and then [] else L1, if and then L1 else [], e1)
    requires Sim(s, s2, HasValue(d, -1), T2, F2, e2)
    requires WellFormed(e2, b.nactvar) && b.freereg <= s.freereg
    ensures Sim(b, s2, HasValue(d, -1), if and then T2 else T2 + L1, if and then F2 + L1 else F2,
                EBin(if and then And else Or, e1, e2))
  {
    var cl1, cl := if and then IsTrue else IsFalse, HasValue(d, -1);
    var T, F := if and then [] else L1, if and then L1 else [];
    var T', F' := if and then T2 else T2 + L1, if and then F2 + L1 else F2;
    var e := EBin(if and then And else Or, e1, e2);
    assert Outer(s) == Outer(b) + ToSet(L1);
    ComposeFrame(b, s, s2, and, L1, Own(cl), T2, F2);
    forall j | j in L1 ensures Kept(s, s2, j) && j !in s2.pend && j !in s.pend { assert j in ToSet(L1); }
    forall q: int, r: Regs | 0 <= q <= b.lasttarget ensures SemAt(b, s2, cl, T', F', e, q, r) {
      assert SemAt(b, s, cl1, T, F, e1, q, r);
      assert SemAt(s, s2, cl, T2, F2, e2, q, r);
      if and {
        AndAt(b, s, s2, L1, d, T2, F2, e1, e2, q, r);
      } else {
        OrAt(b, s, s2, L1, d, T2, F2, e1, e2, q, r);
      }
    }
  }

  lemma AndAt(b: S, s: S, s2: S, L1: seq<int>, d: Kind, T2: seq<int>, F2: seq<int>,
              e1: Expr, e2: Expr, q: int, r: Regs)
    requires ClaimWF(s2, HasValue(d, -1)) && b.freereg <= s.freereg && b.ops == s.ops == s2.ops
    requires SemAt(b, s, IsTrue, [], L1, e1, q, r) && SemAt(s, s2, HasValue(d, -1), T2, F2, e2, q, r)
    requires WellFormed(e2, b.nactvar) && b.nactvar <= b.freereg
    requires forall j :: j in L1 ==> Kept(s, s2, j) && j !in s2.pend && j !in s.pend
    requires forall j :: j in Outer(b) ==> j !in s.pend
    ensures SemAt(b, s2, HasValue(d, -1), T2, F2 + L1, EBin(And, e1, e2), q, r)
  {
    hide Exec, RK;
    var o0 := Exec(C(b), q, r, |b.code|);
    var o1 := Exec(C(s), q, r, |s.code|);
    var a := Arrive(o0, b.pend, |b.code|);
    if a.Some? {
      var a1 := Arrive(o1, s.pend, |s.code|);
      if a1.Some? {
        EvalAgree(s.ops, e2, a1.value, a.value, b.nactvar);
        DecidedGood(s, s2, true, L1, d, T2, F2, Eval(s.ops, e2, a.value),
                    Exec(C(s2), q, r, Stop(s2, HasValue(d, -1))), a1.value, a.value, b.freereg);
      }
    } else if o0.Exit? {
      ExitIsOpen(C(b), q, r, |b.code|);
    }
  }

  lemma OrAt(b: S, s: S, s2: S, L1: seq<int>, d: Kind, T2: seq<int>, F2: seq<int>,
             e1: Expr, e2: Expr, q: int, r: Regs)
    requires ClaimWF(s2, HasValue(d, -1)) && b.freereg <= s.freereg && b.ops == s.ops == s2.ops
    requires SemAt(b, s, IsFalse, L1, [], e1, q, r) && SemAt(s, s2, HasValue(d, -1), T2, F2, e2, q, r)
    requires WellFormed(e2, b.nactvar) && b.nactvar <= b.freereg
    requires forall j :: j in L1 ==> Kept(s, s2, j) && j !in s2.pend && j !in s.pend
    requires forall j :: j in Outer(b) ==> j !in s.pend
    ensures SemAt(b, s2, HasValue(d, -1), T2 + L1, F2, EBin(Or, e1, e2), q, r)
  {
    hide Exec;
    var o0 := Exec(C(b), q, r, |b.code|);
    var o1 := Exec(C(s), q, r, |s.code|);
    var a := Arrive(o0, b.pend, |b.code|);
    if a.Some? {
      var a1 := Arrive(o1, s.pend, |s.code|);
      if a1.Some? {
        EvalAgree(s.ops, e2, a1.value, a.value, b.nactvar);
        DecidedGood(s, s2, false, L1, d, T2, F2, Eval(s.ops, e2, a.value),
                    Exec(C(s2), q, r, Stop(s2, HasValue(d, -1))), a1.value, a.value, b.freereg);
      }
    } else if o0.Exit? {
      ExitIsOpen(C(b), q, r, |b.code|);
    }
  }

  lemma ComposeFrame(b: S, s: S, s2: S, and: bool, L1: seq<int>, own: set<int>, T2: seq<int>, F2: seq<int>)
    requires Frame(b, s, {}, if and then [] else L1, if and then L1 else [])
    requires Frame(s, s2, own, T2, F2) && Outer(s) == Outer(b) + ToSet(L1)
    ensures Frame(b, s2, own, if and then T2 else T2 + L1, if and then F2 + L1 else F2)
  {
    assert ToSet(T2 + L1) == ToSet(T2) + ToSet(L1);
    assert ToSet(F2 + L1) == ToSet(F2) + ToSet(L1);
    NoDupsConcat(T2, L1);
    NoDupsConcat(F2, L1);
    forall j | j in Outer(b) ensures Kept(b, s2, j) { assert Kept(b, s, j); assert Kept(s, s2, j); }
  }

  lemma NoDupsConcat(x: seq<int>, y: seq<int>)
    requires NoDups(x) && NoDups(y) && ToSet(x) !! ToSet(y)
    ensures NoDups(x + y)
  {
    forall i, j | 0 <= i < j < |x + y| ensures (x + y)[i] != (x + y)[j] {
      if i < |x| <= j { assert (x + y)[i] in ToSet(x) && (x + y)[j] in ToSet(y); }
    }
  }

  lemma DecidedGood(s: S, s2: S, and: bool, L1: seq<int>, d: Kind, T2: seq<int>, F2: seq<int>,
                    v: Value, o: Out, r1: Regs, r0: Regs, fr: nat)
    requires ClaimWF(s2, HasValue(d, -1)) && fr <= s.freereg
    requires Good(s2, HasValue(d, -1), T2, F2, v, o, r1, s.freereg) && Agree(r1, r0, fr, -1)
    ensures Good(s2, HasValue(d, -1), if and then T2 else T2 + L1, if and then F2 + L1 else F2, v, o, r0, fr)
  {
    if o.At? || o.Exit? { AgreeTrans(o.regs, r1, r0, fr, s.freereg, -1); }
  }

  // ----- Operators on two values -----

  /** The RK operand that a descriptor already is ('luaK_exp2RK'). */
  predicate IsOperand(d: Kind, x: nat, freereg: nat) {
    match d
    case VK(i) => i <= MAXINDEXRK && x == BITRK + i
    case VNonReloc(reg) => reg < 256 && reg < freereg && x == reg
    case _ => false
  }

  lemma Operands(b: S, s: S, s2: S, d1: Kind, d2: Kind, x1: nat, x2: nat, e1: Expr, e2: Expr, e: Expr)
    requires Sim(b, s, HasValue(d1, -1), [], [], e1)
    requires Sim(s, s2, HasValue(d2, -1), [], [], e2)
    requires IsOperand(d1, x1, s.freereg) && IsOperand(d2, x2, s2.freereg)
    requires WellFormed(e2, b.nactvar) && b.freereg <= s.freereg
    ensures Sim(b, s2, HasOperands(x1, x2, e1, e2), [], [], e)
  {
    var cl := HasOperands(x1, x2, e1, e2);
    assert Outer(s) == Outer(b);
    assert Frame(b, s2, {}, [], []) by {
      forall j | j in Outer(b) ensures Kept(b, s2, j) { assert Kept(b, s, j); assert Kept(s, s2, j); }
    }
    forall q: int, r: Regs | 0 <= q <= b.lasttarget ensures SemAt(b, s2, cl, [], [], e, q, r) {
      assert SemAt(b, s, HasValue(d1, -1), [], [], e1, q, r);
      assert SemAt(s, s2, HasValue(d2, -1), [], [], e2, q, r);
      OperandsSem(b, s, s2, d1, d2, x1, x2, e1, e2, e, q, r);
    }
  }

  lemma OperandsSem(b: S, s: S, s2: S, d1: Kind, d2: Kind, x1: nat, x2: nat, e1: Expr, e2: Expr, e: Expr, q: int, r: Regs)
    requires ClaimWF(s, HasValue(d1, -1)) && ClaimWF(s2, HasValue(d2, -1)) && s.k <= s2.k && Outer(s) == Outer(b)
    requires b.ops == s.ops == s2.ops && b.nactvar <= b.freereg <= s.freereg && WellFormed(e2, b.nactvar)
    requires IsOperand(d1, x1, s.freereg) && IsOperand(d2, x2, s2.freereg)
    requires SemAt(b, s, HasValue(d1, -1), [], [], e1, q, r) && SemAt(s, s2, HasValue(d2, -1), [], [], e2, q, r)
    requires forall j :: j in Outer(b) ==> j !in s.pend
    ensures SemAt(b, s2, HasOperands(x1, x2, e1, e2), [], [], e, q, r)
  {
    var o0 := Exec(C(b), q, r, |b.code|);
    var o1 := Exec(C(s), q, r, |s.code|);
    var a := Arrive(o0, b.pend, |b.code|);
    if a.Some? {
      var a1 := Arrive(o1, s.pend, |s.code|);
      var r0, r1 := a.value, a1.value;
      var o2 := Exec(C(s2), q, r, |s2.code|);
      EvalAgree(s.ops, e2, r1, r0, b.nactvar);
      OperandsAt(s, s2, d1, d2, x1, x2, e1, e2, o2.regs, r1, r0, b.freereg);
    } else if o0.Exit? {
      ExitIsOpen(C(b), q, r, |b.code|);
    }
  }

  lemma OperandsAt(s: S, s2: S, d1: Kind, d2: Kind, x1: nat, x2: nat, e1: Expr, e2: Expr,
                   r2: Regs, r1: Regs, r0: Regs, fr: nat)
    requires ClaimWF(s, HasValue(d1, -1)) && ClaimWF(s2, HasValue(d2, -1)) && s.k <= s2.k
    requires s.ops == s2.ops && fr <= s.freereg
    requires IsOperand(d1, x1, s.freereg) && IsOperand(d2, x2, s2.freereg)
    requires ValueAt(s, d1, r1, Eval(s.ops, e1, r0)) && ValueAt(s2, d2, r2, Eval(s.ops, e2, r0))
    requires Agree(r2, r1, s.freereg, -1) && Agree(r1, r0, fr, -1)
    ensures RK(s2.k, r2, x1) == Some(Eval(s.ops, e1, r0))
    ensures RK(s2.k, r2, x2) == Some(Eval(s.ops, e2, r0))
    ensures Agree(r2, r0, fr, -1)
  {
    AgreeTrans(r2, r1, r0, fr, s.freereg, -1);
    match d1
    case VK(i) => assert s2.k[i] == s.k[i];
    case VNonReloc(x) => assert r2[x] == r1[x];
  }

  lemma SwapOperands(b: S, s: S, x1: nat, x2: nat, e1: Expr, e2: Expr, e: Expr)
    requires Sim(b, s, HasOperands(x1, x2, e1, e2), [], [], e)
    ensures Sim(b, s, HasOperands(x2, x1, e2, e1), [], [], e)
  {
    Relabel(b, s, HasOperands(x1, x2, e1, e2), HasOperands(x2, x1, e2, e1), [], [], e);
  }

  lemma EmitArith(b: S, s: S, x1: nat, x2: nat, e1: Expr, e2: Expr, op: ArithOp)
    requires Sim(b, s, HasOperands(x1, x2, e1, e2), [], [], EBin(Arithmetic(op), e1, e2))
    ensures Sim(b, Emit(s, Arith(op, 0, x1, x2)), HasValue(VReloc(|s.code|), -1), [], [],
                EBin(Arithmetic(op), e1, e2))
  {
    var e := EBin(Arithmetic(op), e1, e2);
    var i := Arith(op, 0, x1, x2);
    var d, cl, cl' := Emit(s, i), HasOperands(x1, x2, e1, e2), HasValue(VReloc(|s.code|), -1);
    DischargedWF(s);
    EmitFrame(b, s, [], [], d);
    forall r1: Regs, r0: Regs | Landed(s, cl, Eval(s.ops, e, r0), r1, r0, b.freereg)
      ensures Good(d, cl', [], [], Eval(s.ops, e, r0), Exec(C(d), |s.code|, r1, |s.code|), r0, b.freereg)
    {
      assert d.code[|s.code|] == i;
    }
    Extend(b, s, cl, [], [], e, d, cl', [], [], e);
  }

  /** The comparison that op stands for, as an instruction on the operands of e1 and e2. */
  function CmpInstr(op: BinOp, x1: nat, x2: nat): Option<Instr> {
    match op
    case Compare(c) => Some(Cmp(c, true, x1, x2))
    case NotEq => Some(Cmp(Eq, false, x1, x2))
    case Gt => Some(Cmp(Lt, true, x2, x1))
    case Ge => Some(Cmp(Le, true, x2, x1))
    case _ => None
  }

  lemma EmitCmp(b: S, s: S, x1: nat, x2: nat, e1: Expr, e2: Expr, op: BinOp, i: Instr)
    requires Sim(b, s, HasOperands(x1, x2, e1, e2), [], [], EBin(op, e1, e2))
    requires CmpInstr(op, x1, x2) == Some(i)
    ensures Sim(b, CondJump(s, i), HasValue(VJmp(|s.code| + 1), -1), [], [], EBin(op, e1, e2))
  {
    var e := EBin(op, e1, e2);
    var d, cl, cl' := CondJump(s, i), HasOperands(x1, x2, e1, e2), HasValue(VJmp(|s.code| + 1), -1);
    CondJumpFrame(b, s, [], [], i, d);
    forall r1: Regs, r0: Regs | Landed(s, cl, Eval(s.ops, e, r0), r1, r0, b.freereg)
      ensures Good(d, cl', [], [], Eval(s.ops, e, r0), Exec(C(d), |s.code|, r1, |s.code|), r0, b.freereg)
    {
      CmpValue(s, x1, x2, e1, e2, op, i, r1, r0);
    }
    Extend(b, s, cl, [], [], e, d, cl', [], [], e);
  }

  lemma CmpValue(s: S, x1: nat, x2: nat, e1: Expr, e2: Expr, op: BinOp, i: Instr, r1: Regs, r0: Regs)
    requires CmpInstr(op, x1, x2) == Some(i)
    requires RK(s.k, r1, x1) == Some(Eval(s.ops, e1, r0)) && RK(s.k, r1, x2) == Some(Eval(s.ops, e2, r0))
    ensures var t := Taken(s.ops, s.k, r1, i);
            t.Some? && Eval(s.ops, EBin(op, e1, e2), r0) == Bool(t.value)
  {
  }

  // ----- Numeric constants -----

  predicate IsNumeral(d: Kind) {
    d.VKInt? || d.VKFlt?
  }

  function NumeralValue(d: Kind): Value
    requires IsNumeral(d)
  {
    if d.VKInt? then Int(d.n) else Flt(d.x)
  }

  function NumeralExpr(d: Kind): Expr
    requires IsNumeral(d)
  {
    if d.VKInt? then EInt(d.n) else EFlt(d.x)
  }

  /** A numeric constant followed by code for another expression. */
  lemma AfterNumeral(b: S, m: S, s: S, d: Kind, cl: Claim, e1: Expr, e2: Expr)
    requires IsNumeral(d) && Sim(b, m, HasValue(d, -1), [], [], e1)
    requires Sim(m, s, cl, [], [], e2) && cl.HasValue? && cl.spare == -1
    requires WellFormed(e2, b.nactvar) && b.freereg <= m.freereg
    ensures Sim(b, s, cl, [], [], e2)
  {
    assert Outer(m) == Outer(b);
    assert Frame(b, s, Own(cl), [], []) by {
      forall j | j in Outer(b) ensures Kept(b, s, j) { assert Kept(b, m, j); assert Kept(m, s, j); }
    }
    forall q: int, r: Regs | 0 <= q <= b.lasttarget ensures SemAt(b, s, cl, [], [], e2, q, r) {
      assert SemAt(b, m, HasValue(d, -1), [], [], e1, q, r);
      assert SemAt(m, s, cl, [], [], e2, q, r);
      var o0 := Exec(C(b), q, r, |b.code|);
      var o1 := Exec(C(m), q, r, |m.code|);
      var a := Arrive(o0, b.pend, |b.code|);
      if a.Some? {
        var r1 := Arrive(o1, m.pend, |m.code|).value;
        EvalAgree(s.ops, e2, r1, a.value, b.nactvar);
        SoonerGood(s, cl, Eval(s.ops, e2, r1), Exec(C(s), q, r, Stop(s, cl)), r1, a.value, b.freereg, m.freereg);
      } else if o0.Exit? {
        ExitIsOpen(C(b), q, r, |b.code|);
      }
    }
  }

  lemma SoonerGood(s: S, cl: Claim, v: Value, o: Out, r1: Regs, r0: Regs, fr: nat, fr1: nat)
    requires ClaimWF(s, cl) && cl.HasValue? && cl.spare == -1 && fr <= fr1
    requires Good(s, cl, [], [], v, o, r1, fr1) && Agree(r1, r0, fr, -1)
    ensures Good(s, cl, [], [], v, o, r0, fr)
  {
    if o.At? || o.Exit? { AgreeTrans(o.regs, r1, r0, fr, fr1, -1); }
  }

  /** An operand that is known to be a constant may be named by its expression. */
  lemma Rephrase(b: S, m: S, s: S, d: Kind, cl: Claim, e1: Expr, e2: Expr, op: BinOp)
    requires IsNumeral(d) && Sim(b, m, HasValue(d, -1), [], [], e1)
    requires Sim(b, s, cl, [], [], EBin(op, NumeralExpr(d), e2)) && !cl.HasOperands?
    ensures Sim(b, s, cl, [], [], EBin(op, e1, e2))
  {
    var e, e' := EBin(op, e1, e2), EBin(op, NumeralExpr(d), e2);
    forall q: int, r: Regs | 0 <= q <= b.lasttarget ensures SemAt(b, s, cl, [], [], e, q, r) {
      assert SemAt(b, m, HasValue(d, -1), [], [], e1, q, r);
      assert SemAt(b, s, cl, [], [], e', q, r);
      var o0 := Exec(C(b), q, r, |b.code|);
      var a := Arrive(o0, b.pend, |b.code|);
      if a.Some? { SameBinary(s.ops, e1, NumeralExpr(d), e2, op, a.value); }
    }
  }

  lemma SameBinary(ops: Ops, e1: Expr, e1': Expr, e2: Expr, op: BinOp, r: Regs)
    requires Eval(ops, e1, r) == Eval(ops, e1', r)
    ensures Eval(ops, EBin(op, e1, e2), r) == Eval(ops, EBin(op, e1', e2), r)
  {
  }

  /** Constant folding of a binary operator. */
  lemma FoldBinary(b: S, m: S, s: S, d1: Kind, d2: Kind, d: Kind, e1: Expr, e2: Expr, op: ArithOp)
    requires IsNumeral(d1) && IsNumeral(d2) && IsNumeral(d)
    requires Sim(b, m, HasValue(d1, -1), [], [], e1) && Sim(b, s, HasValue(d2, -1), [], [], e2)
    requires NumeralValue(d) == s.ops.arith(op, NumeralValue(d1), NumeralValue(d2))
    ensures Sim(b, s, HasValue(d, -1), [], [], EBin(Arithmetic(op), e1, e2))
  {
    var e := EBin(Arithmetic(op), e1, e2);
    forall q: int, r: Regs | 0 <= q <= b.lasttarget ensures SemAt(b, s, HasValue(d, -1), [], [], e, q, r) {
      assert SemAt(b, m, HasValue(d1, -1), [], [], e1, q, r);
      assert SemAt(b, s, HasValue(d2, -1), [], [], e2, q, r);
      FoldAt(b, m, s, d1, d2, d, e1, e2, op, q, r);
    }
  }

  lemma FoldAt(b: S, m: S, s: S, d1: Kind, d2: Kind, d: Kind, e1: Expr, e2: Expr, op: ArithOp, q: int, r: Regs)
    requires IsNumeral(d1) && IsNumeral(d2) && IsNumeral(d) && b.ops == m.ops == s.ops
    requires SemAt(b, m, HasValue(d1, -1), [], [], e1, q, r) && SemAt(b, s, HasValue(d2, -1), [], [], e2, q, r)
    requires NumeralValue(d) == s.ops.arith(op, NumeralValue(d1), NumeralValue(d2))
    ensures SemAt(b, s, HasValue(d, -1), [], [], EBin(Arithmetic(op), e1, e2), q, r)
  {
    hide Exec, SemAt, Arrive;
    ConstantIs(b, m, d1, e1, q, r);
    ConstantIs(b, s, d2, e2, q, r);
    ConstantFor(b, s, d2, d, e2, EBin(Arithmetic(op), e1, e2), q, r);
  }

  /** Where control arrives, a constant descriptor has the value of its expression. */
  lemma ConstantIs(b: S, s: S, d: Kind, e: Expr, q: int, r: Regs)
    requires IsNumeral(d) && SemAt(b, s, HasValue(d, -1), [], [], e, q, r)
    ensures var a := Arrive(Exec(C(b), q, r, |b.code|), b.pend, |b.code|); a.Some? ==> Eval(s.ops, e, a.value) == NumeralValue(d)
  {
    hide Exec, Eval;
  }

  /** A constant may be replaced by another one, for another expression of that value. */
  lemma ConstantFor(b: S, s: S, d': Kind, d: Kind, e': Expr, e: Expr, q: int, r: Regs)
    requires IsNumeral(d') && IsNumeral(d) && SemAt(b, s, HasValue(d', -1), [], [], e', q, r)
    requires var a := Arrive(Exec(C(b), q, r, |b.code|), b.pend, |b.code|); a.Some? ==> Eval(s.ops, e, a.value) == NumeralValue(d)
    ensures SemAt(b, s, HasValue(d, -1), [], [], e, q, r)
  {
    hide Exec, Eval;
  }

  lemma FoldUnary(b: S, s: S, d1: Kind, d: Kind, e1: Expr, op: ArithOp)
    requires IsNumeral(d1) && IsNumeral(d) && Sim(b, s, HasValue(d1, -1), [], [], e1)
    requires NumeralValue(d) == s.ops.arith(op, NumeralValue(d1), Int(0))
    ensures Sim(b, s, HasValue(d, -1), [], [], EUn(MinusOp(op), e1))
  {
    var e := EUn(MinusOp(op), e1);
    forall q: int, r: Regs | 0 <= q <= b.lasttarget ensures SemAt(b, s, HasValue(d, -1), [], [], e, q, r) {
      assert SemAt(b, s, HasValue(d1, -1), [], [], e1, q, r);
    }
  }

  // ----- 'exp2reg': materializing the value of jumps -----

  /** Some exit of l does not carry a value ('need_value'). */
  ghost predicate NeedsValue(code: seq<Instr>, l: seq<int>) {
    exists j :: j in l && !IsTestSet(code, j)
  }

  /** The code after 'exp2reg' when every exit carries its value. */
  ghost function Closed(s: S, T: seq<int>, F: seq<int>, reg: nat): S {
    BothPatched(s.(lasttarget := |s.code|), F, T, |s.code|, reg, NO_JUMP, NO_JUMP)
  }

  /** Both exit lists patched. */
  ghost function BothPatched(s: S, F: seq<int>, T: seq<int>, vt: int, reg: nat, pf: int, pt: int): S {
    s.(code := Patched(Patched(s.code, F, vt, reg, pf), T, vt, reg, pt),
       open := s.open - ToSet(F) - ToSet(T))
  }

  lemma PatchTwice(s: S, m: S, F: seq<int>, T: seq<int>, vt: int, reg: nat, pf: int, pt: int, q: int, r: Regs)
    requires C(m).ops == s.ops && C(m).k == s.k && SameBelow(C(s), C(m), |s.code|)
    requires DanglingBelow(C(s), F, |s.code|) && DanglingBelow(C(s), T, |s.code|)
    requires ToSet(T) !! ToSet(F) && vt >= |s.code| && reg <= NO_REG
    requires forall j :: j in F ==> IsTestSet(s.code, j) || pf >= |s.code|
    requires forall j :: j in T ==> IsTestSet(s.code, j) || pt >= |s.code|
    requires forall j :: j in T || j in F ==> IsTestSet(m.code, j) == IsTestSet(s.code, j)
    requires Exec(C(s), q, r, |s.code|) != Stuck
    ensures var d := BothPatched(m, F, T, vt, reg, pf, pt);
            var o := Exec(C(s), q, r, |s.code|);
            Exec(C(d), q, r, |s.code|) ==
            if o.Exit? && (o.j in F || o.j in T) then
              At(if IsTestSet(s.code, o.j) then vt else if o.j in F then pf else pt,
                 if o.val.Some? && reg < NO_REG then o.regs[reg := o.val.value] else o.regs)
            else o
  {
    var n := |s.code|;
    ExecSame(C(s), C(m), q, r, n);
    ExecPatched(C(m), F, vt, reg, pf, q, r, n);
    var c1 := PatchedChunk(C(m), F, vt, reg, pf);
    forall j | j in T
      ensures j in c1.open && c1.code[j].Jmp? && IsTestSet(c1.code, j) == IsTestSet(m.code, j)
    {
      assert j in ToSet(T) && j !in F;
      assert c1.code[j] == PatchedAt(m.code, F, vt, reg, pf, j);
      if j >= 1 { assert c1.code[j - 1] == PatchedAt(m.code, F, vt, reg, pf, j - 1); }
    }
    assert DanglingBelow(c1, T, n);
    ExecPatched(c1, T, vt, reg, pt, q, r, n);
    var o := Exec(C(s), q, r, n);
    if o.Exit? && o.j in F { assert o.j in ToSet(F) && o.j !in T; }
    if o.Exit? && o.j in T { assert o.j in ToSet(T) && o.j !in F; }
  }

  lemma PatchedKept(code: seq<Instr>, F: seq<int>, T: seq<int>, vt: int, reg: nat, pf: int, pt: int, j: int)
    requires 0 <= j < |code| && code[j].Jmp? && j !in F && j !in T
    requires forall i :: i in F || i in T ==> 0 <= i < |code| && code[i].Jmp?
    ensures var d := Patched(Patched(code, F, vt, reg, pf), T, vt, reg, pt);
            d[j] == code[j] && IsTestSet(d, j) == IsTestSet(code, j)
  {
    var c1 := Patched(code, F, vt, reg, pf);
    var d := Patched(c1, T, vt, reg, pt);
    assert c1[j] == PatchedAt(code, F, vt, reg, pf, j);
    assert d[j] == PatchedAt(c1, T, vt, reg, pt, j);
    if j >= 1 {
      assert c1[j - 1] == PatchedAt(code, F, vt, reg, pf, j - 1);
      assert d[j - 1] == PatchedAt(c1, T, vt, reg, pt, j - 1);
    }
  }

  lemma PatchedJumps(code: seq<Instr>, F: seq<int>, T: seq<int>, vt: int, reg: nat, pf: int, pt: int, i: int)
    requires 0 <= i < |code| && ToSet(F) !! ToSet(T)
    requires forall j :: j in F || j in T ==> 0 <= j < |code| && code[j].Jmp?
    ensures var d := Patched(Patched(code, F, vt, reg, pf), T, vt, reg, pt);
            d[i].Jmp? ==>
              && code[i].Jmp?
              && (i !in F && i !in T ==> d[i] == code[i])
              && (i in F || i in T ==>
                    i + 1 + d[i].sbx == if IsTestSet(code, i) then vt else if i in F then pf else pt)
    ensures var d := Patched(Patched(code, F, vt, reg, pf), T, vt, reg, pt);
            code[i].Jmp? ==> d[i].Jmp?
    ensures var d := Patched(Patched(code, F, vt, reg, pf), T, vt, reg, pt);
            !code[i].Jmp? && !code[i].TestSet? ==> d[i] == code[i]
  {
    var c1 := Patched(code, F, vt, reg, pf);
    var d := Patched(c1, T, vt, reg, pt);
    assert c1[i] == PatchedAt(code, F, vt, reg, pf, i);
    assert d[i] == PatchedAt(c1, T, vt, reg, pt, i);
    if i in T { assert i in ToSet(T) && i !in F; }
    if i >= 1 { assert c1[i - 1] == PatchedAt(code, F, vt, reg, pf, i - 1); }
  }

  lemma CloseExits(b: S, s: S, T: seq<int>, F: seq<int>, e: Expr, reg: nat)
    requires Sim(b, s, HasValue(VNonReloc(reg), reg), T, F, e) && reg < NO_REG
    requires !NeedsValue(s.code, T) && !NeedsValue(s.code, F)
    ensures Sim(b, Closed(s, T, F, reg), HasValue(VNonReloc(reg), reg), [], [], e)
  {
    hide WF, Frame, Closed, NeedsValue, Exec;
    var d, cl, n := Closed(s, T, F, reg), HasValue(VNonReloc(reg), reg), |s.code|;
    SimFacts(b, s, cl, T, F, e);
    ClosedFrame(b, s, T, F, reg);
    forall q: int, r: Regs | 0 <= q <= b.lasttarget
      ensures Carries(b, s, cl, T, F, d, cl, [], [], q, r)
    {
      ClosedCarries(b, s, T, F, reg, q, r);
    }
    Lift(b, s, cl, T, F, e, d, cl, [], []);
  }

  lemma ClosedFrame(b: S, s: S, T: seq<int>, F: seq<int>, reg: nat)
    requires WF(b) && WF(s) && Frame(b, s, {}, T, F) && reg < NO_REG
    requires !NeedsValue(s.code, T) && !NeedsValue(s.code, F)
    ensures var d := Closed(s, T, F, reg); WF(d) && Frame(b, d, {}, [], []) && |d.code| == |s.code|
  {
    var d, n := Closed(s, T, F, reg), |s.code|;
    ExitsApart(b, s, {}, T, F);
    forall j | j in T || j in F ensures 0 <= j < n && s.code[j].Jmp? && IsTestSet(s.code, j) {}
    forall i | 0 <= i < n ensures d.code[i].Jmp? && i !in d.open ==> i + 1 + d.code[i].sbx <= n {
      PatchedJumps(s.code, F, T, n, reg, NO_JUMP, NO_JUMP, i);
    }
    forall j | j in d.open ensures d.code[j].Jmp? {
      PatchedJumps(s.code, F, T, n, reg, NO_JUMP, NO_JUMP, j);
    }
    assert WF(d) by {
      forall j | j in s.pend ensures j in d.open { assert j in ToSet(s.pend); }
    }
    forall j | j in Outer(b) ensures Kept(b, d, j) {
      assert Kept(b, s, j) && j in s.open;
      PatchedKept(s.code, F, T, n, reg, NO_JUMP, NO_JUMP, j);
    }
  }

  lemma ClosedCarries(b: S, s: S, T: seq<int>, F: seq<int>, reg: nat, q: int, r: Regs)
    requires WF(b) && WF(s) && Frame(b, s, {}, T, F) && reg < NO_REG
    requires !NeedsValue(s.code, T) && !NeedsValue(s.code, F)
    requires |Closed(s, T, F, reg).code| == |s.code|
    ensures var cl := HasValue(VNonReloc(reg), reg);
            Carries(b, s, cl, T, F, Closed(s, T, F, reg), cl, [], [], q, r)
  {
    hide Exec;
    var d, cl, n := Closed(s, T, F, reg), HasValue(VNonReloc(reg), reg), |s.code|;
    ExitsApart(b, s, {}, T, F);
    var o := Exec(C(s), q, r, n);
    if o != Stuck {
      PatchTwice(s, s, F, T, n, reg, NO_JUMP, NO_JUMP, q, r);
      forall v: Value, r0: Regs | Good(s, cl, T, F, v, o, r0, b.freereg)
        ensures Good(d, cl, [], [], v, Exec(C(d), q, r, n), r0, b.freereg) {}
    }
  }

  ghost function Materialized(m: S, T: seq<int>, F: seq<int>, reg: nat, pend: seq<int>): S
  {
    var n := |m.code|;
    BothPatched(m.(pend := pend, lasttarget := n), F, T, n, reg, n - 2, n - 1)
  }

  /** Where control is after the code of s, it runs on to the end of the materialized code. */
  lemma MaterializedTail(d: S, reg: nat, r: Regs)
    requires |d.code| >= 2 && reg < 256
    requires d.code[|d.code| - 2] == LoadBool(reg, false, true)
    requires d.code[|d.code| - 1] == LoadBool(reg, true, false)
    ensures Exec(C(d), |d.code| - 2, r, |d.code|) == At(|d.code|, r[reg := Bool(false)])
    ensures Exec(C(d), |d.code| - 1, r, |d.code|) == At(|d.code|, r[reg := Bool(true)])
    ensures Exec(C(d), |d.code|, r, |d.code|) == At(|d.code|, r)
  {
    var n := |d.code|;
    assert Step(C(d), n - 2, r, n) == At(n, r[reg := Bool(false)]);
    assert Exec(C(d), n - 2, r, n) == At(n, r[reg := Bool(false)]);
    assert Step(C(d), n - 1, r, n) == At(n, r[reg := Bool(true)]);
    assert Exec(C(d), n - 1, r, n) == At(n, r[reg := Bool(true)]);
  }

  ghost predicate TwoBooleans(s: S, m: S, reg: nat) {
    && m == s.(code := m.code, open := m.open, pend := m.pend)
    && |s.code| + 2 <= |m.code| <= |s.code| + 3
    && m.open == s.open + (if |m.code| == |s.code| + 3 then {|s.code|} else {})
    && s.code == m.code[..|s.code|]
    && (|m.code| == |s.code| + 3 ==> m.code[|s.code|].Jmp?)
    && m.code[|m.code| - 2] == LoadBool(reg, false, true) && m.code[|m.code| - 1] == LoadBool(reg, true, false)
  }

  lemma MaterializedCode(s: S, m: S, T: seq<int>, F: seq<int>, reg: nat, pend: seq<int>, i: int)
    requires TwoBooleans(s, m, reg) && 0 <= i < |m.code| && ToSet(F) !! ToSet(T)
    requires forall j :: j in T || j in F ==> 0 <= j < |s.code| && s.code[j].Jmp? && j in s.open
    ensures var d, n := Materialized(m, T, F, reg, pend), |m.code|;
            && (d.code[i].Jmp? && i !in d.open ==> i in m.open || (m.code[i] == d.code[i] && i < |s.code|))
            && (d.code[i].Jmp? && i !in d.open && i in m.open ==> i + 1 + d.code[i].sbx <= n)
            && (m.code[i].Jmp? ==> d.code[i].Jmp?)
            && (m.code[i].LoadBool? ==> d.code[i] == m.code[i])
  {
    PatchedJumps(m.code, F, T, |m.code|, reg, |m.code| - 2, |m.code| - 1, i);
    assert i in ToSet(T) <==> i in T;
    assert i in ToSet(F) <==> i in F;
    forall j | j in T || j in F ensures m.code[j] == s.code[j] {}
  }

  lemma MaterializedWF(b: S, s: S, m: S, T: seq<int>, F: seq<int>, reg: nat, pend: seq<int>)
    requires WF(b) && WF(s) && Frame(b, s, {}, T, F) && reg < NO_REG && TwoBooleans(s, m, reg)
    requires pend == (if |m.code| == |s.code| + 3 then [|s.code|] else []) + s.pend
    ensures WF(Materialized(m, T, F, reg, pend))
  {
    var d, n, k := Materialized(m, T, F, reg, pend), |m.code|, |s.code|;
    forall j | j in T || j in F ensures 0 <= j < k && s.code[j].Jmp? && j in s.open {
      assert j in ToSet(T) || j in ToSet(F);
      assert j in s.open;
    }
    forall i | 0 <= i < n ensures d.code[i].Jmp? && i !in d.open ==> i + 1 + d.code[i].sbx <= n {
      MaterializedCode(s, m, T, F, reg, pend, i);
      if i < k { assert m.code[i] == s.code[i]; }
    }
    forall j | j in d.open ensures 0 <= j < n && d.code[j].Jmp? {
      if j in s.open { assert m.code[j] == s.code[j]; }
      MaterializedCode(s, m, T, F, reg, pend, j);
    }
    forall j | j in d.pend ensures j in d.open {
      if j in s.pend { assert j in ToSet(s.pend) && j in s.open; } else { assert j == k; }
    }
    assert k !in s.pend;
    NoDupsConcat(if n == k + 3 then [k] else [], s.pend);
  }

  lemma MaterializedFrame(b: S, s: S, m: S, T: seq<int>, F: seq<int>, reg: nat, pend: seq<int>)
    requires WF(b) && WF(s) && Frame(b, s, {}, T, F) && reg < NO_REG && TwoBooleans(s, m, reg)
    requires pend == (if |m.code| == |s.code| + 3 then [|s.code|] else []) + s.pend
    ensures Frame(b, Materialized(m, T, F, reg, pend), {}, [], [])
  {
    var d, n, k := Materialized(m, T, F, reg, pend), |m.code|, |s.code|;
    forall j | j in T || j in F ensures 0 <= j < k && m.code[j].Jmp? && j in s.open {
      assert j in ToSet(T) || j in ToSet(F);
      assert j in s.open;
      assert m.code[j] == s.code[j];
    }
    forall j | j in Outer(b) ensures Kept(b, d, j) {
      assert Kept(b, s, j) && j in s.open;
      assert j !in ToSet(T) && j !in ToSet(F);
      assert m.code[j] == s.code[j] && IsTestSet(m.code, j) == IsTestSet(s.code, j);
      PatchedKept(m.code, F, T, n, reg, n - 2, n - 1, j);
    }
    assert ToSet(d.pend) == (if n == k + 3 then {k} else {}) + ToSet(s.pend);
    assert k !in s.open;
  }

  /** Outcome of the materialized code, from the outcome 'o' of the code before it. */
  ghost function MaterializedOut(s: S, T: seq<int>, F: seq<int>, reg: nat, falls: bool, o: Out): Out
    requires reg < NO_REG
  {
    var n := if falls then |s.code| + 2 else |s.code| + 3;
    match o
    case Stuck => Stuck
    case At(_, r) => if falls then At(n, r[reg := Bool(false)]) else Exit(|s.code|, None, r)
    case Exit(j, val, r) =>
      if j !in T && j !in F then o
      else
        var r1 := if val.Some? then r[reg := val.value] else r;
        At(n, if IsTestSet(s.code, j) then r1 else r1[reg := Bool(j !in F)])
  }

  lemma SameChunk(m: S, T: seq<int>, F: seq<int>, reg: nat, pend: seq<int>)
    ensures var n := |m.code|;
            C(Materialized(m, T, F, reg, pend)) == C(BothPatched(m, F, T, n, reg, n - 2, n - 1))
  {
  }

  lemma MaterializedExec(s: S, m: S, T: seq<int>, F: seq<int>, reg: nat, pend: seq<int>, q: int, r: Regs)
    requires WF(s) && reg < NO_REG && TwoBooleans(s, m, reg) && ToSet(T) !! ToSet(F)
    requires DanglingBelow(C(s), F, |s.code|) && DanglingBelow(C(s), T, |s.code|)
    requires var o := Exec(C(s), q, r, |s.code|); o.Exit? || (o.At? && o.pc == |s.code|)
    ensures Exec(C(Materialized(m, T, F, reg, pend)), q, r, |m.code|) ==
            MaterializedOut(s, T, F, reg, |m.code| == |s.code| + 2, Exec(C(s), q, r, |s.code|))
  {
    hide BothPatched;
    var d, n, k := Materialized(m, T, F, reg, pend), |m.code|, |s.code|;
    SameChunk(m, T, F, reg, pend);
    var o := Exec(C(s), q, r, k);
    assert SameBelow(C(s), C(m), k);
    forall j | j in T || j in F ensures IsTestSet(m.code, j) == IsTestSet(s.code, j) {}
    PatchTwice(s, m, F, T, n, reg, n - 2, n - 1, q, r);
    assert C(d) == C(BothPatched(m, F, T, n, reg, n - 2, n - 1));
    ExecSplit(C(d), q, r, k, n);
    var o1 := Exec(C(d), q, r, k);
    if o1.At? {
      MaterializedRest(s, m, T, F, reg, pend, o1.regs);
      assert o.Exit? ==> (o.j in F <==> o.j in ToSet(F)) && (o.j in T <==> o.j in ToSet(T));
    }
  }

  lemma MaterializedRest(s: S, m: S, T: seq<int>, F: seq<int>, reg: nat, pend: seq<int>, r: Regs)
    requires WF(s) && reg < NO_REG && TwoBooleans(s, m, reg) && ToSet(T) !! ToSet(F)
    requires DanglingBelow(C(s), F, |s.code|) && DanglingBelow(C(s), T, |s.code|)
    ensures var d, n, k := Materialized(m, T, F, reg, pend), |m.code|, |s.code|;
            && Exec(C(d), n - 2, r, n) == At(n, r[reg := Bool(false)])
            && Exec(C(d), n - 1, r, n) == At(n, r[reg := Bool(true)])
            && Exec(C(d), n, r, n) == At(n, r)
            && (n == k + 3 ==> Exec(C(d), k, r, n) == Exit(k, None, r))
  {
    var d, n, k := Materialized(m, T, F, reg, pend), |m.code|, |s.code|;
    MaterializedCode(s, m, T, F, reg, pend, n - 2);
    MaterializedCode(s, m, T, F, reg, pend, n - 1);
    MaterializedTail(d, reg, r);
    if n == k + 3 {
      assert k !in T && k !in F;
      assert k in d.open;
      MaterializedCode(s, m, T, F, reg, pend, k);
      JumpOut(d, k, r, n);
    }
  }

  lemma MaterializedGood(s: S, d: S, cl: Claim, T: seq<int>, F: seq<int>, reg: nat, v: Value, o: Out, r0: Regs, fr: nat)
    requires reg < NO_REG && ClaimWF(s, cl) && ToSet(T) !! ToSet(F)
    requires cl == FallsFalse || cl == HasValue(VNonReloc(reg), reg)
    requires cl == FallsFalse ==> s.pend == [] && |d.code| == |s.code| + 2
    requires cl != FallsFalse ==> |d.code| == |s.code| + 3 && d.pend == [|s.code|] + s.pend
    requires forall j :: j in T || j in F ==> j !in s.pend
    requires Good(s, cl, T, F, v, o, r0, fr)
    ensures Good(d, HasValue(VNonReloc(reg), reg), [], [], v,
                 MaterializedOut(s, T, F, reg, cl == FallsFalse, o), r0, fr)
  {
    match o
    case At(p, r) => assert cl != FallsFalse ==> |s.code| in d.pend;
    case Exit(j, val, r) =>
      if j in s.pend {
        assert j in d.pend;
      } else {
        assert j in T <==> j in ToSet(T);
        assert j in F <==> j in ToSet(F);
      }
  }

  lemma Materialize(b: S, s: S, m: S, cl: Claim, T: seq<int>, F: seq<int>, e: Expr, reg: nat, pend: seq<int>)
    requires Sim(b, s, cl, T, F, e) && reg < NO_REG && TwoBooleans(s, m, reg)
    requires cl == FallsFalse || cl == HasValue(VNonReloc(reg), reg)
    requires |m.code| == if cl == FallsFalse then |s.code| + 2 else |s.code| + 3
    requires cl == FallsFalse ==> s.pend == []
    requires pend == (if cl == FallsFalse then [] else [|s.code|]) + s.pend
    ensures Sim(b, Materialized(m, T, F, reg, pend), HasValue(VNonReloc(reg), reg), [], [], e)
  {
    var d, n, k := Materialized(m, T, F, reg, pend), |m.code|, |s.code|;
    var cl' := HasValue(VNonReloc(reg), reg);
    MaterializedWF(b, s, m, T, F, reg, pend);
    MaterializedFrame(b, s, m, T, F, reg, pend);
    forall j | j in T || j in F ensures j in s.open && s.code[j].Jmp? && 0 <= j < k && j !in s.pend && j !in Outer(b) {
      assert j in ToSet(T) || j in ToSet(F);
      assert j in s.open;
    }
    forall q: int, r: Regs | 0 <= q <= b.lasttarget
      ensures Carries(b, s, cl, T, F, d, cl', [], [], q, r)
    {
      var o := Exec(C(s), q, r, k);
      if o.Exit? || (o.At? && o.pc == k) {
        MaterializedExec(s, m, T, F, reg, pend, q, r);
        forall v: Value, r0: Regs | Good(s, cl, T, F, v, o, r0, b.freereg)
          ensures Good(d, cl', [], [], v, Exec(C(d), q, r, n), r0, b.freereg)
        {
          MaterializedGood(s, d, cl, T, F, reg, v, o, r0, b.freereg);
        }
      }
    }
    Lift(b, s, cl, T, F, e, d, cl', [], []);
  }

  lemma JumpOut(d: S, k: int, r: Regs, end: int)
    requires 0 <= k < |d.code| && k < end && d.code[k].Jmp? && k in d.open
    ensures Exec(C(d), k, r, end) == Exit(k, None, r)
  {
    assert Step(C(d), k, r, end) == Exit(k, None, r);
  }
}
