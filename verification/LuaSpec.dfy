/** Source expressions, expression descriptors (lparser.h) and the relation between the code
    emitted so far and the expression it stands for. */
module LuaSpec {
  import opened LuaMachine

  // ----- Source expressions and their value -----

  datatype BinOp = And | Or | Compare(cmp: CmpOp) | NotEq | Gt | Ge | Arithmetic(op: ArithOp)
  datatype UnOp = NotOp | LenOp | MinusOp(op: ArithOp)

  datatype Expr =
    | ENil | ETrue | EFalse
    | EInt(n: int) | EFlt(x: int) | EStr(s: string)
    | ELocal(reg: nat)
    | EParen(e: Expr)
    | EUn(uop: UnOp, e: Expr)
    | EBin(bop: BinOp, e1: Expr, e2: Expr)

  predicate Unary(op: ArithOp) {
    op.Unm? || op.BNot?
  }

  /** Locals are active variables; operators are used with their arity. */
  predicate WellFormed(e: Expr, nactvar: nat) {
    match e
    case ELocal(x) => x < nactvar
    case EParen(e1) => WellFormed(e1, nactvar)
    case EUn(op, e1) => WellFormed(e1, nactvar) && (op.MinusOp? ==> Unary(op.op))
    case EBin(op, e1, e2) =>
      WellFormed(e1, nactvar) && WellFormed(e2, nactvar) && (op.Arithmetic? ==> !Unary(op.op))
    case _ => true
  }

  /** The value of an expression, given the values of the local variables. */
  ghost function Eval(ops: Ops, e: Expr, r: Regs): Value {
    match e
    case ENil => Nil
    case ETrue => Bool(true)
    case EFalse => Bool(false)
    case EInt(n) => Int(n)
    case EFlt(x) => Flt(x)
    case EStr(s) => Str(s)
    case ELocal(x) => if x < 256 then r[x] else Nil
    case EParen(e1) => Eval(ops, e1, r)
    case EUn(op, e1) =>
      var v := Eval(ops, e1, r);
      (match op
       case NotOp => Bool(!Truthy(v))
       case LenOp => ops.length(v)
       case MinusOp(aop) => ops.arith(aop, v, Int(0)))
    case EBin(op, e1, e2) =>
      var v := Eval(ops, e1, r);
      var w := Eval(ops, e2, r);
      (match op
       case And => if Truthy(v) then w else v
       case Or => if Truthy(v) then v else w
       case Compare(c) => Bool(ops.cmp(c, v, w))
       case NotEq => Bool(!ops.cmp(Eq, v, w))
       case Gt => Bool(ops.cmp(Lt, w, v))
       case Ge => Bool(ops.cmp(Le, w, v))
       case Arithmetic(aop) => ops.arith(aop, v, w))
  }

  /** Registers (counted from the first free one) that coding an expression may need. The first
      operand of 'and' and 'or' is decided before the second one is coded; those of the other
      operators are both kept. */
  function Need(e: Expr): nat {
    match e
    case EParen(e1) => Need(e1)
    case EUn(_, e1) => Need(e1)
    case EBin(op, e1, e2) =>
      var second := if op.And? || op.Or? then Need(e2) else Need(e2) + 1;
      if Need(e1) > second then Need(e1) else second
    case _ => 1
  }

  // ----- Expression descriptors -----

  datatype Kind =
    | VNil | VTrue | VFalse | VK(idx: nat) | VKFlt(x: int) | VKInt(n: int)
    | VNonReloc(reg: nat) | VLocal(reg: nat) | VJmp(pc: int) | VReloc(pc: int)

  /** 'expdesc': t and f head the lists of exits when true and when false. */
  datatype ExpDesc = ExpDesc(k: Kind, t: int, f: int)

  predicate HasJumps(e: ExpDesc) {
    e.t != e.f
  }

  // ----- Snapshot of the generator state -----

  datatype S = S(ops: Ops, code: seq<Instr>, k: seq<Value>, open: set<int>, pend: seq<int>,
                 freereg: nat, nactvar: nat, lasttarget: int)

  function C(s: S): Chunk {
    Chunk(s.ops, s.code, s.k, s.open)
  }

  ghost predicate WF(s: S) {
    && 0 <= s.lasttarget <= |s.code|
    && NoDups(s.pend)
    && (forall j :: j in s.pend ==> j in s.open)
    && (s.pend != [] ==> s.lasttarget == |s.code|)
    && (forall j :: j in s.open ==> 0 <= j < |s.code| && s.code[j].Jmp?)
    && (forall i :: 0 <= i < |s.code| && s.code[i].Jmp? && i !in s.open ==>
          i + 1 + s.code[i].sbx <= s.lasttarget)
    && s.nactvar <= s.freereg < MAXREGS
  }

  /** Dangling jumps that belong to the surrounding code. */
  function Outer(s: S): set<int> {
    s.open - ToSet(s.pend)
  }

  /** 'dischargejpc': pending jumps land on the next instruction. */
  ghost function Discharged(s: S): S {
    s.(code := Patched(s.code, s.pend, |s.code|, NO_REG, |s.code|),
       open := Outer(s), pend := [])
  }

  /** 'luaK_code' */
  ghost function Emit(s: S, i: Instr): S {
    Discharged(s).(code := Discharged(s).code + [i])
  }

  /** Add a jump with no destination, without letting pending jumps land before it. */
  ghost function Dangle(s: S, link: int): S {
    s.(code := s.code + [Jmp(0, link)], open := s.open + {|s.code|}, pend := [])
  }

  // ----- What emitted code does -----

  /** What is known where control comes out of the code:
      HasValue - the descriptor tells where the value is (register 'spare' may have changed);
      IsTrue, IsFalse - the expression was true (false) there;
      HasNot - the descriptor tells where its logical negation is;
      HasOperands - two RK operands hold the values of two subexpressions;
      FallsFalse - the expression is exactly 'false' there. */
  datatype Claim =
    | HasValue(d: Kind, spare: int)
    | HasNot(d: Kind)
    | HasOperands(x1: nat, x2: nat, e1: Expr, e2: Expr)
    | IsTrue | IsFalse | FallsFalse

  predicate Described(cl: Claim) {
    cl.HasValue? || cl.HasNot?
  }

  function Stop(s: S, cl: Claim): int {
    if Described(cl) && cl.d.VReloc? then |s.code| - 1
    else if Described(cl) && cl.d.VJmp? then |s.code| - 2
    else |s.code|
  }

  function Own(cl: Claim): set<int> {
    if Described(cl) && cl.d.VJmp? then {cl.d.pc} else {}
  }

  predicate IsReloc(i: Instr) {
    i.Not? || i.Len? || i.Neg? || i.Arith?
  }

  ghost predicate ClaimWF(s: S, cl: Claim) {
    Described(cl) ==>
      match cl.d
      case VReloc(i) =>
        i == |s.code| - 1 && 0 <= s.lasttarget <= i && IsReloc(s.code[i]) && s.pend == []
      case VJmp(i) =>
        && i == |s.code| - 1 && 0 <= s.lasttarget < i && s.code[i - 1].Cmp? && s.pend == []
        && s.code[i].Jmp? && s.code[i].sbx == NO_JUMP
      case VK(i) => i < |s.k|
      case VNonReloc(x) => x < 256
      case VLocal(x) => x < s.nactvar
      case _ => true
  }

  ghost predicate ValueAt(s: S, d: Kind, r: Regs, v: Value)
    requires ClaimWF(s, HasValue(d, -1))
  {
    match d
    case VNil => v == Nil
    case VTrue => v == Bool(true)
    case VFalse => v == Bool(false)
    case VK(i) => v == s.k[i]
    case VKFlt(x) => v == Flt(x)
    case VKInt(n) => v == Int(n)
    case VNonReloc(x) => r[x] == v
    case VLocal(x) => x < 256 && r[x] == v
    case VReloc(i) => Computed(s.ops, s.k, r, s.code[i]) == Some(v)
    case VJmp(i) =>
      var t := Taken(s.ops, s.k, r, s.code[i - 1]);
      t.Some? && v == Bool(t.value)
  }

  ghost predicate Agree(r: Regs, r0: Regs, fr: nat, spare: int) {
    forall i :: 0 <= i < fr && i < 256 && i != spare ==> r[i] == r0[i]
  }

  /** Control is at the end of the code of an expression of value v with registers r; they were
      r0 at its start. */
  ghost predicate Landed(s: S, cl: Claim, v: Value, r: Regs, r0: Regs, fr: nat)
    requires ClaimWF(s, cl)
  {
    && Agree(r, r0, fr, if cl.HasValue? then cl.spare else -1)
    && match cl
       case HasValue(d, _) => ValueAt(s, d, r, v)
       case HasNot(d) => ValueAt(s, d, r, Bool(!Truthy(v)))
       case HasOperands(x1, x2, e1, e2) =>
         && RK(s.k, r, x1) == Some(Eval(s.ops, e1, r0))
         && RK(s.k, r, x2) == Some(Eval(s.ops, e2, r0))
       case IsTrue => Truthy(v)
       case IsFalse => !Truthy(v)
       case FallsFalse => v == Bool(false)
  }

  /** Leaving through jump j: the expression is true (or false) and either the jump carries its
      value or the value is exactly the boolean. */
  ghost predicate Exited(s: S, want: bool, v: Value, j: int, val: Option<Value>) {
    && Truthy(v) == want
    && val.Some? == IsTestSet(s.code, j)
    && v == (if val.Some? then val.value else Bool(want))
  }

  /** How the code came to its end at 'pc', pending jumps included. */
  function Arrive(o: Out, pend: seq<int>, pc: int): Option<Regs> {
    match o
    case At(p, r) => if p == pc then Some(r) else None
    case Exit(j, _, r) => if j in pend then Some(r) else None
    case Stuck => None
  }

  ghost predicate Good(s: S, cl: Claim, T: seq<int>, F: seq<int>, v: Value, o: Out, r0: Regs, fr: nat)
    requires ClaimWF(s, cl)
  {
    match o
    case Stuck => false
    case At(p, r) => p == Stop(s, cl) && Landed(s, cl, v, r, r0, fr)
    case Exit(j, val, r) =>
      if j in s.pend then Stop(s, cl) == |s.code| && Landed(s, cl, v, r, r0, fr)
      else
        && Agree(r, r0, fr, -1)
        && ((j in T && Exited(s, true, v, j, val)) || (j in F && Exited(s, false, v, j, val)))
  }

  /** Outcomes before coding e determine outcomes after coding e. */
  ghost predicate SemAt(b: S, s: S, cl: Claim, T: seq<int>, F: seq<int>, e: Expr, q: int, r: Regs)
    requires ClaimWF(s, cl)
  {
    var o0 := Exec(C(b), q, r, |b.code|);
    var o1 := Exec(C(s), q, r, Stop(s, cl));
    match Arrive(o0, b.pend, |b.code|)
    case Some(r0) => Good(s, cl, T, F, Eval(s.ops, e, r0), o1, r0, b.freereg)
    case None => o0.Exit? ==> o1 == o0
  }

  ghost predicate Kept(b: S, s: S, j: int) {
    && 0 <= j < |b.code| && j < |s.code|
    && s.code[j] == b.code[j]
    && IsTestSet(s.code, j) == IsTestSet(b.code, j)
  }

  ghost predicate Frame(b: S, s: S, own: set<int>, T: seq<int>, F: seq<int>) {
    && b.ops == s.ops && b.k <= s.k && b.nactvar == s.nactvar
    && |b.code| <= |s.code| && b.lasttarget <= s.lasttarget
    && NoDups(T) && NoDups(F)
    && s.open == Outer(b) + ToSet(T) + ToSet(F) + ToSet(s.pend) + own
    && Outer(b) !! ToSet(T) !! ToSet(F) !! ToSet(s.pend) !! own
    && forall j :: j in Outer(b) ==> Kept(b, s, j)
  }

  /** The code added since b stands for e: whenever the code of b, entered at a legitimate entry
      point, arrives at its end, the code of s goes on to an outcome that matches the value of e;
      T and F list the dangling exits taken when e is true and when e is false. */
  ghost predicate Sim(b: S, s: S, cl: Claim, T: seq<int>, F: seq<int>, e: Expr) {
    && WF(b) && WF(s) && ClaimWF(s, cl)
    && Frame(b, s, Own(cl), T, F) && |b.code| <= Stop(s, cl)
    && forall q: int, r: Regs :: 0 <= q <= b.lasttarget ==> SemAt(b, s, cl, T, F, e, q, r)
  }

  // ----- Basic facts -----

  lemma SimFacts(b: S, s: S, cl: Claim, T: seq<int>, F: seq<int>, e: Expr)
    requires Sim(b, s, cl, T, F, e)
    ensures WF(b) && WF(s) && ClaimWF(s, cl) && Frame(b, s, Own(cl), T, F) && |b.code| <= Stop(s, cl)
  {
  }

  lemma {:induction false} EvalAgree(ops: Ops, e: Expr, r: Regs, r0: Regs, n: nat)
    requires WellFormed(e, n) && Agree(r, r0, n, -1)
    ensures Eval(ops, e, r) == Eval(ops, e, r0)
  {
    match e
    case EParen(e1) => EvalAgree(ops, e1, r, r0, n);
    case EUn(_, e1) => EvalAgree(ops, e1, r, r0, n);
    case EBin(_, e1, e2) => EvalAgree(ops, e1, r, r0, n); EvalAgree(ops, e2, r, r0, n);
    case _ =>
  }

  lemma PatchedNone(code: seq<Instr>, vt: int, reg: nat, dt: int)
    ensures Patched(code, [], vt, reg, dt) == code
  {
  }

  lemma DischargedNone(s: S)
    requires s.pend == []
    ensures Discharged(s) == s
  {
    PatchedNone(s.code, |s.code|, NO_REG, |s.code|);
    assert Outer(s) == s.open;
  }

  lemma ListKept(code: seq<Instr>, code': seq<Instr>, h: int, l: seq<int>)
    requires IsList(code, h, l)
    requires forall j :: j in l ==> j < |code'| && code'[j] == code[j]
    ensures IsList(code', h, l)
  {
    forall i | 0 <= i < |l| ensures code'[l[i]] == code[l[i]] { assert l[i] in l; }
  }

  lemma DischargedWF(s: S)
    requires WF(s)
    ensures WF(Discharged(s))
  {
  }

  /** Landing pending jumps here turns exits through them into plain arrivals. */
  lemma DischargedExec(s: S, q: int, r: Regs)
    requires WF(s) && Exec(C(s), q, r, |s.code|) != Stuck
    ensures var o := Exec(C(s), q, r, |s.code|);
            Exec(C(Discharged(s)), q, r, |s.code|) ==
            if o.Exit? && o.j in s.pend then At(|s.code|, o.regs) else o
  {
    ExecPatched(C(s), s.pend, |s.code|, NO_REG, |s.code|, q, r, |s.code|);
    assert C(Discharged(s)) == PatchedChunk(C(s), s.pend, |s.code|, NO_REG, |s.code|);
  }

  /** Code appended after s picks up exactly where s arrives. */
  lemma Continue(s: S, d: S, q: int, r: Regs, end: int)
    requires WF(s) && SameBelow(C(Discharged(s)), C(d), |s.code|) && |s.code| <= end
    requires var o := Exec(C(s), q, r, |s.code|); o.Exit? || (o.At? && o.pc == |s.code|)
    ensures var o := Exec(C(s), q, r, |s.code|);
            Exec(C(d), q, r, end) ==
            match Arrive(o, s.pend, |s.code|)
            case Some(r1) => Exec(C(d), |s.code|, r1, end)
            case None => o
  {
    DischargedExec(s, q, r);
    ExecSame(C(Discharged(s)), C(d), q, r, |s.code|);
    ExecSplit(C(d), q, r, |s.code|, end);
  }

  /** General step: s is extended to d, and wherever s lands the new code establishes the new
      claim. The claim may be about another expression if s has no exits. */
  lemma Extend(b: S, s: S, cl: Claim, T: seq<int>, F: seq<int>, e: Expr,
               d: S, cl': Claim, T': seq<int>, F': seq<int>, e': Expr)
    requires Sim(b, s, cl, T, F, e) && Stop(s, cl) == |s.code|
    requires WF(d) && ClaimWF(d, cl') && |s.code| <= Stop(d, cl')
    requires Frame(b, d, Own(cl'), T', F')
    requires d.pend == [] && SameBelow(C(Discharged(s)), C(d), |s.code|)
    requires e == e' || (T == [] && F == [])
    requires forall j :: j in T ==> j in T' && IsTestSet(d.code, j) == IsTestSet(s.code, j)
    requires forall j :: j in F ==> j in F' && IsTestSet(d.code, j) == IsTestSet(s.code, j)
    requires forall r1: Regs, r0: Regs :: Landed(s, cl, Eval(s.ops, e, r0), r1, r0, b.freereg) ==>
               Good(d, cl', T', F', Eval(s.ops, e', r0), Exec(C(d), |s.code|, r1, Stop(d, cl')), r0, b.freereg)
    ensures Sim(b, d, cl', T', F', e')
  {
    forall q: int, r: Regs | 0 <= q <= b.lasttarget ensures SemAt(b, d, cl', T', F', e', q, r) {
      assert SemAt(b, s, cl, T, F, e, q, r);
      var o0 := Exec(C(b), q, r, |b.code|);
      var a := Arrive(o0, b.pend, |b.code|);
      if a.Some? || o0.Exit? {
        if a.None? { ExitIsOpen(C(b), q, r, |b.code|); }
        Continue(s, d, q, r, Stop(d, cl'));
      }
    }
  }

  lemma {:induction false} ExitIsOpen(c: Chunk, pc: int, r: Regs, end: int)
    requires Exec(c, pc, r, end).Exit?
    ensures Exec(c, pc, r, end).j in c.open
    decreases end - pc
  {
    if 0 <= pc < end {
      var o := Step(c, pc, r, end);
      if o.At? { ExitIsOpen(c, o.pc, o.regs, end); }
    }
  }
}
