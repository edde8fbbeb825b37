/** The register machine that lcode.c targets: values, instructions and their meaning
    (comments of lopcodes.h), plus a machine for code that still has dangling jumps. */
module LuaMachine {

  datatype Option<T> = None | Some(value: T)

  /** Lua values; floats, strings and heap objects are opaque tokens. */
  datatype Value = Nil | Bool(b: bool) | Int(n: int) | Flt(x: int) | Str(s: string) | Obj(id: nat)

  predicate Truthy(v: Value) {
    v != Nil && v != Bool(false)
  }

  datatype CmpOp = Eq | Lt | Le

  datatype ArithOp =
    | Add | Sub | Mul | Mod | Pow | Div | IDiv
    | BAnd | BOr | BXor | Shl | Shr | Unm | BNot

  /** Operators the generator does not look into: total functions on values. The unary operators
      UNM and BNOT ignore their second operand, as 'luaO_arith' does. */
  datatype Ops = Ops(
    cmp: (CmpOp, Value, Value) -> bool,
    arith: (ArithOp, Value, Value) -> Value,
    length: Value -> Value,
    safe: (ArithOp, Value, Value) -> bool,   // 'validop'
    nanOrZero: int -> bool)                  // float results that are never folded

  // Limits of the instruction format (lopcodes.h, llimits.h, lcode.c).
  const MAXREGS := 255
  const NO_REG := 255
  const MAXARG_Bx := 0x3FFFF
  const MAXARG_sBx := 0x1FFFF
  const MAXARG_Ax := 0x3FFFFFF
  const BITRK := 256
  const MAXINDEXRK := 255
  const NO_JUMP := -1

  datatype Instr =
    | Move(a: nat, b: nat)
    | LoadK(a: nat, bx: nat)
    | LoadKX(a: nat)
    | LoadBool(a: nat, flag: bool, skip: bool)
    | LoadNil(a: nat, b: nat)
    | Not(a: nat, b: nat)
    | Len(a: nat, b: nat)
    | Neg(op: ArithOp, a: nat, b: nat)            // OP_UNM, OP_BNOT
    | Arith(op: ArithOp, a: nat, b: nat, c: nat)  // OP_ADD .. OP_SHR
    | Jmp(close: nat, sbx: int)
    | Cmp(cmp: CmpOp, want: bool, b: nat, c: nat) // OP_EQ, OP_LT, OP_LE; 'want' is field A
    | Test(a: nat, cond: bool)
    | TestSet(a: nat, b: nat, cond: bool)
    | Return(a: nat, b: nat)
    | ExtraArg(ax: nat)

  /** 'testTMode' of lopcodes.h: the next instruction must be a jump. */
  predicate IsTest(i: Instr) {
    i.Cmp? || i.Test? || i.TestSet?
  }

  type Regs = r: seq<Value> | |r| == 256 witness seq(256, _ => Nil)

  /** R(0), ..., with registers a .. a+b set to nil. */
  function NilRange(r: Regs, a: nat, b: nat): (r': Regs)
    ensures forall i :: 0 <= i < 256 ==> r'[i] == if a <= i <= a + b then Nil else r[i]
  {
    seq(256, i requires 0 <= i < 256 => if a <= i <= a + b then Nil else r[i])
  }

  /** An operand is a register, or a constant if its top bit is set. */
  function RK(k: seq<Value>, r: Regs, x: nat): Option<Value> {
    if x < BITRK then Some(r[x])
    else if x - BITRK < |k| then Some(k[x - BITRK])
    else None
  }

  /** Code under construction: jumps whose index is in 'open' have no destination yet (their
      sBx field links a patch list). */
  datatype Chunk = Chunk(ops: Ops, code: seq<Instr>, k: seq<Value>, open: set<int>)

  /** How a piece of code is left: at a pc, or through dangling jump 'j' (carrying the tested
      value when the jump is controlled by a TESTSET). */
  datatype Out = At(pc: int, regs: Regs) | Exit(j: int, val: Option<Value>, regs: Regs) | Stuck

  /** Value computed by a relocatable instruction, whatever its target register. */
  ghost function Computed(ops: Ops, k: seq<Value>, r: Regs, i: Instr): Option<Value> {
    match i
    case Not(_, b) => if b < 256 then Some(Bool(!Truthy(r[b]))) else None
    case Len(_, b) => if b < 256 then Some(ops.length(r[b])) else None
    case Neg(op, _, b) => if b < 256 then Some(ops.arith(op, r[b], Int(0))) else None
    case Arith(op, _, b, c) =>
      var x, y := RK(k, r, b), RK(k, r, c);
      if x.Some? && y.Some? then Some(ops.arith(op, x.value, y.value)) else None
    case _ => None
  }

  /** Whether a comparison lets the following jump be taken. */
  ghost function Taken(ops: Ops, k: seq<Value>, r: Regs, i: Instr): Option<bool> {
    match i
    case Cmp(op, want, b, c) =>
      var x, y := RK(k, r, b), RK(k, r, c);
      if x.Some? && y.Some? then Some(ops.cmp(op, x.value, y.value) == want) else None
    case Test(a, cond) => if a < 256 then Some(Truthy(r[a]) == cond) else None
    case TestSet(_, b, cond) => if b < 256 then Some(Truthy(r[b]) == cond) else None
    case _ => None
  }

  function Put(pc: int, r: Regs, a: nat, v: Option<Value>): Out {
    if a < 256 && v.Some? then At(pc, r[a := v.value]) else Stuck
  }

  /** One instruction, staying below 'end'. */
  ghost function Step(c: Chunk, pc: int, r: Regs, end: int): Out
    requires 0 <= pc < |c.code| && pc < end
  {
    var nextOk := pc + 1 < end && pc + 1 < |c.code|;
    match c.code[pc]
    case Move(a, b) => Put(pc + 1, r, a, if b < 256 then Some(r[b]) else None)
    case LoadK(a, bx) => Put(pc + 1, r, a, if bx < |c.k| then Some(c.k[bx]) else None)
    case LoadKX(a) =>
      if nextOk && c.code[pc + 1].ExtraArg? && c.code[pc + 1].ax < |c.k|
      then Put(pc + 2, r, a, Some(c.k[c.code[pc + 1].ax])) else Stuck
    case LoadBool(a, flag, skip) =>
      if !skip then Put(pc + 1, r, a, Some(Bool(flag)))
      else if nextOk && c.code[pc + 1].LoadBool? then Put(pc + 2, r, a, Some(Bool(flag)))
      else Stuck
    case LoadNil(a, b) => At(pc + 1, NilRange(r, a, b))
    case Jmp(close, sbx) =>
      if pc in c.open then Exit(pc, None, r)
      else At(pc + 1 + sbx, r)
    case Return(_, _) => Stuck
    case ExtraArg(_) => Stuck
    case Cmp(_, _, _, _) => Branch(c, pc, r, end, At(pc + 1, r))
    case Test(_, _) => Branch(c, pc, r, end, At(pc + 1, r))
    case TestSet(a, b, _) =>
      Branch(c, pc, r, end,
             if b >= 256 then Stuck
             else if pc + 1 in c.open then Exit(pc + 1, Some(r[b]), r)
             else Put(pc + 1, r, a, Some(r[b])))
    case Not(a, _) => Put(pc + 1, r, a, Computed(c.ops, c.k, r, c.code[pc]))
    case Len(a, _) => Put(pc + 1, r, a, Computed(c.ops, c.k, r, c.code[pc]))
    case Neg(_, a, _) => Put(pc + 1, r, a, Computed(c.ops, c.k, r, c.code[pc]))
    case Arith(_, a, _, _) => Put(pc + 1, r, a, Computed(c.ops, c.k, r, c.code[pc]))
  }

  /** A test skips the jump that follows it, or goes on as 'taken'. */
  ghost function Branch(c: Chunk, pc: int, r: Regs, end: int, taken: Out): Out
    requires 0 <= pc < |c.code| && pc < end
  {
    var t := Taken(c.ops, c.k, r, c.code[pc]);
    if pc + 1 >= end || pc + 1 >= |c.code| || !c.code[pc + 1].Jmp? || t.None? then Stuck
    else if t.value then taken
    else At(pc + 2, r)
  }

  /** Run from pc until control reaches 'end' or beyond, or leaves through a dangling jump. Code
      for an expression only jumps forward; anything else is Stuck. */
  ghost function Exec(c: Chunk, pc: int, r: Regs, end: int): Out
    decreases end - pc
  {
    if pc >= end then At(pc, r)
    else if pc < 0 || pc >= |c.code| then Stuck
    else
      match Step(c, pc, r, end)
      case At(n, r1) => if n > pc then Exec(c, n, r1, end) else Stuck
      case o => o
  }

  ghost function Then(c: Chunk, o: Out, end: int): Out {
    match o
    case At(p, r) => Exec(c, p, r, end)
    case _ => o
  }

  /** Running to 'end' is running to 'mid' and going on from there. */
  lemma {:induction false} ExecSplit(c: Chunk, pc: int, r: Regs, mid: int, end: int)
    requires mid <= end
    requires Exec(c, pc, r, mid) != Stuck
    ensures Exec(c, pc, r, end) == Then(c, Exec(c, pc, r, mid), end)
    decreases mid - pc
  {
    if pc < mid {
      var o := Step(c, pc, r, mid);
      assert Step(c, pc, r, end) == o;
      if o.At? {
        ExecSplit(c, o.pc, o.regs, mid, end);
      }
    }
  }

  /** d extends c: same instructions below 'end' (links of dangling jumps aside), same dangling
      jumps there, and at least the constants of c. */
  ghost predicate SameBelow(c: Chunk, d: Chunk, end: int) {
    && c.ops == d.ops
    && c.k <= d.k
    && end <= |c.code| && end <= |d.code|
    && (forall i :: 0 <= i < end ==> (i in c.open <==> i in d.open))
    && (forall i :: 0 <= i < end ==>
          || c.code[i] == d.code[i]
          || (i in c.open && c.code[i].Jmp? && d.code[i].Jmp?))
  }

  lemma {:induction false} ExecSame(c: Chunk, d: Chunk, pc: int, r: Regs, end: int)
    requires SameBelow(c, d, end)
    requires Exec(c, pc, r, end) != Stuck
    ensures Exec(d, pc, r, end) == Exec(c, pc, r, end)
    decreases end - pc
  {
    if pc < end {
      var o := Step(c, pc, r, end);
      assert Step(d, pc, r, end) == o;
      if o.At? {
        ExecSame(c, d, o.pc, o.regs, end);
      }
    }
  }

  // ----- Patch lists -----

  /** 'getjump': absolute position of the next element of a patch list, or NO_JUMP. */
  function GetJump(code: seq<Instr>, pc: int): int
    requires 0 <= pc < |code| && code[pc].Jmp?
  {
    if code[pc].sbx == NO_JUMP then NO_JUMP else pc + 1 + code[pc].sbx
  }

  predicate NoDups(l: seq<int>) {
    forall i, j :: 0 <= i < j < |l| ==> l[i] != l[j]
  }

  /** The list threaded through the sBx fields from 'head' is exactly 'l'. */
  ghost predicate IsList(code: seq<Instr>, head: int, l: seq<int>) {
    && head == (if l == [] then NO_JUMP else l[0])
    && NoDups(l)
    && (forall i :: 0 <= i < |l| ==> 0 <= l[i] < |code| && code[l[i]].Jmp?)
    && (forall i :: 0 <= i < |l| ==>
          GetJump(code, l[i]) == if i + 1 < |l| then l[i + 1] else NO_JUMP)
  }

  /** Is jump j controlled by a TESTSET ('getjumpcontrol')? */
  predicate IsTestSet(code: seq<Instr>, j: int) {
    1 <= j <= |code| && code[j - 1].TestSet?
  }

  /** 'patchtestreg' on the controlling TESTSET. */
  function PatchTest(i: Instr, reg: nat): Instr
    requires i.TestSet?
  {
    if reg != NO_REG && reg != i.b then TestSet(reg, i.b, i.cond) else Test(i.b, i.cond)
  }

  /** 'patchlistaux': every jump of l lands on its value target or on its default target. */
  function PatchedAt(code: seq<Instr>, l: seq<int>, vt: int, reg: nat, dt: int, i: int): Instr
    requires 0 <= i < |code|
  {
    if i in l && code[i].Jmp? then
      Jmp(code[i].close, (if IsTestSet(code, i) then vt else dt) - (i + 1))
    else if i + 1 in l && code[i].TestSet? then PatchTest(code[i], reg)
    else code[i]
  }

  function Patched(code: seq<Instr>, l: seq<int>, vt: int, reg: nat, dt: int): (code': seq<Instr>)
    ensures |code'| == |code|
    ensures forall i :: 0 <= i < |code| ==> code'[i] == PatchedAt(code, l, vt, reg, dt, i)
  {
    seq(|code|, i requires 0 <= i < |code| => PatchedAt(code, l, vt, reg, dt, i))
  }

  /** 'removevalues': TESTSETs controlling l become TESTs. */
  function StrippedAt(code: seq<Instr>, l: seq<int>, i: int): Instr
    requires 0 <= i < |code|
  {
    if i + 1 in l && code[i].TestSet? then Test(code[i].b, code[i].cond) else code[i]
  }

  function Stripped(code: seq<Instr>, l: seq<int>): (code': seq<Instr>)
    ensures |code'| == |code|
    ensures forall i :: 0 <= i < |code| ==> code'[i] == StrippedAt(code, l, i)
  {
    seq(|code|, i requires 0 <= i < |code| => StrippedAt(code, l, i))
  }

  function ToSet(l: seq<int>): (s: set<int>)
    ensures forall x :: x in s <==> x in l
  {
    set x | x in l
  }

  ghost function PatchedChunk(c: Chunk, l: seq<int>, vt: int, reg: nat, dt: int): Chunk {
    c.(code := Patched(c.code, l, vt, reg, dt), open := c.open - ToSet(l))
  }

  /** Where an outcome goes once the jumps of l are patched. */
  ghost function Landing(c: Chunk, l: seq<int>, vt: int, reg: nat, dt: int, o: Out): Out {
    if o.Exit? && o.j in l then
      At(if IsTestSet(c.code, o.j) then vt else dt,
         if o.val.Some? && reg < NO_REG then o.regs[reg := o.val.value] else o.regs)
    else o
  }

  ghost predicate DanglingBelow(c: Chunk, l: seq<int>, end: int) {
    forall j :: j in l ==> 0 <= j < end && j < |c.code| && c.code[j].Jmp? && j in c.open
  }

  /** Patching sends every outcome through a jump of l to its landing point and no other. */
  lemma {:induction false} ExecPatched(c: Chunk, l: seq<int>, vt: int, reg: nat, dt: int,
                                       pc: int, r: Regs, end: int)
    requires DanglingBelow(c, l, end)
    requires vt >= end && reg <= NO_REG
    requires forall j :: j in l ==> IsTestSet(c.code, j) || dt >= end
    requires Exec(c, pc, r, end) != Stuck
    ensures Exec(PatchedChunk(c, l, vt, reg, dt), pc, r, end) ==
            Landing(c, l, vt, reg, dt, Exec(c, pc, r, end))
    decreases end - pc
  {
    var d := PatchedChunk(c, l, vt, reg, dt);
    if pc < end {
      var o := Step(c, pc, r, end);
      var i := c.code[pc];
      assert d.code[pc] == PatchedAt(c.code, l, vt, reg, dt, pc);
      if o.At? {
        if i.TestSet? && pc + 1 in l {
          assert o.pc == pc + 2;
          assert Step(d, pc, r, end) == o;
        } else {
          assert Step(d, pc, r, end) == o;
        }
        ExecPatched(c, l, vt, reg, dt, o.pc, o.regs, end);
      } else if o.j in l {
        assert d.code[o.j] == PatchedAt(c.code, l, vt, reg, dt, o.j);
        if i.TestSet? {
          PatchedTestSet(c, l, vt, reg, dt, pc, r, end);
        } else {
          assert i.Jmp? && o == Exit(pc, None, r);
          assert Step(d, pc, r, end) == Landing(c, l, vt, reg, dt, o);
        }
      } else {
        assert Step(d, pc, r, end) == o;
      }
    }
  }

  lemma PatchedTestSet(c: Chunk, l: seq<int>, vt: int, reg: nat, dt: int,
                       pc: int, r: Regs, end: int)
    requires DanglingBelow(c, l, end)
    requires vt >= end && reg <= NO_REG
    requires 0 <= pc < end && pc < |c.code| && c.code[pc].TestSet?
    requires Step(c, pc, r, end).Exit? && pc + 1 in l
    ensures Exec(PatchedChunk(c, l, vt, reg, dt), pc, r, end) ==
            Landing(c, l, vt, reg, dt, Step(c, pc, r, end))
  {
    var d := PatchedChunk(c, l, vt, reg, dt);
    var i := c.code[pc];
    var r1 := if reg < NO_REG then r[reg := r[i.b]] else r;
    assert d.code[pc] == PatchTest(i, reg);
    assert d.code[pc + 1] == Jmp(c.code[pc + 1].close, vt - (pc + 2));
    assert r[i.b := r[i.b]] == r;
    assert Step(d, pc, r, end) == At(pc + 1, r1);
    assert Step(d, pc + 1, r1, end) == At(vt, r1);
    assert Exec(d, vt, r1, end) == At(vt, r1);
    assert Exec(d, pc + 1, r1, end) == At(vt, r1);
  }

  ghost function StrippedChunk(c: Chunk, l: seq<int>): Chunk {
    c.(code := Stripped(c.code, l))
  }

  ghost function Drop(l: seq<int>, o: Out): Out {
    if o.Exit? && o.j in l then o.(val := None) else o
  }

  /** Turning TESTSETs into TESTs only makes the exits of l forget their value. */
  lemma {:induction false} ExecStripped(c: Chunk, l: seq<int>, pc: int, r: Regs, end: int)
    requires DanglingBelow(c, l, end)
    requires Exec(c, pc, r, end) != Stuck
    ensures Exec(StrippedChunk(c, l), pc, r, end) == Drop(l, Exec(c, pc, r, end))
    decreases end - pc
  {
    var d := StrippedChunk(c, l);
    if pc < end {
      var o := Step(c, pc, r, end);
      assert d.code[pc] == StrippedAt(c.code, l, pc);
      if o.At? {
        assert Step(d, pc, r, end) == o;
        ExecStripped(c, l, o.pc, o.regs, end);
      } else if c.code[pc].TestSet? && pc + 1 in l {
        assert d.code[pc + 1] == StrippedAt(c.code, l, pc + 1) == c.code[pc + 1];
        assert Step(d, pc, r, end) == At(pc + 1, r);
        assert Step(d, pc + 1, r, end) == Exit(pc + 1, None, r);
        assert Exec(d, pc + 1, r, end) == Exit(pc + 1, None, r);
      } else {
        assert Step(d, pc, r, end) == o;
      }
    }
  }

  // ----- The actual machine -----

  datatype Config = Running(pc: int, regs: Regs) | Returned(vals: seq<Value>) | Fault

  /** One step of the virtual machine on finished code (no dangling jumps). */
  ghost function VMStep(ops: Ops, code: seq<Instr>, k: seq<Value>, s: Config): Config {
    if !s.Running? then s
    else if s.pc < 0 || s.pc >= |code| then Fault
    else if code[s.pc].Return? then
      var i := code[s.pc];
      if i.b >= 1 && i.a + i.b - 1 <= 256 then Returned(s.regs[i.a .. i.a + i.b - 1]) else Fault
    else
      match Step(Chunk(ops, code, k, {}), s.pc, s.regs, |code|)
      case At(n, r) => Running(n, r)
      case _ => Fault
  }

  ghost function VMRun(ops: Ops, code: seq<Instr>, k: seq<Value>, s: Config, n: nat): Config
    decreases n
  {
    if n == 0 then s else VMRun(ops, code, k, VMStep(ops, code, k, s), n - 1)
  }

  /** A segment of finished code is executed by finitely many machine steps. */
  lemma {:induction false} ExecIsRun(ops: Ops, code: seq<Instr>, k: seq<Value>,
                                     pc: int, r: Regs, end: int) returns (n: nat)
    requires end <= |code|
    requires Exec(Chunk(ops, code, k, {}), pc, r, end).At?
    ensures var o := Exec(Chunk(ops, code, k, {}), pc, r, end);
            VMRun(ops, code, k, Running(pc, r), n) == Running(o.pc, o.regs)
    decreases end - pc
  {
    var c := Chunk(ops, code, k, {});
    if pc >= end {
      n := 0;
    } else {
      var o := Step(c, pc, r, end);
      assert Step(c, pc, r, |code|) == o;
      var m := ExecIsRun(ops, code, k, o.pc, o.regs, end);
      n := m + 1;
      assert VMStep(ops, code, k, Running(pc, r)) == Running(o.pc, o.regs);
    }
  }

  lemma {:induction false} RunAppend(ops: Ops, code: seq<Instr>, k: seq<Value>, s: Config, m: nat, n: nat)
    ensures VMRun(ops, code, k, s, m + n) == VMRun(ops, code, k, VMRun(ops, code, k, s, m), n)
    decreases m
  {
    if m != 0 {
      RunAppend(ops, code, k, VMStep(ops, code, k, s), m - 1, n);
    }
  }
}
