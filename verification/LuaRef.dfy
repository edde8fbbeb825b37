/** The reference system of the auxiliary library (lauxlib.c): 'luaL_ref' and 'luaL_unref' keep a
    list of free references inside the table, under key 0. */
module LuaRef {

  /** What a table slot holds; numbers are also what the free list is made of. */
  datatype Value = Nil | Int(n: int) | Obj(x: int)

  const FREELIST := 0
  const REFNIL := -1

  function Get(t: map<int, Value>, k: int): Value {
    if k in t then t[k] else Nil
  }

  /** 'lua_tointeger' */
  function ToInteger(v: Value): int {
    if v.Int? then v.n else 0
  }

  /** From key 0 on, the table links the references of 'free'. */
  ghost predicate Chain(t: map<int, Value>, free: seq<int>) {
    && Get(t, FREELIST) == (if free == [] then Nil else Int(free[0]))
    && forall i :: 0 <= i < |free| ==> Get(t, free[i]) == if i + 1 < |free| then Int(free[i + 1]) else Nil
  }

  /** References 1 to 'size' are live, with their values, or free. */
  ghost predicate Allocated(t: map<int, Value>, live: map<int, Value>, free: seq<int>, size: nat) {
    && Chain(t, free)
    && (forall i, j :: 0 <= i < j < |free| ==> free[i] != free[j])
    && (forall r :: 0 < r <= size <==> r in live || r in free)
    && (forall r :: r in live ==> r !in free && live[r] != Nil && Get(t, r) == live[r])
    && (forall k :: k > size ==> Get(t, k) == Nil)
  }

  /** 'lua_rawlen' may return any border of the table. */
  predicate Border(t: map<int, Value>, n: nat) {
    (n == 0 || Get(t, n) != Nil) && Get(t, n + 1) == Nil
  }

  ghost predicate NoHole(t: map<int, Value>, size: nat) {
    (forall k :: 0 < k <= size ==> Get(t, k) != Nil) && forall k :: k > size ==> Get(t, k) == Nil
  }

  lemma OneBorder(t: map<int, Value>, size: nat, n: nat)
    requires NoHole(t, size) && Border(t, n)
    ensures n == size
  {
    assert n < size ==> Get(t, n + 1) != Nil;
  }

  /** With an empty free list the table has no hole. */
  lemma Full(t: map<int, Value>, live: map<int, Value>, size: nat)
    requires Allocated(t, live, [], size)
    ensures NoHole(t, size)
  {
  }

  /** A write changes one slot. */
  lemma Wrote(t: map<int, Value>, k: int, v: Value, j: int)
    ensures Get(t[k := v], j) == if j == k then v else Get(t, j)
  {
  }

  lemma FreeSlot(t: map<int, Value>, live: map<int, Value>, free: seq<int>, size: nat, i: nat)
    requires Allocated(t, live, free, size) && i < |free|
    ensures 0 < free[i] <= size && free[i] !in live && Get(t, free[i]) == if i + 1 < |free| then Int(free[i + 1]) else Nil
  {
    assert free[i] in free;
  }

  lemma LiveSlot(t: map<int, Value>, live: map<int, Value>, free: seq<int>, size: nat, r: int)
    requires Allocated(t, live, free, size) && r in live
    ensures 0 < r <= size && r !in free && live[r] != Nil && Get(t, r) == live[r]
  {
  }

  lemma Taken(t: map<int, Value>, live: map<int, Value>, free: seq<int>, size: nat, v: Value)
    requires Allocated(t, live, free, size) && free != [] && v != Nil
    ensures var ref := free[0];
            Allocated(t[FREELIST := Get(t, ref)][ref := v], live[ref := v], free[1..], size) && ref !in live && 0 < ref <= size
  {
    var ref, f := free[0], free[1..];
    FreeSlot(t, live, free, size, 0);
    var m := t[FREELIST := Get(t, ref)];
    var d, l := m[ref := v], live[ref := v];
    forall k ensures Get(d, k) == if k == ref then v else if k == FREELIST then Get(t, ref) else Get(t, k) {
      Wrote(t, FREELIST, Get(t, ref), k);
      Wrote(m, ref, v, k);
    }
    forall i | 0 <= i < |f| ensures Get(d, f[i]) == (if i + 1 < |f| then Int(f[i + 1]) else Nil) && f[i] != ref {
      FreeSlot(t, live, free, size, i + 1);
    }
    forall r ensures r in free <==> r == ref || r in f { assert free == [ref] + f; }
    forall r | r in l ensures r !in f && l[r] != Nil && Get(d, r) == l[r] {
      if r != ref { LiveSlot(t, live, free, size, r); }
    }
    forall k | k > size ensures Get(d, k) == Nil { assert Get(t, k) == Nil; }
    forall i, j | 0 <= i < j < |f| ensures f[i] != f[j] { assert free[i + 1] != free[j + 1]; }
    forall r ensures 0 < r <= size <==> r in l || r in f {}
    assert Get(d, FREELIST) == Get(t, ref);
    assert Chain(d, f);
  }

  lemma Appended(t: map<int, Value>, live: map<int, Value>, size: nat, v: Value)
    requires Allocated(t, live, [], size) && v != Nil
    ensures Allocated(t[size + 1 := v], live[size + 1 := v], [], size + 1) && size + 1 !in live
  {
    var d, l := t[size + 1 := v], live[size + 1 := v];
    forall k ensures Get(d, k) == if k == size + 1 then v else Get(t, k) { Wrote(t, size + 1, v, k); }
    forall r | r in l ensures l[r] != Nil && Get(d, r) == l[r] {
      if r != size + 1 { LiveSlot(t, live, [], size, r); }
    }
    forall k | k > size + 1 ensures Get(d, k) == Nil { assert Get(t, k) == Nil; }
    assert Get(d, FREELIST) == Get(t, FREELIST);
  }

  lemma Returned(t: map<int, Value>, live: map<int, Value>, free: seq<int>, size: nat, ref: int)
    requires Allocated(t, live, free, size) && ref in live
    ensures Allocated(t[ref := Get(t, FREELIST)][FREELIST := Int(ref)], live - {ref}, [ref] + free, size)
  {
    var m, f := t[ref := Get(t, FREELIST)], [ref] + free;
    var d := m[FREELIST := Int(ref)];
    LiveSlot(t, live, free, size, ref);
    forall k ensures Get(d, k) == if k == FREELIST then Int(ref) else if k == ref then Get(t, FREELIST) else Get(t, k) {
      Wrote(t, ref, Get(t, FREELIST), k);
      Wrote(m, FREELIST, Int(ref), k);
    }
    forall i | 0 <= i < |f| ensures Get(d, f[i]) == if i + 1 < |f| then Int(f[i + 1]) else Nil {
      if i > 0 { FreeSlot(t, live, free, size, i - 1); }
    }
    forall i, j | 0 <= i < j < |f| ensures f[i] != f[j] { assert f[j] in free; }
    assert forall r :: r in f <==> r == ref || r in free;
    var l := live - {ref};
    forall r | r in l ensures r !in f && l[r] != Nil && Get(d, r) == l[r] { LiveSlot(t, live, free, size, r); }
    forall r ensures 0 < r <= size <==> r in l || r in f {}
    assert Chain(d, f);
    forall k | k > size ensures Get(d, k) == Nil { assert Get(t, k) == Nil; }
  }

  datatype Action = Ref(v: Value) | Unref(ref: int)

  class RefTable {
    var t: map<int, Value>
    ghost var live: map<int, Value>
    ghost var free: seq<int>
    ghost var size: nat

    ghost predicate Valid()
      reads this
    {
      Allocated(t, live, free, size)
    }

    constructor ()
      ensures Valid() && t == map[] && live == map[]
    {
      t, live, free, size := map[], map[], [], 0;
    }

    /** 'lua_rawlen' */
    method RawLen() returns (n: nat)
      requires Valid()
      ensures Border(t, n)
    {
      n := 0;
      while Get(t, n + 1) != Nil
        invariant n <= size && (n == 0 || Get(t, n) != Nil)
        decreases size - n
      {
        n := n + 1;
      }
    }

    /** 'luaL_ref': a reference that is not live, for a value that is not nil: the first free one,
        or, if there is none and so no hole in the table, the one after the last. */
    method Ref(v: Value) returns (ref: int)
      requires Valid()
      modifies this
      ensures Valid()
      ensures if v == Nil then ref == REFNIL && t == old(t) && live == old(live)
              else ref > 0 && ref !in old(live) && live == old(live)[ref := v] && Get(t, ref) == v
      ensures if v == Nil then free == old(free) && size == old(size)
              else if old(free) != [] then
                && ref == old(free)[0] && free == old(free)[1..] && size == old(size)
                && t == old(t)[FREELIST := Get(old(t), ref)][ref := v]
              else
                NoHole(old(t), old(size)) && ref == old(size) + 1 && free == [] && size == ref && t == old(t)[ref := v]
    {
      if v == Nil { return REFNIL; }
      ref := ToInteger(Get(t, FREELIST));
      if ref != 0 {
        ZeroIsNone(t, live, free, size);
        Taken(t, live, free, size, v);
        t := t[FREELIST := Get(t, ref)];
        free := free[1..];
      } else {
        ZeroIsNone(t, live, free, size);
        var n := RawLen();
        Full(t, live, size);
        OneBorder(t, size, n);
        Appended(t, live, size, v);
        ref := n + 1;
        size := size + 1;
      }
      t := t[ref := v];
      live := live[ref := v];
    }

    /** 'luaL_unref' of a live reference, which is the next one to be handed out then, or of one of
        the negative constants. */
    method Unref(ref: int)
      requires Valid() && (ref < 0 || ref in live)
      modifies this
      ensures Valid() && size == old(size)
      ensures if ref < 0 then t == old(t) && live == old(live) && free == old(free)
              else
                && live == old(live) - {ref} && free == [ref] + old(free)
                && t == old(t)[ref := Get(old(t), FREELIST)][FREELIST := Int(ref)]
    {
      if ref >= 0 {
        Returned(t, live, free, size, ref);
        t := t[ref := Get(t, FREELIST)];
        t := t[FREELIST := Int(ref)];
        live := live - {ref};
        free := [ref] + free;
      }
    }
  }

  /** The head of the free list is 0 exactly when nothing is free. */
  lemma ZeroIsNone(t: map<int, Value>, live: map<int, Value>, free: seq<int>, size: nat)
    requires Allocated(t, live, free, size)
    ensures ToInteger(Get(t, FREELIST)) == 0 <==> free == []
    ensures free != [] ==> ToInteger(Get(t, FREELIST)) == free[0]
  {
    if free != [] { assert free[0] in free; }
  }

  /** The simple form: references are names, handed out while they are not in use. */
  ghost predicate Names(live: map<int, Value>, a: Action, live': map<int, Value>, ref: int) {
    match a
    case Ref(v) =>
      if v == Nil then live' == live && ref == REFNIL else ref > 0 && ref !in live && live' == live[ref := v]
    case Unref(r) => live' == if r < 0 then live else live - {r}
  }

  /** Over every sequence of calls, releases being of references that the caller holds: the table is
      a store of names, and every live reference finds its value. */
  method Run(acts: seq<Action>) returns (s: RefTable, done: nat, trace: seq<map<int, Value>>, refs: seq<int>)
    ensures fresh(s) && s.Valid() && done <= |acts| && |trace| == done + 1 && |refs| == done
    ensures trace[0] == map[] && trace[done] == s.live
    ensures done < |acts| ==> acts[done].Unref? && acts[done].ref >= 0 && acts[done].ref !in trace[done]
    ensures forall i :: 0 <= i < done ==> Names(trace[i], acts[i], trace[i + 1], refs[i])
    ensures forall r :: r in trace[done] ==> Get(s.t, r) == trace[done][r]
  {
    s := new RefTable();
    var held: map<int, Value> := map[];
    done, trace, refs := 0, [held], [];
    while done < |acts|
      invariant fresh(s) && s.Valid() && done <= |acts| && |trace| == done + 1 && |refs| == done
      invariant trace[0] == map[] && trace[done] == s.live == held
      invariant forall i :: 0 <= i < done ==> Names(trace[i], acts[i], trace[i + 1], refs[i])
    {
      var ref := REFNIL;
      match acts[done] {
        case Ref(v) =>
          ref := s.Ref(v);
          if v != Nil { held := held[ref := v]; }
        case Unref(r) =>
          if r >= 0 && r !in held { return; }
          s.Unref(r);
          if r >= 0 { held := held - {r}; }
      }
      trace, refs := trace + [held], refs + [ref];
      done := done + 1;
    }
  }
}
