/** Objects of the Lua heap, what they refer to, and the state of the collector (lobject.h,
    lstate.h, lgc.h). */
module LgcHeap {

  type Ref = nat
  type UpRef = nat

  /** A dead key keeps its address but no longer counts as collectable. */
  datatype TValue = Nil | Plain(n: int) | Coll(ref: Ref) | DeadKey(was: Ref)

  datatype Node = Node(key: TValue, val: TValue)

  /** What the '__mode' field of the metatable says at the moment. */
  datatype Mode = Mode(weakKey: bool, weakValue: bool)

  datatype Object =
    | Str
    | Udata(meta: TValue, user: TValue)
    | Table(meta: TValue, mode: Mode, arr: seq<TValue>, nodes: seq<Node>)
    | LCl(proto: TValue, ups: seq<UpRef>)
    | CCl(vals: seq<TValue>)
    | Thread(stack: seq<TValue>)       // the live part, up to 'top'
    | Proto(consts: seq<TValue>)       // constants, names and nested prototypes

  /** An open upvalue is a slot of a thread's stack. */
  datatype UpVal = Open(th: Ref, level: nat, touched: bool) | Closed(v: TValue)

  datatype Color = White(which: bool) | Gray | Black

  datatype GcState =
    | Propagate | Atomic | SwpAllGc | SwpFinObj | SwpToBeFnz | SwpEnd | CallFin | Pause
    | InsideAtomic

  /** Where the sweeper is: at the head of the current list, at the 'next' field of an object, or
      done. */
  datatype Ptr = Null | Head | Next(ref: Ref)

  type Heap = map<Ref, Object>
  type UpVals = map<UpRef, UpVal>

  datatype G = G(
    heap: Heap, upvals: UpVals, marked: map<Ref, Color>, cw: bool, gcstate: GcState,
    gray: seq<Ref>, grayagain: seq<Ref>, weak: seq<Ref>, allweak: seq<Ref>, ephemeron: seq<Ref>,
    allgc: seq<Ref>, finobj: seq<Ref>, tobefnz: seq<Ref>, fixedgc: seq<Ref>, fin: set<Ref>,
    sweepgc: Ptr, mainthread: Ref, running: Ref, registry: TValue, mt: seq<TValue>,
    twups: seq<Ref>, top: nat)

  /** The state that 'lua_newstate' makes, before anything else is created: main thread th. */
  function Initial(th: Ref): G {
    G(map[th := Thread([])], map[], map[th := White(false)], false, Pause, [], [], [], [], [], [], [], [], [], {}, Null,
      th, th, Nil, [], [], th + 1)
  }

  predicate IsString(h: Heap, r: Ref) {
    r in h && h[r].Str?
  }

  /** Objects that are visited through a gray list. */
  predicate Traversable(o: Object) {
    !o.Str? && !o.Udata?
  }

  // ----- References -----

  predicate In(v: TValue, s: set<Ref>) {
    v.Coll? ==> v.ref in s
  }

  predicate ValsIn(vs: seq<TValue>, s: set<Ref>) {
    forall i :: 0 <= i < |vs| ==> In(vs[i], s)
  }

  /** An entry with a nil value is logically absent. */
  predicate EntryIn(n: Node, s: set<Ref>) {
    n.val != Nil ==> In(n.key, s) && In(n.val, s)
  }

  predicate EntriesIn(ns: seq<Node>, s: set<Ref>) {
    forall i :: 0 <= i < |ns| ==> EntryIn(ns[i], s)
  }

  predicate KeysIn(ns: seq<Node>, s: set<Ref>) {
    forall i :: 0 <= i < |ns| ==> ns[i].val != Nil ==> In(ns[i].key, s)
  }

  function UpValue(h: Heap, us: UpVals, u: UpRef): TValue {
    if u !in us then Nil
    else
      match us[u]
      case Closed(v) => v
      case Open(th, level, _) =>
        if th in h && h[th].Thread? && level < |h[th].stack| then h[th].stack[level] else Nil
  }

  predicate UpsIn(h: Heap, us: UpVals, ups: seq<UpRef>, s: set<Ref>) {
    forall i :: 0 <= i < |ups| ==> In(UpValue(h, us, ups[i]), s)
  }

  /** Everything the program can get from object o is in s. */
  predicate RefsIn(h: Heap, us: UpVals, o: Object, s: set<Ref>) {
    match o
    case Str => true
    case Udata(meta, user) => In(meta, s) && In(user, s)
    case Table(meta, _, arr, nodes) => In(meta, s) && ValsIn(arr, s) && EntriesIn(nodes, s)
    case LCl(p, ups) => In(p, s) && UpsIn(h, us, ups, s)
    case CCl(vals) => ValsIn(vals, s)
    case Thread(stack) => ValsIn(stack, s)
    case Proto(consts) => ValsIn(consts, s)
  }

  // ----- Colours -----

  function Marked(m: map<Ref, Color>): (s: set<Ref>) {
    set r | r in m && !m[r].White?
  }

  function Unmarked(m: map<Ref, Color>): (s: set<Ref>) {
    set r | r in m && m[r].White?
  }

  /** 'isdead' fails: the object does not have the other white. */
  function Living(m: map<Ref, Color>, cw: bool): (s: set<Ref>) {
    set r | r in m && m[r] != White(!cw)
  }

  function Marks(g: G): set<Ref> {
    Marked(g.marked)
  }

  function Whites(g: G): set<Ref> {
    Unmarked(g.marked)
  }

  function Alive(g: G): set<Ref> {
    Living(g.marked, g.cw)
  }

  /** The keys of an absent entry matter as long as they can be found again. */
  predicate NodeIn(h: Heap, n: Node, s: set<Ref>) {
    In(n.val, s) && (n.key.Coll? && n.key.ref in h ==> n.key.ref in s)
  }

  predicate NodesIn(h: Heap, ns: seq<Node>, s: set<Ref>) {
    forall i :: 0 <= i < |ns| ==> NodeIn(h, ns[i], s)
  }

  /** An upvalue of a black closure: an open one was noted as touched, or (once the touched ones
      have been revisited) is marked or belongs to a marked thread. */
  predicate UpIn(h: Heap, us: UpVals, u: UpRef, s: set<Ref>, inside: bool) {
    u in us &&
    match us[u]
    case Closed(v) => In(v, s)
    case Open(th, _, touched) => if inside then In(UpValue(h, us, u), s) || th in s else touched
  }

  predicate UpsBlack(h: Heap, us: UpVals, ups: seq<UpRef>, s: set<Ref>, inside: bool) {
    forall i :: 0 <= i < |ups| ==> UpIn(h, us, ups[i], s, inside)
  }

  /** What the main invariant asks of a black object. */
  predicate BlackIn(h: Heap, us: UpVals, o: Object, s: set<Ref>, inside: bool) {
    match o
    case Table(meta, _, arr, nodes) => In(meta, s) && ValsIn(arr, s) && NodesIn(h, nodes, s)
    case LCl(p, ups) => In(p, s) && UpsBlack(h, us, ups, s, inside)
    case Thread(_) => false
    case _ => RefsIn(h, us, o, s)
  }

  /** The main invariant: no black object, outside x, refers to a white one. */
  ghost predicate Tri(g: G, x: set<Ref>, inside: bool) {
    forall r :: r in g.marked && r !in x && g.marked[r].Black? && r in g.heap ==>
      BlackIn(g.heap, g.upvals, g.heap[r], Marks(g), inside)
  }

  // ----- Well-formed heaps -----

  /** Live objects refer to live objects only, upvalues exist, open ones are slots of live stacks. */
  ghost predicate Wf(g: G) {
    Shaped(g) && RefsAlive(g)
  }

  ghost predicate Shaped(g: G) {
    && g.marked.Keys == g.heap.Keys
    && (forall r :: r in g.heap ==> r < g.top && KeysBelow(g.heap[r], g.top))
    && UpsOK(g)
  }

  ghost predicate RefsAlive(g: G) {
    forall r :: r in Alive(g) && r in g.heap ==> RefsIn(g.heap, g.upvals, g.heap[r], Alive(g))
  }

  /** Object r, without the metatable if it is a table in 'allweak'. */
  function Seen(g: G, r: Ref): Object
    requires r in g.heap
  {
    if g.heap[r].Table? && r in g.allweak then g.heap[r].(meta := Nil) else g.heap[r]
  }

  /** Live objects refer to live objects only, the metatables of tables in 'allweak' aside. */
  ghost predicate RefsBut(g: G) {
    forall r :: r in Alive(g) && r in g.heap ==> RefsIn(g.heap, g.upvals, Seen(g, r), Alive(g))
  }

  /** The metatables of live tables in 'allweak' are alive. */
  predicate MetasAlive(g: G) {
    forall r :: r in g.allweak && r in g.heap && r in Alive(g) && g.heap[r].Table? ==> In(g.heap[r].meta, Alive(g))
  }

  lemma RefsWhole(g: G)
    ensures RefsAlive(g) <==> RefsBut(g) && MetasAlive(g)
  {
    forall r | r in Alive(g) && r in g.heap
      ensures RefsIn(g.heap, g.upvals, g.heap[r], Alive(g)) <==>
              RefsIn(g.heap, g.upvals, Seen(g, r), Alive(g)) && (g.heap[r].Table? && r in g.allweak ==> In(g.heap[r].meta, Alive(g)))
    {
    }
  }

  /** Metatables of the tables in 'allweak' are in s. */
  ghost predicate MetasIn(g: G, s: set<Ref>) {
    forall r :: r in g.allweak && r in g.heap && g.heap[r].Table? ==> In(g.heap[r].meta, s)
  }

  /** Even the keys of absent entries are addresses that were used. */
  predicate KeysBelow(o: Object, top: nat) {
    o.Table? ==> forall i :: 0 <= i < |o.nodes| && o.nodes[i].key.Coll? ==> o.nodes[i].key.ref < top
  }

  ghost predicate UpsOK(g: G) {
    && (forall r, i :: r in g.heap && g.heap[r].LCl? && 0 <= i < |g.heap[r].ups| ==> g.heap[r].ups[i] in g.upvals)
    && (forall u :: u in g.upvals && g.upvals[u].Open? ==>
          && g.upvals[u].th in g.heap && g.heap[g.upvals[u].th].Thread?
          && g.upvals[u].level < |g.heap[g.upvals[u].th].stack|)
  }

  // ----- Monotonicity -----

  lemma RefsMono(h: Heap, us: UpVals, o: Object, s: set<Ref>, t: set<Ref>)
    requires RefsIn(h, us, o, s) && s <= t
    ensures RefsIn(h, us, o, t)
  {
  }

  lemma BlackMono(h: Heap, us: UpVals, o: Object, s: set<Ref>, t: set<Ref>, inside: bool)
    requires BlackIn(h, us, o, s, inside) && s <= t
    ensures BlackIn(h, us, o, t, inside)
  {
  }
}
