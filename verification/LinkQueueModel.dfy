/**
 `InfiniteLinkQueue` and its `PointerCache` as threads that take one atomic operation at a time.

 Every step is one load, store, swap, fetch-and-add or compare-and-swap of src/queue.rs, performed by any
 thread at any moment. Addresses are numbers, 0 is the null pointer, and an allocation may return any
 address that is not allocated at that moment, a previously freed one included.

 The queue is studied in two modes. With `Recycling(c)` only thread `c` calls `get`, and `get` runs
 `taildealloc`. With `NoReuse` every thread may call `get` and `taildealloc` is switched off.
 */
module LinkQueueModel {
  import opened Base

  type Ptr = nat

  const NULL: Ptr := 0

  /** `PointerCache::new(10)` makes `mask + 1 == 1024` slots. */
  const SLOTS: nat := 1024

  datatype Node = Node(next: Ptr, prev: Ptr, claimed: bool, needrel: bool, payload: Payload)

  datatype Mode = Recycling(consumer: nat) | NoReuse

  /** The next atomic operation of a thread, with the local variables it still needs. */
  datatype Pc =
    | Idle
    // put
    | PutPos(v: Payload)                                      // pos.fetch_sub
    | PutPop(v: Payload, slot: nat)                           // slot.swap(null)
    | PutReset(v: Payload, item: Ptr)                         // reset a recycled node
    | PutAlloc(v: Payload)                                    // Box::new
    | PutSwap(item: Ptr)                                      // ptr.swap(item)
    | PutNext(item: Ptr, oldhead: Ptr)                        // item.next.store(oldhead)
    | PutLink(item: Ptr, oldhead: Ptr)                        // oldhead.prev.store(item), or lst.store(item)
    | PutLen                                                  // len.fetch_add
    // get
    | GetLst                                                  // lst.load
    | GetNeedrel(cur: Ptr)                                    // cur.needrel.load
    | TakeGuard(cur: Ptr)                                     // doingrel.compare_and_swap(false, true)
    | GetNeedrel2(cur: Ptr)                                   // the second cur.needrel.load
    | GetSkip(cur: Ptr)                                       // nlst = cur.prev.load
    | GetSkipCas(cur: Ptr, nlst: Ptr)                         // lst.compare_and_swap(cur, nlst)
    | GetTry(cur: Ptr, first: bool)                           // cur.claimed.compare_and_swap(false, true)
    | GetSub(cur: Ptr, first: bool)                           // len.fetch_sub
    | GetAdvance(cur: Ptr)                                    // nlst = cur.prev.load
    | GetAdvanceCas(cur: Ptr, nlst: Ptr)                      // lst.compare_and_swap(cur, nlst)
    | GetCopy(cur: Ptr)                                       // copy the payload out
    | GetMark(cur: Ptr, v: Payload)                           // cur.needrel.store(true)
    | GetNext(cur: Ptr)                                       // cur = cur.prev.load
    | GetDone(r: Option<Payload>)                             // return
    // taildealloc, called by get
    | DeNext(after: Ptr)                                      // cur = after.next.load
    | DeWalk(after: Ptr, cur: Ptr)                            // loop test, then ncur = cur.next.load
    | DePush(after: Ptr, cur: Ptr, ncur: Ptr)                 // pos.fetch_add
    | DeSlot(after: Ptr, cur: Ptr, ncur: Ptr, slot: nat)      // slot.swap(cur)
    | DeFree(after: Ptr, ncur: Ptr, was: Ptr)                 // deallocate what the slot held
    | DeEnd(after: Ptr)                                       // after.next.store(null)
    | DeUnguard(after: Ptr)                                   // doingrel.store(false)

  /** The one place where an allocated node is. */
  datatype Place =
    | Hand(thread: nat)   // only this thread can reach it
    | Chain(at: nat)      // published, at this position of the swap order
    | Cached(slot: nat)   // in this slot of the pointer cache

  /**
   The shared memory, the program counters, and history variables that no step tests:
   - `order` and `vals` list the nodes and payloads of all `ptr.swap`s so far;
   - `served` counts the claims so far;
   - `pending` maps each position swapped in but not yet linked to the thread that will link it;
   - the positions still in the chain are `lo..cut` and `keep..|order|` (`cut == keep` outside `taildealloc`).
   */
  datatype State = State(
    heap: map<Ptr, Node>, ptr: Ptr, lst: Ptr, len: nat, doingrel: bool, slots: seq<Ptr>, pos: nat, pcs: seq<Pc>,
    order: seq<Ptr>, vals: seq<Payload>, served: nat, pending: map<nat, nat>, lo: nat, cut: nat, keep: nat,
    place: map<Ptr, Place>)

  ghost predicate Init(s: State) {
    && s.heap == map[] && s.ptr == NULL && s.lst == NULL && s.len == 0 && !s.doingrel
    && s.slots == seq(SLOTS, _ => NULL) && s.pos == 0
    && (forall t :: 0 <= t < |s.pcs| ==> s.pcs[t] == Idle)
    && s.order == [] && s.vals == [] && s.served == 0 && s.pending == map[]
    && s.lo == 0 && s.cut == 0 && s.keep == 0 && s.place == map[]
  }

  predicate MayGet(m: Mode, t: nat) {
    m.NoReuse? || t == m.consumer
  }

  /** The addresses that the next operation of a thread dereferences. */
  function Derefs(pc: Pc): set<Ptr> {
    match pc
    case PutReset(_, item) => {item}
    case PutSwap(item) => {}
    case PutNext(item, _) => {item}
    case PutLink(_, oldhead) => if oldhead == NULL then {} else {oldhead}
    case GetNeedrel(cur) => {cur}
    case GetNeedrel2(cur) => {cur}
    case GetSkip(cur) => {cur}
    case GetTry(cur, _) => {cur}
    case GetAdvance(cur) => {cur}
    case GetCopy(cur) => {cur}
    case GetMark(cur, _) => {cur}
    case GetNext(cur) => {cur}
    case DeNext(after) => {after}
    case DeWalk(_, cur) => if cur == NULL then {} else {cur}
    case DeFree(_, _, was) => {was}
    case DeEnd(after) => {after}
    case _ => {}
  }

  function At(s: State, t: nat, pc: Pc): State
    requires t < |s.pcs|
  {
    s.(pcs := s.pcs[t := pc])
  }

  function Position(s: State, p: Ptr): nat {
    if p in s.place && s.place[p].Chain? then s.place[p].at else 0
  }

  // ----- operations that only load -----

  predicate Loads(pc: Pc) {
    pc.GetLst? || pc.GetNeedrel? || pc.GetNeedrel2? || pc.GetSkip? || pc.GetAdvance? || pc.GetCopy? || pc.GetNext? || pc.GetDone?
    || pc.DeWalk?
  }

  function Loaded(m: Mode, s: State, pc: Pc): Pc
    requires Derefs(pc) <= s.heap.Keys
  {
    match pc
    case GetLst => if s.lst == NULL then GetDone(None) else GetNeedrel(s.lst)
    case GetNeedrel(cur) => if s.heap[cur].needrel && m.Recycling? then TakeGuard(cur) else GetNeedrel2(cur)
    case GetNeedrel2(cur) => if s.heap[cur].needrel then GetSkip(cur) else GetTry(cur, true)
    case GetSkip(cur) => if s.heap[cur].prev == NULL then GetDone(None) else GetSkipCas(cur, s.heap[cur].prev)
    case GetAdvance(cur) => if s.heap[cur].prev == NULL then GetCopy(cur) else GetAdvanceCas(cur, s.heap[cur].prev)
    case GetCopy(cur) => GetMark(cur, s.heap[cur].payload)
    case GetNext(cur) => if s.heap[cur].prev == NULL then GetDone(None) else GetTry(s.heap[cur].prev, false)
    case GetDone(_) => Idle
    case DeWalk(after, cur) => if cur == NULL then DeEnd(after) else DePush(after, cur, s.heap[cur].next)
    case _ => pc
  }

  // ----- operations on the counters `pos` and `len` and on the guard `doingrel` -----

  predicate Counts(pc: Pc) {
    pc.PutPos? || pc.PutLen? || pc.GetSub? || pc.TakeGuard? || pc.DePush? || pc.DeUnguard?
  }

  function Counted(s: State, pc: Pc): State {
    s.(pos := if pc.PutPos? then SubWord(s.pos, 1) else if pc.DePush? then AddWord(s.pos, 1) else s.pos,
       len := if pc.PutLen? then AddWord(s.len, 1) else if pc.GetSub? then SubWord(s.len, 1) else s.len,
       doingrel := pc.TakeGuard? || (s.doingrel && !pc.DeUnguard?))
  }

  function CountedPc(s: State, pc: Pc): Pc {
    match pc
    case PutPos(v) => PutPop(v, SubWord(s.pos, 1) % SLOTS)
    case PutLen => Idle
    case GetSub(cur, first) => if first then GetAdvance(cur) else GetCopy(cur)
    case TakeGuard(cur) => if s.doingrel then GetNeedrel2(cur) else DeNext(cur)
    case DePush(after, cur, ncur) => DeSlot(after, cur, ncur, s.pos % SLOTS)
    case DeUnguard(after) => GetNeedrel2(after)
    case _ => pc
  }

  // ----- put -----

  function PutPopStep(s: State, t: nat, v: Payload, slot: nat): State
    requires t < |s.pcs| && slot < |s.slots|
  {
    var was := s.slots[slot];
    if was != NULL then
      At(s.(slots := s.slots[slot := NULL], place := s.place[was := Hand(t)]), t, PutReset(v, was))
    else
      At(s, t, PutAlloc(v))
  }

  function PutResetStep(s: State, t: nat, v: Payload, item: Ptr): State
    requires t < |s.pcs|
  {
    At(s.(heap := s.heap[item := Node(NULL, NULL, false, false, v)]), t, PutSwap(item))
  }

  function PutAllocStep(s: State, t: nat, v: Payload, item: Ptr): State
    requires t < |s.pcs|
  {
    At(s.(heap := s.heap[item := Node(NULL, NULL, false, false, v)], place := s.place[item := Hand(t)]), t, PutSwap(item))
  }

  function PutSwapStep(s: State, t: nat, item: Ptr): State
    requires t < |s.pcs| && item in s.heap
  {
    var n := |s.order|;
    At(s.(ptr := item, order := s.order + [item], vals := s.vals + [s.heap[item].payload],
          pending := s.pending[n := t], place := s.place[item := Chain(n)]),
       t, PutNext(item, s.ptr))
  }

  function PutNextStep(s: State, t: nat, item: Ptr, oldhead: Ptr): State
    requires t < |s.pcs| && item in s.heap
  {
    At(s.(heap := s.heap[item := s.heap[item].(next := oldhead)]), t, PutLink(item, oldhead))
  }

  function PutLinkStep(s: State, t: nat, item: Ptr, oldhead: Ptr): State
    requires t < |s.pcs| && (oldhead != NULL ==> oldhead in s.heap)
  {
    var s' := s.(pending := s.pending - {Position(s, item)});
    if oldhead != NULL then
      At(s'.(heap := s.heap[oldhead := s.heap[oldhead].(prev := item)]), t, PutLen)
    else
      At(s'.(lst := item), t, PutLen)
  }

  // ----- get -----

  function CasLst(s: State, cur: Ptr, nlst: Ptr): State {
    if s.lst == cur then s.(lst := nlst) else s
  }

  function GetSkipCasStep(s: State, t: nat, cur: Ptr, nlst: Ptr): State
    requires t < |s.pcs|
  {
    At(CasLst(s, cur, nlst), t, GetTry(nlst, true))
  }

  function GetTryStep(s: State, t: nat, cur: Ptr, first: bool): State
    requires t < |s.pcs| && cur in s.heap
  {
    if s.heap[cur].claimed then
      At(s, t, GetNext(cur))
    else
      At(s.(heap := s.heap[cur := s.heap[cur].(claimed := true)], served := s.served + 1), t, GetSub(cur, first))
  }

  function GetAdvanceCasStep(s: State, t: nat, cur: Ptr, nlst: Ptr): State
    requires t < |s.pcs|
  {
    At(CasLst(s, cur, nlst), t, GetCopy(cur))
  }

  function GetMarkStep(s: State, t: nat, cur: Ptr, v: Payload): State
    requires t < |s.pcs| && cur in s.heap
  {
    At(s.(heap := s.heap[cur := s.heap[cur].(needrel := true)]), t, GetDone(Some(v)))
  }

  // ----- taildealloc -----

  function DeNextStep(s: State, t: nat, after: Ptr): State
    requires t < |s.pcs| && after in s.heap
  {
    var a := Position(s, after);
    At(s.(cut := a, keep := a), t, DeWalk(after, s.heap[after].next))
  }

  function DeSlotStep(s: State, t: nat, after: Ptr, cur: Ptr, ncur: Ptr, slot: nat): State
    requires t < |s.pcs| && slot < |s.slots|
  {
    var was := s.slots[slot];
    var s' := s.(slots := s.slots[slot := cur], cut := if s.cut == 0 then 0 else s.cut - 1);
    if was != NULL then
      At(s'.(place := s.place[cur := Cached(slot)][was := Hand(t)]), t, DeFree(after, ncur, was))
    else
      At(s'.(place := s.place[cur := Cached(slot)]), t, DeWalk(after, ncur))
  }

  function DeFreeStep(s: State, t: nat, after: Ptr, ncur: Ptr, was: Ptr): State
    requires t < |s.pcs|
  {
    At(s.(heap := s.heap - {was}, place := s.place - {was}), t, DeWalk(after, ncur))
  }

  function DeEndStep(s: State, t: nat, after: Ptr): State
    requires t < |s.pcs| && after in s.heap
  {
    At(s.(heap := s.heap[after := s.heap[after].(next := NULL)], lo := s.keep, cut := s.keep), t, DeUnguard(after))
  }

  // ----- steps -----

  ghost predicate LoadStep(m: Mode, s: State, s': State, t: nat)
    requires t < |s.pcs| && Derefs(s.pcs[t]) <= s.heap.Keys
  {
    Loads(s.pcs[t]) && s' == At(s, t, Loaded(m, s, s.pcs[t]))
  }

  ghost predicate CountStep(s: State, s': State, t: nat)
    requires t < |s.pcs|
  {
    Counts(s.pcs[t]) && s' == At(Counted(s, s.pcs[t]), t, CountedPc(s, s.pcs[t]))
  }

  ghost predicate PrepareStep(s: State, s': State, t: nat)
    requires t < |s.pcs| && Derefs(s.pcs[t]) <= s.heap.Keys
  {
    match s.pcs[t]
    case PutPop(v, slot) => slot < |s.slots| && s' == PutPopStep(s, t, v, slot)
    case PutReset(v, item) => s' == PutResetStep(s, t, v, item)
    case PutAlloc(v) => exists item: Ptr :: item != NULL && item !in s.heap && s' == PutAllocStep(s, t, v, item)
    case _ => false
  }

  ghost predicate PublishStep(s: State, s': State, t: nat)
    requires t < |s.pcs| && Derefs(s.pcs[t]) <= s.heap.Keys
  {
    match s.pcs[t]
    case PutSwap(item) => item in s.heap && s' == PutSwapStep(s, t, item)
    case PutNext(item, oldhead) => s' == PutNextStep(s, t, item, oldhead)
    case PutLink(item, oldhead) => s' == PutLinkStep(s, t, item, oldhead)
    case _ => false
  }

  ghost predicate ClaimStep(s: State, s': State, t: nat)
    requires t < |s.pcs| && Derefs(s.pcs[t]) <= s.heap.Keys
  {
    match s.pcs[t]
    case GetSkipCas(cur, nlst) => s' == GetSkipCasStep(s, t, cur, nlst)
    case GetTry(cur, first) => s' == GetTryStep(s, t, cur, first)
    case GetAdvanceCas(cur, nlst) => s' == GetAdvanceCasStep(s, t, cur, nlst)
    case GetMark(cur, v) => s' == GetMarkStep(s, t, cur, v)
    case _ => false
  }

  ghost predicate RecycleStep(s: State, s': State, t: nat)
    requires t < |s.pcs| && Derefs(s.pcs[t]) <= s.heap.Keys
  {
    match s.pcs[t]
    case DeNext(after) => s' == DeNextStep(s, t, after)
    case DeSlot(after, cur, ncur, slot) => slot < |s.slots| && s' == DeSlotStep(s, t, after, cur, ncur, slot)
    case DeFree(after, ncur, was) => s' == DeFreeStep(s, t, after, ncur, was)
    case DeEnd(after) => s' == DeEndStep(s, t, after)
    case _ => false
  }

  ghost predicate CallStep(m: Mode, s: State, s': State, t: nat)
    requires t < |s.pcs|
  {
    && s.pcs[t].Idle?
    && ((exists v: Payload :: s' == At(s, t, PutPos(v))) || (MayGet(m, t) && s' == At(s, t, GetLst)))
  }

  /** One atomic operation of thread `t`. An operation on memory that is not allocated has no step. */
  ghost predicate Step(m: Mode, s: State, s': State, t: nat) {
    && t < |s.pcs|
    && Derefs(s.pcs[t]) <= s.heap.Keys
    && (CallStep(m, s, s', t) || LoadStep(m, s, s', t) || CountStep(s, s', t) || PrepareStep(s, s', t)
        || PublishStep(s, s', t) || ClaimStep(s, s', t) || RecycleStep(s, s', t))
  }

  ghost predicate Next(m: Mode, s: State, s': State) {
    exists t: nat :: Step(m, s, s', t)
  }

  ghost predicate Advances(m: Mode, run: seq<State>, i: int)
    requires 0 <= i < |run| - 1
  {
    Next(m, run[i], run[i + 1])
  }

  /** A run: any number of threads, any interleaving of their operations. */
  ghost predicate Run(m: Mode, run: seq<State>) {
    && |run| > 0
    && Init(run[0])
    && (forall i :: 0 <= i < |run| - 1 ==> Advances(m, run, i))
  }
}
