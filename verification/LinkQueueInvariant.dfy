/** The invariant of the link queue, and the proof that every atomic operation keeps it. */
module LinkQueueInvariant {
  import opened Base
  import opened LinkQueueModel

  ghost predicate Live(s: State, i: int) {
    (s.lo <= i < s.cut || s.keep <= i) && i < |s.order|
  }

  /** The node that only this thread can reach. */
  function Held(pc: Pc): Ptr {
    match pc
    case PutReset(_, item) => item
    case PutSwap(item) => item
    case DeFree(_, _, was) => was
    case _ => NULL
  }

  predicate InGet(pc: Pc) {
    pc.GetLst? || pc.GetNeedrel? || pc.TakeGuard? || pc.GetNeedrel2? || pc.GetSkip? || pc.GetSkipCas?
    || pc.GetTry? || pc.GetSub? || pc.GetAdvance? || pc.GetAdvanceCas? || pc.GetCopy? || pc.GetMark?
    || pc.GetNext? || pc.GetDone? || InDealloc(pc)
  }

  predicate InDealloc(pc: Pc) {
    pc.DeNext? || pc.DeWalk? || pc.DePush? || pc.DeSlot? || pc.DeFree? || pc.DeEnd? || pc.DeUnguard?
  }

  predicate InWalk(pc: Pc) {
    pc.DeWalk? || pc.DePush? || pc.DeSlot? || pc.DeFree? || pc.DeEnd?
  }

  ghost predicate Shape(m: Mode, s: State) {
    && |s.slots| == SLOTS && s.pos < WORD && s.len < WORD
    && |s.vals| == |s.order|
    && s.lo <= s.cut <= s.keep <= s.served <= |s.order|
    && NULL !in s.heap && s.heap.Keys == s.place.Keys
    && (m.NoReuse? ==> s.keep == 0)
    && (s.cut != s.keep ==> m.Recycling? && m.consumer < |s.pcs| && InWalk(s.pcs[m.consumer]))
  }

  ghost predicate Roles(m: Mode, s: State) {
    && (forall t :: 0 <= t < |s.pcs| && InGet(s.pcs[t]) ==> MayGet(m, t))
    && (forall t :: 0 <= t < |s.pcs| && InDealloc(s.pcs[t]) ==> m.Recycling?)
  }

  /** Every allocated node is where `place` says, and `place` is right about every node. */
  ghost predicate Placed(s: State) {
    ChainPlaced(s) && SlotsPlaced(s) && HandsPlaced(s)
  }

  ghost predicate ChainPlaced(s: State) {
    && (forall i :: Live(s, i) ==> s.order[i] in s.place && s.place[s.order[i]] == Chain(i))
    && (forall p :: p in s.place && s.place[p].Chain? ==> Live(s, s.place[p].at) && s.order[s.place[p].at] == p)
  }

  ghost predicate SlotsPlaced(s: State) {
    && (forall x :: 0 <= x < |s.slots| && s.slots[x] != NULL ==> s.slots[x] in s.place && s.place[s.slots[x]] == Cached(x))
    && (forall p :: p in s.place && s.place[p].Cached? ==> s.place[p].slot < |s.slots| && s.slots[s.place[p].slot] == p)
  }

  ghost predicate HandsPlaced(s: State) {
    && (forall t :: 0 <= t < |s.pcs| && Held(s.pcs[t]) != NULL ==>
          Held(s.pcs[t]) in s.place && s.place[Held(s.pcs[t])] == Hand(t))
    && (forall p :: p in s.place && s.place[p].Hand? ==>
          s.place[p].thread < |s.pcs| && Held(s.pcs[s.place[p].thread]) == p)
  }

  /** The queue's two ends, and the positions not yet linked. */
  ghost predicate Ends(s: State) {
    && s.ptr == (if s.order == [] then NULL else s.order[|s.order| - 1])
    && LstOk(s)
    && PendingOk(s)
  }

  ghost predicate LstOk(s: State) {
    && (s.lst == NULL <==> s.order == [] || 0 in s.pending)
    && (s.lst == NULL ==> s.served == 0)
    && (s.lst != NULL ==> Reached(s, s.lst))
  }

  ghost predicate PendingOk(s: State) {
    forall i :: i in s.pending ==> s.served <= i < |s.order| && s.pending[i] < |s.pcs| && Linking(s, s.pending[i], i)
  }

  ghost predicate Linking(s: State, t: nat, i: nat)
    requires t < |s.pcs| && i < |s.order|
  {
    var pc := s.pcs[t];
    && (pc.PutNext? || pc.PutLink?)
    && pc.item == s.order[i]
  }

  ghost predicate InChain(s: State, p: Ptr) {
    p in s.place && s.place[p].Chain? && s.keep <= s.place[p].at < |s.order|
  }

  /** `p` is linked from the old end, and everything older than `p` is claimed. */
  ghost predicate Reached(s: State, p: Ptr) {
    && InChain(s, p)
    && s.place[p].at <= s.served
    && (forall i :: i in s.pending ==> s.place[p].at < i)
  }

  ghost predicate Claimed(s: State, p: Ptr) {
    Reached(s, p) && s.place[p].at < s.served
  }

  ghost predicate NotPast(s: State, p: Ptr) {
    Reached(s, p) && s.lst != NULL && Position(s, p) <= Position(s, s.lst)
  }

  ghost predicate Nodes(s: State) {
    && (forall i :: Live(s, i) && s.order[i] in s.heap ==> NodeAt(s, i))
  }

  ghost predicate NodeAt(s: State, i: int)
    requires 0 <= i < |s.order| && s.order[i] in s.heap
  {
    var nd := s.heap[s.order[i]];
    && i < |s.vals| && nd.payload == s.vals[i]
    && (nd.claimed <==> i < s.served)
    && (nd.needrel ==> i < s.served)
    && nd.prev == (if i + 1 < |s.order| && i + 1 !in s.pending then s.order[i + 1] else NULL)
    && (i !in s.pending ==> nd.next == (if i == s.lo then NULL else if i > 0 then s.order[i - 1] else NULL))
  }

  function Back(s: State, i: int): Ptr {
    if s.lo < i <= |s.order| then s.order[i - 1] else NULL
  }

  /** What a thread inside `put` relies on. */
  ghost predicate PutterOk(s: State, t: nat, pc: Pc) {
    match pc
    case PutPop(_, slot) => slot < SLOTS
    case PutReset(_, item) => item != NULL
    case PutSwap(item) =>
      item != NULL && item in s.heap && s.heap[item] == Node(NULL, NULL, false, false, s.heap[item].payload)
    case PutNext(item, oldhead) => LinkOk(s, t, item, oldhead)
    case PutLink(item, oldhead) => LinkOk(s, t, item, oldhead) && item in s.heap && s.heap[item].next == oldhead
    case _ => true
  }

  ghost predicate LinkOk(s: State, t: nat, item: Ptr, oldhead: Ptr) {
    && InChain(s, item)
    && var i := s.place[item].at;
    && i in s.pending && s.pending[i] == t
    && oldhead == (if i == 0 then NULL else s.order[i - 1])
    && (i > 0 ==> InChain(s, oldhead) && s.place[oldhead].at == i - 1)
  }

  /** What a thread inside `get` relies on. */
  ghost predicate GetterOk(m: Mode, s: State, pc: Pc) {
    match pc
    case GetNeedrel(cur) => NotPast(s, cur)
    case TakeGuard(cur) => NotPast(s, cur) && Claimed(s, cur) && m.Recycling?
    case GetNeedrel2(cur) => NotPast(s, cur)
    case GetSkip(cur) => NotPast(s, cur) && Claimed(s, cur)
    case GetSkipCas(cur, nlst) => Claimed(s, cur) && Follows(s, cur, nlst)
    case GetTry(cur, first) => Reached(s, cur)
    case GetSub(cur, first) => Claimed(s, cur)
    case GetAdvance(cur) => Claimed(s, cur)
    case GetAdvanceCas(cur, nlst) => Claimed(s, cur) && Follows(s, cur, nlst)
    case GetCopy(cur) => Claimed(s, cur)
    case GetMark(cur, v) => Claimed(s, cur) && Position(s, cur) < |s.vals| && v == s.vals[Position(s, cur)]
    case GetNext(cur) => Claimed(s, cur)
    case DeNext(after) => NotPast(s, after) && Claimed(s, after)
    case DeWalk(after, cur) => WalkOk(s, after) && cur == Back(s, s.cut)
    case DePush(after, cur, ncur) => WalkOk(s, after) && s.lo < s.cut && cur == Back(s, s.cut) && ncur == Back(s, s.cut - 1)
    case DeSlot(after, cur, ncur, slot) =>
      slot < SLOTS && WalkOk(s, after) && s.lo < s.cut && cur == Back(s, s.cut) && ncur == Back(s, s.cut - 1)
    case DeFree(after, ncur, was) => was != NULL && WalkOk(s, after) && ncur == Back(s, s.cut)
    case DeEnd(after) => WalkOk(s, after) && s.lo == s.cut
    case DeUnguard(after) => NotPast(s, after)
    case _ => true
  }

  ghost predicate Follows(s: State, cur: Ptr, nlst: Ptr) {
    Reached(s, nlst) && Position(s, nlst) == Position(s, cur) + 1
  }

  ghost predicate WalkOk(s: State, after: Ptr) {
    NotPast(s, after) && Claimed(s, after) && Position(s, after) == s.keep
  }

  ghost predicate Putters(s: State) {
    forall t :: 0 <= t < |s.pcs| ==> PutterOk(s, t, s.pcs[t])
  }

  ghost predicate Getters(m: Mode, s: State) {
    forall t :: 0 <= t < |s.pcs| ==> GetterOk(m, s, s.pcs[t])
  }

  ghost predicate Inv(m: Mode, s: State) {
    && Shape(m, s) && Roles(m, s) && Placed(s) && Ends(s) && Nodes(s) && Putters(s) && Getters(m, s)
  }

  lemma InitInv(m: Mode, s: State)
    requires Init(s)
    ensures Inv(m, s)
  {
  }

  // ----- what a step of another thread leaves alone -----

  /** The chain only grows at its new end, and `served` and `lst` only move forward. */
  ghost predicate Grows(s: State, s': State) {
    && |s.order| <= |s'.order| && s.order == s'.order[..|s.order|]
    && |s.vals| <= |s'.vals| && s.vals == s'.vals[..|s.vals|]
    && s.served <= s'.served
    && (forall p :: InChain(s, p) ==> InChain(s', p) && s'.place[p] == s.place[p])
    && (forall i :: i in s'.pending ==> i in s.pending || i >= |s.order|)
    && (s.lst != NULL ==> s'.lst != NULL && Position(s, s.lst) <= Position(s', s'.lst))
  }

  ghost predicate Extends(s: State, s': State) {
    Grows(s, s') && s.lo == s'.lo && s.cut == s'.cut && s.keep == s'.keep
  }

  lemma ReachedKeeps(s: State, s': State, p: Ptr)
    requires Grows(s, s') && Reached(s, p)
    ensures Reached(s', p) && Position(s', p) == Position(s, p)
  {
  }

  lemma GetterKeeps(m: Mode, s: State, s': State, pc: Pc)
    requires Extends(s, s') && GetterOk(m, s, pc) && s.cut <= |s.order|
    ensures GetterOk(m, s', pc)
  {
    forall p | Reached(s, p) ensures Reached(s', p) && Position(s', p) == Position(s, p) {
      ReachedKeeps(s, s', p);
    }
    if InDealloc(pc) { WalkerKeeps(m, s, s', pc); } else { TakerKeeps(m, s, s', pc); }
  }

  /** What was reached is still reached, at its position. */
  ghost predicate Stays(s: State, s': State) {
    forall p :: Reached(s, p) ==> Reached(s', p) && Position(s', p) == Position(s, p)
  }

  lemma WalkerKeeps(m: Mode, s: State, s': State, pc: Pc)
    requires Extends(s, s') && Stays(s, s') && InDealloc(pc) && GetterOk(m, s, pc) && s.cut <= |s.order|
    ensures GetterOk(m, s', pc)
  {
  }

  lemma TakerKeeps(m: Mode, s: State, s': State, pc: Pc)
    requires Extends(s, s') && Stays(s, s') && !InDealloc(pc) && GetterOk(m, s, pc)
    ensures GetterOk(m, s', pc)
  {
  }

  /** Only thread `t` moved. */
  ghost predicate OneThread(s: State, s': State, t: nat) {
    t < |s.pcs| && |s'.pcs| == |s.pcs| && s'.pcs == s.pcs[t := s'.pcs[t]]
  }

  lemma GettersKeep(m: Mode, s: State, s': State, t: nat)
    requires Shape(m, s) && Extends(s, s') && Getters(m, s)
    requires OneThread(s, s', t) && GetterOk(m, s', s'.pcs[t])
    ensures Getters(m, s')
  {
    forall u | 0 <= u < |s'.pcs| ensures GetterOk(m, s', s'.pcs[u]) {
      if u != t { GetterKeeps(m, s, s', s.pcs[u]); }
    }
  }

  /** What the step of one thread says about that thread alone. */
  ghost predicate Local(m: Mode, s: State, s': State, t: nat) {
    && OneThread(s, s', t)
    && RoleOk(m, t, s'.pcs[t])
    && PutterOk(s', t, s'.pcs[t])
    && GetterOk(m, s', s'.pcs[t])
  }

  ghost predicate RoleOk(m: Mode, t: nat, pc: Pc) {
    (InGet(pc) ==> MayGet(m, t)) && (InDealloc(pc) ==> m.Recycling?)
  }

  lemma RolesKeep(m: Mode, s: State, s': State, t: nat)
    requires Roles(m, s) && OneThread(s, s', t) && RoleOk(m, t, s'.pcs[t])
    ensures Roles(m, s')
  {
  }

  /** No other thread's private node, unlinked node or pending position changed. */
  ghost predicate OthersKept(s: State, s': State, t: nat) {
    && (forall u :: 0 <= u < |s.pcs| && u != t && s.pcs[u].PutSwap? && s.pcs[u].item in s.heap ==>
          s.pcs[u].item in s'.heap && s'.heap[s.pcs[u].item] == s.heap[s.pcs[u].item])
    && (forall u :: 0 <= u < |s.pcs| && u != t && s.pcs[u].PutLink? && s.pcs[u].item in s.heap ==>
          s.pcs[u].item in s'.heap && s'.heap[s.pcs[u].item].next == s.heap[s.pcs[u].item].next)
    && (forall i :: i in s.pending && s.pending[i] != t ==> i in s'.pending && s'.pending[i] == s.pending[i])
  }

  lemma PuttersKeep(m: Mode, s: State, s': State, t: nat)
    requires Shape(m, s) && Putters(s) && OneThread(s, s', t) && Grows(s, s') && OthersKept(s, s', t)
    requires PutterOk(s', t, s'.pcs[t])
    ensures Putters(s')
  {
    forall u | 0 <= u < |s'.pcs| ensures PutterOk(s', u, s'.pcs[u]) {
      if u != t { PutterKeeps(m, s, s', t, u); }
    }
  }

  lemma PutterKeeps(m: Mode, s: State, s': State, t: nat, u: nat)
    requires Shape(m, s) && Grows(s, s') && OthersKept(s, s', t) && u < |s.pcs| && u != t && PutterOk(s, u, s.pcs[u])
    ensures PutterOk(s', u, s.pcs[u])
  {
    if s.pcs[u].PutNext? || s.pcs[u].PutLink? { LinkKeeps(m, s, s', t, u, s.pcs[u].item, s.pcs[u].oldhead); }
  }

  lemma LinkKeeps(m: Mode, s: State, s': State, t: nat, u: nat, item: Ptr, oldhead: Ptr)
    requires Shape(m, s) && Grows(s, s') && u != t && LinkOk(s, u, item, oldhead)
    requires forall i :: i in s.pending && s.pending[i] != t ==> i in s'.pending && s'.pending[i] == s.pending[i]
    ensures LinkOk(s', u, item, oldhead)
  {
    var i := s.place[item].at;
    assert s'.place[item].at == i;
    if i > 0 { assert s'.order[i - 1] == s.order[i - 1]; }
  }

  /** The part of the invariant about threads, after a step that only extends the chain. */
  lemma ThreadsKeep(m: Mode, s: State, s': State, t: nat)
    requires Shape(m, s) && Roles(m, s) && Putters(s) && Getters(m, s)
    requires Local(m, s, s', t) && Extends(s, s') && OthersKept(s, s', t)
    ensures Roles(m, s') && Putters(s') && Getters(m, s')
  {
    RolesKeep(m, s, s', t);
    GettersKeep(m, s, s', t);
    PuttersKeep(m, s, s', t);
  }

  /** The records of the nodes still in the chain are the same in both states. */
  ghost predicate SameNodes(s: State, s': State) {
    && s'.order == s.order && s'.vals == s.vals && s'.served == s.served && s'.pending == s.pending && s'.lo == s.lo
    && (forall i :: Live(s', i) && s.order[i] in s'.heap ==>
          Live(s, i) && s.order[i] in s.heap && s'.heap[s.order[i]] == s.heap[s.order[i]])
  }

  lemma NodesSame(s: State, s': State)
    requires Nodes(s) && SameNodes(s, s')
    ensures Nodes(s')
  {
    forall i | Live(s', i) && s'.order[i] in s'.heap ensures NodeAt(s', i) {
      assert Live(s, i);
      assert NodeAt(s, i);
    }
  }

  ghost predicate SameEnds(s: State, s': State) {
    && s'.ptr == s.ptr && s'.lst == s.lst && s'.order == s.order && s'.served == s.served && s'.pending == s.pending
  }

  ghost predicate NotLinking(pc: Pc) {
    !pc.PutNext? && !pc.PutLink?
  }

  lemma EndsSame(s: State, s': State, t: nat)
    requires Ends(s) && SameEnds(s, s') && Grows(s, s') && OneThread(s, s', t) && NotLinking(s.pcs[t])
    ensures Ends(s')
  {
    if s.lst != NULL { ReachedKeeps(s, s', s.lst); }
    PendingSame(s, s', t);
  }

  lemma PendingSame(s: State, s': State, t: nat)
    requires PendingOk(s) && SameEnds(s, s') && OneThread(s, s', t) && NotLinking(s.pcs[t])
    ensures PendingOk(s')
  {
    forall i | i in s'.pending ensures s'.pending[i] < |s'.pcs| && i < |s'.order| && Linking(s', s'.pending[i], i) {
      assert Linking(s, s.pending[i], i);
    }
  }

  lemma HandIs(s: State, t: nat)
    requires HandsPlaced(s) && t < |s.pcs|
    ensures forall p: Ptr :: InHand(s, p, t) ==> p == Held(s.pcs[t])
  {
  }

  /** Only what thread `t` holds in its hand may have changed. */
  lemma HandsMove(s: State, s': State, t: nat)
    requires HandsPlaced(s) && OneThread(s, s', t)
    requires forall p: Ptr, u: nat :: u != t ==> (InHand(s', p, u) <==> InHand(s, p, u))
    requires forall p: Ptr :: InHand(s', p, t) <==> p != NULL && p == Held(s'.pcs[t])
    ensures HandsPlaced(s')
  {
    forall u | 0 <= u < |s'.pcs| && Held(s'.pcs[u]) != NULL ensures InHand(s', Held(s'.pcs[u]), u) {
      if u != t { assert InHand(s, Held(s.pcs[u]), u); }
    }
    forall p | p in s'.place && s'.place[p].Hand?
      ensures s'.place[p].thread < |s'.pcs| && Held(s'.pcs[s'.place[p].thread]) == p
    {
      assert InHand(s', p, s'.place[p].thread);
      if s'.place[p].thread != t { assert InHand(s, p, s'.place[p].thread); }
    }
  }

  ghost predicate InHand(s: State, p: Ptr, u: nat) {
    p in s.place && s.place[p] == Hand(u)
  }

  /** No node changed place. */
  ghost predicate SamePlaces(s: State, s': State) {
    && s'.place == s.place && s'.slots == s.slots && s'.order == s.order
    && s'.lo == s.lo && s'.cut == s.cut && s'.keep == s.keep
  }

  lemma PlacedSame(s: State, s': State, t: nat)
    requires Placed(s) && OneThread(s, s', t) && Held(s'.pcs[t]) == Held(s.pcs[t]) && SamePlaces(s, s')
    ensures Placed(s')
  {
    assert forall i :: Live(s', i) <==> Live(s, i);
  }

  /** The memory of the queue is the same in both states. */
  ghost predicate SameMemory(s: State, s': State) {
    && s'.heap == s.heap && s'.ptr == s.ptr && s'.lst == s.lst && s'.slots == s.slots && s'.order == s.order
    && s'.vals == s.vals && s'.served == s.served && s'.pending == s.pending && s'.lo == s.lo && s'.cut == s.cut
    && s'.keep == s.keep && s'.place == s.place
  }

  lemma SameMemoryFrames(m: Mode, s: State, s': State, t: nat)
    requires SameMemory(s, s')
    ensures Extends(s, s') && SameNodes(s, s') && SameEnds(s, s') && SamePlaces(s, s') && OthersKept(s, s', t)
  {
  }

  /** A step that moves or adds a node outside of the chain. */
  lemma PlaceFrames(s: State, s': State, t: nat)
    requires forall p :: p in s.heap ==> p in s'.heap && s'.heap[p] == s.heap[p]
    requires forall p :: p in s.place && s.place[p].Chain? ==> p in s'.place && s'.place[p] == s.place[p]
    requires forall i :: Live(s, i) ==> s.order[i] in s.heap
    requires s'.ptr == s.ptr && s'.lst == s.lst && s'.order == s.order && s'.vals == s.vals && s'.served == s.served
    requires s'.pending == s.pending && s'.lo == s.lo && s'.cut == s.cut && s'.keep == s.keep
    ensures Extends(s, s') && SameNodes(s, s') && SameEnds(s, s') && OthersKept(s, s', t)
  {
  }

  lemma ShapeSame(m: Mode, s: State, s': State, t: nat)
    requires Shape(m, s) && SameMemory(s, s') && OneThread(s, s', t) && s'.pos < WORD && s'.len < WORD
    requires InWalk(s.pcs[t]) ==> InWalk(s'.pcs[t])
    ensures Shape(m, s')
  {
  }

  /** Thread `t` may go on from `pc` to `pc'`, as far as the memory and the other threads are concerned. */
  ghost predicate Goes(m: Mode, s: State, t: nat, pc: Pc, pc': Pc) {
    && GetterOk(m, s, pc') && PutterOk(s, t, pc') && RoleOk(m, t, pc')
    && Held(pc') == Held(pc) && NotLinking(pc) && (InWalk(pc) ==> InWalk(pc'))
  }

  /** A step that changes no more than `pos`, `len` and `doingrel`. */
  lemma ControlKeeps(m: Mode, s: State, s': State, t: nat)
    requires Inv(m, s) && OneThread(s, s', t) && SameMemory(s, s') && s'.pos < WORD && s'.len < WORD
    requires Goes(m, s, t, s.pcs[t], s'.pcs[t])
    ensures Inv(m, s')
  {
    SameMemoryFrames(m, s, s', t);
    ControlLocal(m, s, s', t);
    ShapeSame(m, s, s', t);
    ThreadsKeep(m, s, s', t);
    NodesSame(s, s');
    EndsSame(s, s', t);
    PlacedSame(s, s', t);
  }

  lemma ControlLocal(m: Mode, s: State, s': State, t: nat)
    requires Shape(m, s) && OneThread(s, s', t) && SameMemory(s, s') && Extends(s, s') && Goes(m, s, t, s.pcs[t], s'.pcs[t])
    ensures Local(m, s, s', t)
  {
    GetterKeeps(m, s, s', s'.pcs[t]);
  }
}
