/**
 `NativeQueue` of benches/queuefight.rs: any number of pushers and one popper, one atomic operation at a time.
 A popped node is freed at once, and an allocation may return its address again.
 */
module NativeQueue {
  import opened Base
  import Spec = AtomicQueue

  type Ptr = nat

  const NULL: Ptr := 0

  datatype Node = Node(next: Ptr, value: Option<Payload>)

  datatype Verdict = Data(v: Payload) | Empty | Inconsistent

  datatype Pc =
    | Idle
    | PushAlloc(v: Payload)                  // Node::new(Some(t))
    | PushSwap(n: Ptr)                       // prev = head.swap(n)
    | PushLink(n: Ptr, prev: Ptr)            // prev.next.store(n)
    | PushReturn
    | PopNext                                // next = tail.next.load
    | PopTake(next: Ptr)                     // advance tail, take the value, free the old tail
    | PopHead                                // head.load() == tail ?
    | PopReturn(r: Verdict)

  /**
   The shared memory, then history variables that no step tests: `order` lists the stub and the nodes in
   `head.swap` order, `vals` the values of all but the stub, `popped` counts the pops (`tail` is
   `order[popped]`), `pending` maps each position whose predecessor is not yet linked to its pusher, and
   `place` says where each allocated node is.
   */
  datatype State = State(heap: map<Ptr, Node>, head: Ptr, tail: Ptr, pcs: seq<Pc>,
                         order: seq<Ptr>, vals: seq<Payload>, popped: nat, pending: map<nat, nat>, place: map<Ptr, Place>)

  datatype Place = Hand(thread: nat) | Chain(at: nat)

  ghost predicate Init(s: State) {
    && s.tail == s.head != NULL && s.heap == map[s.head := Node(NULL, None)]
    && (forall t :: 0 <= t < |s.pcs| ==> s.pcs[t] == Idle)
    && s.order == [s.head] && s.vals == [] && s.popped == 0 && s.pending == map[]
    && s.place == map[s.head := Chain(0)]
  }

  function Derefs(s: State, pc: Pc): set<Ptr> {
    match pc
    case PushLink(_, prev) => {prev}
    case PopNext => {s.tail}
    case PopTake(next) => {s.tail, next}
    case _ => {}
  }

  /** The two asserts of `pop`, lines 205 and 206. */
  predicate AssertsHold(s: State, next: Ptr) {
    s.tail in s.heap && next in s.heap && s.heap[s.tail].value.None? && s.heap[next].value.Some?
  }

  function At(s: State, t: nat, pc: Pc): State
    requires t < |s.pcs|
  {
    s.(pcs := s.pcs[t := pc])
  }

  function AllocStep(s: State, t: nat, v: Payload, n: Ptr): State
    requires t < |s.pcs|
  {
    At(s.(heap := s.heap[n := Node(NULL, Some(v))], place := s.place[n := Hand(t)]), t, PushSwap(n))
  }

  function SwapStep(s: State, t: nat, n: Ptr): State
    requires t < |s.pcs| && n in s.heap && s.heap[n].value.Some?
  {
    var i := |s.order|;
    At(s.(head := n, order := s.order + [n], vals := s.vals + [s.heap[n].value.value],
          pending := s.pending[i := t], place := s.place[n := Chain(i)]),
       t, PushLink(n, s.head))
  }

  function Position(s: State, p: Ptr): nat {
    if p in s.place && s.place[p].Chain? then s.place[p].at else 0
  }

  function LinkStep(s: State, t: nat, n: Ptr, prev: Ptr): State
    requires t < |s.pcs| && prev in s.heap
  {
    At(s.(heap := s.heap[prev := s.heap[prev].(next := n)], pending := s.pending - {Position(s, n)}), t, PushReturn)
  }

  function NextStep(s: State, t: nat): State
    requires t < |s.pcs| && s.tail in s.heap
  {
    At(s, t, if s.heap[s.tail].next != NULL then PopTake(s.heap[s.tail].next) else PopHead)
  }

  function TakeStep(s: State, t: nat, next: Ptr): State
    requires t < |s.pcs| && AssertsHold(s, next)
  {
    At(s.(heap := s.heap[next := s.heap[next].(value := None)] - {s.tail}, tail := next, popped := s.popped + 1,
          place := s.place - {s.tail}),
       t, PopReturn(Data(s.heap[next].value.value)))
  }

  function HeadStep(s: State, t: nat): State
    requires t < |s.pcs|
  {
    At(s, t, PopReturn(if s.head == s.tail then Empty else Inconsistent))
  }

  /** One atomic operation of thread `t`. A bad dereference or a failing assert has no step. */
  ghost predicate Step(popper: nat, s: State, s': State, t: nat) {
    && t < |s.pcs|
    && Derefs(s, s.pcs[t]) <= s.heap.Keys
    && match s.pcs[t]
       case Idle =>
         || (exists v: Payload :: s' == At(s, t, PushAlloc(v)))
         || (t == popper && s' == At(s, t, PopNext))
       case PushAlloc(v) => exists n: Ptr :: n != NULL && n !in s.heap && s' == AllocStep(s, t, v, n)
       case PushSwap(n) => n in s.heap && s.heap[n].value.Some? && s' == SwapStep(s, t, n)
       case PushLink(n, prev) => s' == LinkStep(s, t, n, prev)
       case PushReturn => s' == At(s, t, Idle)
       case PopNext => s' == NextStep(s, t)
       case PopTake(next) => AssertsHold(s, next) && s' == TakeStep(s, t, next)
       case PopHead => s' == HeadStep(s, t)
       case PopReturn(_) => s' == At(s, t, Idle)
  }

  ghost predicate Next(popper: nat, s: State, s': State) {
    exists t: nat :: Step(popper, s, s', t)
  }

  ghost predicate Advances(popper: nat, run: seq<State>, i: int)
    requires 0 <= i < |run| - 1
  {
    Next(popper, run[i], run[i + 1])
  }

  ghost predicate Run(popper: nat, run: seq<State>) {
    && |run| > 0 && Init(run[0])
    && (forall i :: 0 <= i < |run| - 1 ==> Advances(popper, run, i))
  }
}
