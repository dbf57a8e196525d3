/**
 A `get` of the link queue can return nothing although a `put` that has returned left an item that nobody took: some
 other `put` has swapped `ptr` and not linked its node. So the queue is not the plain FIFO that its sequential use suggests,
 and the excuse in `AtomicQueue.Miss` cannot be left out.
 */
module LinkQueueWitness {
  import opened Base
  import opened LinkQueueModel

  function Last(run: seq<State>): State
    requires run != []
  {
    run[|run| - 1]
  }

  lemma Extend(m: Mode, run: seq<State>, s': State, t: nat) returns (run': seq<State>)
    requires Run(m, run) && Step(m, Last(run), s', t)
    ensures Run(m, run') && run' == run + [s']
  {
    run' := run + [s'];
    forall i | 0 <= i < |run'| - 1 ensures Advances(m, run', i) {
      if i < |run| - 1 { assert Advances(m, run, i); }
    }
  }

  function Start(): State {
    State(map[], NULL, NULL, 0, false, seq(SLOTS, _ => NULL), 0, [Idle, Idle, Idle], [], [], 0, map[], 0, 0, 0, map[])
  }

  /** What `put` has done by the time it holds a new node, `p`, having found its slot of the pointer cache empty. */
  function Held(s: State, t: nat, v: Payload, p: Ptr): State
    requires t < |s.pcs|
  {
    At(s.(pos := SubWord(s.pos, 1), heap := s.heap[p := Node(NULL, NULL, false, false, v)], place := s.place[p := Hand(t)]),
       t, PutSwap(p))
  }

  lemma Pops(m: Mode, run: seq<State>, t: nat, v: Payload) returns (run': seq<State>)
    requires Run(m, run) && t < |Last(run).pcs| && Last(run).pcs[t] == Idle && Last(run).slots == seq(SLOTS, _ => NULL)
    ensures Run(m, run') && Last(run') == At(Last(run).(pos := SubWord(Last(run).pos, 1)), t, PutAlloc(v))
  {
    var s := Last(run);
    var s1 := At(s, t, PutPos(v));
    assert CallStep(m, s, s1, t);
    run' := Extend(m, run, s1, t);
    var s2 := At(Counted(s1, PutPos(v)), t, CountedPc(s1, PutPos(v)));
    assert CountStep(s1, s2, t);
    run' := Extend(m, run', s2, t);
    var s3 := PutPopStep(s2, t, v, s2.pos % SLOTS);
    assert PrepareStep(s2, s3, t);
    run' := Extend(m, run', s3, t);
    assert s3 == At(s.(pos := SubWord(s.pos, 1)), t, PutAlloc(v));
  }

  lemma Allocates(m: Mode, run: seq<State>, t: nat, v: Payload, p: Ptr) returns (run': seq<State>)
    requires Run(m, run) && t < |Last(run).pcs| && Last(run).pcs[t] == Idle && p != NULL && p !in Last(run).heap
    requires Last(run).slots == seq(SLOTS, _ => NULL)
    ensures Run(m, run') && Last(run') == Held(Last(run), t, v, p)
  {
    run' := Pops(m, run, t, v);
    var s := Last(run');
    var s' := PutAllocStep(s, t, v, p);
    assert PrepareStep(s, s', t);
    run' := Extend(m, run', s', t);
    assert s' == Held(Last(run), t, v, p);
  }

  /** Thread `t` calls `put` and swaps its new node, `p`, into `ptr`. */
  lemma Swaps(m: Mode, run: seq<State>, t: nat, v: Payload, p: Ptr) returns (run': seq<State>)
    requires Run(m, run) && t < |Last(run).pcs| && Last(run).pcs[t] == Idle && p != NULL && p !in Last(run).heap
    requires Last(run).slots == seq(SLOTS, _ => NULL)
    ensures Run(m, run') && Last(run') == PutSwapStep(Held(Last(run), t, v, p), t, p)
  {
    run' := Allocates(m, run, t, v, p);
    var s := Last(run');
    var s' := PutSwapStep(s, t, p);
    assert PublishStep(s, s', t);
    run' := Extend(m, run', s', t);
  }

  /** Thread `t` links the node `p` that it swapped in at position `i` behind `prior`, and returns. */
  lemma Finishes(m: Mode, run: seq<State>, t: nat, p: Ptr, prior: Ptr, i: nat) returns (run': seq<State>)
    requires Run(m, run) && t < |Last(run).pcs| && Last(run).pcs[t] == PutNext(p, prior)
    requires prior != NULL && prior != p && p in Last(run).heap && prior in Last(run).heap
    requires p in Last(run).place && Last(run).place[p] == Chain(i)
    ensures Run(m, run') && var s, s' := Last(run), Last(run');
      && s'.pcs == s.pcs[t := Idle] && s'.lst == s.lst && s'.vals == s.vals && s'.served == s.served && s'.slots == s.slots
      && s'.pending == s.pending - {i}
  {
    var s := Last(run);
    var s1 := PutNextStep(s, t, p, prior);
    assert PublishStep(s, s1, t);
    run' := Extend(m, run, s1, t);
    var s2 := PutLinkStep(s1, t, p, prior);
    assert PublishStep(s1, s2, t);
    run' := Extend(m, run', s2, t);
    var s3 := At(Counted(s2, PutLen), t, Idle);
    assert CountStep(s2, s3, t);
    run' := Extend(m, run', s3, t);
  }

  lemma SwapsFirst(m: Mode, a: Payload) returns (run: seq<State>)
    ensures Run(m, run) && Last(run).vals == [a] && Last(run).order == [1] && Last(run).ptr == 1 && Last(run).lst == NULL
    ensures Last(run).served == 0 && Last(run).slots == seq(SLOTS, _ => NULL) && Last(run).heap.Keys == {1}
    ensures Last(run).pcs == [PutNext(1, NULL), Idle, Idle]
  {
    run := Swaps(m, [Start()], 0, a, 1);
  }

  /** Thread 0 swaps in `a` and stops there; thread 1 puts `b` and returns. */
  lemma PutsBehind(m: Mode, a: Payload, b: Payload) returns (run: seq<State>)
    ensures Run(m, run) && Last(run).vals == [a, b] && Last(run).served == 0 && Last(run).lst == NULL
    ensures Last(run).pcs == [PutNext(1, NULL), Idle, Idle]
  {
    run := SwapsFirst(m, a);
    run := Swaps(m, run, 1, b, 2);
    assert Last(run).pcs == [PutNext(1, NULL), PutNext(2, 1), Idle];
    run := Finishes(m, run, 1, 2, 1, 1);
  }

  /** While nobody has set `lst`, a `get` returns nothing. */
  lemma Misses(m: Mode, run: seq<State>, t: nat) returns (run': seq<State>)
    requires Run(m, run) && MayGet(m, t) && t < |Last(run).pcs| && Last(run).pcs[t] == Idle && Last(run).lst == NULL
    ensures Run(m, run') && run <= run' && |run| < |run'| && Last(run') == At(Last(run), t, GetDone(None))
  {
    var s := Last(run);
    var s1 := At(s, t, GetLst);
    assert CallStep(m, s, s1, t);
    run' := Extend(m, run, s1, t);
    var s2 := At(s1, t, GetDone(None));
    run' := Extend(m, run', s2, t);
    assert s2 == At(s, t, GetDone(None));
  }

  /** After that, thread 2 calls `get` and is told that there is nothing. */
  lemma MissedItem(m: Mode, a: Payload, b: Payload) returns (run: seq<State>, i: nat)
    requires MayGet(m, 2)
    ensures Run(m, run) && i < |run| - 1
    ensures run[i].vals == [a, b] && run[i].served == 0 && run[i].pcs == [PutNext(1, NULL), Idle, Idle]
    ensures Last(run).vals == [a, b] && Last(run).served == 0 && Last(run).pcs == [PutNext(1, NULL), Idle, GetDone(None)]
  {
    var before := PutsBehind(m, a, b);
    i := |before| - 1;
    run := Misses(m, before, 2);
    assert run[i] == before[i];
  }
}
