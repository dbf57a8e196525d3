/** A run of `NativeQueue` in which a pop answers `Inconsistent`. */
module NativeQueueWitness {
  import opened Base
  import opened NativeQueue

  function Last(run: seq<State>): State
    requires run != []
  {
    run[|run| - 1]
  }

  lemma Extend(popper: nat, run: seq<State>, s': State, t: nat) returns (run': seq<State>)
    requires Run(popper, run) && Step(popper, Last(run), s', t)
    ensures Run(popper, run') && run' == run + [s']
  {
    run' := run + [s'];
    forall i | 0 <= i < |run'| - 1 ensures Advances(popper, run', i) {
      if i < |run| - 1 { assert Advances(popper, run, i); }
    }
  }

  /** A new queue, and two threads. */
  function Start(): State {
    State(map[1 := Node(NULL, None)], 1, 1, [Idle, Idle], [1], [], 0, map[], map[1 := Chain(0)])
  }

  /** Thread 0 has swapped a node with `v` into `head`, and stops there. */
  lemma Swaps(v: Payload) returns (run: seq<State>)
    ensures Run(1, run) && Last(run).pcs == [PushLink(2, 1), Idle] && Last(run).vals == [v] && Last(run).popped == 0
    ensures Last(run).head == 2 && Last(run).tail == 1 && 1 in Last(run).heap && Last(run).heap[1].next == NULL
  {
    run := [Start()];
    run := Extend(1, run, At(Start(), 0, PushAlloc(v)), 0);
    run := Extend(1, run, AllocStep(Last(run), 0, v, 2), 0);
    run := Extend(1, run, SwapStep(Last(run), 0, 2), 0);
  }

  /** Then thread 1 pops: the queue has a value and does not have access to it. */
  lemma InconsistentPop(v: Payload) returns (run: seq<State>)
    ensures Run(1, run) && Last(run).pcs == [PushLink(2, 1), PopReturn(Inconsistent)]
    ensures Last(run).vals == [v] && Last(run).popped == 0
  {
    run := Swaps(v);
    run := Extend(1, run, At(Last(run), 1, PopNext), 1);
    run := Extend(1, run, NextStep(Last(run), 1), 1);
    run := Extend(1, run, HeadStep(Last(run), 1), 1);
  }
}
