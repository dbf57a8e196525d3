/** Sums, over all threads, of what each of them is doing at one endpoint. */
module Tallies {

  /**
   Over all threads: how many may send; how many are between put and notify, asleep, woken but yet to look again, past
   the pending check but yet to put; the bytes past the memory check but yet to be put, put but not yet added to
   `memoryused`, taken but not yet subtracted.
   */
  datatype Tally = Tally(givers: nat, notifying: nat, asleep: nat, woken: nat, past: nat,
                         pastBytes: nat, putting: nat, taken: nat)

  function Plus(a: Tally, b: Tally): Tally {
    Tally(a.givers + b.givers, a.notifying + b.notifying, a.asleep + b.asleep, a.woken + b.woken, a.past + b.past,
          a.pastBytes + b.pastBytes, a.putting + b.putting, a.taken + b.taken)
  }

  function Total(ws: seq<Tally>): Tally {
    if ws == [] then Tally(0, 0, 0, 0, 0, 0, 0, 0) else Plus(ws[0], Total(ws[1..]))
  }

  lemma {:induction false} TotalUpdate(ws: seq<Tally>, t: nat, w: Tally)
    requires t < |ws|
    ensures Plus(Total(ws[t := w]), ws[t]) == Plus(Total(ws), w)
  {
    if t == 0 {
      assert ws[t := w][1..] == ws[1..];
    } else {
      assert ws[t := w][1..] == ws[1..][t - 1 := w];
      TotalUpdate(ws[1..], t - 1, w);
    }
  }

  lemma {:induction false} NoneAsleep(ws: seq<Tally>)
    requires forall t :: 0 <= t < |ws| ==> ws[t].asleep == 0
    ensures Total(ws).asleep == 0
  {
    if ws != [] { NoneAsleep(ws[1..]); }
  }

  lemma {:induction false} SomeAsleep(ws: seq<Tally>, t: nat)
    requires t < |ws| && ws[t].asleep > 0
    ensures Total(ws).asleep > 0
  {
    if t > 0 { SomeAsleep(ws[1..], t - 1); }
  }

  lemma {:induction false} NoneAwake(ws: seq<Tally>)
    requires forall t :: 0 <= t < |ws| ==> ws[t].notifying == ws[t].woken == 0
    ensures Total(ws).notifying == Total(ws).woken == 0
  {
    if ws != [] { NoneAwake(ws[1..]); }
  }

  ghost predicate WeightFits(maxcap: nat, w: Tally) {
    w.past <= w.givers && w.pastBytes + w.putting <= w.givers * maxcap && w.taken <= maxcap
  }

  lemma {:induction false} TotalFits(maxcap: nat, ws: seq<Tally>)
    requires forall t :: 0 <= t < |ws| ==> WeightFits(maxcap, ws[t])
    ensures var T := Total(ws);
      T.past <= T.givers && T.pastBytes + T.putting <= T.givers * maxcap && T.taken <= |ws| * maxcap
  {
    if ws != [] {
      TotalFits(maxcap, ws[1..]);
      var n, r := ws[0].givers, Total(ws[1..]).givers;
      assert (n + r) * maxcap == n * maxcap + r * maxcap;
      assert |ws| * maxcap == (|ws| - 1) * maxcap + maxcap;
    }
  }

  lemma {:induction false} IdleTotal(ws: seq<Tally>)
    requires forall t :: 0 <= t < |ws| ==> ws[t] == Tally(ws[t].givers, 0, 0, 0, 0, 0, 0, 0)
    ensures Total(ws) == Tally(Total(ws).givers, 0, 0, 0, 0, 0, 0, 0)
  {
    if ws != [] { IdleTotal(ws[1..]); }
  }
}
