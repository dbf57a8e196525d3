/** Machine words, opaque payloads and sums over the threads of a system. */
module Base {

  /** The payload of a message: nothing in the queues looks inside it. */
  type Payload(==, !new, 0)

  datatype Option<+T> = None | Some(value: T)

  type Byte = x: nat | x < 256

  /** `usize` and `u64` counters wrap around modulo this word size. */
  const WORD: nat := 0x1_0000_0000_0000_0000

  /** `fetch_add` on a word. */
  function AddWord(a: int, b: int): (r: nat)
    ensures r < WORD
  {
    (a + b) % WORD
  }

  /** `fetch_sub` on a word. */
  function SubWord(a: int, b: int): (r: nat)
    ensures r < WORD
  {
    (a - b) % WORD
  }

  lemma AddWordTwice(a: int, b: int)
    ensures AddWord(AddWord(a, b), 1) == AddWord(a, b + 1)
  {
  }

  /** Two integers that a word cannot tell apart. */
  ghost predicate SameWord(a: int, b: int) {
    a % WORD == b % WORD
  }

  lemma SameWordAdd(a: int, b: int, d: int)
    requires SameWord(a, b)
    ensures SameWord(AddWord(a, d), b + d)
  {
  }

  lemma SameWordSub(a: int, b: int, d: int)
    requires SameWord(a, b)
    ensures SameWord(SubWord(a, d), b - d)
  {
  }

  /** The total of `f` over a sequence. */
  function Sum<T>(s: seq<T>, f: T -> int): int {
    if |s| == 0 then 0 else f(s[0]) + Sum(s[1..], f)
  }

  lemma {:induction false} SumUpdate<T>(s: seq<T>, i: nat, x: T, f: T -> int)
    requires i < |s|
    ensures Sum(s[i := x], f) == Sum(s, f) - f(s[i]) + f(x)
  {
    if i == 0 {
      assert s[i := x][1..] == s[1..];
    } else {
      assert s[i := x][1..] == s[1..][i - 1 := x];
      SumUpdate(s[1..], i - 1, x, f);
    }
  }

  lemma {:induction false} SumWithin<T>(s: seq<T>, f: T -> int, low: int, high: int)
    requires forall i :: 0 <= i < |s| ==> low <= f(s[i]) <= high
    ensures low * |s| <= Sum(s, f) <= high * |s|
  {
    if |s| > 0 {
      assert forall i :: 0 <= i < |s[1..]| ==> s[1..][i] == s[i + 1];
      SumWithin(s[1..], f, low, high);
    }
  }

  lemma {:induction false} SumZero<T>(s: seq<T>, f: T -> int)
    requires forall i :: 0 <= i < |s| ==> f(s[i]) == 0
    ensures Sum(s, f) == 0
  {
    if |s| > 0 {
      assert forall i :: 0 <= i < |s[1..]| ==> s[1..][i] == s[i + 1];
      SumZero(s[1..], f);
    }
  }

  /** A term of a sum of naturals is no more than the sum. */
  lemma {:induction false} SumAtLeast<T>(s: seq<T>, f: T -> int, i: nat)
    requires i < |s|
    requires forall k :: 0 <= k < |s| ==> 0 <= f(s[k])
    ensures f(s[i]) <= Sum(s, f)
  {
    assert forall k :: 0 <= k < |s[1..]| ==> s[1..][k] == s[k + 1];
    if i == 0 {
      SumWithin0(s[1..], f);
    } else {
      SumAtLeast(s[1..], f, i - 1);
    }
  }

  lemma {:induction false} SumWithin0<T>(s: seq<T>, f: T -> int)
    requires forall k :: 0 <= k < |s| ==> 0 <= f(s[k])
    ensures 0 <= Sum(s, f)
  {
    if |s| > 0 {
      assert forall k :: 0 <= k < |s[1..]| ==> s[1..][k] == s[k + 1];
      SumWithin0(s[1..], f);
    }
  }

  /** A positive sum of naturals has a positive term. */
  lemma {:induction false} SumPositive<T>(s: seq<T>, f: T -> int) returns (i: nat)
    requires forall k :: 0 <= k < |s| ==> 0 <= f(s[k])
    requires Sum(s, f) > 0
    ensures i < |s| && f(s[i]) > 0
  {
    if f(s[0]) > 0 {
      i := 0;
    } else {
      assert forall k :: 0 <= k < |s[1..]| ==> s[1..][k] == s[k + 1];
      var j := SumPositive(s[1..], f);
      i := j + 1;
    }
  }

  /** A finite set of numbers leaves one that is not in it. */
  lemma {:induction false} FreshNumber(used: set<nat>) returns (n: nat)
    ensures n != 0 && forall x :: x in used ==> x < n
  {
    if used == {} {
      n := 1;
    } else {
      var x :| x in used;
      n := FreshNumber(used - {x});
      assert used == used - {x} + {x};
      n := if n <= x then x + 1 else n;
    }
  }
}
