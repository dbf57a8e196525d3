/** The endpoint list of a net and the loop of `drop_endpoint` (src/net.rs), behind the net's mutex. */
module NetRegistry {
  import opened Base
  import opened Lifetime
  import opened LifetimeProof

  class Registry {
    var endpoints: seq<nat>

    constructor ()
      ensures endpoints == []
    {
      endpoints := [];
    }

    /** `new_endpoint`: the handle of the list. */
    method Push(id: nat)
      modifies this
      ensures endpoints == old(endpoints) + [id]
    {
      endpoints := endpoints + [id];
    }

    /** Removes the endpoint; finding it twice is a panic, not finding it is not an error. */
    method DropEndpoint(id: nat) returns (panicked: bool)
      modifies this
      ensures panicked <==> Times(old(endpoints), id) > 1
      ensures endpoints == if panicked then old(endpoints) else Without(old(endpoints), id)
    {
      var ndx, fnd := 0, false;
      for i := 0 to |endpoints|
        invariant endpoints == old(endpoints)
        invariant Times(endpoints[..i], id) == if fnd then 1 else 0
        invariant if fnd then ndx < i && ndx == Find(endpoints, id) else id !in endpoints[..i]
      {
        assert endpoints[..i + 1] == endpoints[..i] + [endpoints[i]];
        TimesAppend(endpoints[..i], endpoints[i], id);
        if endpoints[i] == id {
          ndx := i;
          if fnd {
            TimesPrefix(endpoints, i + 1, id);
            return true;
          }
          FindFirst(endpoints, i, id);
          fnd := true;
        }
      }
      assert endpoints[..|endpoints|] == endpoints;
      if fnd { endpoints := endpoints[..ndx] + endpoints[ndx + 1..]; }
      return false;
    }
  }

  lemma {:induction false} TimesPrefix(l: seq<nat>, n: nat, e: nat)
    requires n <= |l|
    ensures Times(l[..n], e) <= Times(l, e)
  {
    if n > 0 {
      assert l[..n][1..] == l[1..][..n - 1];
      TimesPrefix(l[1..], n - 1, e);
    }
  }

  lemma {:induction false} FindFirst(l: seq<nat>, i: nat, e: nat)
    requires i < |l| && l[i] == e && e !in l[..i]
    ensures Find(l, e) == i
  {
    if i > 0 {
      assert l[..i] == [l[0]] + l[1..][..i - 1];
      FindFirst(l[1..], i - 1, e);
    }
  }
}
