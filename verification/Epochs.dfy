// The host epoch: several brokers with stores of their own share one lock and one epoch
// file, and any of them can crash between committing its epoch and replacing the file.
module Epochs {
  import opened Wrappers

  datatype Attempt = Attempt(store: nat, crash: Crash)

  datatype Crash = NoCrash | BeforeCommit | BeforeReplace

  // Above the store's own last epoch, and not below the minimum.
  predicate Admissible(stores: map<nat, nat>, store: nat, minimum: nat, epoch: nat)
  {
    1 <= epoch && minimum <= epoch && (store in stores ==> stores[store] < epoch)
  }

  // The least such epoch.
  function NextEpoch(stores: map<nat, nat>, store: nat, minimum: nat): (epoch: nat)
    ensures Admissible(stores, store, minimum, epoch)
    ensures forall e | Admissible(stores, store, minimum, e) :: epoch <= e
  {
    var own := if store in stores then stores[store] + 1 else 1;
    if own < minimum then minimum else own
  }

  class EpochHost {
    var stores: map<nat, nat>     // each store's last committed epoch
    var file: Option<nat>

    constructor ()
      ensures stores == map[] && file.None? && Previous() == 0
    {
      stores, file := map[], None;
    }

    function Previous(): nat
      reads this
    {
      if file.Some? then file.value else 0
    }

    // begin_broker_epoch
    method BeginBrokerEpoch(store: nat, minimum: nat) returns (epoch: nat)
      modifies this`stores
      ensures epoch == NextEpoch(old(stores), store, minimum) && stores == old(stores)[store := epoch]
    {
      epoch := if store in stores then stores[store] + 1 else 1;
      if epoch < minimum { epoch := minimum; }
      stores := stores[store := epoch];
    }

    // _advance_host_epoch, under the host lock: an epoch is returned once the file holds it
    method AdvanceHostEpoch(store: nat, crash: Crash) returns (r: Option<nat>)
      modifies this
      ensures r.Some? <==> crash.NoCrash?
      ensures r.Some? ==> old(Previous()) < r.value && file == r
      ensures r.Some? ==> stores == old(stores)[store := r.value]
      ensures r.None? ==> file == old(file)
      ensures stores == if crash.BeforeCommit? then old(stores)
                        else old(stores)[store := NextEpoch(old(stores), store, old(Previous()) + 1)]
    {
      var previous := Previous();
      if crash.BeforeCommit? { return None; }
      var epoch := BeginBrokerEpoch(store, previous + 1);
      if crash.BeforeReplace? { return None; }
      file := Some(epoch);
      return Some(epoch);
    }

    // Every epoch ever returned exceeds all returned before it, whichever brokers they went to.
    method Run(attempts: seq<Attempt>) returns (returned: seq<nat>)
      requires file.None?
      modifies this
      ensures forall i, j | 0 <= i < j < |returned| :: returned[i] < returned[j]
      ensures |returned| == Uncut(attempts)
    {
      returned := [];
      for i := 0 to |attempts|
        invariant forall k | 0 <= k < |returned| :: 1 <= returned[k] <= Previous()
        invariant forall k, m | 0 <= k < m < |returned| :: returned[k] < returned[m]
        invariant |returned| == Uncut(attempts[..i])
      {
        var r := AdvanceHostEpoch(attempts[i].store, attempts[i].crash);
        if r.Some? { returned := returned + [r.value]; }
        assert attempts[..i + 1][..i] == attempts[..i];
      }
      assert attempts[..|attempts|] == attempts;
    }
  }

  function Uncut(attempts: seq<Attempt>): nat
  {
    if attempts == [] then 0
    else Uncut(attempts[..|attempts| - 1]) + (if attempts[|attempts| - 1].crash.NoCrash? then 1 else 0)
  }

  // The guarantee is about epochs returned, not committed: after a crash between the two
  // writes another store commits, and returns, the very epoch the first one committed.
  method CommittedEpochsCanCoincide() returns (host: EpochHost, r: Option<nat>)
    ensures 0 in host.stores && r.Some? && host.stores[0] == r.value
    ensures 1 in host.stores && host.stores[1] == r.value
  {
    host := new EpochHost();
    var cut := host.AdvanceHostEpoch(0, BeforeReplace);
    assert host.Previous() == 0 && host.stores == map[0 := 1];
    r := host.AdvanceHostEpoch(1, NoCrash);
    assert host.stores[0] == 1 && host.stores[1] == 1 && r.value == 1;
  }
}
