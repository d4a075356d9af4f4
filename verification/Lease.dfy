/** The owner-checked release of the leader Lease: read, check the holder, compare and set (kube.go). */
module Lease {
  import opened Prelude

  /** The Lease record; an absent holder is the empty string. */
  datatype Spec = Spec(holder: string, durationSeconds: int, acquired: Time, renewed: Time)

  class LeaseObject {
    var spec: Spec
    var version: nat

    constructor (spec: Spec)
      ensures this.spec == spec && version == 0
    {
      this.spec, version := spec, 0;
    }

    /** An unconditional write by anybody else. */
    method Write(next: Spec)
      modifies this
      ensures spec == next && version == old(version) + 1
    {
      spec, version := next, version + 1;
    }

    method WriteAll(writes: seq<Spec>)
      modifies this
      ensures version == old(version) + |writes|
      ensures spec == if writes == [] then old(spec) else writes[|writes| - 1]
    {
      for k := 0 to |writes|
        invariant version == old(version) + k
        invariant spec == if k == 0 then old(spec) else writes[k - 1]
      {
        Write(writes[k]);
      }
    }

    /** The conditional write of the API server: a stale version is a conflict. */
    method Update(next: Spec, fetched: nat, call: Call) returns (ok: bool)
      modifies this
      ensures call == Fails || fetched != old(version) ==> spec == old(spec) && version == old(version) && !ok
      ensures call != Fails && fetched == old(version) ==>
        spec == next && version == old(version) + 1 && ok == (call == Works)
    {
      if call == Fails || fetched != version {
        return false;
      }
      spec, version := next, version + 1;
      ok := call == Works;
    }
  }

  /** Clears the holder, with the peer writes that land between the read and the update. The Lease is
      cleared exactly when it was read as this identity's, nobody wrote in between, and the update took
      effect; otherwise it stays exactly as the peers left it. */
  method ClearLeaseHolder(lease: LeaseObject, identity: string, now: Time, getFails: bool, between: seq<Spec>,
    call: Call)
    returns (ok: bool)
    modifies lease
    ensures var clears := !getFails && old(lease.spec.holder) == identity && between == [] && call != Fails;
      && (clears ==> lease.spec == Spec("", 1, now, now) && lease.version == old(lease.version) + 1)
      && (!clears ==>
            && lease.version == old(lease.version) + |between|
            && lease.spec == if between == [] then old(lease.spec) else between[|between| - 1])
      && (ok <==> clears && call == Works)
  {
    if getFails {
      lease.WriteAll(between);
      return false;
    }
    var fetched, fetchedVersion := lease.spec, lease.version;
    lease.WriteAll(between);
    if fetched.holder != identity {
      return false;
    }
    ok := lease.Update(Spec("", 1, now, now), fetchedVersion, call);
  }
}
