/** A value that expires some time after it was last written or touched. */
module LeasedValue {
  import opened Ids

  class Leased<T> {
    var data: T
    var lastUpdate: Option<nat>
    var lease: nat
    var leaseEnabled: bool

    constructor (now: nat, lease: nat, data: T)
      ensures this.data == data && lastUpdate == Some(now) && this.lease == lease && leaseEnabled
    {
      this.data := data;
      lastUpdate := Some(now);
      this.lease := lease;
      leaseEnabled := true;
    }

    /** New content, with a lease of its own. */
    method Update(now: nat, lease: nat, data: T)
      modifies this
      ensures this.data == data && lastUpdate == Some(now) && this.lease == lease && leaseEnabled
    {
      this.data := data;
      lastUpdate := Some(now);
      this.lease := lease;
      leaseEnabled := true;
    }

    /** The same content, seen again: a disabled lease stays disabled. */
    method Touch(now: nat, lease: nat)
      requires lastUpdate.Some? ==> lastUpdate.value <= now
      modifies this
      ensures data == old(data) && lastUpdate == Some(now) && leaseEnabled == old(leaseEnabled)
      ensures this.lease == if leaseEnabled then lease else old(this.lease)
    {
      lastUpdate := Some(now);
      if leaseEnabled {
        this.lease := lease;
      }
    }

    method DisableLease()
      modifies this
      ensures data == old(data) && lastUpdate == old(lastUpdate) && lease == 0 && !leaseEnabled
    {
      lease := 0;
      leaseEnabled := false;
    }

    predicate IsExpired(now: nat, timeout: nat)
      reads this
    {
      lastUpdate.None? || now > lastUpdate.value + lease + timeout
    }
  }
}
