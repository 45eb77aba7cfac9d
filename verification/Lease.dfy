// Fenced leases: one stored lease per binding, with a holder, an epoch and an expiry time.
module Leases {
  import opened Wrappers

  type Id = string

  datatype Lease = Lease(bindingId: Id, holder: Id, epoch: nat, expiresAt: int)

  datatype LeaseError = LeaseHeld | StaleLease | InvalidTtl | NotRegistered

  type Granted = Result<Lease, LeaseError>

  type LeaseTable = map<Id, Lease>

  predicate Expired(l: Lease, now: int) {
    l.expiresAt <= now
  }

  predicate Authorised(t: LeaseTable, b: Id, h: Id, epoch: nat, now: int) {
    b in t && t[b].holder == h && t[b].epoch == epoch && !Expired(t[b], now)
  }

  function EpochOf(t: LeaseTable, b: Id): nat {
    if b in t then t[b].epoch else 0
  }

  // What each coordinator call answers, and the table it leaves behind.

  function AcquireLease(t: LeaseTable, b: Id, h: Id, ttl: int, now: int): (Granted, LeaseTable) {
    if ttl <= 0 then (Err(InvalidTtl), t)
    else if b in t && !Expired(t[b], now) then
      (if t[b].holder != h then Err(LeaseHeld) else Ok(t[b]), t)
    else
      var lease := Lease(b, h, EpochOf(t, b) + 1, now + ttl);
      (Ok(lease), t[b := lease])
  }

  // The clock is read once to check authority and once to compute the new expiry.
  function RenewLease(t: LeaseTable, b: Id, h: Id, epoch: nat, ttl: int, now: int, later: int): (Granted, LeaseTable) {
    if ttl <= 0 then (Err(InvalidTtl), t)
    else if !Authorised(t, b, h, epoch, now) then (Err(StaleLease), t)
    else
      var lease := t[b].(expiresAt := later + ttl);
      (Ok(lease), t[b := lease])
  }

  function ReleaseLease(t: LeaseTable, b: Id, h: Id, epoch: nat, now: int,
                        later: int): (Result<(), LeaseError>, LeaseTable) {
    if !Authorised(t, b, h, epoch, now) then (Err(StaleLease), t)
    else (Ok(()), t[b := t[b].(expiresAt := later)])
  }

  class TransportLeaseCoordinator {
    var leases: LeaseTable   // the lease store

    constructor (leases: LeaseTable)
      ensures this.leases == leases
    {
      this.leases := leases;
    }

    method Acquire(b: Id, h: Id, ttl: int, now: int) returns (r: Granted)
      modifies this
      ensures (r, leases) == AcquireLease(old(leases), b, h, ttl, now)
    {
      if ttl <= 0 { return Err(InvalidTtl); }
      if b in leases {
        var existing := leases[b];
        if !Expired(existing, now) {
          if existing.holder != h { return Err(LeaseHeld); }
          return Ok(existing);
        }
      }
      var lease := Lease(b, h, (if b in leases then leases[b].epoch else 0) + 1, now + ttl);
      leases := leases[b := lease];
      return Ok(lease);
    }

    method AssertAuthority(b: Id, h: Id, epoch: nat, now: int) returns (r: Granted)
      ensures r == if Authorised(leases, b, h, epoch, now) then Ok(leases[b]) else Err(StaleLease)
    {
      if b !in leases { return Err(StaleLease); }
      var existing := leases[b];
      if existing.holder != h || existing.epoch != epoch || Expired(existing, now) { return Err(StaleLease); }
      return Ok(existing);
    }

    method Renew(b: Id, h: Id, epoch: nat, ttl: int, now: int, later: int) returns (r: Granted)
      modifies this
      ensures (r, leases) == RenewLease(old(leases), b, h, epoch, ttl, now, later)
    {
      if ttl <= 0 { return Err(InvalidTtl); }
      r := AssertAuthority(b, h, epoch, now);
      if r.Err? { return; }
      var renewed := r.value.(expiresAt := later + ttl);
      leases := leases[b := renewed];
      return Ok(renewed);
    }

    method Release(b: Id, h: Id, epoch: nat, now: int, later: int) returns (r: Result<(), LeaseError>)
      modifies this
      ensures (r, leases) == ReleaseLease(old(leases), b, h, epoch, now, later)
    {
      var existing := AssertAuthority(b, h, epoch, now);
      if existing.Err? { return Err(existing.error); }
      leases := leases[b := existing.value.(expiresAt := later)];
      return Ok(());
    }
  }

  // How the lease of one binding may change from time `since` on: the epoch never goes back, one epoch
  // belongs to one holder, and only a lease still alive can have its expiry moved.
  ghost predicate Evolves(t: LeaseTable, t': LeaseTable, b: Id, since: int) {
    b in t ==>
      && b in t'
      && t[b].epoch <= t'[b].epoch
      && (t[b].epoch == t'[b].epoch ==>
            && t[b].holder == t'[b].holder
            && (t[b].expiresAt != t'[b].expiresAt ==> !Expired(t[b], since)))
  }

  lemma EvolvesTransitive(t0: LeaseTable, t1: LeaseTable, t2: LeaseTable, b: Id, since: int, later: int)
    requires Evolves(t0, t1, b, since) && Evolves(t1, t2, b, later) && since <= later
    ensures Evolves(t0, t2, b, since)
  {
  }
}
