// Several transports, one of which may write: priorities, draining, and hand-off of the lease.
module Transports {
  import opened Wrappers
  import opened Leases

  datatype TransportStatus = Offline | Standby | Active | Draining

  datatype Registration = Registration(priority: int, status: TransportStatus, inFlight: bool)

  type Registrations = map<Id, Registration>

  // Successive readings of a clock that never runs backwards, within one call.
  datatype RawClock = Clock(t0: int, t1: int, t2: int, t3: int, t4: int, t5: int)

  type Clock = c: RawClock | c.t0 <= c.t1 <= c.t2 <= c.t3 <= c.t4 <= c.t5 witness Clock(0, 0, 0, 0, 0, 0)

  datatype Office = Office(regs: Registrations, leases: LeaseTable)

  type Acquired = Result<Option<Lease>, LeaseError>

  function SetStatus(regs: Registrations, h: Id, status: TransportStatus): Registrations
    requires h in regs
  {
    regs[h := regs[h].(status := status)]
  }

  // The holder becomes ACTIVE and everyone else, unless OFFLINE, STANDBY.
  function Activate(regs: Registrations, holder: Id): Registrations {
    map h | h in regs ::
      if h == holder then regs[h].(status := Active)
      else if regs[h].status.Offline? then regs[h]
      else regs[h].(status := Standby)
  }

  function HandOff(m: Office, b: Id, h: Id, ttl: int, c: Clock): (Acquired, Office)
    requires h in m.regs && b in m.leases && m.leases[b].holder in m.regs
  {
    var current := m.leases[b];
    var draining := SetStatus(m.regs, current.holder, Draining);
    if m.regs[current.holder].inFlight then (Ok(None), Office(draining, m.leases))
    else
      var (released, freed) := ReleaseLease(m.leases, b, current.holder, current.epoch, c.t1, c.t2);
      if released.Err? then (Err(released.error), Office(draining, m.leases))
      else
        var idle := SetStatus(draining, current.holder, Standby);
        var (granted, leases) := AcquireLease(freed, b, h, ttl, c.t3);
        if granted.Err? then (Err(granted.error), Office(idle, freed))
        else (Ok(Some(granted.value)), Office(Activate(idle, h), leases))
  }

  function ManagerAcquire(m: Office, b: Id, h: Id, ttl: int, c: Clock): (Acquired, Office) {
    if h !in m.regs then (Err(NotRegistered), m)
    else
      var (granted, leases) := AcquireLease(m.leases, b, h, ttl, c.t0);
      match granted
      case Ok(lease) => (Ok(Some(lease)), Office(Activate(m.regs, h), leases))
      case Err(error) =>
        if !error.LeaseHeld? then (Err(error), m)
        else if m.leases[b].holder !in m.regs then (Err(NotRegistered), m)
        else if m.regs[h].priority <= m.regs[m.leases[b].holder].priority then (Err(LeaseHeld), m)
        else HandOff(m, b, h, ttl, c)
  }

  function ManagerRenew(m: Office, b: Id, h: Id, epoch: nat, ttl: int, c: Clock): (Granted, Office) {
    if h !in m.regs then (Err(NotRegistered), m)
    else
      var (granted, leases) := RenewLease(m.leases, b, h, epoch, ttl, c.t0, c.t1);
      (granted, if granted.Ok? then Office(SetStatus(m.regs, h, Active), leases) else m)
  }

  function ManagerRelease(m: Office, b: Id, h: Id, epoch: nat, c: Clock): (Result<(), LeaseError>, Office) {
    var (released, leases) := ReleaseLease(m.leases, b, h, epoch, c.t0, c.t1);
    if released.Err? then (released, m)
    else if h !in m.regs then (Err(NotRegistered), m.(leases := leases))
    else (released, Office(SetStatus(m.regs, h, Standby), leases))
  }

  predicate SendAuthority(m: Office, b: Id, h: Id, epoch: nat, now: int) {
    h in m.regs && m.regs[h].status.Active? && Authorised(m.leases, b, h, epoch, now)
  }

  class TransportManager {
    const coordinator: TransportLeaseCoordinator
    var registrations: Registrations

    constructor (coordinator: TransportLeaseCoordinator)
      ensures this.coordinator == coordinator && registrations == map[]
    {
      this.coordinator := coordinator;
      registrations := map[];
    }

    ghost function State(): Office
      reads this, coordinator
    {
      Office(registrations, coordinator.leases)
    }

    method Register(h: Id, priority: int)
      modifies this`registrations
      ensures registrations == old(registrations)[h := Registration(priority, Standby, false)]
    {
      registrations := registrations[h := Registration(priority, Standby, false)];
    }

    method SetExchangeInFlight(h: Id, value: bool) returns (r: Result<(), LeaseError>)
      modifies this`registrations
      ensures h !in old(registrations) ==> r == Err(NotRegistered) && registrations == old(registrations)
      ensures h in old(registrations) ==>
        r == Ok(()) && registrations == old(registrations)[h := old(registrations)[h].(inFlight := value)]
    {
      if h !in registrations { return Err(NotRegistered); }
      registrations := registrations[h := registrations[h].(inFlight := value)];
      return Ok(());
    }

    method BeginDrain(h: Id) returns (r: Result<(), LeaseError>)
      modifies this`registrations
      ensures h !in old(registrations) ==> r == Err(NotRegistered) && registrations == old(registrations)
      ensures h in old(registrations) ==> r == Ok(()) && registrations == SetStatus(old(registrations), h, Draining)
    {
      if h !in registrations { return Err(NotRegistered); }
      registrations := registrations[h := registrations[h].(status := Draining)];
      return Ok(());
    }

    method MarkOthersStandby(holder: Id)
      requires holder in registrations && registrations[holder].status.Active?
      modifies this`registrations
      ensures registrations == Activate(old(registrations), holder)
    {
      var todo := registrations.Keys;
      while todo != {}
        invariant todo <= registrations.Keys == old(registrations).Keys
        invariant forall h :: h in todo ==> registrations[h] == old(registrations)[h]
        invariant forall h :: h in registrations && h !in todo ==>
                    registrations[h] == Activate(old(registrations), holder)[h]
        decreases todo
      {
        var h :| h in todo;
        if h != holder && !registrations[h].status.Offline? {
          registrations := registrations[h := registrations[h].(status := Standby)];
        }
        todo := todo - {h};
      }
    }

    method MakeActive(h: Id)
      requires h in registrations
      modifies this`registrations
      ensures registrations == Activate(old(registrations), h)
    {
      registrations := registrations[h := registrations[h].(status := Active)];
      MarkOthersStandby(h);
    }

    method Acquire(b: Id, h: Id, ttl: int, c: Clock) returns (r: Acquired)
      modifies this`registrations, coordinator
      ensures (r, State()) == ManagerAcquire(old(State()), b, h, ttl, c)
    {
      if h !in registrations { return Err(NotRegistered); }
      var granted := coordinator.Acquire(b, h, ttl, c.t0);
      if granted.Ok? {
        MakeActive(h);
        return Ok(Some(granted.value));
      }
      if !granted.error.LeaseHeld? { return Err(granted.error); }
      var current := coordinator.leases[b];
      if current.holder !in registrations { return Err(NotRegistered); }
      if registrations[h].priority <= registrations[current.holder].priority { return Err(LeaseHeld); }
      r := TakeOver(b, h, ttl, c);
    }

    // The end of acquire: drain the outranked holder, and take its lease unless its exchange is in flight.
    method TakeOver(b: Id, h: Id, ttl: int, c: Clock) returns (r: Acquired)
      requires h in registrations && b in coordinator.leases && coordinator.leases[b].holder in registrations
      modifies this`registrations, coordinator
      ensures (r, State()) == HandOff(old(State()), b, h, ttl, c)
    {
      var current := coordinator.leases[b];
      registrations := registrations[current.holder := registrations[current.holder].(status := Draining)];
      if registrations[current.holder].inFlight { return Ok(None); }
      var released := coordinator.Release(b, current.holder, current.epoch, c.t1, c.t2);
      if released.Err? { return Err(released.error); }
      registrations := registrations[current.holder := registrations[current.holder].(status := Standby)];
      var granted := coordinator.Acquire(b, h, ttl, c.t3);
      if granted.Err? { return Err(granted.error); }
      MakeActive(h);
      return Ok(Some(granted.value));
    }

    method Renew(b: Id, h: Id, epoch: nat, ttl: int, c: Clock) returns (r: Granted)
      modifies this`registrations, coordinator
      ensures (r, State()) == ManagerRenew(old(State()), b, h, epoch, ttl, c)
    {
      if h !in registrations { return Err(NotRegistered); }
      r := coordinator.Renew(b, h, epoch, ttl, c.t0, c.t1);
      if r.Ok? {
        registrations := registrations[h := registrations[h].(status := Active)];
      }
    }

    method Release(b: Id, h: Id, epoch: nat, c: Clock) returns (r: Result<(), LeaseError>)
      modifies this`registrations, coordinator
      ensures (r, State()) == ManagerRelease(old(State()), b, h, epoch, c)
    {
      r := coordinator.Release(b, h, epoch, c.t0, c.t1);
      if r.Err? { return; }
      if h !in registrations { return Err(NotRegistered); }
      registrations := registrations[h := registrations[h].(status := Standby)];
    }

    method AssertSendAuthority(b: Id, h: Id, epoch: nat, now: int) returns (r: Result<(), LeaseError>)
      ensures r.Ok? <==> SendAuthority(State(), b, h, epoch, now)
      ensures r.Err? ==> r.error == if h in registrations then StaleLease else NotRegistered
    {
      if h !in registrations { return Err(NotRegistered); }
      if !registrations[h].status.Active? { return Err(StaleLease); }
      var granted := coordinator.AssertAuthority(b, h, epoch, now);
      return if granted.Ok? then Ok(()) else Err(StaleLease);
    }
  }

  /* What an acquire answers */

  // An acquire is granted: the lease is free, expired or the caller's own, or can be taken from its holder.
  predicate Grants(m: Office, x: Id, g: Id, ttl: int, c: Clock) {
    && g in m.regs && ttl > 0
    && (|| x !in m.leases || Expired(m.leases[x], c.t0) || m.leases[x].holder == g
        || (&& m.leases[x].holder in m.regs
            && m.regs[g].priority > m.regs[m.leases[x].holder].priority
            && !m.regs[m.leases[x].holder].inFlight
            && !Expired(m.leases[x], c.t1)))
  }

  // One's own live lease as it is, or a new one under the next epoch.
  function GrantedLease(m: Office, b: Id, h: Id, ttl: int, c: Clock): Lease {
    if b !in m.leases then Lease(b, h, 1, c.t0 + ttl)
    else if m.leases[b].expiresAt <= c.t0 then Lease(b, h, m.leases[b].epoch + 1, c.t0 + ttl)
    else if m.leases[b].holder == h then m.leases[b]
    else Lease(b, h, m.leases[b].epoch + 1, c.t3 + ttl)
  }

  // The answer to an acquire: the lease as it is stored, own and untouched if it was alive and else under the next
  // epoch; nothing yet while the outranked holder's exchange is in flight; or why not.
  lemma AcquireAnswers(m: Office, b: Id, h: Id, ttl: int, c: Clock)
    ensures
      var (r, m') := ManagerAcquire(m, b, h, ttl, c);
      var alive := b in m.leases && !Expired(m.leases[b], c.t0);
      if Grants(m, b, h, ttl, c) then
        && b in m'.leases && r == Ok(Some(m'.leases[b]))
        && m'.leases[b] == GrantedLease(m, b, h, ttl, c)
        && m'.regs.Keys == m.regs.Keys
        && forall g :: g in m.regs ==>
             && m'.regs[g].priority == m.regs[g].priority && m'.regs[g].inFlight == m.regs[g].inFlight
             && (g == h ==> m'.regs[g].status == Active)
             && (g != h ==>
                   m'.regs[g].status == if m.regs[g].status == Offline
                     && !(alive && g == m.leases[b].holder) then Offline
                                        else Standby)
      else
        && m'.leases == m.leases
        && m'.regs == (if h in m.regs && ttl > 0 && m.leases[b].holder in m.regs
                          && m.regs[h].priority > m.regs[m.leases[b].holder].priority
                       then m.regs[m.leases[b].holder := m.regs[m.leases[b].holder].(status := Draining)]
                       else m.regs)
        && r == if h !in m.regs then Err(NotRegistered)
                else if ttl <= 0 then Err(InvalidTtl)
                else if m.leases[b].holder !in m.regs then Err(NotRegistered)
                else if m.regs[h].priority <= m.regs[m.leases[b].holder].priority then Err(LeaseHeld)
                else if m.regs[m.leases[b].holder].inFlight then Ok(None)
                else Err(StaleLease)
  {
  }

  // The answer to a renewal: the stored lease with a new expiry, for its live holder only.
  lemma RenewAnswers(m: Office, b: Id, h: Id, epoch: nat, ttl: int, c: Clock)
    ensures
      var (r, m') := ManagerRenew(m, b, h, epoch, ttl, c);
      if h in m.regs && ttl > 0 && b in m.leases && m.leases[b].holder == h && m.leases[b].epoch == epoch
         && c.t0 < m.leases[b].expiresAt
      then
        && b in m'.leases && r == Ok(m'.leases[b]) && m'.leases[b] == m.leases[b].(expiresAt := c.t1 + ttl)
        && m'.regs == m.regs[h := m.regs[h].(status := Active)]
        && forall x :: x != b ==> (x in m'.leases <==> x in m.leases) && (x in m.leases ==> m'.leases[x] == m.leases[x])
      else
        && m' == m
        && r == Err(if h !in m.regs then NotRegistered else if ttl <= 0 then InvalidTtl else StaleLease)
  {
  }

  // The answer to a release: the stored lease ends now, for its live holder only.
  lemma ReleaseAnswers(m: Office, b: Id, h: Id, epoch: nat, c: Clock)
    ensures
      var (r, m') := ManagerRelease(m, b, h, epoch, c);
      if b in m.leases && m.leases[b].holder == h && m.leases[b].epoch == epoch && c.t0 < m.leases[b].expiresAt then
        && m'.leases == m.leases[b := m.leases[b].(expiresAt := c.t1)]
        && m'.regs == (if h in m.regs then m.regs[h := m.regs[h].(status := Standby)] else m.regs)
        && (r.Ok? <==> h in m.regs) && (r.Err? ==> r.error == NotRegistered)
      else m' == m && r == Err(StaleLease)
  {
  }

  /* Hand-off */

  // Taking a live lease from its holder: exactly when the requester outranks the holder, the holder has no
  // exchange in flight, and the lease is still alive when it is released. The epoch then grows by one;
  // in every other case the stored leases stay as they are.
  lemma HandOffSafety(m: Office, b: Id, h: Id, ttl: int, c: Clock)
    requires b in m.leases && !Expired(m.leases[b], c.t0) && m.leases[b].holder != h && ttl > 0
    ensures
      var g := m.leases[b].holder;
      var (r, m') := ManagerAcquire(m, b, h, ttl, c);
      var moves := h in m.regs && g in m.regs && m.regs[h].priority > m.regs[g].priority
                   && !m.regs[g].inFlight && !Expired(m.leases[b], c.t1);
      && (moves ==>
            && m'.leases == m.leases[b := Lease(b, h, m.leases[b].epoch + 1, c.t3 + ttl)]
            && r == Ok(Some(m'.leases[b])))
      && (!moves ==> m'.leases == m.leases && (r.Err? || r.value.None?))
  {
  }

  // The drained holder's side of a hand-off: it stays DRAINING while its exchange is in flight,
  // and is STANDBY, never ACTIVE, once the lease has moved.
  lemma HandOffDrains(m: Office, b: Id, h: Id, ttl: int, c: Clock)
    requires b in m.leases && !Expired(m.leases[b], c.t0) && m.leases[b].holder != h && ttl > 0
    requires h in m.regs && m.leases[b].holder in m.regs && m.regs[m.leases[b].holder].status != Offline
    requires m.regs[h].priority > m.regs[m.leases[b].holder].priority
    ensures
      var g := m.leases[b].holder;
      var (r, m') := ManagerAcquire(m, b, h, ttl, c);
      m'.regs[g].status == if m.leases[b] == m'.leases[b] then Draining else Standby
  {
  }

  /* Evolution of the table under each call */

  lemma ReleaseEvolves(t: LeaseTable, x: Id, h: Id, epoch: nat, now: int, later: int, b: Id)
    requires now <= later
    ensures Evolves(t, ReleaseLease(t, x, h, epoch, now, later).1, b, now)
  {
  }

  lemma RenewEvolves(t: LeaseTable, x: Id, h: Id, epoch: nat, ttl: int, now: int, later: int, b: Id)
    ensures Evolves(t, RenewLease(t, x, h, epoch, ttl, now, later).1, b, now)
  {
  }

  lemma ManagerAcquireEvolves(m: Office, x: Id, h: Id, ttl: int, c: Clock, b: Id)
    ensures Evolves(m.leases, ManagerAcquire(m, x, h, ttl, c).1.leases, b, c.t0)
  {
  }
}
