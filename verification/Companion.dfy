// The background web companion: one transport that connects, sends and drains under the manager.
module Companions {
  import opened Wrappers
  import opened Leases
  import opened Transports

  datatype CompanionError =
    | WrongBinding | NotActive | LaunchFailed | PageNotReady | ResponseTimeout
    | LeaseProblem(cause: LeaseError)

  // How opening and inspecting the page turns out: the browser may not start, its page may not open, or the
  // page may not become ready.
  datatype Page = Ready | NoLaunch | NoPage | Unready

  // `context` is the browser, `driver` its page; a page that fails to open leaves a browser without one.
  datatype Companion = Companion(binding: Option<Id>, context: bool, driver: bool, lease: Option<Lease>)

  const UNCONNECTED := Companion(None, false, false, None)

  type Outcome = Result<(), CompanionError>

  function ConnectPage(c: Companion, b: Id, page: Page): (Outcome, Companion) {
    if c.binding.Some? && c.binding.value != b then (Err(WrongBinding), c)
    else
      var bound := c.(binding := Some(b));
      if !c.context && page.NoLaunch? then (Err(LaunchFailed), bound)
      else if !c.context && page.NoPage? then (Err(LaunchFailed), bound.(context := true))
      else
        var started := if c.context then bound else bound.(context := true, driver := true);
        if !started.driver then (Err(NotActive), started)
        else if !page.Ready? then (Err(PageNotReady), started)
        else (Ok(()), started)
  }

  function Later(c: Clock): Clock {
    Clock(c.t2, c.t3, c.t4, c.t5, c.t5, c.t5)
  }

  function AcquireFresh(m: Office, id: Id, c: Companion, b: Id, ttl: int, clock: Clock): (Outcome, Office, Companion) {
    var (acquired, m') := ManagerAcquire(m, b, id, ttl, clock);
    match acquired
    case Ok(Some(lease)) => (Ok(()), m', c.(lease := Some(lease)))
    case Ok(None) => (Ok(()), m', c)
    case Err(error) =>
      if error.LeaseHeld? then (Ok(()), m', c.(lease := None)) else (Err(LeaseProblem(error)), m', c)
  }

  function ConnectLease(m: Office, id: Id, c: Companion, b: Id, ttl: int, clock: Clock): (Outcome, Office, Companion) {
    if id in m.regs && m.regs[id].status.Draining? then (Ok(()), m, c)
    else if c.lease.Some? && id in m.regs && m.regs[id].status.Active? then
      var (renewed, m') := ManagerRenew(m, b, id, c.lease.value.epoch, ttl, clock);
      match renewed
      case Ok(lease) => (Ok(()), m', c.(lease := Some(lease)))
      case Err(error) =>
        if error.StaleLease? then AcquireFresh(m', id, c.(lease := None), b, ttl, Later(clock))
        else (Err(LeaseProblem(error)), m', c)
    else AcquireFresh(m, id, c, b, ttl, clock)
  }

  function Connected(m: Office, id: Id, c: Companion, b: Id, page: Page, ttl: int,
                     clock: Clock): (Outcome, Office, Companion) {
    var (paged, c') := ConnectPage(c, b, page);
    if paged.Err? then (paged, m, c') else ConnectLease(m, id, c', b, ttl, clock)
  }

  // The checks before a message is handed to the page.
  function SendCheck(m: Office, id: Id, c: Companion, b: Id, epoch: nat, pageReady: bool, now: int): Outcome {
    if c.binding != Some(b) then Err(WrongBinding)
    else if !c.driver then Err(NotActive)
    else if !pageReady then Err(PageNotReady)
    else if c.lease.None? || c.lease.value.epoch != epoch then Err(NotActive)
    else if id !in m.regs then Err(LeaseProblem(NotRegistered))
    else if !SendAuthority(m, b, id, epoch, now) then Err(LeaseProblem(StaleLease))
    else Ok(())
  }

  function SetInFlight(m: Office, h: Id, value: bool): Office {
    if h in m.regs then m.(regs := m.regs[h := m.regs[h].(inFlight := value)]) else m
  }

  function Disconnected(m: Office, id: Id, c: Companion, clock: Clock): (Office, Companion) {
    (if c.lease.Some? then
       ManagerRelease(SetInFlight(m, id, false), c.lease.value.bindingId, id, c.lease.value.epoch, clock).1
     else m,
     UNCONNECTED)
  }

  // One message handed to the page.
  datatype Submission = Submission(bindingId: Id, holder: Id, epoch: nat, at: int)

  class BackgroundWebTransport {
    const id: Id
    const manager: TransportManager
    const leaseTtl: int
    var binding: Option<Id>
    var context: bool
    var driver: bool
    var lease: Option<Lease>
    ghost var submitted: seq<Submission>

    // Constructing a companion registers it with the manager.
    constructor (id: Id, manager: TransportManager, priority: int, leaseTtl: int)
      modifies manager`registrations
      ensures this.id == id && this.manager == manager && this.leaseTtl == leaseTtl
      ensures State() == UNCONNECTED && submitted == []
      ensures manager.registrations == old(manager.registrations)[id := Registration(priority, Standby, false)]
    {
      this.id, this.manager, this.leaseTtl := id, manager, leaseTtl;
      binding, context, driver, lease, submitted := None, false, false, None, [];
      new;
      manager.Register(id, priority);
    }

    ghost function State(): Companion
      reads this
    {
      Companion(binding, context, driver, lease)
    }

    method Connect(b: Id, page: Page, clock: Clock) returns (r: Outcome)
      modifies this`binding, this`context, this`driver, this`lease, manager`registrations, manager.coordinator
      ensures (r, manager.State(), State())
            == Connected(old(manager.State()), id, old(State()), b, page, leaseTtl, clock)
    {
      if binding.Some? && binding.value != b { return Err(WrongBinding); }
      binding := Some(b);
      if !context {
        if page.NoLaunch? { return Err(LaunchFailed); }
        context := true;
        if page.NoPage? { return Err(LaunchFailed); }
        driver := true;
      }
      if !driver { return Err(NotActive); }
      if !page.Ready? { return Err(PageNotReady); }
      if id in manager.registrations && manager.registrations[id].status.Draining? { return Ok(()); }
      var reading := clock;
      if lease.Some? && id in manager.registrations && manager.registrations[id].status.Active? {
        var renewed := manager.Renew(b, id, lease.value.epoch, leaseTtl, clock);
        if renewed.Ok? {
          lease := Some(renewed.value);
          return Ok(());
        }
        if !renewed.error.StaleLease? { return Err(LeaseProblem(renewed.error)); }
        lease := None;
        reading := Later(clock);
      }
      var acquired := manager.Acquire(b, id, leaseTtl, reading);
      if acquired.Ok? {
        if acquired.value.Some? { lease := acquired.value; }
        return Ok(());
      }
      if !acquired.error.LeaseHeld? { return Err(LeaseProblem(acquired.error)); }
      lease := None;
      return Ok(());
    }

    method Send(b: Id, epoch: nat, pageReady: bool, submitWorks: bool, now: int) returns (r: Outcome)
      modifies this`submitted, manager`registrations
      ensures
        var checks := SendCheck(old(manager.State()), id, old(State()), b, epoch, pageReady, now);
        && (checks.Err? ==> r == checks && manager.State() == old(manager.State()) && submitted == old(submitted))
        && (checks.Ok? ==>
              && submitted == old(submitted) + [Submission(b, id, epoch, now)]
              && manager.State() == SetInFlight(old(manager.State()), id, submitWorks)
              && (r.Ok? <==> submitWorks))
    {
      if binding != Some(b) { return Err(WrongBinding); }
      if !driver { return Err(NotActive); }
      if !pageReady { return Err(PageNotReady); }
      if lease.None? || lease.value.epoch != epoch { return Err(NotActive); }
      var authority := manager.AssertSendAuthority(b, id, epoch, now);
      if authority.Err? { return Err(LeaseProblem(authority.error)); }
      var marked := manager.SetExchangeInFlight(id, true);
      submitted := submitted + [Submission(b, id, epoch, now)];
      if !submitWorks {
        marked := manager.SetExchangeInFlight(id, false);
        return Err(PageNotReady);
      }
      return Ok(());
    }

    // Each poll sees the page's correlated answer, or nothing yet; the polls end with the deadline.
    method WaitForResponse(b: Id, polls: seq<Option<string>>) returns (r: Result<string, CompanionError>)
      modifies manager`registrations
      ensures binding != Some(b) ==> r == Err(WrongBinding) && manager.State() == old(manager.State())
      ensures binding == Some(b) ==>
        && manager.State() == SetInFlight(old(manager.State()), id, false)
        && (r.Ok? ==>
              exists i :: 0 <= i < |polls| && polls[i] == Some(r.value) && forall j :: 0 <= j < i ==> polls[j].None?)
        && (r.Err? <==> !driver || forall i :: 0 <= i < |polls| ==> polls[i].None?)
    {
      if binding != Some(b) { return Err(WrongBinding); }
      if !driver {
        var ended := manager.SetExchangeInFlight(id, false);
        return Err(NotActive);
      }
      r := Err(ResponseTimeout);
      var i := 0;
      while i < |polls|
        invariant 0 <= i <= |polls| && r == Err(ResponseTimeout)
        invariant forall j :: 0 <= j < i ==> polls[j].None?
      {
        if polls[i].Some? {
          r := Ok(polls[i].value);
          break;
        }
        i := i + 1;
      }
      var ended := manager.SetExchangeInFlight(id, false);
    }

    method Disconnect(clock: Clock)
      modifies this`binding, this`context, this`driver, this`lease, manager`registrations, manager.coordinator
      ensures (manager.State(), State()) == Disconnected(old(manager.State()), id, old(State()), clock)
    {
      if lease.Some? {
        var ended := manager.SetExchangeInFlight(id, false);
        var released := manager.Release(lease.value.bindingId, id, lease.value.epoch, clock);
      }
      binding, context, driver, lease := None, false, false, None;
    }
  }

  /* Evolution of the lease table */

  lemma AcquireFreshEvolves(m: Office, id: Id, c: Companion, x: Id, ttl: int, clock: Clock, b: Id)
    ensures Evolves(m.leases, AcquireFresh(m, id, c, x, ttl, clock).1.leases, b, clock.t0)
  {
    ManagerAcquireEvolves(m, x, id, ttl, clock, b);
  }

  lemma ConnectEvolves(m: Office, id: Id, c: Companion, x: Id, page: Page, ttl: int, clock: Clock, b: Id)
    ensures Evolves(m.leases, Connected(m, id, c, x, page, ttl, clock).1.leases, b, clock.t0)
  {
    var bound := ConnectPage(c, x, page).1;
    AcquireFreshEvolves(m, id, bound, x, ttl, clock, b);
    AcquireFreshEvolves(m, id, bound.(lease := None), x, ttl, Later(clock), b);
    if bound.lease.Some? {
      RenewEvolves(m.leases, x, id, bound.lease.value.epoch, ttl, clock.t0, clock.t1, b);
    }
  }

  /* What connecting, sending and disconnecting come to */

  // The companion's page is or becomes ready for the binding.
  predicate PageReady(k: Companion, x: Id, page: Page) {
    (k.binding.None? || k.binding == Some(x)) && page.Ready? && (!k.context || k.driver)
  }

  // A page that is not ready is why a connect fails; the binding is kept, and so is whatever was opened, and no
  // lease is touched.
  lemma ConnectNeedsPage(m: Office, id: Id, c: Companion, b: Id, page: Page, ttl: int, clock: Clock)
    requires !PageReady(c, b, page)
    ensures
      var (r, m', c') := Connected(m, id, c, b, page, ttl, clock);
      && m' == m && c'.lease == c.lease
      && r == Err(if c.binding.Some? && c.binding.value != b then WrongBinding
                  else if !c.context && (page.NoLaunch? || page.NoPage?) then LaunchFailed
                  else if c.context && !c.driver then NotActive
                  else PageNotReady)
      && (if c.binding.Some? && c.binding.value != b then c' == c
          else
            && c'.binding == Some(b)
            && c'.context == (c.context || !page.NoLaunch?)
            && c'.driver == (c.driver || (!c.context && !page.NoLaunch? && !page.NoPage?)))
  {
  }

  // The companion's page once it is ready.
  function Bound(c: Companion, b: Id): Companion {
    Companion(Some(b), true, true, c.lease)
  }

  // A draining companion connects quietly and keeps what it caches.
  lemma ConnectWhileDraining(m: Office, id: Id, c: Companion, b: Id, page: Page, ttl: int, clock: Clock)
    requires PageReady(c, b, page) && id in m.regs && m.regs[id].status.Draining?
    ensures Connected(m, id, c, b, page, ttl, clock) == (Ok(()), m, Bound(c, b))
  {
  }

  // An ACTIVE companion renews the lease it caches, and caches it as stored.
  lemma ConnectRenews(m: Office, id: Id, c: Companion, b: Id, page: Page, ttl: int, clock: Clock)
    requires PageReady(c, b, page) && ttl > 0
    requires id in m.regs && m.regs[id].status.Active? && c.lease.Some?
    requires Authorised(m.leases, b, id, c.lease.value.epoch, clock.t0)
    ensures
      var (r, m', c') := Connected(m, id, c, b, page, ttl, clock);
      && r == Ok(()) && b in m'.leases
      && m'.leases[b] == m.leases[b].(expiresAt := clock.t1 + ttl)
      && c' == Bound(c, b).(lease := Some(m'.leases[b]))
  {
    RenewAnswers(m, b, id, c.lease.value.epoch, ttl, clock);
  }

  // Asking for the lease: if granted the companion caches it as stored; while the outranked holder's exchange is in
  // flight it keeps what it caches; if a holder it does not outrank has it, it caches nothing. In all these cases it
  // has connected quietly.
  lemma AcquireFreshAnswers(m: Office, id: Id, c: Companion, b: Id, ttl: int, clock: Clock)
    requires ttl > 0 && id in m.regs
    ensures
      var (r, m', c') := AcquireFresh(m, id, c, b, ttl, clock);
      if Grants(m, b, id, ttl, clock) then
        r == Ok(()) && b in m'.leases && m'.leases[b].holder == id && c' == c.(lease := Some(m'.leases[b]))
      else
        && m'.leases == m.leases
        && (r, c') == if m.leases[b].holder !in m.regs then (Err(LeaseProblem(NotRegistered)), c)
                      else if m.regs[id].priority <= m.regs[m.leases[b].holder].priority then
                        (Ok(()), c.(lease := None))
                      else if m.regs[m.leases[b].holder].inFlight then (Ok(()), c)
                      else (Err(LeaseProblem(StaleLease)), c)
  {
    AcquireAnswers(m, b, id, ttl, clock);
  }

  // A companion that is neither draining nor able to renew asks for the lease; one that found its own stale has
  // forgotten it by then, and reads the clock later.
  lemma ConnectAcquires(m: Office, id: Id, c: Companion, b: Id, page: Page, ttl: int, clock: Clock)
    requires PageReady(c, b, page) && ttl > 0 && id in m.regs && !m.regs[id].status.Draining?
    requires m.regs[id].status.Active? && c.lease.Some? ==> !Authorised(m.leases, b, id, c.lease.value.epoch, clock.t0)
    ensures
      Connected(m, id, c, b, page, ttl, clock)
      == if m.regs[id].status.Active? && c.lease.Some?
         then AcquireFresh(m, id, Bound(c, b).(lease := None), b, ttl, Later(clock))
         else AcquireFresh(m, id, Bound(c, b), b, ttl, clock)
  {
    if m.regs[id].status.Active? && c.lease.Some? { RenewAnswers(m, b, id, c.lease.value.epoch, ttl, clock); }
  }

  // When the companion connects, and what it then caches.
  lemma ConnectAnswers(m: Office, id: Id, c: Companion, b: Id, page: Page, ttl: int, clock: Clock)
    requires PageReady(c, b, page) && ttl > 0 && id in m.regs
    ensures
      var renewing := m.regs[id].status.Active? && c.lease.Some?;
      var live := renewing && Authorised(m.leases, b, id, c.lease.value.epoch, clock.t0);
      var reading := if renewing then Later(clock) else clock;
      var cached := if renewing then None else c.lease;
      var (r, m', c') := Connected(m, id, c, b, page, ttl, clock);
      && c' == Bound(c, b).(lease := c'.lease)
      && if m.regs[id].status.Draining? then r == Ok(()) && c'.lease == c.lease && m' == m
         else if live || Grants(m, b, id, ttl, reading) then
           r == Ok(()) && b in m'.leases && m'.leases[b].holder == id && c'.lease == Some(m'.leases[b])
         else
           (r, c'.lease) ==
             if m.leases[b].holder !in m.regs then (Err(LeaseProblem(NotRegistered)), cached)
             else if m.regs[id].priority <= m.regs[m.leases[b].holder].priority then (Ok(()), None)
             else if m.regs[m.leases[b].holder].inFlight then (Ok(()), cached)
             else (Err(LeaseProblem(StaleLease)), cached)
  {
    if m.regs[id].status.Draining? {
      ConnectWhileDraining(m, id, c, b, page, ttl, clock);
    } else if m.regs[id].status.Active? && c.lease.Some? && Authorised(m.leases, b, id, c.lease.value.epoch, clock.t0) {
      ConnectRenews(m, id, c, b, page, ttl, clock);
    } else {
      ConnectAcquires(m, id, c, b, page, ttl, clock);
      AcquireFreshAnswers(m, id, Bound(c, b), b, ttl, clock);
      AcquireFreshAnswers(m, id, Bound(c, b).(lease := None), b, ttl, Later(clock));
    }
  }

  // Without a registration or with a useless time to live a connect fails, and leaves the office alone.
  lemma ConnectMisconfigured(m: Office, id: Id, c: Companion, b: Id, page: Page, ttl: int, clock: Clock)
    requires PageReady(c, b, page)
    requires id !in m.regs || (ttl <= 0 && !m.regs[id].status.Draining?)
    ensures Connected(m, id, c, b, page, ttl, clock)
         == (Err(LeaseProblem(if id !in m.regs then NotRegistered else InvalidTtl)), m, Bound(c, b))
  {
  }

  // Why a message is refused.
  lemma SendRefusals(m: Office, id: Id, c: Companion, b: Id, epoch: nat, pageReady: bool, now: int)
    requires SendCheck(m, id, c, b, epoch, pageReady, now).Err?
    ensures
      SendCheck(m, id, c, b, epoch, pageReady, now).error ==
        if c.binding != Some(b) then WrongBinding
        else if !c.driver then NotActive
        else if !pageReady then PageNotReady
        else if c.lease == None || c.lease.value.epoch != epoch then NotActive
        else LeaseProblem(if id in m.regs then StaleLease else NotRegistered)
  {
  }

  // Disconnecting ends the exchange and a lease still held, and forgets everything.
  lemma DisconnectReleases(m: Office, id: Id, c: Companion, clock: Clock)
    ensures
      var (m', c') := Disconnected(m, id, c, clock);
      && c'.binding == None && !c'.context && !c'.driver && c'.lease == None
      && (c.lease == None ==> m' == m)
      && (c.lease.Some? && id in m.regs ==> id in m'.regs && !m'.regs[id].inFlight)
      && (c.lease.Some? ==>
            var b := c.lease.value.bindingId;
            if Authorised(m.leases, b, id, c.lease.value.epoch, clock.t0) then
              && m'.leases == m.leases[b := m.leases[b].(expiresAt := clock.t1)]
              && (id in m.regs ==> m'.regs[id].status == Standby)
            else m'.leases == m.leases && (id in m.regs ==> m'.regs[id].status == m.regs[id].status))
  {
    if c.lease.Some? { ReleaseAnswers(SetInFlight(m, id, false), c.lease.value.bindingId, id, c.lease.value.epoch,
                                      clock); }
  }

  // A companion submits only under the epoch it caches, which is the epoch requested and the epoch stored,
  // while it is ACTIVE and its lease alive; and it submits whenever all that holds and its page is ready.
  lemma SubmitCertificate(m: Office, id: Id, c: Companion, b: Id, epoch: nat, pageReady: bool, now: int)
    ensures SendCheck(m, id, c, b, epoch, pageReady, now).Ok? <==>
      && pageReady && c.driver && c.binding == Some(b)
      && c.lease.Some? && c.lease.value.epoch == epoch
      && id in m.regs && m.regs[id].status.Active?
      && b in m.leases && m.leases[b].epoch == epoch && m.leases[b].holder == id && now < m.leases[b].expiresAt
  {
  }

  // The draining companion gives way: once it has ended its exchange, a strictly higher-priority transport
  // takes over with the next epoch, unless the lease expires between two readings of the clock in one acquire.
  lemma DrainMakesProgress(m: Office, b: Id, id: Id, h: Id, ttl: int, clock: Clock)
    requires b in m.leases && m.leases[b].holder == id && h != id && id in m.regs && h in m.regs
    requires m.regs[h].priority > m.regs[id].priority && ttl > 0
    ensures
      var (r, m') := ManagerAcquire(SetInFlight(m, id, false), b, h, ttl, clock);
      && (r.Ok? && r.value.Some? <==> Expired(m.leases[b], clock.t0) || !Expired(m.leases[b], clock.t1))
      && (r.Ok? && r.value.Some? ==>
            && r.value.value == m'.leases[b]
            && m'.leases[b].holder == h && m'.leases[b].epoch == m.leases[b].epoch + 1
            && m'.regs[h].status.Active? && !m'.regs[id].status.Active?)
      && (r.Err? ==> r.error.StaleLease? && m'.leases == m.leases)
      && (r.Ok? ==> r.value.Some?)
  {
  }
}
