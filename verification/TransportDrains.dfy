// Draining over whole runs: a drained transport stays silent under its epoch until a call revives it, and which
// calls do.
module TransportDrains {
  import opened Wrappers
  import opened Leases
  import opened Transports
  import opened Companions
  import opened TransportRuns

  // Transport h can do nothing under the epoch: it has lost its authority for good, or it is DRAINING.
  ghost predicate Muted(m: Office, b: Id, h: Id, epoch: nat, at: int) {
    && b in m.leases && epoch <= m.leases[b].epoch
    && (Authorised(m.leases, b, h, epoch, at) ==> h in m.regs && m.regs[h].status.Draining?)
  }

  ghost predicate Drained(s: Sys, b: Id, h: Id, epoch: nat) {
    Muted(s.office, b, h, epoch, s.now)
  }

  /* Guards */

  // A connect comes to acquire, rather than draining or renewing, and is granted the lease.
  predicate ConnectGrants(m: Office, g: Id, k: Companion, x: Id, page: Page, ttl: int, c: Clock) {
    && PageReady(k, x, page) && g in m.regs && ttl > 0 && !m.regs[g].status.Draining?
    && if k.lease.Some? && m.regs[g].status.Active? then
         !Authorised(m.leases, x, g, k.lease.value.epoch, c.t0) && Grants(m, x, g, ttl, Later(c))
       else Grants(m, x, g, ttl, c)
  }

  // The lease is alive when the call begins, and outlasts it.
  predicate Outlasts(s: Sys, call: Call, b: Id, h: Id, epoch: nat) {
    && Authorised(s.office.leases, b, h, epoch, call.clock.t0)
    && call.clock.t5 < if call.op.Renew? && call.op.bindingId == b then call.clock.t1 + call.op.ttl
                       else s.office.leases[b].expiresAt
  }

  // The calls that end the draining of h under a lease that outlasts them: h is registered anew, acquires, renews
  // or releases in its own name; another transport is granted another binding, which puts h on STANDBY; or the
  // process restarts and forgets.
  predicate Revives(s: Sys, call: Call, b: Id, h: Id, epoch: nat) {
    var m, c := s.office, call.clock;
    Outlasts(s, call, b, h, epoch) &&
    match call.op
    case Register(g, _) => g == h
    case Launch(g, _) => g == h
    case Restart => true
    case Acquire(g, x, ttl) => (g == h || x != b) && Grants(m, x, g, ttl, c)
    case Renew(g, x, e, ttl) => g == h && h in m.regs && ttl > 0 && Authorised(m.leases, x, h, e, c.t0)
    case Release(g, x, e) => g == h && x != b && Authorised(m.leases, x, h, e, c.t0)
    case CompanionConnect(g, x, page, ttl) =>
      g != h && x != b && g in s.companions && ConnectGrants(m, g, s.companions[g], x, page, ttl, c)
    case CompanionDisconnect(g) =>
      && g == h && h in s.companions && s.companions[h].lease.Some?
      && var lease := s.companions[h].lease.value;
         lease.bindingId != b && Authorised(m.leases, lease.bindingId, h, lease.epoch, c.t0)
    case _ => false
  }

  /* One call */

  // An acquire of another binding puts a draining transport on STANDBY, or makes it ACTIVE, exactly if granted.
  lemma AcquireElsewhere(m: Office, x: Id, g: Id, ttl: int, c: Clock, b: Id, h: Id)
    requires x != b && b in m.leases && h in m.regs && m.regs[h].status.Draining?
    ensures
      var m' := ManagerAcquire(m, x, g, ttl, c).1;
      && b in m'.leases && m'.leases[b] == m.leases[b] && h in m'.regs
      && m'.regs[h].status == if !Grants(m, x, g, ttl, c) then Draining else if g == h then Active else Standby
  {
  }

  lemma AcquireOwn(m: Office, b: Id, h: Id, epoch: nat, ttl: int, c: Clock)
    requires h in m.regs && m.regs[h].status.Draining? && Authorised(m.leases, b, h, epoch, c.t0)
    ensures
      var m' := ManagerAcquire(m, b, h, ttl, c).1;
      && m'.leases == m.leases && h in m'.regs
      && m'.regs[h].status == if Grants(m, b, h, ttl, c) then Active else Draining
  {
  }

  // Another transport's acquire of the binding leaves its holder draining or takes the lease under a new epoch.
  lemma AcquireByOther(m: Office, b: Id, g: Id, ttl: int, c: Clock, h: Id)
    requires g != h && b in m.leases && m.leases[b].holder == h && h in m.regs && m.regs[h].status.Draining?
    ensures
      var m' := ManagerAcquire(m, b, g, ttl, c).1;
      && h in m'.regs && b in m'.leases
      && (m'.leases[b].epoch > m.leases[b].epoch || (m'.leases[b] == m.leases[b] && m'.regs[h].status.Draining?))
  {
  }

  lemma PageReadyExactly(k: Companion, x: Id, page: Page)
    ensures ConnectPage(k, x, page).0.Ok? <==> PageReady(k, x, page)
    ensures ConnectPage(k, x, page).1.lease == k.lease
  {
  }

  // A connect does nothing to the office, renews, or acquires.
  lemma ConnectCases(m: Office, g: Id, k: Companion, x: Id, page: Page, ttl: int, c: Clock)
    ensures
      var m' := Connected(m, g, k, x, page, ttl, c).1;
      if !PageReady(k, x, page) || g !in m.regs || m.regs[g].status.Draining? || ttl <= 0 then m' == m
      else if !(k.lease.Some? && m.regs[g].status.Active?) then m' == ManagerAcquire(m, x, g, ttl, c).1
      else if Authorised(m.leases, x, g, k.lease.value.epoch, c.t0) then
        m' == ManagerRenew(m, x, g, k.lease.value.epoch, ttl, c).1
      else m' == ManagerAcquire(m, x, g, ttl, Later(c)).1
  {
    PageReadyExactly(k, x, page);
  }

  lemma RenewElsewhere(m: Office, x: Id, g: Id, epoch: nat, ttl: int, c: Clock, b: Id, h: Id)
    requires g != h && h in m.regs && b in m.leases && (x == b ==> m.leases[b].holder == h)
    ensures
      var m' := ManagerRenew(m, x, g, epoch, ttl, c).1;
      h in m'.regs && m'.regs[h] == m.regs[h] && b in m'.leases && m'.leases[b] == m.leases[b]
  {
  }

  lemma ConnectElsewhere(m: Office, g: Id, k: Companion, x: Id, page: Page, ttl: int, c: Clock, b: Id, h: Id)
    requires g != h && x != b && b in m.leases && h in m.regs && m.regs[h].status.Draining?
    ensures
      var m' := Connected(m, g, k, x, page, ttl, c).1;
      && b in m'.leases && m'.leases[b] == m.leases[b] && h in m'.regs
      && m'.regs[h].status == if ConnectGrants(m, g, k, x, page, ttl, c) then Standby else Draining
  {
    ConnectCases(m, g, k, x, page, ttl, c);
    AcquireElsewhere(m, x, g, ttl, c, b, h);
    AcquireElsewhere(m, x, g, ttl, Later(c), b, h);
    if k.lease.Some? { RenewElsewhere(m, x, g, k.lease.value.epoch, ttl, c, b, h); }
  }

  lemma ConnectByOther(m: Office, g: Id, k: Companion, b: Id, page: Page, ttl: int, c: Clock, h: Id)
    requires g != h && b in m.leases && m.leases[b].holder == h && h in m.regs && m.regs[h].status.Draining?
    ensures
      var m' := Connected(m, g, k, b, page, ttl, c).1;
      && h in m'.regs && b in m'.leases
      && (m'.leases[b].epoch > m.leases[b].epoch || (m'.leases[b] == m.leases[b] && m'.regs[h].status.Draining?))
  {
    ConnectCases(m, g, k, b, page, ttl, c);
    AcquireByOther(m, b, g, ttl, c, h);
    AcquireByOther(m, b, g, ttl, Later(c), h);
    if k.lease.Some? { RenewElsewhere(m, b, g, k.lease.value.epoch, ttl, c, b, h); }
  }

  // The state a step starts from, when the authority is not yet gone.
  ghost predicate WindingDown(s: Sys, call: Call, b: Id, h: Id, epoch: nat) {
    && Timely(s, call) && h in s.office.regs && s.office.regs[h].status.Draining?
    && Authorised(s.office.leases, b, h, epoch, call.clock.t0)
  }

  lemma AcquireStep(s: Sys, call: Call, b: Id, h: Id, epoch: nat)
    requires WindingDown(s, call, b, h, epoch) && call.op.Acquire?
    ensures Drained(Next(s, call), b, h, epoch) <==> !Revives(s, call, b, h, epoch)
  {
    var Acquire(g, x, ttl) := call.op;
    if x != b {
      AcquireElsewhere(s.office, x, g, ttl, call.clock, b, h);
    } else if g == h {
      AcquireOwn(s.office, b, h, epoch, ttl, call.clock);
    } else {
      AcquireByOther(s.office, b, g, ttl, call.clock, h);
    }
  }

  lemma ConnectStep(s: Sys, call: Call, b: Id, h: Id, epoch: nat)
    requires WindingDown(s, call, b, h, epoch) && call.op.CompanionConnect?
    ensures Drained(Next(s, call), b, h, epoch) <==> !Revives(s, call, b, h, epoch)
  {
    var CompanionConnect(g, x, page, ttl) := call.op;
    if g in s.companions && g != h {
      if x != b {
        ConnectElsewhere(s.office, g, s.companions[g], x, page, ttl, call.clock, b, h);
      } else {
        ConnectByOther(s.office, g, s.companions[g], b, page, ttl, call.clock, h);
      }
    }
  }

  lemma RenewStep(s: Sys, call: Call, b: Id, h: Id, epoch: nat)
    requires WindingDown(s, call, b, h, epoch) && (call.op.Renew? || call.op.Release?)
    ensures Drained(Next(s, call), b, h, epoch) <==> !Revives(s, call, b, h, epoch)
  {
  }

  lemma DisconnectStep(s: Sys, call: Call, b: Id, h: Id, epoch: nat)
    requires WindingDown(s, call, b, h, epoch) && call.op.CompanionDisconnect?
    ensures Drained(Next(s, call), b, h, epoch) <==> !Revives(s, call, b, h, epoch)
  {
  }

  lemma OtherStep(s: Sys, call: Call, b: Id, h: Id, epoch: nat)
    requires WindingDown(s, call, b, h, epoch) && !call.op.Renew? && !call.op.Release? && !call.op.Acquire?
    requires !call.op.CompanionConnect? && !call.op.CompanionDisconnect?
    ensures Drained(Next(s, call), b, h, epoch) <==> !Revives(s, call, b, h, epoch)
  {
  }

  // One call ends the draining if and only if it is one of those named.
  lemma StepDrained(s: Sys, call: Call, b: Id, h: Id, epoch: nat)
    requires Drained(s, b, h, epoch) && Timely(s, call)
    ensures Drained(Next(s, call), b, h, epoch) <==> !Revives(s, call, b, h, epoch)
  {
    if !Authorised(s.office.leases, b, h, epoch, call.clock.t0) {
      LostForGood(s, call, b, h, epoch);
    } else {
      match call.op {
        case Acquire(_, _, _) => AcquireStep(s, call, b, h, epoch);
        case Renew(_, _, _, _) | Release(_, _, _) => RenewStep(s, call, b, h, epoch);
        case CompanionConnect(_, _, _, _) => ConnectStep(s, call, b, h, epoch);
        case CompanionDisconnect(_) => DisconnectStep(s, call, b, h, epoch);
        case _ => OtherStep(s, call, b, h, epoch);
      }
    }
  }

  lemma LostForGood(s: Sys, call: Call, b: Id, h: Id, epoch: nat)
    requires b in s.office.leases && epoch <= s.office.leases[b].epoch && Timely(s, call)
    requires !Authorised(s.office.leases, b, h, epoch, call.clock.t0)
    ensures Drained(Next(s, call), b, h, epoch)
  {
    StepEvolves(s.(now := call.clock.t0), call, b);
    assert Next(s.(now := call.clock.t0), call).office == Next(s, call).office;
  }

  /* Whole runs */

  ghost predicate DrainedThroughout(s: Sys, calls: seq<Call>, b: Id, h: Id, epoch: nat)
    decreases |calls|
  {
    Drained(s, b, h, epoch) && (calls == [] || DrainedThroughout(Next(s, calls[0]), calls[1..], b, h, epoch))
  }

  predicate NeverRevived(s: Sys, calls: seq<Call>, b: Id, h: Id, epoch: nat)
    decreases |calls|
  {
    calls == [] || (!Revives(s, calls[0], b, h, epoch) && NeverRevived(Next(s, calls[0]), calls[1..], b, h, epoch))
  }

  // Over a run about any number of bindings, draining lasts if and only if no call revives it.
  lemma {:induction false} DrainLastsExactly(s: Sys, calls: seq<Call>, b: Id, h: Id, epoch: nat)
    requires Drained(s, b, h, epoch) && Forward(s, calls)
    ensures DrainedThroughout(s, calls, b, h, epoch) <==> NeverRevived(s, calls, b, h, epoch)
    decreases |calls|
  {
    if calls != [] {
      StepDrained(s, calls[0], b, h, epoch);
      if !Revives(s, calls[0], b, h, epoch) {
        DrainLastsExactly(Next(s, calls[0]), calls[1..], b, h, epoch);
      }
    }
  }

  predicate Under(e: Submission, b: Id, h: Id, epoch: nat) {
    e.bindingId == b && e.holder == h && e.epoch == epoch
  }

  lemma DrainedIsSilent(s: Sys, call: Call, b: Id, h: Id, epoch: nat)
    requires Drained(s, b, h, epoch) && Timely(s, call)
    ensures s.log <= Next(s, call).log
    ensures forall i :: |s.log| <= i < |Next(s, call).log| ==> !Under(Next(s, call).log[i], b, h, epoch)
  {
    StepLogs(s, call);
    SubmittedNow(s, call);
  }

  // A submission is made at the first clock reading of its call.
  lemma SubmittedNow(s: Sys, call: Call)
    ensures forall i :: |s.log| <= i < |Next(s, call).log| ==> Next(s, call).log[i].at == call.clock.t0
  {
  }

  // As long as nothing revives it, a drained transport submits nothing more under its epoch.
  lemma {:induction false} DrainIsOneWay(s: Sys, calls: seq<Call>, b: Id, h: Id, epoch: nat)
    requires Drained(s, b, h, epoch) && Forward(s, calls) && NeverRevived(s, calls, b, h, epoch)
    ensures Drained(Run(s, calls), b, h, epoch)
    ensures s.log <= Run(s, calls).log
    ensures forall i :: |s.log| <= i < |Run(s, calls).log| ==> !Under(Run(s, calls).log[i], b, h, epoch)
    decreases |calls|
  {
    if calls != [] {
      StepDrained(s, calls[0], b, h, epoch);
      DrainedIsSilent(s, calls[0], b, h, epoch);
      DrainIsOneWay(Next(s, calls[0]), calls[1..], b, h, epoch);
    }
  }

  // Draining begins with the first acquire of a strictly higher-priority transport.
  lemma AcquireDrains(s: Sys, call: Call, b: Id)
    requires Timely(s, call) && call.op.Acquire? && call.op.bindingId == b && call.op.ttl > 0
    requires b in s.office.leases && !Expired(s.office.leases[b], call.clock.t0)
    requires
      var g, h := s.office.leases[b].holder, call.op.holder;
      g in s.office.regs && h in s.office.regs && h != g && s.office.regs[h].priority > s.office.regs[g].priority
    ensures Drained(Next(s, call), b, s.office.leases[b].holder, s.office.leases[b].epoch)
  {
    HandOffSafety(s.office, b, call.op.holder, call.op.ttl, call.clock);
  }

  // It also begins when a transport is told to drain.
  lemma BeginDrainDrains(s: Sys, call: Call, b: Id)
    requires Timely(s, call) && call.op.BeginDrain? && call.op.holder in s.office.regs
    requires b in s.office.leases && s.office.leases[b].holder == call.op.holder
    ensures
      var s', h := Next(s, call), call.op.holder;
      && Drained(s', b, h, s.office.leases[b].epoch)
      && h in s'.office.regs && s'.office.regs[h] == s.office.regs[h].(status := TransportStatus.Draining)
      && s'.office.leases == s.office.leases && s'.log == s.log
  {
  }

  // An exchange is in flight from the submission until the wait for its response ends, however that ends.
  lemma ExchangeInFlight(s: Sys, call: Call)
    ensures
      var s' := Next(s, call);
      && (call.op.CompanionSend? && s'.log != s.log ==>
            call.op.holder in s'.office.regs && s'.office.regs[call.op.holder].inFlight == call.op.submitWorks)
      && (call.op.CompanionWaitEnd? && call.op.holder in s.companions && call.op.holder in s.office.regs
          && s.companions[call.op.holder].binding == Some(call.op.bindingId) ==>
            !s'.office.regs[call.op.holder].inFlight)
      && (call.op.MarkInFlight? && call.op.holder in s.office.regs ==>
            s'.office.regs[call.op.holder].inFlight == call.op.value)
  {
  }

  /* Draining undone */

  const LAUNCH := Launch("c", 1)
  const RIVAL := Register("x", 2)
  const CONNECT := CompanionConnect("c", "b", Ready, 9)
  const SEND := CompanionSend("c", "b", 1, true, true)
  const OUTBID := Acquire("x", "b", 9)

  const SENT := Submission("b", "c", 1, 0)
  const LEASE := Lease("b", "c", 1, 9)
  const CONNECTED := Companion(Some("b"), true, true, Some(LEASE))
  const OUTRANKING := Registration(2, Standby, false)

  // Companion c, outranked by x, holds epoch 1.
  function Outranked(status: TransportStatus, inFlight: bool, log: seq<Submission>): Sys {
    Sys(0, Office(map["c" := Registration(1, status, inFlight), "x" := OUTRANKING], map["b" := LEASE]),
        map["c" := CONNECTED], log)
  }

  // It has sent a message and is asked to give way.
  const GIVING_WAY := Outranked(Draining, true, [SENT])

  lemma OutrankedConnects()
    ensures
      var calls := [Now(LAUNCH), Now(RIVAL), Now(CONNECT)];
      Forward(Untouched(0), calls) && Run(Untouched(0), calls) == Outranked(Active, false, [])
  {
    RunThree(Untouched(0), LAUNCH, RIVAL, CONNECT);
    assert Next(Next(Next(Untouched(0), Now(LAUNCH)), Now(RIVAL)), Now(CONNECT)) == Outranked(Active, false, []);
  }

  // From nothing: it connects, sends, is outbid, and drains.
  lemma OutrankedDrains()
    ensures
      var calls := [Now(LAUNCH), Now(RIVAL), Now(CONNECT)] + [Now(SEND), Now(OUTBID)];
      Forward(Untouched(0), calls) && Run(Untouched(0), calls) == GIVING_WAY
    ensures Drained(GIVING_WAY, "b", "c", 1)
  {
    OutrankedConnects();
    RunTwo(Outranked(Active, false, []), SEND, OUTBID);
    assert Next(Outranked(Active, false, []), Now(SEND)) == Outranked(Active, true, [SENT]);
    RunAppend(Untouched(0), [Now(LAUNCH), Now(RIVAL), Now(CONNECT)], [Now(SEND), Now(OUTBID)]);
  }

  // The call revives the companion, and after it, and perhaps some more, it submits again under its epoch.
  ghost predicate SubmitsAgain(call: Call, more: seq<Call>) {
    var s := Next(GIVING_WAY, call);
    && Revives(GIVING_WAY, call, "b", "c", 1) && Timely(GIVING_WAY, call)
    && Forward(s, more) && Run(s, more).log == [SENT, SENT]
  }

  // Restarting the process undoes the draining: the unexpired lease is handed back to its own holder.
  lemma RestartRevives()
    ensures SubmitsAgain(Now(Restart), [Now(LAUNCH), Now(CONNECT), Now(SEND)])
  {
    var s := Next(GIVING_WAY, Now(Restart));
    RunThree(s, LAUNCH, CONNECT, SEND);
    assert Next(Next(s, Now(LAUNCH)), Now(CONNECT))
        == Sys(0, Office(map["c" := Registration(1, Active, false)], map["b" := LEASE]), map["c" := CONNECTED], [SENT]);
  }

  // So does a renewal in the companion's name,
  lemma RenewalRevives()
    ensures SubmitsAgain(Now(Renew("c", "b", 1, 9)), [Now(SEND)])
  {
    var s := Next(GIVING_WAY, Now(Renew("c", "b", 1, 9)));
    assert s == Outranked(Active, true, [SENT]);
    RunFirst(s, [Now(SEND)], []);
  }

  // The companion still holds binding b, and x holds binding y.
  function Elsewhere(c: TransportStatus, x: TransportStatus): Sys {
    Sys(0, Office(map["c" := Registration(1, c, true), "x" := Registration(2, x, false)],
                  map["b" := LEASE, "y" := Lease("y", "x", 1, 9)]),
        map["c" := CONNECTED], [SENT])
  }

  lemma ElsewhereGranted()
    ensures Next(GIVING_WAY, Now(Acquire("x", "y", 9))) == Elsewhere(Standby, Active)
  {
  }

  lemma ElsewhereReconnected()
    ensures Next(Elsewhere(Standby, Active), Now(CONNECT)) == Elsewhere(Active, Standby)
  {
    var m := Elsewhere(Standby, Active).office;
    assert Activate(m.regs, "c") == Elsewhere(Active, Standby).office.regs;
  }

  // and so does granting another binding to another transport, with no call in the companion's name but its own
  // connect and send.
  lemma OtherBindingRevives()
    ensures SubmitsAgain(Now(Acquire("x", "y", 9)), [Now(CONNECT), Now(SEND)])
  {
    ElsewhereGranted();
    ElsewhereReconnected();
    RunTwo(Elsewhere(Standby, Active), CONNECT, SEND);
  }
}
