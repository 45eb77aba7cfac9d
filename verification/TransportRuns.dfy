// Whole runs: any number of transports and companions, scheduled in any order, with a clock that never
// runs backwards and processes that may restart. Each call is one atomic step.
module TransportRuns {
  import opened Wrappers
  import opened Leases
  import opened Transports
  import opened Companions

  datatype Op =
    // any transport, through the manager
    | Register(holder: Id, priority: int)
    | Acquire(holder: Id, bindingId: Id, ttl: int)
    | Renew(holder: Id, bindingId: Id, epoch: nat, ttl: int)
    | Release(holder: Id, bindingId: Id, epoch: nat)
    | BeginDrain(holder: Id)
    | MarkInFlight(holder: Id, value: bool)
    | Submit(holder: Id, bindingId: Id, epoch: nat)
    // a background companion
    | Launch(holder: Id, priority: int)
    | CompanionConnect(holder: Id, bindingId: Id, page: Page, ttl: int)
    | CompanionSend(holder: Id, bindingId: Id, epoch: nat, pageReady: bool, submitWorks: bool)
    | CompanionWaitEnd(holder: Id, bindingId: Id)
    | CompanionDisconnect(holder: Id)
    // the process restarts: only the lease store and the outside world remember
    | Restart

  // One call, with the clock readings it takes.
  datatype Call = Call(op: Op, clock: Clock)

  datatype Sys = Sys(now: int, office: Office, companions: map<Id, Companion>, log: seq<Submission>)

  function Perform(s: Sys, call: Call): Sys {
    var m, c := s.office, call.clock;
    match call.op
    case Register(h, priority) => s.(office := m.(regs := m.regs[h := Registration(priority, Standby, false)]))
    case Acquire(h, b, ttl) => s.(office := ManagerAcquire(m, b, h, ttl, c).1)
    case Renew(h, b, epoch, ttl) => s.(office := ManagerRenew(m, b, h, epoch, ttl, c).1)
    case Release(h, b, epoch) => s.(office := ManagerRelease(m, b, h, epoch, c).1)
    case BeginDrain(h) => if h in m.regs then s.(office := m.(regs := SetStatus(m.regs, h, Draining))) else s
    case MarkInFlight(h, value) => s.(office := SetInFlight(m, h, value))
    case Submit(h, b, epoch) =>
      if SendAuthority(m, b, h, epoch, c.t0) then s.(log := s.log + [Submission(b, h, epoch, c.t0)]) else s
    case Launch(h, priority) =>
      s.(office := m.(regs := m.regs[h := Registration(priority, Standby, false)]),
         companions := s.companions[h := UNCONNECTED])
    case CompanionConnect(h, b, page, ttl) =>
      if h !in s.companions then s
      else
        var (_, m', k) := Connected(m, h, s.companions[h], b, page, ttl, c);
        s.(office := m', companions := s.companions[h := k])
    case CompanionSend(h, b, epoch, pageReady, submitWorks) =>
      if h !in s.companions || SendCheck(m, h, s.companions[h], b, epoch, pageReady, c.t0).Err? then s
      else s.(office := SetInFlight(m, h, submitWorks), log := s.log + [Submission(b, h, epoch, c.t0)])
    case CompanionWaitEnd(h, b) =>
      if h !in s.companions || s.companions[h].binding != Some(b) then s else s.(office := SetInFlight(m, h, false))
    case CompanionDisconnect(h) =>
      if h !in s.companions then s
      else
        var (m', k) := Disconnected(m, h, s.companions[h], c);
        s.(office := m', companions := s.companions[h := k])
    case Restart => s.(office := m.(regs := map[]), companions := map[])
  }

  predicate Timely(s: Sys, call: Call) {
    s.now <= call.clock.t0
  }

  // Time moves to the last reading of the call.
  function Next(s: Sys, call: Call): Sys {
    Perform(s, call).(now := call.clock.t5)
  }

  predicate Forward(s: Sys, calls: seq<Call>)
    decreases |calls|
  {
    calls == [] || (Timely(s, calls[0]) && Forward(Next(s, calls[0]), calls[1..]))
  }

  function Run(s: Sys, calls: seq<Call>): Sys
    decreases |calls|
  {
    if calls == [] then s else Run(Next(s, calls[0]), calls[1..])
  }

  // A call made at time zero.
  function Now(op: Op): Call {
    Call(op, Clock(0, 0, 0, 0, 0, 0))
  }

  lemma RunFirst(s: Sys, calls: seq<Call>, rest: seq<Call>)
    requires calls != [] && calls == [calls[0]] + rest && Timely(s, calls[0]) && Forward(Next(s, calls[0]), rest)
    ensures Forward(s, calls) && Run(s, calls) == Run(Next(s, calls[0]), rest)
  {
    assert calls[1..] == rest;
  }

  lemma RunTwo(s: Sys, a: Op, b: Op)
    requires s.now == 0
    ensures Forward(s, [Now(a), Now(b)]) && Run(s, [Now(a), Now(b)]) == Next(Next(s, Now(a)), Now(b))
  {
    RunFirst(Next(s, Now(a)), [Now(b)], []);
    RunFirst(s, [Now(a), Now(b)], [Now(b)]);
  }

  lemma RunThree(s: Sys, a: Op, b: Op, c: Op)
    requires s.now == 0
    ensures
      var calls := [Now(a), Now(b), Now(c)];
      Forward(s, calls) && Run(s, calls) == Next(Next(Next(s, Now(a)), Now(b)), Now(c))
  {
    RunTwo(Next(s, Now(a)), b, c);
    RunFirst(s, [Now(a), Now(b), Now(c)], [Now(b), Now(c)]);
  }

  lemma {:induction false} RunAppend(s: Sys, calls: seq<Call>, more: seq<Call>)
    requires Forward(s, calls) && Forward(Run(s, calls), more)
    ensures Forward(s, calls + more) && Run(s, calls + more) == Run(Run(s, calls), more)
    decreases |calls|
  {
    if calls == [] {
      assert calls + more == more;
    } else {
      assert (calls + more)[1..] == calls[1..] + more;
      RunAppend(Next(s, calls[0]), calls[1..], more);
    }
  }

  /* Fencing */

  lemma StepEvolves(s: Sys, call: Call, b: Id)
    requires Timely(s, call)
    ensures Evolves(s.office.leases, Next(s, call).office.leases, b, s.now)
  {
    var m, c := s.office, call.clock;
    match call.op {
      case Acquire(h, x, ttl) => ManagerAcquireEvolves(m, x, h, ttl, c, b);
      case Renew(h, x, epoch, ttl) => RenewEvolves(m.leases, x, h, epoch, ttl, c.t0, c.t1, b);
      case Release(h, x, epoch) => ReleaseEvolves(m.leases, x, h, epoch, c.t0, c.t1, b);
      case CompanionConnect(h, x, page, ttl) =>
        if h in s.companions { ConnectEvolves(m, h, s.companions[h], x, page, ttl, c, b); }
      case CompanionDisconnect(h) =>
        if h in s.companions && s.companions[h].lease.Some? {
          var lease := s.companions[h].lease.value;
          ReleaseEvolves(m.leases, lease.bindingId, h, lease.epoch, c.t0, c.t1, b);
        }
      case _ =>
    }
  }

  // Over any run: the stored epoch never decreases, an epoch never changes hands, and an expired lease is
  // never given more time.
  lemma {:induction false} RunEvolves(s: Sys, calls: seq<Call>, b: Id)
    requires Forward(s, calls)
    ensures Evolves(s.office.leases, Run(s, calls).office.leases, b, s.now)
    ensures s.now <= Run(s, calls).now
    decreases |calls|
  {
    if calls != [] {
      var s' := Next(s, calls[0]);
      StepEvolves(s, calls[0], b);
      RunEvolves(s', calls[1..], b);
      EvolvesTransitive(s.office.leases, s'.office.leases, Run(s, calls).office.leases, b, s.now, s'.now);
    }
  }

  // A (holder, epoch) that is expired, released or superseded is never authorised again.
  lemma NeverReauthorised(s: Sys, calls: seq<Call>, b: Id, h: Id, epoch: nat, later: int)
    requires Forward(s, calls) && later >= Run(s, calls).now
    requires b in s.office.leases && epoch <= s.office.leases[b].epoch
    requires !Authorised(s.office.leases, b, h, epoch, s.now)
    ensures !Authorised(Run(s, calls).office.leases, b, h, epoch, later)
  {
    RunEvolves(s, calls, b);
  }

  // A system in which nothing has happened yet.
  function Untouched(now: int): Sys {
    Sys(now, Office(map[], map[]), map[], [])
  }

  // The log of submissions against the stored leases.
  ghost predicate Fenced(s: Sys) {
    && (forall i :: 0 <= i < |s.log| ==>
          var e := s.log[i];
          && e.bindingId in s.office.leases
          && e.epoch <= s.office.leases[e.bindingId].epoch
          && (e.epoch == s.office.leases[e.bindingId].epoch ==> e.holder == s.office.leases[e.bindingId].holder))
    && (forall i, j :: 0 <= i < j < |s.log| && s.log[i].bindingId == s.log[j].bindingId ==>
          && s.log[i].epoch <= s.log[j].epoch
          && (s.log[i].epoch == s.log[j].epoch ==> s.log[i].holder == s.log[j].holder))
  }

  // A call logs nothing, or one submission its holder was authorised for; logging leaves the leases alone.
  ghost predicate Logs(s: Sys, s': Sys) {
    || s'.log == s.log
    || (exists e: Submission :: s'.log == s.log + [e] && s'.office.leases == s.office.leases
          && SendAuthority(s.office, e.bindingId, e.holder, e.epoch, e.at))
  }

  lemma StepLogs(s: Sys, call: Call)
    ensures Logs(s, Next(s, call))
  {
  }

  lemma StepFenced(s: Sys, call: Call)
    requires Fenced(s) && Timely(s, call)
    ensures Fenced(Next(s, call))
  {
    var s' := Next(s, call);
    StepLogs(s, call);
    forall i | 0 <= i < |s.log|
      ensures Evolves(s.office.leases, s'.office.leases, s.log[i].bindingId, s.now)
    {
      StepEvolves(s, call, s.log[i].bindingId);
    }
  }

  // Submissions to one binding carry non-decreasing epochs, and one epoch has one writer, over any run
  // with any number of restarts.
  lemma {:induction false} RunFenced(s: Sys, calls: seq<Call>)
    requires Fenced(s) && Forward(s, calls)
    ensures Fenced(Run(s, calls))
    decreases |calls|
  {
    if calls != [] {
      StepFenced(s, calls[0]);
      RunFenced(Next(s, calls[0]), calls[1..]);
    }
  }

  lemma UntouchedFenced(now: int)
    ensures Fenced(Untouched(now))
  {
  }

  /* One writer per binding */

  // Whoever may write to a binding at one time is one transport, under one epoch.
  ghost predicate OneWriter(m: Office) {
    forall b, g, h, e1, e2, now ::
      SendAuthority(m, b, g, e1, now) && SendAuthority(m, b, h, e2, now) ==> g == h && e1 == e2
  }

  // Over any run about any number of bindings, each binding has at most one transport that may write to it,
  // and whatever is submitted next is submitted by that transport.
  lemma OneWriterPerBinding(s: Sys, calls: seq<Call>, call: Call)
    ensures
      var before, after := Run(s, calls), Next(Run(s, calls), call);
      && OneWriter(before.office)
      && before.log <= after.log
      && forall i :: |before.log| <= i < |after.log| ==>
           var e := after.log[i];
           && SendAuthority(before.office, e.bindingId, e.holder, e.epoch, e.at)
           && forall g, epoch ::
                SendAuthority(before.office, e.bindingId, g, epoch, e.at) ==> g == e.holder && epoch == e.epoch
  {
    StepLogs(Run(s, calls), call);
  }

  /* At most one ACTIVE, for one binding */

  // Every call of the run is about the same binding.
  predicate Concerns(op: Op, b: Id) {
    match op
    case Acquire(_, x, _) => x == b
    case Renew(_, x, _, _) => x == b
    case Release(_, x, _) => x == b
    case Submit(_, x, _) => x == b
    case CompanionConnect(_, x, _, _) => x == b
    case CompanionSend(_, x, _, _, _) => x == b
    case _ => true
  }

  ghost predicate OneBinding(calls: seq<Call>, b: Id) {
    forall i :: 0 <= i < |calls| ==> Concerns(calls[i].op, b)
  }

  predicate IsActive(s: Sys, h: Id) {
    h in s.office.regs && s.office.regs[h].status.Active?
  }

  // ACTIVE transports hold the stored lease; companions only cache leases of this binding.
  ghost predicate ActiveHolds(s: Sys, b: Id) {
    && (b in s.office.leases ==> s.office.leases[b].bindingId == b)
    && (forall h :: h in s.office.regs && s.office.regs[h].status.Active? ==>
          b in s.office.leases && s.office.leases[b].holder == h)
    && (forall h :: h in s.companions && s.companions[h].lease.Some? ==> s.companions[h].lease.value.bindingId == b)
  }

  lemma AcquireActive(s: Sys, b: Id, h: Id, ttl: int, c: Clock)
    requires ActiveHolds(s, b)
    ensures
      var (r, m) := ManagerAcquire(s.office, b, h, ttl, c);
      ActiveHolds(s.(office := m), b) && (r.Ok? && r.value.Some? ==> r.value.value.bindingId == b)
  {
  }

  lemma AcquireFreshActive(s: Sys, b: Id, h: Id, k: Companion, ttl: int, c: Clock)
    requires ActiveHolds(s, b) && (k.lease.Some? ==> k.lease.value.bindingId == b)
    ensures
      var (_, m, k') := AcquireFresh(s.office, h, k, b, ttl, c);
      ActiveHolds(s.(office := m), b) && (k'.lease.Some? ==> k'.lease.value.bindingId == b)
  {
    AcquireActive(s, b, h, ttl, c);
  }

  lemma ConnectActive(s: Sys, b: Id, h: Id, page: Page, ttl: int, c: Clock)
    requires ActiveHolds(s, b) && h in s.companions
    ensures
      var (_, m, k) := Connected(s.office, h, s.companions[h], b, page, ttl, c);
      ActiveHolds(s.(office := m, companions := s.companions[h := k]), b)
  {
    var bound := ConnectPage(s.companions[h], b, page).1;
    AcquireFreshActive(s, b, h, bound, ttl, c);
    AcquireFreshActive(s, b, h, bound.(lease := None), ttl, Later(c));
  }

  lemma DisconnectActive(s: Sys, b: Id, h: Id, c: Clock)
    requires ActiveHolds(s, b) && h in s.companions
    ensures
      var (m, k) := Disconnected(s.office, h, s.companions[h], c);
      ActiveHolds(s.(office := m, companions := s.companions[h := k]), b)
  {
  }

  lemma ManagerActive(s: Sys, call: Call, b: Id)
    requires ActiveHolds(s, b) && Concerns(call.op, b)
    requires call.op.Renew? || call.op.Release? || call.op.BeginDrain? || call.op.MarkInFlight?
    ensures ActiveHolds(Next(s, call), b)
  {
  }

  lemma StepActive(s: Sys, call: Call, b: Id)
    requires ActiveHolds(s, b) && Concerns(call.op, b)
    ensures ActiveHolds(Next(s, call), b)
  {
    match call.op {
      case Acquire(h, _, ttl) => AcquireActive(s, b, h, ttl, call.clock);
      case Renew(_, _, _, _) | Release(_, _, _) | BeginDrain(_) | MarkInFlight(_, _) => ManagerActive(s, call, b);
      case CompanionConnect(h, _, page, ttl) =>
        if h in s.companions { ConnectActive(s, b, h, page, ttl, call.clock); }
      case CompanionDisconnect(h) =>
        if h in s.companions { DisconnectActive(s, b, h, call.clock); }
      case _ =>
    }
  }

  // One binding has at most one ACTIVE writer, and it is the holder of the stored lease.
  lemma {:induction false} AtMostOneActive(s: Sys, calls: seq<Call>, b: Id)
    requires ActiveHolds(s, b) && OneBinding(calls, b)
    ensures ActiveHolds(Run(s, calls), b)
    ensures forall g, h :: IsActive(Run(s, calls), g) && IsActive(Run(s, calls), h) ==> g == h
    decreases |calls|
  {
    if calls != [] {
      StepActive(s, calls[0], b);
      AtMostOneActive(Next(s, calls[0]), calls[1..], b);
    }
  }

  lemma UntouchedActiveHolds(now: int, b: Id)
    ensures ActiveHolds(Untouched(now), b)
  {
  }

  /* At most one ACTIVE, whatever the bindings */

  ghost predicate OneActive(regs: Registrations) {
    forall g, h :: g in regs && h in regs && regs[g].status.Active? && regs[h].status.Active? ==> g == h
  }

  // Transport p holds binding x.
  const ONE_HOLDER := Sys(0, Office(map["p" := Registration(1, Active, false), "q" := Registration(1, Standby, false)],
                                    map["x" := Lease("x", "p", 1, 9)]), map[], [])

  // And q holds binding y.
  function TwoHolders(p: TransportStatus): Sys {
    Sys(0, Office(map["p" := Registration(1, p, false), "q" := Registration(1, Active, false)],
                  map["x" := Lease("x", "p", 1, 9), "y" := Lease("y", "q", 1, 9)]), map[], [])
  }

  lemma FirstHolder()
    ensures
      var calls := [Now(Register("p", 1)), Now(Register("q", 1)), Now(Acquire("p", "x", 9))];
      Forward(Untouched(0), calls) && Run(Untouched(0), calls) == ONE_HOLDER
  {
    RunThree(Untouched(0), Register("p", 1), Register("q", 1), Acquire("p", "x", 9));
  }

  lemma SecondGranted()
    ensures Next(ONE_HOLDER, Now(Acquire("q", "y", 9))) == TwoHolders(Standby)
  {
  }

  lemma SecondHolder()
    ensures
      var calls := [Now(Acquire("q", "y", 9)), Now(Renew("p", "x", 1, 9))];
      Forward(ONE_HOLDER, calls) && Run(ONE_HOLDER, calls) == TwoHolders(Active)
  {
    SecondGranted();
    RunTwo(ONE_HOLDER, Acquire("q", "y", 9), Renew("p", "x", 1, 9));
  }

  // Status is kept per transport: a renewal for one binding demotes nobody active on another.
  lemma TwoBindingsTwoActive()
    ensures
      var calls := [Now(Register("p", 1)), Now(Register("q", 1)), Now(Acquire("p", "x", 9))]
                   + [Now(Acquire("q", "y", 9)), Now(Renew("p", "x", 1, 9))];
      && Forward(Untouched(0), calls)
      && IsActive(Run(Untouched(0), calls), "p") && IsActive(Run(Untouched(0), calls), "q")
  {
    FirstHolder();
    SecondHolder();
    RunAppend(Untouched(0), [Now(Register("p", 1)), Now(Register("q", 1)), Now(Acquire("p", "x", 9))],
              [Now(Acquire("q", "y", 9)), Now(Renew("p", "x", 1, 9))]);
  }

  // A manager renewal of a live lease of its caller, while another transport is ACTIVE.
  predicate RenewsBeside(s: Sys, call: Call) {
    && call.op.Renew?
    && call.op.holder in s.office.regs && call.op.ttl > 0
    && Authorised(s.office.leases, call.op.bindingId, call.op.holder, call.op.epoch, call.clock.t0)
    && exists g :: g in s.office.regs && g != call.op.holder && s.office.regs[g].status.Active?
  }

  lemma AcquireOneActive(m: Office, b: Id, h: Id, ttl: int, c: Clock)
    requires OneActive(m.regs)
    ensures OneActive(ManagerAcquire(m, b, h, ttl, c).1.regs)
  {
  }

  lemma ConnectOneActive(m: Office, h: Id, k: Companion, b: Id, page: Page, ttl: int, c: Clock)
    requires OneActive(m.regs)
    ensures OneActive(Connected(m, h, k, b, page, ttl, c).1.regs)
  {
    AcquireOneActive(m, b, h, ttl, c);
    AcquireOneActive(m, b, h, ttl, Later(c));
  }

  lemma StepOneActive(s: Sys, call: Call)
    requires OneActive(s.office.regs)
    ensures OneActive(Next(s, call).office.regs) <==> !RenewsBeside(s, call)
  {
    match call.op {
      case Acquire(h, b, ttl) => AcquireOneActive(s.office, b, h, ttl, call.clock);
      case CompanionConnect(h, b, page, ttl) =>
        if h in s.companions { ConnectOneActive(s.office, h, s.companions[h], b, page, ttl, call.clock); }
      case Renew(h, b, epoch, ttl) => RenewOneActive(s, call);
      case _ =>
    }
  }

  lemma RenewOneActive(s: Sys, call: Call)
    requires OneActive(s.office.regs) && call.op.Renew?
    ensures OneActive(Next(s, call).office.regs) <==> !RenewsBeside(s, call)
  {
    if RenewsBeside(s, call) {
      var g :| g in s.office.regs && g != call.op.holder && s.office.regs[g].status.Active?;
      var regs := Next(s, call).office.regs;
      assert regs[g].status.Active? && regs[call.op.holder].status.Active?;
    }
  }

  ghost predicate OneActiveThroughout(s: Sys, calls: seq<Call>)
    decreases |calls|
  {
    OneActive(s.office.regs) && (calls == [] || OneActiveThroughout(Next(s, calls[0]), calls[1..]))
  }

  predicate NeverRenewsBeside(s: Sys, calls: seq<Call>)
    decreases |calls|
  {
    calls == [] || (!RenewsBeside(s, calls[0]) && NeverRenewsBeside(Next(s, calls[0]), calls[1..]))
  }

  // Over a run about any number of bindings there is at most one ACTIVE transport throughout if and only if no
  // renewal is granted beside an ACTIVE transport.
  lemma {:induction false} OneActiveExactly(s: Sys, calls: seq<Call>)
    requires OneActive(s.office.regs)
    ensures OneActiveThroughout(s, calls) <==> NeverRenewsBeside(s, calls)
    decreases |calls|
  {
    if calls != [] {
      StepOneActive(s, calls[0]);
      if !RenewsBeside(s, calls[0]) {
        OneActiveExactly(Next(s, calls[0]), calls[1..]);
      }
    }
  }
}
