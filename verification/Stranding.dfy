// Messages left CLAIMED by a process that died while sending them: how they come about, and what they block.
module Strandings {
  import opened Wrappers
  import opened Ledger
  import opened Delivery
  import opened SupervisorAdapters

  // CLAIMED, and no process is sending it.
  ghost predicate Stranded(w: Wire, id: Id) {
    && Lookup(w.entries, id).Some? && Lookup(w.entries, id).value.state.Claimed?
    && (w.hand.Idle? || w.hand.id != id)
  }

  // Some process dies with this message in hand.
  predicate Drops(w: Wire, actions: seq<Action>, id: Id)
    requires Legal(w, actions)
    decreases |actions|
  {
    actions != [] &&
    ((actions[0].Crash? && !w.hand.Idle? && w.hand.id == id) || Drops(Do(w, actions[0]), actions[1..], id))
  }

  lemma {:induction false} LookupMoved(l: Entries, id: Id, moved: Id, state: MessageState)
    ensures Lookup(SetState(l, moved, state), id)
         == match Lookup(l, id)
            case None => None
            case Some(e) => Some(if id == moved then e.(state := state) else e)
  {
    if l != [] {
      assert SetState(l, moved, state)[1..] == SetState(l[1..], moved, state);
      LookupMoved(l[1..], id, moved, state);
    }
  }

  lemma {:induction false} LookupAppended(l: Entries, id: Id, e: Entry)
    ensures Lookup(l + [e], id)
         == if Lookup(l, id).Some? then Lookup(l, id) else if e.message.messageId == id then Some(e) else None
  {
    if l != [] {
      assert (l + [e])[1..] == l[1..] + [e];
      LookupAppended(l[1..], id, e);
    }
  }

  lemma StepStrands(w: Wire, a: Action, id: Id)
    requires Sound(w) && Enabled(w, a)
    ensures Stranded(Do(w, a), id) <==> Stranded(w, id) || (a.Crash? && !w.hand.Idle? && w.hand.id == id)
  {
    if !w.hand.Idle? { HandIsClaimed(w); }
    match a {
      case Record(m) => LookupAppended(w.entries, id, Entry(m, Pending));
      case Receive(m) => LookupAppended(w.entries, id, Entry(m, Consumed));
      case Claim(moved) => LookupMoved(w.entries, id, moved, Claimed);
      case Confirm => LookupMoved(w.entries, id, w.hand.id, Sent);
      case Unclaim => LookupMoved(w.entries, id, w.hand.id, Pending);
      case Progress(moved, next) => LookupMoved(w.entries, id, moved, next);
      case _ =>
    }
  }

  // A message is stranded if and only if some process died between claiming it and confirming or taking back.
  lemma {:induction false} StrandedExactly(w: Wire, actions: seq<Action>, id: Id)
    requires Sound(w) && Legal(w, actions)
    ensures Stranded(After(w, actions), id) <==> Stranded(w, id) || Drops(w, actions, id)
    decreases |actions|
  {
    if actions != [] {
      StepStrands(w, actions[0], id);
      DoSound(w, actions[0]);
      StrandedExactly(Do(w, actions[0]), actions[1..], id);
    }
  }

  /* What a stranded request blocks */

  // The pending request for this run that was recorded first.
  ghost predicate Earliest(l: Entries, b: Id, task: Id, run: Id, e: Entry) {
    && e in l && Wanted(e, b, task, run)
    && forall i :: 0 <= i < |l| && Wanted(l[i], b, task, run) && l[i] != e ==>
         e.message.sequence < l[i].message.sequence
  }

  lemma {:induction false} FirstRequestLeast(pending: Entries, task: Id, run: Id)
    requires Sorted(pending)
    ensures match FirstRequest(pending, task, run)
            case None => true
            case Some(e) =>
              forall x :: x in pending && IsRequest(x.message, task, run) ==> e.message.sequence <= x.message.sequence
  {
    if pending != [] {
      if IsRequest(pending[0].message, task, run) {
        assert forall x :: x in pending ==> pending[0].message.sequence <= x.message.sequence;
      } else {
        FirstRequestLeast(pending[1..], task, run);
        assert forall x :: x in pending <==> x == pending[0] || x in pending[1..];
      }
    }
  }

  // The request an adapter finds is the earliest.
  lemma FirstIsEarliest(l: Entries, b: Id, task: Id, run: Id, e: Entry)
    requires Increasing(l)
    ensures FirstRequest(FindPending(l, b), task, run) == Some(e) <==> Earliest(l, b, task, run, e)
  {
    var pending := FindPending(l, b);
    FindPendingElements(l, b);
    SortSorted(PendingOf(l, b));
    FirstRequestFound(pending, task, run);
    FirstRequestLeast(pending, task, run);
    if FirstRequest(pending, task, run) == Some(e) {
      var k :| 0 <= k < |l| && l[k] == e;
      forall i | 0 <= i < |l| && Wanted(l[i], b, task, run) && l[i] != e
        ensures e.message.sequence < l[i].message.sequence
      {
        assert l[i] in pending;
      }
    }
    if Earliest(l, b, task, run, e) {
      assert e in pending;
      var r := FirstRequest(pending, task, run).value;
      var i :| 0 <= i < |l| && l[i] == r;
      assert Wanted(l[i], b, task, run);
    }
  }

  lemma EarliestMoved(w: Wire, moved: Id, state: MessageState, b: Id, task: Id, run: Id, e: Entry)
    requires UniqueIds(w.entries) && Earliest(w.entries, b, task, run, e) && moved != e.message.messageId
    requires Lookup(w.entries, moved).Some? && !Lookup(w.entries, moved).value.state.Consumed?
    ensures Earliest(SetState(w.entries, moved, state), b, task, run, e)
  {
    var l, l' := w.entries, SetState(w.entries, moved, state);
    var k :| 0 <= k < |l| && l[k] == e;
    assert l'[k] == e;
    forall i | 0 <= i < |l'| && Wanted(l'[i], b, task, run) && l'[i] != e
      ensures e.message.sequence < l'[i].message.sequence
    {
      LookupAt(l, i);
      assert Wanted(l[i], b, task, run) && l[i] != e;
    }
  }

  lemma EarliestAppended(w: Wire, added: Entry, b: Id, task: Id, run: Id, e: Entry)
    requires Sound(w) && Fresh(w, added.message) && Earliest(w.entries, b, task, run, e)
    ensures Earliest(w.entries + [added], b, task, run, e)
  {
    FreshUndelivered(w, added.message);
    var l' := w.entries + [added];
    var k :| 0 <= k < |w.entries| && w.entries[k] == e;
    assert l'[k] == e;
  }

  lemma StepBlocked(w: Wire, a: Action, b: Id, task: Id, run: Id, e: Entry)
    requires Sound(w) && Enabled(w, a) && Earliest(w.entries, b, task, run, e) && e.state.Claimed?
    requires Stranded(w, e.message.messageId)
    ensures Earliest(Do(w, a).entries, b, task, run, e)
  {
    var k :| 0 <= k < |w.entries| && w.entries[k] == e;
    LookupAt(w.entries, k);
    if !w.hand.Idle? { HandIsClaimed(w); }
    match a {
      case Record(m) => EarliestAppended(w, Entry(m, Pending), b, task, run, e);
      case Receive(m) => EarliestAppended(w, Entry(m, Consumed), b, task, run, e);
      case Claim(moved) => EarliestMoved(w, moved, Claimed, b, task, run, e);
      case Confirm => EarliestMoved(w, w.hand.id, Sent, b, task, run, e);
      case Unclaim => EarliestMoved(w, w.hand.id, Pending, b, task, run, e);
      case Progress(moved, next) => EarliestMoved(w, moved, next, b, task, run, e);
      case _ =>
    }
  }

  lemma {:induction false} EarliestStays(w: Wire, actions: seq<Action>, b: Id, task: Id, run: Id, e: Entry)
    requires Sound(w) && Legal(w, actions) && Earliest(w.entries, b, task, run, e) && e.state.Claimed?
    requires Stranded(w, e.message.messageId)
    ensures Earliest(After(w, actions).entries, b, task, run, e)
    decreases |actions|
  {
    if actions != [] {
      StepBlocked(w, actions[0], b, task, run, e);
      StepStrands(w, actions[0], e.message.messageId);
      DoSound(w, actions[0]);
      EarliestStays(Do(w, actions[0]), actions[1..], b, task, run, e);
    }
  }

  // Once a stranded request is what an adapter finds for its run, every later one finds it too, CLAIMED as it is,
  // whatever is recorded, sent, reconciled or restarted in between: and refuses, by the contract of RequestReview.
  lemma BlockedForGood(w: Wire, actions: seq<Action>, b: Id, task: Id, run: Id, e: Entry)
    requires Sound(w) && Legal(w, actions) && Stranded(w, e.message.messageId) && e.state.Claimed?
    requires FirstRequest(FindPending(w.entries, b), task, run) == Some(e)
    ensures FirstRequest(FindPending(After(w, actions).entries, b), task, run) == Some(e)
    ensures Times(After(w, actions), e.message.messageId) == Times(w, e.message.messageId)
  {
    FirstIsEarliest(w.entries, b, task, run, e);
    var k :| 0 <= k < |w.entries| && w.entries[k] == e;
    StrandedNeverResent(w, actions, k);
    EarliestStays(w, actions, b, task, run, e);
    RunSound(w, actions);
    FirstIsEarliest(After(w, actions).entries, b, task, run, e);
  }

  // No run has two open requests.
  ghost predicate OneRequest(l: Entries) {
    forall i, j, b, task, run :: 0 <= i < j < |l| ==> !(Wanted(l[i], b, task, run) && Wanted(l[j], b, task, run))
  }

  lemma MovedOneRequest(w: Wire, moved: Id, state: MessageState)
    requires UniqueIds(w.entries) && OneRequest(w.entries)
    requires Lookup(w.entries, moved).Some? && !Lookup(w.entries, moved).value.state.Consumed?
    ensures OneRequest(SetState(w.entries, moved, state))
  {
    var l, l' := w.entries, SetState(w.entries, moved, state);
    forall i, b, task, run | 0 <= i < |l| && Wanted(l'[i], b, task, run)
      ensures Wanted(l[i], b, task, run)
    {
      LookupAt(l, i);
    }
  }

  lemma StepOneRequest(w: Wire, a: Action)
    requires Sound(w) && Enabled(w, a) && OneRequest(w.entries)
    ensures OneRequest(Do(w, a).entries)
  {
    if !w.hand.Idle? { HandIsClaimed(w); }
    match a {
      case Record(m) =>
        assert forall i :: 0 <= i < |w.entries| ==> w.entries[i] in w.entries;
      case Claim(moved) => MovedOneRequest(w, moved, Claimed);
      case Confirm => MovedOneRequest(w, w.hand.id, Sent);
      case Unclaim => MovedOneRequest(w, w.hand.id, Pending);
      case Progress(moved, next) => MovedOneRequest(w, moved, next);
      case _ =>
    }
  }

  // Over any history, a run has at most one open review request.
  lemma {:induction false} RunOneRequest(w: Wire, actions: seq<Action>)
    requires Sound(w) && Legal(w, actions) && OneRequest(w.entries)
    ensures OneRequest(After(w, actions).entries)
    decreases |actions|
  {
    if actions != [] {
      StepOneRequest(w, actions[0]);
      DoSound(w, actions[0]);
      RunOneRequest(Do(w, actions[0]), actions[1..]);
    }
  }

  // Every stranded review request, however it came about, is what an adapter finds for its run from then on.
  lemma StrandedBlocksItsRun(actions: seq<Action>, more: seq<Action>, e: Entry)
    requires Legal(EMPTY_WIRE, actions) && Legal(After(EMPTY_WIRE, actions), more)
    requires
      var w := After(EMPTY_WIRE, actions);
      Stranded(w, e.message.messageId) && Lookup(w.entries, e.message.messageId) == Some(e)
    requires e.message.kind.ReviewRequest?
    ensures
      var l := After(After(EMPTY_WIRE, actions), more).entries;
      FirstRequest(FindPending(l, e.message.bindingId), e.message.taskId, e.message.runId) == Some(e)
  {
    var w, m := After(EMPTY_WIRE, actions), e.message;
    RunSound(EMPTY_WIRE, actions);
    RunOneRequest(EMPTY_WIRE, actions);
    LookupFound(w.entries, m.messageId);
    var k :| 0 <= k < |w.entries| && w.entries[k] == e;
    assert Tally(w, w.entries[k]);
    assert Wanted(w.entries[k], m.bindingId, m.taskId, m.runId);
    FirstIsEarliest(w.entries, m.bindingId, m.taskId, m.runId, e);
    BlockedForGood(w, more, m.bindingId, m.taskId, m.runId, e);
  }

  // It happens: a request is recorded and claimed, and the process dies before the page gets it.
  lemma CrashStrands(m: Message)
    requires m.kind.ReviewRequest? && m.direction.Outbound? && m.sequence == 0
    ensures
      var actions := [Record(m), Claim(m.messageId), Crash];
      && Legal(EMPTY_WIRE, actions)
      && var w := After(EMPTY_WIRE, actions);
         && Sound(w) && Stranded(w, m.messageId) && Times(w, m.messageId) == 0
         && FirstRequest(FindPending(w.entries, m.bindingId), m.taskId, m.runId) == Some(Entry(m, Claimed))
  {
    var a1, a2 := Record(m), Claim(m.messageId);
    var w1 := Do(EMPTY_WIRE, a1);
    var w2 := Do(w1, a2);
    assert w1.entries == [Entry(m, Pending)] && w2.entries == [Entry(m, Claimed)];
    LegalSingle(w2, Crash);
    LegalSingle(w1, a2);
    LegalSingle(EMPTY_WIRE, a1);
    LegalAppend(EMPTY_WIRE, [a1], [a2]);
    LegalAppend(EMPTY_WIRE, [a1] + [a2], [Crash]);
    assert [a1] + [a2] + [Crash] == [a1, a2, Crash];
    var w := After(EMPTY_WIRE, [a1, a2, Crash]);
    assert w == Wire([Entry(m, Claimed)], [], Idle);
    RunSound(EMPTY_WIRE, [a1, a2, Crash]);
    assert w.entries[0] == Entry(m, Claimed);
    FirstIsEarliest(w.entries, m.bindingId, m.taskId, m.runId, Entry(m, Claimed));
  }
}
