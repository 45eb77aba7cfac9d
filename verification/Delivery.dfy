// Durable delivery as a machine over single ledger writes, page deliveries and crashes.
module Delivery {
  import opened Wrappers
  import opened Ledger

  // What the running process knows about the one message it is sending; lost in a crash.
  datatype Hand = Idle | Claiming(id: Id) | Handed(id: Id) | Refused(id: Id)

  // The ledger and the page outlive the process; `delivered` lists what the page has been given.
  datatype Wire = Wire(entries: Entries, delivered: seq<Id>, hand: Hand)

  datatype Action =
    | Record(message: Message)     // an outbound message is recorded PENDING
    | Receive(message: Message)    // an inbound message is recorded CONSUMED
    | Claim(id: Id)
    | Deliver                      // the transport accepts the claimed message
    | Refuse                       // connect or send throws; the page has got nothing
    | Confirm                      // CLAIMED -> SENT
    | Unclaim                      // CLAIMED -> PENDING
    | Progress(id: Id, next: MessageState)   // OBSERVED, RESPONDED or CONSUMED
    | Crash

  predicate Fresh(w: Wire, m: Message) {
    Lookup(w.entries, m.messageId).None? && m.sequence == NextSequence(w.entries, m.bindingId)
  }

  predicate IsRequest(m: Message, task: Id, run: Id) {
    m.taskId == task && m.runId == run && m.kind.ReviewRequest? && m.direction.Outbound?
  }

  // A review request for the run that is still open.
  predicate Wanted(e: Entry, b: Id, task: Id, run: Id) {
    e.message.bindingId == b && !e.state.Consumed? && IsRequest(e.message, task, run)
  }

  // A new review request is recorded only when none for its run is open.
  predicate Unasked(l: Entries, m: Message) {
    m.kind.ReviewRequest? ==> forall e :: e in l ==> !Wanted(e, m.bindingId, m.taskId, m.runId)
  }

  predicate CanMove(w: Wire, id: Id, next: MessageState) {
    Lookup(w.entries, id).Some? && Allowed(Lookup(w.entries, id).value.state, next)
  }

  predicate Enabled(w: Wire, a: Action) {
    match a
    case Record(m) => w.hand.Idle? && m.direction.Outbound? && Fresh(w, m) && Unasked(w.entries, m)
    case Receive(m) => w.hand.Idle? && m.direction.Inbound? && Fresh(w, m)
    case Claim(id) => w.hand.Idle? && CanMove(w, id, Claimed)
    case Deliver => w.hand.Claiming?
    case Refuse => w.hand.Claiming?
    case Confirm => w.hand.Handed?
    case Unclaim => w.hand.Refused?
    case Progress(id, next) =>
      w.hand.Idle? && (next.Observed? || next.Responded? || next.Consumed?) && CanMove(w, id, next)
    case Crash => true
  }

  function Do(w: Wire, a: Action): Wire
    requires Enabled(w, a)
  {
    match a
    case Record(m) => w.(entries := w.entries + [Entry(m, Pending)])
    case Receive(m) => w.(entries := w.entries + [Entry(m, Consumed)])
    case Claim(id) => w.(entries := SetState(w.entries, id, Claimed), hand := Claiming(id))
    case Deliver => w.(delivered := w.delivered + [w.hand.id], hand := Handed(w.hand.id))
    case Refuse => w.(hand := Refused(w.hand.id))
    case Confirm => w.(entries := SetState(w.entries, w.hand.id, Sent), hand := Idle)
    case Unclaim => w.(entries := SetState(w.entries, w.hand.id, Pending), hand := Idle)
    case Progress(id, next) => w.(entries := SetState(w.entries, id, next))
    case Crash => w.(hand := Idle)
  }

  predicate Legal(w: Wire, actions: seq<Action>)
    decreases |actions|
  {
    actions == [] || (Enabled(w, actions[0]) && Legal(Do(w, actions[0]), actions[1..]))
  }

  function After(w: Wire, actions: seq<Action>): Wire
    requires Legal(w, actions)
    decreases |actions|
  {
    if actions == [] then w else After(Do(w, actions[0]), actions[1..])
  }

  lemma {:induction false} LegalAppend(w: Wire, actions: seq<Action>, more: seq<Action>)
    requires Legal(w, actions) && Legal(After(w, actions), more)
    ensures Legal(w, actions + more) && After(w, actions + more) == After(After(w, actions), more)
    decreases |actions|
  {
    if actions == [] {
      assert actions + more == more;
    } else {
      assert (actions + more)[1..] == actions[1..] + more;
      LegalAppend(Do(w, actions[0]), actions[1..], more);
    }
  }

  lemma LegalSingle(w: Wire, a: Action)
    requires Enabled(w, a)
    ensures Legal(w, [a]) && After(w, [a]) == Do(w, a)
  {
  }

  function Times(w: Wire, id: Id): nat {
    multiset(w.delivered)[id]
  }

  // How often a message in a given state can have reached the page.
  ghost predicate Tally(w: Wire, e: Entry) {
    var n := Times(w, e.message.messageId);
    match e.state
    case Pending => n == 0 && e.message.direction.Outbound?
    case Claimed => e.message.direction.Outbound? &&
        (if w.hand == Claiming(e.message.messageId) || w.hand == Refused(e.message.messageId) then n == 0
         else if w.hand == Handed(e.message.messageId) then n == 1
         else n <= 1)
    case Consumed => n == if e.message.direction.Outbound? then 1 else 0
    case _ => n == 1 && e.message.direction.Outbound?
  }

  // Within a binding, later records carry larger sequence numbers.
  ghost predicate Increasing(l: Entries) {
    forall i, j :: 0 <= i < j < |l| && l[i].message.bindingId == l[j].message.bindingId
      ==> l[i].message.sequence < l[j].message.sequence
  }

  ghost predicate Known(l: Entries, id: Id) {
    exists i :: 0 <= i < |l| && l[i].message.messageId == id
  }

  ghost predicate HandClaimed(w: Wire) {
    !w.hand.Idle? ==>
      exists i :: 0 <= i < |w.entries| && w.entries[i].message.messageId == w.hand.id && w.entries[i].state.Claimed?
  }

  // The coupling between ledger, page and process.
  ghost predicate Sound(w: Wire) {
    && UniqueIds(w.entries)
    && Increasing(w.entries)
    && (forall i :: 0 <= i < |w.entries| ==> Tally(w, w.entries[i]))
    && (forall id :: id in w.delivered ==> Known(w.entries, id))
    && HandClaimed(w)
  }

  const EMPTY_WIRE := Wire([], [], Idle)

  lemma FreshUndelivered(w: Wire, m: Message)
    requires Sound(w) && Fresh(w, m)
    ensures Times(w, m.messageId) == 0
    ensures forall i :: 0 <= i < |w.entries| ==> w.entries[i].message.messageId != m.messageId
    ensures forall i :: 0 <= i < |w.entries| && w.entries[i].message.bindingId == m.bindingId
              ==> w.entries[i].message.sequence < m.sequence
  {
    LookupFound(w.entries, m.messageId);
    MaxSequenceBounds(w.entries, m.bindingId);
    assert !Known(w.entries, m.messageId);
    assert m.messageId !in multiset(w.delivered);
  }

  lemma RecordSound(w: Wire, a: Action)
    requires Sound(w) && Enabled(w, a) && (a.Record? || a.Receive?)
    ensures Sound(Do(w, a))
  {
    var w', n := Do(w, a), |w.entries|;
    FreshUndelivered(w, a.message);
    assert w'.entries[n].message == a.message;
    forall i | 0 <= i < n
      ensures w'.entries[i] == w.entries[i] && Tally(w', w'.entries[i])
    {
      assert Tally(w, w.entries[i]);
    }
    forall id | id in w'.delivered
      ensures Known(w'.entries, id)
    {
      var i :| 0 <= i < n && w.entries[i].message.messageId == id;
      assert w'.entries[i].message.messageId == id;
    }
  }

  lemma SetStateKeeps(w: Wire, id: Id, state: MessageState)
    requires UniqueIds(w.entries) && Increasing(w.entries)
    requires forall x :: x in w.delivered ==> Known(w.entries, x)
    ensures UniqueIds(SetState(w.entries, id, state)) && Increasing(SetState(w.entries, id, state))
    ensures forall x :: x in w.delivered ==> Known(SetState(w.entries, id, state), x)
  {
    var l' := SetState(w.entries, id, state);
    assert forall i :: 0 <= i < |l'| ==> l'[i].message == w.entries[i].message;
    forall x | x in w.delivered
      ensures Known(l', x)
    {
      var i :| 0 <= i < |w.entries| && w.entries[i].message.messageId == x;
      assert l'[i].message.messageId == x;
    }
  }

  lemma MoveSound(w: Wire, a: Action, id: Id, state: MessageState)
    requires Sound(w) && Enabled(w, a)
    requires (a == Claim(id) && state == Claimed) || a == Progress(id, state)
             || (w.hand == Handed(id) && a == Confirm && state == Sent)
             || (w.hand == Refused(id) && a == Unclaim && state == Pending)
    ensures Sound(Do(w, a))
  {
    var w' := Do(w, a);
    assert w'.entries == SetState(w.entries, id, state);
    SetStateKeeps(w, id, state);
    LookupFound(w.entries, id);
    forall i | 0 <= i < |w'.entries|
      ensures Tally(w', w'.entries[i])
    {
      LookupAt(w.entries, i);
      assert Tally(w, w.entries[i]);
    }
    if a.Claim? {
      var i :| 0 <= i < |w.entries| && w.entries[i] == Lookup(w.entries, id).value;
      assert w'.entries[i].message.messageId == id && w'.entries[i].state.Claimed?;
    }
  }

  lemma DeliverSound(w: Wire)
    requires Sound(w) && w.hand.Claiming?
    ensures Sound(Do(w, Deliver))
  {
  }

  lemma DoSound(w: Wire, a: Action)
    requires Sound(w) && Enabled(w, a)
    ensures Sound(Do(w, a))
  {
    match a {
      case Record(_) | Receive(_) => RecordSound(w, a);
      case Claim(id) => MoveSound(w, a, id, Claimed);
      case Confirm => MoveSound(w, a, w.hand.id, Sent);
      case Unclaim => MoveSound(w, a, w.hand.id, Pending);
      case Progress(id, next) => MoveSound(w, a, id, next);
      case Deliver => DeliverSound(w);
      case Refuse | Crash =>
        forall i | 0 <= i < |w.entries|
          ensures Tally(Do(w, a), w.entries[i])
        {
          assert Tally(w, w.entries[i]);
        }
    }
  }

  lemma {:induction false} RunSound(w: Wire, actions: seq<Action>)
    requires Sound(w) && Legal(w, actions)
    ensures Sound(After(w, actions))
    decreases |actions|
  {
    if actions != [] {
      DoSound(w, actions[0]);
      RunSound(Do(w, actions[0]), actions[1..]);
    }
  }

  lemma HandIsClaimed(w: Wire)
    requires Sound(w) && !w.hand.Idle?
    ensures Lookup(w.entries, w.hand.id).Some? && Lookup(w.entries, w.hand.id).value.state.Claimed?
  {
    var i :| 0 <= i < |w.entries| && w.entries[i].message.messageId == w.hand.id && w.entries[i].state.Claimed?;
    LookupAt(w.entries, i);
  }

  // Wherever in its actions a process dies, what it leaves is sound for the next one.
  lemma {:induction false} DeathSound(w: Wire, actions: seq<Action>, n: nat)
    requires Sound(w) && Legal(w, actions) && n <= |actions|
    ensures Legal(w, actions[..n]) && Sound(After(w, actions[..n]).(hand := Idle))
    decreases n
  {
    if n == 0 {
      DoSound(w, Crash);
    } else {
      assert actions[..n][1..] == actions[1..][..n - 1];
      DoSound(w, actions[0]);
      DeathSound(Do(w, actions[0]), actions[1..], n - 1);
    }
  }

  // Over every history of crashes, restarts and failed sends, the page gets each message at most once:
  // never while PENDING, at most once while CLAIMED, exactly once from SENT on.
  lemma AtMostOnce(actions: seq<Action>, id: Id)
    requires Legal(EMPTY_WIRE, actions)
    ensures
      var w := After(EMPTY_WIRE, actions);
      && Times(w, id) <= 1
      && forall i :: 0 <= i < |w.entries| && w.entries[i].message.messageId == id
                     && w.entries[i].message.direction.Outbound? ==>
           var s := w.entries[i].state;
           && (s.Pending? ==> Times(w, id) == 0)
           && (s.Sent? || s.Observed? || s.Responded? || s.Consumed? ==> Times(w, id) == 1)
  {
    RunSound(EMPTY_WIRE, actions);
    var w := After(EMPTY_WIRE, actions);
    if id in w.delivered {
      var i :| 0 <= i < |w.entries| && w.entries[i].message.messageId == id;
      assert Tally(w, w.entries[i]);
    }
    forall i | 0 <= i < |w.entries| && w.entries[i].message.messageId == id
      ensures Tally(w, w.entries[i])
    {
    }
  }

  // What no action changes: recorded messages keep their place and their immutable fields.
  ghost predicate Grows(l: Entries, l': Entries) {
    |l| <= |l'| && forall i :: 0 <= i < |l| ==> l'[i].message == l[i].message
  }

  lemma {:induction false} MessagesImmutable(w: Wire, actions: seq<Action>)
    requires Legal(w, actions)
    ensures Grows(w.entries, After(w, actions).entries)
    decreases |actions|
  {
    if actions != [] {
      assert Grows(w.entries, Do(w, actions[0]).entries);
      MessagesImmutable(Do(w, actions[0]), actions[1..]);
    }
  }

  // Sequence numbers within a binding increase strictly in recording order, across any number of restarts.
  lemma SequencesIncrease(actions: seq<Action>)
    requires Legal(EMPTY_WIRE, actions)
    ensures Increasing(After(EMPTY_WIRE, actions).entries)
  {
    RunSound(EMPTY_WIRE, actions);
  }

  lemma StrandedStep(w: Wire, a: Action, k: nat)
    requires Sound(w) && Enabled(w, a) && k < |w.entries| && w.entries[k].state.Claimed?
    requires w.hand.Idle? || w.hand.id != w.entries[k].message.messageId
    ensures
      var w' := Do(w, a);
      && w'.entries[k] == w.entries[k]
      && (w'.hand.Idle? || w'.hand.id != w.entries[k].message.messageId)
      && Times(w', w.entries[k].message.messageId) == Times(w, w.entries[k].message.messageId)
  {
    LookupAt(w.entries, k);
    if a.Deliver? {
      assert multiset(w.delivered + [w.hand.id]) == multiset(w.delivered) + multiset{w.hand.id};
    }
  }

  // A CLAIMED entry left behind by a crash stays CLAIMED and is never sent again.
  lemma {:induction false} StrandedNeverResent(w: Wire, actions: seq<Action>, k: nat)
    requires Sound(w) && Legal(w, actions) && k < |w.entries| && w.entries[k].state.Claimed?
    requires w.hand.Idle? || w.hand.id != w.entries[k].message.messageId
    ensures k < |After(w, actions).entries| && After(w, actions).entries[k] == w.entries[k]
    ensures Times(After(w, actions), w.entries[k].message.messageId) == Times(w, w.entries[k].message.messageId)
    decreases |actions|
  {
    MessagesImmutable(w, actions);
    if actions != [] {
      StrandedStep(w, actions[0], k);
      DoSound(w, actions[0]);
      StrandedNeverResent(Do(w, actions[0]), actions[1..], k);
    }
  }
}
