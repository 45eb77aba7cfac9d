// The message ledger: one durable entry per message, in the order they were recorded.
module Ledger {
  import opened Wrappers

  type Id = string

  datatype MessageState = Pending | Claimed | Sent | Observed | Responded | Consumed

  datatype Direction = Outbound | Inbound

  datatype Kind = ReviewRequest | Review | ContextRequest | ContextResponse

  // The immutable part of an entry.
  datatype Message = Message(
    messageId: Id, bindingId: Id, taskId: Id, runId: Id,
    kind: Kind, direction: Direction, sequence: nat, correlationId: Option<Id>, payloadHash: string)

  datatype Entry = Entry(message: Message, state: MessageState)

  type Entries = seq<Entry>

  datatype LedgerError = ConflictingReuse | UnknownMessage | InvalidTransition | NotInbound

  predicate Allowed(current: MessageState, next: MessageState) {
    match current
    case Pending => next.Claimed?
    case Claimed => next.Pending? || next.Sent?
    case Sent => next.Observed?
    case Observed => next.Responded?
    case Responded => next.Consumed?
    case Consumed => false
  }

  function Stage(s: MessageState): nat {
    match s
    case Pending => 0
    case Claimed => 1
    case Sent => 2
    case Observed => 3
    case Responded => 4
    case Consumed => 5
  }

  // A message moves one stage at a time, and back only from CLAIMED, to PENDING.
  lemma AllowedExactly(current: MessageState, next: MessageState)
    ensures Allowed(current, next) <==>
      Stage(next) == Stage(current) + 1 || (current == Claimed && next == Pending)
  {
  }

  function Lookup(l: Entries, id: Id): Option<Entry> {
    if l == [] then None
    else if l[0].message.messageId == id then Some(l[0])
    else Lookup(l[1..], id)
  }

  function SetState(l: Entries, id: Id, state: MessageState): (l': Entries)
    ensures |l'| == |l|
  {
    seq(|l|, i requires 0 <= i < |l| => if l[i].message.messageId == id then l[i].(state := state) else l[i])
  }

  // No id is recorded twice; the store keeps one record per id.
  ghost predicate UniqueIds(l: Entries) {
    forall i, j :: 0 <= i < j < |l| ==> l[i].message.messageId != l[j].message.messageId
  }

  function MaxSequence(l: Entries, b: Id): int {
    if l == [] then -1
    else
      var rest := MaxSequence(l[..|l| - 1], b);
      var last := l[|l| - 1].message;
      if last.bindingId == b && last.sequence > rest then last.sequence else rest
  }

  function NextSequence(l: Entries, b: Id): nat {
    MaxSequenceBounds(l, b);
    MaxSequence(l, b) + 1
  }

  // The reduction yields the least upper bound, and -1 when the binding has no entry.
  lemma {:induction false} MaxSequenceBounds(l: Entries, b: Id)
    ensures MaxSequence(l, b) >= -1
    ensures forall i :: 0 <= i < |l| && l[i].message.bindingId == b ==> l[i].message.sequence <= MaxSequence(l, b)
    ensures MaxSequence(l, b) >= 0 ==>
              exists i :: 0 <= i < |l| && l[i].message.bindingId == b && l[i].message.sequence == MaxSequence(l, b)
  {
    if l != [] {
      var front := l[..|l| - 1];
      MaxSequenceBounds(front, b);
      forall i | 0 <= i < |l| && l[i].message.bindingId == b
        ensures l[i].message.sequence <= MaxSequence(l, b)
      {
        if i < |l| - 1 { assert front[i] == l[i]; }
      }
      if MaxSequence(l, b) >= 0 {
        if MaxSequence(l, b) == MaxSequence(front, b) {
          var i :| 0 <= i < |front| && front[i].message.bindingId == b
            && front[i].message.sequence == MaxSequence(front, b);
          assert l[i] == front[i];
        }
      }
    }
  }

  // A binding's first sequence number is 0, and the next is one more than the last in use.
  lemma NextSequenceExactly(l: Entries, b: Id)
    ensures forall i :: 0 <= i < |l| && l[i].message.bindingId == b ==> l[i].message.sequence < NextSequence(l, b)
    ensures NextSequence(l, b) == 0
         || exists i :: 0 <= i < |l| && l[i].message.bindingId == b && l[i].message.sequence == NextSequence(l, b) - 1
  {
    MaxSequenceBounds(l, b);
  }

  function PendingOf(l: Entries, b: Id): Entries {
    if l == [] then []
    else
      var rest := PendingOf(l[1..], b);
      if l[0].message.bindingId == b && !l[0].state.Consumed? then [l[0]] + rest else rest
  }

  // A stable sort by sequence number.
  function Insert(e: Entry, l: Entries): Entries {
    if l == [] || e.message.sequence <= l[0].message.sequence then [e] + l else [l[0]] + Insert(e, l[1..])
  }

  function SortBySequence(l: Entries): Entries {
    if l == [] then [] else Insert(l[0], SortBySequence(l[1..]))
  }

  function FindPending(l: Entries, b: Id): Entries {
    SortBySequence(PendingOf(l, b))
  }

  lemma {:induction false} LookupFound(l: Entries, id: Id)
    ensures Lookup(l, id).Some? ==> Lookup(l, id).value in l && Lookup(l, id).value.message.messageId == id
    ensures Lookup(l, id).None? <==> forall i :: 0 <= i < |l| ==> l[i].message.messageId != id
  {
    if l != [] && l[0].message.messageId != id {
      LookupFound(l[1..], id);
      assert forall i :: 1 <= i < |l| ==> l[i] == l[1..][i - 1];
    }
  }

  lemma {:induction false} LookupAt(l: Entries, i: nat)
    requires i < |l| && UniqueIds(l)
    ensures Lookup(l, l[i].message.messageId) == Some(l[i])
  {
    if i > 0 {
      assert UniqueIds(l[1..]);
      LookupAt(l[1..], i - 1);
    }
  }

  lemma {:induction false} InsertElements(e: Entry, l: Entries)
    ensures multiset(Insert(e, l)) == multiset(l) + multiset{e}
  {
    if l != [] && e.message.sequence > l[0].message.sequence {
      InsertElements(e, l[1..]);
      assert l == [l[0]] + l[1..];
    }
  }

  lemma {:induction false} SortElements(l: Entries)
    ensures multiset(SortBySequence(l)) == multiset(l)
  {
    if l != [] {
      SortElements(l[1..]);
      InsertElements(l[0], SortBySequence(l[1..]));
      assert l == [l[0]] + l[1..];
    }
  }

  lemma {:induction false} PendingElements(l: Entries, b: Id)
    ensures forall e :: e in PendingOf(l, b) <==> e in l && e.message.bindingId == b && !e.state.Consumed?
    ensures UniqueIds(l) ==> UniqueIds(PendingOf(l, b))
  {
    if l != [] {
      PendingElements(l[1..], b);
      assert l == [l[0]] + l[1..];
      if UniqueIds(l) {
        assert UniqueIds(l[1..]);
        assert forall e :: e in PendingOf(l[1..], b) ==> e in l[1..];
      }
    }
  }

  // The pending list holds exactly the binding's entries that are not consumed.
  lemma FindPendingElements(l: Entries, b: Id)
    ensures forall e :: e in FindPending(l, b) <==> e in l && e.message.bindingId == b && !e.state.Consumed?
  {
    PendingElements(l, b);
    SortElements(PendingOf(l, b));
    assert forall e :: e in FindPending(l, b) <==> e in multiset(FindPending(l, b));
  }

  ghost predicate Sorted(l: Entries) {
    forall i, j :: 0 <= i < j < |l| ==> l[i].message.sequence <= l[j].message.sequence
  }

  lemma {:induction false} InsertSorted(e: Entry, l: Entries)
    requires Sorted(l)
    ensures Sorted(Insert(e, l))
  {
    if l != [] && e.message.sequence > l[0].message.sequence {
      InsertSorted(e, l[1..]);
      InsertElements(e, l[1..]);
      forall x | x in Insert(e, l[1..])
        ensures l[0].message.sequence <= x.message.sequence
      {
        assert x in multiset(Insert(e, l[1..]));
        assert x == e || x in l[1..];
      }
    }
  }

  // Pending entries come in sequence order.
  lemma {:induction false} SortSorted(l: Entries)
    ensures Sorted(SortBySequence(l))
  {
    if l != [] {
      SortSorted(l[1..]);
      InsertSorted(l[0], SortBySequence(l[1..]));
    }
  }

  ghost predicate NewTo(e: Entry, l: Entries) {
    forall x :: x in l ==> x.message.messageId != e.message.messageId
  }

  lemma UniqueCons(e: Entry, l: Entries)
    requires UniqueIds(l) && NewTo(e, l)
    ensures UniqueIds([e] + l)
  {
  }

  lemma UniqueTail(l: Entries)
    requires UniqueIds(l) && l != []
    ensures UniqueIds(l[1..]) && NewTo(l[0], l[1..])
  {
  }

  lemma {:induction false} InsertUnique(e: Entry, l: Entries)
    requires UniqueIds(l) && NewTo(e, l)
    ensures UniqueIds(Insert(e, l))
  {
    if l == [] || e.message.sequence <= l[0].message.sequence {
      UniqueCons(e, l);
    } else {
      UniqueTail(l);
      InsertUnique(e, l[1..]);
      InsertElements(e, l[1..]);
      assert forall x :: x in Insert(e, l[1..]) <==> x in multiset(Insert(e, l[1..]));
      UniqueCons(l[0], Insert(e, l[1..]));
    }
  }

  lemma {:induction false} SortUnique(l: Entries)
    requires UniqueIds(l)
    ensures UniqueIds(SortBySequence(l))
  {
    if l != [] {
      UniqueTail(l);
      SortUnique(l[1..]);
      SortElements(l[1..]);
      assert forall x :: x in SortBySequence(l[1..]) <==> x in multiset(SortBySequence(l[1..]));
      InsertUnique(l[0], SortBySequence(l[1..]));
    }
  }

  class MessageLedger {
    var entries: Entries

    constructor ()
      ensures entries == []
    {
      entries := [];
    }

    method Get(id: Id) returns (r: Option<Entry>)
      ensures r == Lookup(entries, id)
    {
      r := Lookup(entries, id);
    }

    method Append(message: Message) returns (r: Result<Entry, LedgerError>)
      modifies this
      ensures Lookup(old(entries), message.messageId).None? ==>
                r == Ok(Entry(message, Pending)) && entries == old(entries) + [Entry(message, Pending)]
      ensures Lookup(old(entries), message.messageId).Some? ==>
        && entries == old(entries)
        && var existing := Lookup(old(entries), message.messageId).value;
           r == if existing.message == message then Ok(existing) else Err(ConflictingReuse)
    {
      var existing := Get(message.messageId);
      if existing.Some? {
        if existing.value.message != message { return Err(ConflictingReuse); }
        return Ok(existing.value);
      }
      entries := entries + [Entry(message, Pending)];
      return Ok(Entry(message, Pending));
    }

    method RecordInboundConsumed(message: Message) returns (r: Result<Entry, LedgerError>)
      modifies this
      ensures message.direction.Outbound? ==> r == Err(NotInbound) && entries == old(entries)
      ensures message.direction.Inbound? && Lookup(old(entries), message.messageId).None? ==>
                r == Ok(Entry(message, Consumed)) && entries == old(entries) + [Entry(message, Consumed)]
      ensures message.direction.Inbound? && Lookup(old(entries), message.messageId).Some? ==>
        && entries == old(entries)
        && var existing := Lookup(old(entries), message.messageId).value;
           r == if existing.message == message then Ok(existing) else Err(ConflictingReuse)
    {
      if message.direction.Outbound? { return Err(NotInbound); }
      var existing := Get(message.messageId);
      if existing.Some? {
        if existing.value.message != message { return Err(ConflictingReuse); }
        return Ok(existing.value);
      }
      entries := entries + [Entry(message, Consumed)];
      return Ok(Entry(message, Consumed));
    }

    method Transition(id: Id, next: MessageState) returns (r: Result<Entry, LedgerError>)
      modifies this
      ensures
        var current := Lookup(old(entries), id);
        && (current.None? ==> r == Err(UnknownMessage) && entries == old(entries))
        && (current.Some? && !Allowed(current.value.state, next) ==>
              r == Err(InvalidTransition) && entries == old(entries))
        && (current.Some? && Allowed(current.value.state, next) ==>
              r == Ok(current.value.(state := next)) && entries == SetState(old(entries), id, next))
    {
      var current := Get(id);
      if current.None? { return Err(UnknownMessage); }
      if !Allowed(current.value.state, next) { return Err(InvalidTransition); }
      entries := SetState(entries, id, next);
      return Ok(current.value.(state := next));
    }

    method FindPendingForBinding(b: Id) returns (r: Entries)
      ensures r == FindPending(entries, b)
    {
      r := SortBySequence(PendingOf(entries, b));
    }

    // The maximum over the binding's records, plus one.
    method NextSequenceForBinding(b: Id) returns (n: nat)
      ensures n == NextSequence(entries, b)
    {
      var maximum: int := -1;
      var i := 0;
      while i < |entries|
        invariant 0 <= i <= |entries| && maximum == MaxSequence(entries[..i], b)
      {
        assert entries[..i + 1][..i] == entries[..i];
        var message := entries[i].message;
        if message.bindingId == b && message.sequence > maximum { maximum := message.sequence; }
        i := i + 1;
      }
      assert entries[..i] == entries;
      MaxSequenceBounds(entries, b);
      n := maximum + 1;
    }
  }
}
