// The reconciler as it runs: one ledger transition at a time, so that a crash may fall between any two.
module Reconcilers {
  import opened Wrappers
  import opened Ledger
  import opened Reconciliation
  import opened Delivery

  // A pass that has dealt with some of the entries.
  function Partly(l: Entries, done: Entries, os: seq<Observation>): (l': Entries)
    ensures |l'| == |l|
  {
    seq(|l|, i requires 0 <= i < |l| => if l[i] in done then Reconciled(l[i], os) else l[i])
  }

  lemma MoveOne(l: Entries, done: Entries, os: seq<Observation>, k: nat, state: MessageState)
    requires UniqueIds(l) && k < |l| && l[k] !in done
    ensures SetState(Partly(l, done, os), l[k].message.messageId, state)
          == Partly(l, done, os)[k := l[k].(state := state)]
    ensures UniqueIds(Partly(l, done, os))
  {
  }

  lemma {:induction false} SetTwice(l: Entries, id: Id, first: MessageState, second: MessageState)
    ensures SetState(SetState(l, id, first), id, second) == SetState(l, id, second)
    ensures UniqueIds(l) ==> UniqueIds(SetState(l, id, first))
  {
  }

  lemma PartlyComplete(l: Entries, b: Id, os: seq<Observation>)
    ensures Partly(l, FindPending(l, b), os) == ReconcileLedger(l, b, os)
  {
    FindPendingElements(l, b);
  }

  lemma PendingDistinct(l: Entries, b: Id, i: nat)
    requires UniqueIds(l) && i < |FindPending(l, b)|
    ensures FindPending(l, b)[i] in l && FindPending(l, b)[i] !in FindPending(l, b)[..i]
  {
    FindPendingElements(l, b);
    PendingElements(l, b);
    SortUnique(PendingOf(l, b));
  }

  lemma AnswersNext(pending: Entries, os: seq<Observation>, i: nat, before: seq<Observation>)
    requires i < |pending|
    ensures before + Answers(pending[i..], os)
         == (before + if Answer(pending[i], os).Some? then [Answer(pending[i], os).value] else [])
            + Answers(pending[i + 1..], os)
  {
    assert pending[i..][1..] == pending[i + 1..];
  }

  class ConversationReconciler {
    const ledger: MessageLedger

    constructor (ledger: MessageLedger)
      ensures this.ledger == ledger
    {
      this.ledger := ledger;
    }

    // One pass equals the pointwise function, reports what the pending entries answer in sequence order,
    // and consists of legal single writes (`steps`) of the delivery machine.
    method Reconcile(b: Id, os: seq<Observation>, ghost w: Wire)
      returns (responses: seq<Observation>, ghost steps: seq<Action>)
      requires UniqueIds(ledger.entries) && w.entries == ledger.entries && w.hand.Idle?
      modifies ledger
      ensures ledger.entries == ReconcileLedger(old(ledger.entries), b, os)
      ensures responses == Answers(FindPending(old(ledger.entries), b), os)
      ensures Legal(w, steps) && After(w, steps) == w.(entries := ledger.entries)
    {
      ghost var l := ledger.entries;
      var pending := ledger.FindPendingForBinding(b);
      responses, steps := [], [];
      var i := 0;
      assert Partly(l, pending[..0], os) == l;
      assert pending[0..] == pending;
      while i < |pending|
        invariant 0 <= i <= |pending|
        invariant ledger.entries == Partly(l, pending[..i], os)
        invariant responses + Answers(pending[i..], os) == Answers(pending, os)
        invariant Legal(w, steps) && After(w, steps) == w.(entries := ledger.entries)
      {
        PendingDistinct(l, b, i);
        ghost var before, more := responses, [];
        responses, more := ReconcileEntry(pending[i], os, responses, l, pending[..i], After(w, steps));
        LegalAppend(w, steps, more);
        steps := steps + more;
        assert pending[..i + 1] == pending[..i] + [pending[i]];
        assert responses + Answers(pending[i + 1..], os) == Answers(pending, os) by {
          AnswersNext(pending, os, i, before);
        }
        i := i + 1;
      }
      assert pending[..i] == pending;
      PartlyComplete(l, b, os);
    }

    // The body of the pass for one pending entry.
    method ReconcileEntry(entry: Entry, os: seq<Observation>, responses: seq<Observation>,
                          ghost l: Entries, ghost done: Entries, ghost w: Wire)
      returns (all: seq<Observation>, ghost steps: seq<Action>)
      requires UniqueIds(l) && entry in l && entry !in done
      requires ledger.entries == Partly(l, done, os) && w.entries == ledger.entries && w.hand.Idle?
      modifies ledger
      ensures ledger.entries == Partly(l, done + [entry], os)
      ensures all == responses + if Answer(entry, os).Some? then [Answer(entry, os).value] else []
      ensures Legal(w, steps) && After(w, steps) == w.(entries := ledger.entries)
    {
      ghost var id := entry.message.messageId;
      ghost var k :| 0 <= k < |l| && l[k] == entry;
      MoveOne(l, done, os, k, entry.state);
      LookupAt(ledger.entries, k);
      all, steps := responses, [];
      var current := entry;
      var requestObserved := RequestSeen(entry.message, os);
      var response := FirstResponse(entry.message, os);
      if current.state.Sent? && (requestObserved || response.Some?) {
        var moved := ledger.Transition(entry.message.messageId, Observed);
        current := moved.value;
        steps := [Progress(id, Observed)];
        LegalSingle(w, Progress(id, Observed));
        SetTwice(w.entries, id, Observed, Responded);
        LookupAt(ledger.entries, k);
      }
      ghost var w' := w.(entries := ledger.entries);
      if current.state.Observed? && response.Some? {
        var moved := ledger.Transition(entry.message.messageId, Responded);
        all := all + [response.value];
        LegalSingle(w', Progress(id, Responded));
        LegalAppend(w, steps, [Progress(id, Responded)]);
        steps := steps + [Progress(id, Responded)];
      }
      PartlyNext(l, done, os, k, ledger.entries);
    }
  }

  lemma PartlyNext(l: Entries, done: Entries, os: seq<Observation>, k: nat, l': Entries)
    requires UniqueIds(l) && k < |l| && l[k] !in done
    requires l' == Partly(l, done, os)
             || exists s :: l' == SetState(Partly(l, done, os), l[k].message.messageId, s)
    requires k < |l'| && l'[k] == Reconciled(l[k], os)
    ensures l' == Partly(l, done + [l[k]], os)
  {
  }
}
