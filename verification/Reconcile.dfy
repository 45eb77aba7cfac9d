// Reconciliation of the ledger against what the conversation shows.
module Reconciliation {
  import opened Wrappers
  import opened Ledger

  datatype Form = Request | Response

  datatype Observation = Observation(
    form: Form, messageId: Id, bindingId: Id, taskId: Id, runId: Id,
    inReplyTo: Option<Id>, content: string)

  predicate MatchesIdentity(m: Message, o: Observation) {
    o.bindingId == m.bindingId && o.taskId == m.taskId && o.runId == m.runId
  }

  predicate MatchesRequest(m: Message, o: Observation) {
    o.form.Request? && o.messageId == m.messageId && MatchesIdentity(m, o)
  }

  predicate MatchesResponse(m: Message, o: Observation) {
    o.form.Response? && o.inReplyTo == Some(m.messageId) && MatchesIdentity(m, o)
  }

  predicate RequestSeen(m: Message, os: seq<Observation>) {
    exists o :: o in os && MatchesRequest(m, o)
  }

  function FirstResponse(m: Message, os: seq<Observation>): Option<Observation> {
    if os == [] then None else if MatchesResponse(m, os[0]) then Some(os[0]) else FirstResponse(m, os[1..])
  }

  // What one pass makes of one entry, and the response it reports for it.

  function Reconciled(e: Entry, os: seq<Observation>): Entry {
    var response := FirstResponse(e.message, os).Some?;
    if (e.state.Sent? || e.state.Observed?) && response then e.(state := Responded)
    else if e.state.Sent? && RequestSeen(e.message, os) then e.(state := Observed)
    else e
  }

  function Answer(e: Entry, os: seq<Observation>): Option<Observation> {
    if e.state.Sent? || e.state.Observed? then FirstResponse(e.message, os) else None
  }

  function ReconcileLedger(l: Entries, b: Id, os: seq<Observation>): (l': Entries)
    ensures |l'| == |l|
  {
    seq(|l|, i requires 0 <= i < |l| => if l[i].message.bindingId == b then Reconciled(l[i], os) else l[i])
  }

  function Answers(pending: Entries, os: seq<Observation>): seq<Observation> {
    if pending == [] then []
    else
      (if Answer(pending[0], os).Some? then [Answer(pending[0], os).value] else []) + Answers(pending[1..], os)
  }

  lemma {:induction false} FirstResponseFound(m: Message, os: seq<Observation>)
    ensures FirstResponse(m, os).Some? <==> exists o :: o in os && MatchesResponse(m, o)
    ensures FirstResponse(m, os).Some? ==>
      FirstResponse(m, os).value in os && MatchesResponse(m, FirstResponse(m, os).value)
  {
    if os != [] && !MatchesResponse(m, os[0]) {
      FirstResponseFound(m, os[1..]);
      assert forall o :: o in os <==> o == os[0] || o in os[1..];
    }
  }

  // An observation of this very message: of its request, or of a response to it, in its own binding, task and run.
  predicate Requests(o: Observation, m: Message) {
    && o.form == Request && o.messageId == m.messageId
    && o.bindingId == m.bindingId && o.taskId == m.taskId && o.runId == m.runId
  }

  predicate Responds(o: Observation, m: Message) {
    && o.form == Response && o.inReplyTo == Some(m.messageId)
    && o.bindingId == m.bindingId && o.taskId == m.taskId && o.runId == m.runId
  }

  // A pass moves a sent message as far as what it shows of that message goes, and no other message: a response to it
  // makes it RESPONDED, its request alone OBSERVED.
  lemma EntryExactly(e: Entry, os: seq<Observation>)
    ensures
      var sent := e.state == Sent || e.state == Observed;
      var responded := exists i :: 0 <= i < |os| && Responds(os[i], e.message);
      var requested := exists i :: 0 <= i < |os| && Requests(os[i], e.message);
      && Reconciled(e, os) ==
           (if sent && responded then e.(state := Responded)
            else if e.state == Sent && requested then e.(state := Observed)
            else e)
      && (Answer(e, os).Some? <==> sent && responded)
  {
    FirstResponseFound(e.message, os);
    forall i | 0 <= i < |os|
      ensures os[i] in os
      ensures Responds(os[i], e.message) <==> MatchesResponse(e.message, os[i])
      ensures Requests(os[i], e.message) <==> MatchesRequest(e.message, os[i])
    {
    }
    if RequestSeen(e.message, os) {
      var o :| o in os && MatchesRequest(e.message, o);
      var i :| 0 <= i < |os| && os[i] == o;
      assert Requests(os[i], e.message);
    }
    if o :| o in os && MatchesResponse(e.message, o) {
      var i :| 0 <= i < |os| && os[i] == o;
      assert Responds(os[i], e.message);
    }
  }

  // The response reported is the first one to this message.
  lemma {:induction false} AnswerIsFirst(e: Entry, os: seq<Observation>)
    requires Answer(e, os).Some?
    ensures exists i :: 0 <= i < |os| && os[i] == Answer(e, os).value && Responds(os[i], e.message)
                        && forall j :: 0 <= j < i ==> !Responds(os[j], e.message)
  {
    if MatchesResponse(e.message, os[0]) {
      assert Responds(os[0], e.message);
    } else {
      assert !Responds(os[0], e.message);
      AnswerIsFirst(e, os[1..]);
      var i :| 0 <= i < |os[1..]| && os[1..][i] == Answer(e, os[1..]).value && Responds(os[1..][i], e.message)
               && forall j :: 0 <= j < i ==> !Responds(os[1..][j], e.message);
      assert os[i + 1] == os[1..][i];
      forall j | 0 <= j < i + 1
        ensures !Responds(os[j], e.message)
      {
        if j > 0 { assert os[j] == os[1..][j - 1]; }
      }
    }
  }

  // Another binding, task or run moves nothing and answers nothing.
  lemma ForeignMovesNothing(e: Entry, os: seq<Observation>)
    requires forall o :: o in os ==>
               o.bindingId != e.message.bindingId || o.taskId != e.message.taskId || o.runId != e.message.runId
    ensures Reconciled(e, os) == e && Answer(e, os) == None
  {
    EntryExactly(e, os);
  }

  // The pass reports the answers of the pending entries, in their order.
  lemma {:induction false} AnswersInOrder(pending: Entries, os: seq<Observation>, i: nat)
    requires i < |pending|
    ensures Answers(pending, os)
         == Answers(pending[..i], os)
            + (match Answer(pending[i], os) case None => [] case Some(o) => [o])
            + Answers(pending[i + 1..], os)
  {
    if i > 0 {
      AnswersInOrder(pending[1..], os, i - 1);
      assert pending[..i][1..] == pending[1..][..i - 1];
      assert pending[1..][i..] == pending[i + 1..];
    }
  }

  lemma {:induction false} FirstResponseAppend(m: Message, o1: seq<Observation>, o2: seq<Observation>)
    ensures FirstResponse(m, o1 + o2)
          == if FirstResponse(m, o1).Some? then FirstResponse(m, o1) else FirstResponse(m, o2)
  {
    if o1 == [] {
      assert o1 + o2 == o2;
    } else {
      assert (o1 + o2)[1..] == o1[1..] + o2;
      FirstResponseAppend(m, o1[1..], o2);
    }
  }

  // One entry: two passes are one pass over the concatenation, and at most one of them reports a response.
  lemma EntryAction(e: Entry, o1: seq<Observation>, o2: seq<Observation>)
    ensures Reconciled(Reconciled(e, o1), o2) == Reconciled(e, o1 + o2)
    ensures Answer(e, o1).None? || Answer(Reconciled(e, o1), o2).None?
    ensures Answer(e, o1 + o2) == if Answer(e, o1).Some? then Answer(e, o1) else Answer(Reconciled(e, o1), o2)
  {
    FirstResponseAppend(e.message, o1, o2);
    assert RequestSeen(e.message, o1 + o2) <==> RequestSeen(e.message, o1) || RequestSeen(e.message, o2) by {
      if RequestSeen(e.message, o1) {
        var o :| o in o1 && MatchesRequest(e.message, o);
        assert o in o1 + o2;
      }
      if RequestSeen(e.message, o2) {
        var o :| o in o2 && MatchesRequest(e.message, o);
        assert o in o1 + o2;
      }
    }
  }

  // Reconciliation acts on ledgers as concatenation of observation lists.
  lemma ReconcileAction(l: Entries, b: Id, o1: seq<Observation>, o2: seq<Observation>)
    ensures ReconcileLedger(ReconcileLedger(l, b, o1), b, o2) == ReconcileLedger(l, b, o1 + o2)
    ensures ReconcileLedger(l, b, []) == l
  {
    forall i | 0 <= i < |l|
      ensures ReconcileLedger(ReconcileLedger(l, b, o1), b, o2)[i] == ReconcileLedger(l, b, o1 + o2)[i]
    {
      EntryAction(l[i], o1, o2);
    }
  }

  // Order and repetition of observations do not matter to the resulting states; repeating a pass changes nothing.
  lemma ReconcileBySet(l: Entries, b: Id, o1: seq<Observation>, o2: seq<Observation>)
    requires forall o :: o in o1 <==> o in o2
    ensures ReconcileLedger(l, b, o1) == ReconcileLedger(l, b, o2)
    ensures ReconcileLedger(ReconcileLedger(l, b, o1), b, o2) == ReconcileLedger(l, b, o1)
  {
    forall i | 0 <= i < |l|
      ensures Reconciled(l[i], o1) == Reconciled(l[i], o2)
      ensures Reconciled(l[i], o1 + o2) == Reconciled(l[i], o1)
    {
      FirstResponseFound(l[i].message, o1);
      FirstResponseFound(l[i].message, o2);
      FirstResponseAppend(l[i].message, o1, o2);
      EntryAction(l[i], o1, o2);
    }
    ReconcileAction(l, b, o1, o2);
  }

  // Messages not known to be delivered are never moved, nor is anything but the state ever changed.
  lemma ReconcileOnlyAdvances(l: Entries, b: Id, os: seq<Observation>, i: nat)
    requires i < |l|
    ensures
      var e, e' := l[i], ReconcileLedger(l, b, os)[i];
      && e'.message == e.message
      && (e' != e ==> e.message.bindingId == b && (e.state.Sent? || e.state.Observed?)
                      && (e'.state.Observed? || e'.state.Responded?))
  {
  }

  // The responses reported for one entry over a whole sequence of passes.
  function Reports(e: Entry, passes: seq<seq<Observation>>): seq<Observation>
    decreases |passes|
  {
    if passes == [] then []
    else
      (if Answer(e, passes[0]).Some? then [Answer(e, passes[0]).value] else [])
      + Reports(Reconciled(e, passes[0]), passes[1..])
  }

  function Concat(passes: seq<seq<Observation>>): seq<Observation> {
    if passes == [] then [] else passes[0] + Concat(passes[1..])
  }

  // However the observations are split into passes, a request is answered at most once over the whole run,
  // by the response a single pass over all of them would have reported.
  lemma {:induction false} AnsweredOnce(e: Entry, passes: seq<seq<Observation>>)
    ensures Reports(e, passes) == if Answer(e, Concat(passes)).Some? then [Answer(e, Concat(passes)).value] else []
    decreases |passes|
  {
    if passes != [] {
      EntryAction(e, passes[0], Concat(passes[1..]));
      AnsweredOnce(Reconciled(e, passes[0]), passes[1..]);
    }
  }
}
