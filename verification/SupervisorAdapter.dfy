// The ChatGPT supervisor adapter: one review request, any number of context rounds, one review.
module SupervisorAdapters {
  import opened Wrappers
  import opened Ledger
  import opened Reconciliation
  import opened Delivery
  import opened Reconcilers
  import Policy

  // A reply of the supervisor after JSON parsing and schema validation.
  datatype Parsed =
    | NotJson
    | Malformed
    | ReviewReply(messageId: Id, inReplyTo: Id, bindingId: Id, taskId: Id, runId: Id,
                  decision: Policy.Verdict, findings: seq<string>, instruction: Option<string>)
    | ContextAsk(messageId: Id, inReplyTo: Id, bindingId: Id, taskId: Id, runId: Id)

  datatype Reply = Reply(content: string, parsed: Parsed)

  datatype AdapterError =
    | SupervisorUnavailable | AmbiguousClaim | PayloadMismatch | InvalidReply
    | CorrelationMismatch | ConflictingMessage | DidNotReconcile | InvalidReview | ContextFailed

  // What the context broker offers with a review request: each item under a ref of its own.
  datatype Item = Item(ref: Id, text: string)

  type Manifest = seq<Item>

  // What a review request says. The rest of its packet is determined by the task and the run's persisted result.
  datatype Payload = Payload(
    messageId: Id, sequence: nat, bindingId: Id, taskId: Id, runId: Id, manifest: Manifest)

  // The outside world within one process: message ids, context refs, payload hashes, the transport. Message ids are
  // asked for once per ledger length, refs in the order they are drawn by any process, and every message is sent and
  // waited for at most once, so functions are general.
  datatype Channel = Channel(
    newId: nat -> Id,
    newRef: nat -> Id,
    requestHash: Payload -> string,
    // the broker's answer to a context request, or its error as a payload; None when it throws anything else
    context: Id -> Option<string>,
    contextHash: (Id, nat, Id, string) -> string,
    textHash: string -> string,
    accepts: Id -> bool,
    answer: Id -> Option<Reply>)

  // No two payloads have one hash, and no ref is drawn twice.
  ghost predicate Ideal(ch: Channel) {
    && (forall p, q :: ch.requestHash(p) == ch.requestHash(q) ==> p == q)
    && (forall i: nat, j: nat :: ch.newRef(i) == ch.newRef(j) ==> i == j)
  }

  // Creating a manifest draws a new ref for every piece of evidence there is.
  function Registered(ch: Channel, drawn: nat, evidence: seq<string>): (m: Manifest)
    ensures |m| == |evidence|
  {
    seq(|evidence|, i requires 0 <= i < |evidence| => Item(ch.newRef(drawn + i), evidence[i]))
  }

  function PayloadOf(m: Message, manifest: Manifest): Payload {
    Payload(m.messageId, m.sequence, m.bindingId, m.taskId, m.runId, manifest)
  }

  // A manifest created before so many refs were drawn.
  ghost predicate CreatedBy(ch: Channel, manifest: Manifest, drawn: nat) {
    exists n: nat, evidence :: n + |evidence| <= drawn && manifest == Registered(ch, n, evidence)
  }

  ghost predicate HashedBy(ch: Channel, m: Message, drawn: nat) {
    exists manifest :: CreatedBy(ch, manifest, drawn) && m.payloadHash == ch.requestHash(PayloadOf(m, manifest))
  }

  // Every review request on record was hashed with the manifest of its time.
  ghost predicate AllHashed(ch: Channel, l: Entries, drawn: nat) {
    forall i :: 0 <= i < |l| && l[i].message.kind.ReviewRequest? && l[i].message.direction.Outbound? ==>
      HashedBy(ch, l[i].message, drawn)
  }

  // A request recorded when there was no evidence.
  predicate Bare(ch: Channel, m: Message) {
    m.payloadHash == ch.requestHash(PayloadOf(m, []))
  }

  lemma RefsDiffer(ch: Channel, n: nat, before: seq<string>, drawn: nat, evidence: seq<string>)
    requires Ideal(ch) && n + |before| <= drawn && evidence != []
    ensures Registered(ch, n, before) != Registered(ch, drawn, evidence)
  {
    if |before| == |evidence| {
      assert Registered(ch, n, before)[0].ref == ch.newRef(n + 0);
      assert Registered(ch, drawn, evidence)[0].ref == ch.newRef(drawn + 0);
    }
  }

  // A manifest created now has refs no earlier one has, unless it is empty.
  lemma NewRefs(ch: Channel, drawn: nat, evidence: seq<string>)
    requires Ideal(ch)
    ensures CreatedBy(ch, Registered(ch, drawn, evidence), drawn) <==> evidence == []
  {
    if evidence == [] {
      assert Registered(ch, drawn, evidence) == Registered(ch, 0, []);
    } else {
      forall n: nat, before: seq<string> | n + |before| <= drawn
        ensures Registered(ch, n, before) != Registered(ch, drawn, evidence)
      {
        RefsDiffer(ch, n, before, drawn, evidence);
      }
    }
  }

  // So a request taken up again has the payload it was recorded with exactly when there was no evidence then and
  // is none now.
  lemma PayloadMatches(ch: Channel, m: Message, drawn: nat, evidence: seq<string>)
    requires Ideal(ch) && HashedBy(ch, m, drawn)
    ensures m.payloadHash == ch.requestHash(PayloadOf(m, Registered(ch, drawn, evidence)))
       <==> evidence == [] && Bare(ch, m)
  {
    NewRefs(ch, drawn, evidence);
    assert Registered(ch, drawn, []) == [];
    var manifest: Manifest :| CreatedBy(ch, manifest, drawn) && m.payloadHash == ch.requestHash(PayloadOf(m, manifest));
  }

  lemma MoreDrawn(ch: Channel, l: Entries, drawn: nat, more: nat)
    requires AllHashed(ch, l, drawn) && drawn <= more
    ensures AllHashed(ch, l, more)
  {
    forall i | 0 <= i < |l| && l[i].message.kind.ReviewRequest? && l[i].message.direction.Outbound?
      ensures HashedBy(ch, l[i].message, more)
    {
      var m := l[i].message;
      var manifest: Manifest :|
        CreatedBy(ch, manifest, drawn) && m.payloadHash == ch.requestHash(PayloadOf(m, manifest));
      assert CreatedBy(ch, manifest, more);
    }
  }

  lemma DoHashed(ch: Channel, w: Wire, a: Action, drawn: nat)
    requires AllHashed(ch, w.entries, drawn) && Enabled(w, a)
    requires a.Record? && a.message.kind.ReviewRequest? ==> HashedBy(ch, a.message, drawn)
    ensures AllHashed(ch, Do(w, a).entries, drawn)
  {
  }

  predicate CorrelatedTo(p: Parsed, b: Id, task: Id, run: Id, id: Id)
    requires p.ReviewReply? || p.ContextAsk?
  {
    p.bindingId == b && p.taskId == task && p.runId == run && p.inReplyTo == id
  }

  predicate Correlated(p: Parsed, m: Message)
    requires p.ReviewReply? || p.ContextAsk?
  {
    CorrelatedTo(p, m.bindingId, m.taskId, m.runId, m.messageId)
  }

  function ToReview(p: Parsed): Option<Policy.Review>
    requires p.ReviewReply?
  {
    if (p.decision.Revise? || p.decision.AskUser?) && (p.instruction.None? || p.instruction.value == "") then None
    else if exists f :: f in p.findings && f == "" then None
    else
      Some(Policy.Review(p.taskId, p.runId, p.decision, seq(|p.findings|, _ => Policy.Finding(None, false)),
                         if p.findings != [] then p.findings[0] else "Supervisor decision"))
  }

  // The review says what the reply said.
  predicate Conveys(p: Parsed, review: Policy.Review) {
    && p.ReviewReply?
    && review.decision == p.decision && review.taskId == p.taskId && review.runId == p.runId
    && |review.findings| == |p.findings|
    && (p.findings != [] ==> review.summary == p.findings[0])
  }

  // A reply makes a review, and that review, unless it asks for something without saying what or has an empty finding.
  lemma ReviewOfReply(p: Parsed)
    requires p.ReviewReply?
    ensures ToReview(p).None? <==>
      || (p.decision != Policy.Pass && (p.instruction == None || p.instruction == Some("")))
      || exists i :: 0 <= i < |p.findings| && p.findings[i] == ""
    ensures ToReview(p).Some? ==> Conveys(p, ToReview(p).value)
  {
    assert forall i :: 0 <= i < |p.findings| ==> p.findings[i] in p.findings;
  }

  // The first pending request for this very run, if an earlier process left one.
  function FirstRequest(pending: Entries, task: Id, run: Id): Option<Entry> {
    if pending == [] then None
    else if IsRequest(pending[0].message, task, run) then Some(pending[0])
    else FirstRequest(pending[1..], task, run)
  }

  lemma {:induction false} FirstRequestFound(pending: Entries, task: Id, run: Id)
    ensures match FirstRequest(pending, task, run)
            case Some(e) => e in pending && IsRequest(e.message, task, run)
            case None => forall e :: e in pending ==> !IsRequest(e.message, task, run)
  {
    if pending != [] && !IsRequest(pending[0].message, task, run) {
      FirstRequestFound(pending[1..], task, run);
    }
  }

  // The k-th new entry of an exchange: outbound and inbound alternate, each answers the one before.
  predicate Link(added: Entries, k: nat, b: Id, task: Id, run: Id, last: Kind)
    requires k < |added|
  {
    var m := added[k].message;
    && m.bindingId == b && m.taskId == task && m.runId == run
    && m.direction == (if k % 2 == 0 then Outbound else Inbound)
    && m.kind == (if k == 0 then ReviewRequest
                  else if k % 2 == 0 then ContextResponse
                  else if k == |added| - 1 then last
                  else ContextRequest)
    && (k > 0 ==> m.correlationId == Some(added[k - 1].message.messageId))
  }

  ghost predicate Chain(added: Entries, b: Id, task: Id, run: Id, last: Kind) {
    forall k :: 0 <= k < |added| ==> Link(added, k, b, task, run, last)
  }

  ghost predicate AllConsumed(l: Entries) {
    forall k :: 0 <= k < |l| ==> l[k].state.Consumed?
  }

  function OutboundIds(l: Entries): seq<Id> {
    if l == [] then []
    else
      OutboundIds(l[..|l| - 1])
      + (if l[|l| - 1].message.direction.Outbound? then [l[|l| - 1].message.messageId] else [])
  }

  lemma OutboundIdsNext(l: Entries, e: Entry)
    ensures OutboundIds(l + [e])
          == OutboundIds(l) + (if e.message.direction.Outbound? then [e.message.messageId] else [])
  {
  }

  lemma FreshSequence(l: Entries, m: Message)
    requires m.sequence == NextSequence(l, m.bindingId)
    ensures Lookup(l, m.messageId).Some? ==> Lookup(l, m.messageId).value.message != m
  {
    LookupFound(l, m.messageId);
    MaxSequenceBounds(l, m.bindingId);
  }

  lemma {:induction false} LookupLast(l: Entries, e: Entry)
    requires Lookup(l, e.message.messageId).None?
    ensures Lookup(l + [e], e.message.messageId) == Some(e)
    ensures forall s :: SetState(l + [e], e.message.messageId, s) == l + [e.(state := s)]
  {
    LookupFound(l, e.message.messageId);
    if l != [] {
      assert (l + [e])[1..] == l[1..] + [e];
      LookupLast(l[1..], e);
    }
  }

  lemma SetSame(l: Entries, id: Id)
    requires UniqueIds(l) && Lookup(l, id).Some?
    ensures forall s :: Lookup(SetState(l, id, s), id) == Some(Lookup(l, id).value.(state := s))
    ensures SetState(l, id, Lookup(l, id).value.state) == l
  {
    LookupFound(l, id);
    var k :| 0 <= k < |l| && l[k] == Lookup(l, id).value;
    forall s
      ensures Lookup(SetState(l, id, s), id) == Some(Lookup(l, id).value.(state := s))
    {
      SetTwice(l, id, s, s);
      LookupAt(SetState(l, id, s), k);
    }
  }

  // The two observations of a finished exchange move the outbound entry to RESPONDED and nothing else.
  lemma ExchangeReconciles(l: Entries, m: Message, inbound: Id, content: string)
    requires UniqueIds(l) && Lookup(l, m.messageId).Some? && Lookup(l, m.messageId).value.message == m
    requires var s := Lookup(l, m.messageId).value.state; s.Sent? || s.Observed? || s.Responded?
    ensures
      var os := [Observation(Request, m.messageId, m.bindingId, m.taskId, m.runId, None, ""),
                 Observation(Response, inbound, m.bindingId, m.taskId, m.runId, Some(m.messageId), content)];
      ReconcileLedger(l, m.bindingId, os) == SetState(l, m.messageId, Responded)
  {
    var os := [Observation(Request, m.messageId, m.bindingId, m.taskId, m.runId, None, ""),
               Observation(Response, inbound, m.bindingId, m.taskId, m.runId, Some(m.messageId), content)];
    LookupFound(l, m.messageId);
    var k :| 0 <= k < |l| && l[k] == Lookup(l, m.messageId).value;
    forall i | 0 <= i < |l|
      ensures ReconcileLedger(l, m.bindingId, os)[i] == SetState(l, m.messageId, Responded)[i]
    {
      FirstResponseFound(l[i].message, os);
      if i == k {
        assert os[1] in os && MatchesResponse(m, os[1]);
      }
    }
  }

  // The account of an exchange: the request it resumed, if any, consumed by now; the ledger without the entries
  // it added, and the page, as they were when it began; and the entries it added.
  datatype Exchange = Exchange(
    bindingId: Id, taskId: Id, runId: Id, resumed: Entries, base: Entries, given: seq<Id>, closed: Entries) {

    // Whole rounds are closed, and the last inbound message is of this kind.
    ghost predicate Rounds(last: Kind) {
      && |resumed + closed| % 2 == 0 && AllConsumed(closed)
      && Chain(resumed + closed, bindingId, taskId, runId, last)
    }

    predicate Concerns(m: Message) {
      m.bindingId == bindingId && m.taskId == taskId && m.runId == runId && m.direction.Outbound?
    }

    // One outbound message, recorded by this exchange, is on its way.
    ghost predicate Open(entries: Entries, delivered: seq<Id>, outbound: Message) {
      && entries == base + closed + [Entry(outbound, Sent)] && Lookup(base + closed, outbound.messageId).None?
      && Concerns(outbound) && Rounds(ContextRequest)
      && Link(resumed + closed + [Entry(outbound, Sent)], |resumed + closed|, bindingId, taskId, runId, ContextRequest)
      && delivered == given + OutboundIds(closed) + [outbound.messageId]
    }

    // The resumed request is on its way.
    ghost predicate Resuming(entries: Entries, delivered: seq<Id>, outbound: Message) {
      && closed == [] && resumed == [Entry(outbound, Consumed)]
      && base == SetState(entries, outbound.messageId, Consumed) && given == delivered
      && Concerns(outbound) && outbound.kind.ReviewRequest?
    }

    ghost predicate Awaiting(entries: Entries, delivered: seq<Id>, outbound: Message) {
      Open(entries, delivered, outbound) || Resuming(entries, delivered, outbound)
    }

    // The rounds so far are the whole account.
    ghost predicate Settled(entries: Entries, delivered: seq<Id>, last: Kind) {
      entries == base + closed && closed != [] && Rounds(last) && delivered == given + OutboundIds(closed)
    }

    lemma Begin(outbound: Message)
      requires closed == resumed == [] && Lookup(base, outbound.messageId).None?
      requires Concerns(outbound) && outbound.kind.ReviewRequest?
      ensures Open(base + [Entry(outbound, Sent)], given + [outbound.messageId], outbound)
    {
      assert base + closed == base;
      assert given + OutboundIds(closed) == given;
    }
  }

  datatype Round = Done(review: Policy.Review) | Failed(error: AdapterError) | Again(next: Message)

  // The inbound message that answers an outbound one.
  ghost predicate Replies(inbound: Message, outbound: Message, kind: Kind) {
    && inbound.bindingId == outbound.bindingId && inbound.taskId == outbound.taskId && inbound.runId == outbound.runId
    && inbound.direction.Inbound? && inbound.kind == kind && inbound.correlationId == Some(outbound.messageId)
  }

  // Two more consumed entries, or one that answers the resumed request, close a round.
  lemma ChainGrows(x: Exchange, outbound: Message, inbound: Message, last: Kind)
    requires x.Rounds(ContextRequest) && x.Concerns(outbound) && Replies(inbound, outbound, last)
    requires Link(x.resumed + x.closed + [Entry(outbound, Sent)], |x.resumed + x.closed|,
                  x.bindingId, x.taskId, x.runId, ContextRequest)
    ensures x.(closed := x.closed + [Entry(outbound, Consumed), Entry(inbound, Consumed)]).Rounds(last)
  {
    var all := x.resumed + x.closed;
    var added := all + [Entry(outbound, Consumed), Entry(inbound, Consumed)];
    assert x.resumed + (x.closed + [Entry(outbound, Consumed), Entry(inbound, Consumed)]) == added;
    forall k | 0 <= k < |added|
      ensures Link(added, k, x.bindingId, x.taskId, x.runId, last)
    {
      if k < |all| {
        assert Link(all, k, x.bindingId, x.taskId, x.runId, ContextRequest);
      }
    }
  }

  lemma CloseRound(x: Exchange, outbound: Message, inbound: Message, last: Kind) returns (x': Exchange)
    requires x.Rounds(ContextRequest) && x.Concerns(outbound) && Replies(inbound, outbound, last)
    requires Link(x.resumed + x.closed + [Entry(outbound, Sent)], |x.resumed + x.closed|,
                  x.bindingId, x.taskId, x.runId, ContextRequest)
    ensures x' == x.(closed := x.closed + [Entry(outbound, Consumed), Entry(inbound, Consumed)])
    ensures x.base + x.closed + [Entry(outbound, Consumed)] + [Entry(inbound, Consumed)] == x'.base + x'.closed
    ensures x'.Rounds(last)
    ensures x.given + OutboundIds(x.closed) + [outbound.messageId] == x'.given + OutboundIds(x'.closed)
  {
    ChainGrows(x, outbound, inbound, last);
    var half := x.closed + [Entry(outbound, Consumed)];
    x' := x.(closed := half + [Entry(inbound, Consumed)]);
    assert x'.closed == x.closed + [Entry(outbound, Consumed), Entry(inbound, Consumed)];
    OutboundIdsNext(x.closed, Entry(outbound, Consumed));
    OutboundIdsNext(half, Entry(inbound, Consumed));
  }

  lemma CloseResumed(x: Exchange, entries: Entries, delivered: seq<Id>, outbound: Message, inbound: Message, last: Kind)
    returns (x': Exchange)
    requires x.Resuming(entries, delivered, outbound) && Replies(inbound, outbound, last)
    ensures x' == x.(closed := [Entry(inbound, Consumed)])
    ensures x'.Settled(x.base + [Entry(inbound, Consumed)], delivered, last)
  {
    x' := x.(closed := [Entry(inbound, Consumed)]);
    OutboundIdsNext([], Entry(inbound, Consumed));
    assert [] + [Entry(inbound, Consumed)] == [Entry(inbound, Consumed)];
    var all := x.resumed + x'.closed;
    assert all == [Entry(outbound, Consumed), Entry(inbound, Consumed)];
    assert Chain(all, x.bindingId, x.taskId, x.runId, last);
  }

  // The request an exchange resumes, consumed by its end.
  function TakenUp(existing: Option<Entry>): Entries {
    match existing
    case None => []
    case Some(e) => [Entry(e.message, Consumed)]
  }

  // The message the last entry answers.
  function LastAsked(resumed: Entries, closed: Entries): Message
    requires |resumed + closed| >= 2
  {
    (resumed + closed)[|resumed + closed| - 2].message
  }

  // The last entry is a reply to the message before it, correlated in all respects, and the review says what it said.
  ghost predicate Concluded(ch: Channel, resumed: Entries, closed: Entries, review: Policy.Review) {
    && |resumed + closed| >= 2 && closed != []
    && var m, raw := LastAsked(resumed, closed), ch.answer(LastAsked(resumed, closed).messageId);
       && raw.Some? && Conveys(raw.value.parsed, review)
       && raw.value.parsed.bindingId == m.bindingId && raw.value.parsed.taskId == m.taskId
       && raw.value.parsed.runId == m.runId && raw.value.parsed.inReplyTo == m.messageId
       && raw.value.parsed.messageId == closed[|closed| - 1].message.messageId
  }

  // Consuming the waiting message and recording its answer closes a round.
  lemma Close(x: Exchange, entries: Entries, delivered: seq<Id>, outbound: Message, inbound: Message, kind: Kind)
    returns (x': Exchange)
    requires x.Awaiting(entries, delivered, outbound) && Replies(inbound, outbound, kind)
    ensures x' == x.(closed := x'.closed)
    ensures x'.Settled(SetState(entries, outbound.messageId, Consumed) + [Entry(inbound, Consumed)], delivered, kind)
    ensures x'.closed[|x'.closed| - 1] == Entry(inbound, Consumed)
    ensures LastAsked(x'.resumed, x'.closed) == outbound
  {
    if x.Open(entries, delivered, outbound) {
      LookupLast(x.base + x.closed, Entry(outbound, Sent));
      x' := CloseRound(x, outbound, inbound, kind);
    } else {
      x' := CloseResumed(x, entries, delivered, outbound, inbound, kind);
    }
  }

  // A context response opens the next round.
  lemma OpenRound(x: Exchange, next: Message)
    requires x.Rounds(ContextRequest) && x.closed != [] && Lookup(x.base + x.closed, next.messageId).None?
    requires x.Concerns(next) && next.kind.ContextResponse?
    requires next.correlationId == Some(x.closed[|x.closed| - 1].message.messageId)
    ensures x.Open(x.base + x.closed + [Entry(next, Sent)], x.given + OutboundIds(x.closed) + [next.messageId], next)
  {
  }

  // What the page has been given once this request is on its way.
  function GivenBy(existing: Entry, delivered: seq<Id>): seq<Id> {
    delivered + if existing.state.Pending? then [existing.message.messageId] else []
  }

  // The account of a review that came. A new request with k context rounds adds exactly k+1 outbound and k+1
  // inbound entries; a resumed one ends CONSUMED, is given to the page only if it had not been, and what is added
  // continues it. All are CONSUMED, each answers the one before, and the page is given exactly the outbound ones.
  ghost predicate Accounted(b: Id, task: Id, run: Id, existing: Option<Entry>, before: Entries, given: seq<Id>,
                            added: Entries, after: Entries, delivered: seq<Id>) {
    && AllConsumed(added)
    && match existing
       case None =>
         && |added| >= 2 && |added| % 2 == 0 && Chain(added, b, task, run, Kind.Review)
         && after == before + added && delivered == given + OutboundIds(added)
       case Some(e) =>
         && |added| % 2 == 1 && Chain([Entry(e.message, Consumed)] + added, b, task, run, Kind.Review)
         && after == SetState(before, e.message.messageId, Consumed) + added
         && delivered == GivenBy(e, given) + OutboundIds(added)
  }

  // The account as it is when the exchange begins.
  ghost predicate Begins(x: Exchange, existing: Option<Entry>, before: Entries, given: seq<Id>) {
    && x.resumed == TakenUp(existing) && x.closed == []
    && match existing
       case None => x.base == before && x.given == given
       case Some(e) => x.base == SetState(before, e.message.messageId, Consumed) && x.given == GivenBy(e, given)
  }

  lemma SettledAccounts(x: Exchange, existing: Option<Entry>, before: Entries, given: seq<Id>, after: Entries,
                        delivered: seq<Id>)
    requires x.Settled(after, delivered, Kind.Review) && Begins(x.(closed := []), existing, before, given)
    ensures Accounted(x.bindingId, x.taskId, x.runId, existing, before, given, x.closed, after, delivered)
  {
    if existing.None? { assert x.resumed + x.closed == x.closed; }
  }

  /* When a review comes */

  ghost function Ids(l: Entries): set<Id> {
    set i | 0 <= i < |l| :: l[i].message.messageId
  }

  lemma IdsLookup(l: Entries, id: Id)
    ensures Lookup(l, id).None? <==> id !in Ids(l)
  {
    LookupFound(l, id);
  }

  lemma IdsAppend(l: Entries, e: Entry)
    ensures Ids(l + [e]) == Ids(l) + {e.message.messageId}
  {
    assert forall i :: 0 <= i < |l| ==> (l + [e])[i] == l[i];
    assert (l + [e])[|l|] == e;
  }

  lemma IdsMoved(l: Entries, id: Id, state: MessageState)
    ensures Ids(SetState(l, id, state)) == Ids(l)
  {
    assert forall i :: 0 <= i < |l| ==> SetState(l, id, state)[i].message == l[i].message;
  }

  // A conversation, and where it stands: the ids on record, how many entries, and the message waiting for a reply.
  datatype Talk = Talk(channel: Channel, bindingId: Id, taskId: Id, runId: Id)

  datatype Spot = Spot(known: set<Id>, length: nat, waiting: Id)

  // The reply is well formed, correlated, and under an id not yet on record.
  ghost predicate Proper(t: Talk, at: Spot) {
    var raw := t.channel.answer(at.waiting);
    && raw.Some? && (raw.value.parsed.ReviewReply? || raw.value.parsed.ContextAsk?)
    && CorrelatedTo(raw.value.parsed, t.bindingId, t.taskId, t.runId, at.waiting)
    && raw.value.parsed.messageId !in at.known
  }

  // The broker answers the request, and the page takes the context response, under a new id.
  ghost predicate Responds(t: Talk, at: Spot, asked: Id) {
    var next := t.channel.newId(at.length + 1);
    t.channel.context(asked).Some? && next !in at.known && next != asked && t.channel.accepts(next)
  }

  function NextSpot(t: Talk, at: Spot, asked: Id): Spot {
    var next := t.channel.newId(at.length + 1);
    Spot(at.known + {asked, next}, at.length + 2, next)
  }

  // From here come k context requests, each of which can be answered, and then the review.
  ghost predicate Comes(t: Talk, at: Spot, k: nat, review: Policy.Review)
    decreases k
  {
    && Proper(t, at)
    && var parsed := t.channel.answer(at.waiting).value.parsed;
       if k == 0 then parsed.ReviewReply? && ToReview(parsed) == Some(review)
       else
         && parsed.ContextAsk? && Responds(t, at, parsed.messageId)
         && Comes(t, NextSpot(t, at, parsed.messageId), k - 1, review)
  }

  ghost predicate Arrives(t: Talk, at: Spot, patience: nat, review: Policy.Review) {
    exists k: nat :: k < patience && Comes(t, at, k, review)
  }

  // The reviews that come within so many replies; there is at most one.
  datatype Future = Future(reviews: iset<Policy.Review>)

  ghost function Coming(t: Talk, at: Spot, patience: nat): Future {
    Future(iset review | Arrives(t, at, patience, review))
  }

  ghost function Came(review: Option<Policy.Review>): Future {
    Future(if review.Some? then iset{review.value} else iset{})
  }

  lemma OutOfPatience(t: Talk, at: Spot)
    ensures Coming(t, at, 0) == Came(None)
  {
  }

  // Why a round fails. Only a transport that fails, when waited for or sent through, makes the supervisor unavailable.
  function Refusal(t: Talk, at: Spot): AdapterError {
    var raw := t.channel.answer(at.waiting);
    if raw.None? then SupervisorUnavailable
    else
      var p := raw.value.parsed;
      if !p.ReviewReply? && !p.ContextAsk? then InvalidReply
      else if !CorrelatedTo(p, t.bindingId, t.taskId, t.runId, at.waiting) then CorrelationMismatch
      else if p.messageId in at.known then ConflictingMessage
      else if p.ReviewReply? then InvalidReview
      else if t.channel.context(p.messageId).None? then ContextFailed
      else
        var next := t.channel.newId(at.length + 1);
        if next in at.known || next == p.messageId then ConflictingMessage else SupervisorUnavailable
  }

  // What one reply makes of a round: the review, another round after the context response, or neither.
  ghost predicate Outcome(t: Talk, at: Spot, r: Round, after: Spot) {
    (r.Failed? ==> r.error == Refusal(t, at)) &&
    if !Proper(t, at) then r.Failed?
    else
      var parsed := t.channel.answer(at.waiting).value.parsed;
      if parsed.ReviewReply? then
        !r.Again? && ToReview(parsed) == if r.Done? then Some(r.review) else None
      else
        && !r.Done?
        && (r.Again? <==> Responds(t, at, parsed.messageId))
        && (r.Again? ==> after == NextSpot(t, at, parsed.messageId))
  }

  lemma OutcomeArrives(t: Talk, at: Spot, left: nat, r: Round, after: Spot, review: Policy.Review)
    requires Outcome(t, at, r, after)
    ensures Arrives(t, at, left + 1, review) <==> r == Done(review) || (r.Again? && Arrives(t, after, left, review))
  {
    if Arrives(t, at, left + 1, review) {
      var k: nat :| k < left + 1 && Comes(t, at, k, review);
      if k > 0 { assert Comes(t, after, k - 1, review); }
    }
    if r == Done(review) { assert Comes(t, at, 0, review); }
    if r.Again? && Arrives(t, after, left, review) {
      var k: nat :| k < left && Comes(t, after, k, review);
      assert Comes(t, at, k + 1, review);
    }
  }

  // Once the request is on record, the next id need only be new to what is on record then.
  lemma HalfRound(t: Talk, at: Spot, asked: Id, half: Spot)
    requires half == Spot(at.known + {asked}, at.length + 1, at.waiting)
    ensures
      var next := t.channel.newId(half.length);
      && (Responds(t, at, asked) <==> t.channel.context(asked).Some? && next !in half.known && t.channel.accepts(next))
      && NextSpot(t, at, asked) == Spot(half.known + {next}, half.length + 1, next)
      && (Proper(t, at) && t.channel.answer(at.waiting).value.parsed.ContextAsk?
          && t.channel.answer(at.waiting).value.parsed.messageId == asked ==>
            Refusal(t, at) == if t.channel.context(asked).None? then ContextFailed
                              else if next in half.known then ConflictingMessage else SupervisorUnavailable)
  {
  }

  lemma RoundTaken(t: Talk, at: Spot, left: nat, r: Round, after: Spot)
    requires Outcome(t, at, r, after)
    ensures Coming(t, at, left + 1) == match r
                                       case Done(review) => Came(Some(review))
                                       case Failed(_) => Came(None)
                                       case Again(_) => Coming(t, after, left)
  {
    forall review
      ensures Arrives(t, at, left + 1, review) <==> r == Done(review) || (r.Again? && Arrives(t, after, left, review))
    {
      OutcomeArrives(t, at, left, r, after, review);
    }
  }

  // A context response opens the next round.
  lemma Reopen(x: Exchange, entries: Entries, delivered: seq<Id>, asked: Message, next: Message)
    requires x.Settled(entries, delivered, ContextRequest) && x.closed[|x.closed| - 1] == Entry(asked, Consumed)
    requires x.Concerns(next) && next.kind.ContextResponse? && next.correlationId == Some(asked.messageId)
    requires Lookup(entries, next.messageId).None?
    ensures x.Open(entries + [Entry(next, Sent)], delivered + [next.messageId], next)
  {
    OpenRound(x, next);
  }

  class ChatGPTSupervisorAdapter {
    const bindingId: Id
    const channel: Channel
    const ledger: MessageLedger
    const reconciler: ConversationReconciler
    var drawn: nat   // how many refs context brokers have ever drawn
    // The machine this process drives: where it began, what it did, where it is.
    ghost var start: Wire
    ghost var actions: seq<Action>
    ghost var wire: Wire

    // A process begins with whatever ledger and page its predecessors left.
    constructor (bindingId: Id, channel: Channel, ledger: MessageLedger, drawn: nat, ghost delivered: seq<Id>)
      requires Sound(Wire(ledger.entries, delivered, Idle)) && Ideal(channel)
      requires AllHashed(channel, ledger.entries, drawn)
      ensures Valid() && this.bindingId == bindingId && this.channel == channel && this.ledger == ledger
      ensures start == wire == Wire(ledger.entries, delivered, Idle) && this.drawn == drawn
    {
      this.bindingId, this.channel, this.ledger, this.drawn := bindingId, channel, ledger, drawn;
      reconciler := new ConversationReconciler(ledger);
      start, actions, wire := Wire(ledger.entries, delivered, Idle), [], Wire(ledger.entries, delivered, Idle);
    }

    ghost predicate Traced()
      reads this
    {
      && Sound(start) && Legal(start, actions) && After(start, actions) == wire && Sound(wire)
      && AllHashed(channel, wire.entries, drawn)
    }

    ghost predicate Valid()
      reads this, ledger
    {
      Traced() && reconciler.ledger == ledger && wire.entries == ledger.entries
    }

    ghost method Note(a: Action)
      requires Traced() && reconciler.ledger == ledger && Enabled(wire, a) && Do(wire, a).entries == ledger.entries
      requires a.Record? && a.message.kind.ReviewRequest? ==> HashedBy(channel, a.message, drawn)
      modifies this`actions, this`wire
      ensures Valid() && wire == Do(old(wire), a) && actions == old(actions) + [a]
    {
      LegalSingle(wire, a);
      LegalAppend(start, actions, [a]);
      DoSound(wire, a);
      DoHashed(channel, wire, a, drawn);
      actions := actions + [a];
      wire := Do(wire, a);
    }

    // Steps that record nothing.
    ghost method NoteAll(steps: seq<Action>)
      requires Traced() && reconciler.ledger == ledger && Legal(wire, steps)
      requires After(wire, steps).entries == ledger.entries && |ledger.entries| == |wire.entries|
      modifies this`actions, this`wire
      ensures Valid() && wire == After(old(wire), steps) && actions == old(actions) + steps
    {
      LegalAppend(start, actions, steps);
      RunSound(wire, steps);
      MessagesImmutable(wire, steps);
      actions := actions + steps;
      wire := After(wire, steps);
    }

    // Claim, hand over, confirm; a failed hand-over puts the claim back.
    method SendPending(id: Id) returns (sent: bool)
      requires Valid() && wire.hand.Idle?
      requires Lookup(ledger.entries, id).Some? && Lookup(ledger.entries, id).value.state.Pending?
      modifies this`actions, this`wire, ledger
      ensures Valid() && wire.hand.Idle? && old(actions) <= actions
      ensures sent ==>
        ledger.entries == SetState(old(ledger.entries), id, Sent) && wire.delivered == old(wire.delivered) + [id]
      ensures !sent ==> ledger.entries == old(ledger.entries) && wire.delivered == old(wire.delivered)
      ensures sent <==> channel.accepts(id)
    {
      ghost var l := ledger.entries;
      SetSame(l, id);
      var moved := ledger.Transition(id, Claimed);
      Note(Claim(id));
      SetTwice(l, id, Claimed, Sent);
      SetTwice(l, id, Claimed, Pending);
      sent := channel.accepts(id);
      ConcludeSending(id, sent);
    }

    // Confirm the hand-over or take the claim back.
    method ConcludeSending(id: Id, sent: bool)
      requires Valid() && wire.hand == Claiming(id)
      modifies this`actions, this`wire, ledger
      ensures Valid() && wire.hand.Idle? && old(actions) <= actions
      ensures ledger.entries == SetState(old(ledger.entries), id, if sent then Sent else Pending)
      ensures wire.delivered == if sent then old(wire.delivered) + [id] else old(wire.delivered)
    {
      HandIsClaimed(wire);
      if sent {
        Note(Deliver);
        var moved := ledger.Transition(id, Sent);
        Note(Confirm);
      } else {
        Note(Refuse);
        var moved := ledger.Transition(id, Pending);
        Note(Unclaim);
      }
    }

    // Close one exchange: the outbound entry ends CONSUMED and the inbound message is recorded.
    method ConsumeExchange(outbound: Message, inbound: Id, content: string, kind: Kind)
      returns (r: Result<Message, AdapterError>)
      requires Valid() && wire.hand.Idle? && outbound.bindingId == bindingId
      requires Lookup(ledger.entries, outbound.messageId).Some?
      requires var e := Lookup(ledger.entries, outbound.messageId).value;
               e.message == outbound && (e.state.Sent? || e.state.Observed? || e.state.Responded?)
      modifies this`actions, this`wire, ledger
      ensures Valid() && wire.hand.Idle? && old(actions) <= actions && wire.delivered == old(wire.delivered)
      ensures r.Ok? ==>
        && r.value == Message(inbound, bindingId, outbound.taskId, outbound.runId, kind, Inbound, r.value.sequence,
                              Some(outbound.messageId), channel.textHash(content))
        && ledger.entries == SetState(old(ledger.entries), outbound.messageId, Consumed) + [Entry(r.value, Consumed)]
      ensures r.Err? ==> r.error.ConflictingMessage?
      ensures r.Ok? <==> inbound !in Ids(old(ledger.entries))
    {
      ghost var l, id := ledger.entries, outbound.messageId;
      IdsMoved(l, id, Consumed);
      ReconcileExchange(outbound, inbound, content);
      SetSame(l, id);
      SetTwice(l, id, Responded, Consumed);
      var state := ledger.Get(outbound.messageId);
      var responded := state.Some? && state.value.state.Responded?;
      var already := state.Some? && state.value.state.Consumed?;
      if responded {
        var moved := ledger.Transition(outbound.messageId, Consumed);
        Note(Progress(id, Consumed));
      } else if !already {
        return Err(DidNotReconcile);
      }
      r := RecordReply(outbound, inbound, content, kind);
    }

    // The start of consumeExchange: reconcile with what the page showed.
    method ReconcileExchange(outbound: Message, inbound: Id, content: string)
      requires Valid() && wire.hand.Idle? && outbound.bindingId == bindingId
      requires Lookup(ledger.entries, outbound.messageId).Some?
      requires var e := Lookup(ledger.entries, outbound.messageId).value;
               e.message == outbound && (e.state.Sent? || e.state.Observed? || e.state.Responded?)
      modifies this`actions, this`wire, ledger
      ensures Valid() && wire.hand.Idle? && old(actions) <= actions && wire.delivered == old(wire.delivered)
      ensures ledger.entries == SetState(old(ledger.entries), outbound.messageId, Responded)
    {
      var os := [Observation(Request, outbound.messageId, outbound.bindingId, outbound.taskId, outbound.runId,
                             None, ""),
                 Observation(Response, inbound, outbound.bindingId, outbound.taskId, outbound.runId,
                             Some(outbound.messageId), content)];
      ExchangeReconciles(ledger.entries, outbound, inbound, content);
      var responses;
      ghost var steps;
      responses, steps := reconciler.Reconcile(bindingId, os, wire);
      NoteAll(steps);
    }

    // The end of consumeExchange: record the inbound message.
    method RecordReply(outbound: Message, inbound: Id, content: string, kind: Kind)
      returns (r: Result<Message, AdapterError>)
      requires Valid() && wire.hand.Idle? && outbound.bindingId == bindingId
      modifies this`actions, this`wire, ledger
      ensures Valid() && wire.hand.Idle? && old(actions) <= actions && wire.delivered == old(wire.delivered)
      ensures r.Ok? ==>
        && r.value == Message(inbound, bindingId, outbound.taskId, outbound.runId, kind, Inbound, r.value.sequence,
                              Some(outbound.messageId), channel.textHash(content))
        && ledger.entries == old(ledger.entries) + [Entry(r.value, Consumed)]
      ensures r.Err? ==> r.error.ConflictingMessage?
      ensures r.Ok? <==> inbound !in Ids(old(ledger.entries))
    {
      IdsLookup(ledger.entries, inbound);
      var sequence := ledger.NextSequenceForBinding(bindingId);
      var message := Message(inbound, outbound.bindingId, outbound.taskId, outbound.runId, kind, Inbound, sequence,
                             Some(outbound.messageId), channel.textHash(content));
      FreshSequence(ledger.entries, message);
      var recorded := ledger.RecordInboundConsumed(message);
      if recorded.Err? { return Err(ConflictingMessage); }
      Note(Receive(message));
      return Ok(message);
    }

    // Record a new outbound message and send it.
    method RecordAndSend(message: Message) returns (r: Result<Message, AdapterError>)
      requires Valid() && wire.hand.Idle? && message.direction.Outbound?
      requires message.sequence == NextSequence(ledger.entries, message.bindingId) && Unasked(ledger.entries, message)
      requires message.kind.ReviewRequest? ==> HashedBy(channel, message, drawn)
      modifies this`actions, this`wire, ledger
      ensures Valid() && wire.hand.Idle? && old(actions) <= actions
      ensures r.Ok? ==>
        && r.value == message && ledger.entries == old(ledger.entries) + [Entry(message, Sent)]
        && Lookup(old(ledger.entries), message.messageId).None?
        && wire.delivered == old(wire.delivered) + [message.messageId]
      ensures r.Err? ==>
        r.error == if message.messageId in Ids(old(ledger.entries)) then ConflictingMessage else SupervisorUnavailable
      ensures r.Ok? <==> message.messageId !in Ids(old(ledger.entries)) && channel.accepts(message.messageId)
    {
      FreshSequence(ledger.entries, message);
      IdsLookup(ledger.entries, message.messageId);
      ghost var l := ledger.entries;
      var appended := ledger.Append(message);
      if appended.Err? { return Err(ConflictingMessage); }
      Note(Record(message));
      LookupLast(l, Entry(message, Pending));
      var sent := SendPending(message.messageId);
      return if sent then Ok(message) else Err(SupervisorUnavailable);
    }

    // Answer a context request; the payload is the broker's and only its hash matters here.
    method RespondToContextRequest(request: Message) returns (r: Result<Message, AdapterError>)
      requires Valid() && wire.hand.Idle? && request.bindingId == bindingId
      modifies this`actions, this`wire, ledger
      ensures Valid() && wire.hand.Idle? && old(actions) <= actions
      ensures r.Ok? ==>
        && r.value.bindingId == bindingId && r.value.taskId == request.taskId && r.value.runId == request.runId
        && r.value.kind.ContextResponse? && r.value.direction.Outbound?
        && r.value.correlationId == Some(request.messageId)
        && ledger.entries == old(ledger.entries) + [Entry(r.value, Sent)]
        && Lookup(old(ledger.entries), r.value.messageId).None?
        && wire.delivered == old(wire.delivered) + [r.value.messageId]
      ensures r.Err? ==>
        r.error == if channel.context(request.messageId).None? then ContextFailed
                   else if channel.newId(|old(ledger.entries)|) in Ids(old(ledger.entries)) then ConflictingMessage
                   else SupervisorUnavailable
      ensures r == Err(ContextFailed) <==> channel.context(request.messageId).None?
      ensures r.Ok? <==>
        && channel.context(request.messageId).Some?
        && channel.newId(|old(ledger.entries)|) !in Ids(old(ledger.entries))
        && channel.accepts(channel.newId(|old(ledger.entries)|))
      ensures r.Ok? ==> r.value.messageId == channel.newId(|old(ledger.entries)|)
      ensures r == Err(ContextFailed) ==> ledger.entries == old(ledger.entries) && wire == old(wire)
    {
      var payload := channel.context(request.messageId);
      if payload.None? { return Err(ContextFailed); }
      var id := channel.newId(|ledger.entries|);
      var sequence := ledger.NextSequenceForBinding(bindingId);
      var hash := channel.contextHash(id, sequence, request.messageId, payload.value);
      r := RecordAndSend(Message(id, request.bindingId, request.taskId, request.runId, ContextResponse, Outbound,
                                 sequence, Some(request.messageId), hash));
    }

    // An outbound message of this binding that the page has and no review has closed.
    ghost predicate Underway(outbound: Message)
      reads this, ledger
    {
      && Valid() && wire.hand.Idle? && outbound.bindingId == bindingId
      && Lookup(ledger.entries, outbound.messageId).Some?
      && var e := Lookup(ledger.entries, outbound.messageId).value;
         e.message == outbound && (e.state.Sent? || e.state.Observed? || e.state.Responded?)
    }

    // Consume the exchange, keeping the account.
    method CloseExchange(outbound: Message, inbound: Id, content: string, kind: Kind, ghost x: Exchange)
      returns (r: Result<Message, AdapterError>, ghost x': Exchange)
      requires Underway(outbound) && x.bindingId == bindingId && x.Awaiting(ledger.entries, wire.delivered, outbound)
      modifies this`actions, this`wire, ledger
      ensures Valid() && wire.hand.Idle? && old(actions) <= actions
      ensures r.Err? ==> r.error.ConflictingMessage?
      ensures r.Ok? <==> inbound !in Ids(old(ledger.entries))
      ensures r.Ok? ==>
        && r.value.messageId == inbound && |ledger.entries| == |old(ledger.entries)| + 1
        && Ids(ledger.entries) == Ids(old(ledger.entries)) + {inbound}
      ensures r.Ok? ==>
        && Replies(r.value, outbound, kind)
        && x' == x.(closed := x'.closed) && x'.Settled(ledger.entries, wire.delivered, kind)
        && x'.closed[|x'.closed| - 1] == Entry(r.value, Consumed)
        && |x'.resumed + x'.closed| >= 2 && LastAsked(x'.resumed, x'.closed) == outbound
    {
      ghost var entries, delivered := ledger.entries, wire.delivered;
      r := ConsumeExchange(outbound, inbound, content, kind);
      x' := x;
      if r.Ok? {
        IdsMoved(entries, outbound.messageId, Consumed);
        IdsAppend(SetState(entries, outbound.messageId, Consumed), Entry(r.value, Consumed));
        x' := Close(x, entries, delivered, outbound, r.value, kind);
      }
    }

    function TalkOf(m: Message): Talk {
      Talk(channel, bindingId, m.taskId, m.runId)
    }

    // Where the conversation stands while m waits for its reply.
    ghost function Waiting(m: Message): Spot
      reads ledger
    {
      Spot(Ids(ledger.entries), |ledger.entries|, m.messageId)
    }

    // A review ends the exchange.
    method FinishRound(outbound: Message, reply: Reply, ghost x: Exchange) returns (r: Round, ghost x': Exchange)
      requires Underway(outbound) && x.bindingId == bindingId && x.Awaiting(ledger.entries, wire.delivered, outbound)
      requires channel.answer(outbound.messageId) == Some(reply)
      requires reply.parsed.ReviewReply? && Correlated(reply.parsed, outbound)
      modifies this`actions, this`wire, ledger
      ensures Valid() && wire.hand.Idle? && old(actions) <= actions
      ensures r.Failed? ==> r.error.ConflictingMessage? || r.error.InvalidReview?
      ensures !r.Again?
      ensures Outcome(TalkOf(outbound), old(Waiting(outbound)), r, Waiting(outbound))
      ensures r.Done? ==> r.review.taskId == outbound.taskId && r.review.runId == outbound.runId
      ensures r.Done? ==> x' == x.(closed := x'.closed) && x'.Settled(ledger.entries, wire.delivered, Kind.Review)
      ensures r.Done? ==> Concluded(channel, x'.resumed, x'.closed, r.review)
    {
      ReviewOfReply(reply.parsed);
      var consumed;
      consumed, x' := CloseExchange(outbound, reply.parsed.messageId, reply.content, Kind.Review, x);
      if consumed.Err? { return Failed(consumed.error), x; }
      var review := ToReview(reply.parsed);
      if review.None? { return Failed(InvalidReview), x; }
      return Done(review.value), x';
    }

    // A context request is answered, and the exchange goes on.
    method AnswerRound(outbound: Message, reply: Reply, ghost x: Exchange) returns (r: Round, ghost x': Exchange)
      requires Underway(outbound) && x.bindingId == bindingId && x.Awaiting(ledger.entries, wire.delivered, outbound)
      requires channel.answer(outbound.messageId) == Some(reply)
      requires reply.parsed.ContextAsk? && Correlated(reply.parsed, outbound)
      modifies this`actions, this`wire, ledger
      ensures Valid() && wire.hand.Idle? && old(actions) <= actions
      ensures !r.Done?
      ensures Outcome(TalkOf(outbound), old(Waiting(outbound)), r, Waiting(if r.Again? then r.next else outbound))
      ensures r.Again? ==>
        && Underway(r.next) && r.next.taskId == outbound.taskId && r.next.runId == outbound.runId
        && x' == x.(closed := x'.closed) && x'.Open(ledger.entries, wire.delivered, r.next)
    {
      var consumed;
      consumed, x' := CloseExchange(outbound, reply.parsed.messageId, reply.content, ContextRequest, x);
      if consumed.Err? { return Failed(consumed.error), x; }
      ghost var talk, at, half := TalkOf(outbound), old(Waiting(outbound)), Waiting(outbound);
      r := OpenNextRound(consumed.value, x');
      HalfRound(talk, at, reply.parsed.messageId, half);
    }

    // Send the response, which the next reply answers.
    method OpenNextRound(asked: Message, ghost x: Exchange) returns (r: Round)
      requires Valid() && wire.hand.Idle? && asked.bindingId == bindingId == x.bindingId
      requires asked.taskId == x.taskId && asked.runId == x.runId
      requires x.Settled(ledger.entries, wire.delivered, ContextRequest)
      requires x.closed[|x.closed| - 1] == Entry(asked, Consumed)
      modifies this`actions, this`wire, ledger
      ensures Valid() && wire.hand.Idle? && old(actions) <= actions
      ensures !r.Done?
      ensures r.Failed? ==>
        r.error == if channel.context(asked.messageId).None? then ContextFailed
                   else if channel.newId(|old(ledger.entries)|) in Ids(old(ledger.entries)) then ConflictingMessage
                   else SupervisorUnavailable
      ensures
        var next := channel.newId(|old(ledger.entries)|);
        && (r.Again? <==>
              channel.context(asked.messageId).Some? && next !in Ids(old(ledger.entries)) && channel.accepts(next))
        && (r.Again? ==>
              && Underway(r.next) && r.next.taskId == asked.taskId && r.next.runId == asked.runId
              && x.Open(ledger.entries, wire.delivered, r.next)
              && Waiting(r.next) == Spot(Ids(old(ledger.entries)) + {next}, |old(ledger.entries)| + 1, next))
    {
      ghost var rest, delivered := ledger.entries, wire.delivered;
      var next := RespondToContextRequest(asked);
      if next.Err? { return Failed(next.error); }
      LookupLast(rest, Entry(next.value, Sent));
      Reopen(x, rest, delivered, asked, next.value);
      IdsAppend(rest, Entry(next.value, Sent));
      return Again(next.value);
    }

    // Wait for one reply, consume the exchange, and either finish or answer a context request.
    method TakeRound(outbound: Message, ghost left: nat, ghost future: Future, ghost x: Exchange)
      returns (r: Round, ghost x': Exchange)
      requires Underway(outbound) && x.bindingId == bindingId && x.Awaiting(ledger.entries, wire.delivered, outbound)
      requires Coming(TalkOf(outbound), Waiting(outbound), left + 1) == future
      modifies this`actions, this`wire, ledger
      ensures Valid() && wire.hand.Idle? && old(actions) <= actions
      ensures r.Failed? ==> r.error == Refusal(TalkOf(outbound), old(Waiting(outbound)))
      ensures r.Failed? ==> !r.error.DidNotReconcile? && !r.error.AmbiguousClaim? && !r.error.PayloadMismatch?
      ensures r.Done? ==> r.review.taskId == outbound.taskId && r.review.runId == outbound.runId
      ensures !r.Failed? ==> x' == x.(closed := x'.closed)
      ensures r.Done? ==> x'.Settled(ledger.entries, wire.delivered, Kind.Review)
      ensures r.Done? ==> Concluded(channel, x'.resumed, x'.closed, r.review)
      ensures r.Again? ==> Underway(r.next) && x'.Awaiting(ledger.entries, wire.delivered, r.next)
      ensures r.Again? ==> r.next.taskId == outbound.taskId && r.next.runId == outbound.runId
      ensures match r
              case Done(review) => future == Came(Some(review))
              case Failed(_) => future == Came(None)
              case Again(next) => Coming(TalkOf(outbound), Waiting(next), left) == future
    {
      ghost var at := Waiting(outbound);
      x' := x;
      var raw := channel.answer(outbound.messageId);
      if raw.None? {
        r := Failed(SupervisorUnavailable);
      } else if raw.value.parsed.NotJson? || raw.value.parsed.Malformed? {
        r := Failed(InvalidReply);
      } else if !Correlated(raw.value.parsed, outbound) {
        r := Failed(CorrelationMismatch);
      } else if raw.value.parsed.ReviewReply? {
        r, x' := FinishRound(outbound, raw.value, x);
      } else {
        r, x' := AnswerRound(outbound, raw.value, x);
      }
      RoundTaken(TalkOf(outbound), at, left, r, Waiting(if r.Again? then r.next else outbound));
    }

    // Rounds until a review comes. `patience` is how many replies the transport yields before it fails.
    method ReviewLoop(initial: Message, patience: nat, ghost x: Exchange)
      returns (r: Result<Policy.Review, AdapterError>, ghost x': Exchange)
      requires Underway(initial) && x.bindingId == bindingId && x.Awaiting(ledger.entries, wire.delivered, initial)
      modifies this`actions, this`wire, ledger
      ensures Valid() && wire.hand.Idle? && old(actions) <= actions
      ensures r.Err? ==> !r.error.DidNotReconcile? && !r.error.AmbiguousClaim? && !r.error.PayloadMismatch?
      ensures r.Ok? ==> r.value.taskId == initial.taskId && r.value.runId == initial.runId
      ensures r.Ok? ==> x' == x.(closed := x'.closed) && x'.Settled(ledger.entries, wire.delivered, Kind.Review)
      ensures r.Ok? ==> Concluded(channel, x'.resumed, x'.closed, r.value)
      ensures Came(if r.Ok? then Some(r.value) else None) == Coming(TalkOf(initial), old(Waiting(initial)), patience)
    {
      ghost var left, future := patience, Coming(TalkOf(initial), Waiting(initial), patience);
      var outbound := initial;
      x' := x;
      for round := 0 to patience
        invariant Underway(outbound) && old(actions) <= actions
        invariant outbound.taskId == initial.taskId && outbound.runId == initial.runId
        invariant x' == x.(closed := x'.closed) && x'.Awaiting(ledger.entries, wire.delivered, outbound)
        invariant left == patience - round && Coming(TalkOf(initial), Waiting(outbound), left) == future
      {
        left := left - 1;
        var taken;
        taken, x' := TakeRound(outbound, left, future, x');
        match taken {
          case Done(review) => return Ok(review), x';
          case Failed(error) => return Err(error), x';
          case Again(next) => outbound := next;
        }
      }
      OutOfPatience(TalkOf(initial), Waiting(outbound));
      return Err(SupervisorUnavailable), x';
    }

    // The first pending request for this very run, before the call.
    ghost function Existing(task: Id, run: Id): Option<Entry>
      reads this, ledger
    {
      FirstRequest(FindPending(ledger.entries, bindingId), task, run)
    }

    // Where the conversation stands once a call has its request on its way, if it comes to that, as decided before it.
    ghost function FirstSpot(task: Id, run: Id, evidence: seq<string>): Option<Spot>
      reads this, ledger
    {
      var l := ledger.entries;
      match Existing(task, run)
      case None =>
        var id := channel.newId(|l|);
        if id in Ids(l) || !channel.accepts(id) then None else Some(Spot(Ids(l) + {id}, |l| + 1, id))
      case Some(e) =>
        if evidence != [] || !Bare(channel, e.message) || e.state.Claimed? then None
        else if e.state.Pending? && !channel.accepts(e.message.messageId) then None
        else Some(Spot(Ids(l), |l|, e.message.messageId))
    }

    // The review that comes of a call.
    ghost function ReviewComing(task: Id, run: Id, evidence: seq<string>, patience: nat): Future
      reads this, ledger
    {
      var first := FirstSpot(task, run, evidence);
      if first.None? then Came(None) else Coming(Talk(channel, bindingId, task, run), first.value, patience)
    }

    // `evidence` is what the context broker finds to offer; [] also stands for no broker.
    method RequestReview(task: Id, run: Id, evidence: seq<string>, patience: nat)
      returns (r: Result<Policy.Review, AdapterError>, ghost added: Entries)
      requires Valid() && wire.hand.Idle? && Ideal(channel)
      modifies this`drawn, this`actions, this`wire, ledger
      ensures Valid() && wire.hand.Idle? && old(actions) <= actions && drawn == old(drawn) + |evidence|
      ensures r.Err? ==> !r.error.DidNotReconcile?
      ensures r.Ok? ==> r.value.taskId == task && r.value.runId == run
      ensures r.Ok? ==>
        Accounted(bindingId, task, run, old(Existing(task, run)), old(ledger.entries), old(wire.delivered), added,
                  ledger.entries, wire.delivered)
      ensures Came(if r.Ok? then Some(r.value) else None) == old(ReviewComing(task, run, evidence, patience))
      // The review is what the last reply said, and that reply answers the last message of this exchange.
      ensures r.Ok? ==> Concluded(channel, TakenUp(old(Existing(task, run))), added, r.value)
      // A request found open is refused exactly when there was evidence at its time or is some now, or when it was
      // left CLAIMED; then nothing happens.
      ensures r == Err(PayloadMismatch) <==>
        old(Existing(task, run)).Some? && !(evidence == [] && Bare(channel, old(Existing(task, run)).value.message))
      ensures r == Err(AmbiguousClaim) <==>
        && old(Existing(task, run)).Some? && evidence == [] && Bare(channel, old(Existing(task, run)).value.message)
        && old(Existing(task, run)).value.state.Claimed?
      ensures r == Err(PayloadMismatch) || r == Err(AmbiguousClaim) ==>
        ledger.entries == old(ledger.entries) && wire == old(wire)
    {
      ghost var existing := Existing(task, run);
      added := [];
      var begun;
      ghost var x;
      begun, x := EnterExchange(task, run, evidence);
      if begun.Err? { return Err(begun.error), []; }
      r, x := ReviewLoop(begun.value, patience, x);
      added := x.closed;
      if r.Ok? {
        SettledAccounts(x, existing, old(ledger.entries), old(wire.delivered), ledger.entries, wire.delivered);
      }
    }

    // The first half of requestReview: take up the open request for this run, or begin one.
    method EnterExchange(task: Id, run: Id, evidence: seq<string>)
      returns (r: Result<Message, AdapterError>, ghost x: Exchange)
      requires Valid() && wire.hand.Idle? && Ideal(channel)
      modifies this`drawn, this`actions, this`wire, ledger
      ensures Valid() && wire.hand.Idle? && old(actions) <= actions && drawn == old(drawn) + |evidence|
      ensures r == Err(PayloadMismatch) <==>
        old(Existing(task, run)).Some? && !(evidence == [] && Bare(channel, old(Existing(task, run)).value.message))
      ensures r == Err(AmbiguousClaim) <==>
        && old(Existing(task, run)).Some? && evidence == [] && Bare(channel, old(Existing(task, run)).value.message)
        && old(Existing(task, run)).value.state.Claimed?
      ensures r == Err(PayloadMismatch) || r == Err(AmbiguousClaim) ==>
        ledger.entries == old(ledger.entries) && wire == old(wire)
      ensures r.Err? ==> !r.error.DidNotReconcile?
      ensures r.Ok? <==> old(FirstSpot(task, run, evidence)).Some?
      ensures r.Ok? ==>
        && Underway(r.value) && r.value.taskId == task && r.value.runId == run
        && x.Awaiting(ledger.entries, wire.delivered, r.value)
        && Begins(x, old(Existing(task, run)), old(ledger.entries), old(wire.delivered))
        && x.bindingId == bindingId && x.taskId == task && x.runId == run
        && Waiting(r.value) == old(FirstSpot(task, run, evidence)).value
    {
      x := Exchange(bindingId, task, run, [], [], [], []);
      var pending := ledger.FindPendingForBinding(bindingId);
      var existing := FirstRequest(pending, task, run);
      FirstRequestFound(pending, task, run);
      FindPendingElements(ledger.entries, bindingId);
      var manifest := CreateManifest(evidence, existing);
      if existing.Some? {
        var e := existing.value;
        var hash := channel.requestHash(PayloadOf(e.message, manifest));
        if e.message.payloadHash != hash {
          r := Err(PayloadMismatch);
        } else if e.state.Claimed? {
          r := Err(AmbiguousClaim);
        } else {
          r, x := ResumeRequest(e);
        }
      } else {
        r, x := BeginRequest(task, run, manifest);
      }
    }

    // Every piece of evidence draws a ref, so the payload of an open request matches only if there is none.
    method CreateManifest(evidence: seq<string>, ghost open: Option<Entry>) returns (manifest: Manifest)
      requires Valid() && Ideal(channel)
      requires open.Some? ==>
        open.value in ledger.entries && open.value.message.kind.ReviewRequest? && open.value.message.direction.Outbound?
      modifies this`drawn
      ensures Valid() && drawn == old(drawn) + |evidence| && CreatedBy(channel, manifest, drawn)
      ensures open.Some? ==>
        (open.value.message.payloadHash == channel.requestHash(PayloadOf(open.value.message, manifest))
         <==> evidence == [] && Bare(channel, open.value.message))
    {
      manifest := Registered(channel, drawn, evidence);
      if open.Some? {
        ghost var k :| 0 <= k < |ledger.entries| && ledger.entries[k] == open.value;
        PayloadMatches(channel, open.value.message, drawn, evidence);
      }
      MoreDrawn(channel, wire.entries, drawn, drawn + |evidence|);
      drawn := drawn + |evidence|;
    }

    // Record and send a request nobody began before.
    method BeginRequest(task: Id, run: Id, manifest: Manifest)
      returns (r: Result<Message, AdapterError>, ghost x: Exchange)
      requires Valid() && wire.hand.Idle? && CreatedBy(channel, manifest, drawn)
      requires forall e :: e in ledger.entries ==> !Wanted(e, bindingId, task, run)
      modifies this`actions, this`wire, ledger
      ensures Valid() && wire.hand.Idle? && old(actions) <= actions
      ensures r.Err? ==> r.error.ConflictingMessage? || r.error.SupervisorUnavailable?
      ensures
        var id := channel.newId(|old(ledger.entries)|);
        && (r.Ok? <==> id !in Ids(old(ledger.entries)) && channel.accepts(id))
        && (r.Ok? ==>
              && r.value.messageId == id && |ledger.entries| == |old(ledger.entries)| + 1
              && Ids(ledger.entries) == Ids(old(ledger.entries)) + {id})
      ensures r.Ok? ==>
        && Underway(r.value) && r.value.taskId == task && r.value.runId == run
        && x == Exchange(bindingId, task, run, [], old(ledger.entries), old(wire.delivered), [])
        && x.Awaiting(ledger.entries, wire.delivered, r.value)
    {
      x := Exchange(bindingId, task, run, [], ledger.entries, wire.delivered, []);
      var id := channel.newId(|ledger.entries|);
      var sequence := ledger.NextSequenceForBinding(bindingId);
      var hash := channel.requestHash(Payload(id, sequence, bindingId, task, run, manifest));
      var message := Message(id, bindingId, task, run, ReviewRequest, Outbound, sequence, None, hash);
      assert message.payloadHash == channel.requestHash(PayloadOf(message, manifest));
      r := RecordAndSend(message);
      if r.Ok? {
        LookupLast(x.base, Entry(r.value, Sent));
        IdsAppend(x.base, Entry(r.value, Sent));
        x.Begin(r.value);
      }
    }

    // Take up a request of an earlier process, and send it if that one did not.
    method ResumeRequest(existing: Entry) returns (r: Result<Message, AdapterError>, ghost x: Exchange)
      requires Valid() && wire.hand.Idle? && existing in ledger.entries
      requires existing.message.bindingId == bindingId && !existing.state.Claimed? && !existing.state.Consumed?
      requires existing.message.kind.ReviewRequest? && existing.message.direction.Outbound?
      modifies this`actions, this`wire, ledger
      ensures Valid() && wire.hand.Idle? && old(actions) <= actions
      ensures r.Err? ==> r.error.SupervisorUnavailable?
      ensures r.Ok? <==> (existing.state.Pending? ==> channel.accepts(existing.message.messageId))
      ensures |ledger.entries| == |old(ledger.entries)| && Ids(ledger.entries) == Ids(old(ledger.entries))
      ensures r.Ok? ==>
        && r.value == existing.message && Underway(r.value)
        && x == Exchange(bindingId, r.value.taskId, r.value.runId, [Entry(r.value, Consumed)],
                         SetState(old(ledger.entries), r.value.messageId, Consumed),
                         GivenBy(existing, old(wire.delivered)), [])
        && x.Awaiting(ledger.entries, wire.delivered, r.value)
    {
      ghost var id, l := existing.message.messageId, ledger.entries;
      ghost var k :| 0 <= k < |l| && l[k] == existing;
      LookupAt(l, k);
      SetSame(l, id);
      SetTwice(l, id, Sent, Consumed);
      IdsMoved(l, id, Sent);
      r := Ok(existing.message);
      if existing.state.Pending? {
        var sent := SendPending(existing.message.messageId);
        if !sent { r := Err(SupervisorUnavailable); }
      }
      x := Exchange(bindingId, existing.message.taskId, existing.message.runId, [Entry(existing.message, Consumed)],
                    SetState(l, id, Consumed), wire.delivered, []);
    }
  }
}
