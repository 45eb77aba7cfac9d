// The context broker: scoped evidence, chunked delivery under two byte budgets, single-use continuations.
module ContextBrokers {
  import opened Wrappers
  import opened Utf

  datatype Scope = Scope(bindingId: string, taskId: string, runId: string)

  type Capability = string

  datatype Evidence = Evidence(scope: Scope, capability: Capability, content: Text)

  datatype Continuation = Continuation(scope: Scope, capability: Capability, remaining: Text, expiresAt: int)

  datatype Response = Response(capability: Capability, content: Text, truncated: bool, continuation: Option<nat>)

  datatype ContextError =
    | RefNotFound | ScopeMismatch | BudgetExceeded | ContinuationInvalid | PolicyViolation | Unsupported

  // A query's outcome comes from the workspace, which is not modelled.
  datatype Selector =
    | ByRef(ref: nat)
    | ByContinuation(token: nat)
    | ByQuery(capability: Capability, found: Result<Text, ContextError>)

  // The constructor refuses budgets that are not positive and floors the rest, so zero is possible.
  datatype Limits = Limits(response: nat, cycle: nat, ttl: int)

  type Answered = Result<Response, ContextError>

  // Refs and tokens are drawn from one supply of fresh ids.
  datatype State = State(
    scopes: set<Scope>,
    refs: map<nat, Evidence>,
    continuations: map<nat, Continuation>,
    usage: map<Scope, nat>,
    nextId: nat)

  function Used(s: State, scope: Scope): nat {
    if scope in s.usage then s.usage[scope] else 0
  }

  function Min(a: nat, b: nat): nat {
    if a < b then a else b
  }

  // A prefix of whole characters within the budget, and the rest; None when not one character fits.
  function Split(content: Text, budget: nat): (r: Option<(Text, Text)>)
    ensures r.Some? ==>
      var (head, tail) := r.value;
      && content == head + tail && Boundary(content, |head|) && ByteLength(head) <= budget
      && (tail != [] ==> head != [])
    ensures r.None? <==> content != [] && CharSize(content) > budget
  {
    CutLongest(content, budget);
    BoundaryEnd(content);
    if ByteLength(content) <= budget then Some((content, []))
    else if Cut(content, budget) == 0 then None
    else Some((content[..Cut(content, budget)], content[Cut(content, budget)..]))
  }

  // Charge the head to its scope and hold the tail, if any, behind a new token.
  function HandOver(k: Limits, s: State, scope: Scope, capability: Capability, head: Text, tail: Text,
                    now: int): (Response, State) {
    var s' := s.(usage := s.usage[scope := Used(s, scope) + ByteLength(head)]);
    if tail == [] then (Response(capability, head, false, None), s')
    else
      (Response(capability, head, true, Some(s.nextId)),
       s'.(continuations := s.continuations[s.nextId := Continuation(scope, capability, tail, now + k.ttl)],
           nextId := s.nextId + 1))
  }

  function Deliver(k: Limits, s: State, scope: Scope, capability: Capability, content: Text,
                   now: int): (Answered, State) {
    var used := Used(s, scope);
    if k.cycle <= used then (Err(BudgetExceeded), s)
    else
      match Split(content, Min(k.response, k.cycle - used))
      case None => (Err(BudgetExceeded), s)
      case Some((head, tail)) =>
        var (response, s') := HandOver(k, s, scope, capability, head, tail, now);
        (Ok(response), s')
  }

  function Forget(s: State, token: nat): State {
    s.(continuations := s.continuations - {token})
  }

  function FetchRef(k: Limits, s: State, scope: Scope, ref: nat, now: int): (Answered, State) {
    if ref !in s.refs then (Err(RefNotFound), s)
    else if s.refs[ref].scope != scope then (Err(ScopeMismatch), s)
    else Deliver(k, s, scope, s.refs[ref].capability, s.refs[ref].content, now)
  }

  // The token is spent before the delivery is tried.
  function FetchContinuation(k: Limits, s: State, scope: Scope, token: nat, now: int): (Answered, State) {
    if token !in s.continuations then (Err(ContinuationInvalid), s)
    else
      var c := s.continuations[token];
      if c.scope != scope then (Err(ScopeMismatch), s)
      else if c.expiresAt <= now then (Err(ContinuationInvalid), Forget(s, token))
      else Deliver(k, Forget(s, token), scope, c.capability, c.remaining, now)
  }

  function Fetch(k: Limits, s: State, scope: Scope, selector: Selector, now: int): (Answered, State) {
    if scope !in s.scopes then (Err(ScopeMismatch), s)
    else
      match selector
      case ByRef(ref) => FetchRef(k, s, scope, ref, now)
      case ByContinuation(token) => FetchContinuation(k, s, scope, token, now)
      case ByQuery(capability, found) =>
        if found.Err? then (Err(found.error), s) else Deliver(k, s, scope, capability, found.value, now)
  }

  function Register(s: State, scope: Scope, capability: Capability, content: Text): State {
    s.(scopes := s.scopes + {scope}, refs := s.refs[s.nextId := Evidence(scope, capability, content)],
       nextId := s.nextId + 1)
  }

  class ContextBroker {
    const limits: Limits
    var scopes: set<Scope>
    var refs: map<nat, Evidence>
    var continuations: map<nat, Continuation>
    var usage: map<Scope, nat>
    var nextId: nat

    constructor (limits: Limits)
      ensures this.limits == limits && Contents() == NEW_BROKER.state
    {
      this.limits := limits;
      scopes, refs, continuations, usage, nextId := {}, map[], map[], map[], 0;
    }

    ghost function Contents(): State
      reads this
    {
      State(scopes, refs, continuations, usage, nextId)
    }

    // createManifest, one item of evidence at a time.
    method RegisterScope(scope: Scope)
      modifies this
      ensures Contents() == old(Contents()).(scopes := old(scopes) + {scope})
    {
      scopes := scopes + {scope};
    }

    method RegisterEvidence(scope: Scope, capability: Capability, content: Text) returns (ref: nat)
      modifies this
      ensures old(scope in scopes) ==> Contents() == Register(old(Contents()), scope, capability, content)
      ensures ref == old(nextId)
    {
      ref := nextId;
      refs := refs[ref := Evidence(scope, capability, content)];
      nextId := nextId + 1;
      assert scope in scopes ==> scopes + {scope} == scopes;
    }

    method DeliverContent(scope: Scope, capability: Capability, content: Text, now: int) returns (r: Answered)
      modifies this
      ensures (r, Contents()) == Deliver(limits, old(Contents()), scope, capability, content, now)
    {
      var used := if scope in usage then usage[scope] else 0;
      var remainingCycle := limits.cycle - used;
      if remainingCycle <= 0 { return Err(BudgetExceeded); }
      var budget := if limits.response < remainingCycle then limits.response else remainingCycle;
      var split := SplitUtf8(content, budget);
      if split.None? { return Err(BudgetExceeded); }
      var (head, tail) := split.value;
      var response := Respond(scope, capability, head, tail, now);
      return Ok(response);
    }

    // The second half of #deliver.
    method Respond(scope: Scope, capability: Capability, head: Text, tail: Text, now: int) returns (r: Response)
      modifies this
      ensures (r, Contents()) == HandOver(limits, old(Contents()), scope, capability, head, tail, now)
    {
      var used := if scope in usage then usage[scope] else 0;
      usage := usage[scope := used + ByteLength(head)];
      var continuation := None;
      if |tail| > 0 {
        continuation := Some(nextId);
        continuations := continuations[nextId := Continuation(scope, capability, tail, now + limits.ttl)];
        nextId := nextId + 1;
      }
      return Response(capability, head, |tail| > 0, continuation);
    }

    method FetchByRef(scope: Scope, ref: nat, now: int) returns (r: Answered)
      modifies this
      ensures (r, Contents()) == FetchRef(limits, old(Contents()), scope, ref, now)
    {
      if ref !in refs { return Err(RefNotFound); }
      var record := refs[ref];
      if record.scope != scope { return Err(ScopeMismatch); }
      r := DeliverContent(scope, record.capability, record.content, now);
    }

    method FetchByContinuation(scope: Scope, token: nat, now: int) returns (r: Answered)
      modifies this
      ensures (r, Contents()) == FetchContinuation(limits, old(Contents()), scope, token, now)
    {
      if token !in continuations { return Err(ContinuationInvalid); }
      var record := continuations[token];
      if record.scope != scope { return Err(ScopeMismatch); }
      continuations := continuations - {token};
      if record.expiresAt <= now { return Err(ContinuationInvalid); }
      r := DeliverContent(scope, record.capability, record.remaining, now);
    }

    method FetchContext(scope: Scope, selector: Selector, now: int) returns (r: Answered)
      modifies this
      ensures (r, Contents()) == Fetch(limits, old(Contents()), scope, selector, now)
    {
      if scope !in scopes { return Err(ScopeMismatch); }
      match selector {
        case ByRef(ref) => r := FetchByRef(scope, ref, now);
        case ByContinuation(token) => r := FetchByContinuation(scope, token, now);
        case ByQuery(capability, found) =>
          if found.Err? { return Err(found.error); }
          r := DeliverContent(scope, capability, found.value, now);
      }
    }
  }

  /* Whole runs */

  datatype Request =
    | Announce(scope: Scope, capability: Capability, content: Text)
    | Ask(scope: Scope, selector: Selector, now: int)

  // A delivered chunk: the content it is part of, what had gone before it, and itself.
  datatype Chunk = Chunk(scope: Scope, original: Text, before: Text, head: Text, last: bool)

  // The broker with everything it has delivered, and where each live token's content came from.
  datatype History = History(state: State, chunks: seq<Chunk>, trails: map<nat, Chunk>)

  // The content a request draws on, and what of it was delivered earlier.
  function Source(h: History, scope: Scope, selector: Selector): (Text, Text) {
    match selector
    case ByRef(ref) => (if ref in h.state.refs then h.state.refs[ref].content else [], [])
    case ByContinuation(token) =>
      if token in h.trails then (h.trails[token].original, h.trails[token].before + h.trails[token].head) else ([], [])
    case ByQuery(_, found) => (if found.Ok? then found.value else [], [])
  }

  // The history after one more chunk.
  function Extended(h: History, s: State, chunk: Chunk, r: Response): History {
    History(s, h.chunks + [chunk], if r.continuation.Some? then h.trails[r.continuation.value := chunk] else h.trails)
  }

  function Serve(k: Limits, h: History, request: Request): History {
    match request
    case Announce(scope, capability, content) => h.(state := Register(h.state, scope, capability, content))
    case Ask(scope, selector, now) =>
      var (answer, s) := Fetch(k, h.state, scope, selector, now);
      if answer.Err? then h.(state := s)
      else
        var (original, before) := Source(h, scope, selector);
        var chunk := Chunk(scope, original, before, answer.value.content, answer.value.continuation.None?);
        Extended(h, s, chunk, answer.value)
  }

  function ServeAll(k: Limits, h: History, requests: seq<Request>): History
    decreases |requests|
  {
    if requests == [] then h else ServeAll(k, Serve(k, h, requests[0]), requests[1..])
  }

  function Spent(chunks: seq<Chunk>, scope: Scope): nat {
    if chunks == [] then 0
    else
      Spent(chunks[..|chunks| - 1], scope)
      + (if chunks[|chunks| - 1].scope == scope then ByteLength(chunks[|chunks| - 1].head) else 0)
  }

  // Delivered so far, plus what is still held back, is the original content, cut between characters.
  predicate Conserves(chunk: Chunk, remaining: Text) {
    && chunk.original == chunk.before + chunk.head + remaining
    && Boundary(chunk.original, |chunk.before|)
    && Boundary(chunk.original, |chunk.before| + |chunk.head|)
  }

  // In bytes: the encodings of the three pieces, in order, are the encoding of the original.
  lemma ConservesBytes(chunk: Chunk, remaining: Text)
    requires Conserves(chunk, remaining)
    ensures Encode(chunk.original) == Encode(chunk.before) + Encode(chunk.head) + Encode(remaining)
  {
    var t, i, j := chunk.original, |chunk.before|, |chunk.before| + |chunk.head|;
    CutAtBoundary(t, j);
    assert t[..j] == chunk.before + chunk.head && t[j..] == remaining;
    BoundaryOfPrefix(t, i, j);
    CutAtBoundary(t[..j], i);
    assert t[..j][..i] == chunk.before && t[..j][i..] == chunk.head;
  }

  ghost predicate Trailed(h: History) {
    forall t :: t in h.state.continuations ==>
      t in h.trails && Conserves(h.trails[t], h.state.continuations[t].remaining)
  }

  ghost predicate Metered(k: Limits, h: History) {
    forall scope :: Used(h.state, scope) == Spent(h.chunks, scope) <= k.cycle
  }

  ghost predicate Intact(k: Limits, h: History) {
    && (forall t :: t in h.state.continuations ==> t < h.state.nextId)
    && Trailed(h)
    && (forall i :: 0 <= i < |h.chunks| && h.chunks[i].last ==> Conserves(h.chunks[i], []))
    && (forall i :: 0 <= i < |h.chunks| ==> ByteLength(h.chunks[i].head) <= k.response)
    && Metered(k, h)
  }

  // A broker that has served nothing.
  const NEW_BROKER := History(State({}, map[], map[], map[], 0), [], map[])

  lemma NewIntact(k: Limits)
    ensures Intact(k, NEW_BROKER)
  {
  }

  // What a successful delivery does: a whole-character prefix goes out within both budgets, and the rest,
  // if any, waits under a fresh token.
  ghost predicate Delivers(k: Limits, s: State, scope: Scope, capability: Capability, tail: Text, now: int,
                           r: Response, s': State) {
    && ByteLength(r.content) <= k.response && Used(s, scope) + ByteLength(r.content) <= k.cycle
    && s'.usage == s.usage[scope := Used(s, scope) + ByteLength(r.content)]
    && s'.scopes == s.scopes && s'.refs == s.refs
    && (if tail == [] then
          && r.continuation == None && !r.truncated
          && s'.continuations == s.continuations && s'.nextId == s.nextId
        else
          && r.content != [] && r.truncated
          && r.continuation == Some(s.nextId) && s'.nextId == s.nextId + 1
          && s'.continuations == s.continuations[s.nextId := Continuation(scope, capability, tail, now + k.ttl)])
  }

  lemma HandOverDelivers(k: Limits, s: State, scope: Scope, capability: Capability, head: Text, tail: Text, now: int)
    requires ByteLength(head) <= k.response && Used(s, scope) + ByteLength(head) <= k.cycle
    requires tail != [] ==> head != []
    ensures
      var (r, s') := HandOver(k, s, scope, capability, head, tail, now);
      r.content == head && Delivers(k, s, scope, capability, tail, now, r, s')
  {
  }

  lemma DeliverSplits(k: Limits, s: State, scope: Scope, capability: Capability, content: Text, now: int)
    returns (tail: Text)
    ensures
      var (answer, s') := Deliver(k, s, scope, capability, content, now);
      && (answer.Err? ==> s' == s && answer.error == BudgetExceeded)
      && (answer.Ok? ==>
            && content == answer.value.content + tail && Boundary(content, |answer.value.content|)
            && Delivers(k, s, scope, capability, tail, now, answer.value, s'))
  {
    tail := [];
    if Used(s, scope) < k.cycle {
      match Split(content, Min(k.response, k.cycle - Used(s, scope))) {
        case None =>
        case Some((head, rest)) =>
          HandOverDelivers(k, s, scope, capability, head, rest, now);
          tail := rest;
      }
    }
  }

  lemma SpentNext(chunks: seq<Chunk>, c: Chunk, scope: Scope)
    ensures Spent(chunks + [c], scope) == Spent(chunks, scope) + if c.scope == scope then ByteLength(c.head) else 0
  {
  }

  lemma DeliverMetered(k: Limits, h: History, scope: Scope, capability: Capability, tail: Text, now: int, r: Response,
                       s: State, chunk: Chunk)
    requires Metered(k, h) && Delivers(k, h.state, scope, capability, tail, now, r, s)
    requires chunk.scope == scope && chunk.head == r.content
    ensures Metered(k, Extended(h, s, chunk, r))
  {
    forall other: Scope
      ensures Used(s, other) == Spent(h.chunks + [chunk], other) <= k.cycle
    {
      SpentNext(h.chunks, chunk, other);
      assert Used(h.state, other) == Spent(h.chunks, other) <= k.cycle;
    }
  }

  lemma DeliverTrailed(k: Limits, h: History, scope: Scope, capability: Capability, tail: Text, now: int, r: Response,
                       s: State, chunk: Chunk)
    requires Trailed(h) && Delivers(k, h.state, scope, capability, tail, now, r, s) && Conserves(chunk, tail)
    requires forall t :: t in h.state.continuations ==> t < h.state.nextId
    ensures Trailed(Extended(h, s, chunk, r))
  {
  }

  lemma HeadConserves(chunk: Chunk, tail: Text)
    requires chunk.original == chunk.before + (chunk.head + tail) && Boundary(chunk.original, |chunk.before|)
    requires Boundary(chunk.head + tail, |chunk.head|)
    ensures Conserves(chunk, tail)
  {
    Suffix(chunk.before, chunk.head + tail);
    Assoc(chunk.before, chunk.head, tail);
    BoundaryCompose(chunk.original, |chunk.before|, |chunk.head|);
  }

  lemma ExtendIntact(k: Limits, h: History, scope: Scope, capability: Capability, tail: Text, now: int, r: Response,
                     s: State, chunk: Chunk)
    requires Intact(k, h) && Delivers(k, h.state, scope, capability, tail, now, r, s) && Conserves(chunk, tail)
    requires chunk.scope == scope && chunk.head == r.content && chunk.last == r.continuation.None?
    ensures Intact(k, Extended(h, s, chunk, r))
  {
    DeliverMetered(k, h, scope, capability, tail, now, r, s, chunk);
    DeliverTrailed(k, h, scope, capability, tail, now, r, s, chunk);
  }

  // Delivering `content`, of whose original `before` has gone out, keeps a history intact.
  lemma DeliverIntact(k: Limits, h: History, scope: Scope, capability: Capability, original: Text, before: Text,
                      content: Text, now: int)
    requires Intact(k, h) && original == before + content && Boundary(original, |before|)
    ensures
      var (answer, s) := Deliver(k, h.state, scope, capability, content, now);
      answer.Ok? ==>
        var chunk := Chunk(scope, original, before, answer.value.content, answer.value.continuation.None?);
        Intact(k, Extended(h, s, chunk, answer.value))
  {
    var (answer, s) := Deliver(k, h.state, scope, capability, content, now);
    var tail := DeliverSplits(k, h.state, scope, capability, content, now);
    if answer.Ok? {
      var chunk := Chunk(scope, original, before, answer.value.content, answer.value.continuation.None?);
      HeadConserves(chunk, tail);
      ExtendIntact(k, h, scope, capability, tail, now, answer.value, s, chunk);
    }
  }

  lemma ForgetIntact(k: Limits, h: History, token: nat)
    requires Intact(k, h)
    ensures Intact(k, h.(state := Forget(h.state, token)))
  {
  }

  lemma RegisterIntact(k: Limits, h: History, scope: Scope, capability: Capability, content: Text)
    requires Intact(k, h)
    ensures Intact(k, h.(state := Register(h.state, scope, capability, content)))
  {
  }

  // What remains when a fetch fails for lack of budget could not have been delivered later either.
  predicate Unaffordable(k: Limits, s: State, scope: Scope, content: Text) {
    || k.cycle <= Used(s, scope)
    || (content != [] && CharSize(content) > Min(k.response, k.cycle - Used(s, scope)))
  }

  lemma DeliverFailsExactly(k: Limits, s: State, scope: Scope, capability: Capability, content: Text, now: int)
    ensures
      var (answer, s') := Deliver(k, s, scope, capability, content, now);
      && (answer.Err? <==> Unaffordable(k, s, scope, content))
      && (answer.Err? ==> answer.error.BudgetExceeded? && s' == s)
  {
  }

  lemma ServeRef(k: Limits, h: History, scope: Scope, ref: nat, now: int)
    requires Intact(k, h) && scope in h.state.scopes
    ensures Intact(k, Serve(k, h, Ask(scope, ByRef(ref), now)))
  {
    if ref in h.state.refs && h.state.refs[ref].scope == scope {
      var content := h.state.refs[ref].content;
      assert [] + content == content;
      DeliverIntact(k, h, scope, h.state.refs[ref].capability, content, [], content, now);
      var _ := DeliverSplits(k, h.state, scope, h.state.refs[ref].capability, content, now);
    }
  }

  // Serving a live token delivers what it holds, from a state that has forgotten it.
  lemma ServeToken(k: Limits, h: History, scope: Scope, token: nat, now: int)
    requires scope in h.state.scopes && token in h.state.continuations && token in h.trails
    requires h.state.continuations[token].scope == scope && now < h.state.continuations[token].expiresAt
    ensures
      var c, t := h.state.continuations[token], h.trails[token];
      var h' := h.(state := Forget(h.state, token));
      var (answer, s) := Deliver(k, h'.state, scope, c.capability, c.remaining, now);
      Serve(k, h, Ask(scope, ByContinuation(token), now)) ==
        if answer.Err? then h'.(state := s)
        else
          var r := answer.value;
          Extended(h', s, Chunk(scope, t.original, t.before + t.head, r.content, r.continuation.None?), r)
  {
  }

  lemma ServeContinuation(k: Limits, h: History, scope: Scope, token: nat, now: int)
    requires Intact(k, h) && scope in h.state.scopes
    ensures Intact(k, Serve(k, h, Ask(scope, ByContinuation(token), now)))
  {
    ForgetIntact(k, h, token);
    if token in h.state.continuations {
      ContinueIntact(k, h, token);
      var c, t := h.state.continuations[token], h.trails[token];
      if c.scope == scope && now < c.expiresAt {
        var h' := h.(state := Forget(h.state, token));
        ServeToken(k, h, scope, token, now);
        DeliverIntact(k, h', scope, c.capability, t.original, t.before + t.head, c.remaining, now);
        DeliverFailsExactly(k, h'.state, scope, c.capability, c.remaining, now);
      }
    }
  }

  lemma ServeQuery(k: Limits, h: History, scope: Scope, capability: Capability, content: Text, now: int)
    requires Intact(k, h) && scope in h.state.scopes
    ensures Intact(k, Serve(k, h, Ask(scope, ByQuery(capability, Ok(content)), now)))
  {
    assert [] + content == content;
    DeliverIntact(k, h, scope, capability, content, [], content, now);
    var _ := DeliverSplits(k, h.state, scope, capability, content, now);
  }

  lemma ServeIntact(k: Limits, h: History, request: Request)
    requires Intact(k, h)
    ensures Intact(k, Serve(k, h, request))
  {
    match request {
      case Announce(scope, capability, content) => RegisterIntact(k, h, scope, capability, content);
      case Ask(scope, selector, now) =>
        if scope in h.state.scopes {
          match selector {
            case ByRef(ref) => ServeRef(k, h, scope, ref, now);
            case ByContinuation(token) => ServeContinuation(k, h, scope, token, now);
            case ByQuery(capability, found) =>
              if found.Ok? { ServeQuery(k, h, scope, capability, found.value, now); }
          }
        }
    }
  }

  // A live token picks up exactly where its chunk stopped.
  lemma ContinueIntact(k: Limits, h: History, token: nat)
    requires Intact(k, h) && token in h.state.continuations
    ensures token in h.trails
    ensures
      var t := h.trails[token];
      && t.original == (t.before + t.head) + h.state.continuations[token].remaining
      && Boundary(t.original, |t.before + t.head|)
  {
  }

  // Over any interleaving of requests: every live token completes its content, every final chunk has completed
  // it, no chunk exceeds the response budget, and each scope has used exactly the bytes it was given, never
  // more than the cycle budget.
  lemma {:induction false} ContentConserved(k: Limits, h: History, requests: seq<Request>)
    requires Intact(k, h)
    ensures Intact(k, ServeAll(k, h, requests))
    decreases |requests|
  {
    if requests != [] {
      ServeIntact(k, h, requests[0]);
      ContentConserved(k, Serve(k, h, requests[0]), requests[1..]);
    }
  }

  /* Who is answered what */

  // A fetch by reference delivers if and only if the asker is registered, the evidence was registered under that very
  // scope, and the scope's budget holds some of it.
  lemma RefExactly(k: Limits, s: State, scope: Scope, ref: nat, now: int)
    ensures
      var (answer, s') := Fetch(k, s, scope, ByRef(ref), now);
      && (answer.Ok? <==>
            && scope in s.scopes && ref in s.refs && s.refs[ref].scope == scope
            && !Unaffordable(k, s, scope, s.refs[ref].content))
      && (answer.Ok? ==>
          answer.value.capability == s.refs[ref].capability && answer.value.content <= s.refs[ref].content)
      && (answer.Err? ==>
            && s' == s
            && answer.error == if scope !in s.scopes then ScopeMismatch
                               else if ref !in s.refs then RefNotFound
                               else if s.refs[ref].scope != scope then ScopeMismatch
                               else BudgetExceeded)
  {
    if ref in s.refs {
      DeliverFailsExactly(k, s, scope, s.refs[ref].capability, s.refs[ref].content, now);
      var _ := DeliverSplits(k, s, scope, s.refs[ref].capability, s.refs[ref].content, now);
    }
  }

  // A fetch by token delivers if and only if the asker is registered, the token is live, was given to that very
  // scope and has not expired, and the scope's budget holds some of what it holds.
  lemma TokenExactly(k: Limits, s: State, scope: Scope, token: nat, now: int)
    ensures
      var (answer, s') := Fetch(k, s, scope, ByContinuation(token), now);
      var mine := scope in s.scopes && token in s.continuations && s.continuations[token].scope == scope;
      && (answer.Ok? <==>
            && mine && now < s.continuations[token].expiresAt
            && !Unaffordable(k, s, scope, s.continuations[token].remaining))
      && (answer.Ok? ==>
            && answer.value.capability == s.continuations[token].capability
            && answer.value.content <= s.continuations[token].remaining)
      && (answer.Err? ==>
            && s' == (if mine then s.(continuations := s.continuations - {token}) else s)
            && answer.error == if scope !in s.scopes then ScopeMismatch
                               else if token !in s.continuations then ContinuationInvalid
                               else if s.continuations[token].scope != scope then ScopeMismatch
                               else if s.continuations[token].expiresAt <= now then ContinuationInvalid
                               else BudgetExceeded)
  {
    if token in s.continuations {
      var c := s.continuations[token];
      DeliverFailsExactly(k, Forget(s, token), scope, c.capability, c.remaining, now);
      var _ := DeliverSplits(k, Forget(s, token), scope, c.capability, c.remaining, now);
    }
  }

  // A query delivers if and only if the asker is registered, the workspace found something, and the budget holds some
  // of it.
  lemma QueryExactly(k: Limits, s: State, scope: Scope, capability: Capability, found: Result<Text, ContextError>,
                     now: int)
    ensures
      var (answer, s') := Fetch(k, s, scope, ByQuery(capability, found), now);
      && (answer.Ok? <==> scope in s.scopes && found.Ok? && !Unaffordable(k, s, scope, found.value))
      && (answer.Ok? ==> answer.value.capability == capability && answer.value.content <= found.value)
      && (answer.Err? ==>
            && s' == s
            && answer.error == if scope !in s.scopes then ScopeMismatch
                               else if found.Err? then found.error
                               else BudgetExceeded)
  {
    if found.Ok? {
      DeliverFailsExactly(k, s, scope, capability, found.value, now);
      var _ := DeliverSplits(k, s, scope, capability, found.value, now);
    }
  }

  // Evidence announced under a scope can be fetched by that scope, and by no other.
  lemma AnnouncedExactly(k: Limits, s: State, scope: Scope, capability: Capability, content: Text, asker: Scope,
                         now: int)
    ensures
      var s' := Register(s, scope, capability, content);
      && (Fetch(k, s', asker, ByRef(s.nextId), now).0.Ok? <==> asker == scope && !Unaffordable(k, s, scope, content))
      && forall ref :: ref in s.refs && ref != s.nextId ==> ref in s'.refs && s'.refs[ref] == s.refs[ref]
  {
    RefExactly(k, Register(s, scope, capability, content), asker, s.nextId, now);
  }

  /* Whose evidence is delivered to whom */

  // This request is where a scope has the content from: evidence announced under it, or its own query.
  predicate Provides(request: Request, scope: Scope, content: Text) {
    match request
    case Announce(announced, _, evidence) => announced == scope && evidence == content
    case Ask(asker, ByQuery(_, Ok(found)), _) => asker == scope && found == content
    case _ => false
  }

  ghost predicate Provided(past: seq<Request>, scope: Scope, content: Text) {
    exists request :: request in past && Provides(request, scope, content)
  }

  // A chunk is a piece of content its scope was provided with.
  ghost predicate Owned(past: seq<Request>, chunk: Chunk) {
    chunk.before + chunk.head <= chunk.original && Provided(past, chunk.scope, chunk.original)
  }

  // Everything delivered, and everything held, belongs to the scope it is delivered to or held for.
  ghost predicate Separate(past: seq<Request>, h: History) {
    && (forall i :: 0 <= i < |h.chunks| ==> Owned(past, h.chunks[i]))
    && (forall ref :: ref in h.state.refs ==> Provided(past, h.state.refs[ref].scope, h.state.refs[ref].content))
    && (forall t :: t in h.state.continuations ==>
          && t < h.state.nextId && t in h.trails && Owned(past, h.trails[t])
          && h.trails[t].scope == h.state.continuations[t].scope
          && h.trails[t].original == h.trails[t].before + h.trails[t].head + h.state.continuations[t].remaining)
  }

  lemma MoreProvided(past: seq<Request>, request: Request, scope: Scope, content: Text)
    requires Provided(past, scope, content) || Provides(request, scope, content)
    ensures Provided(past + [request], scope, content)
  {
    if Provided(past, scope, content) {
      var r :| r in past && Provides(r, scope, content);
      assert r in past + [request];
    } else {
      assert request in past + [request];
    }
  }

  lemma MoreSeparate(past: seq<Request>, h: History, request: Request)
    requires Separate(past, h)
    ensures Separate(past + [request], h)
  {
    forall scope, content | Provided(past, scope, content)
      ensures Provided(past + [request], scope, content)
    {
      MoreProvided(past, request, scope, content);
    }
  }

  lemma DeliverSeparate(k: Limits, past: seq<Request>, h: History, scope: Scope, capability: Capability, original: Text,
                        before: Text, content: Text, now: int)
    requires Separate(past, h) && original == before + content && Provided(past, scope, original)
    ensures
      var (answer, s) := Deliver(k, h.state, scope, capability, content, now);
      answer.Ok? ==>
        var chunk := Chunk(scope, original, before, answer.value.content, answer.value.continuation.None?);
        Separate(past, Extended(h, s, chunk, answer.value))
  {
    var (answer, s) := Deliver(k, h.state, scope, capability, content, now);
    var tail := DeliverSplits(k, h.state, scope, capability, content, now);
    if answer.Ok? {
      var chunk := Chunk(scope, original, before, answer.value.content, answer.value.continuation.None?);
      Assoc(before, answer.value.content, tail);
      assert Owned(past, chunk);
    }
  }

  lemma AnnounceSeparate(k: Limits, past: seq<Request>, h: History, request: Request)
    requires Separate(past, h) && request.Announce?
    ensures Separate(past + [request], Serve(k, h, request))
  {
    MoreSeparate(past, h, request);
    MoreProvided(past, request, request.scope, request.content);
  }

  lemma RefSeparate(k: Limits, past: seq<Request>, h: History, scope: Scope, ref: nat, now: int)
    requires Separate(past, h)
    ensures Separate(past, Serve(k, h, Ask(scope, ByRef(ref), now)))
  {
    RefExactly(k, h.state, scope, ref, now);
    if Fetch(k, h.state, scope, ByRef(ref), now).0.Ok? {
      var content := h.state.refs[ref].content;
      assert [] + content == content;
      DeliverSeparate(k, past, h, scope, h.state.refs[ref].capability, content, [], content, now);
    }
  }

  lemma TokenSeparate(k: Limits, past: seq<Request>, h: History, scope: Scope, token: nat, now: int)
    requires Separate(past, h)
    ensures Separate(past, Serve(k, h, Ask(scope, ByContinuation(token), now)))
  {
    TokenExactly(k, h.state, scope, token, now);
    var h' := h.(state := Forget(h.state, token));
    assert Separate(past, h');
    if Fetch(k, h.state, scope, ByContinuation(token), now).0.Ok? {
      var c, t := h.state.continuations[token], h.trails[token];
      ServeToken(k, h, scope, token, now);
      DeliverSeparate(k, past, h', scope, c.capability, t.original, t.before + t.head, c.remaining, now);
    }
  }

  lemma QuerySeparate(k: Limits, past: seq<Request>, h: History, scope: Scope, capability: Capability,
                      found: Result<Text, ContextError>, now: int)
    requires Separate(past, h) && (found.Ok? ==> Provided(past, scope, found.value))
    ensures Separate(past, Serve(k, h, Ask(scope, ByQuery(capability, found), now)))
  {
    QueryExactly(k, h.state, scope, capability, found, now);
    if Fetch(k, h.state, scope, ByQuery(capability, found), now).0.Ok? {
      assert [] + found.value == found.value;
      DeliverSeparate(k, past, h, scope, capability, found.value, [], found.value, now);
    }
  }

  lemma ServeSeparate(k: Limits, past: seq<Request>, h: History, request: Request)
    requires Separate(past, h)
    ensures Separate(past + [request], Serve(k, h, request))
  {
    MoreSeparate(past, h, request);
    match request {
      case Announce(_, _, _) => AnnounceSeparate(k, past, h, request);
      case Ask(scope, ByRef(ref), now) => RefSeparate(k, past + [request], h, scope, ref, now);
      case Ask(scope, ByContinuation(token), now) => TokenSeparate(k, past + [request], h, scope, token, now);
      case Ask(scope, ByQuery(capability, found), now) =>
        if found.Ok? { MoreProvided(past, request, scope, found.value); }
        QuerySeparate(k, past + [request], h, scope, capability, found, now);
    }
  }

  lemma {:induction false} AllSeparate(k: Limits, past: seq<Request>, h: History, requests: seq<Request>)
    requires Separate(past, h)
    ensures Separate(past + requests, ServeAll(k, h, requests))
    decreases |requests|
  {
    if requests == [] {
      assert past + requests == past;
    } else {
      ServeSeparate(k, past, h, requests[0]);
      AllSeparate(k, past + [requests[0]], Serve(k, h, requests[0]), requests[1..]);
      assert past + [requests[0]] + requests[1..] == past + requests;
    }
  }

  // Scopes are kept apart: over any requests, every chunk delivered to a scope is a piece of evidence announced under
  // that very scope or of what its own query found.
  lemma ScopesKeptApart(k: Limits, requests: seq<Request>, i: nat)
    requires i < |ServeAll(k, NEW_BROKER, requests).chunks|
    ensures
      var chunk := ServeAll(k, NEW_BROKER, requests).chunks[i];
      && chunk.before + chunk.head <= chunk.original
      && exists j :: 0 <= j < |requests| && Provides(requests[j], chunk.scope, chunk.original)
  {
    AllSeparate(k, [], NEW_BROKER, requests);
    assert [] + requests == requests;
    var chunk := ServeAll(k, NEW_BROKER, requests).chunks[i];
    var request :| request in requests && Provides(request, chunk.scope, chunk.original);
    var j :| 0 <= j < |requests| && requests[j] == request;
  }

  /* Continuations are single-use */

  // A fetch in the right scope spends the token, whether or not anything is delivered. It delivers unless the
  // token has expired or the budget left does not hold even one character; in those cases the rest is lost.
  lemma FetchSpendsToken(k: Limits, s: State, scope: Scope, token: nat, now: int)
    requires token in s.continuations && s.continuations[token].scope == scope && token < s.nextId
    ensures
      var (answer, s') := FetchContinuation(k, s, scope, token, now);
      var remaining := s.continuations[token].remaining;
      var budget := if k.cycle <= Used(s, scope) then 0 else Min(k.response, k.cycle - Used(s, scope));
      && token !in s'.continuations
      && (answer.Ok? <==>
            now < s.continuations[token].expiresAt && Used(s, scope) < k.cycle
            && (remaining == [] || CharSize(remaining) <= budget))
      && (answer.Err? ==> s' == Forget(s, token))
  {
  }

  lemma {:induction false} SpentForever(k: Limits, h: History, requests: seq<Request>, token: nat)
    requires token < h.state.nextId && token !in h.state.continuations
    ensures token < ServeAll(k, h, requests).state.nextId && token !in ServeAll(k, h, requests).state.continuations
    decreases |requests|
  {
    if requests != [] {
      StepKeepsSpent(k, h, requests[0], token);
      SpentForever(k, Serve(k, h, requests[0]), requests[1..], token);
    }
  }

  lemma DeliverKeepsSpent(k: Limits, s: State, scope: Scope, capability: Capability, content: Text, now: int,
                          token: nat)
    requires token < s.nextId && token !in s.continuations
    ensures var s' := Deliver(k, s, scope, capability, content, now).1; token < s'.nextId && token !in s'.continuations
  {
  }

  lemma StepKeepsSpent(k: Limits, h: History, request: Request, token: nat)
    requires token < h.state.nextId && token !in h.state.continuations
    ensures token < Serve(k, h, request).state.nextId && token !in Serve(k, h, request).state.continuations
  {
    if request.Ask? {
      var Ask(scope, selector, now) := request;
      match selector {
        case ByRef(ref) =>
          if ref in h.state.refs {
            DeliverKeepsSpent(k, h.state, scope, h.state.refs[ref].capability, h.state.refs[ref].content, now, token);
          }
        case ByContinuation(t) =>
          if t in h.state.continuations {
            var c := h.state.continuations[t];
            DeliverKeepsSpent(k, Forget(h.state, t), scope, c.capability, c.remaining, now, token);
          }
        case ByQuery(capability, found) =>
          if found.Ok? { DeliverKeepsSpent(k, h.state, scope, capability, found.value, now, token); }
      }
    }
  }

  lemma DeliverUsage(k: Limits, s: State, scope: Scope, capability: Capability, content: Text, now: int, other: Scope)
    ensures Used(s, other) <= Used(Deliver(k, s, scope, capability, content, now).1, other)
  {
    var _ := DeliverSplits(k, s, scope, capability, content, now);
  }

  lemma StepUsage(k: Limits, h: History, request: Request, other: Scope)
    ensures Used(h.state, other) <= Used(Serve(k, h, request).state, other)
  {
    if request.Ask? {
      var Ask(scope, selector, now) := request;
      match selector {
        case ByRef(ref) =>
          if ref in h.state.refs {
            DeliverUsage(k, h.state, scope, h.state.refs[ref].capability, h.state.refs[ref].content, now, other);
          }
        case ByContinuation(t) =>
          if t in h.state.continuations {
            var c := h.state.continuations[t];
            DeliverUsage(k, Forget(h.state, t), scope, c.capability, c.remaining, now, other);
          }
        case ByQuery(capability, found) =>
          if found.Ok? { DeliverUsage(k, h.state, scope, capability, found.value, now, other); }
      }
    }
  }

  lemma {:induction false} UsageGrows(k: Limits, h: History, requests: seq<Request>, scope: Scope)
    ensures Used(h.state, scope) <= Used(ServeAll(k, h, requests).state, scope)
    decreases |requests|
  {
    if requests != [] {
      StepUsage(k, h, requests[0], scope);
      UsageGrows(k, Serve(k, h, requests[0]), requests[1..], scope);
    }
  }

  // Usage never falls and budgets are constant: content too dear for its scope's budget stays so for good.
  lemma UnaffordableForGood(k: Limits, h: History, requests: seq<Request>, scope: Scope, content: Text)
    requires Unaffordable(k, h.state, scope, content)
    ensures Unaffordable(k, ServeAll(k, h, requests).state, scope, content)
  {
    UsageGrows(k, h, requests, scope);
  }

  /* A chain of continuations ends */

  // When the content fits the cycle and the response budget holds any character, a chunk that is not the last
  // wastes at most three bytes of the response budget.
  lemma FullChunk(k: Limits, s: State, scope: Scope, capability: Capability, content: Text, now: int)
    returns (tail: Text)
    requires k.response >= 4 && Used(s, scope) < k.cycle && Used(s, scope) + ByteLength(content) <= k.cycle
    ensures
      var (answer, s') := Deliver(k, s, scope, capability, content, now);
      && answer.Ok? && content == answer.value.content + tail
      && Delivers(k, s, scope, capability, tail, now, answer.value, s')
      && ByteLength(content) == ByteLength(answer.value.content) + ByteLength(tail)
      && (tail != [] ==> ByteLength(answer.value.content) >= k.response - 3)
  {
    var budget := Min(k.response, k.cycle - Used(s, scope));
    tail := DeliverSplits(k, s, scope, capability, content, now);
    var (answer, s') := Deliver(k, s, scope, capability, content, now);
    var head := answer.value.content;
    BytesAtBoundary(content, |head|);
    assert content[..|head|] == head && content[|head|..] == tail;
    CutLongest(content, budget);
  }

  // The token holds this much, for its scope and until this time.
  predicate Holds(s: State, token: nat, scope: Scope, capability: Capability, remaining: Text, expiresAt: int) {
    && scope in s.scopes && token < s.nextId && token in s.continuations
    && s.continuations[token] == Continuation(scope, capability, remaining, expiresAt)
  }

  // No request fetches the token in its scope.
  predicate Spares(requests: seq<Request>, scope: Scope, token: nat) {
    forall i :: 0 <= i < |requests| && requests[i].Ask? && requests[i].scope == scope ==>
      requests[i].selector != ByContinuation(token)
  }

  lemma DeliverHolds(k: Limits, s: State, asker: Scope, asked: Capability, content: Text, now: int,
                     token: nat, scope: Scope, capability: Capability, remaining: Text, expiresAt: int)
    requires Holds(s, token, scope, capability, remaining, expiresAt)
    ensures Holds(Deliver(k, s, asker, asked, content, now).1, token, scope, capability, remaining, expiresAt)
  {
    var _ := DeliverSplits(k, s, asker, asked, content, now);
  }

  lemma StepHolds(k: Limits, h: History, request: Request,
                  token: nat, scope: Scope, capability: Capability, remaining: Text, expiresAt: int)
    requires Holds(h.state, token, scope, capability, remaining, expiresAt)
    requires request.Ask? && request.scope == scope ==> request.selector != ByContinuation(token)
    ensures Holds(Serve(k, h, request).state, token, scope, capability, remaining, expiresAt)
  {
    if request.Ask? {
      var Ask(asker, selector, now) := request;
      match selector {
        case ByRef(ref) =>
          if ref in h.state.refs {
            var e := h.state.refs[ref];
            DeliverHolds(k, h.state, asker, e.capability, e.content, now, token, scope, capability, remaining,
                         expiresAt);
          }
        case ByContinuation(t) =>
          if t in h.state.continuations && t != token {
            var c, s := h.state.continuations[t], Forget(h.state, t);
            DeliverHolds(k, s, asker, c.capability, c.remaining, now, token, scope, capability, remaining, expiresAt);
          }
        case ByQuery(asked, found) =>
          if found.Ok? {
            DeliverHolds(k, h.state, asker, asked, found.value, now, token, scope, capability, remaining, expiresAt);
          }
      }
    }
  }

  // A token keeps what it holds over any requests that do not fetch it in its scope.
  lemma {:induction false} TokenSurvives(k: Limits, h: History, requests: seq<Request>, token: nat, scope: Scope,
                                         capability: Capability, remaining: Text, expiresAt: int)
    requires Holds(h.state, token, scope, capability, remaining, expiresAt) && Spares(requests, scope, token)
    ensures Holds(ServeAll(k, h, requests).state, token, scope, capability, remaining, expiresAt)
    decreases |requests|
  {
    if requests != [] {
      StepHolds(k, h, requests[0], token, scope, capability, remaining, expiresAt);
      TokenSurvives(k, Serve(k, h, requests[0]), requests[1..], token, scope, capability, remaining, expiresAt);
    }
  }

  // A successful delivery: when it happened, what it returned, the broker after it, and what the broker serves
  // before the next fetch.
  datatype Link = Link(at: int, response: Response, after: History, gap: seq<Request>)

  function Later(k: Limits, a: Link): State {
    ServeAll(k, a.after, a.gap).state
  }

  predicate Fits(k: Limits, s: State, scope: Scope, content: Text) {
    Used(s, scope) + ByteLength(content) <= k.cycle
  }

  // The fetch of a's continuation is made in time, and the scope's budget left then holds what the token holds.
  predicate Affordable(k: Limits, scope: Scope, a: Link, at: int) {
    && a.response.continuation.Some? && Spares(a.gap, scope, a.response.continuation.value)
    && at < a.at + k.ttl
    && a.response.continuation.value in Later(k, a).continuations
    && Fits(k, Later(k, a), scope, Later(k, a).continuations[a.response.continuation.value].remaining)
  }

  // b is what fetching a's continuation gave.
  ghost predicate Hop(k: Limits, scope: Scope, a: Link, b: Link) {
    && Affordable(k, scope, a, b.at)
    && Fetch(k, Later(k, a), scope, ByContinuation(a.response.continuation.value), b.at)
       == (Ok(b.response), b.after.state)
  }

  ghost predicate Starts(k: Limits, s: State, scope: Scope, capability: Capability, content: Text, a: Link) {
    scope in s.scopes && Deliver(k, s, scope, capability, content, a.at) == (Ok(a.response), a.after.state)
  }

  ghost predicate Chained(k: Limits, scope: Scope, links: seq<Link>) {
    forall i :: 0 <= i < |links| - 1 ==> Hop(k, scope, links[i], links[i + 1])
  }

  function Joined(links: seq<Link>): Text {
    if links == [] then [] else links[0].response.content + Joined(links[1..])
  }

  // What is still to come after a link: nothing, or what its continuation holds; and whatever is served in between,
  // fetching that while it is affordable works.
  ghost predicate Awaits(k: Limits, scope: Scope, a: Link, rest: Text) {
    && (rest == [] <==> a.response.continuation.None?)
    && forall gap, at :: Affordable(k, scope, a.(gap := gap), at) ==>
         Fetch(k, Later(k, a.(gap := gap)), scope, ByContinuation(a.response.continuation.value), at).0.Ok?
  }

  // What all but the last of so many chunks take at least.
  function Room(count: nat, room: nat): nat {
    if count <= 1 then 0 else room + Room(count - 1, room)
  }

  lemma {:induction false} RoomTimes(count: nat, room: nat)
    requires count > 0
    ensures Room(count, room) == (count - 1) * room
  {
    if count > 1 { RoomTimes(count - 1, room); }
  }

  lemma NonEmpty(content: Text)
    ensures content != [] <==> ByteLength(content) > 0
  {
  }

  // An affordable fetch delivers the rest, from a state that has forgotten the token.
  lemma FetchRest(k: Limits, scope: Scope, capability: Capability, a: Link, tail: Text, at: int)
    requires k.response >= 4 && tail != [] && Affordable(k, scope, a, at)
    requires Holds(a.after.state, a.response.continuation.value, scope, capability, tail, a.at + k.ttl)
    ensures
      var token := a.response.continuation.value;
      var s := Forget(Later(k, a), token);
      && scope in s.scopes && Fits(k, s, scope, tail)
      && Fetch(k, Later(k, a), scope, ByContinuation(token), at) == Deliver(k, s, scope, capability, tail, at)
      && Deliver(k, s, scope, capability, tail, at).0.Ok?
  {
    var token := a.response.continuation.value;
    TokenSurvives(k, a.after, a.gap, token, scope, capability, tail, a.at + k.ttl);
    NonEmpty(tail);
    var _ := FullChunk(k, Forget(Later(k, a), token), scope, capability, tail, at);
  }

  // The first delivery of a chain, and what it leaves held.
  lemma ChainHead(k: Limits, s: State, scope: Scope, capability: Capability, content: Text, a: Link)
    returns (tail: Text)
    requires k.response >= 4 && content != [] && Starts(k, s, scope, capability, content, a)
    requires Fits(k, s, scope, content)
    ensures content == a.response.content + tail && |tail| < |content|
    ensures tail == [] <==> a.response.continuation.None?
    ensures tail != [] ==>
      && ByteLength(content) >= ByteLength(tail) + k.response - 3
      && Holds(a.after.state, a.response.continuation.value, scope, capability, tail, a.at + k.ttl)
  {
    NonEmpty(content);
    tail := FullChunk(k, s, scope, capability, content, a.at);
  }

  // An affordable next fetch works, and starts a shorter chain.
  lemma ChainStep(k: Limits, s: State, scope: Scope, capability: Capability, content: Text, a: Link)
    returns (tail: Text)
    requires k.response >= 4 && content != [] && Starts(k, s, scope, capability, content, a)
    requires Fits(k, s, scope, content)
    ensures content == a.response.content + tail && |tail| < |content|
    ensures Awaits(k, scope, a, tail)
    ensures tail != [] ==> ByteLength(content) >= ByteLength(tail) + k.response - 3
    ensures forall b :: Hop(k, scope, a, b) ==>
      var rest := Forget(Later(k, a), a.response.continuation.value);
      tail != [] && Starts(k, rest, scope, capability, tail, b) && Fits(k, rest, scope, tail)
  {
    tail := ChainHead(k, s, scope, capability, content, a);
    forall gap, at | Affordable(k, scope, a.(gap := gap), at)
      ensures Fetch(k, Later(k, a.(gap := gap)), scope, ByContinuation(a.response.continuation.value), at).0.Ok?
    {
      FetchRest(k, scope, capability, a.(gap := gap), tail, at);
    }
    forall b | Hop(k, scope, a, b)
      ensures
        var rest := Forget(Later(k, a), a.response.continuation.value);
        tail != [] && Starts(k, rest, scope, capability, tail, b) && Fits(k, rest, scope, tail)
    {
      FetchRest(k, scope, capability, a, tail, b.at);
    }
  }

  lemma ChainTail(k: Limits, scope: Scope, links: seq<Link>)
    requires Chained(k, scope, links) && |links| > 1
    ensures Hop(k, scope, links[0], links[1..][0]) && Chained(k, scope, links[1..])
  {
  }

  lemma JoinedFirst(links: seq<Link>, tail: Text, rest: Text)
    requires links != [] && tail == Joined(links[1..]) + rest
    ensures Joined(links) + rest == links[0].response.content + tail
  {
  }

  // A chain of timely fetches, with any other requests of any scope served in between, never gets stuck and loses
  // or repeats nothing, as long as at each fetch the scope's budget left holds what is still to come.
  lemma {:induction false} ChainCompletes(k: Limits, s: State, scope: Scope, capability: Capability, content: Text,
                                          links: seq<Link>)
    returns (rest: Text)
    requires k.response >= 4 && content != [] && Fits(k, s, scope, content)
    requires links != [] && Starts(k, s, scope, capability, content, links[0]) && Chained(k, scope, links)
    ensures content == Joined(links) + rest && Awaits(k, scope, links[|links| - 1], rest)
    decreases |links|
  {
    var tail := ChainStep(k, s, scope, capability, content, links[0]);
    if |links| == 1 {
      rest := tail;
      assert tail == Joined(links[1..]) + rest;
    } else {
      ChainTail(k, scope, links);
      var left := Forget(Later(k, links[0]), links[0].response.continuation.value);
      rest := ChainCompletes(k, left, scope, capability, tail, links[1..]);
    }
    JoinedFirst(links, tail, rest);
  }

  lemma {:induction false} ChainTakes(k: Limits, s: State, scope: Scope, capability: Capability, content: Text,
                                      links: seq<Link>)
    requires k.response >= 4 && content != [] && Fits(k, s, scope, content)
    requires links != [] && Starts(k, s, scope, capability, content, links[0]) && Chained(k, scope, links)
    ensures Room(|links|, k.response - 3) < ByteLength(content)
    decreases |links|
  {
    var tail := ChainStep(k, s, scope, capability, content, links[0]);
    if |links| == 1 {
      NonEmpty(content);
    } else {
      ChainTail(k, scope, links);
      var left := Forget(Later(k, links[0]), links[0].response.continuation.value);
      ChainTakes(k, left, scope, capability, tail, links[1..]);
    }
  }

  // Such a chain has at most ceil(n / (B - 3)) chunks for n bytes under a response budget of B.
  lemma ChainEnds(k: Limits, s: State, scope: Scope, capability: Capability, content: Text, links: seq<Link>)
    requires k.response >= 4 && content != [] && Fits(k, s, scope, content)
    requires links != [] && Starts(k, s, scope, capability, content, links[0]) && Chained(k, scope, links)
    ensures (|links| - 1) * (k.response - 3) < ByteLength(content)
  {
    ChainTakes(k, s, scope, capability, content, links);
    RoomTimes(|links|, k.response - 3);
  }

  /* What other scopes do to a chain: nothing */

  predicate Elsewhere(requests: seq<Request>, scope: Scope) {
    forall i :: 0 <= i < |requests| && requests[i].Ask? ==> requests[i].scope != scope
  }

  lemma DeliverElsewhere(k: Limits, s: State, asker: Scope, asked: Capability, content: Text, now: int, scope: Scope)
    requires asker != scope
    ensures Used(Deliver(k, s, asker, asked, content, now).1, scope) == Used(s, scope)
  {
    var _ := DeliverSplits(k, s, asker, asked, content, now);
  }

  lemma StepElsewhere(k: Limits, h: History, request: Request, scope: Scope)
    requires request.Ask? ==> request.scope != scope
    ensures Used(Serve(k, h, request).state, scope) == Used(h.state, scope)
  {
    if request.Ask? {
      var Ask(asker, selector, now) := request;
      match selector {
        case ByRef(ref) =>
          if ref in h.state.refs {
            DeliverElsewhere(k, h.state, asker, h.state.refs[ref].capability, h.state.refs[ref].content, now, scope);
          }
        case ByContinuation(t) =>
          if t in h.state.continuations {
            var c := h.state.continuations[t];
            DeliverElsewhere(k, Forget(h.state, t), asker, c.capability, c.remaining, now, scope);
          }
        case ByQuery(asked, found) =>
          if found.Ok? { DeliverElsewhere(k, h.state, asker, asked, found.value, now, scope); }
      }
    }
  }

  lemma {:induction false} UsageElsewhere(k: Limits, h: History, requests: seq<Request>, scope: Scope)
    requires Elsewhere(requests, scope)
    ensures Used(ServeAll(k, h, requests).state, scope) == Used(h.state, scope)
    decreases |requests|
  {
    if requests != [] {
      StepElsewhere(k, h, requests[0], scope);
      UsageElsewhere(k, Serve(k, h, requests[0]), requests[1..], scope);
    }
  }

  // If content fits at first, then after anything served to other scopes, and any evidence registered, its
  // continuation is affordable until it expires.
  lemma OthersLeaveAffordable(k: Limits, s: State, scope: Scope, capability: Capability, content: Text, a: Link,
                              at: int)
    requires k.response >= 4 && content != [] && Starts(k, s, scope, capability, content, a)
    requires Fits(k, s, scope, content)
    requires a.response.continuation.Some? && Elsewhere(a.gap, scope) && at < a.at + k.ttl
    ensures Affordable(k, scope, a, at)
  {
    NonEmpty(content);
    var tail := FullChunk(k, s, scope, capability, content, a.at);
    TokenSurvives(k, a.after, a.gap, a.response.continuation.value, scope, capability, tail, a.at + k.ttl);
    UsageElsewhere(k, a.after, a.gap, scope);
  }
}
