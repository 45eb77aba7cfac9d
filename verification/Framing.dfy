// Length-prefixed frames: a 32-bit little-endian length, then the JSON text of one value. The runtime's pipe and
// the browser's native host use the same format under different size limits.
module Framing {
  import opened Wrappers

  type Byte = b: int | 0 <= b < 256

  // JSON text as UTF-8. A value is a JSON value, so it always has a text.
  datatype Json<!V> = Json(format: V -> seq<Byte>, parse: seq<Byte> -> Option<V>)

  ghost predicate Faithful<V(!new)>(json: Json<V>) {
    forall v :: json.parse(json.format(v)) == Some(v)
  }

  // OutOfRange: the length does not fit the header's 32 bits.
  datatype FrameError = TooLarge(length: nat) | Malformed | OutOfRange

  const HeaderLimit: nat := 0x1_0000_0000

  /* Headers */

  function Header(n: nat): (h: seq<Byte>)
    requires n < HeaderLimit
    ensures |h| == 4
  {
    [n % 0x100, n / 0x100 % 0x100, n / 0x1_0000 % 0x100, n / 0x100_0000]
  }

  function Length(b: seq<Byte>): (n: nat)
    requires |b| >= 4
    ensures n < HeaderLimit
  {
    b[0] + 0x100 * (b[1] + 0x100 * (b[2] + 0x100 * (b[3] as int)))
  }

  // The header is an exact code: every length below 2^32 has one, and every four bytes are one.
  lemma HeaderRoundTrip(n: nat, rest: seq<Byte>)
    requires n < HeaderLimit
    ensures Length(Header(n) + rest) == n
  {
  }

  lemma LengthRoundTrip(b: seq<Byte>)
    requires |b| >= 4
    ensures Header(Length(b)) == b[..4]
  {
    var n := Length(b);
    assert n / 0x100 == b[1] + 0x100 * (b[2] + 0x100 * (b[3] as int));
    assert n / 0x1_0000 == n / 0x100 / 0x100 == b[2] + 0x100 * (b[3] as int);
    assert n / 0x100_0000 == n / 0x1_0000 / 0x100 == b[3];
  }

  /* One value, one frame */

  function FrameOf(payload: seq<Byte>): seq<Byte>
    requires |payload| < HeaderLimit
  {
    Header(|payload|) + payload
  }

  function EncodeFrame<V>(json: Json<V>, max: nat, v: V): Result<seq<Byte>, FrameError> {
    var payload := json.format(v);
    if |payload| > max then Err(TooLarge(|payload|))
    else if |payload| >= HeaderLimit then Err(OutOfRange)
    else Ok(FrameOf(payload))
  }

  /* The decoder */

  // What draining a buffer gives: the values decoded, the bytes kept, and why it stopped early, if it did.
  datatype Drained<V> = Drained(values: seq<V>, buffer: seq<Byte>, error: Option<FrameError>) {
    function After(v: V): Drained<V> {
      this.(values := [v] + values)
    }
  }

  // The first frame is larger than the limit, or not all of it is there.
  predicate Oversized(max: nat, b: seq<Byte>) {
    |b| >= 4 && Length(b) > max
  }

  predicate Partial(max: nat, b: seq<Byte>) {
    |b| < 4 || (Length(b) <= max && |b| < 4 + Length(b))
  }

  function Drain<V>(json: Json<V>, max: nat, b: seq<Byte>): Drained<V>
    decreases |b|
  {
    if Partial(max, b) then Drained([], b, None)
    else if Oversized(max, b) then Drained([], b, Some(TooLarge(Length(b))))
    else
      var rest := b[4 + Length(b)..];
      match json.parse(b[4..4 + Length(b)])
      case None => Drained([], rest, Some(Malformed))
      case Some(v) => Drain(json, max, rest).After(v)
  }

  class FrameDecoder<!V> {
    const json: Json<V>
    const maxBytes: nat
    var buffer: seq<Byte>

    constructor (json: Json<V>, maxBytes: nat)
      ensures this.json == json && this.maxBytes == maxBytes && buffer == []
    {
      this.json, this.maxBytes, buffer := json, maxBytes, [];
    }

    // An error loses the values this push had decoded.
    method Push(chunk: seq<Byte>) returns (r: Result<seq<V>, FrameError>)
      modifies this
      ensures
        var d := Drain(json, maxBytes, old(buffer) + chunk);
        buffer == d.buffer && r == if d.error.Some? then Err(d.error.value) else Ok(d.values)
    {
      buffer := buffer + chunk;
      ghost var whole := Drain(json, maxBytes, buffer);
      var values := [];
      while |buffer| >= 4
        invariant
          var d := Drain(json, maxBytes, buffer);
          whole == d.(values := values + d.values)
        decreases |buffer|
      {
        var length := Length(buffer);
        if length > maxBytes { return Err(TooLarge(length)); }
        if |buffer| < 4 + length { break; }
        var payload := buffer[4..4 + length];
        buffer := buffer[4 + length..];
        var parsed := json.parse(payload);
        if parsed.None? { return Err(Malformed); }
        ghost var later := Drain(json, maxBytes, buffer).values;
        assert (values + [parsed.value]) + later == values + ([parsed.value] + later);
        values := values + [parsed.value];
      }
      assert Drain(json, maxBytes, buffer) == Drained([], buffer, None);
      assert values + [] == values;
      return Ok(values);
    }
  }

  /* Streams of pushes */

  // A connection pushes chunk after chunk and is dropped at the first error.
  function Feed<V>(json: Json<V>, max: nat, b: seq<Byte>, chunks: seq<seq<Byte>>): Drained<V>
    decreases |chunks|
  {
    if chunks == [] then Drained([], b, None)
    else
      var d := Drain(json, max, b + chunks[0]);
      if d.error.Some? then Drained([], d.buffer, d.error)
      else
        var f := Feed(json, max, d.buffer, chunks[1..]);
        f.(values := d.values + f.values)
  }

  function Concat(chunks: seq<seq<Byte>>): seq<Byte> {
    if chunks == [] then [] else chunks[0] + Concat(chunks[1..])
  }

  // A drain that has stopped, given more bytes: a clean stop continues, an error stays.
  function Continue<V>(json: Json<V>, max: nat, d: Drained<V>, more: seq<Byte>): Drained<V> {
    if d.error.Some? then d.(buffer := d.buffer + more)
    else var e := Drain(json, max, d.buffer + more); e.(values := d.values + e.values)
  }

  lemma ContinueAfter<V>(json: Json<V>, max: nat, d: Drained<V>, v: V, more: seq<Byte>)
    ensures Continue(json, max, d.After(v), more) == Continue(json, max, d, more).After(v)
  {
  }

  // More bytes do not change a frame that is already there.
  lemma FirstFrame(max: nat, b: seq<Byte>, more: seq<Byte>)
    requires !Partial(max, b)
    ensures !Partial(max, b + more) && Length(b + more) == Length(b)
    ensures !Oversized(max, b) ==>
      (b + more)[4..4 + Length(b)] == b[4..4 + Length(b)] && (b + more)[4 + Length(b)..] == b[4 + Length(b)..] + more
  {
  }

  // Draining can be interrupted anywhere.
  lemma {:induction false} DrainMore<V>(json: Json<V>, max: nat, b: seq<Byte>, more: seq<Byte>)
    ensures Drain(json, max, b + more) == Continue(json, max, Drain(json, max, b), more)
    decreases |b|
  {
    if Partial(max, b) {
      assert [] + Drain(json, max, b + more).values == Drain(json, max, b + more).values;
    } else {
      FirstFrame(max, b, more);
      if !Oversized(max, b) {
        var rest := b[4 + Length(b)..];
        var parsed := json.parse(b[4..4 + Length(b)]);
        if parsed.Some? {
          DrainMore(json, max, rest, more);
          ContinueAfter(json, max, Drain(json, max, rest), parsed.value, more);
          assert Drain(json, max, b + more) == Drain(json, max, rest + more).After(parsed.value);
        }
      }
    }
  }

  // However a stream is cut into pushes, it fails with the same error as when pushed whole, or yields the same
  // values and keeps the same bytes. A failing stream yields a prefix of the values before its bad frame.
  lemma {:induction false} ChunkingInvariance<V>(json: Json<V>, max: nat, b: seq<Byte>, chunks: seq<seq<Byte>>)
    requires Partial(max, b)
    ensures
      var f, d := Feed(json, max, b, chunks), Drain(json, max, b + Concat(chunks));
      && f.error == d.error
      && (d.error.None? ==> f == d)
      && f.values <= d.values
    decreases |chunks|
  {
    if chunks == [] {
      assert b + Concat(chunks) == b;
    } else {
      var first := b + chunks[0];
      var d := Drain(json, max, first);
      assert b + Concat(chunks) == first + Concat(chunks[1..]);
      DrainMore(json, max, first, Concat(chunks[1..]));
      DrainStops(json, max, first);
      if d.error.None? {
        ChunkingInvariance(json, max, d.buffer, chunks[1..]);
      }
    }
  }

  // A clean stop is at an incomplete frame.
  lemma {:induction false} DrainStops<V>(json: Json<V>, max: nat, b: seq<Byte>)
    ensures var d := Drain(json, max, b); d.error.None? ==> Partial(max, d.buffer)
    decreases |b|
  {
    if !Partial(max, b) && !Oversized(max, b) {
      DrainStops(json, max, b[4 + Length(b)..]);
    }
  }

  lemma TwoCuttings<V>(json: Json<V>, max: nat, one: seq<seq<Byte>>, other: seq<seq<Byte>>)
    requires Concat(one) == Concat(other)
    ensures
      var f, g := Feed(json, max, [], one), Feed(json, max, [], other);
      f.error == g.error && (f.error.None? ==> f == g)
  {
    ChunkingInvariance(json, max, [], one);
    ChunkingInvariance(json, max, [], other);
  }

  /* Round trips */

  function Frames(payloads: seq<seq<Byte>>): seq<Byte>
    requires forall i :: 0 <= i < |payloads| ==> |payloads[i]| < HeaderLimit
  {
    if payloads == [] then [] else FrameOf(payloads[0]) + Frames(payloads[1..])
  }

  ghost predicate Carries<V>(json: Json<V>, max: nat, payloads: seq<seq<Byte>>, values: seq<V>) {
    && |payloads| == |values|
    && forall i :: 0 <= i < |payloads| ==>
         |payloads[i]| < HeaderLimit && |payloads[i]| <= max && json.parse(payloads[i]) == Some(values[i])
  }

  lemma FirstPayload(payload: seq<Byte>, rest: seq<Byte>)
    requires |payload| < HeaderLimit
    ensures
      var b := FrameOf(payload) + rest;
      Length(b) == |payload| && b[4..4 + |payload|] == payload && b[4 + |payload|..] == rest
  {
    assert FrameOf(payload) + rest == Header(|payload|) + (payload + rest);
    HeaderRoundTrip(|payload|, payload + rest);
  }

  lemma SplitFrame(b: seq<Byte>)
    requires |b| >= 4 && |b| >= 4 + Length(b)
    ensures b == FrameOf(b[4..4 + Length(b)]) + b[4 + Length(b)..]
  {
    LengthRoundTrip(b);
  }

  // A frame in front of other bytes is taken off whole.
  lemma DrainFrame<V>(json: Json<V>, max: nat, payload: seq<Byte>, rest: seq<Byte>)
    requires |payload| < HeaderLimit && |payload| <= max && json.parse(payload).Some?
    ensures
      var d := Drain(json, max, rest);
      Drain(json, max, FrameOf(payload) + rest) == d.(values := [json.parse(payload).value] + d.values)
  {
    FirstPayload(payload, rest);
  }

  // A reading of a stream: whole frames within the limit that carry the values, then the reason for stopping, an
  // incomplete frame, an oversized header or a frame of malformed text. Only that last frame is dropped.
  ghost predicate Reads<V>(json: Json<V>, max: nat, b: seq<Byte>, payloads: seq<seq<Byte>>, bad: seq<Byte>,
                           d: Drained<V>) {
    && Carries(json, max, payloads, d.values)
    && |bad| < HeaderLimit
    && match d.error
       case None => Partial(max, d.buffer) && b == Frames(payloads) + d.buffer
       case Some(TooLarge(n)) => Oversized(max, d.buffer) && n == Length(d.buffer) && b == Frames(payloads) + d.buffer
       case Some(Malformed) =>
         |bad| <= max && json.parse(bad) == None && b == Frames(payloads) + (FrameOf(bad) + d.buffer)
       case Some(OutOfRange) => false
  }

  lemma ReadsLast<V>(json: Json<V>, max: nat, b: seq<Byte>, bad: seq<Byte>, d: Drained<V>)
    requires Reads(json, max, b, [], bad, d)
    ensures Drain(json, max, b) == d
  {
    if d.error == Some(Malformed) {
      assert b == FrameOf(bad) + d.buffer;
      FirstPayload(bad, d.buffer);
    } else {
      assert b == d.buffer;
    }
  }

  lemma ReadsRest<V>(json: Json<V>, max: nat, b: seq<Byte>, payloads: seq<seq<Byte>>, bad: seq<Byte>, d: Drained<V>)
    requires Reads(json, max, b, payloads, bad, d) && payloads != []
    ensures
      var later := b[4 + |payloads[0]|..];
      b == FrameOf(payloads[0]) + later && Reads(json, max, later, payloads[1..], bad, d.(values := d.values[1..]))
  {
  }

  lemma ReadsMore<V>(json: Json<V>, max: nat, payload: seq<Byte>, b: seq<Byte>, payloads: seq<seq<Byte>>,
                     bad: seq<Byte>, d: Drained<V>)
    requires Reads(json, max, b, payloads, bad, d)
    requires |payload| < HeaderLimit && |payload| <= max && json.parse(payload).Some?
    ensures Reads(json, max, FrameOf(payload) + b, [payload] + payloads, bad, d.After(json.parse(payload).value))
  {
  }

  // Draining finds a reading, and the only one.
  lemma {:induction false} ReadsDrain<V>(json: Json<V>, max: nat, b: seq<Byte>, payloads: seq<seq<Byte>>,
                                         bad: seq<Byte>, d: Drained<V>)
    requires Reads(json, max, b, payloads, bad, d)
    ensures Drain(json, max, b) == d
    decreases |payloads|
  {
    if payloads == [] {
      ReadsLast(json, max, b, bad, d);
    } else {
      var later, rest := b[4 + |payloads[0]|..], d.(values := d.values[1..]);
      ReadsRest(json, max, b, payloads, bad, d);
      DrainFrame(json, max, payloads[0], later);
      ReadsDrain(json, max, later, payloads[1..], bad, rest);
      assert d == rest.After(d.values[0]);
    }
  }

  lemma {:induction false} DrainReads<V>(json: Json<V>, max: nat, b: seq<Byte>)
    returns (payloads: seq<seq<Byte>>, bad: seq<Byte>)
    ensures Reads(json, max, b, payloads, bad, Drain(json, max, b))
    decreases |b|
  {
    payloads, bad := [], [];
    if !Partial(max, b) && !Oversized(max, b) {
      var n := 4 + Length(b);
      SplitFrame(b);
      if json.parse(b[4..n]).None? {
        bad := b[4..n];
      } else {
        var later;
        later, bad := DrainReads(json, max, b[n..]);
        payloads := [b[4..n]] + later;
        ReadsMore(json, max, b[4..n], b[n..], later, bad, Drain(json, max, b[n..]));
      }
    }
  }

  function EncodeAll<V>(json: Json<V>, max: nat, values: seq<V>): Result<seq<Byte>, FrameError> {
    if values == [] then Ok([])
    else
      var first := EncodeFrame(json, max, values[0]);
      if first.Err? then first
      else
        var rest := EncodeAll(json, max, values[1..]);
        if rest.Err? then rest else Ok(first.value + rest.value)
  }

  function Prints<V>(json: Json<V>, values: seq<V>): (p: seq<seq<Byte>>)
    ensures |p| == |values| && forall i :: 0 <= i < |p| ==> p[i] == json.format(values[i])
  {
    seq(|values|, i requires 0 <= i < |values| => json.format(values[i]))
  }

  lemma {:induction false} EncodedFrames<V>(json: Json<V>, max: nat, values: seq<V>)
    requires EncodeAll(json, max, values).Ok?
    ensures forall i :: 0 <= i < |values| ==> |json.format(values[i])| <= max && |json.format(values[i])| < HeaderLimit
    ensures EncodeAll(json, max, values).value == Frames(Prints(json, values))
  {
    if values != [] {
      EncodedFrames(json, max, values[1..]);
      assert Prints(json, values)[1..] == Prints(json, values[1..]);
      forall i | 0 <= i < |values|
        ensures |json.format(values[i])| <= max && |json.format(values[i])| < HeaderLimit
      {
        if i > 0 { assert values[i] == values[1..][i - 1]; }
      }
    }
  }

  // What an encoder with one limit writes, cut anyhow, a decoder with another reads back exactly, as long as
  // every value is within the decoder's limit too.
  lemma RoundTrip<V(!new)>(json: Json<V>, encoderMax: nat, decoderMax: nat, values: seq<V>, chunks: seq<seq<Byte>>)
    requires Faithful(json)
    requires EncodeAll(json, encoderMax, values) == Ok(Concat(chunks))
    requires forall i :: 0 <= i < |values| ==> |json.format(values[i])| <= decoderMax
    ensures Feed(json, decoderMax, [], chunks) == Drained(values, [], None)
  {
    EncodedFrames(json, encoderMax, values);
    ReadsDrain(json, decoderMax, Concat(chunks), Prints(json, values), [], Drained(values, [], None));
    assert [] + Concat(chunks) == Concat(chunks);
    ChunkingInvariance(json, decoderMax, [], chunks);
  }

  // The two limits decide alone whether a value gets through.
  lemma GetsThrough<V(!new)>(json: Json<V>, encoderMax: nat, decoderMax: nat, v: V)
    requires Faithful(json)
    ensures
      var frame, n := EncodeFrame(json, encoderMax, v), |json.format(v)|;
      && (frame.Ok? <==> n <= encoderMax && n < HeaderLimit)
      && (frame.Ok? && n <= decoderMax ==> Drain(json, decoderMax, frame.value) == Drained([v], [], None))
      && (frame.Ok? && n > decoderMax ==>
            Drain(json, decoderMax, frame.value) == Drained([], frame.value, Some(TooLarge(n))))
  {
    var frame, payload := EncodeFrame(json, encoderMax, v), json.format(v);
    if frame.Ok? {
      HeaderRoundTrip(|payload|, payload);
      assert frame.value + [] == frame.value;
      if |payload| <= decoderMax { DrainFrame(json, decoderMax, payload, []); }
    }
  }

  // After an oversized header no later push can succeed.
  lemma {:induction false} TooLargeStays<V>(json: Json<V>, max: nat, b: seq<Byte>, more: seq<Byte>)
    requires var d := Drain(json, max, b); d.error.Some? && d.error.value.TooLarge?
    ensures
      var d := Drain(json, max, b);
      Drain(json, max, d.buffer + more) == Drained([], d.buffer + more, d.error)
    decreases |b|
  {
    if !Oversized(max, b) {
      TooLargeStays(json, max, b[4 + Length(b)..], more);
    }
  }
}
