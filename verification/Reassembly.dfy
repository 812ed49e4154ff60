/**
 Receiving: the client reads one frame in chunks and dispatches a DATA event for each; the test endpoint's
 accumulator puts the message together again. With the sender, a fragment / chunk / reassemble round trip.
 */
module Reassembly {
  import opened Basics
  import opened Framing

  /** A DATA event: the frame's header, the chunk's place in it, and the chunk. */
  datatype Event = Event(code: nat, fin: bool, payloadLen: nat, offset: nat, data: seq<byte>)

  datatype Message = Message(code: nat, payload: seq<byte>)

  // ---- the receiver ----

  /**
   A frame being read; a read returns some bytes of what is left, or none for the moment, or fails if the
   connection does. `patience` bounds how often it returns none while bytes are left.
   */
  class Incoming {
    const frame: Frame
    const reliable: bool
    var patience: nat
    var offset: nat

    ghost predicate Valid()
      reads this
    {
      offset <= |frame.payload|
    }

    constructor (frame: Frame, reliable: bool, patience: nat)
      ensures this.frame == frame && this.reliable == reliable && offset == 0 && Valid()
    {
      this.frame, this.reliable, this.patience := frame, reliable, patience;
      offset := 0;
    }

    method Read(buffer: array<byte>) returns (rlen: int)
      requires Valid() && buffer.Length > 0
      modifies this`offset, this`patience, buffer
      ensures Valid() && (reliable ==> rlen >= 0)
      ensures rlen < 0 || (rlen <= buffer.Length && offset == old(offset) + rlen)
      ensures rlen >= 0 ==> buffer[..rlen] == frame.payload[old(offset)..offset]
      ensures rlen == 0 ==> old(offset) == |frame.payload| || patience < old(patience)
      ensures patience <= old(patience)
    {
      var ok: bool := *;
      if !ok && !reliable {
        return -1;
      }
      var most: nat := Min(buffer.Length, |frame.payload| - offset);
      var n: nat :| n <= most;
      if n == 0 && offset < |frame.payload| {
        if patience > 0 {
          patience := patience - 1;
        } else {
          n := 1;
        }
      }
      CopyTo(buffer, frame.payload, offset, n);
      rlen, offset := n, offset + n;
    }
  }

  /** The events of a frame from an offset on, for some sizes of the reads, nothing included. */
  ghost predicate ChunksFrom(events: seq<Event>, frame: Frame, offset: nat)
    requires offset <= |frame.payload|
    decreases |events|
  {
    && |events| > 0 && offset + |events[0].data| <= |frame.payload|
    && events[0] == Event(frame.code, frame.fin, |frame.payload|, offset,
                          frame.payload[offset..offset + |events[0].data|])
    && if offset + |events[0].data| == |frame.payload| then |events| == 1
       else ChunksFrom(events[1..], frame, offset + |events[0].data|)
  }

  /** ... and a beginning of such events, up to an offset. */
  ghost predicate ChunksUpTo(events: seq<Event>, frame: Frame, offset: nat)
    requires offset <= |frame.payload|
  {
    forall tail :: ChunksFrom(tail, frame, offset) ==> ChunksFrom(events + tail, frame, 0)
  }

  lemma {:induction false} ChunksUpToNone(frame: Frame)
    ensures ChunksUpTo([], frame, 0)
  {
    forall tail | ChunksFrom(tail, frame, 0)
      ensures ChunksFrom([] + tail, frame, 0)
    {
      assert [] + tail == tail;
    }
  }

  lemma {:induction false} ChunksUpToSnoc(events: seq<Event>, frame: Frame, offset: nat, e: Event)
    requires offset + |e.data| < |frame.payload| && ChunksUpTo(events, frame, offset)
    requires e == Event(frame.code, frame.fin, |frame.payload|, offset, frame.payload[offset..offset + |e.data|])
    ensures ChunksUpTo(events + [e], frame, offset + |e.data|)
  {
    forall tail | ChunksFrom(tail, frame, offset + |e.data|)
      ensures ChunksFrom((events + [e]) + tail, frame, 0)
    {
      assert ([e] + tail)[1..] == tail;
      assert ChunksFrom([e] + tail, frame, offset);
      Associative(events, [e], tail);
    }
  }

  /** The read loop: one event per read until the frame is complete. */
  method Recv(incoming: Incoming, rxBuffer: array<byte>) returns (ok: bool, events: seq<Event>)
    requires incoming.Valid() && incoming.offset == 0 && rxBuffer.Length > 0
    modifies incoming, rxBuffer
    ensures ok ==> ChunksFrom(events, incoming.frame, 0)
    ensures incoming.reliable ==> ok
    ensures forall i :: 0 <= i < |events| ==> |events[i].data| <= rxBuffer.Length
  {
    var payloadOffset := 0;
    var frame := incoming.frame;
    events := [];
    var first := true;
    ChunksUpToNone(frame);
    while first || payloadOffset < |frame.payload|
      invariant payloadOffset == incoming.offset <= |frame.payload|
      invariant forall i :: 0 <= i < |events| ==> |events[i].data| <= rxBuffer.Length
      invariant first ==> events == [] && payloadOffset == 0
      invariant first || payloadOffset < |frame.payload| ==> ChunksUpTo(events, frame, payloadOffset)
      invariant !first && payloadOffset == |frame.payload| ==> ChunksFrom(events, frame, 0)
      decreases |frame.payload| - payloadOffset, incoming.patience, first
    {
      var rlen := incoming.Read(rxBuffer);
      if rlen < 0 {
        return false, events;
      }
      var e := Event(frame.code, frame.fin, |frame.payload|, payloadOffset, rxBuffer[..rlen]);
      if payloadOffset + rlen < |frame.payload| {
        ChunksUpToSnoc(events, frame, payloadOffset, e);
      } else {
        assert ChunksFrom([e], frame, payloadOffset);
      }
      events := events + [e];
      payloadOffset := payloadOffset + rlen;
      first := false;
    }
    ok := true;
  }

  // ---- the accumulator ----

  // `limit` is MAX_FRAGMENTED_PAYLOAD: 65537 on embedded targets, 16 MB on Linux.

  /** The accumulator's state: the message put together so far. */
  datatype Acc = Acc(active: bool, expected: nat, code: nat, received: seq<byte>)

  const IDLE := Acc(false, 0, 0, [])

  ghost predicate AccOk(a: Acc, limit: nat) {
    (!a.active ==> a == IDLE) && |a.received| <= limit
  }

  predicate IsFragment(a: Acc, e: Event) {
    (e.payloadLen > 0 && e.payloadLen > |e.data|) || e.offset > 0 || !e.fin || a.active
  }

  /** A chunk joins the message; the last chunk of the last frame completes it. */
  function Append(a: Acc, e: Event, limit: nat): (Acc, Option<Message>) {
    if |a.received| + |e.data| > limit then (IDLE, None)
    else if a.expected > 0 && |a.received| + |e.data| > a.expected then (IDLE, None)
    else if e.fin && (e.payloadLen == 0 || e.offset + |e.data| >= e.payloadLen) then
      (IDLE, Some(Message(a.code, a.received + e.data)))
    else (a.(received := a.received + e.data), None)
  }

  /** One DATA event on a live connection, when allocations succeed. */
  function Accumulate(a: Acc, e: Event, limit: nat): (Acc, Option<Message>) {
    if e.code > 2 then (a, None)
    else if !IsFragment(a, e) || (e.payloadLen == 0 && e.data == []) then (a, Some(Message(e.code, e.data)))
    else if a.active then Append(a, e, limit)
    else if e.code == CONT then (IDLE, None)
    else
      var initial := if !e.fin then |e.data| else if e.payloadLen != 0 then e.payloadLen else |e.data|;
      if initial > limit then (a, None)
      else if initial == 0 then (a, None)
      else Append(Acc(true, if !e.fin then 0 else initial, e.code, []), e, limit)
  }

  /** The accumulator as the test endpoint runs it: one buffer that grows on demand. */
  class Accumulator {
    const limit: nat
    var accumBuffer: array?<byte>
    var expectedLen: nat
    var received: nat
    var code: nat
    var active: bool

    ghost predicate Valid()
      reads this, accumBuffer
    {
      && (received > 0 ==> accumBuffer != null && received <= accumBuffer.Length)
      && (accumBuffer != null ==> accumBuffer.Length > 0)
      && AccOk(View(), limit)
    }

    ghost function View(): Acc
      reads this, accumBuffer
    {
      Acc(active, expectedLen, code,
          if accumBuffer == null || received > accumBuffer.Length then [] else accumBuffer[..received])
    }

    constructor (limit: nat)
      ensures Valid() && View() == IDLE && accumBuffer == null && this.limit == limit
    {
      this.limit := limit;
      accumBuffer, expectedLen, received, code, active := null, 0, 0, 0, false;
    }

    method Reset()
      modifies this`expectedLen, this`received, this`code, this`active
      ensures View() == IDLE && received == 0 && !active
    {
      expectedLen, received, code, active := 0, 0, 0, false;
    }

    /** realloc: a buffer of at least the given size that keeps what was received */
    method Grow(size: nat)
      requires Valid() && size > 0
      modifies this`accumBuffer
      ensures Valid() && View() == old(View())
      ensures accumBuffer != null && accumBuffer.Length >= size
      ensures accumBuffer == old(accumBuffer) || fresh(accumBuffer)
    {
      if accumBuffer == null {
        accumBuffer := new byte[size](_ => 0);
      } else if size > accumBuffer.Length {
        var old_, bigger := accumBuffer, new byte[size](_ => 0);
        for i := 0 to old_.Length
          invariant bigger[..i] == old_[..i]
        {
          bigger[i] := old_[i];
        }
        assert bigger[..received] == bigger[..old_.Length][..received] == old_[..old_.Length][..received];
        assert old_[..old_.Length][..received] == old_[..received];
        accumBuffer := bigger;
      }
    }

    method HandleData(e: Event, connected: bool) returns (echo: Option<Message>)
      requires Valid()
      modifies this, accumBuffer
      ensures Valid() && (accumBuffer == old(accumBuffer) || accumBuffer == null || fresh(accumBuffer))
      ensures connected ==> (View(), echo) == Accumulate(old(View()), e, limit)
      ensures !connected ==> View() == IDLE && echo == None
    {
      echo := None;
      if !connected {
        Reset();
        return;
      }
      if e.code > 2 {
        return;
      }
      var totalLen := if e.payloadLen != 0 then e.payloadLen else |e.data|;
      var fragmented := (e.payloadLen > 0 && e.payloadLen > |e.data|) || e.offset > 0 || !e.fin || active;
      if !(fragmented && totalLen > 0) {
        return Some(Message(e.code, e.data));
      }
      if !active {
        if e.code == CONT {
          Reset();
          return;
        }
        var initialLen := if !e.fin then |e.data| else totalLen;
        if initialLen > limit {
          return;
        }
        if initialLen > 0 {
          Grow(initialLen);
          expectedLen, received, code, active := initialLen, 0, e.code, true;
        }
        if !e.fin {
          expectedLen := 0;
        }
      }
      echo := AppendChunk(e);
    }

    /** The second half of the handler: copy the chunk in and hand the message out when it is complete. */
    method AppendChunk(e: Event) returns (echo: Option<Message>)
      requires Valid() && (!active ==> e.data == [] && e.payloadLen > 0 && !e.fin)
      modifies this, accumBuffer
      ensures Valid() && (accumBuffer == old(accumBuffer) || accumBuffer == null || fresh(accumBuffer))
      ensures old(active) ==> (View(), echo) == Append(old(View()), e, limit)
      ensures !old(active) ==> View() == IDLE && echo == None
    {
      echo := None;
      var requiredLen := received + |e.data|;
      assert received == |View().received|;
      if requiredLen > limit {
        Reset();
        return;
      }
      if requiredLen > 0 {
        Grow(requiredLen);
      }
      if accumBuffer == null && !active {
        Reset();
        return;
      }
      if expectedLen > 0 && requiredLen > expectedLen {
        Reset();
        return;
      }
      ghost var before := View();
      if |e.data| > 0 {
        CopyAt(accumBuffer, received, e.data);
      }
      received := requiredLen;
      assert View().received == before.received + e.data;
      var endOfFrame := e.payloadLen == 0 || e.offset + |e.data| >= e.payloadLen;
      if !(e.fin && endOfFrame) {
        return;
      }
      echo := Some(Message(code, if accumBuffer == null then [] else accumBuffer[..received]));
      accumBuffer := null;
      Reset();
    }
  }

  /** memcpy(dst + at, data, |data|) */
  method CopyAt(dst: array<byte>, at: nat, data: seq<byte>)
    requires at + |data| <= dst.Length
    modifies dst
    ensures dst[..at + |data|] == old(dst[..at]) + data
  {
    for i := 0 to |data|
      invariant dst[..at + i] == old(dst[..at]) + data[..i]
    {
      dst[at + i] := data[i];
    }
  }

  // ---- the round trip ----

  /** Feeding events to the accumulator: its last state and the messages it handed out. */
  function Run(a: Acc, events: seq<Event>, limit: nat): (Acc, seq<Message>)
    decreases |events|
  {
    if events == [] then (a, [])
    else
      var (b, out) := Accumulate(a, events[0], limit);
      var (c, more) := Run(b, events[1..], limit);
      (c, if out.Some? then [out.value] + more else more)
  }

  lemma {:induction false} RunConcat(a: Acc, xs: seq<Event>, ys: seq<Event>, limit: nat)
    ensures var (b, out) := Run(a, xs, limit); var (c, more) := Run(b, ys, limit);
            Run(a, xs + ys, limit) == (c, out + more)
    decreases |xs|
  {
    if xs == [] {
      assert xs + ys == ys;
      assert [] + Run(a, ys, limit).1 == Run(a, ys, limit).1;
    } else {
      var (a1, first) := Accumulate(a, xs[0], limit);
      RunConcat(a1, xs[1..], ys, limit);
      assert (xs + ys)[1..] == xs[1..] + ys;
      var (b, out) := Run(a1, xs[1..], limit);
      var (c, more) := Run(b, ys, limit);
      if first.Some? {
        Associative([first.value], out, more);
      }
    }
  }

  /** The rest of a frame, once the accumulator is at work on its message. */
  lemma {:induction false} RunFrame(a: Acc, events: seq<Event>, frame: Frame, offset: nat, before: seq<byte>,
                                    limit: nat)
    requires frame.code <= 2 && offset <= |frame.payload| && frame.payload != []
    requires ChunksFrom(events, frame, offset)
    requires a.active && a.received == before + frame.payload[..offset]
    requires |before| + |frame.payload| <= limit
    requires a.expected == 0 || a.expected == |before| + |frame.payload|
    ensures var whole := before + frame.payload;
            Run(a, events, limit) == if frame.fin then (IDLE, [Message(a.code, whole)]) else (a.(received := whole), [])
    decreases |events|
  {
    var e := events[0];
    var next := offset + |e.data|;
    var (b, out) := Accumulate(a, e, limit);
    assert frame.payload[..offset] + frame.payload[offset..next] == frame.payload[..next];
    Associative(before, frame.payload[..offset], frame.payload[offset..next]);
    assert a.received + e.data == before + frame.payload[..next];
    if next == |frame.payload| {
      assert frame.payload[..next] == frame.payload;
      var m := Message(a.code, before + frame.payload);
      assert events[1..] == [] && [m] + [] == [m];
    } else {
      assert (b, out) == (a.(received := before + frame.payload[..next]), None);
      RunFrame(b, events[1..], frame, next, before, limit);
    }
  }

  /** The first frame of a message, from rest. */
  lemma {:induction false} RunFirstFrame(events: seq<Event>, frame: Frame, limit: nat)
    requires 1 <= frame.code <= 2 && frame.payload != [] && |frame.payload| <= limit
    requires ChunksFrom(events, frame, 0)
    ensures Run(IDLE, events, limit) == if frame.fin then (IDLE, [Message(frame.code, frame.payload)])
                                        else (Acc(true, 0, frame.code, frame.payload), [])
    decreases |events|
  {
    var e := events[0];
    var n := |e.data|;
    assert e.data == frame.payload[..n];
    if n == |frame.payload| {
      assert frame.payload[..n] == frame.payload && events[1..] == [];
      var (b, out) := Accumulate(IDLE, e, limit);
      assert [] + e.data == e.data && [Message(frame.code, frame.payload)] + [] == [Message(frame.code, frame.payload)];
    } else if n == 0 && !frame.fin {
      assert Accumulate(IDLE, e, limit) == (IDLE, None);
      RunFirstFrame(events[1..], frame, limit);
    } else {
      var start := Acc(true, if !frame.fin then 0 else |frame.payload|, frame.code, []);
      assert [] + e.data == frame.payload[..n];
      assert Accumulate(IDLE, e, limit) == (start.(received := e.data), None);
      assert [] + frame.payload[..n] == frame.payload[..n] && [] + frame.payload == frame.payload;
      RunFrame(start.(received := e.data), events[1..], frame, n, [], limit);
    }
  }

  lemma {:induction false} RunControl(a: Acc, events: seq<Event>, limit: nat)
    requires forall i :: 0 <= i < |events| ==> events[i].code > 2
    ensures Run(a, events, limit) == (a, [])
    decreases |events|
  {
    if events != [] {
      assert Accumulate(a, events[0], limit) == (a, None);
      RunControl(a, events[1..], limit);
    }
  }

  /** A stream of events: the chunks of these frames in order, with events of control frames between frames. */
  datatype Delivery = Delivery(control: seq<Event>, chunks: seq<Event>)

  ghost predicate Delivers(stream: seq<Delivery>, frames: seq<Frame>) {
    && |stream| == |frames|
    && forall i :: 0 <= i < |stream| ==>
         && (forall j :: 0 <= j < |stream[i].control| ==> stream[i].control[j].code > 2)
         && ChunksFrom(stream[i].chunks, frames[i], 0)
  }

  function Events(stream: seq<Delivery>): seq<Event> {
    if stream == [] then [] else Events(stream[..|stream| - 1]) + stream[|stream| - 1].control + stream[|stream| - 1].chunks
  }

  /** The accumulator's state and output after the first k frames of a message. */
  function Progress(frames: seq<Frame>, code: nat, k: nat): (Acc, seq<Message>)
    requires k <= |frames|
  {
    if k == 0 then (IDLE, [])
    else if k == |frames| then (IDLE, [Message(code, Payload(frames))])
    else (Acc(true, 0, code, Payload(frames[..k])), [])
  }

  lemma {:induction false} PayloadUpTo(frames: seq<Frame>, k: nat)
    requires k < |frames|
    ensures Payload(frames[..k + 1]) == Payload(frames[..k]) + frames[k].payload
    ensures |Payload(frames[..k + 1])| <= |Payload(frames)|
    ensures k + 1 == |frames| ==> frames[..k + 1] == frames
    ensures Payload(frames[..0]) == []
  {
    assert frames[..k + 1] == frames[..k] + [frames[k]];
    PayloadConcat(frames[..k], [frames[k]]);
    PayloadOne(frames[k]);
    assert frames == frames[..k + 1] + frames[k + 1..];
    PayloadConcat(frames[..k + 1], frames[k + 1..]);
  }

  /** One frame's events move the accumulator on by one frame. */
  lemma {:induction false} RunNextFrame(chunks: seq<Event>, frames: seq<Frame>, code: nat, k: nat, limit: nat)
    requires k < |frames| && ChunksFrom(chunks, frames[k], 0)
    requires WellFormed(frames, code, Payload(frames)) && 1 <= code <= 2
    requires frames[k].payload != [] && |Payload(frames)| <= limit
    ensures Run(Progress(frames, code, k).0, chunks, limit)
            == (Progress(frames, code, k + 1).0, if k + 1 == |frames| then Progress(frames, code, k + 1).1 else [])
  {
    PayloadUpTo(frames, k);
    var before := Payload(frames[..k]);
    if k == 0 {
      assert before + frames[k].payload == frames[k].payload;
      RunFirstFrame(chunks, frames[k], limit);
    } else {
      assert before + frames[k].payload[..0] == before;
      RunFrame(Acc(true, 0, code, before), chunks, frames[k], 0, before, limit);
    }
  }

  /** Whatever the read sizes and the control frames in between, the accumulator holds the payload so far. */
  lemma {:induction false} RunPrefix(stream: seq<Delivery>, frames: seq<Frame>, code: nat, k: nat, limit: nat)
    requires Delivers(stream, frames) && k <= |frames|
    requires WellFormed(frames, code, Payload(frames)) && 1 <= code <= 2
    requires forall i :: 0 <= i < |frames| ==> frames[i].payload != []
    requires |Payload(frames)| <= limit
    ensures Run(IDLE, Events(stream[..k]), limit) == Progress(frames, code, k)
  {
    if k > 0 {
      var s, head := stream[k - 1], Events(stream[..k - 1]);
      RunPrefix(stream, frames, code, k - 1, limit);
      var a := Progress(frames, code, k - 1).0;
      RunControl(a, s.control, limit);
      RunNextFrame(s.chunks, frames, code, k - 1, limit);
      RunConcat(IDLE, head, s.control, limit);
      RunConcat(IDLE, head + s.control, s.chunks, limit);
      assert stream[..k][..k - 1] == stream[..k - 1];
      assert Events(stream[..k]) == head + s.control + s.chunks;
      var out := Run(a, s.chunks, limit).1;
      assert [] + [] + out == out;
    } else {
      assert stream[..0] == [];
    }
  }

  /** Any well-formed message of non-empty frames comes back whole, once, with the first frame's opcode. */
  lemma {:induction false} Reassembled(stream: seq<Delivery>, frames: seq<Frame>, code: nat, payload: seq<byte>,
                                       limit: nat)
    requires WellFormed(frames, code, payload) && 1 <= code <= 2
    requires forall i :: 0 <= i < |frames| ==> frames[i].payload != []
    requires |payload| <= limit && Delivers(stream, frames)
    ensures Run(IDLE, Events(stream), limit) == (IDLE, [Message(code, payload)])
  {
    RunPrefix(stream, frames, code, |frames|, limit);
    assert stream[..|frames|] == stream;
  }

  lemma {:induction false} EventsConcat(xs: seq<Delivery>, ys: seq<Delivery>)
    ensures Events(xs + ys) == Events(xs) + Events(ys)
  {
    if ys == [] {
      assert xs + ys == xs;
    } else {
      var last := ys[|ys| - 1];
      EventsConcat(xs, ys[..|ys| - 1]);
      assert (xs + ys)[..|xs + ys| - 1] == xs + ys[..|ys| - 1];
      Associative(Events(xs), Events(ys[..|ys| - 1]), last.control);
      Associative(Events(xs), Events(ys[..|ys| - 1]) + last.control, last.chunks);
    }
  }

  /** An empty frame bypasses the accumulator: it is handed out on its own, in its place. */
  lemma {:induction false} EmptyFrameHandedOut(stream: seq<Delivery>, frames: seq<Frame>, i: nat, limit: nat)
      returns (before: seq<Message>, after: seq<Message>)
    requires Delivers(stream, frames) && i < |frames| && frames[i].payload == [] && frames[i].code <= 2
    ensures Run(IDLE, Events(stream), limit).1 == before + [Message(frames[i].code, [])] + after
  {
    var s, head, tail := stream[i], Events(stream[..i]), Events(stream[i + 1..]);
    assert stream == stream[..i + 1] + stream[i + 1..];
    EventsConcat(stream[..i + 1], stream[i + 1..]);
    assert stream[..i + 1][..i] == stream[..i];
    assert Events(stream) == head + s.control + s.chunks + tail;
    var a := Run(IDLE, head, limit).0;
    RunControl(a, s.control, limit);
    assert s.chunks == [s.chunks[0]] && s.chunks[0].data == [];
    assert s.chunks[1..] == [];
    var m := Message(frames[i].code, []);
    assert [m] + [] == [m];
    assert Run(a, s.chunks, limit) == (a, [m]);
    RunConcat(IDLE, head, s.control, limit);
    RunConcat(IDLE, head + s.control, s.chunks, limit);
    RunConcat(IDLE, head + s.control + s.chunks, tail, limit);
    before, after := Run(IDLE, head, limit).1, Run(a, tail, limit).1;
    assert before + [] == before;
  }

  lemma {:induction false} SingleHandOut(before: seq<Message>, m: Message, after: seq<Message>, only: Message)
    requires before + [m] + after == [only]
    ensures m == only
  {
    assert |before| + 1 + |after| == 1;
    assert (before + [m] + after)[|before|] == m;
  }

  /** A well-formed message comes back as itself iff it is one frame or none of its frames is empty. */
  lemma {:induction false} ReassembledIff(stream: seq<Delivery>, frames: seq<Frame>, code: nat, payload: seq<byte>,
                                          limit: nat)
    requires WellFormed(frames, code, payload) && 1 <= code <= 2
    requires |payload| <= limit && Delivers(stream, frames)
    ensures Run(IDLE, Events(stream), limit) == (IDLE, [Message(code, payload)])
            <==> |frames| == 1 || forall i :: 0 <= i < |frames| ==> frames[i].payload != []
  {
    if forall i :: 0 <= i < |frames| ==> frames[i].payload != [] {
      Reassembled(stream, frames, code, payload, limit);
    } else {
      var i :| 0 <= i < |frames| && frames[i].payload == [];
      var before, after := EmptyFrameHandedOut(stream, frames, i, limit);
      if |frames| == 1 {
        OneEmptyFrame(stream, frames, limit);
        assert frames == [frames[0]];
        PayloadOne(frames[0]);
      } else if Run(IDLE, Events(stream), limit) == (IDLE, [Message(code, payload)]) {
        SingleHandOut(before, Message(frames[i].code, []), after, Message(code, payload));
        AllEmpty(frames, 1);
        var b, c := EmptyFrameHandedOut(stream, frames, 1, limit);
        SingleHandOut(b, Message(frames[1].code, []), c, Message(code, payload));
        assert false;
      }
    }
  }

  lemma {:induction false} OneEmptyFrame(stream: seq<Delivery>, frames: seq<Frame>, limit: nat)
    requires Delivers(stream, frames) && |frames| == 1
    requires frames[0].payload == [] && frames[0].fin && 1 <= frames[0].code <= 2
    ensures Run(IDLE, Events(stream), limit) == (IDLE, [Message(frames[0].code, [])])
  {
    var s := stream[0];
    assert stream[..0] == [] && Events([]) == [] && [] + s.control == s.control;
    assert Events(stream) == s.control + s.chunks;
    RunControl(IDLE, s.control, limit);
    RunConcat(IDLE, s.control, s.chunks, limit);
    var m := Message(frames[0].code, []);
    assert s.chunks[1..] == [] && [m] + [] == [m];
    assert Run(IDLE, s.chunks, limit) == (IDLE, [m]);
    assert [] + [m] == [m];
  }

  lemma {:induction false} AllEmpty(frames: seq<Frame>, i: nat)
    requires i < |frames| && Payload(frames) == []
    ensures frames[i].payload == []
  {
    PayloadUpTo(frames, i);
  }

  /** So a message ended by send_fin's empty frame is never handed out whole. */
  lemma {:induction false} PartialSendIsNotReassembled(first: seq<byte>, parts: seq<seq<byte>>, bufferSize: nat,
                                                       stream: seq<Delivery>, limit: nat)
    requires bufferSize > 0 && |first + Flatten(parts)| <= limit
    requires Delivers(stream, PartialFrames(first, parts, bufferSize))
    ensures Run(IDLE, Events(stream), limit) != (IDLE, [Message(TEXT, first + Flatten(parts))])
  {
    var frames := PartialFrames(first, parts, bufferSize);
    PartialSendIsOneMessage(first, parts, bufferSize);
    ReassembledIff(stream, frames, TEXT, first + Flatten(parts), limit);
    FramesAreACut(Opcode(TEXT, false), false, first, bufferSize);
    assert frames[|frames| - 1].payload == [];
  }

  /** Sent by this client with any transmit buffer, read with any receive sizes: the same message. */
  lemma {:induction false} SendReceiveRoundTrip(code: nat, data: seq<byte>, bufferSize: nat, stream: seq<Delivery>,
                                                limit: nat)
    requires 1 <= code <= 2 && data != [] && |data| <= limit && bufferSize > 0
    requires Delivers(stream, Frames(Opcode(code, true), true, data, bufferSize))
    ensures Run(IDLE, Events(stream), limit) == (IDLE, [Message(code, data)])
  {
    FramesAreACut(Opcode(code, true), true, data, bufferSize);
    Reassembled(stream, Frames(Opcode(code, true), true, data, bufferSize), code, data, limit);
  }

  // ---- outside the promise ----

  /** Some read returned the whole payload; it can only be the last. */
  predicate ReadWhole(events: seq<Event>) {
    events != [] && events[|events| - 1].offset == 0
  }

  lemma {:induction false} LastChunk(events: seq<Event>, frame: Frame, offset: nat)
    requires offset <= |frame.payload| && ChunksFrom(events, frame, offset) && |events| > 1
    ensures ReadWhole(events) == ReadWhole(events[1..])
    ensures ChunksFrom(events[1..], frame, offset + |events[0].data|)
  {
  }

  /** Events that find nothing accumulated: only a final frame read in one piece is handed out, on its own. */
  lemma {:induction false} NothingAccumulates(events: seq<Event>, frame: Frame, offset: nat, limit: nat)
    requires offset <= |frame.payload| && frame.payload != [] && ChunksFrom(events, frame, offset)
    requires frame.code == CONT || (1 <= frame.code <= 2 && frame.fin && |frame.payload| > limit)
    ensures Run(IDLE, events, limit)
            == (IDLE, if frame.fin && ReadWhole(events) then [Message(frame.code, frame.payload)] else [])
    decreases |events|
  {
    var e := events[0];
    if |events| > 1 {
      LastChunk(events, frame, offset);
      NothingAccumulates(events[1..], frame, offset + |e.data|, limit);
      assert Accumulate(IDLE, e, limit) == (IDLE, None);
    } else {
      assert events[1..] == [] && [Message(frame.code, frame.payload)] + [] == [Message(frame.code, frame.payload)];
      assert offset == 0 ==> e.data == frame.payload;
    }
  }

  /** A continuation without a message begun is dropped, unless it is final and read in one piece. */
  lemma {:induction false} StrayContinuation(events: seq<Event>, frame: Frame, limit: nat)
    requires frame.code == CONT && frame.payload != [] && ChunksFrom(events, frame, 0)
    ensures Run(IDLE, events, limit)
            == (IDLE, if frame.fin && ReadWhole(events) then [Message(CONT, frame.payload)] else [])
  {
    NothingAccumulates(events, frame, 0, limit);
  }

  /** A single frame over the limit is dropped whole, unless it is read in one piece. */
  lemma {:induction false} FrameOverLimit(events: seq<Event>, frame: Frame, limit: nat)
    requires 1 <= frame.code <= 2 && frame.fin && |frame.payload| > limit && ChunksFrom(events, frame, 0)
    ensures Run(IDLE, events, limit)
            == (IDLE, if ReadWhole(events) then [Message(frame.code, frame.payload)] else [])
  {
    NothingAccumulates(events, frame, 0, limit);
  }

  predicate Shorter(out: seq<Message>, bound: nat) {
    forall m :: m in out ==> |m.payload| <= bound
  }

  /** What is handed out is within the limit, or is one chunk. */
  lemma {:induction false} HandedOutBound(a: Acc, e: Event, limit: nat, bound: nat)
    requires |a.received| <= limit <= bound && (e.code <= 2 ==> |e.data| <= bound)
    ensures var (b, out) := Accumulate(a, e, limit);
            |b.received| <= limit && (out.Some? ==> |out.value.payload| <= bound)
  {
  }

  lemma {:induction false} RunBound(a: Acc, events: seq<Event>, limit: nat, bound: nat)
    requires |a.received| <= limit <= bound
    requires forall i :: 0 <= i < |events| && events[i].code <= 2 ==> |events[i].data| <= bound
    ensures Shorter(Run(a, events, limit).1, bound)
    decreases |events|
  {
    if events != [] {
      HandedOutBound(a, events[0], limit, bound);
      var (b, out) := Accumulate(a, events[0], limit);
      RunBound(b, events[1..], limit, bound);
      hide Accumulate;
      if out.Some? {
        assert forall m :: m in [out.value] + Run(b, events[1..], limit).1 ==>
                 m == out.value || m in Run(b, events[1..], limit).1;
      }
    }
  }

  lemma {:induction false} ChunksAreShort(events: seq<Event>, frame: Frame, offset: nat, i: nat)
    requires offset <= |frame.payload| && ChunksFrom(events, frame, offset) && i < |events|
    ensures |events[i].data| <= |frame.payload|
    decreases |events|
  {
    if i > 0 {
      ChunksAreShort(events[1..], frame, offset + |events[0].data|, i - 1);
    }
  }

  ghost predicate DataWithin(events: seq<Event>, bound: nat) {
    forall i :: 0 <= i < |events| && events[i].code <= 2 ==> |events[i].data| <= bound
  }

  lemma {:induction false} EventsAreShort(stream: seq<Delivery>, frames: seq<Frame>, bound: nat)
    requires Delivers(stream, frames) && forall i :: 0 <= i < |frames| ==> |frames[i].payload| <= bound
    ensures DataWithin(Events(stream), bound)
  {
    if stream != [] {
      var n := |stream| - 1;
      EventsAreShort(stream[..n], frames[..n], bound);
      var s := stream[n];
      forall i | 0 <= i < |s.chunks|
        ensures |s.chunks[i].data| <= bound
      {
        ChunksAreShort(s.chunks, frames[n], 0, i);
      }
      var head := Events(stream[..n]);
      WithinConcat(head, s.control, bound);
      WithinConcat(head + s.control, s.chunks, bound);
    }
  }

  lemma {:induction false} WithinConcat(a: seq<Event>, b: seq<Event>, bound: nat)
    requires DataWithin(a, bound) && DataWithin(b, bound)
    ensures DataWithin(a + b, bound)
  {
  }

  lemma {:induction false} FrameIsShorter(frames: seq<Frame>, i: nat)
    requires i < |frames| && |frames| > 1 && forall j :: 0 <= j < |frames| ==> frames[j].payload != []
    ensures |frames[i].payload| < |Payload(frames)|
  {
    PayloadUpTo(frames, i);
    if i > 0 {
      PayloadUpTo(frames, 0);
      PayloadUpTo(frames, i - 1);
      PayloadGrows(frames, i);
    } else {
      PayloadUpTo(frames, 1);
    }
  }

  lemma {:induction false} PayloadGrows(frames: seq<Frame>, i: nat)
    requires 0 < i < |frames| && forall j :: 0 <= j < |frames| ==> frames[j].payload != []
    ensures |Payload(frames[..i])| > 0
  {
    PayloadUpTo(frames, i - 1);
  }

  /** A message of several non-empty frames comes back whole iff it is within the limit. */
  lemma {:induction false} WholeIffWithinLimit(stream: seq<Delivery>, frames: seq<Frame>, code: nat,
                                               payload: seq<byte>,
                                               limit: nat)
    requires WellFormed(frames, code, payload) && 1 <= code <= 2 && |frames| > 1
    requires (forall i :: 0 <= i < |frames| ==> frames[i].payload != []) && Delivers(stream, frames)
    ensures Message(code, payload) in Run(IDLE, Events(stream), limit).1 <==> |payload| <= limit
  {
    if |payload| <= limit {
      Reassembled(stream, frames, code, payload, limit);
    } else {
      forall i | 0 <= i < |frames|
        ensures |frames[i].payload| <= |payload| - 1
      {
        FrameIsShorter(frames, i);
      }
      EventsAreShort(stream, frames, |payload| - 1);
      RunBound(IDLE, Events(stream), limit, |payload| - 1);
    }
  }

  /** A longer one is not merely dropped: what is left of it may come out as a message of its own. */
  lemma {:induction false} LongMessageLeaks()
    ensures var first, last := Frame(TEXT, false, [1, 2, 3]), Frame(CONT, true, [4]);
            var stream := [Delivery([], [Event(TEXT, false, 3, 0, [1, 2]), Event(TEXT, false, 3, 2, [3])]),
                           Delivery([], [Event(CONT, true, 1, 0, [4])])];
            && WellFormed([first, last], TEXT, [1, 2, 3, 4]) && Delivers(stream, [first, last])
            && Run(IDLE, Events(stream), 2) == (IDLE, [Message(CONT, [4])])
  {
    var first, last := Frame(TEXT, false, [1, 2, 3]), Frame(CONT, true, [4]);
    assert [first, last] == [first] + [last] && [1, 2, 3] + [4] == [1, 2, 3, 4];
    PayloadConcat([first], [last]);
    PayloadOne(first);
    PayloadOne(last);
    LeakRun();
  }

  lemma {:induction false} LeakRun()
    ensures var a, b, c := Event(TEXT, false, 3, 0, [1, 2]), Event(TEXT, false, 3, 2, [3]), Event(CONT, true, 1, 0, [4]);
            && Events([Delivery([], [a, b]), Delivery([], [c])]) == [a, b, c]
            && Run(IDLE, [a, b, c], 2) == (IDLE, [Message(CONT, [4])])
            && ChunksFrom([a, b], Frame(TEXT, false, [1, 2, 3]), 0) && ChunksFrom([c], Frame(CONT, true, [4]), 0)
  {
    var a, b, c := Event(TEXT, false, 3, 0, [1, 2]), Event(TEXT, false, 3, 2, [3]), Event(CONT, true, 1, 0, [4]);
    var one, two := Delivery([], [a, b]), Delivery([], [c]);
    assert [one, two][..1] == [one] && [one][..0] == [] && [] + [] + [a, b] == [a, b] && [a, b] + [] + [c] == [a, b, c];
    assert Events([one]) == [a, b];
    assert [a, b, c][1..] == [b, c] && [b, c][1..] == [c] && [c][1..] == [];
    var mid := Acc(true, 0, TEXT, [1, 2]);
    assert [] + [1, 2] == [1, 2];
    assert Accumulate(IDLE, a, 2) == (mid, None) && Accumulate(mid, b, 2) == (IDLE, None);
    StrayContinuation([c], Frame(CONT, true, [4]), 2);
    assert Run(mid, [b, c], 2) == Run(IDLE, [c], 2);
    assert [a, b][1..] == [b];
  }
}
