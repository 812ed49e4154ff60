/**
 Sending on the WebSocket client: a message is cut into frames that fit the transmit buffer
 (section 5.4 of RFC 6455).
 */
module Framing {
  import opened Basics

  const CONT := 0x0
  const TEXT := 0x1
  const BINARY := 0x2

  /** An opcode with the FIN bit the client keeps beside it. */
  datatype Opcode = Opcode(code: nat, fin: bool) {
    predicate NonZero() {
      code != 0 || fin
    }
  }

  datatype Frame = Frame(code: nat, fin: bool, payload: seq<byte>)

  function Payloads(frames: seq<Frame>): seq<seq<byte>> {
    seq(|frames|, i requires 0 <= i < |frames| => frames[i].payload)
  }

  function Payload(frames: seq<Frame>): seq<byte> {
    Flatten(Payloads(frames))
  }

  lemma {:induction false} PayloadConcat(a: seq<Frame>, b: seq<Frame>)
    ensures Payload(a + b) == Payload(a) + Payload(b)
  {
    assert Payloads(a + b) == Payloads(a) + Payloads(b);
    FlattenConcat(Payloads(a), Payloads(b));
  }

  lemma {:induction false} PayloadOne(f: Frame)
    ensures Payload([f]) == f.payload
  {
    assert Payloads([f]) == [f.payload];
    assert Flatten([f.payload]) == f.payload + Flatten<byte>([]);
  }

  /**
   What becomes of a write: the frame goes out whole, nothing of it is accepted in time, or the connection fails.
   */
  datatype Write = Whole | Stalls | Breaks(code: int)

  /** A transport's past: its writes so far, and what is on the wire. */
  datatype Past = Past(attempts: nat, wire: seq<Frame>)

  /** The transport: what it will answer to its n-th write, and what is on the wire. */
  class Transport {
    const outcome: nat -> Write
    var attempts: nat
    var wire: seq<Frame>

    ghost function View(): Past
      reads this
    {
      Past(attempts, wire)
    }

    constructor (outcome: nat -> Write)
      ensures wire == [] && attempts == 0 && this.outcome == outcome
    {
      this.outcome := outcome;
      attempts, wire := 0, [];
    }

    method SendRaw(opcode: Opcode, data: array<byte>, n: nat) returns (wlen: int)
      requires n <= data.Length
      modifies this`attempts, this`wire
      ensures attempts == old(attempts) + 1
      ensures wlen == Written(outcome(old(attempts)), n)
      ensures wire == old(wire)
                      + if Fails(outcome(old(attempts)), n) then [] else [Frame(opcode.code, opcode.fin, data[..n])]
    {
      wlen := Written(outcome(attempts), n);
      if wlen == n {
        wire := wire + [Frame(opcode.code, opcode.fin, data[..n])];
      }
      attempts := attempts + 1;
    }
  }

  /** The result of a write of n bytes; an error is negative. */
  function Written(w: Write, n: nat): (wlen: int)
    ensures wlen == n <==> !Fails(w, n)
  {
    match w
    case Whole => n
    case Stalls => 0
    case Breaks(code) => if code < 0 then code else -1
  }

  /** Nothing of nothing is everything: an empty frame cannot stall. */
  predicate Fails(w: Write, n: nat) {
    w.Breaks? || (w.Stalls? && n > 0)
  }

  /** How many of the frames go out when the first of them is the transport's write number `at`. */
  function Sent(frames: seq<Frame>, outcome: nat -> Write, at: nat): (k: nat)
    ensures k <= |frames|
  {
    if frames == [] || Fails(outcome(at), |frames[0].payload|) then 0 else 1 + Sent(frames[1..], outcome, at + 1)
  }

  /** What the send call returns for them: the length, or the result of the write that failed. */
  function Result(frames: seq<Frame>, len: nat, outcome: nat -> Write, at: nat): int {
    var k := Sent(frames, outcome, at);
    if k == |frames| then len else Written(outcome(at + k), |frames[k].payload|)
  }

  function Attempts(frames: seq<Frame>, outcome: nat -> Write, at: nat): nat {
    var k := Sent(frames, outcome, at);
    if k == |frames| then k else k + 1
  }

  /**
   What a call with these frames does to a transport: the frames up to the first failing write go out, and the
   call returns the length or what that write returned.
   */
  ghost predicate Called(frames: seq<Frame>, len: nat, outcome: nat -> Write, before: Past, now: Past, ret: int) {
    && ret == Result(frames, len, outcome, before.attempts)
    && now.wire == before.wire + frames[..Sent(frames, outcome, before.attempts)]
    && now.attempts == before.attempts + Attempts(frames, outcome, before.attempts)
  }

  /** In the middle of it: the first `done` frames are out. */
  ghost predicate Calling(frames: seq<Frame>, outcome: nat -> Write, before: Past, now: Past, done: nat) {
    && done <= |frames| && now.attempts == before.attempts + done && now.wire == before.wire + frames[..done]
    && Sent(frames, outcome, before.attempts) == done + Sent(frames[done..], outcome, before.attempts + done)
  }

  /** The frames of one send call. */
  function Frames(opcode: Opcode, fin: bool, data: seq<byte>, bufferSize: nat): seq<Frame>
    requires bufferSize > 0
    decreases |data|
  {
    if data == [] && !opcode.NonZero() then []
    else if |data| > bufferSize then
      [Frame(opcode.code, false, data[..bufferSize])]
      + Frames(Opcode(CONT, false), fin, data[bufferSize..], bufferSize)
    else [Frame(opcode.code, fin, data)]
  }

  class Client {
    const transport: Transport
    const bufferSize: nat
    const txBuffer: array<byte>
    var connected: bool

    ghost predicate Valid()
      reads this
    {
      bufferSize > 0 && txBuffer.Length == bufferSize
    }

    constructor (bufferSize: nat, outcome: nat -> Write)
      requires bufferSize > 0
      ensures Valid() && fresh(transport) && fresh(txBuffer) && transport.outcome == outcome
      ensures this.bufferSize == bufferSize && transport.wire == [] && transport.attempts == 0
    {
      this.bufferSize := bufferSize;
      transport := new Transport(outcome);
      txBuffer := new byte[bufferSize](_ => 0);
      connected := false;
    }

    /**
     One send call; `locked` tells whether the lock and the transmit buffer were obtained. It returns the length
     exactly when every frame is on the wire.
     */
    method SendWithExactOpcode(op: Opcode, data: seq<byte>, locked: bool) returns (ret: int)
      requires Valid()
      modifies transport, txBuffer
      ensures connected && locked ==>
                Called(Frames(op, op.fin, data, bufferSize), |data|, transport.outcome,
                       old(transport.View()), transport.View(), ret)
      ensures !connected || !locked ==>
                ret == -1 && transport.View() == old(transport.View())
      ensures data != [] || op.NonZero() ==>
                (ret == |data| <==>
                 transport.wire == old(transport.wire) + Frames(op, op.fin, data, bufferSize))
    {
      ghost var before := transport.View();
      HasFrames(op, op.fin, data, bufferSize, before.wire);
      hide Frames, Called;
      if !connected || !locked {
        return -1;
      }
      ret := SendFrames(op, data);
      CallIsAll(op, op.fin, data, bufferSize, transport.outcome, before, transport.View(), ret);
    }

    /** The loop, under the lock. */
    method SendFrames(op: Opcode, data: seq<byte>) returns (ret: int)
      requires Valid()
      modifies transport, txBuffer
      ensures Called(Frames(op, op.fin, data, bufferSize), |data|, transport.outcome, old(transport.View()),
                     transport.View(), ret)
    {
      var len := |data|;
      var opcode, containedFin := op, op.fin;
      var needWrite, widx := len, 0;
      ghost var before, frames, done := transport.View(), Frames(op, op.fin, data, bufferSize), 0;
      assert data[0..] == data && frames[0..] == frames;
      NoFrames(containedFin, bufferSize);
      hide Frames, Called, Calling, Fails, Written;
      CallBegins(frames, transport.outcome, before);
      while widx < len || opcode.NonZero()
        invariant 0 <= widx <= len && needWrite == len - widx && (opcode.fin ==> containedFin)
        invariant done <= |frames| && Frames(opcode, containedFin, data[widx..], bufferSize) == frames[done..]
        invariant Calling(frames, transport.outcome, before, transport.View(), done)
        decreases len - widx, opcode.NonZero()
      {
        ghost var first := opcode;
        if needWrite > bufferSize {
          needWrite := bufferSize;
          opcode := Opcode(opcode.code, false);
        } else if containedFin {
          opcode := Opcode(opcode.code, true);
        }
        FramesHead(first, containedFin, data, widx, bufferSize, needWrite, opcode);
        NextFrame(frames, done, Frame(opcode.code, opcode.fin, data[widx..widx + needWrite]),
                  Frames(Opcode(CONT, false), containedFin, data[widx + needWrite..], bufferSize));
        CopyTo(txBuffer, data, widx, needWrite);
        var wlen := SendOne(transport, opcode, txBuffer, needWrite, frames, len, before, done);
        if wlen < 0 || (wlen == 0 && needWrite != 0) {
          return wlen;
        }
        opcode := Opcode(CONT, false);
        widx := widx + wlen;
        needWrite := len - widx;
        done := done + 1;
      }
      assert data[widx..] == [];
      CallEnds(frames, len, transport.outcome, before, transport.View(), done);
      return widx;
    }

    /** Sending a whole message: the same with FIN requested. */
    method SendWithOpcode(code: nat, data: seq<byte>, locked: bool) returns (ret: int)
      requires Valid()
      modifies transport, txBuffer
      ensures connected && locked ==>
                Called(Frames(Opcode(code, true), true, data, bufferSize), |data|, transport.outcome,
                       old(transport.View()), transport.View(), ret)
      ensures !connected || !locked ==>
                ret == -1 && transport.View() == old(transport.View())
      ensures ret == |data| <==>
              transport.wire == old(transport.wire) + Frames(Opcode(code, true), true, data, bufferSize)
    {
      ret := SendWithExactOpcode(Opcode(code, true), data, locked);
    }

    /**
     A text message sent in parts: the first, any number of continuations, then an empty final frame; the caller
     stops at the first call that does not return its length.
     */
    method SendInParts(first: seq<byte>, parts: seq<seq<byte>>) returns (ok: bool)
      requires Valid()
      modifies transport, txBuffer
      ensures var frames, at := PartialFrames(first, parts, bufferSize), old(transport.attempts);
              if connected then
                (ok <==> Sent(frames, transport.outcome, at) == |frames|)
                && transport.wire == old(transport.wire) + frames[..Sent(frames, transport.outcome, at)]
              else !ok && transport.wire == old(transport.wire)
    {
      ghost var before, all := transport.View(), PartialFrames(first, parts, bufferSize);
      hide Frames, Sent, PartialFrames, Called, PartSent, PartialUpTo;
      PartsBegin(first, parts, bufferSize, transport.outcome, before);
      ok := SendPart(Opcode(TEXT, false), first, [], all, before);
      if !ok {
        return;
      }
      PartialPrefix(first, parts, 0, bufferSize);
      for i := 0 to |parts|
        invariant connected
        invariant PartSent(all, PartialUpTo(first, parts, i, bufferSize), transport.outcome, before, transport.View())
      {
        PartialStep(first, parts, i, bufferSize);
        PartialPrefix(first, parts, i + 1, bufferSize);
        ok := SendPart(Opcode(CONT, false), parts[i], PartialUpTo(first, parts, i, bufferSize), all, before);
        if !ok {
          return;
        }
      }
      PartialLast(first, parts, bufferSize);
      ok := SendPart(Opcode(CONT, true), [], PartialUpTo(first, parts, |parts|, bufferSize), all, before);
      if ok {
        PartsEnd(all, transport.outcome, before, transport.View());
      }
    }

    /** One call of such a sequence, after calls that sent all of `sent`. */
    method SendPart(op: Opcode, data: seq<byte>, ghost sent: seq<Frame>, ghost all: seq<Frame>,
                    ghost before: Past)
        returns (ok: bool)
      requires Valid() && PartSent(all, sent, transport.outcome, before, transport.View())
      requires sent + Frames(op, op.fin, data, bufferSize) <= all
      modifies transport, txBuffer
      ensures !connected ==> !ok && transport.wire == old(transport.wire)
      ensures connected ==>
                if ok then
                  PartSent(all, sent + Frames(op, op.fin, data, bufferSize), transport.outcome, before, transport.View())
                else Sent(all, transport.outcome, before.attempts) < |all|
                     && transport.wire == before.wire + all[..Sent(all, transport.outcome, before.attempts)]
    {
      SuccessIsAll(op, op.fin, data, bufferSize, transport.outcome, before.attempts + |sent|);
      hide Frames, Sent, Result, Called;
      var ret := SendWithExactOpcode(op, data, true);
      ok := ret == |data|;
      if connected {
        PartCalled(all, sent, Frames(op, op.fin, data, bufferSize), |data|, transport.outcome, before,
                   transport.View(), ret);
      }
    }
  }

  lemma {:induction false} PartCalled(all: seq<Frame>, sent: seq<Frame>, more: seq<Frame>, len: nat,
                                      outcome: nat -> Write, before: Past, now: Past, ret: int)
    requires sent + more <= all && Sent(sent, outcome, before.attempts) == |sent|
    requires Called(more, len, outcome, Past(before.attempts + |sent|, before.wire + sent), now, ret)
    ensures var k := Sent(more, outcome, before.attempts + |sent|);
            && ret == Result(more, len, outcome, before.attempts + |sent|)
            && if k == |more| then PartSent(all, sent + more, outcome, before, now)
               else Sent(all, outcome, before.attempts) < |all|
                    && now.wire == before.wire + all[..Sent(all, outcome, before.attempts)]
  {
    hide Sent, Result;
    SentAfter(sent, more, all, outcome, before.attempts);
    Associative(before.wire, sent, more[..Sent(more, outcome, before.attempts + |sent|)]);
    assert more[..|more|] == more;
  }

  /** The calls so far sent exactly `sent`, a beginning of `all`. */
  ghost predicate PartSent(all: seq<Frame>, sent: seq<Frame>, outcome: nat -> Write, before: Past, now: Past) {
    && sent <= all && Sent(sent, outcome, before.attempts) == |sent|
    && now == Past(before.attempts + |sent|, before.wire + sent)
  }

  lemma {:induction false} PartsBegin(first: seq<byte>, parts: seq<seq<byte>>, bufferSize: nat, outcome: nat -> Write,
                                      before: Past)
    requires bufferSize > 0
    ensures PartSent(PartialFrames(first, parts, bufferSize), [], outcome, before, before)
    ensures [] + Frames(Opcode(TEXT, false), false, first, bufferSize) <= PartialFrames(first, parts, bufferSize)
    ensures [] + Frames(Opcode(TEXT, false), false, first, bufferSize) == PartialUpTo(first, parts, 0, bufferSize)
  {
    PartialPrefix(first, parts, 0, bufferSize);
    hide Frames, PartialFrames;
    var start := Frames(Opcode(TEXT, false), false, first, bufferSize);
    assert [] + start == start && before.wire + [] == before.wire;
  }

  lemma {:induction false} PartsEnd(all: seq<Frame>, outcome: nat -> Write, before: Past, now: Past)
    requires PartSent(all, all, outcome, before, now)
    ensures Sent(all, outcome, before.attempts) == |all|
    ensures now.wire == before.wire + all[..Sent(all, outcome, before.attempts)]
  {
    assert all[..|all|] == all;
    hide Sent;
  }

  // ---- the loop's bookkeeping ----

  /** One write of the loop, and what it means for the call. */
  method SendOne(t: Transport, opcode: Opcode, buffer: array<byte>, n: nat, ghost frames: seq<Frame>, ghost len: nat,
                 ghost before: Past, ghost done: nat)
      returns (wlen: int)
    requires n <= buffer.Length && done < |frames| && frames[done] == Frame(opcode.code, opcode.fin, buffer[..n])
    requires Calling(frames, t.outcome, before, t.View(), done)
    modifies t
    ensures if wlen < 0 || (wlen == 0 && n != 0) then Called(frames, len, t.outcome, before, t.View(), wlen)
            else wlen == n && Calling(frames, t.outcome, before, t.View(), done + 1)
  {
    OneMore(frames, t.outcome, before.attempts, done, before.wire);
    WriteResult(t.outcome(before.attempts + done), n);
    wlen := t.SendRaw(opcode, buffer, n);
    hide Sent, Fails, Written;
  }

  lemma {:induction false} CallBegins(frames: seq<Frame>, outcome: nat -> Write, before: Past)
    ensures Calling(frames, outcome, before, before, 0)
  {
    assert frames[0..] == frames && before.wire + frames[..0] == before.wire;
  }

  lemma {:induction false} NextFrame(frames: seq<Frame>, done: nat, f: Frame, tail: seq<Frame>)
    requires done <= |frames| && frames[done..] == [f] + tail
    ensures done < |frames| && frames[done] == f && frames[done + 1..] == tail
  {
    assert frames[done..][0] == f && frames[done..][1..] == tail;
  }

  lemma {:induction false} CallEnds(frames: seq<Frame>, len: nat, outcome: nat -> Write, before: Past, now: Past,
                                    done: nat)
    requires Calling(frames, outcome, before, now, done) && frames[done..] == []
    ensures Called(frames, len, outcome, before, now, len)
  {
    assert |frames[done..]| == |frames| - done;
  }

  /** The write of frame `done` decides whether the count goes on. */
  lemma {:induction false} OneMore(frames: seq<Frame>, outcome: nat -> Write, at: nat, done: nat, before: seq<Frame>)
    requires done < |frames|
    requires Sent(frames, outcome, at) == done + Sent(frames[done..], outcome, at + done)
    ensures if Fails(outcome(at + done), |frames[done].payload|) then Sent(frames, outcome, at) == done
            else Sent(frames, outcome, at) == done + 1 + Sent(frames[done + 1..], outcome, at + done + 1)
    ensures before + frames[..done + 1] == before + frames[..done] + [frames[done]]
    ensures before + frames[..done] + [] == before + frames[..done]
  {
    assert frames[done..][1..] == frames[done + 1..];
  }

  lemma {:induction false} WriteResult(w: Write, n: nat)
    ensures Fails(w, n) <==> Written(w, n) < 0 || (Written(w, n) == 0 && n != 0)
  {
  }

  lemma {:induction false} HasFrames(op: Opcode, fin: bool, data: seq<byte>, bufferSize: nat, before: seq<Frame>)
    requires bufferSize > 0
    ensures data != [] || op.NonZero() ==> before != before + Frames(op, fin, data, bufferSize)
  {
    var frames := Frames(op, fin, data, bufferSize);
    assert |before + frames| == |before| + |frames|;
  }

  /** The result of a call tells whether all its frames are on the wire. */
  lemma {:induction false} CallIsAll(op: Opcode, fin: bool, data: seq<byte>, bufferSize: nat, outcome: nat -> Write,
                                     before: Past, now: Past, ret: int)
    requires bufferSize > 0 && Called(Frames(op, fin, data, bufferSize), |data|, outcome, before, now, ret)
    ensures ret == |data| <==> now.wire == before.wire + Frames(op, fin, data, bufferSize)
  {
    var frames := Frames(op, fin, data, bufferSize);
    SuccessIsAll(op, fin, data, bufferSize, outcome, before.attempts);
    hide Frames, Sent, Result;
    var k := Sent(frames, outcome, before.attempts);
    assert k == |frames| ==> frames[..k] == frames;
    assert k < |frames| ==> |before.wire + frames[..k]| < |before.wire + frames|;
  }

  // ---- what the result means ----

  lemma {:induction false} SentFails(frames: seq<Frame>, outcome: nat -> Write, at: nat)
    ensures var k := Sent(frames, outcome, at); k < |frames| ==> Fails(outcome(at + k), |frames[k].payload|)
    ensures var k := Sent(frames, outcome, at);
            forall i :: 0 <= i < k ==> !Fails(outcome(at + i), |frames[i].payload|)
  {
    if frames != [] && !Fails(outcome(at), |frames[0].payload|) {
      SentFails(frames[1..], outcome, at + 1);
      var k := Sent(frames[1..], outcome, at + 1);
      forall i | 0 <= i < k + 1
        ensures !Fails(outcome(at + i), |frames[i].payload|)
      {
        if i > 0 {
          assert !Fails(outcome(at + 1 + (i - 1)), |frames[1..][i - 1].payload|);
        }
      }
    }
  }

  /** The result is the length iff every frame went out; a call with nothing to send is done at once. */
  lemma {:induction false} SuccessIsAll(op: Opcode, fin: bool, data: seq<byte>, bufferSize: nat,
                                        outcome: nat -> Write, at: nat)
    requires bufferSize > 0
    ensures var frames := Frames(op, fin, data, bufferSize);
            Result(frames, |data|, outcome, at) == |data| <==> Sent(frames, outcome, at) == |frames|
  {
    var frames := Frames(op, fin, data, bufferSize);
    SentFails(frames, outcome, at);
    hide Frames, Sent;
  }

  /** A failed call returns a negative number iff the write that failed did not stall; a stall gives 0. */
  lemma {:induction false} NegativeIffBroken(frames: seq<Frame>, len: nat, outcome: nat -> Write, at: nat)
    requires Sent(frames, outcome, at) < |frames|
    ensures var r, w := Result(frames, len, outcome, at), outcome(at + Sent(frames, outcome, at));
            (r < 0 <==> w.Breaks?) && (r == 0 <==> w.Stalls?)
  {
    SentFails(frames, outcome, at);
    hide Sent;
  }

  /** Every failure of the call is negative, whatever the transport does. */
  ghost predicate FailuresAreNegative(op: Opcode, data: seq<byte>, bufferSize: nat)
    requires bufferSize > 0
  {
    var frames := Frames(op, op.fin, data, bufferSize);
    forall outcome: nat -> Write, at: nat ::
      Sent(frames, outcome, at) < |frames| ==> Result(frames, |data|, outcome, at) < 0
  }

  /** A caller can rely on a negative result for failure exactly when it sends no data. */
  lemma {:induction false} FailuresAreNegativeIffEmpty(op: Opcode, data: seq<byte>, bufferSize: nat)
    requires bufferSize > 0
    ensures FailuresAreNegative(op, data, bufferSize) <==> data == []
  {
    var frames := Frames(op, op.fin, data, bufferSize);
    if data == [] {
      forall outcome: nat -> Write, at: nat | Sent(frames, outcome, at) < |frames|
        ensures Result(frames, |data|, outcome, at) < 0
      {
        SentFails(frames, outcome, at);
      }
    } else {
      StallReturnsZero(op, data, bufferSize);
    }
  }

  /** The failing input: any data on a transport that accepts nothing. The call sent no frame and returns 0. */
  lemma {:induction false} StallReturnsZero(op: Opcode, data: seq<byte>, bufferSize: nat)
    requires bufferSize > 0 && data != []
    ensures var frames, stuck := Frames(op, op.fin, data, bufferSize), (n: nat) => Stalls;
            |frames| > 0 && Sent(frames, stuck, 0) == 0 && Result(frames, |data|, stuck, 0) == 0
  {
    FramesAreACut(op, op.fin, data, bufferSize);
  }

  // ---- one call after another ----

  lemma {:induction false} SentConcat(a: seq<Frame>, b: seq<Frame>, outcome: nat -> Write, at: nat)
    ensures Sent(a + b, outcome, at)
            == if Sent(a, outcome, at) == |a| then |a| + Sent(b, outcome, at + |a|) else Sent(a, outcome, at)
  {
    if a == [] {
      assert a + b == b;
    } else if !Fails(outcome(at), |a[0].payload|) {
      SentConcat(a[1..], b, outcome, at + 1);
      assert (a + b)[1..] == a[1..] + b;
    }
  }

  lemma {:induction false} SentPrefix(a: seq<Frame>, all: seq<Frame>, outcome: nat -> Write, at: nat)
    requires a <= all
    ensures Sent(a, outcome, at) < |a| ==>
              Sent(all, outcome, at) == Sent(a, outcome, at) && all[..Sent(all, outcome, at)] == a[..Sent(a, outcome, at)]
  {
    assert all == a + all[|a|..];
    SentConcat(a, all[|a|..], outcome, at);
  }

  /** More frames after some that all went out. */
  lemma {:induction false} SentAfter(sent: seq<Frame>, more: seq<Frame>, all: seq<Frame>, outcome: nat -> Write,
                                     at: nat)
    requires sent + more <= all && Sent(sent, outcome, at) == |sent|
    ensures var k := Sent(more, outcome, at + |sent|);
            && Sent(sent + more, outcome, at) == |sent| + k
            && sent + more[..k] == (sent + more)[..|sent| + k]
            && (k < |more| ==> Sent(all, outcome, at) == |sent| + k && all[..|sent| + k] == sent + more[..k])
  {
    SentConcat(sent, more, outcome, at);
    SentPrefix(sent + more, all, outcome, at);
  }

  lemma {:induction false} NoFrames(fin: bool, bufferSize: nat)
    requires bufferSize > 0
    ensures Frames(Opcode(CONT, false), fin, [], bufferSize) == []
  {
  }

  /** memcpy(dst, data + from, n) */
  method CopyTo(dst: array<byte>, data: seq<byte>, from: nat, n: nat)
    requires n <= dst.Length && from + n <= |data|
    modifies dst
    ensures dst[..n] == data[from..from + n]
  {
    for i := 0 to n
      invariant dst[..i] == data[from..from + i]
    {
      dst[i] := data[from + i];
    }
  }

  /** The frame the loop writes next, and the frames after it. */
  lemma {:induction false} FramesHead(opcode: Opcode, fin: bool, data: seq<byte>, from: nat, bufferSize: nat, n: nat,
                                      sent: Opcode)
    requires bufferSize > 0 && from <= |data| && (from < |data| || opcode.NonZero())
    requires if |data| - from > bufferSize then n == bufferSize && sent == Opcode(opcode.code, false)
             else n == |data| - from && sent == Opcode(opcode.code, fin)
    ensures Frames(opcode, fin, data[from..], bufferSize)
            == [Frame(sent.code, sent.fin, data[from..from + n])]
               + Frames(Opcode(CONT, false), fin, data[from + n..], bufferSize)
  {
    var left := data[from..];
    assert left[..n] == data[from..from + n] && left[n..] == data[from + n..];
    if |left| <= bufferSize {
      assert data[from + n..] == [] && left[..n] == left;
      NoFrames(fin, bufferSize);
    }
  }

  // ---- what a cut is ----

  /** The frames of one message: the opcode on the first, continuations after it, FIN on the last only. */
  ghost predicate WellFormed(frames: seq<Frame>, code: nat, payload: seq<byte>) {
    && |frames| > 0 && frames[0].code == code
    && (forall i :: 0 < i < |frames| ==> frames[i].code == CONT)
    && (forall i :: 0 <= i < |frames| ==> (frames[i].fin <==> i == |frames| - 1))
    && Payload(frames) == payload
  }

  /** The frames of a message that is still open: as above, with no FIN yet. */
  ghost predicate Open(frames: seq<Frame>, code: nat, payload: seq<byte>) {
    && (|frames| > 0 ==> frames[0].code == code)
    && (forall i :: 0 < i < |frames| ==> frames[i].code == CONT)
    && (forall i :: 0 <= i < |frames| ==> !frames[i].fin)
    && Payload(frames) == payload
  }

  ghost predicate FitsBuffer(frames: seq<Frame>, bufferSize: nat) {
    && (forall i :: 0 <= i < |frames| ==> |frames[i].payload| <= bufferSize)
    && (forall i :: 0 <= i < |frames| - 1 ==> |frames[i].payload| == bufferSize)
  }

  /** A full frame before a cut message is a cut message. */
  lemma {:induction false} FullFrameFirst(head: Frame, tail: seq<Frame>, rest: seq<byte>, bufferSize: nat)
    requires !head.fin && |head.payload| == bufferSize && FitsBuffer(tail, bufferSize)
    requires Open(tail, CONT, rest) || WellFormed(tail, CONT, rest)
    ensures FitsBuffer([head] + tail, bufferSize)
    ensures Open(tail, CONT, rest) ==> Open([head] + tail, head.code, head.payload + rest)
    ensures WellFormed(tail, CONT, rest) ==> WellFormed([head] + tail, head.code, head.payload + rest)
  {
    PayloadConcat([head], tail);
    PayloadOne(head);
    hide Payload;
    var frames := [head] + tail;
    assert frames[0] == head && forall i :: 0 < i < |frames| ==> frames[i] == tail[i - 1];
  }

  lemma {:induction false} FramesAreACut(opcode: Opcode, fin: bool, data: seq<byte>, bufferSize: nat)
    requires bufferSize > 0
    ensures var frames := Frames(opcode, fin, data, bufferSize);
            && FitsBuffer(frames, bufferSize)
            && (frames == [] <==> data == [] && !opcode.NonZero())
            && (data != [] ==> forall i :: 0 <= i < |frames| ==> frames[i].payload != [])
            && (if fin && frames != [] then WellFormed(frames, opcode.code, data) else Open(frames, opcode.code, data))
    decreases |data|
  {
    var frames := Frames(opcode, fin, data, bufferSize);
    if data == [] && !opcode.NonZero() {
      assert Payload([]) == [];
    } else if |data| > bufferSize {
      var rest := data[bufferSize..];
      var head, tail := frames[0], Frames(Opcode(CONT, false), fin, rest, bufferSize);
      FramesAreACut(Opcode(CONT, false), fin, rest, bufferSize);
      assert frames == [head] + tail && data == head.payload + rest;
      hide Frames, Open, WellFormed, FitsBuffer;
      FullFrameFirst(head, tail, rest, bufferSize);
    } else {
      PayloadOne(frames[0]);
    }
  }

  // ---- the partial-send API ----

  function Continuations(parts: seq<seq<byte>>, bufferSize: nat): seq<Frame>
    requires bufferSize > 0
  {
    if parts == [] then []
    else Continuations(parts[..|parts| - 1], bufferSize)
         + Frames(Opcode(CONT, false), false, parts[|parts| - 1], bufferSize)
  }

  /** What text_partial, any number of cont_msg, and fin put on the wire. */
  function PartialFrames(first: seq<byte>, parts: seq<seq<byte>>, bufferSize: nat): seq<Frame>
    requires bufferSize > 0
  {
    Frames(Opcode(TEXT, false), false, first, bufferSize) + Continuations(parts, bufferSize)
    + [Frame(CONT, true, [])]
  }

  /** The frames of the first call and of the first k continuations. */
  function PartialUpTo(first: seq<byte>, parts: seq<seq<byte>>, k: nat, bufferSize: nat): seq<Frame>
    requires bufferSize > 0 && k <= |parts|
  {
    Frames(Opcode(TEXT, false), false, first, bufferSize) + Continuations(parts[..k], bufferSize)
  }

  lemma {:induction false} PartialStep(first: seq<byte>, parts: seq<seq<byte>>, k: nat, bufferSize: nat)
    requires bufferSize > 0 && k < |parts|
    ensures PartialUpTo(first, parts, k + 1, bufferSize)
            == PartialUpTo(first, parts, k, bufferSize) + Frames(Opcode(CONT, false), false, parts[k], bufferSize)
  {
    assert parts[..k + 1][..k] == parts[..k];
    hide Frames;
    Associative(Frames(Opcode(TEXT, false), false, first, bufferSize), Continuations(parts[..k], bufferSize),
                Frames(Opcode(CONT, false), false, parts[k], bufferSize));
  }

  lemma {:induction false} PartialPrefix(first: seq<byte>, parts: seq<seq<byte>>, k: nat, bufferSize: nat)
    requires bufferSize > 0 && k <= |parts|
    ensures PartialUpTo(first, parts, k, bufferSize) <= PartialFrames(first, parts, bufferSize)
    ensures k == 0 ==> PartialUpTo(first, parts, k, bufferSize) == Frames(Opcode(TEXT, false), false, first, bufferSize)
    decreases |parts| - k
  {
    hide Frames;
    if k == |parts| {
      assert parts[..k] == parts;
    } else {
      PartialStep(first, parts, k, bufferSize);
      PartialPrefix(first, parts, k + 1, bufferSize);
    }
    if k == 0 {
      assert parts[..0] == [];
    }
  }

  lemma {:induction false} PartialLast(first: seq<byte>, parts: seq<seq<byte>>, bufferSize: nat)
    requires bufferSize > 0
    ensures PartialFrames(first, parts, bufferSize)
            == PartialUpTo(first, parts, |parts|, bufferSize) + Frames(Opcode(CONT, true), true, [], bufferSize)
  {
    assert parts[..|parts|] == parts;
  }

  lemma {:induction false} OpenConcat(a: seq<Frame>, b: seq<Frame>, code: nat, p: seq<byte>, q: seq<byte>)
    requires a != [] && Open(a, code, p) && Open(b, CONT, q)
    ensures Open(a + b, code, p + q)
  {
    PayloadConcat(a, b);
  }

  lemma {:induction false} ContinuationsOpen(first: seq<Frame>, code: nat, p: seq<byte>, parts: seq<seq<byte>>,
                                             bufferSize: nat)
    requires bufferSize > 0 && first != [] && Open(first, code, p)
    ensures Open(first + Continuations(parts, bufferSize), code, p + Flatten(parts))
  {
    if parts == [] {
      assert first + [] == first && p + [] == p;
    } else {
      var init, last := parts[..|parts| - 1], parts[|parts| - 1];
      ContinuationsOpen(first, code, p, init, bufferSize);
      FramesAreACut(Opcode(CONT, false), false, last, bufferSize);
      var more := Frames(Opcode(CONT, false), false, last, bufferSize);
      OpenConcat(first + Continuations(init, bufferSize), more, code, p + Flatten(init), last);
      Associative(first, Continuations(init, bufferSize), more);
      assert parts == init + [last];
      FlattenAppend(init, last);
      Associative(p, Flatten(init), last);
    }
  }

  /**
   Any list of parts, empty ones included, is exactly one well-formed message whose payload is their
   concatenation.
   */
  lemma {:induction false} PartialSendIsOneMessage(first: seq<byte>, parts: seq<seq<byte>>, bufferSize: nat)
    requires bufferSize > 0
    ensures WellFormed(PartialFrames(first, parts, bufferSize), TEXT, first + Flatten(parts))
  {
    var start := Frames(Opcode(TEXT, false), false, first, bufferSize);
    FramesAreACut(Opcode(TEXT, false), false, first, bufferSize);
    ContinuationsOpen(start, TEXT, first, parts, bufferSize);
    var open, last := start + Continuations(parts, bufferSize), Frame(CONT, true, []);
    PayloadConcat(open, [last]);
    PayloadOne(last);
  }
}
