/**
 What the client puts on the wire: the frames of one send call are never interleaved with those of another
 thread, in either lock build and with any number of senders; and with a single lock they all go out on one
 connection.
 */
module ClientWire {
  import opened ClientModel
  import opened ClientLocks

  /** No frame of another call stands between two frames of one call, and one thread wrote them. */
  ghost predicate Contiguous(wire: seq<Frame>) {
    && (forall i, j, k :: 0 <= i < j < k < |wire| && wire[i].call == wire[k].call ==> wire[j].call == wire[i].call)
    && (forall i, k :: 0 <= i < k < |wire| && wire[i].call == wire[k].call ==> wire[i].thread == wire[k].thread)
  }

  ghost predicate Numbered(log: Log) {
    forall i :: 0 <= i < |log.wire| ==> log.wire[i].call < log.calls
  }

  /** The call may go on writing: its frames so far, if any, are the last on the wire, and are the thread's. */
  ghost predicate MayContinue(wire: seq<Frame>, call: nat, who: Thread) {
    && (forall i, j :: 0 <= i < j < |wire| && wire[i].call == call ==> wire[j].call == call)
    && (forall i :: 0 <= i < |wire| && wire[i].call == call ==> wire[i].thread == who)
  }

  ghost predicate OnOneConnection(wire: seq<Frame>) {
    forall i, k :: 0 <= i < k < |wire| && wire[i].call == wire[k].call ==> wire[i].conn == wire[k].conn
  }

  ghost predicate OnThisConnection(wire: seq<Frame>, call: nat, conn: nat) {
    forall i :: 0 <= i < |wire| && wire[i].call == call ==> wire[i].conn == conn
  }

  /** The frames of a call on the wire. */
  function Sent(wire: seq<Frame>, call: nat): nat {
    if wire == [] then 0 else Sent(wire[..|wire| - 1], call) + if wire[|wire| - 1].call == call then 1 else 0
  }

  ghost predicate WriterOk(c: Config, s: State, t: nat) {
    t in s.senders && s.senders[t].Writing? ==>
      var call := s.senders[t].call;
      && Sent(s.log.wire, call) + s.senders[t].left == s.senders[t].frames
      && call < s.log.calls && MayContinue(s.log.wire, call, Sender(t))
      && (!c.separateTxLock ==> OnThisConnection(s.log.wire, call, s.link.conn))
  }

  ghost predicate WireOk(c: Config, s: State) {
    && Contiguous(s.log.wire) && Numbered(s.log) && (!c.separateTxLock ==> OnOneConnection(s.log.wire))
    && forall t :: t in s.senders ==> WriterOk(c, s, t)
  }

  // ---- one frame more ----

  lemma {:induction false} ContinueCall(wire: seq<Frame>, f: Frame)
    requires Contiguous(wire) && MayContinue(wire, f.call, f.thread)
    ensures Contiguous(wire + [f]) && MayContinue(wire + [f], f.call, f.thread)
    ensures OnOneConnection(wire) && OnThisConnection(wire, f.call, f.conn) ==>
              OnOneConnection(wire + [f]) && OnThisConnection(wire + [f], f.call, f.conn)
  {
  }

  lemma {:induction false} NewCallMayContinue(log: Log, who: Thread, conn: nat)
    requires Numbered(log)
    ensures MayContinue(log.wire, log.calls, who) && OnThisConnection(log.wire, log.calls, conn)
  {
  }

  lemma {:induction false} SentSnoc(wire: seq<Frame>, f: Frame, call: nat)
    ensures Sent(wire + [f], call) == Sent(wire, call) + if f.call == call then 1 else 0
  {
    assert (wire + [f])[..|wire|] == wire;
  }

  lemma {:induction false} NothingSent(log: Log)
    requires Numbered(log)
    ensures Sent(log.wire, log.calls) == 0
    decreases |log.wire|
  {
    if log.wire != [] {
      NothingSent(log.(wire := log.wire[..|log.wire| - 1]));
    }
  }

  // ---- one writer at a time ----

  /** The thread about to write holds the mutex that every writing sender holds. */
  predicate UnderTx(c: Config, s: State, who: Thread) {
    match who
    case Task => s.task.SendingControl?
    case Sender(t) => t in s.senders && s.senders[t].Writing?
  }

  lemma {:induction false} OneWriter(c: Config, s: State, who: Thread, t: nat)
    requires LocksOk(c, s) && UnderTx(c, s, who) && UnderTx(c, s, Sender(t))
    ensures who == Sender(t)
  {
    var m := if c.separateTxLock then Tx else Main;
    assert Agrees(c, s, who, m) && Agrees(c, s, Sender(t), m);
  }

  /** While a sender writes under the single lock no connection is made. */
  lemma {:induction false} SameConnection(c: Config, s: State, luck: Luck, t: nat)
    requires !c.separateTxLock && LocksOk(c, s) && UnderTx(c, s, Sender(t))
    ensures TaskStep(c, s, luck).link.conn == s.link.conn
  {
    assert Agrees(c, s, Task, Main) && Agrees(c, s, Sender(t), Main);
  }

  // ---- every step ----

  lemma {:induction false} TaskWrites(c: Config, s: State, luck: Luck)
    ensures var wire := TaskStep(c, s, luck).log.wire; var calls := TaskStep(c, s, luck).log.calls;
            (wire == s.log.wire && calls >= s.log.calls)
            || (s.task.SendingControl? && calls == s.log.calls + 1
                && wire == s.log.wire + [Frame(Task, s.log.calls, s.link.conn, KindOf(s.task.control))])
  {
  }

  lemma {:induction false} TaskKeepsWire(c: Config, s: State, luck: Luck)
    requires LocksOk(c, s) && WireOk(c, s)
    ensures WireOk(c, TaskStep(c, s, luck))
  {
    hide TaskStep, LocksOk, Contiguous, MayContinue, OnOneConnection, OnThisConnection, Sent;
    var after := TaskStep(c, s, luck);
    TaskWrites(c, s, luck);
    TaskKeepsSenders(c, s, luck);
    if after.log.wire != s.log.wire {
      var f := Frame(Task, s.log.calls, s.link.conn, KindOf(s.task.control));
      NewCallMayContinue(s.log, Task, f.conn);
      ContinueCall(s.log.wire, f);
    }
    forall t | t in s.senders
      ensures WriterOk(c, after, t)
    {
      assert WriterOk(c, s, t);
      if s.senders[t].Writing? {
        if s.task.SendingControl? {
          OneWriter(c, s, Task, t);
        } else if !c.separateTxLock {
          SameConnection(c, s, luck, t);
        }
      }
    }
  }

  /** What a sender's step does to the log and the connection count. */
  lemma {:induction false} SenderWrites(c: Config, s: State, id: nat, outcome: Outcome)
    requires id in s.senders
    ensures var after := SenderStep(c, s, id, outcome);
            && id in after.senders && after.link.conn == s.link.conn
            && match after.senders[id]
               case Writing(call, _, _, _) =>
                 if s.senders[id].Writing? then
                   s.senders[id].left > 0 && after.senders[id] == s.senders[id].(left := s.senders[id].left - 1)
                   && after.log.calls == s.log.calls
                   && after.log.wire == s.log.wire + [Frame(Sender(id), call, s.link.conn, SentKind(s.senders[id].closing))]
                 else after.senders[id].left == after.senders[id].frames && call == s.log.calls
                      && after.log.calls == s.log.calls + 1 && after.log.wire == s.log.wire
               case _ => after.log.wire == s.log.wire && after.log.calls == s.log.calls
                         && (s.senders[id].Writing? ==>
                               (after.senders[id].Releasing? <==> s.senders[id].left == 0))
  {
  }

  lemma {:induction false} SenderKeepsWire(c: Config, s: State, id: nat, outcome: Outcome)
    requires LocksOk(c, s) && WireOk(c, s) && id in s.senders
    ensures WireOk(c, SenderStep(c, s, id, outcome))
  {
    hide SenderStep, LocksOk, Contiguous, MayContinue, OnOneConnection, OnThisConnection, Sent;
    var after := SenderStep(c, s, id, outcome);
    SenderWrites(c, s, id, outcome);
    SenderMovesAlone(c, s, id, outcome);
    assert WriterOk(c, s, id);
    if after.senders[id].Writing? {
      NewCallMayContinue(s.log, Sender(id), s.link.conn);
      NothingSent(s.log);
      if s.senders[id].Writing? {
        var f := Frame(Sender(id), s.senders[id].call, s.link.conn, SentKind(s.senders[id].closing));
        SentSnoc(s.log.wire, f, f.call);
        ContinueCall(s.log.wire, f);
      }
    }
    forall t | t in after.senders
      ensures WriterOk(c, after, t)
    {
      assert WriterOk(c, s, t);
      if t != id && after.senders[t].Writing? && s.senders[id].Writing? {
        OneWriter(c, s, Sender(id), t);
      }
    }
  }

  lemma {:induction false} StepKeepsWire(c: Config, s: State, a: Action)
    requires LocksOk(c, s) && WireOk(c, s) && Enabled(c, s, a)
    ensures WireOk(c, Step(c, s, a))
  {
    hide TaskStep, SenderStep, LocksOk, Contiguous, MayContinue, OnOneConnection, OnThisConnection, Sent;
    match a
    case TaskRuns(luck) => TaskKeepsWire(c, s, luck);
    case SenderRuns(t, outcome) => SenderKeepsWire(c, s, t, outcome);
    case Call(t, pieces, close) =>
      forall u | u in Step(c, s, a).senders
        ensures WriterOk(c, Step(c, s, a), u)
      {
        assert WriterOk(c, s, u);
      }
    case Stop =>
      forall u | u in s.senders
        ensures WriterOk(c, Step(c, s, a), u)
      {
        assert WriterOk(c, s, u);
      }
  }

  lemma {:induction false} RunKeepsWire(c: Config, states: seq<State>, actions: seq<Action>, k: nat)
    requires IsRun(c, states, actions) && k < |states|
    ensures WireOk(c, states[k])
  {
    hide Step, Enabled;
    if k > 0 {
      RunKeepsWire(c, states, actions, k - 1);
      RunKeepsLocks(c, states, actions, k - 1);
      StepKeepsWire(c, states[k - 1], actions[k - 1]);
    }
  }

  /**
   Frame runs do not interleave: in every run of either build, between two frames of one send call there are
   only frames of that call, written by the same thread. PING, PONG and CLOSE frames of the task are calls of
   their own.
   */
  lemma {:induction false} FrameRunsDoNotInterleave(c: Config, states: seq<State>, actions: seq<Action>, n: nat,
                                                    i: nat, j: nat, k: nat)
    requires IsRun(c, states, actions) && n < |states|
    requires i < j < k < |states[n].log.wire| && states[n].log.wire[i].call == states[n].log.wire[k].call
    ensures var wire := states[n].log.wire;
            wire[j].call == wire[i].call && wire[j].thread == wire[i].thread == wire[k].thread
  {
    RunKeepsWire(c, states, actions, n);
  }

  /** With a single lock a send call never straddles two connections. */
  lemma {:induction false} SingleLockSendsOnOneConnection(c: Config, states: seq<State>, actions: seq<Action>, n: nat,
                                                          i: nat, k: nat)
    requires IsRun(c, states, actions) && n < |states| && !c.separateTxLock
    requires i < k < |states[n].log.wire| && states[n].log.wire[i].call == states[n].log.wire[k].call
    ensures states[n].log.wire[i].conn == states[n].log.wire[k].conn
  {
    RunKeepsWire(c, states, actions, n);
  }

  /** A send call leaves its loop with success iff all its frames are on the wire. */
  lemma {:induction false} SuccessIsComplete(c: Config, states: seq<State>, actions: seq<Action>, k: nat, t: nat)
    requires IsRun(c, states, actions) && k < |actions| && actions[k].SenderRuns? && actions[k].sender == t
    requires t in states[k].senders && t in states[k + 1].senders
    requires states[k].senders[t].Writing? && !states[k + 1].senders[t].Writing?
    ensures states[k + 1].senders[t].Releasing?
            <==> Sent(states[k + 1].log.wire, states[k].senders[t].call) == states[k].senders[t].frames
  {
    hide SenderStep, Sent;
    RunKeepsWire(c, states, actions, k);
    assert WriterOk(c, states[k], t);
    SenderWrites(c, states[k], t, actions[k].outcome);
  }
}
