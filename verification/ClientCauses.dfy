/**
 Why the client does what it does, over every run: each PING, PONG and CLOSE on the wire, each frame of a
 sender, each abort of the task, each noted CLOSE and each scheduled attempt goes back to the event that calls
 for it.
 */
module ClientCauses {
  import opened Basics
  import opened ClientModel
  import opened ClientLocks
  import opened ClientEvents

  // ---- control frames ----

  /** A step of the task that calls for a control frame. */
  predicate Decides(s: State, a: Action, control: Control) {
    && a.TaskRuns?
    && match control
       case Ping => s.task == Switch && s.link.phase == Connected && !s.link.closeSent && a.luck.yes
       case Pong(place) => s.task == Receiving(place) && s.link.open && a.luck.got == PingFrame
       case Close => s.task == Switch && s.link.phase == Closing && !s.link.closeSent
  }

  /** The task is on its way to sending it. */
  predicate Owes(pc: TaskPc, control: Control) {
    pc == Unlock(FetchTx(control)) || pc == WantTx(control) || pc == WantLockWithTx(control)
    || pc == SendingControl(control)
  }

  lemma {:induction false} LocksOwe(s: State, luck: Luck, control: Control)
    requires OnLocks(s.task) && Owes(TaskLocks(s, luck).task, control)
    ensures Owes(s.task, control)
  {
  }

  lemma {:induction false} WorkOwes(c: Config, s: State, luck: Luck, control: Control)
    requires Working(s.task) && Owes(TaskWorks(c, s, luck).task, control)
    ensures Decides(s, TaskRuns(luck), control)
  {
    hide AbortedLink, AbortedLog;
  }

  lemma {:induction false} RoamingOwesNothing(c: Config, s: State, luck: Luck, control: Control)
    requires !OnLocks(s.task) && !Working(s.task)
    ensures !Owes(TaskRoams(c, s, luck).task, control)
  {
  }

  lemma {:induction false} OwedStep(c: Config, s: State, luck: Luck, control: Control)
    requires Owes(TaskStep(c, s, luck).task, control)
    ensures Owes(s.task, control) || Decides(s, TaskRuns(luck), control)
  {
    hide OnLocks, Working, TaskLocks, TaskWorks, TaskRoams, Decides, Owes;
    if OnLocks(s.task) {
      LocksOwe(s, luck, control);
    } else if Working(s.task) {
      WorkOwes(c, s, luck, control);
    } else {
      RoamingOwesNothing(c, s, luck, control);
    }
  }

  lemma {:induction false} OthersKeepTask(c: Config, s: State, a: Action)
    requires Enabled(c, s, a) && !a.TaskRuns?
    ensures Step(c, s, a).task == s.task
  {
  }

  lemma {:induction false} OwedCameFrom(c: Config, states: seq<State>, actions: seq<Action>, k: nat, control: Control)
      returns (j: nat)
    requires IsRun(c, states, actions) && k < |states| && Owes(states[k].task, control)
    ensures j < k && Decides(states[j], actions[j], control)
    ensures forall x :: j < x <= k ==> Owes(states[x].task, control)
  {
    hide TaskStep, SenderStep, Decides, Owes;
    OffOwesNothing(control);
    var s, a := states[k - 1], actions[k - 1];
    if a.TaskRuns? {
      OwedStep(c, s, a.luck, control);
    } else {
      OthersKeepTask(c, s, a);
    }
    if Owes(s.task, control) {
      j := OwedCameFrom(c, states, actions, k - 1, control);
    } else {
      j := k - 1;
    }
  }

  lemma {:induction false} OffOwesNothing(control: Control)
    ensures !Owes(Off, control)
  {
  }

  // ---- where the connection stands meanwhile ----

  /** The task has a connection in hand, which a sender may abort under it. */
  predicate Attending(pc: TaskPc) {
    match pc
    case Piggyback => true
    case Receiving(_) => true
    case Polling => true
    case PongCheck => true
    case WantLock(goal) => goal == Receive
    case Unlock(next) => next.FetchTx? && next.control != Close
    case WantTx(control) => control != Close
    case WantLockWithTx(control) => control != Close
    case SendingControl(control) => control != Close
    case GivingTx(control, _) => control != Close
    case _ => false
  }

  predicate Placed(c: Config, link: Link, task: TaskPc) {
    && (HasConnection(link.phase) && task != Stopping ==> link.open)
    && (Attending(task) ==> link.phase != Init && link.phase != Closing && (link.open ==> link.phase == Connected))
    && (Owes(task, Close) || task == GivingTx(Close, true) ==> link.phase == Closing)
    && (!c.separateTxLock && task.SendingControl? && task.control != Close ==> link.phase == Connected)
    && (task == Off ==> link.phase == Unknown)
  }

  lemma {:induction false} LocksKeepPlaced(c: Config, s: State, luck: Luck)
    requires Placed(c, s.link, s.task) && SuitsBuild(c, s.task) && OnLocks(s.task)
    ensures Placed(c, TaskLocks(s, luck).link, TaskLocks(s, luck).task)
  {
  }

  lemma {:induction false} WorkKeepsPlaced(c: Config, s: State, luck: Luck)
    requires Placed(c, s.link, s.task) && Working(s.task)
    requires (s.task == MarkClosed ==> s.link.phase == Closing) && (s.task == Connecting ==> s.link.phase == Init)
    ensures Placed(c, TaskWorks(c, s, luck).link, TaskWorks(c, s, luck).task)
  {
    hide SendsControl;
    if s.task.SendingControl? {
      SendKeepsPlaced(c, s, luck.yes);
    }
  }

  lemma {:induction false} SendKeepsPlaced(c: Config, s: State, ok: bool)
    requires Placed(c, s.link, s.task) && s.task.SendingControl?
    ensures var t := SendsControl(c, s, s.task.control, ok); Placed(c, t.link, t.task)
  {
  }

  lemma {:induction false} RoamingKeepsPlaced(c: Config, s: State, luck: Luck)
    requires Placed(c, s.link, s.task) && !OnLocks(s.task) && !Working(s.task)
    ensures Placed(c, TaskRoams(c, s, luck).link, TaskRoams(c, s, luck).task)
  {
  }

  lemma {:induction false} TaskKeepsPlaced(c: Config, s: State, luck: Luck)
    requires Placed(c, s.link, s.task) && SuitsBuild(c, s.task)
    requires (s.task == MarkClosed ==> s.link.phase == Closing) && (s.task == Connecting ==> s.link.phase == Init)
    ensures Placed(c, TaskStep(c, s, luck).link, TaskStep(c, s, luck).task)
  {
    hide OnLocks, Working, TaskLocks, TaskWorks, TaskRoams, Placed, SuitsBuild;
    if OnLocks(s.task) {
      LocksKeepPlaced(c, s, luck);
    } else if Working(s.task) {
      WorkKeepsPlaced(c, s, luck);
    } else {
      RoamingKeepsPlaced(c, s, luck);
    }
  }

  lemma {:induction false} AbortKeepsPlaced(c: Config, link: Link, task: TaskPc)
    requires Placed(c, link, task) && !TaskHoldsMain(task)
    ensures Placed(c, AbortedLink(c, link), task)
  {
  }

  lemma {:induction false} SenderKeepsPlaced(c: Config, s: State, id: nat, outcome: Outcome)
    requires Placed(c, s.link, s.task) && LocksOk(c, s) && id in s.senders
    ensures Placed(c, SenderStep(c, s, id, outcome).link, SenderStep(c, s, id, outcome).task)
  {
    SenderReports(c, s, id, outcome);
    hide SenderStep, AbortedLink;
    assert Agrees(c, s, Task, Main) && Agrees(c, s, Sender(id), Main);
    if s.senders[id].SenderAborting? {
      AbortKeepsPlaced(c, s.link, s.task);
    }
  }

  lemma {:induction false} StepKeepsPlaced(c: Config, s: State, a: Action)
    requires Placed(c, s.link, s.task) && LocksOk(c, s) && EventsOk(s) && Enabled(c, s, a)
    ensures Placed(c, Step(c, s, a).link, Step(c, s, a).task)
  {
    hide TaskStep, SenderStep, Protocol, Tallied, Agrees;
    match a
    case TaskRuns(luck) => TaskKeepsPlaced(c, s, luck);
    case SenderRuns(t, outcome) => SenderKeepsPlaced(c, s, t, outcome);
    case Call(t, pieces, close) =>
    case Stop =>
  }

  lemma {:induction false} RunKeepsPlaced(c: Config, states: seq<State>, actions: seq<Action>, k: nat)
    requires IsRun(c, states, actions) && k < |states|
    ensures Placed(c, states[k].link, states[k].task)
  {
    hide Step, Enabled;
    if k > 0 {
      RunKeepsPlaced(c, states, actions, k - 1);
      RunKeepsEvents(c, states, actions, k - 1);
      RunKeepsLocks(c, states, actions, k - 1);
      StepKeepsPlaced(c, states[k - 1], actions[k - 1]);
    }
  }

  lemma {:induction false} TaskCalls(c: Config, s: State, luck: Luck)
    requires Placed(c, s.link, s.task) && TaskStep(c, s, luck).log.calls != s.log.calls
    ensures s.task.SendingControl? && s.link.open
    ensures s.link.phase == (if s.task.control == Close then Closing else Connected)
    ensures TaskStep(c, s, luck).log.wire
            == s.log.wire + if luck.yes then [Frame(Task, s.log.calls, s.link.conn, KindOf(s.task.control))] else []
  {
  }

  lemma {:induction false} TaskWrites(c: Config, s: State, luck: Luck)
    ensures TaskStep(c, s, luck).log.calls == s.log.calls ==> TaskStep(c, s, luck).log.wire == s.log.wire
  {
  }

  lemma {:induction false} LocksMark(s: State, luck: Luck)
    requires OnLocks(s.task) && !s.link.closeSent && TaskLocks(s, luck).link.closeSent
    ensures s.task == GivingTx(Close, true)
  {
  }

  lemma {:induction false} WorkMarks(c: Config, s: State, luck: Luck)
    requires Working(s.task) && !s.link.closeSent && TaskWorks(c, s, luck).link.closeSent
    ensures s.task == SendingControl(Close)
  {
  }

  lemma {:induction false} RoamingMarksNothing(c: Config, s: State, luck: Luck)
    requires !OnLocks(s.task) && !Working(s.task) && TaskRoams(c, s, luck).link.closeSent
    ensures s.link.closeSent
  {
  }

  lemma {:induction false} TaskMarks(c: Config, s: State, luck: Luck)
    requires Placed(c, s.link, s.task) && !s.link.closeSent && TaskStep(c, s, luck).link.closeSent
    ensures s.link.phase == Closing && (s.task == SendingControl(Close) || s.task == GivingTx(Close, true))
  {
    hide OnLocks, Working, TaskLocks, TaskWorks, TaskRoams;
    if OnLocks(s.task) {
      LocksMark(s, luck);
    } else if Working(s.task) {
      WorkMarks(c, s, luck);
    } else {
      RoamingMarksNothing(c, s, luck);
    }
  }

  /**
   In every run, the task writes a control frame only when it is called for: a PING when a turn has found the client
   connected, no CLOSE sent and the interval over; a PONG when it has read a PING; a CLOSE when it has found the
   client closing and no CLOSE sent. And when it writes, on an open transport, the client is still connected, or
   closing, as it was.
   */
  lemma {:induction false} ControlCameFrom(c: Config, states: seq<State>, actions: seq<Action>, k: nat)
      returns (j: nat, control: Control)
    requires IsRun(c, states, actions) && k < |actions| && actions[k].TaskRuns?
    requires states[k + 1].log.wire != states[k].log.wire
    ensures j < k && Decides(states[j], actions[j], control)
    ensures forall x :: j < x <= k ==> Owes(states[x].task, control)
    ensures states[k].link.open && states[k].link.phase == if control == Close then Closing else Connected
    ensures states[k + 1].log.wire
            == states[k].log.wire
               + [Frame(Task, states[k].log.calls, states[k].link.conn,
                        match control case Ping => PingKind case Pong(_) => PongKind case Close => CloseKind)]
  {
    var s, luck := states[k], actions[k].luck;
    RunKeepsPlaced(c, states, actions, k);
    TaskWrites(c, s, luck);
    TaskCalls(c, s, luck);
    hide TaskStep, SenderStep, Decides;
    control := s.task.control;
    j := OwedCameFrom(c, states, actions, k, control);
  }

  // ---- the frames of senders ----

  predicate Calls(pc: SenderPc, a: Action, t: nat) {
    match pc
    case WantSend(frames, closing) => a == Call(t, frames, closing)
    case Writing(_, frames, _, closing) => a == Call(t, frames, closing)
    case _ => false
  }

  predicate InCall(pc: SenderPc) {
    pc.WantSend? || pc.Writing?
  }

  lemma {:induction false} CallStep(c: Config, s: State, a: Action, t: nat)
    requires Enabled(c, s, a) && t in s.senders && t in Step(c, s, a).senders && InCall(Step(c, s, a).senders[t])
    ensures if InCall(s.senders[t]) then
              forall b :: Calls(s.senders[t], b, t) ==> Calls(Step(c, s, a).senders[t], b, t)
            else Calls(Step(c, s, a).senders[t], a, t) && s.link.phase == Connected
  {
    if a.TaskRuns? {
      TaskKeepsSenders(c, s, a.luck);
      hide TaskStep;
    }
  }

  lemma {:induction false} SameSenders(c: Config, s: State, a: Action)
    requires Enabled(c, s, a)
    ensures Step(c, s, a).senders.Keys == s.senders.Keys
  {
    if a.TaskRuns? {
      TaskKeepsSenders(c, s, a.luck);
      hide TaskStep;
    }
  }

  /** In every run, a thread is inside a send call only because it made that call while the client was connected. */
  lemma {:induction false} CallCameFrom(c: Config, states: seq<State>, actions: seq<Action>, k: nat, t: nat)
      returns (j: nat)
    requires IsRun(c, states, actions) && k < |states| && t in states[k].senders && InCall(states[k].senders[t])
    ensures j < k && Calls(states[k].senders[t], actions[j], t) && states[j].link.phase == Connected
  {
    hide Step, Enabled, Calls;
    SameSenders(c, states[k - 1], actions[k - 1]);
    CallStep(c, states[k - 1], actions[k - 1], t);
    if InCall(states[k - 1].senders[t]) {
      j := CallCameFrom(c, states, actions, k - 1, t);
    } else {
      j := k - 1;
    }
  }

  /** A thread gets into a send call exactly while the client is connected; else the call is over at once. */
  lemma {:induction false} CallIff(c: Config, states: seq<State>, actions: seq<Action>, k: nat)
    requires IsRun(c, states, actions) && k < |actions| && actions[k].Call?
    ensures var t := actions[k].caller;
            if states[k].link.phase == Connected then
              states[k + 1]
              == states[k].(senders := states[k].senders[t := WantSend(actions[k].pieces, actions[k].close)])
            else states[k + 1] == states[k]
  {
  }

  lemma {:induction false} SenderWrites(c: Config, s: State, t: nat, outcome: Outcome)
    requires t in s.senders && SenderStep(c, s, t, outcome).log.wire != s.log.wire
    ensures s.senders[t].Writing? && s.senders[t].left > 0 && s.link.open && outcome == Succeeds
    ensures SenderStep(c, s, t, outcome).log.wire
            == s.log.wire + [Frame(Sender(t), s.senders[t].call, s.link.conn,
                                   if s.senders[t].closing then CloseKind else Payload)]
  {
  }

  /** In every run, each frame of a sender belongs to a call it made while connected, and is of the call's kind. */
  lemma {:induction false} FrameCameFrom(c: Config, states: seq<State>, actions: seq<Action>, k: nat) returns (j: nat)
    requires IsRun(c, states, actions) && k < |actions| && !actions[k].TaskRuns?
    requires states[k + 1].log.wire != states[k].log.wire
    ensures j < k && actions[k].SenderRuns? && states[k].link.open && states[j].link.phase == Connected
    ensures actions[j].Call? && actions[j].caller == actions[k].sender
    ensures |states[k + 1].log.wire| == |states[k].log.wire| + 1
    ensures var f := states[k + 1].log.wire[|states[k].log.wire|];
            f.thread == Sender(actions[j].caller) && f.kind == if actions[j].close then CloseKind else Payload
  {
    var s, a := states[k], actions[k];
    OthersWrite(c, s, a);
    SenderWrites(c, s, a.sender, a.outcome);
    hide TaskStep, SenderStep;
    j := CallCameFrom(c, states, actions, k, a.sender);
  }

  lemma {:induction false} OthersWrite(c: Config, s: State, a: Action)
    requires Enabled(c, s, a) && !a.TaskRuns? && Step(c, s, a).log.wire != s.log.wire
    ensures a.SenderRuns?
  {
    hide SenderStep;
  }

  // ---- that a CLOSE was sent ----

  /** A step that sends a CLOSE, or that a close call takes for having sent it. */
  predicate Closes(s: State, a: Action) {
    match a
    case TaskRuns(_) => s.task == SendingControl(Close) && s.link.phase == Closing
    case SenderRuns(t, outcome) =>
      t in s.senders && s.senders[t].Writing? && s.senders[t].closing
      && (s.senders[t].left == 0 || outcome == Stalls)
    case _ => false
  }

  /** On its way to noting it. */
  predicate WillMark(pc: SenderPc) {
    match pc
    case Releasing(mark) => mark
    case Marking => true
    case WantAbort(mark) => mark
    case SenderAborting(mark) => mark
    case SenderUnlock(mark) => mark
    case _ => false
  }

  lemma {:induction false} SenderMarks(c: Config, s: State, t: nat, outcome: Outcome)
    requires t in s.senders
    ensures WillMark(SenderStep(c, s, t, outcome).senders[t]) ==>
              WillMark(s.senders[t]) || Closes(s, SenderRuns(t, outcome))
    ensures SenderStep(c, s, t, outcome).link.closeSent && !s.link.closeSent ==> s.senders[t] == Marking
    ensures forall u :: u in s.senders && u != t ==> SenderStep(c, s, t, outcome).senders[u] == s.senders[u]
  {
  }

  lemma {:induction false} MarkStep(c: Config, s: State, a: Action, t: nat)
    requires Enabled(c, s, a) && t in s.senders && t in Step(c, s, a).senders && WillMark(Step(c, s, a).senders[t])
    ensures WillMark(s.senders[t]) || (a.SenderRuns? && a.sender == t && Closes(s, a))
  {
    hide TaskStep, SenderStep, Closes;
    match a
    case TaskRuns(luck) => TaskKeepsSenders(c, s, luck);
    case SenderRuns(u, outcome) => SenderMarks(c, s, u, outcome);
    case _ =>
  }

  lemma {:induction false} MarkCameFrom(c: Config, states: seq<State>, actions: seq<Action>, k: nat, t: nat)
      returns (j: nat)
    requires IsRun(c, states, actions) && k < |states| && t in states[k].senders && WillMark(states[k].senders[t])
    ensures j < k && actions[j].SenderRuns? && actions[j].sender == t && Closes(states[j], actions[j])
  {
    hide Step, Enabled, Closes;
    SameSenders(c, states[k - 1], actions[k - 1]);
    MarkStep(c, states[k - 1], actions[k - 1], t);
    if WillMark(states[k - 1].senders[t]) {
      j := MarkCameFrom(c, states, actions, k - 1, t);
    } else {
      j := k - 1;
    }
  }

  lemma {:induction false} GivingStep(c: Config, s: State, luck: Luck)
    requires Placed(c, s.link, s.task) && TaskStep(c, s, luck).task == GivingTx(Close, true)
    ensures s.task == SendingControl(Close) && s.link.phase == Closing
  {
  }

  lemma {:induction false} GivingCameFrom(c: Config, states: seq<State>, actions: seq<Action>, k: nat)
      returns (j: nat)
    requires IsRun(c, states, actions) && k < |states| && states[k].task == GivingTx(Close, true)
    ensures j < k && actions[j].TaskRuns? && Closes(states[j], actions[j])
  {
    hide TaskStep, SenderStep;
    RunKeepsPlaced(c, states, actions, k - 1);
    if actions[k - 1].TaskRuns? {
      GivingStep(c, states[k - 1], actions[k - 1].luck);
      j := k - 1;
    } else {
      OthersKeepTask(c, states[k - 1], actions[k - 1]);
      j := GivingCameFrom(c, states, actions, k - 1);
    }
  }

  /**
   In every run, that a CLOSE was sent is noted only after the same thread sent it: the task in CLOSING, or a
   sender in a close call whose frames were all written, or whose write stalled.
   */
  lemma {:induction false} CloseSentCameFrom(c: Config, states: seq<State>, actions: seq<Action>, k: nat)
      returns (j: nat)
    requires IsRun(c, states, actions) && k < |actions| && !states[k].link.closeSent && states[k + 1].link.closeSent
    ensures j <= k && Closes(states[j], actions[j])
    ensures actions[j].TaskRuns? == actions[k].TaskRuns? && actions[j].SenderRuns? == actions[k].SenderRuns?
    ensures actions[k].SenderRuns? ==> actions[j].sender == actions[k].sender
  {
    hide TaskStep, SenderStep;
    var s, a := states[k], actions[k];
    RunKeepsPlaced(c, states, actions, k);
    match a
    case TaskRuns(luck) =>
      TaskMarks(c, s, luck);
      j := k;
      if s.task.GivingTx? {
        j := GivingCameFrom(c, states, actions, k);
      }
    case SenderRuns(t, outcome) =>
      SenderMarks(c, s, t, outcome);
      j := MarkCameFrom(c, states, actions, k, t);
    case _ =>
  }

  // ---- aborts of the task ----

  /** What makes the task abort the connection. */
  predicate Breaks(s: State, luck: Luck, cause: Cause) {
    match cause
    case ConnectFailed => s.task == Connecting && luck.connect == Refused
    case PongLate => s.task == PongCheck && luck.yes
    case PollFailed => s.task == Polling && luck.got == ReadError
    case ReceiveFailed(place) =>
      || (s.task == Receiving(place) && (!s.link.open || luck.got == ReadError))
      || (s.task == WantTx(Pong(place)) && (s.locks.tx.Some? || !luck.yes))
  }

  predicate WillAbort(pc: TaskPc, cause: Cause) {
    || pc == Aborting(cause)
    || (pc == WantLock(FailPoll) && cause == PollFailed)
    || (pc.WantLock? && pc.goal.FailPong? && cause == ReceiveFailed(pc.goal.place))
  }

  lemma {:induction false} LocksAbort(s: State, luck: Luck, cause: Cause)
    requires OnLocks(s.task) && WillAbort(TaskLocks(s, luck).task, cause)
    ensures WillAbort(s.task, cause) || Breaks(s, luck, cause)
  {
  }

  lemma {:induction false} LocksBreak(s: State, luck: Luck, cause: Cause)
    requires OnLocks(s.task) && Breaks(s, luck, cause)
    ensures WillAbort(TaskLocks(s, luck).task, cause)
  {
  }

  lemma {:induction false} WorkAborts(c: Config, s: State, luck: Luck, cause: Cause)
    requires Working(s.task)
    ensures WillAbort(TaskWorks(c, s, luck).task, cause) <==> Breaks(s, luck, cause)
  {
    hide AbortedLink, AbortedLog;
  }

  lemma {:induction false} RoamingAborts(c: Config, s: State, luck: Luck, cause: Cause)
    requires !OnLocks(s.task) && !Working(s.task)
    ensures WillAbort(TaskRoams(c, s, luck).task, cause) <==> Breaks(s, luck, cause)
  {
  }

  lemma {:induction false} AbortStep(c: Config, s: State, luck: Luck, cause: Cause)
    requires !WillAbort(s.task, cause)
    ensures WillAbort(TaskStep(c, s, luck).task, cause) <==> Breaks(s, luck, cause)
  {
    hide OnLocks, Working, TaskLocks, TaskWorks, TaskRoams, WillAbort, Breaks;
    if OnLocks(s.task) {
      if WillAbort(TaskLocks(s, luck).task, cause) {
        LocksAbort(s, luck, cause);
      } else if Breaks(s, luck, cause) {
        LocksBreak(s, luck, cause);
      }
    } else if Working(s.task) {
      WorkAborts(c, s, luck, cause);
    } else {
      RoamingAborts(c, s, luck, cause);
    }
  }

  /** In every run, the task aborts a connection only for its cause. */
  lemma {:induction false} AbortCameFrom(c: Config, states: seq<State>, actions: seq<Action>, k: nat, cause: Cause)
      returns (j: nat)
    requires IsRun(c, states, actions) && k < |states| && WillAbort(states[k].task, cause)
    ensures j < k && actions[j].TaskRuns? && Breaks(states[j], actions[j].luck, cause)
    ensures forall x :: j < x <= k ==> WillAbort(states[x].task, cause)
  {
    hide TaskStep, SenderStep, Breaks;
    var s, a := states[k - 1], actions[k - 1];
    if !a.TaskRuns? {
      OthersKeepTask(c, s, a);
    }
    if WillAbort(s.task, cause) {
      j := AbortCameFrom(c, states, actions, k - 1, cause);
    } else {
      AbortStep(c, s, a.luck, cause);
      j := k - 1;
    }
  }

  lemma {:induction false} AbortGoesOn(c: Config, s: State, luck: Luck, cause: Cause)
    requires WillAbort(s.task, cause) && s.task != Aborting(cause)
    ensures TaskStep(c, s, luck).task == Aborting(cause)
  {
  }

  /**
   And every cause does lead to it: in every run, from the step after the cause on, the task is on its way to the
   abort until it makes it.
   */
  lemma {:induction false} CauseLeadsToAbort(c: Config, states: seq<State>, actions: seq<Action>, i: nat, k: nat,
                                             cause: Cause)
    requires IsRun(c, states, actions) && i < k < |states|
    requires actions[i].TaskRuns? && Breaks(states[i], actions[i].luck, cause)
    requires forall x :: i < x < k && actions[x].TaskRuns? ==> states[x].task != Aborting(cause)
    ensures WillAbort(states[k].task, cause)
  {
    hide TaskStep, SenderStep, Breaks, WillAbort;
    if i < k - 1 {
      CauseLeadsToAbort(c, states, actions, i, k - 1, cause);
      var s, a := states[k - 1], actions[k - 1];
      if a.TaskRuns? {
        AbortGoesOn(c, s, a.luck, cause);
        AbortingAborts(cause);
      } else {
        OthersKeepTask(c, s, a);
      }
    } else {
      BreaksNotYet(states[i], actions[i].luck, cause);
      AbortStep(c, states[i], actions[i].luck, cause);
    }
  }

  lemma {:induction false} AbortingAborts(cause: Cause)
    ensures WillAbort(Aborting(cause), cause)
  {
  }

  lemma {:induction false} BreaksNotYet(s: State, luck: Luck, cause: Cause)
    requires Breaks(s, luck, cause)
    ensures !WillAbort(s.task, cause)
  {
  }

  // ---- attempts ----

  /** In every run, the wait for the next attempt ends in an attempt only when its time is over. */
  lemma {:induction false} AttemptAfterWait(c: Config, states: seq<State>, actions: seq<Action>, k: nat)
    requires IsRun(c, states, actions) && k < |actions|
    requires states[k].link.phase == WaitTimeout && states[k + 1].link.phase != WaitTimeout
    ensures actions[k].TaskRuns?
    ensures (states[k].task == Switch && actions[k].luck.yes && states[k + 1].link.phase == Init)
            || (states[k].task == Stopping && states[k + 1].link.phase == Unknown)
  {
    var s, a := states[k], actions[k];
    RunKeepsPlaced(c, states, actions, k);
    RunKeepsEvents(c, states, actions, k);
    match a
    case TaskRuns(luck) => WaitEnds(c, s, luck);
    case SenderRuns(t, outcome) =>
      SenderReports(c, s, t, outcome);
      hide SenderStep;
    case _ =>
  }

  lemma {:induction false} WaitEnds(c: Config, s: State, luck: Luck)
    requires Placed(c, s.link, s.task) && EventsOk(s)
    requires s.link.phase == WaitTimeout && TaskStep(c, s, luck).link.phase != WaitTimeout
    ensures (s.task == Switch && luck.yes && TaskStep(c, s, luck).link.phase == Init)
            || (s.task == Stopping && TaskStep(c, s, luck).link.phase == Unknown)
  {
    hide Protocol, Tallied;
  }
}
