/**
 Lock discipline of the client: who holds which mutex where, that no reachable state is deadlocked, that every
 holder gives its mutex back within a bounded number of its own steps, and that connections are aborted with
 `lock` held by the aborting thread.
 */
module ClientLocks {
  import opened Basics
  import opened ClientModel

  datatype Mutex = Main | Tx

  // ---- which mutexes a place in the code holds and waits for ----

  predicate TaskHoldsMain(pc: TaskPc) {
    match pc
    case Switch => true
    case Connecting => true
    case Piggyback => true
    case Receiving(_) => true
    case SendingControl(_) => true
    case GivingTx(_, _) => true
    case PongCheck => true
    case Aborting(_) => true
    case Unlock(_) => true
    case MarkClosed => true
    case _ => false
  }

  predicate TaskHoldsTx(c: Config, pc: TaskPc) {
    pc.WantLockWithTx? || pc.GivingTx? || (c.separateTxLock && pc.SendingControl?)
  }

  predicate SenderHoldsMain(c: Config, pc: SenderPc) {
    pc.SenderAborting? || pc.SenderUnlock? || (!c.separateTxLock && (pc.Writing? || pc.Releasing?))
  }

  predicate SenderHoldsTx(c: Config, pc: SenderPc) {
    c.separateTxLock && (pc.Writing? || pc.Releasing?)
  }

  predicate Holds(c: Config, s: State, who: Thread, m: Mutex) {
    match who
    case Task => if m == Main then TaskHoldsMain(s.task) else TaskHoldsTx(c, s.task)
    case Sender(t) =>
      t in s.senders && if m == Main then SenderHoldsMain(c, s.senders[t]) else SenderHoldsTx(c, s.senders[t])
  }

  predicate Waits(c: Config, s: State, who: Thread, m: Mutex) {
    match who
    case Task => if m == Main then s.task.WantLock? || s.task.WantLockWithTx? else s.task.WantTx?
    case Sender(t) =>
      t in s.senders && match s.senders[t]
                        case WantSend(_, _) => if c.separateTxLock then m == Tx else m == Main
                        case WantAbort(_) => m == Main
                        case _ => false
  }

  function Owner(s: State, m: Mutex): Option<Thread> {
    if m == Main then s.locks.main else s.locks.tx
  }

  // ---- owners and holders agree ----

  predicate Agrees(c: Config, s: State, who: Thread, m: Mutex) {
    Owner(s, m) == Some(who) <==> Holds(c, s, who, m)
  }

  /** Only the two-lock build goes for `tx_lock` on its own. */
  predicate SuitsBuild(c: Config, pc: TaskPc) {
    c.separateTxLock || !(pc.WantTx? || pc.WantLockWithTx? || pc.GivingTx? || (pc.Unlock? && pc.next.FetchTx?))
  }

  ghost predicate LocksOk(c: Config, s: State) {
    SuitsBuild(c, s.task) && forall who: Thread, m: Mutex :: Agrees(c, s, who, m)
  }

  lemma {:induction false} WorkKeepsOwn(c: Config, s: State, luck: Luck, m: Mutex)
    requires SuitsBuild(c, s.task) && Agrees(c, s, Task, m) && Working(s.task)
    ensures SuitsBuild(c, TaskWorks(c, s, luck).task) && Agrees(c, TaskWorks(c, s, luck), Task, m)
  {
  }

  lemma {:induction false} LocksKeepOwn(c: Config, s: State, luck: Luck, m: Mutex)
    requires SuitsBuild(c, s.task) && Agrees(c, s, Task, m) && OnLocks(s.task)
    ensures SuitsBuild(c, TaskLocks(s, luck).task) && Agrees(c, TaskLocks(s, luck), Task, m)
  {
  }

  lemma {:induction false} TaskKeepsOwn(c: Config, s: State, luck: Luck, m: Mutex)
    requires SuitsBuild(c, s.task) && Agrees(c, s, Task, m) && Enabled(c, s, TaskRuns(luck))
    ensures SuitsBuild(c, TaskStep(c, s, luck).task) && Agrees(c, TaskStep(c, s, luck), Task, m)
  {
    hide TaskWorks, TaskLocks;
    if OnLocks(s.task) {
      LocksKeepOwn(c, s, luck, m);
    } else if Working(s.task) {
      WorkKeepsOwn(c, s, luck, m);
    }
  }

  lemma {:induction false} TaskKeepsOthers(c: Config, s: State, luck: Luck, t: nat, m: Mutex)
    requires SuitsBuild(c, s.task) && Enabled(c, s, TaskRuns(luck))
    requires Agrees(c, s, Sender(t), m) && Agrees(c, s, Task, m)
    ensures Agrees(c, TaskStep(c, s, luck), Sender(t), m)
  {
    TaskKeepsSenders(c, s, luck);
    TaskKeepsOwn(c, s, luck, m);
    TaskTakesFree(c, s, luck, m);
    hide TaskStep;
  }

  lemma {:induction false} TaskKeepsSenders(c: Config, s: State, luck: Luck)
    ensures TaskStep(c, s, luck).senders == s.senders
  {
  }

  /** The task leaves a mutex alone, takes it free, or gives its own. */
  lemma {:induction false} TaskTakesFree(c: Config, s: State, luck: Luck, m: Mutex)
    requires Agrees(c, s, Task, m) && Enabled(c, s, TaskRuns(luck))
    ensures var t := TaskStep(c, s, luck);
            Owner(t, m) == Owner(s, m) || (Owner(s, m) == None && Owner(t, m) == Some(Task))
            || (Owner(s, m) == Some(Task) && Owner(t, m) == None)
  {
  }

  lemma {:induction false} SenderKeepsOwn(c: Config, s: State, id: nat, outcome: Outcome, m: Mutex)
    requires Agrees(c, s, Sender(id), m) && Enabled(c, s, SenderRuns(id, outcome))
    ensures var t := SenderStep(c, s, id, outcome);
            Agrees(c, t, Sender(id), m)
            && (Owner(t, m) == Owner(s, m) || (Owner(s, m) == None && Owner(t, m) == Some(Sender(id)))
                || (Owner(s, m) == Some(Sender(id)) && Owner(t, m) == None))
  {
  }

  lemma {:induction false} SenderKeepsOthers(c: Config, s: State, id: nat, outcome: Outcome, who: Thread, m: Mutex)
    requires Enabled(c, s, SenderRuns(id, outcome)) && who != Sender(id)
    requires Agrees(c, s, Sender(id), m) && Agrees(c, s, who, m)
    ensures Agrees(c, SenderStep(c, s, id, outcome), who, m)
  {
    SenderKeepsOwn(c, s, id, outcome, m);
    SenderMovesAlone(c, s, id, outcome);
    hide SenderStep;
  }

  /** A sender's step moves no other thread. */
  lemma {:induction false} SenderMovesAlone(c: Config, s: State, id: nat, outcome: Outcome)
    requires id in s.senders
    ensures var t := SenderStep(c, s, id, outcome);
            t.task == s.task && id in t.senders && t.senders == s.senders[id := t.senders[id]]
  {
  }

  lemma {:induction false} StepKeepsAgreement(c: Config, s: State, a: Action, who: Thread, m: Mutex)
    requires LocksOk(c, s) && Enabled(c, s, a)
    ensures Agrees(c, Step(c, s, a), who, m)
  {
    hide TaskStep, SenderStep;
    assert Agrees(c, s, who, m) && Agrees(c, s, Task, m);
    match a
    case TaskRuns(luck) =>
      TaskKeepsOwn(c, s, luck, m);
      if who.Sender? {
        TaskKeepsOthers(c, s, luck, who.id, m);
      }
    case SenderRuns(t, outcome) =>
      assert Agrees(c, s, Sender(t), m);
      SenderKeepsOwn(c, s, t, outcome, m);
      if who != Sender(t) {
        SenderKeepsOthers(c, s, t, outcome, who, m);
      }
    case Call(t, pieces, close) =>
    case Stop =>
  }

  lemma {:induction false} StepKeepsLocks(c: Config, s: State, a: Action)
    requires LocksOk(c, s) && Enabled(c, s, a)
    ensures LocksOk(c, Step(c, s, a))
  {
    hide TaskStep, SenderStep, Agrees;
    forall who: Thread, m: Mutex
      ensures Agrees(c, Step(c, s, a), who, m)
    {
      StepKeepsAgreement(c, s, a, who, m);
    }
    assert Agrees(c, s, Task, Main);
    if a.TaskRuns? {
      TaskKeepsOwn(c, s, a.luck, Main);
    } else if a.SenderRuns? {
      SenderMovesAlone(c, s, a.sender, a.outcome);
    }
  }

  lemma {:induction false} RunKeepsLocks(c: Config, states: seq<State>, actions: seq<Action>, k: nat)
    requires IsRun(c, states, actions) && k < |states|
    ensures LocksOk(c, states[k])
  {
    if k > 0 {
      RunKeepsLocks(c, states, actions, k - 1);
      StepKeepsLocks(c, states[k - 1], actions[k - 1]);
    }
  }

  // ---- no deadlock ----

  predicate CanRun(c: Config, s: State, who: Thread) {
    match who
    case Task => Enabled(c, s, TaskRuns(Luck(true, Accepted, Nothing)))
    case Sender(t) => Enabled(c, s, SenderRuns(t, Succeeds))
  }

  /** Nobody holds `lock` while waiting for anything; a holder of `tx_lock` waits at most for `lock`. */
  lemma {:induction false} HoldersWaitDownward(c: Config, s: State, who: Thread, m: Mutex)
    requires LocksOk(c, s)
    ensures Owner(s, Main) == Some(who) ==> !Waits(c, s, who, m) && CanRun(c, s, who)
    ensures Owner(s, Tx) == Some(who) && Waits(c, s, who, m) ==> m == Main
    ensures Owner(s, Tx) == Some(who) && !Waits(c, s, who, Main) ==> CanRun(c, s, who)
  {
    assert Agrees(c, s, who, Main) && Agrees(c, s, who, Tx);
  }

  /**
   No reachable state is deadlocked: a thread that waits for a mutex finds it free, or held by a thread that can
   run, or (`tx_lock` only) held by one whose wait for `lock` ends the same way.
   */
  lemma {:induction false} NoDeadlock(c: Config, states: seq<State>, actions: seq<Action>, k: nat, who: Thread,
                                      m: Mutex)
      returns (chain: seq<Thread>)
    requires IsRun(c, states, actions) && k < |states| && Waits(c, states[k], who, m)
    ensures |chain| <= 2
    ensures |chain| == 0 ==> Owner(states[k], m) == None
    ensures |chain| > 0 ==> Owner(states[k], m) == Some(chain[0])
    ensures |chain| == 1 ==> CanRun(c, states[k], chain[0])
    ensures |chain| == 2 ==> m == Tx && Waits(c, states[k], chain[0], Main)
                             && Owner(states[k], Main) == Some(chain[1]) && CanRun(c, states[k], chain[1])
  {
    hide CanRun, Waits;
    RunKeepsLocks(c, states, actions, k);
    var s := states[k];
    chain := [];
    if Owner(s, m).Some? {
      var holder := Owner(s, m).value;
      chain := [holder];
      HoldersWaitDownward(c, s, holder, Main);
      if m == Tx && Waits(c, s, holder, Main) {
        if Owner(s, Main).Some? {
          chain := [holder, Owner(s, Main).value];
          HoldersWaitDownward(c, s, chain[1], Main);
        } else {
          FreeMainUnblocks(c, s, holder);
        }
      }
    }
  }

  lemma {:induction false} FreeMainUnblocks(c: Config, s: State, who: Thread)
    requires LocksOk(c, s) && Owner(s, Main) == None && Owner(s, Tx) == Some(who)
    ensures CanRun(c, s, who)
  {
    assert Agrees(c, s, who, Tx);
  }

  // ---- every path gives back what it took ----

  /** Steps the task takes at most before it gives `lock`. */
  function TaskRank(pc: TaskPc): nat {
    match pc
    case Unlock(_) => 1
    case Aborting(_) => 2
    case MarkClosed => 2
    case PongCheck => 3
    case GivingTx(_, _) => 4
    case SendingControl(_) => 5
    case WantLockWithTx(_) => 6
    case Receiving(_) => 6
    case Piggyback => 7
    case Connecting => 8
    case Switch => 9
    case _ => 0
  }

  /** Steps a sender takes at most before it gives the mutex it is under. */
  function SenderRank(pc: SenderPc): nat {
    match pc
    case SenderUnlock(_) => 1
    case SenderAborting(_) => 2
    case Releasing(_) => 1
    case Writing(_, _, left, _) => left + 3
    case _ => 0
  }

  function Rank(s: State, who: Thread): nat {
    match who
    case Task => TaskRank(s.task)
    case Sender(t) => if t in s.senders then SenderRank(s.senders[t]) else 0
  }

  predicate ActsFor(a: Action, who: Thread) {
    match who
    case Task => a.TaskRuns?
    case Sender(t) => (a.SenderRuns? && a.sender == t) || (a.Call? && a.caller == t)
  }

  lemma {:induction false} TaskGetsOn(c: Config, s: State, luck: Luck, m: Mutex)
    requires SuitsBuild(c, s.task) && Holds(c, s, Task, m) && Holds(c, TaskStep(c, s, luck), Task, m)
    ensures TaskRank(TaskStep(c, s, luck).task) < TaskRank(s.task)
  {
  }

  lemma {:induction false} SenderGetsOn(c: Config, s: State, t: nat, outcome: Outcome, m: Mutex)
    requires t in s.senders && Holds(c, s, Sender(t), m) && Holds(c, SenderStep(c, s, t, outcome), Sender(t), m)
    ensures Rank(SenderStep(c, s, t, outcome), Sender(t)) < Rank(s, Sender(t))
  {
  }

  /**
   A thread that holds a mutex before and after a step got nearer to giving it if it moved, and no farther if
   not.
   */
  lemma {:induction false} HolderGetsOn(c: Config, s: State, a: Action, who: Thread, m: Mutex)
    requires LocksOk(c, s) && Enabled(c, s, a)
    requires Owner(s, m) == Some(who) && Owner(Step(c, s, a), m) == Some(who)
    ensures Rank(Step(c, s, a), who) + (if ActsFor(a, who) then 1 else 0) <= Rank(s, who)
  {
    hide TaskStep, SenderStep;
    StepKeepsLocks(c, s, a);
    assert Agrees(c, s, who, m) && Agrees(c, Step(c, s, a), who, m);
    match a
    case TaskRuns(luck) =>
      if who == Task {
        TaskGetsOn(c, s, luck, m);
      } else {
        TaskKeepsSenders(c, s, luck);
      }
    case SenderRuns(t, outcome) =>
      if who == Sender(t) {
        SenderGetsOn(c, s, t, outcome, m);
      } else {
        SenderMovesAlone(c, s, t, outcome);
      }
    case Call(t, pieces, close) =>
    case Stop =>
  }

  function StepsOf(actions: seq<Action>, who: Thread): nat {
    if actions == [] then 0
    else StepsOf(actions[..|actions| - 1], who) + (if ActsFor(actions[|actions| - 1], who) then 1 else 0)
  }

  /**
   Every path releases what it took: in any run, a thread that keeps a mutex from state i to state j took at most
   Rank(states[i]) steps of its own in between, so at most nine for the task and three more than the frames it
   has left for a sender.
   */
  lemma {:induction false} HeldBriefly(c: Config, states: seq<State>, actions: seq<Action>, i: nat, j: nat,
                                       who: Thread, m: Mutex)
    requires IsRun(c, states, actions) && i <= j < |states|
    requires forall k :: i <= k <= j ==> Owner(states[k], m) == Some(who)
    ensures StepsOf(actions[i..j], who) + Rank(states[j], who) <= Rank(states[i], who)
  {
    hide Step, Enabled, Owner, Rank;
    if i < j {
      HeldBriefly(c, states, actions, i, j - 1, who, m);
      RunKeepsLocks(c, states, actions, j - 1);
      assert states[j - 1 + 1] == Step(c, states[j - 1], actions[j - 1]);
      assert Owner(states[j - 1], m) == Owner(states[j], m) == Some(who);
      HolderGetsOn(c, states[j - 1], actions[j - 1], who, m);
      assert actions[i..j][..|actions[i..j]| - 1] == actions[i..j - 1];
    }
  }

  /** And at rest nothing is held. */
  lemma {:induction false} NothingRetained(c: Config, states: seq<State>, actions: seq<Action>, k: nat,
                                           who: Thread, m: Mutex)
    requires IsRun(c, states, actions) && k < |states|
    requires match who case Task => states[k].task == Off || states[k].task == LoopTest
                       case Sender(t) => t in states[k].senders ==> states[k].senders[t] == Idle
    ensures Owner(states[k], m) != Some(who)
  {
    RunKeepsLocks(c, states, actions, k);
    assert Agrees(c, states[k], who, m);
  }

  // ---- aborts ----

  predicate Aborts(s: State, a: Action, who: Thread) {
    match who
    case Task => a.TaskRuns? && s.task.Aborting?
    case Sender(t) => a.SenderRuns? && a.sender == t && t in s.senders && s.senders[t].SenderAborting?
  }

  /** abort_connection always runs with `lock` held by its caller. */
  lemma {:induction false} AbortHoldsLock(c: Config, states: seq<State>, actions: seq<Action>, k: nat, who: Thread)
    requires IsRun(c, states, actions) && k < |actions| && Aborts(states[k], actions[k], who)
    ensures states[k].locks.main == Some(who)
  {
    RunKeepsLocks(c, states, actions, k);
    assert Agrees(c, states[k], who, Main);
  }

  /** And it is the only thing that reports a disconnection. */
  lemma {:induction false} OnlyAbortsDisconnect(c: Config, s: State, a: Action, who: Thread, found: Phase)
    requires Enabled(c, s, a) && Step(c, s, a).log.events == s.log.events + [Disconnected(who, found)]
    ensures Aborts(s, a, who) && s.link.phase == found
  {
    assert Step(c, s, a).log.events[|s.log.events|] == Disconnected(who, found);
  }
}
