/**
 How long the client's task takes: every lap of its loop is a bounded number of its own steps, whatever the
 transport, the timers and the other threads do; and a stopped client stays stopped and is down within one lap.
 */
module ClientLaps {
  import opened ClientModel
  import opened ClientLocks

  // ---- a measure of the places in the code ----

  /** The task's own steps it takes at most from here: to the top of its loop, or once stopped to its end. */
  function Rank(pc: TaskPc): (r: nat)
    ensures r <= 27
  {
    match pc
    case Off => 0
    case Stopping => 1
    case ClosingTransport => 2
    case Finishing => 3
    case LoopTest => 4
    case Sleeping => 5
    case MarkClosed => 6
    case AwaitClose => 8
    case IsClosing => 9
    case IsWaiting => 10
    case Polling => 13
    case IsConnected => 14
    case PongCheck => 17
    case Piggyback => 24
    case Connecting => 25
    case Switch => 26
    case Aborting(cause) => if AfterAbort(cause) == Unlock(Again) then 6 else 16
    case Receiving(place) => if place == InPoll then 11 else 23
    case Unlock(next) => RankOfNext(next)
    case WantLock(goal) => RankOfGoal(goal)
    case GivingTx(control, _) => RankOfControl(control)
    case SendingControl(control) => RankOfControl(control) + 1
    case WantLockWithTx(control) => RankOfControl(control) + 2
    case WantTx(control) => RankOfControl(control) + 3
  }

  function RankOfControl(control: Control): (r: nat)
    ensures r <= 18
  {
    if control == Pong(InPoll) then 6 else 18
  }

  function RankOfNext(next: Next): (r: nat)
    ensures r <= 22
  {
    match next
    case Again => 5
    case Inspect => 15
    case Yield => 17
    case FetchTx(control) => RankOfControl(control) + 4
  }

  function RankOfGoal(goal: Goal): (r: nat)
    ensures r <= 27
  {
    match goal
    case Reconnect => 7
    case FailPoll => 7
    case FailPong(place) => if place == InPoll then 7 else 17
    case Receive => 12
    case EndTurn => 16
    case Dispatch => 27
  }

  lemma {:induction false} LocksDescend(s: State, luck: Luck)
    requires OnLocks(s.task)
    ensures Rank(TaskLocks(s, luck).task) < Rank(s.task)
  {
  }

  lemma {:induction false} WorkDescends(c: Config, s: State, luck: Luck)
    requires Working(s.task)
    ensures Rank(TaskWorks(c, s, luck).task) < Rank(s.task)
  {
    hide SendsControl, AbortedLink, AbortedLog;
    if s.task.SendingControl? {
      SendDescends(c, s, luck.yes);
    }
  }

  lemma {:induction false} SendDescends(c: Config, s: State, ok: bool)
    requires s.task.SendingControl?
    ensures Rank(SendsControl(c, s, s.task.control, ok).task) < Rank(s.task)
  {
  }

  lemma {:induction false} RoamingDescends(c: Config, s: State, luck: Luck)
    requires !OnLocks(s.task) && !Working(s.task) && s.task != Off && (s.task == LoopTest ==> !s.link.run)
    ensures Rank(TaskRoams(c, s, luck).task) < Rank(s.task)
  {
  }

  lemma {:induction false} TaskDescends(c: Config, s: State, luck: Luck)
    requires s.task != Off && (s.task == LoopTest ==> !s.link.run)
    ensures Rank(TaskStep(c, s, luck).task) < Rank(s.task)
  {
    hide OnLocks, Working, TaskLocks, TaskWorks, TaskRoams, Rank;
    if OnLocks(s.task) {
      LocksDescend(s, luck);
    } else if Working(s.task) {
      WorkDescends(c, s, luck);
    } else {
      RoamingDescends(c, s, luck);
    }
  }

  lemma {:induction false} OthersKeepTask(c: Config, s: State, a: Action)
    requires Enabled(c, s, a) && !a.TaskRuns?
    ensures Step(c, s, a).task == s.task && (Step(c, s, a).link.run ==> s.link.run)
  {
  }

  // ---- laps ----

  /** The steps of the task from step i to step k. */
  function Turns(actions: seq<Action>, i: nat, k: nat): nat
    requires i <= k <= |actions|
  {
    if i == k then 0 else Turns(actions, i, k - 1) + if actions[k - 1].TaskRuns? then 1 else 0
  }

  /** In every run, a lap of the loop is at most 28 steps of the task: the first, and 27 until its top or its end. */
  lemma {:induction false} LapsAreShort(c: Config, states: seq<State>, actions: seq<Action>, i: nat, k: nat)
    requires IsRun(c, states, actions) && i <= k < |states|
    requires forall x :: i <= x < k ==> states[x].task != LoopTest && states[x].task != Off
    ensures Turns(actions, i, k) + Rank(states[k].task) <= Rank(states[i].task) <= 27
  {
    hide Step, Enabled, Rank;
    if i < k {
      LapsAreShort(c, states, actions, i, k - 1);
      Descends(c, states[k - 1], actions[k - 1]);
    }
  }

  lemma {:induction false} Descends(c: Config, s: State, a: Action)
    requires Enabled(c, s, a) && s.task != Off && (s.task == LoopTest ==> !s.link.run)
    ensures var t := Step(c, s, a);
            Rank(t.task) + (if a.TaskRuns? then 1 else 0) <= Rank(s.task)
  {
    hide TaskStep, SenderStep, Rank;
    match a
    case TaskRuns(luck) => TaskDescends(c, s, luck);
    case _ => OthersKeepTask(c, s, a);
  }

  // ---- stopping ----

  lemma {:induction false} TaskStarts(c: Config, s: State, luck: Luck)
    requires !s.link.run && TaskStep(c, s, luck).link.run
    ensures s.task == Off && TaskStep(c, s, luck).log.events == s.log.events + [Begin]
  {
  }

  /** In every run, a client that has been stopped runs again only by a new start, which reports BEGIN. */
  lemma {:induction false} StoppedStays(c: Config, states: seq<State>, actions: seq<Action>, i: nat, k: nat)
      returns (j: nat)
    requires IsRun(c, states, actions) && i < k < |states| && actions[i] == Stop && states[k].link.run
    ensures i < j < k && states[j].task == Off && states[j + 1].log.events == states[j].log.events + [Begin]
  {
    assert !states[i + 1].link.run;
    j := StartedAgain(c, states, actions, i + 1, k);
  }

  lemma {:induction false} StartedAgain(c: Config, states: seq<State>, actions: seq<Action>, i: nat, k: nat)
      returns (j: nat)
    requires IsRun(c, states, actions) && i <= k < |states| && !states[i].link.run && states[k].link.run
    ensures i <= j < k && states[j].task == Off && states[j + 1].log.events == states[j].log.events + [Begin]
  {
    hide Step, Enabled;
    if states[k - 1].link.run {
      j := StartedAgain(c, states, actions, i, k - 1);
    } else {
      j := k - 1;
      RunBegins(c, states[j], actions[j]);
    }
  }

  lemma {:induction false} RunBegins(c: Config, s: State, a: Action)
    requires Enabled(c, s, a) && !s.link.run && Step(c, s, a).link.run
    ensures s.task == Off && Step(c, s, a).log.events == s.log.events + [Begin]
  {
    hide TaskStep, SenderStep;
    match a
    case TaskRuns(luck) => TaskStarts(c, s, luck);
    case _ => OthersKeepTask(c, s, a);
  }

  /**
   In every run, a client that does not run is down within 27 steps of its task, wherever it was when it was
   stopped and whatever happens meanwhile.
   */
  lemma {:induction false} StopsInTime(c: Config, states: seq<State>, actions: seq<Action>, i: nat, k: nat)
    requires IsRun(c, states, actions) && i <= k < |states| && !states[i].link.run
    requires forall x :: i <= x < k ==> states[x].task != Off
    ensures Turns(actions, i, k) + Rank(states[k].task) <= Rank(states[i].task) <= 27
    ensures Turns(actions, i, k) == 27 ==> states[k].task == Off
  {
    StopsDown(c, states, actions, i, k);
    RankOfOff(states[k].task);
  }

  lemma {:induction false} RankOfOff(pc: TaskPc)
    ensures Rank(pc) == 0 <==> pc == Off
  {
  }

  lemma {:induction false} StopsDown(c: Config, states: seq<State>, actions: seq<Action>, i: nat, k: nat)
    requires IsRun(c, states, actions) && i <= k < |states| && !states[i].link.run
    requires forall x :: i <= x < k ==> states[x].task != Off
    ensures Turns(actions, i, k) + Rank(states[k].task) <= Rank(states[i].task) && !states[k].link.run
  {
    hide Step, Enabled, Rank;
    if i < k {
      StopsDown(c, states, actions, i, k - 1);
      var s, a := states[k - 1], actions[k - 1];
      Descends(c, s, a);
      if Step(c, s, a).link.run {
        RunBegins(c, s, a);
      }
    }
  }
}
