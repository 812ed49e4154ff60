/**
 The interruptible reconnect wait: the task sleeps until its deadline or a wake-up bit, while any number of
 threads change the timeout and any number stop the client. One step per access to what they share.
 */
module ReconnectWait {

  /**
   Where the task is: at the test of `run`; in the locked check, before and after it reads the timeout; about
   to clear the bit; about to read the timeout, then `run`, then the clock; asleep; or out of the wait.
   */
  datatype Pc =
    | AtLoop
    | Locked
    | Checking(timeout: int)
    | ToClear
    | ToRead
    | HasRead(timeout: int)
    | ToSleep(timeout: int)
    | Asleep(timeout: int, deadline: nat)
    | Left(timeout: int)
    | Finished

  /**
   `tick` is the time the wait began and `timeout` the shared wait_timeout_ms. `setters` are the threads
   between their write and their set-bit, `stoppers` those between clearing `run` and setting the stop bit.
   */
  datatype State = State(now: nat, tick: nat, timeout: int, wakeup: bool, run: bool, stopBit: bool,
                         setters: set<nat>, stoppers: set<nat>, pc: Pc)

  datatype Action =
    | Tick(passed: nat)
    | Write(thread: nat, ms: int)
    | SetBit(thread: nat)
    | ClearRun(thread: nat)
    | SetStop(thread: nat)
    | Task

  /** The wake-up time for a wait of `remaining` ms: whole kernel ticks, and at least one. */
  function Deadline(now: nat, remaining: nat, period: nat): (r: nat)
    requires period > 0
    ensures now < r <= now + remaining + period && now + remaining < r + period
  {
    var ticks := remaining / period;
    assert ticks * period <= remaining < ticks * period + period;
    now + (if ticks == 0 then period else ticks * period)
  }

  /** A blocked task can go on once a bit is set or its deadline has come; a thread sets the bit it owes. */
  predicate Enabled(s: State, a: Action) {
    match a
    case Tick(_) => true
    case Write(thread, ms) => ms > 0 && thread !in s.setters
    case SetBit(thread) => thread in s.setters
    case ClearRun(thread) => thread !in s.stoppers
    case SetStop(thread) => thread in s.stoppers
    case Task =>
      match s.pc
      case Asleep(_, deadline) => s.wakeup || s.stopBit || s.now >= deadline
      case Left(_) => false
      case Finished => false
      case _ => true
  }

  function TaskStep(s: State, period: nat): State
    requires period > 0 && s.tick <= s.now
  {
    match s.pc
    case AtLoop => s.(pc := if s.run then Locked else Finished)
    case Locked => s.(pc := Checking(s.timeout))
    case Checking(v) => s.(pc := if v <= 0 || s.now - s.tick >= v then Left(v) else ToClear)
    case ToClear => s.(wakeup := false, pc := ToRead)
    case ToRead => s.(pc := HasRead(s.timeout))
    case HasRead(v) => s.(pc := if s.run && v > 0 then ToSleep(v) else AtLoop)
    case ToSleep(v) =>
      var elapsed := s.now - s.tick;
      s.(pc := if elapsed < v then Asleep(v, Deadline(s.now, v - elapsed, period)) else AtLoop)
    case Asleep(_, _) => s.(pc := AtLoop)
    case Left(_) => s
    case Finished => s
  }

  function Step(s: State, a: Action, period: nat): State
    requires period > 0 && s.tick <= s.now
  {
    match a
    case Tick(passed) => s.(now := s.now + passed)
    case Write(thread, ms) => s.(timeout := ms, setters := s.setters + {thread})
    case SetBit(thread) => s.(wakeup := true, setters := s.setters - {thread})
    case ClearRun(thread) => s.(run := false, stoppers := s.stoppers + {thread})
    case SetStop(thread) => s.(stopBit := true, stoppers := s.stoppers - {thread})
    case Task => TaskStep(s, period)
  }

  /** The value the task took for its sleep is the current one, or a wake-up is on its way. */
  predicate Fresh(s: State, v: int) {
    v == s.timeout || s.wakeup || s.setters != {}
  }

  predicate Inv(s: State, period: nat) {
    && s.tick <= s.now
    && (!s.run ==> s.stopBit || s.stoppers != {})
    && match s.pc
       case HasRead(v) => Fresh(s, v)
       case ToSleep(v) => Fresh(s, v) && v > 0
       case Asleep(v, deadline) => Fresh(s, v) && v > 0 && deadline <= s.tick + v + period && s.tick + v < deadline + period
       case Left(v) => v <= 0 || s.now - s.tick >= v
       case _ => true
  }

  /** The wait begins with the task in its loop or past the locked check; the other threads are anywhere. */
  predicate Starts(s: State) {
    s.tick <= s.now && (s.pc == AtLoop || s.pc == ToClear) && (!s.run ==> s.stopBit || s.stoppers != {})
  }

  ghost predicate IsRun(states: seq<State>, actions: seq<Action>, period: nat) {
    && period > 0 && |states| == |actions| + 1 && Starts(states[0])
    && forall i :: 0 <= i < |actions| ==>
         states[i].tick <= states[i].now && Enabled(states[i], actions[i])
         && states[i + 1] == Step(states[i], actions[i], period)
  }

  lemma {:induction false} TaskKeepsInv(s: State, period: nat)
    requires period > 0 && Inv(s, period) && Enabled(s, Task)
    ensures Inv(TaskStep(s, period), period)
  {
    hide Deadline;
  }

  lemma {:induction false} StepKeepsInv(s: State, a: Action, period: nat)
    requires period > 0 && Inv(s, period) && Enabled(s, a)
    ensures Inv(Step(s, a, period), period) && Step(s, a, period).tick == s.tick
  {
    hide TaskStep;
    if a == Task {
      TaskKeepsInv(s, period);
      TaskKeepsTick(s, period);
    }
  }

  lemma {:induction false} TaskKeepsTick(s: State, period: nat)
    requires period > 0 && s.tick <= s.now
    ensures TaskStep(s, period).tick == s.tick
  {
    hide Deadline;
  }

  lemma {:induction false} RunKeepsInv(states: seq<State>, actions: seq<Action>, period: nat, k: nat)
    requires IsRun(states, actions, period) && k < |states|
    ensures Inv(states[k], period) && states[k].tick == states[0].tick
  {
    if k > 0 {
      RunKeepsInv(states, actions, period, k - 1);
      StepKeepsInv(states[k - 1], actions[k - 1], period);
    }
  }

  /**
   No lost wake-up: whenever the task is blocked, it sleeps on the current timeout, or WAKEUP_BIT is set, or a
   setter is between its write and its set-bit; and a stopped client has its stop bit set or about to be.
   */
  lemma {:induction false} NoLostWakeup(states: seq<State>, actions: seq<Action>, period: nat, k: nat)
    requires IsRun(states, actions, period) && k < |states| && states[k].pc.Asleep?
    ensures var s := states[k];
            && (s.pc.timeout == s.timeout || s.wakeup || s.setters != {})
            && (s.run || s.stopBit || s.stoppers != {})
  {
    RunKeepsInv(states, actions, period, k);
  }

  /**
   So it never oversleeps: once no setter or stopper is half done, the task can go on as soon as the client is
   stopped or one kernel tick has passed since the current timeout ran out.
   */
  lemma {:induction false} WakesInTime(states: seq<State>, actions: seq<Action>, period: nat, k: nat)
    requires IsRun(states, actions, period) && k < |states| && states[k].pc.Asleep?
    requires states[k].setters == {} && states[k].stoppers == {}
    requires !states[k].run || states[k].now >= states[0].tick + states[k].timeout + period
    ensures Enabled(states[k], Task)
  {
    RunKeepsInv(states, actions, period, k);
  }

  /** The timeout the task goes by once it is past its read. */
  function Read(pc: Pc): int {
    match pc
    case Checking(v) => v
    case Left(v) => v
    case _ => 0
  }

  predicate PastRead(pc: Pc) {
    pc.Checking? || pc.Left?
  }

  lemma {:induction false} ReadStep(s: State, a: Action, period: nat)
    requires period > 0 && s.tick <= s.now && Enabled(s, a) && PastRead(Step(s, a, period).pc)
    ensures var v := Read(Step(s, a, period).pc);
            if PastRead(s.pc) then Read(s.pc) == v else s.pc == Locked && s.timeout == v
  {
    hide Deadline;
  }

  /**
   And it never leaves early: the timeout it last read, in the locked check it is leaving from, has elapsed
   since the wait began.
   */
  lemma {:induction false} NeverLeavesEarly(states: seq<State>, actions: seq<Action>, period: nat, k: nat)
      returns (j: nat)
    requires IsRun(states, actions, period) && k < |states| && states[k].pc.Left?
    ensures j < k && states[j].pc == Locked && forall i :: j < i <= k ==> PastRead(states[i].pc)
    ensures states[j].timeout <= 0 || states[k].now - states[0].tick >= states[j].timeout
  {
    RunKeepsInv(states, actions, period, k);
    j := LastRead(states, actions, period, k);
  }

  lemma {:induction false} LastRead(states: seq<State>, actions: seq<Action>, period: nat, k: nat) returns (j: nat)
    requires IsRun(states, actions, period) && k < |states| && PastRead(states[k].pc)
    ensures j < k && states[j].pc == Locked && states[j].timeout == Read(states[k].pc)
    ensures forall i :: j < i <= k ==> PastRead(states[i].pc)
  {
    hide Step;
    ReadStep(states[k - 1], actions[k - 1], period);
    if PastRead(states[k - 1].pc) {
      j := LastRead(states, actions, period, k - 1);
    } else {
      j := k - 1;
    }
  }

  // ---- and it does leave ----

  /** The locked check leaves the wait exactly when the timeout it read has elapsed, or is not positive. */
  lemma {:induction false} LeavesIff(states: seq<State>, actions: seq<Action>, period: nat, k: nat)
    requires IsRun(states, actions, period) && k < |actions| && actions[k] == Task && states[k].pc.Checking?
    ensures var v := Read(states[k].pc);
            states[k + 1].pc == if v <= 0 || states[k].now - states[0].tick >= v then Left(v) else ToClear
  {
    RunKeepsInv(states, actions, period, k);
  }

  /** The task gives up the wait exactly when it finds the client stopped at the top of its loop. */
  lemma {:induction false} FinishesIff(states: seq<State>, actions: seq<Action>, period: nat, k: nat)
    requires IsRun(states, actions, period) && k < |actions| && actions[k] == Task
    ensures states[k + 1].pc == Finished <==> states[k].pc == AtLoop && !states[k].run
  {
    RunKeepsInv(states, actions, period, k);
    hide Deadline;
  }

  /** It sleeps exactly when part of the timeout it read is left, and then for at least a kernel tick. */
  lemma {:induction false} SleepsIff(states: seq<State>, actions: seq<Action>, period: nat, k: nat)
    requires IsRun(states, actions, period) && k < |actions| && actions[k] == Task && states[k].pc.ToSleep?
    ensures var v := states[k].pc.timeout;
            if states[k].now - states[0].tick < v then
              states[k + 1].pc.Asleep? && states[k + 1].pc.timeout == v && states[k].now < states[k + 1].pc.deadline
            else states[k + 1].pc == AtLoop
  {
    RunKeepsInv(states, actions, period, k);
    StepKeepsInv(states[k], actions[k], period);
    hide Deadline;
  }

  /** And unless it is woken by a bit, it sleeps until less than a kernel tick of that timeout is left. */
  lemma {:induction false} SleepsOn(states: seq<State>, actions: seq<Action>, period: nat, k: nat)
    requires IsRun(states, actions, period) && k < |actions| && actions[k] == Task && states[k].pc.Asleep?
    requires !states[k].wakeup && !states[k].stopBit
    ensures states[0].tick + states[k].pc.timeout < states[k].now + period
  {
    RunKeepsInv(states, actions, period, k);
  }

  /** From clearing the bit to the end of the sleep. */
  predicate InLap(pc: Pc) {
    pc.ToRead? || pc.HasRead? || pc.ToSleep? || pc.Asleep?
  }

  lemma {:induction false} LapStep(s: State, a: Action, period: nat)
    requires period > 0 && s.tick <= s.now && Enabled(s, a) && InLap(Step(s, a, period).pc)
    ensures if InLap(s.pc) then Step(s, a, period).wakeup ==> s.wakeup || a.SetBit?
            else a == Task && s.pc == ToClear && !Step(s, a, period).wakeup
  {
    hide Deadline;
  }

  lemma {:induction false} ClearedAt(states: seq<State>, actions: seq<Action>, period: nat, k: nat) returns (c: nat)
    requires IsRun(states, actions, period) && k < |states| && InLap(states[k].pc)
    ensures c < k && actions[c] == Task && states[c].pc == ToClear
    ensures forall x :: c < x <= k ==> InLap(states[x].pc)
  {
    hide Step, Enabled;
    LapStep(states[k - 1], actions[k - 1], period);
    if InLap(states[k - 1].pc) {
      c := ClearedAt(states, actions, period, k - 1);
    } else {
      c := k - 1;
    }
  }

  /** No stale wake-up: a bit that wakes the task was set after the task cleared it for this sleep. */
  lemma {:induction false} WokenBySetter(states: seq<State>, actions: seq<Action>, period: nat, k: nat)
      returns (c: nat, b: nat)
    requires IsRun(states, actions, period) && k < |states| && InLap(states[k].pc) && states[k].wakeup
    ensures c < b < k && actions[c] == Task && states[c].pc == ToClear && actions[b].SetBit?
    ensures forall x :: c < x <= k ==> InLap(states[x].pc)
  {
    hide Step, Enabled;
    LapStep(states[k - 1], actions[k - 1], period);
    if states[k - 1].wakeup {
      c, b := WokenBySetter(states, actions, period, k - 1);
    } else {
      b := k - 1;
      c := ClearedAt(states, actions, period, k - 1);
    }
  }

  /** The timeout of a sleep, from its read on. */
  predicate GoesBy(pc: Pc, v: int) {
    pc == HasRead(v) || pc == ToSleep(v) || (pc.Asleep? && pc.timeout == v)
  }

  lemma {:induction false} GoesByStep(s: State, a: Action, period: nat, v: int)
    requires period > 0 && s.tick <= s.now && Enabled(s, a) && GoesBy(Step(s, a, period).pc, v)
    ensures GoesBy(s.pc, v) || (a == Task && s.pc == ToRead && s.timeout == v && Step(s, a, period).pc == HasRead(v))
    ensures s.pc.HasRead? && a == Task ==> s.run
    ensures Step(s, a, period).pc.HasRead? && s.pc != ToRead ==> s.pc == Step(s, a, period).pc && a != Task
    ensures s.pc.HasRead? && a != Task ==> Step(s, a, period).pc == s.pc
  {
    hide Deadline;
  }

  /** What a sleep goes by: a timeout read after the bit was cleared, and then that the client was running. */
  lemma {:induction false} SleepGoesBy(states: seq<State>, actions: seq<Action>, period: nat, k: nat, v: int)
      returns (r: nat, h: nat)
    requires IsRun(states, actions, period) && k < |states| && GoesBy(states[k].pc, v)
    ensures r < k && actions[r] == Task && states[r].pc == ToRead && states[r].timeout == v
    ensures !states[k].pc.HasRead? ==> r < h < k && actions[h] == Task && states[h].pc == HasRead(v) && states[h].run
    ensures forall x :: r < x <= k ==> GoesBy(states[x].pc, v)
  {
    hide Step, Enabled;
    GoesByStep(states[k - 1], actions[k - 1], period, v);
    h := 0;
    if GoesBy(states[k - 1].pc, v) {
      r, h := SleepGoesBy(states, actions, period, k - 1, v);
      if states[k - 1].pc.HasRead? {
        h := k - 1;
      }
    } else {
      r := k - 1;
    }
  }

  /** Steps the task takes at most until it leaves, once its time is up. */
  function ToGo(s: State): nat {
    match s.pc
    case Left(_) => 0
    case Checking(v) => if v <= 0 || s.now - s.tick >= v then 1 else 9
    case Locked => 2
    case AtLoop => 3
    case Asleep(_, _) => 4
    case ToSleep(_) => 5
    case HasRead(_) => 6
    case ToRead => 7
    case ToClear => 8
    case Finished => 0
  }

  /** The client runs, nobody is half done with a change, and a kernel tick has passed since the timeout ran out. */
  predicate TimeIsUp(s: State, period: nat) {
    s.run && s.setters == {} && s.now >= s.tick + s.timeout + period && s.pc != Finished
  }

  lemma {:induction false} NearerToLeaving(s: State, period: nat)
    requires period > 0 && Inv(s, period) && TimeIsUp(s, period) && !s.pc.Left?
    ensures Enabled(s, Task) && TimeIsUp(TaskStep(s, period), period)
    ensures ToGo(TaskStep(s, period)) < ToGo(s)
  {
    hide Deadline;
  }

  /** The task running alone for n steps. */
  function Alone(s: State, n: nat, period: nat): State
    requires period > 0 && Inv(s, period) && TimeIsUp(s, period)
    decreases n
  {
    if n == 0 || s.pc.Left? then s
    else
      NearerToLeaving(s, period);
      TaskKeepsInv(s, period);
      Alone(TaskStep(s, period), n - 1, period)
  }

  /** So it leaves: in any reachable state where its time is up, at most nine steps of the task away. */
  lemma {:induction false} LeavesInTime(states: seq<State>, actions: seq<Action>, period: nat, k: nat)
    requires IsRun(states, actions, period) && k < |states|
    ensures Inv(states[k], period)
    ensures TimeIsUp(states[k], period) ==> Alone(states[k], 9, period).pc.Left?
  {
    RunKeepsInv(states, actions, period, k);
    if TimeIsUp(states[k], period) {
      AloneLeaves(states[k], 9, period);
    }
  }

  lemma {:induction false} AloneLeaves(s: State, n: nat, period: nat)
    requires period > 0 && Inv(s, period) && TimeIsUp(s, period) && ToGo(s) <= n
    ensures Alone(s, n, period).pc.Left?
    decreases n
  {
    hide TaskStep, TimeIsUp;
    if !s.pc.Left? {
      NearerToLeaving(s, period);
      TaskKeepsInv(s, period);
      AloneLeaves(TaskStep(s, period), n - 1, period);
    }
  }
}
