/**
 The connection events an application sees: CONNECTED, DISCONNECTED, CLOSED and FINISH alternate as documented,
 and how many ends are reported between a CONNECTED and the next BEFORE_CONNECT.
 */
module ClientEvents {
  import opened Basics
  import opened ClientModel
  import opened ClientLocks

  predicate Ends(e: Event) {
    e.Disconnected? || e.Closed?
  }

  /** A sender found the next connection attempt already scheduled and reported its predecessor's end again. */
  predicate Stale(e: Event) {
    e.Disconnected? && e.aborter.Sender? && e.found == Init
  }

  /**
   What the log says: `up`, whether the last of CONNECTED, DISCONNECTED, CLOSED and FINISH is CONNECTED; `open`,
   whether a CONNECTED has had no BEFORE_CONNECT or FINISH since; and the ends, and stale ends, since then.
   */
  datatype Tally = Tally(up: bool, open: bool, ends: nat, stale: nat)

  function Count(t: Tally, e: Event): Tally {
    match e
    case Begin => t
    case BeforeConnect => t.(open := false)
    case ConnectedEvent => Tally(true, true, 0, 0)
    case Finish => t.(up := false, open := false)
    case _ => t.(up := false, ends := t.ends + 1, stale := t.stale + if Stale(e) then 1 else 0)
  }

  function Tallied(events: seq<Event>): Tally {
    if events == [] then Tally(false, false, 0, 0)
    else Count(Tallied(events[..|events| - 1]), events[|events| - 1])
  }

  /** Each CONNECTED comes after an end; each BEFORE_CONNECT after exactly one end more than there were stale ones. */
  predicate Proper(t: Tally, e: Event) {
    match e
    case ConnectedEvent => !t.up && !t.open
    case BeforeConnect => t.open ==> t.ends == 1 + t.stale
    case _ => true
  }

  ghost predicate Protocol(events: seq<Event>) {
    forall i :: 0 <= i < |events| ==> Proper(Tallied(events[..i]), events[i])
  }

  lemma {:induction false} Snoc(events: seq<Event>, e: Event)
    ensures Tallied(events + [e]) == Count(Tallied(events), e)
    ensures Protocol(events) && Proper(Tallied(events), e) ==> Protocol(events + [e])
  {
    var more := events + [e];
    assert more[..|events|] == events;
    forall i | 0 <= i < |more| && Protocol(events) && Proper(Tallied(events), e)
      ensures Proper(Tallied(more[..i]), more[i])
    {
      assert i < |events| ==> more[..i] == events[..i];
    }
  }

  // ---- the state behind the log ----

  predicate HasConnection(phase: Phase) {
    phase == Connected || phase == Closing
  }

  /** FINISH has been reported. */
  predicate Over(pc: TaskPc) {
    pc == Off || pc == ClosingTransport || pc == Stopping
  }

  /** Places the task can be at before it has connected, or with nothing connected. */
  predicate BeforeConnecting(pc: TaskPc) {
    match pc
    case WantLock(goal) => goal == Dispatch || goal == EndTurn
    case Aborting(cause) => cause == ConnectFailed
    case Unlock(next) => next == Inspect || next == Again || next == Yield
    case LoopTest => true
    case Switch => true
    case Connecting => true
    case IsConnected => true
    case IsWaiting => true
    case IsClosing => true
    case Finishing => true
    case Sleeping => true
    case _ => false
  }

  predicate Reading(pc: TaskPc) {
    pc == Piggyback || pc.Receiving? || pc == Polling || pc == WantLock(Receive)
  }

  predicate Ending(pc: TaskPc) {
    pc == AwaitClose || pc == WantLock(Reconnect) || pc == MarkClosed
  }

  predicate EventsAgree(link: Link, task: TaskPc, t: Tally) {
    && (t.up ==> HasConnection(link.phase) && !Over(task))
    && (t.open ==> !Over(task) && if HasConnection(link.phase) then t.ends == t.stale == 0 else t.ends == 1 + t.stale)
    && (task == Connecting || task == Aborting(ConnectFailed) ==> link.phase == Init && !t.open)
    && (link.phase == Init ==> BeforeConnecting(task) || Over(task))
    && (Reading(task) && link.open ==> HasConnection(link.phase))
    && (Ending(task) ==> link.phase == Closing)
  }

  ghost predicate EventsOk(s: State) {
    Protocol(s.log.events) && EventsAgree(s.link, s.task, Tallied(s.log.events))
  }

  // ---- every step ----

  /** The event a step reports, if any. */
  predicate Reports(before: Log, after: Log, e: Option<Event>) {
    after.events == if e.Some? then before.events + [e.value] else before.events
  }

  function CountAny(t: Tally, e: Option<Event>): Tally {
    if e.Some? then Count(t, e.value) else t
  }

  lemma {:induction false} ReportKeepsProtocol(before: Log, after: Log, e: Option<Event>)
    requires Reports(before, after, e) && Protocol(before.events)
    requires e.Some? ==> Proper(Tallied(before.events), e.value)
    ensures Protocol(after.events) && Tallied(after.events) == CountAny(Tallied(before.events), e)
  {
    if e.Some? {
      Snoc(before.events, e.value);
    }
  }

  function AbortEvent(link: Link, who: Thread): Option<Event> {
    if Abortable(link.phase) then Some(Disconnected(who, link.phase)) else None
  }

  function TaskEvent(c: Config, s: State, luck: Luck): Option<Event> {
    match s.task
    case Off => Some(Begin)
    case Switch => if s.link.phase == Init then Some(BeforeConnect) else None
    case Connecting => if luck.connect == Accepted then Some(ConnectedEvent) else None
    case Aborting(_) => AbortEvent(s.link, Task)
    case AwaitClose => if c.closeReconnect then None else Some(Closed)
    case MarkClosed => Some(Closed)
    case Finishing => Some(Finish)
    case _ => None
  }

  lemma {:induction false} TaskReports(c: Config, s: State, luck: Luck)
    ensures Reports(s.log, TaskStep(c, s, luck).log, TaskEvent(c, s, luck))
  {
  }

  lemma {:induction false} LocksAgree(c: Config, s: State, luck: Luck, t: Tally)
    requires EventsAgree(s.link, s.task, t) && OnLocks(s.task)
    ensures var e := TaskEvent(c, s, luck); var after := TaskLocks(s, luck);
            (e.Some? ==> Proper(t, e.value)) && EventsAgree(after.link, after.task, CountAny(t, e))
  {
  }

  predicate ChangesConnection(pc: TaskPc) {
    pc.Switch? || pc.Connecting? || pc.Aborting? || pc.MarkClosed?
  }

  lemma {:induction false} ChangeAgrees(c: Config, s: State, luck: Luck, t: Tally)
    requires EventsAgree(s.link, s.task, t) && ChangesConnection(s.task)
    ensures var e := TaskEvent(c, s, luck); var after := TaskWorks(c, s, luck);
            (e.Some? ==> Proper(t, e.value)) && EventsAgree(after.link, after.task, CountAny(t, e))
  {
    hide SendsControl, Received;
  }

  lemma {:induction false} OtherWorkAgrees(c: Config, s: State, luck: Luck, t: Tally)
    requires EventsAgree(s.link, s.task, t) && Working(s.task) && !ChangesConnection(s.task)
    ensures var e := TaskEvent(c, s, luck); var after := TaskWorks(c, s, luck);
            (e.Some? ==> Proper(t, e.value)) && EventsAgree(after.link, after.task, CountAny(t, e))
  {
    hide Connects, Dispatched, AbortedLink, AbortedLog;
  }

  lemma {:induction false} RoamingAgrees(c: Config, s: State, luck: Luck, t: Tally)
    requires EventsAgree(s.link, s.task, t) && !OnLocks(s.task) && !Working(s.task)
    ensures var e := TaskEvent(c, s, luck); var after := TaskRoams(c, s, luck);
            (e.Some? ==> Proper(t, e.value)) && EventsAgree(after.link, after.task, CountAny(t, e))
  {
  }

  lemma {:induction false} TaskAgrees(c: Config, s: State, luck: Luck, t: Tally)
    requires EventsAgree(s.link, s.task, t)
    ensures var e := TaskEvent(c, s, luck); var after := TaskStep(c, s, luck);
            (e.Some? ==> Proper(t, e.value)) && EventsAgree(after.link, after.task, CountAny(t, e))
  {
    hide TaskLocks, TaskWorks, TaskRoams, TaskEvent, EventsAgree, Proper, Count, OnLocks, Working;
    if OnLocks(s.task) {
      LocksAgree(c, s, luck, t);
    } else if Working(s.task) {
      if ChangesConnection(s.task) {
        ChangeAgrees(c, s, luck, t);
      } else {
        OtherWorkAgrees(c, s, luck, t);
      }
    } else {
      RoamingAgrees(c, s, luck, t);
    }
  }

  lemma {:induction false} TaskKeepsEvents(c: Config, s: State, luck: Luck)
    requires EventsOk(s)
    ensures EventsOk(TaskStep(c, s, luck))
  {
    hide TaskStep, TaskEvent, EventsAgree, Protocol, Proper, Count;
    TaskReports(c, s, luck);
    TaskAgrees(c, s, luck, Tallied(s.log.events));
    ReportKeepsProtocol(s.log, TaskStep(c, s, luck).log, TaskEvent(c, s, luck));
  }

  function SenderEvent(s: State, id: nat): Option<Event>
    requires id in s.senders
  {
    if s.senders[id].SenderAborting? then AbortEvent(s.link, Sender(id)) else None
  }

  /** A sender's step changes the connection and the events only by an abort, or by noting that CLOSE was sent. */
  lemma {:induction false} SenderReports(c: Config, s: State, id: nat, outcome: Outcome)
    requires id in s.senders
    ensures var after := SenderStep(c, s, id, outcome);
            && Reports(s.log, after.log, SenderEvent(s, id)) && after.task == s.task
            && (if s.senders[id].SenderAborting? then after.link == AbortedLink(c, s.link)
                else after.link.(closeSent := s.link.closeSent) == s.link)
  {
  }

  lemma {:induction false} SenderEventIsProper(s: State, id: nat, t: Tally)
    requires id in s.senders
    ensures SenderEvent(s, id).Some? ==> Proper(t, SenderEvent(s, id).value)
  {
  }

  lemma {:induction false} AbortAgrees(c: Config, link: Link, task: TaskPc, t: Tally, id: nat)
    requires EventsAgree(link, task, t) && !TaskHoldsMain(task)
    ensures EventsAgree(AbortedLink(c, link), task, CountAny(t, AbortEvent(link, Sender(id))))
  {
  }

  lemma {:induction false} SenderKeepsEvents(c: Config, s: State, id: nat, outcome: Outcome)
    requires LocksOk(c, s) && EventsOk(s) && id in s.senders
    ensures EventsOk(SenderStep(c, s, id, outcome))
  {
    hide SenderStep, Protocol, Proper, Count, AbortedLink;
    SenderReports(c, s, id, outcome);
    SenderEventIsProper(s, id, Tallied(s.log.events));
    ReportKeepsProtocol(s.log, SenderStep(c, s, id, outcome).log, SenderEvent(s, id));
    assert Agrees(c, s, Task, Main) && Agrees(c, s, Sender(id), Main);
    if s.senders[id].SenderAborting? {
      AbortAgrees(c, s.link, s.task, Tallied(s.log.events), id);
    }
  }

  lemma {:induction false} StepKeepsEvents(c: Config, s: State, a: Action)
    requires LocksOk(c, s) && EventsOk(s) && Enabled(c, s, a)
    ensures EventsOk(Step(c, s, a))
  {
    hide TaskStep, SenderStep, Protocol, Tallied;
    match a
    case TaskRuns(luck) => TaskKeepsEvents(c, s, luck);
    case SenderRuns(t, outcome) => SenderKeepsEvents(c, s, t, outcome);
    case Call(t, pieces, close) =>
    case Stop =>
  }

  lemma {:induction false} RunKeepsEvents(c: Config, states: seq<State>, actions: seq<Action>, k: nat)
    requires IsRun(c, states, actions) && k < |states|
    ensures EventsOk(states[k])
  {
    hide Step, Enabled;
    if k > 0 {
      RunKeepsEvents(c, states, actions, k - 1);
      RunKeepsLocks(c, states, actions, k - 1);
      StepKeepsEvents(c, states[k - 1], actions[k - 1]);
    }
  }

  // ---- what an application sees ----

  predicate Closes(e: Event) {
    Ends(e) || e.Finish?
  }

  lemma {:induction false} UpUntilClosed(events: seq<Event>, i: nat, j: nat) returns (m: nat)
    requires i < j <= |events| && events[i].ConnectedEvent? && !Tallied(events[..j]).up
    ensures i < m < j && Closes(events[m])
  {
    assert events[..j][..j - 1] == events[..j - 1];
    m := j - 1;
    if !Closes(events[m]) {
      m := UpUntilClosed(events, i, j - 1);
    }
  }

  /** In every run of either build, a DISCONNECTED, CLOSED or FINISH stands between two CONNECTED. */
  lemma {:induction false} ConnectionsAreSeparated(c: Config, states: seq<State>, actions: seq<Action>, n: nat,
                                                   i: nat, j: nat)
      returns (m: nat)
    requires IsRun(c, states, actions) && n < |states| && i < j < |states[n].log.events|
    requires states[n].log.events[i].ConnectedEvent? && states[n].log.events[j].ConnectedEvent?
    ensures i < m < j && Closes(states[n].log.events[m])
  {
    hide Tallied;
    RunKeepsEvents(c, states, actions, n);
    assert Proper(Tallied(states[n].log.events[..j]), states[n].log.events[j]);
    m := UpUntilClosed(states[n].log.events, i, j);
  }

  function Number(events: seq<Event>, kind: Event -> bool): nat {
    if events == [] then 0
    else Number(events[..|events| - 1], kind) + if kind(events[|events| - 1]) then 1 else 0
  }

  /** Neither a BEFORE_CONNECT nor a FINISH after `i` and before `j`. */
  ghost predicate Uninterrupted(events: seq<Event>, i: nat, j: nat)
    requires j <= |events|
  {
    forall m :: i < m < j ==> !events[m].BeforeConnect? && !events[m].Finish?
  }

  lemma {:induction false} NumberSnoc(events: seq<Event>, e: Event, kind: Event -> bool)
    ensures Number(events + [e], kind) == Number(events, kind) + if kind(e) then 1 else 0
  {
    assert (events + [e])[..|events|] == events;
  }

  lemma {:induction false} TallySince(events: seq<Event>, i: nat, j: nat)
    requires Protocol(events) && i < j <= |events| && events[i].ConnectedEvent? && Uninterrupted(events, i, j)
    ensures var t := Tallied(events[..j]);
            && t.open && t.ends == Number(events[i + 1..j], Ends) && t.stale == Number(events[i + 1..j], Stale)
  {
    hide Tallied, Number;
    var before, e := events[..j - 1], events[j - 1];
    assert events[..j] == before + [e];
    Snoc(before, e);
    if i < j - 1 {
      TallySince(events, i, j - 1);
      var between := events[i + 1..j - 1];
      assert events[i + 1..j] == between + [e];
      NumberSnoc(between, e, Ends);
      NumberSnoc(between, e, Stale);
      assert Proper(Tallied(before), e);
    } else {
      NothingIsNone(events[i + 1..j]);
    }
  }

  lemma {:induction false} NothingIsNone(events: seq<Event>)
    ensures events == [] ==> Number(events, Ends) == Number(events, Stale) == 0
  {
  }

  /**
   Between a CONNECTED and the next BEFORE_CONNECT without a FINISH there is one DISCONNECTED or CLOSED, and one
   more for every sender that took `lock` for its abort after the next attempt had been scheduled. So exactly
   one if and only if there was no such late abort.
   */
  lemma {:induction false} EndsBetweenConnections(c: Config, states: seq<State>, actions: seq<Action>, n: nat,
                                                  i: nat, j: nat)
    requires IsRun(c, states, actions) && n < |states| && i < j < |states[n].log.events|
    requires states[n].log.events[i].ConnectedEvent? && states[n].log.events[j].BeforeConnect?
    requires Uninterrupted(states[n].log.events, i, j)
    ensures var between := states[n].log.events[i + 1..j];
            Number(between, Ends) == 1 + Number(between, Stale)
  {
    hide Tallied, Number, Stale, Ends;
    RunKeepsEvents(c, states, actions, n);
    TallySince(states[n].log.events, i, j);
    assert Proper(Tallied(states[n].log.events[..j]), states[n].log.events[j]);
  }
}
