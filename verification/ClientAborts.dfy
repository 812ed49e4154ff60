/**
 What the end of a connection leads to: with reconnecting disabled nothing is tried again until the client is
 started anew, and with it the client goes on unless it is stopped.
 */
module ClientAborts {
  import opened Basics
  import opened ClientModel
  import opened ClientLocks
  import opened ClientEvents

  /** An end after which this configuration does not reconnect. */
  predicate Final(c: Config, e: Event) {
    (e.Disconnected? && !c.autoReconnect) || (e.Closed? && !c.closeReconnect)
  }

  /** A final end has been reported since the last BEGIN and FINISH. */
  function Ended(c: Config, events: seq<Event>): bool {
    if events == [] then false
    else
      var e := events[|events| - 1];
      !e.Begin? && !e.Finish? && (Final(c, e) || Ended(c, events[..|events| - 1]))
  }

  predicate Tries(e: Event) {
    e.BeforeConnect? || e.ConnectedEvent?
  }

  ghost predicate Quiet(c: Config, events: seq<Event>) {
    forall j :: 0 <= j < |events| && Tries(events[j]) ==> !Ended(c, events[..j])
  }

  /** The locked branch after a close is for reconnecting only. */
  predicate SuitsConfig(c: Config, task: TaskPc) {
    task == MarkClosed || task == WantLock(Reconnect) ==> c.closeReconnect
  }

  ghost predicate QuietOk(c: Config, s: State) {
    && Quiet(c, s.log.events) && (Ended(c, s.log.events) ==> s.link.phase == Unknown)
    && SuitsConfig(c, s.task)
  }

  function EndedAny(c: Config, ended: bool, e: Option<Event>): bool {
    match e
    case None => ended
    case Some(e) => !e.Begin? && !e.Finish? && (Final(c, e) || ended)
  }

  lemma {:induction false} ReportKeepsQuiet(c: Config, before: Log, after: Log, e: Option<Event>)
    requires Reports(before, after, e) && Quiet(c, before.events)
    requires e.Some? && Tries(e.value) ==> !Ended(c, before.events)
    ensures Quiet(c, after.events) && Ended(c, after.events) == EndedAny(c, Ended(c, before.events), e)
  {
    if e.Some? {
      assert after.events[..|before.events|] == before.events;
      forall j | 0 <= j < |after.events| && Tries(after.events[j])
        ensures !Ended(c, after.events[..j])
      {
        assert j < |before.events| ==> after.events[..j] == before.events[..j] && after.events[j] == before.events[j];
      }
    }
  }

  // ---- every step ----

  lemma {:induction false} LocksStayDown(c: Config, s: State, luck: Luck, t: Tally, ended: bool)
    requires EventsAgree(s.link, s.task, t) && (ended ==> s.link.phase == Unknown) && SuitsConfig(c, s.task)
    requires OnLocks(s.task)
    ensures var e, after := TaskEvent(c, s, luck), TaskLocks(s, luck);
            && (e.Some? && Tries(e.value) ==> !ended)
            && (EndedAny(c, ended, e) ==> after.link.phase == Unknown) && SuitsConfig(c, after.task)
  {
  }

  lemma {:induction false} WorkStaysDown(c: Config, s: State, luck: Luck, t: Tally, ended: bool)
    requires EventsAgree(s.link, s.task, t) && (ended ==> s.link.phase == Unknown) && SuitsConfig(c, s.task)
    requires Working(s.task)
    ensures var e, after := TaskEvent(c, s, luck), TaskWorks(c, s, luck);
            && (e.Some? && Tries(e.value) ==> !ended)
            && (EndedAny(c, ended, e) ==> after.link.phase == Unknown) && SuitsConfig(c, after.task)
  {
  }

  lemma {:induction false} RoamingStaysDown(c: Config, s: State, luck: Luck, t: Tally, ended: bool)
    requires EventsAgree(s.link, s.task, t) && (ended ==> s.link.phase == Unknown) && SuitsConfig(c, s.task)
    requires !OnLocks(s.task) && !Working(s.task)
    ensures var e, after := TaskEvent(c, s, luck), TaskRoams(c, s, luck);
            && (e.Some? && Tries(e.value) ==> !ended)
            && (EndedAny(c, ended, e) ==> after.link.phase == Unknown) && SuitsConfig(c, after.task)
  {
  }

  lemma {:induction false} TaskStaysDown(c: Config, s: State, luck: Luck, t: Tally, ended: bool)
    requires EventsAgree(s.link, s.task, t) && (ended ==> s.link.phase == Unknown) && SuitsConfig(c, s.task)
    ensures var e, after := TaskEvent(c, s, luck), TaskStep(c, s, luck);
            && (e.Some? && Tries(e.value) ==> !ended)
            && (EndedAny(c, ended, e) ==> after.link.phase == Unknown) && SuitsConfig(c, after.task)
  {
    hide TaskLocks, TaskWorks, TaskRoams, TaskEvent, EventsAgree, OnLocks, Working, SuitsConfig;
    if OnLocks(s.task) {
      LocksStayDown(c, s, luck, t, ended);
    } else if Working(s.task) {
      WorkStaysDown(c, s, luck, t, ended);
    } else {
      RoamingStaysDown(c, s, luck, t, ended);
    }
  }

  lemma {:induction false} TaskKeepsQuiet(c: Config, s: State, luck: Luck)
    requires EventsOk(s) && QuietOk(c, s)
    ensures QuietOk(c, TaskStep(c, s, luck))
  {
    hide TaskStep, TaskEvent, EventsAgree, Protocol, Quiet, Tries, SuitsConfig;
    TaskReports(c, s, luck);
    TaskStaysDown(c, s, luck, Tallied(s.log.events), Ended(c, s.log.events));
    ReportKeepsQuiet(c, s.log, TaskStep(c, s, luck).log, TaskEvent(c, s, luck));
  }

  lemma {:induction false} SenderKeepsQuiet(c: Config, s: State, id: nat, outcome: Outcome)
    requires QuietOk(c, s) && id in s.senders
    ensures QuietOk(c, SenderStep(c, s, id, outcome))
  {
    hide SenderStep, Quiet;
    SenderReports(c, s, id, outcome);
    ReportKeepsQuiet(c, s.log, SenderStep(c, s, id, outcome).log, SenderEvent(s, id));
  }

  lemma {:induction false} StepKeepsQuiet(c: Config, s: State, a: Action)
    requires EventsOk(s) && QuietOk(c, s) && Enabled(c, s, a)
    ensures QuietOk(c, Step(c, s, a))
  {
    hide TaskStep, SenderStep, Quiet, EventsOk, Ended, SuitsConfig;
    match a
    case TaskRuns(luck) => TaskKeepsQuiet(c, s, luck);
    case SenderRuns(t, outcome) => SenderKeepsQuiet(c, s, t, outcome);
    case _ =>
  }

  lemma {:induction false} RunKeepsQuiet(c: Config, states: seq<State>, actions: seq<Action>, k: nat)
    requires IsRun(c, states, actions) && k < |states|
    ensures QuietOk(c, states[k])
  {
    hide Step, Enabled;
    if k > 0 {
      RunKeepsQuiet(c, states, actions, k - 1);
      RunKeepsEvents(c, states, actions, k - 1);
      StepKeepsQuiet(c, states[k - 1], actions[k - 1]);
    }
  }

  lemma {:induction false} EndedSince(c: Config, events: seq<Event>, i: nat, j: nat) returns (m: nat)
    requires i < j <= |events| && Final(c, events[i]) && !Ended(c, events[..j])
    ensures i < m < j && (events[m].Begin? || events[m].Finish?)
  {
    assert events[..j][..j - 1] == events[..j - 1];
    m := j - 1;
    if !(events[m].Begin? || events[m].Finish?) {
      m := EndedSince(c, events, i, j - 1);
    }
  }

  /**
   With automatic reconnect disabled, no connection is tried or reported after a DISCONNECTED until the client
   has finished or begun anew; and the same after a CLOSED when reconnecting after a close is disabled.
   */
  lemma {:induction false} NoReconnectAfterEnd(c: Config, states: seq<State>, actions: seq<Action>, n: nat,
                                               i: nat, j: nat)
      returns (m: nat)
    requires IsRun(c, states, actions) && n < |states| && i < j < |states[n].log.events|
    requires var e := states[n].log.events[i];
             (e.Disconnected? && !c.autoReconnect) || (e.Closed? && !c.closeReconnect)
    requires states[n].log.events[j].BeforeConnect? || states[n].log.events[j].ConnectedEvent?
    ensures i < m < j && (states[n].log.events[m].Begin? || states[n].log.events[m].Finish?)
  {
    RunKeepsQuiet(c, states, actions, n);
    hide Ended;
    m := EndedSince(c, states[n].log.events, i, j);
  }

  // ---- going on ----

  predicate AbortsNow(s: State, a: Action) {
    (a.TaskRuns? && s.task.Aborting?)
    || (a.SenderRuns? && a.sender in s.senders && s.senders[a.sender].SenderAborting?)
  }

  /** An abort of a live or scheduled connection: closed in any case, and then waiting or down for good. */
  lemma {:induction false} AbortLeads(c: Config, s: State, a: Action)
    requires Enabled(c, s, a) && AbortsNow(s, a) && (s.link.phase == Connected || s.link.phase == Init)
    ensures var l := Step(c, s, a).link;
            && !l.open && l.closeSent == s.link.closeSent && l.conn == s.link.conn
            && (c.autoReconnect ==> l.phase == WaitTimeout && l.run == s.link.run)
            && (!c.autoReconnect ==> l.phase == Unknown && !l.run)
  {
  }

  /** Any other abort changes nothing: the connection is already on its way down. */
  lemma {:induction false} LateAbortIsNothing(c: Config, s: State, a: Action)
    requires Enabled(c, s, a) && AbortsNow(s, a) && s.link.phase != Connected && s.link.phase != Init
    ensures Step(c, s, a).link == s.link && Step(c, s, a).log == s.log
  {
  }

  /** The end of a close: waiting to reconnect on a closed transport with the CLOSE mark lifted, or down for good. */
  lemma {:induction false} CloseLeads(c: Config, s: State, luck: Luck)
    requires SuitsConfig(c, s.task) && TaskEvent(c, s, luck) == Some(Closed)
    ensures var l := TaskStep(c, s, luck).link;
            && (c.closeReconnect ==> l == Link(WaitTimeout, s.link.run, false, false, s.link.conn))
            && (!c.closeReconnect ==> l.phase == Unknown && !l.run)
  {
  }

  lemma {:induction false} TaskStops(c: Config, s: State, luck: Luck)
    requires s.link.run && !TaskStep(c, s, luck).link.run
    ensures TaskEvent(c, s, luck).Some? && Final(c, TaskEvent(c, s, luck).value)
  {
  }

  lemma {:induction false} SenderStops(c: Config, s: State, id: nat, outcome: Outcome)
    requires id in s.senders && s.link.run && !SenderStep(c, s, id, outcome).link.run
    ensures SenderEvent(s, id).Some? && Final(c, SenderEvent(s, id).value)
  {
    SenderReports(c, s, id, outcome);
    hide SenderStep;
  }

  /** In every run, a client stops running only by a stop, or in the step that reports a final end. */
  lemma {:induction false} RunsUntilStopped(c: Config, states: seq<State>, actions: seq<Action>, k: nat)
    requires IsRun(c, states, actions) && k < |actions| && states[k].link.run && !states[k + 1].link.run
    ensures actions[k] == Stop
            || exists e :: Final(c, e) && states[k + 1].log.events == states[k].log.events + [e]
  {
    hide TaskStep, SenderStep, TaskEvent, Final;
    var s, a := states[k], actions[k];
    match a
    case TaskRuns(luck) =>
      TaskReports(c, s, luck);
      TaskStops(c, s, luck);
    case SenderRuns(t, outcome) =>
      SenderReports(c, s, t, outcome);
      SenderStops(c, s, t, outcome);
    case _ =>
  }
}
