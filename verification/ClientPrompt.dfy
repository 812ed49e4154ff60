/**
 When a send checks the connection and goes to its mutex in one step: the single-lock build then reports the end
 of a connection exactly once; the two-lock build still may not, as a run shows.
 */
module ClientPrompt {
  import opened Basics
  import opened ClientModel
  import opened ClientLocks
  import opened ClientEvents

  /** Whoever gets the mutex to write finds the client connected: the check was made in the same step. */
  predicate Prompt(s: State, a: Action) {
    a.SenderRuns? && a.sender in s.senders && s.senders[a.sender].WantSend? ==> s.link.phase == Connected
  }

  ghost predicate PromptRun(c: Config, states: seq<State>, actions: seq<Action>) {
    IsRun(c, states, actions) && forall i :: 0 <= i < |actions| ==> Prompt(states[i], actions[i])
  }

  // ---- one lock: exactly one end ----

  /** A sender under the single lock is on a live connection, or the task has finished with it meanwhile. */
  predicate SenderPrompt(link: Link, pc: SenderPc, t: Tally) {
    !pc.WantAbort? && (pc.Writing? || pc.SenderAborting? ==> link.phase == Connected || !t.open)
  }

  predicate NothingStale(t: Tally) {
    t.open ==> t.stale == 0
  }

  ghost predicate NeverStale(events: seq<Event>) {
    forall i :: 0 <= i <= |events| ==> NothingStale(Tallied(events[..i]))
  }

  lemma {:induction false} NeverStaleStays(before: Log, after: Log, e: Option<Event>)
    requires NeverStale(before.events) && Reports(before, after, e)
    requires NothingStale(Tallied(after.events))
    ensures NeverStale(after.events)
  {
    hide Tallied, NothingStale;
    forall i | 0 <= i <= |after.events|
      ensures NothingStale(Tallied(after.events[..i]))
    {
      if i <= |before.events| {
        assert after.events[..i] == before.events[..i];
      } else {
        assert after.events[..i] == after.events;
      }
    }
  }

  ghost predicate PromptOk(s: State) {
    var t := Tallied(s.log.events);
    NothingStale(t) && NeverStale(s.log.events) && forall id :: id in s.senders ==> SenderPrompt(s.link, s.senders[id], t)
  }

  /** While a sender holds the single lock, the task leaves a connected client connected or finishes. */
  lemma {:induction false} TaskLetsSendersBe(c: Config, s: State, luck: Luck, t: Tally)
    requires EventsAgree(s.link, s.task, t) && !TaskHoldsMain(s.task) && !s.task.WantLock? && !s.task.WantLockWithTx?
    requires s.link.phase == Connected || !t.open
    ensures TaskStep(c, s, luck).link.phase == Connected || !CountAny(t, TaskEvent(c, s, luck)).open
  {
    hide TaskWorks;
  }

  lemma {:induction false} TaskAddsNothingStale(c: Config, s: State, luck: Luck, t: Tally)
    requires NothingStale(t)
    ensures NothingStale(CountAny(t, TaskEvent(c, s, luck)))
  {
  }

  lemma {:induction false} TaskKeepsPrompt(c: Config, s: State, luck: Luck)
    requires !c.separateTxLock && LocksOk(c, s) && EventsOk(s) && PromptOk(s) && Enabled(c, s, TaskRuns(luck))
    ensures PromptOk(TaskStep(c, s, luck))
  {
    hide TaskStep, TaskEvent, EventsAgree, Protocol, Proper, Count, NothingStale, NeverStale;
    var after, t := TaskStep(c, s, luck), Tallied(s.log.events);
    TaskReports(c, s, luck);
    TaskAgrees(c, s, luck, t);
    ReportKeepsProtocol(s.log, after.log, TaskEvent(c, s, luck));
    TaskAddsNothingStale(c, s, luck, t);
    NeverStaleStays(s.log, after.log, TaskEvent(c, s, luck));
    TaskKeepsSenders(c, s, luck);
    forall id | id in s.senders
      ensures SenderPrompt(after.link, s.senders[id], Tallied(after.log.events))
    {
      assert Agrees(c, s, Task, Main) && Agrees(c, s, Sender(id), Main);
      if s.senders[id].Writing? || s.senders[id].SenderAborting? {
        TaskLetsSendersBe(c, s, luck, t);
      }
    }
  }

  /** A sender's own step: it writes only if it was prompt, and never aborts after the next attempt was scheduled. */
  lemma {:induction false} SenderStaysPrompt(c: Config, s: State, id: nat, outcome: Outcome, t: Tally)
    requires !c.separateTxLock && id in s.senders && SenderPrompt(s.link, s.senders[id], t) && NothingStale(t)
    requires EventsAgree(s.link, s.task, t) && Prompt(s, SenderRuns(id, outcome))
    ensures var after, u := SenderStep(c, s, id, outcome), CountAny(t, SenderEvent(s, id));
            NothingStale(u) && SenderPrompt(after.link, after.senders[id], u)
  {
  }

  lemma {:induction false} OtherStaysPrompt(c: Config, s: State, id: nat, outcome: Outcome, other: nat, t: Tally)
    requires !c.separateTxLock && id in s.senders && other in s.senders && other != id
    requires Agrees(c, s, Sender(id), Main) && Agrees(c, s, Sender(other), Main)
    requires SenderPrompt(s.link, s.senders[other], t)
    ensures SenderPrompt(SenderStep(c, s, id, outcome).link, s.senders[other], CountAny(t, SenderEvent(s, id)))
  {
    SenderReports(c, s, id, outcome);
    hide SenderStep;
  }

  lemma {:induction false} SenderKeepsPrompt(c: Config, s: State, id: nat, outcome: Outcome)
    requires !c.separateTxLock && LocksOk(c, s) && EventsOk(s) && PromptOk(s)
    requires Enabled(c, s, SenderRuns(id, outcome)) && Prompt(s, SenderRuns(id, outcome))
    ensures PromptOk(SenderStep(c, s, id, outcome))
  {
    hide SenderStep, Protocol, Proper, Prompt, EventsAgree, NeverStale, NothingStale, Agrees;
    hide SenderEvent, SenderPrompt, Count;
    var after, t := SenderStep(c, s, id, outcome), Tallied(s.log.events);
    SenderReports(c, s, id, outcome);
    SenderEventIsProper(s, id, t);
    ReportKeepsProtocol(s.log, after.log, SenderEvent(s, id));
    SenderStaysPrompt(c, s, id, outcome, t);
    NeverStaleStays(s.log, after.log, SenderEvent(s, id));
    SenderMovesAlone(c, s, id, outcome);
    assert Agrees(c, s, Sender(id), Main);
    forall other | other in after.senders && other != id
      ensures SenderPrompt(after.link, after.senders[other], Tallied(after.log.events))
    {
      assert Agrees(c, s, Sender(other), Main);
      OtherStaysPrompt(c, s, id, outcome, other, t);
    }
  }

  lemma {:induction false} RunKeepsPrompt(c: Config, states: seq<State>, actions: seq<Action>, k: nat)
    requires !c.separateTxLock && PromptRun(c, states, actions) && k < |states|
    ensures PromptOk(states[k])
  {
    hide Step, Enabled, Prompt;
    if k > 0 {
      RunKeepsPrompt(c, states, actions, k - 1);
      RunKeepsLocks(c, states, actions, k - 1);
      RunKeepsEvents(c, states, actions, k - 1);
      StepKeepsPrompt(c, states[k - 1], actions[k - 1]);
    }
  }

  lemma {:induction false} StepKeepsPrompt(c: Config, s: State, a: Action)
    requires !c.separateTxLock && LocksOk(c, s) && EventsOk(s) && PromptOk(s) && Enabled(c, s, a) && Prompt(s, a)
    ensures PromptOk(Step(c, s, a))
  {
    hide TaskStep, SenderStep, Tallied, LocksOk, EventsOk, Prompt, NeverStale;
    match a
    case TaskRuns(luck) => TaskKeepsPrompt(c, s, luck);
    case SenderRuns(t, outcome) => SenderKeepsPrompt(c, s, t, outcome);
    case Call(t, pieces, close) =>
    case Stop =>
  }

  /**
   Single lock, check and send in one step: exactly one DISCONNECTED or CLOSED lies between a CONNECTED and the
   next BEFORE_CONNECT, unless a FINISH intervenes.
   */
  lemma {:induction false} ExactlyOneEnd(c: Config, states: seq<State>, actions: seq<Action>, n: nat, i: nat, j: nat)
    requires !c.separateTxLock && PromptRun(c, states, actions) && n < |states|
    requires i < j < |states[n].log.events|
    requires states[n].log.events[i].ConnectedEvent? && states[n].log.events[j].BeforeConnect?
    requires Uninterrupted(states[n].log.events, i, j)
    ensures Number(states[n].log.events[i + 1..j], Ends) == 1
  {
    hide Tallied, Number, Step, Enabled;
    var events := states[n].log.events;
    EndsBetweenConnections(c, states, actions, n, i, j);
    RunKeepsEvents(c, states, actions, n);
    RunKeepsPrompt(c, states, actions, n);
    TallySince(events, i, j);
    assert NothingStale(Tallied(events[..j]));
  }
}
