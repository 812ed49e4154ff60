/**
 What the two-lock build does not keep: runs in which the end of one connection is reported twice before the
 next attempt, and in which the frames of one send call go out on two connections.
 */
module ClientTwoLocks {
  import opened Basics
  import opened ClientModel
  import opened ClientEvents
  import opened ClientPrompt

  const CONFIG := Config(true, true, true)

  /** Some run of the two-lock build, with every check and send in one step, leads to the state. */
  ghost predicate Reached(s: State) {
    exists states, actions :: PromptRun(CONFIG, states, actions) && states[|actions|] == s
  }

  lemma {:induction false} Extend(s: State, a: Action)
    requires Reached(s) && Enabled(CONFIG, s, a) && Prompt(s, a)
    ensures Reached(Step(CONFIG, s, a))
  {
    hide Step, Enabled, Prompt;
    var states, actions :| PromptRun(CONFIG, states, actions) && states[|actions|] == s;
    var more, further := states + [Step(CONFIG, s, a)], actions + [a];
    forall i | 0 <= i < |further|
      ensures Enabled(CONFIG, more[i], further[i]) && more[i + 1] == Step(CONFIG, more[i], further[i])
      ensures Prompt(more[i], further[i])
    {
      assert i < |actions| ==> further[i] == actions[i] && more[i] == states[i] && more[i + 1] == states[i + 1];
    }
    assert PromptRun(CONFIG, more, further) && more[|further|] == Step(CONFIG, s, a);
  }

  const YES := Luck(true, Accepted, Nothing)
  const NO := Luck(false, Accepted, Nothing)
  const BROKEN := Luck(false, Accepted, ReadError)

  lemma {:induction false} TaskGoes(s: State, luck: Luck)
    requires Reached(s) && Enabled(CONFIG, s, TaskRuns(luck))
    ensures Reached(TaskStep(CONFIG, s, luck))
  {
    hide TaskStep, Enabled;
    Extend(s, TaskRuns(luck));
  }

  /** The log after a CONNECTED or a BEFORE_CONNECT. */
  function With(log: Log, e: Event): Log {
    log.(events := log.events + [e])
  }

  // ---- stretches of the task's loop ----

  /** Around the loop to the dispatch. */
  lemma {:induction false} ToSwitch(s: State)
    requires Reached(s) && s.task == LoopTest && s.link.run && s.locks.main == None
    ensures Reached(s.(locks := s.locks.(main := Some(Task)), task := Switch))
  {
    TaskGoes(s, NO);
    TaskGoes(s.(task := WantLock(Dispatch)), NO);
  }

  /** With the wait over: from the dispatch to the tests after it. */
  lemma {:induction false} WaitIsOver(s: State)
    requires Reached(s) && s.task == LoopTest && s.link.run && s.locks.main == None && s.link.phase == WaitTimeout
    ensures Reached(s.(link := s.link.(phase := Init), task := IsConnected))
  {
    ToSwitch(s);
    var t := s.(locks := s.locks.(main := Some(Task)), task := Switch);
    TaskGoes(t, YES);
    GivesLock(t.(link := s.link.(phase := Init), task := Unlock(Inspect)));
    assert s.(link := s.link.(phase := Init), task := IsConnected)
           == t.(link := s.link.(phase := Init), task := IsConnected, locks := t.locks.(main := None));
  }

  lemma {:induction false} GivesLock(s: State)
    requires Reached(s) && s.task.Unlock?
    ensures Reached(s.(locks := s.locks.(main := None), task := Unlocked(s.task.next)))
  {
    TaskGoes(s, NO);
  }

  /** The connection breaks under the task's poll. */
  lemma {:induction false} PollBreaks(s: State)
    requires Reached(s) && s.task == Polling && s.locks.main == None
    ensures Reached(s.(locks := s.locks.(main := Some(Task)), task := Aborting(PollFailed)))
  {
    TaskGoes(s, BROKEN);
    TaskGoes(s.(task := WantLock(FailPoll)), NO);
  }

  /** And the task aborts it. */
  lemma {:induction false} PollFails(s: State)
    requires Reached(s) && s.task == Polling && s.link.run && s.locks.main == None && s.link.phase == Connected
    ensures Reached(s.(link := s.link.(phase := WaitTimeout, open := false),
                       log := With(s.log, Disconnected(Task, Connected)), task := LoopTest))
  {
    PollBreaks(s);
    var t := s.(locks := s.locks.(main := Some(Task)), task := Aborting(PollFailed));
    TaskGoes(t, NO);
    var u := t.(link := s.link.(phase := WaitTimeout, open := false),
                log := With(s.log, Disconnected(Task, Connected)), task := Unlock(Again));
    GivesLock(u);
    assert u.(locks := u.locks.(main := None), task := LoopTest)
           == s.(link := s.link.(phase := WaitTimeout, open := false),
                 log := With(s.log, Disconnected(Task, Connected)), task := LoopTest);
  }

  /** Nothing to do in INIT or WAIT_TIMEOUT: back to the top of the loop. */
  lemma {:induction false} ToTheTop(s: State)
    requires Reached(s) && s.task == IsConnected && (s.link.phase == Init || s.link.phase == WaitTimeout)
    ensures Reached(s.(task := LoopTest))
  {
    TaskGoes(s, NO);
    NotConnected(s.(task := IsWaiting));
  }

  lemma {:induction false} NotConnected(s: State)
    requires Reached(s) && s.task == IsWaiting && (s.link.phase == Init || s.link.phase == WaitTimeout)
    ensures Reached(s.(task := LoopTest))
  {
    TaskGoes(s, NO);
    TaskGoes(s.(task := if s.link.phase == WaitTimeout then Sleeping else IsClosing), NO);
  }

  /** A new attempt begins. */
  lemma {:induction false} Attempts(s: State)
    requires Reached(s) && s.task == LoopTest && s.link.run && s.locks.main == None && s.link.phase == Init
    ensures Reached(s.(locks := s.locks.(main := Some(Task)), log := With(s.log, BeforeConnect), task := Connecting))
  {
    ToSwitch(s);
    TaskGoes(s.(locks := s.locks.(main := Some(Task)), task := Switch), NO);
  }

  /** It succeeds. */
  lemma {:induction false} Opens(s: State)
    requires Reached(s) && s.task == Connecting
    ensures Reached(s.(link := Link(Connected, s.link.run, false, true, s.link.conn + 1),
                       log := With(s.log, ConnectedEvent), task := Unlock(Inspect)))
  {
    TaskGoes(s, NO);
    TaskGoes(s.(link := Link(Connected, s.link.run, false, true, s.link.conn + 1), log := With(s.log, ConnectedEvent),
                task := Piggyback), NO);
  }

  /** And the task polls the transport. */
  lemma {:induction false} Polls(s: State)
    requires Reached(s) && s.task == Unlock(Inspect) && s.link.phase == Connected
    ensures Reached(s.(locks := s.locks.(main := None), task := Polling))
  {
    GivesLock(s);
    TaskGoes(s.(locks := s.locks.(main := None), task := IsConnected), NO);
  }

  // ---- one sender and the task ----

  /** A state with one sender, in which nobody holds `lock`. */
  function Client(tx: Option<Thread>, link: Link, log: Log, task: TaskPc, pc: SenderPc): State {
    State(Locks(None, tx), link, log, task, map[0 := pc])
  }

  const UP := Link(Connected, true, false, true, 1)
  const DOWN := Link(WaitTimeout, true, false, false, 1)
  const AGAIN := Link(Init, true, false, false, 1)
  const UP_AGAIN := Link(Connected, true, false, true, 2)
  const UP_EVENTS := [Begin, BeforeConnect, ConnectedEvent]
  const DOWN_EVENTS := UP_EVENTS + [Disconnected(Task, Connected)]

  const TOP := Client(None, Link(Init, true, false, false, 0), Log(0, [], [Begin]), LoopTest, Idle)

  lemma {:induction false} Boots()
    ensures Reached(TOP)
  {
    var off := Client(None, Link(Unknown, false, false, false, 0), Log(0, [], []), Off, Idle);
    var none: seq<Action> := [];
    assert PromptRun(CONFIG, [off], none) && [off][|none|] == off;
    TaskGoes(off, NO);
  }

  lemma {:induction false} ComesUp()
    ensures Reached(Client(None, UP, Log(0, [], UP_EVENTS), Polling, Idle))
  {
    hide TaskStep, PromptRun;
    Boots();
    Attempts(TOP);
    var trying := State(Locks(Some(Task), None), TOP.link, Log(0, [], [Begin, BeforeConnect]), Connecting, TOP.senders);
    Opens(trying);
    Polls(trying.(link := UP, log := Log(0, [], UP_EVENTS), task := Unlock(Inspect)));
  }

  /** The sender checks the connection, takes `tx_lock` and has so many frames to write. */
  lemma {:induction false} SenderBegins(frames: nat)
    ensures Reached(Client(Some(Sender(0)), UP, Log(1, [], UP_EVENTS), Polling, Writing(0, frames, frames, false)))
  {
    ComesUp();
    var s := Client(None, UP, Log(0, [], UP_EVENTS), Polling, Idle);
    Extend(s, Call(0, frames, false));
    Extend(Client(None, UP, s.log, Polling, WantSend(frames, false)), SenderRuns(0, Succeeds));
  }

  /** The transport breaks, the task aborts and sits out its wait. */
  lemma {:induction false} BreaksAndWaits(tx: Option<Thread>, wire: seq<Frame>, pc: SenderPc)
    requires Reached(Client(tx, UP, Log(1, wire, UP_EVENTS), Polling, pc))
    ensures Reached(Client(tx, AGAIN, Log(1, wire, DOWN_EVENTS), IsConnected, pc))
  {
    PollFails(Client(tx, UP, Log(1, wire, UP_EVENTS), Polling, pc));
    WaitIsOver(Client(tx, DOWN, Log(1, wire, DOWN_EVENTS), LoopTest, pc));
  }

  // ---- an end reported twice ----

  /** The sender's write fails first; it gives `tx_lock`, and gets `lock` only when the wait is over. */
  lemma {:induction false} AbortsLate()
    ensures Reached(Client(None, DOWN, Log(1, [], DOWN_EVENTS + [Disconnected(Sender(0), Init)]), IsConnected, Idle))
  {
    hide TaskStep, PromptRun;
    SenderBegins(1);
    Extend(Client(Some(Sender(0)), UP, Log(1, [], UP_EVENTS), Polling, Writing(0, 1, 1, false)), SenderRuns(0, Fails));
    BreaksAndWaits(None, [], WantAbort(false));
    var s := Client(None, AGAIN, Log(1, [], DOWN_EVENTS), IsConnected, WantAbort(false));
    Extend(s, SenderRuns(0, Succeeds));
    LateAbort(State(Locks(Some(Sender(0)), None), AGAIN, s.log, IsConnected, map[0 := SenderAborting(false)]));
  }

  lemma {:induction false} LateAbort(s: State)
    requires Reached(s)
    requires s == State(Locks(Some(Sender(0)), None), AGAIN, s.log, IsConnected, map[0 := SenderAborting(false)])
    ensures Reached(Client(None, DOWN, With(s.log, Disconnected(Sender(0), Init)), IsConnected, Idle))
  {
    Extend(s, SenderRuns(0, Succeeds));
    var t := State(s.locks, DOWN, With(s.log, Disconnected(Sender(0), Init)), IsConnected, map[0 := SenderUnlock(false)]);
    Extend(t, SenderRuns(0, Succeeds));
  }

  const TWICE_EVENTS := DOWN_EVENTS + [Disconnected(Sender(0), Init)]

  lemma {:induction false} TriesAgain()
    ensures Reached(State(Locks(Some(Task), None), AGAIN, Log(1, [], TWICE_EVENTS + [BeforeConnect]), Connecting,
                          map[0 := Idle]))
  {
    hide TaskStep, PromptRun;
    AbortsLate();
    var s := Client(None, DOWN, Log(1, [], TWICE_EVENTS), IsConnected, Idle);
    ToTheTop(s);
    WaitIsOver(s.(task := LoopTest));
    ToTheTop(s.(link := AGAIN));
    Attempts(s.(link := AGAIN, task := LoopTest));
  }

  /**
   Two DISCONNECTED between a CONNECTED and the next BEFORE_CONNECT, though the check and the send were one step.
   */
  lemma {:induction false} EndReportedTwice() returns (states: seq<State>, actions: seq<Action>)
    ensures PromptRun(CONFIG, states, actions)
    ensures var events := states[|actions|].log.events;
            && |events| == 6 && events[2].ConnectedEvent? && events[5].BeforeConnect? && Uninterrupted(events, 2, 5)
            && Number(events[3..5], Ends) == 2
  {
    hide TaskStep, Number;
    TriesAgain();
    var events := TWICE_EVENTS + [BeforeConnect];
    states, actions :| PromptRun(CONFIG, states, actions) && states[|actions|].log.events == events;
    TwoEnds(events[3..5]);
  }

  lemma {:induction false} TwoEnds(events: seq<Event>)
    requires |events| == 2 && Ends(events[0]) && Ends(events[1])
    ensures Number(events, Ends) == 2
  {
    NumberSnoc([], events[0], Ends);
    NumberSnoc([events[0]], events[1], Ends);
    assert events == [events[0]] + [events[1]] && [] + [events[0]] == [events[0]];
  }

  // ---- a call on two connections ----

  /** The first frame of a call goes out on one connection and the second on the next. */
  lemma {:induction false} CallStraddlesConnections() returns (states: seq<State>, actions: seq<Action>)
    ensures PromptRun(CONFIG, states, actions)
    ensures states[|actions|].log.wire == [Frame(Sender(0), 0, 1, Payload), Frame(Sender(0), 0, 2, Payload)]
  {
    hide TaskStep;
    SenderBegins(2);
    var first := [Frame(Sender(0), 0, 1, Payload)];
    Extend(Client(Some(Sender(0)), UP, Log(1, [], UP_EVENTS), Polling, Writing(0, 2, 2, false)), SenderRuns(0, Succeeds));
    BreaksAndWaits(Some(Sender(0)), first, Writing(0, 2, 1, false));
    Reconnects(first);
    var s := Client(Some(Sender(0)), UP_AGAIN, Log(1, first, DOWN_EVENTS + [BeforeConnect, ConnectedEvent]), Polling,
                    Writing(0, 2, 1, false));
    Extend(s, SenderRuns(0, Succeeds));
    states, actions :| PromptRun(CONFIG, states, actions)
                       && states[|actions|].log.wire == [Frame(Sender(0), 0, 1, Payload), Frame(Sender(0), 0, 2, Payload)];
  }

  lemma {:induction false} Reconnects(wire: seq<Frame>)
    requires Reached(Client(Some(Sender(0)), AGAIN, Log(1, wire, DOWN_EVENTS), IsConnected, Writing(0, 2, 1, false)))
    ensures Reached(Client(Some(Sender(0)), UP_AGAIN, Log(1, wire, DOWN_EVENTS + [BeforeConnect, ConnectedEvent]), Polling,
                           Writing(0, 2, 1, false)))
  {
    var s := Client(Some(Sender(0)), AGAIN, Log(1, wire, DOWN_EVENTS), IsConnected, Writing(0, 2, 1, false));
    ToTheTop(s);
    Attempts(s.(task := LoopTest));
    var t := State(Locks(Some(Task), Some(Sender(0))), AGAIN, With(s.log, BeforeConnect), Connecting, s.senders);
    Opens(t);
    Polls(t.(link := UP_AGAIN, log := With(t.log, ConnectedEvent), task := Unlock(Inspect)));
    assert DOWN_EVENTS + [BeforeConnect] + [ConnectedEvent] == DOWN_EVENTS + [BeforeConnect, ConnectedEvent];
  }
}
