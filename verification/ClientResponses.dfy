/**
 What the client does of its own accord, in either lock build: PINGs go out, PINGs are answered, a CLOSE is
 echoed and ends the connection, a stop ends the task, and a lost connection is made again. Each within a number of
 steps of the task alone, when no mutex is held against it and its writes succeed.
 */
module ClientResponses {
  import opened Basics
  import opened ClientModel

  /** The task alone can get from one state to another in so many steps. */
  ghost predicate Goes(c: Config, s: State, t: State, n: nat)
    decreases n
  {
    if n == 0 then s == t
    else exists luck :: Enabled(c, s, TaskRuns(luck)) && Goes(c, TaskStep(c, s, luck), t, n - 1)
  }

  lemma {:induction false} One(c: Config, s: State, luck: Luck)
    requires Enabled(c, s, TaskRuns(luck))
    ensures Goes(c, s, TaskStep(c, s, luck), 1)
  {
    hide TaskStep, Enabled;
    assert Goes(c, TaskStep(c, s, luck), TaskStep(c, s, luck), 0);
  }

  lemma {:induction false} Then(c: Config, s: State, t: State, u: State, n: nat, m: nat)
    requires Goes(c, s, t, n) && Goes(c, t, u, m)
    ensures Goes(c, s, u, n + m)
    decreases n
  {
    hide TaskStep, Enabled;
    if n > 0 {
      var luck :| Enabled(c, s, TaskRuns(luck)) && Goes(c, TaskStep(c, s, luck), t, n - 1);
      Then(c, TaskStep(c, s, luck), t, u, n - 1, m);
    }
  }

  const YES := Luck(true, Accepted, Nothing)
  const NO := Luck(false, Accepted, Nothing)

  function WithMain(s: State, task: TaskPc): State {
    s.(locks := s.locks.(main := Some(Task)), task := task)
  }

  function WithoutMain(s: State, task: TaskPc): State {
    s.(locks := s.locks.(main := None), task := task)
  }

  function Noted(s: State, e: Event): State {
    s.(log := s.log.(events := s.log.events + [e]))
  }

  // ---- single steps ----

  lemma {:induction false} Gives(c: Config, s: State)
    requires s.task.Unlock?
    ensures Goes(c, s, WithoutMain(s, Unlocked(s.task.next)), 1)
  {
    One(c, s, NO);
    hide Goes;
  }

  lemma {:induction false} GetsMain(c: Config, s: State)
    requires s.task.WantLock? && s.locks.main == None
    ensures Goes(c, s, WithMain(s, Fetched(s.task.goal)), 1)
  {
    One(c, s, NO);
    hide Goes;
  }

  /** Where the unlocked tests of the loop lead. */
  function Tested(c: Config, s: State): TaskPc {
    match s.task
    case LoopTest => if s.link.run then WantLock(Dispatch) else Finishing
    case IsConnected => if s.link.phase == Connected then Polling else IsWaiting
    case IsWaiting => if s.link.phase == WaitTimeout then Sleeping else IsClosing
    case IsClosing => if s.link.phase == Closing && s.link.closeSent then AwaitClose else LoopTest
    case pc => pc
  }

  lemma {:induction false} Tests(c: Config, s: State)
    requires s.task == LoopTest || s.task == IsConnected || s.task == IsWaiting || s.task == IsClosing
    ensures Goes(c, s, s.(task := Tested(c, s)), 1)
  {
    One(c, s, NO);
    hide Goes;
  }

  lemma {:induction false} Dispatches(c: Config, s: State, luck: Luck)
    requires s.task == Switch && (s.link.phase == Connected || s.link.phase == Closing) && !s.link.closeSent
    ensures Goes(c, s, s.(task := if s.link.phase == Closing then ToControl(c, Close)
                                  else if luck.yes then ToControl(c, Ping) else PongCheck), 1)
  {
    One(c, s, luck);
    hide Goes;
  }

  lemma {:induction false} Schedules(c: Config, s: State)
    requires s.task == Switch && s.link.phase == WaitTimeout
    ensures Goes(c, s, s.(link := s.link.(phase := Init), task := Unlock(Inspect)), 1)
  {
    One(c, s, YES);
    hide Goes;
  }

  lemma {:induction false} Attempts(c: Config, s: State)
    requires s.task == Switch && s.link.phase == Init
    ensures Goes(c, s, Noted(s, BeforeConnect).(task := Connecting), 1)
  {
    One(c, s, NO);
    hide Goes;
  }

  function NextLink(link: Link): Link {
    Link(Connected, link.run, false, true, link.conn + 1)
  }

  lemma {:induction false} Opens(c: Config, s: State)
    requires s.task == Connecting
    ensures Goes(c, s, Noted(s, ConnectedEvent).(link := NextLink(s.link), task := Piggyback), 1)
  {
    One(c, s, NO);
    hide Goes;
  }

  lemma {:induction false} FetchesTx(c: Config, s: State)
    requires s.task.WantTx? && s.locks.tx == None
    ensures Goes(c, s, s.(locks := s.locks.(tx := Some(Task)), task := WantLockWithTx(s.task.control)), 1)
  {
    One(c, s, YES);
    hide Goes;
  }

  lemma {:induction false} FetchesMain(c: Config, s: State)
    requires s.task.WantLockWithTx? && s.locks.main == None
    ensures Goes(c, s, WithMain(s, SendingControl(s.task.control)), 1)
  {
    One(c, s, NO);
    hide Goes;
  }

  /** The log after a control frame of the task has gone out. */
  function SentLog(s: State, control: Control): Log {
    Log(s.log.calls + 1, s.log.wire + [Frame(Task, s.log.calls, s.link.conn, KindOf(control))], s.log.events)
  }

  function Marked(link: Link, control: Control): Link {
    link.(closeSent := link.closeSent || control == Close)
  }

  lemma {:induction false} WritesControl(c: Config, s: State, control: Control)
    requires s.task == SendingControl(control) && s.link.open && StillWanted(s.link.phase, control)
    ensures Goes(c, s, if c.separateTxLock then s.(log := SentLog(s, control), task := GivingTx(control, true))
                       else s.(log := SentLog(s, control), link := Marked(s.link, control),
                               task := AfterControl(control, true)), 1)
  {
    One(c, s, YES);
    hide Goes;
  }

  lemma {:induction false} GivesTx(c: Config, s: State, control: Control)
    requires s.task == GivingTx(control, true)
    ensures Goes(c, s, s.(locks := s.locks.(tx := None), link := Marked(s.link, control),
                          task := AfterControl(control, true)), 1)
  {
    One(c, s, NO);
    hide Goes;
  }

  lemma {:induction false} MissesPong(c: Config, s: State)
    requires s.task == PongCheck
    ensures Goes(c, s, s.(task := Aborting(PongLate)), 1)
  {
    One(c, s, YES);
    hide Goes;
  }

  lemma {:induction false} Aborts(c: Config, s: State)
    requires s.task.Aborting? && s.link.phase == Connected
    ensures Goes(c, s, Noted(s, Disconnected(Task, Connected)).(link := AbortedLink(c, s.link),
                                                                 task := AfterAbort(s.task.cause)), 1)
  {
    One(c, s, NO);
    hide Goes;
  }

  lemma {:induction false} EndsClose(c: Config, s: State)
    requires s.task == AwaitClose
    ensures Goes(c, s, if c.closeReconnect then s.(task := WantLock(Reconnect))
                       else Noted(s, Closed).(link := s.link.(phase := Unknown, run := false), task := Finishing), 1)
  {
    One(c, s, NO);
    hide Goes;
  }

  lemma {:induction false} MarksClosed(c: Config, s: State)
    requires s.task == MarkClosed
    ensures Goes(c, s, Noted(s, Closed).(link := Link(WaitTimeout, s.link.run, false, false, s.link.conn),
                                         task := Unlock(Again)), 1)
  {
    One(c, s, NO);
    hide Goes;
  }

  lemma {:induction false} Reports(c: Config, s: State)
    requires s.task == Finishing
    ensures Goes(c, s, Noted(s, Finish).(task := ClosingTransport), 1)
  {
    One(c, s, NO);
    hide Goes;
  }

  lemma {:induction false} Shuts(c: Config, s: State)
    requires s.task == ClosingTransport || s.task == Stopping
    ensures Goes(c, s, if s.task == Stopping then s.(link := s.link.(phase := Unknown), task := Off)
                       else s.(link := s.link.(open := false), task := Stopping), 1)
  {
    One(c, s, NO);
    hide Goes;
  }

  // ---- stretches ----

  /** Into the locked part of the loop. */
  lemma {:induction false} EntersTurn(c: Config, s: State)
    requires s.task == LoopTest && s.link.run && s.locks.main == None
    ensures Goes(c, s, WithMain(s, Switch), 2)
  {
    hide Goes;
    Tests(c, s);
    GetsMain(c, s.(task := WantLock(Dispatch)));
    Then(c, s, s.(task := WantLock(Dispatch)), WithMain(s, Switch), 1, 1);
  }

  /** The state after a control frame of the task has gone out. */
  function Sent(s: State, control: Control): State {
    s.(log := SentLog(s, control), link := Marked(s.link, control), task := AfterControl(control, true))
  }

  function SendSteps(c: Config): nat {
    if c.separateTxLock then 5 else 1
  }

  const MAIN := Locks(Some(Task), None)
  const BOTH := Locks(Some(Task), Some(Task))

  lemma {:induction false} GetsBoth(c: Config, s: State, control: Control)
    requires s.task == Unlock(FetchTx(control)) && s.locks == MAIN
    ensures Goes(c, s, s.(locks := BOTH, task := SendingControl(control)), 3)
  {
    hide Goes;
    Gives(c, s);
    var t := WithoutMain(s, WantTx(control));
    FetchesTx(c, t);
    var u := t.(locks := Locks(None, Some(Task)), task := WantLockWithTx(control));
    FetchesMain(c, u);
    Then(c, s, t, u, 1, 1);
    Then(c, s, u, WithMain(u, SendingControl(control)), 2, 1);
  }

  /** A control frame the task has set out to send goes out, while the connection is still as it was. */
  lemma {:induction false} ControlGoesOut(c: Config, s: State, control: Control)
    requires s.task == ToControl(c, control) && s.locks == MAIN
    requires s.link.open && StillWanted(s.link.phase, control)
    ensures Goes(c, s, Sent(s, control), SendSteps(c))
  {
    hide Goes, StillWanted, AfterControl, KindOf;
    if c.separateTxLock {
      GetsBoth(c, s, control);
      var t := s.(locks := BOTH, task := SendingControl(control));
      WritesControl(c, t, control);
      var u := t.(log := SentLog(t, control), task := GivingTx(control, true));
      GivesTx(c, u, control);
      Then(c, s, t, u, 3, 1);
      Then(c, s, u, Sent(s, control), 4, 1);
    } else {
      WritesControl(c, s, control);
    }
  }

  // ---- PINGs ----

  /** A connected client with a PING due sends it: one PING frame, and the check of the PONG is next. */
  lemma {:induction false} PingGoesOut(c: Config, s: State)
    requires s.task == LoopTest && s.link.run && s.locks == Locks(None, None)
    requires s.link.phase == Connected && s.link.open && !s.link.closeSent
    ensures var t := WithMain(s, PongCheck);
            && Goes(c, s, t.(log := SentLog(s, Ping)), 3 + SendSteps(c))
            && SentLog(s, Ping).wire == s.log.wire + [Frame(Task, s.log.calls, s.link.conn, PingKind)]
  {
    hide Goes;
    EntersTurn(c, s);
    var t := WithMain(s, Switch);
    Dispatches(c, t, YES);
    var u := WithMain(s, ToControl(c, Ping));
    ControlGoesOut(c, u, Ping);
    Then(c, s, t, u, 2, 1);
    Then(c, s, u, Sent(u, Ping), 3, SendSteps(c));
  }

  /** A PING read from the server is answered by one PONG frame. */
  lemma {:induction false} PingIsAnswered(c: Config, s: State, place: Place, luck: Luck)
    requires s.task == Receiving(place) && s.locks == MAIN && luck.got == PingFrame
    requires s.link.phase == Connected && s.link.open
    ensures Goes(c, TaskStep(c, s, luck), Sent(s, Pong(place)), SendSteps(c))
    ensures Sent(s, Pong(place)).log.wire == s.log.wire + [Frame(Task, s.log.calls, s.link.conn, PongKind)]
  {
    var t := s.(task := ToControl(c, Pong(place)));
    assert TaskStep(c, s, luck) == t;
    hide Goes, TaskStep;
    ControlGoesOut(c, t, Pong(place));
  }

  /** A missing PONG aborts the connection. */
  lemma {:induction false} PongIsMissed(c: Config, s: State)
    requires s.task == PongCheck && s.link.phase == Connected
    ensures Goes(c, s, Noted(s, Disconnected(Task, Connected)).(link := AbortedLink(c, s.link),
                                                                 task := Unlock(Inspect)), 2)
    ensures !AbortedLink(c, s.link).open
  {
    hide Goes;
    MissesPong(c, s);
    var t := s.(task := Aborting(PongLate));
    Aborts(c, t);
    Then(c, s, t, Noted(s, Disconnected(Task, Connected)).(link := AbortedLink(c, s.link), task := Unlock(Inspect)),
         1, 1);
  }

  // ---- CLOSE ----

  /** A CLOSE read from the server puts the client in CLOSING, and on its next turn it echoes the CLOSE. */
  lemma {:induction false} CloseIsEchoed(c: Config, s: State, place: Place, luck: Luck)
    requires s.task == Receiving(place) && s.locks == MAIN && luck.got == CloseFrame
    requires s.link.phase == Connected && s.link.open && !s.link.closeSent && s.link.run
    ensures var t := s.(link := s.link.(phase := Closing, closeSent := true), log := SentLog(s, Close));
            Goes(c, TaskStep(c, s, luck), t.(task := Unlock(Inspect)), SendSteps(c) + if place == InPoll then 4 else 9)
    ensures SentLog(s, Close).wire == s.log.wire + [Frame(Task, s.log.calls, s.link.conn, CloseKind)]
  {
    ReadsClose(c, s, place, luck);
    hide Goes, TaskStep, AfterReceive, SentLog;
    ClosingEchoes(c, s.(link := s.link.(phase := Closing), task := AfterReceive(place)), place);
  }

  lemma {:induction false} ReadsClose(c: Config, s: State, place: Place, luck: Luck)
    requires s.task == Receiving(place) && luck.got == CloseFrame && s.link.open
    ensures TaskStep(c, s, luck) == s.(link := s.link.(phase := Closing), task := AfterReceive(place))
  {
  }

  lemma {:induction false} ClosingEchoes(c: Config, s: State, place: Place)
    requires s.task == AfterReceive(place) && s.locks == MAIN
    requires s.link.phase == Closing && s.link.open && !s.link.closeSent && s.link.run
    ensures Goes(c, s, Sent(s, Close), SendSteps(c) + if place == InPoll then 4 else 9)
  {
    hide Goes;
    var top := WithoutMain(s, LoopTest);
    if place == InPoll {
      Gives(c, s);
    } else {
      EndsFirstTurn(c, s);
    }
    EchoesClose(c, top);
    assert Sent(top, Close).(locks := MAIN) == Sent(s, Close);
    Then(c, s, top, Sent(s, Close), if place == InPoll then 1 else 6, 3 + SendSteps(c));
  }

  lemma {:induction false} EchoesClose(c: Config, s: State)
    requires s.task == LoopTest && s.locks == Locks(None, None)
    requires s.link.phase == Closing && s.link.open && !s.link.closeSent && s.link.run
    ensures Goes(c, s, Sent(s, Close).(locks := MAIN), 3 + SendSteps(c))
  {
    hide Goes;
    EntersTurn(c, s);
    var v := WithMain(s, Switch);
    Dispatches(c, v, NO);
    var w := WithMain(s, ToControl(c, Close));
    ControlGoesOut(c, w, Close);
    Then(c, s, v, w, 2, 1);
    Then(c, s, w, Sent(w, Close), 3, SendSteps(c));
  }

  /** After the read that follows a connect the task yields, takes the lock once more, and goes round its loop. */
  lemma {:induction false} EndsFirstTurn(c: Config, s: State)
    requires s.task == Unlock(Yield) && s.locks == MAIN && s.link.phase == Closing && !s.link.closeSent
    ensures Goes(c, s, WithoutMain(s, LoopTest), 6)
  {
    hide Goes;
    YieldsOnce(c, s);
    var t := WithoutMain(s, IsConnected);
    Tests(c, t);
    Tests(c, t.(task := IsWaiting));
    Tests(c, t.(task := IsClosing));
    Then(c, s, t, t.(task := IsWaiting), 3, 1);
    Then(c, s, t.(task := IsWaiting), t.(task := IsClosing), 4, 1);
    Then(c, s, t.(task := IsClosing), t.(task := LoopTest), 5, 1);
  }

  lemma {:induction false} YieldsOnce(c: Config, s: State)
    requires s.task == Unlock(Yield) && s.locks == MAIN
    ensures Goes(c, s, WithoutMain(s, IsConnected), 3)
  {
    hide Goes;
    Gives(c, s);
    var t := WithoutMain(s, WantLock(EndTurn));
    GetsMain(c, t);
    var u := s.(task := Unlock(Inspect));
    Gives(c, u);
    assert WithMain(t, Unlock(Inspect)) == u;
    Then(c, s, t, u, 1, 1);
    Then(c, s, u, WithoutMain(u, IsConnected), 2, 1);
  }

  /** The tests after the lock is given, down to the wait for the server to close. */
  lemma {:induction false} AwaitsClose(c: Config, s: State)
    requires s.task == Unlock(Inspect) && s.link.phase == Closing && s.link.closeSent
    ensures Goes(c, s, WithoutMain(s, AwaitClose), 4)
  {
    hide Goes;
    Gives(c, s);
    var t := WithoutMain(s, IsConnected);
    Tests(c, t);
    Tests(c, t.(task := IsWaiting));
    Tests(c, t.(task := IsClosing));
    Then(c, s, t, t.(task := IsWaiting), 1, 1);
    Then(c, s, t.(task := IsWaiting), t.(task := IsClosing), 2, 1);
    Then(c, s, t.(task := IsClosing), t.(task := AwaitClose), 3, 1);
  }

  /** With reconnecting after a close, the connection ends in CLOSED and the wait for the next one. */
  lemma {:induction false} ClosedThenWaits(c: Config, s: State)
    requires c.closeReconnect && s.task == Unlock(Inspect) && s.link.phase == Closing && s.link.closeSent
    requires s.locks.main == Some(Task)
    ensures var t := Noted(s, Closed).(link := Link(WaitTimeout, s.link.run, false, false, s.link.conn));
            Goes(c, s, WithoutMain(t, LoopTest), 8)
  {
    hide Goes;
    AwaitsClose(c, s);
    var a := WithoutMain(s, AwaitClose);
    EndsClose(c, a);
    GetsMain(c, a.(task := WantLock(Reconnect)));
    var m := s.(task := MarkClosed);
    MarksClosed(c, m);
    var u := Noted(s, Closed).(link := Link(WaitTimeout, s.link.run, false, false, s.link.conn), task := Unlock(Again));
    Gives(c, u);
    Then(c, s, a, a.(task := WantLock(Reconnect)), 4, 1);
    assert WithMain(a, MarkClosed) == m;
    Then(c, s, a.(task := WantLock(Reconnect)), m, 5, 1);
    Then(c, s, m, u, 6, 1);
    Then(c, s, u, WithoutMain(u, LoopTest), 7, 1);
  }

  /** Without it, in CLOSED, FINISH and the end of the task. */
  lemma {:induction false} ClosedThenFinishes(c: Config, s: State)
    requires !c.closeReconnect && s.task == Unlock(Inspect) && s.link.phase == Closing && s.link.closeSent
    ensures var t := Noted(Noted(s, Closed), Finish).(link := s.link.(phase := Unknown, run := false, open := false));
            Goes(c, s, WithoutMain(t, Off), 8)
  {
    hide Goes;
    AwaitsClose(c, s);
    var a := WithoutMain(s, AwaitClose);
    EndsClose(c, a);
    var t := Noted(a, Closed).(link := s.link.(phase := Unknown, run := false), task := Finishing);
    Finishes(c, t);
    Then(c, s, a, t, 4, 1);
    Then(c, s, t, Noted(t, Finish).(link := t.link.(open := false, phase := Unknown), task := Off), 5, 3);
  }

  lemma {:induction false} Finishes(c: Config, s: State)
    requires s.task == Finishing
    ensures Goes(c, s, Noted(s, Finish).(link := s.link.(open := false, phase := Unknown), task := Off), 3)
  {
    hide Goes;
    Reports(c, s);
    var t := Noted(s, Finish).(task := ClosingTransport);
    Shuts(c, t);
    var u := t.(link := s.link.(open := false), task := Stopping);
    Shuts(c, u);
    Then(c, s, t, u, 1, 1);
    Then(c, s, u, u.(link := u.link.(phase := Unknown), task := Off), 2, 1);
  }

  // ---- stop and start ----

  /** A stopped client reports FINISH, closes its transport and is down, four steps from the top of its loop. */
  lemma {:induction false} StopIsObeyed(c: Config, s: State)
    requires s.task == LoopTest && !s.link.run
    ensures Goes(c, s, Noted(s, Finish).(link := s.link.(open := false, phase := Unknown), task := Off), 4)
  {
    hide Goes;
    Tests(c, s);
    Finishes(c, s.(task := Finishing));
    Then(c, s, s.(task := Finishing),
         Noted(s, Finish).(link := s.link.(open := false, phase := Unknown), task := Off), 1, 3);
  }

  /** A new task begins in INIT with a BEGIN and nothing left over from a close. */
  lemma {:induction false} StartBegins(c: Config, s: State)
    requires s.task == Off && s.link.phase == Unknown
    ensures Goes(c, s, Noted(s, Begin).(link := s.link.(run := true, phase := Init, closeSent := false),
                                        task := LoopTest), 1)
  {
    One(c, s, NO);
    hide Goes;
  }

  // ---- connecting ----

  /** In INIT the client reports an attempt and, if the server accepts, a connection of its own number. */
  lemma {:induction false} Connects(c: Config, s: State)
    requires s.task == LoopTest && s.link.run && s.locks.main == None && s.link.phase == Init
    ensures var t := Noted(Noted(s, BeforeConnect), ConnectedEvent);
            Goes(c, s, WithMain(t.(link := NextLink(s.link)), Piggyback), 4)
  {
    hide Goes;
    EntersTurn(c, s);
    var t := WithMain(s, Switch);
    Attempts(c, t);
    var u := WithMain(Noted(s, BeforeConnect), Connecting);
    Opens(c, u);
    Then(c, s, t, u, 2, 1);
    Then(c, s, u, WithMain(Noted(Noted(s, BeforeConnect), ConnectedEvent).(link := NextLink(s.link)), Piggyback), 3, 1);
  }

  lemma {:induction false} ReadsFirst(c: Config, s: State)
    requires s.task == Piggyback && s.link.open
    ensures Goes(c, s, s.(task := Receiving(InConnect)), 1) && Goes(c, s, s.(task := Unlock(Inspect)), 1)
  {
    One(c, s, YES);
    One(c, s, NO);
    hide Goes;
  }

  lemma {:induction false} ReadsOn(c: Config, s: State)
    requires s.task == Receiving(InConnect) && s.link.open
    ensures Goes(c, s, s.(task := Unlock(Yield)), 1)
  {
    One(c, s, Luck(true, Accepted, DataFrame));
    hide Goes;
  }

  /** A new connection is polled; data that came with the answer to the upgrade is read before. */
  lemma {:induction false} FirstReadThenPolls(c: Config, s: State)
    requires s.task == Piggyback && s.locks == MAIN && s.link.phase == Connected && s.link.open
    ensures Goes(c, s, s.(task := Receiving(InConnect)), 1)
    ensures Goes(c, s.(task := Receiving(InConnect)), WithoutMain(s, Polling), 5)
    ensures Goes(c, s, WithoutMain(s, Polling), 3)
  {
    hide Goes;
    ReadsFirst(c, s);
    var r, y, t := s.(task := Receiving(InConnect)), s.(task := Unlock(Yield)), WithoutMain(s, IsConnected);
    ReadsOn(c, r);
    YieldsOnce(c, y);
    Tests(c, t);
    Then(c, r, y, t, 1, 3);
    Then(c, r, t, WithoutMain(s, Polling), 4, 1);
    var u := s.(task := Unlock(Inspect));
    Gives(c, u);
    Then(c, s, u, t, 1, 1);
    Then(c, s, t, WithoutMain(s, Polling), 2, 1);
  }

  /** A redirect is followed on the next turn, in INIT still. */
  lemma {:induction false} RedirectTriesAgain(c: Config, s: State, luck: Luck)
    requires s.task == Connecting && s.link.phase == Init && luck.connect.Redirected?
    ensures Goes(c, TaskStep(c, s, luck),
                 WithoutMain(s, LoopTest).(link := s.link.(open := luck.connect.open)), 4)
  {
    var t := s.(link := s.link.(open := luck.connect.open), task := Unlock(Inspect));
    assert TaskStep(c, s, luck) == t;
    hide Goes, TaskStep;
    Gives(c, t);
    var u := WithoutMain(t, IsConnected);
    RoundTheLoop(c, u);
    Then(c, t, u, u.(task := LoopTest), 1, 3);
  }

  /** When its wait is over the client goes to INIT, and round its loop. */
  lemma {:induction false} WaitEnds(c: Config, s: State)
    requires s.task == LoopTest && s.link.run && s.locks.main == None && s.link.phase == WaitTimeout
    ensures Goes(c, s, s.(link := s.link.(phase := Init)), 7)
  {
    hide Goes;
    EntersTurn(c, s);
    var t := WithMain(s, Switch);
    Schedules(c, t);
    var u := WithMain(s.(link := s.link.(phase := Init)), Unlock(Inspect));
    Gives(c, u);
    var v := s.(link := s.link.(phase := Init), task := IsConnected);
    RoundTheLoop(c, v);
    assert WithoutMain(u, IsConnected) == v;
    Then(c, s, t, u, 2, 1);
    Then(c, s, u, v, 3, 1);
    Then(c, s, v, v.(task := LoopTest), 4, 3);
  }

  lemma {:induction false} RoundTheLoop(c: Config, s: State)
    requires s.task == IsConnected && s.link.phase == Init
    ensures Goes(c, s, s.(task := LoopTest), 3)
  {
    hide Goes;
    Tests(c, s);
    Tests(c, s.(task := IsWaiting));
    Tests(c, s.(task := IsClosing));
    Then(c, s, s.(task := IsWaiting), s.(task := IsClosing), 1, 1);
    Then(c, s, s.(task := IsClosing), s.(task := LoopTest), 2, 1);
  }

  /** So a client that lost its connection makes a new one: eleven steps after its wait is over. */
  lemma {:induction false} ReconnectsAfterWait(c: Config, s: State)
    requires s.task == LoopTest && s.link.run && s.locks.main == None && s.link.phase == WaitTimeout
    ensures var t := Noted(Noted(s, BeforeConnect), ConnectedEvent);
            Goes(c, s, WithMain(t.(link := Link(Connected, true, false, true, s.link.conn + 1)), Piggyback), 11)
  {
    hide Goes;
    WaitEnds(c, s);
    var u := s.(link := s.link.(phase := Init));
    Connects(c, u);
    var t := Noted(Noted(s, BeforeConnect), ConnectedEvent);
    Then(c, s, u, WithMain(t.(link := NextLink(s.link)), Piggyback), 7, 4);
  }

  // ---- reading ----

  /** Data waiting on a connected client is read under the lock; a broken poll aborts the connection. */
  lemma {:induction false} PollReads(c: Config, s: State, luck: Luck)
    requires s.task == Polling && s.locks.main == None && luck.got != Nothing
    ensures Goes(c, TaskStep(c, s, luck),
                 WithMain(s, if luck.got == ReadError then Aborting(PollFailed) else Receiving(InPoll)), 1)
  {
    var t := s.(task := WantLock(if luck.got == ReadError then FailPoll else Receive));
    assert TaskStep(c, s, luck) == t;
    hide Goes, TaskStep;
    GetsMain(c, t);
  }

  /** A failed read, and any read of a closed transport, aborts the connection. */
  lemma {:induction false} BrokenReadAborts(c: Config, s: State, place: Place, luck: Luck)
    requires s.task == Receiving(place) && (luck.got == ReadError || !s.link.open) && s.link.phase == Connected
    ensures Goes(c, TaskStep(c, s, luck),
                 Noted(s, Disconnected(Task, Connected)).(link := AbortedLink(c, s.link),
                                                          task := AfterAbort(ReceiveFailed(place))), 1)
  {
    var t := s.(task := Aborting(ReceiveFailed(place)));
    assert TaskStep(c, s, luck) == t;
    hide Goes, TaskStep;
    Aborts(c, t);
  }

  // ---- a sender alone ----

  function SenderAlone(c: Config, s: State, t: nat, n: nat): State
    requires t in s.senders
    decreases n
  {
    if n == 0 then s else SenderAlone(c, SenderStep(c, s, t, Succeeds), t, n - 1)
  }

  function Run(t: nat, call: nat, conn: nat, closing: bool, n: nat): seq<Frame> {
    seq(n, i => Frame(Sender(t), call, conn, SentKind(closing)))
  }

  /**
   The frame loop of a sender whose writes succeed writes all its frames, of one call and kind, on the
   connection.
   */
  lemma {:induction false} WritesAll(c: Config, s: State, t: nat)
    requires t in s.senders && s.senders[t].Writing? && s.link.open
    ensures var pc := s.senders[t];
            SenderAlone(c, s, t, pc.left + 1)
            == s.(log := s.log.(wire := s.log.wire + Run(t, pc.call, s.link.conn, pc.closing, pc.left)),
                  senders := s.senders[t := Releasing(pc.closing)])
    decreases s.senders[t].left
  {
    var pc, after := s.senders[t], SenderStep(c, s, t, Succeeds);
    if pc.left > 0 {
      WritesAll(c, after, t);
      var f := Frame(Sender(t), pc.call, s.link.conn, SentKind(pc.closing));
      var rest := Run(t, pc.call, s.link.conn, pc.closing, pc.left - 1);
      assert [f] + rest == Run(t, pc.call, s.link.conn, pc.closing, pc.left);
      Associative(s.log.wire, [f], rest);
      hide SenderStep;
    } else {
      assert s.log.wire + Run(t, pc.call, s.link.conn, pc.closing, 0) == s.log.wire;
    }
  }

  lemma {:induction false} AloneThen(c: Config, s: State, t: nat, n: nat, m: nat)
    requires t in s.senders
    ensures t in SenderAlone(c, s, t, n).senders
    ensures SenderAlone(c, s, t, n + m) == SenderAlone(c, SenderAlone(c, s, t, n), t, m)
    decreases n
  {
    assert t in SenderStep(c, s, t, Succeeds).senders;
    hide SenderStep;
    if n > 0 {
      AloneThen(c, SenderStep(c, s, t, Succeeds), t, n - 1, m);
    }
  }

  /** Done writing, it gives its mutex, and a close call notes that a CLOSE was sent. */
  lemma {:induction false} LeavesAlone(c: Config, s: State, t: nat)
    requires t in s.senders && s.senders[t].Releasing?
    ensures SenderAlone(c, s, t, if s.senders[t].mark then 2 else 1)
            == s.(locks := GaveTx(c, s.locks), senders := s.senders[t := Idle],
                  link := if s.senders[t].mark then s.link.(closeSent := true) else s.link)
  {
    var after := SenderStep(c, s, t, Succeeds);
    if s.senders[t].mark {
      var last := SenderStep(c, after, t, Succeeds);
      assert SenderAlone(c, after, t, 1) == SenderAlone(c, last, t, 0);
      assert s.senders[t := Marking][t := Idle] == s.senders[t := Idle];
    }
  }

  /**
   A call left alone, its mutex free and its writes whole: its frames and no others go out, the mutex is free again,
   nothing is reported, and only a close call notes that a CLOSE was sent.
   */
  lemma {:induction false} CallAlone(c: Config, s: State, t: nat)
    requires t in s.senders && s.senders[t].WantSend? && s.link.open
    requires (if c.separateTxLock then s.locks.tx else s.locks.main) == None
    ensures var pc := s.senders[t];
            SenderAlone(c, s, t, pc.frames + if pc.closing then 4 else 3)
            == s.(log := Log(s.log.calls + 1,
                             s.log.wire + Run(t, s.log.calls, s.link.conn, pc.closing, pc.frames), s.log.events),
                  link := if pc.closing then s.link.(closeSent := true) else s.link,
                  senders := s.senders[t := Idle])
  {
    var pc, a := s.senders[t], SenderStep(c, s, t, Succeeds);
    WritesAll(c, a, t);
    var b := SenderAlone(c, a, t, pc.frames + 1);
    LeavesAlone(c, b, t);
    assert b.senders[t := Idle] == s.senders[t := Idle];
    assert GaveTx(c, a.locks) == s.locks;
    var rest := if pc.closing then 2 else 1;
    AloneThen(c, a, t, pc.frames + 1, rest);
    assert SenderAlone(c, s, t, pc.frames + 1 + rest + 1) == SenderAlone(c, a, t, pc.frames + 1 + rest);
  }

  /** A call that fails closes the connection under `lock`, reports it once, and leaves both mutexes free. */
  lemma {:induction false} FailedCallAborts(c: Config, s: State, t: nat)
    requires t in s.senders && s.senders[t].Writing? && s.senders[t].left > 0 && s.link.phase == Connected
    requires s.locks == if c.separateTxLock then Locks(None, Some(Sender(t))) else Locks(Some(Sender(t)), None)
    ensures SenderAlone(c, SenderStep(c, s, t, Fails), t, if c.separateTxLock then 3 else 2)
            == Noted(s, Disconnected(Sender(t), Connected)).(locks := Locks(None, None),
                                                             link := AbortedLink(c, s.link),
                                                             senders := s.senders[t := Idle])
  {
    var a := SenderStep(c, s, t, Fails);
    var b := if c.separateTxLock then SenderStep(c, a, t, Succeeds) else a;
    AbortsAlone(c, b, t);
    assert b.senders[t := Idle] == s.senders[t := Idle];
  }

  lemma {:induction false} AbortsAlone(c: Config, s: State, t: nat)
    requires t in s.senders && s.senders[t] == SenderAborting(false) && s.link.phase == Connected
    ensures SenderAlone(c, s, t, 2)
            == Noted(s, Disconnected(Sender(t), Connected)).(locks := s.locks.(main := None),
                                                             link := AbortedLink(c, s.link),
                                                             senders := s.senders[t := Idle])
  {
    var a := SenderStep(c, s, t, Succeeds);
    var b := SenderStep(c, a, t, Succeeds);
    assert SenderAlone(c, a, t, 1) == SenderAlone(c, b, t, 0);
    assert s.senders[t := SenderUnlock(false)][t := Idle] == s.senders[t := Idle];
  }

  /** A close call whose write stalls aborts too, and takes the CLOSE for sent. */
  lemma {:induction false} StalledCloseMarks(c: Config, s: State, t: nat)
    requires t in s.senders && s.senders[t].Writing? && s.senders[t].left > 0 && s.senders[t].closing
    requires s.link.phase == Connected
    requires s.locks == if c.separateTxLock then Locks(None, Some(Sender(t))) else Locks(Some(Sender(t)), None)
    ensures SenderAlone(c, SenderStep(c, s, t, Stalls), t, if c.separateTxLock then 4 else 3)
            == Noted(s, Disconnected(Sender(t), Connected)).(locks := Locks(None, None),
                                                             link := AbortedLink(c, s.link).(closeSent := true),
                                                             senders := s.senders[t := Idle])
  {
    var a := SenderStep(c, s, t, Stalls);
    var b := if c.separateTxLock then SenderStep(c, a, t, Succeeds) else a;
    AbortsThenMarks(c, b, t);
    assert b.senders[t := Idle] == s.senders[t := Idle];
  }

  lemma {:induction false} AbortsThenMarks(c: Config, s: State, t: nat)
    requires t in s.senders && s.senders[t] == SenderAborting(true) && s.link.phase == Connected
    ensures SenderAlone(c, s, t, 3)
            == Noted(s, Disconnected(Sender(t), Connected)).(locks := s.locks.(main := None),
                                                             link := AbortedLink(c, s.link).(closeSent := true),
                                                             senders := s.senders[t := Idle])
  {
    var a := SenderStep(c, s, t, Succeeds);
    var b := SenderStep(c, a, t, Succeeds);
    var d := SenderStep(c, b, t, Succeeds);
    assert SenderAlone(c, a, t, 2) == SenderAlone(c, b, t, 1) == SenderAlone(c, d, t, 0);
    assert s.senders[t := SenderUnlock(true)][t := Marking][t := Idle] == s.senders[t := Idle];
  }
}
