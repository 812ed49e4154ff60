/**
 The WebSocket client as threads over shared state: its task, any number of sending threads, and one mutex
 (`lock`) or two (`lock` and `tx_lock`) according to the build. One step per lock operation, shared access or
 transport call; the results of transport calls, timers and lock timeouts are chosen by the environment,
 except that reads and writes on a closed transport fail.
 */
module ClientModel {
  import opened Basics

  datatype Config = Config(separateTxLock: bool, autoReconnect: bool, closeReconnect: bool)

  datatype Thread = Task | Sender(id: nat)

  datatype Phase = Unknown | Init | Connected | WaitTimeout | Closing

  datatype Event =
    | Begin
    | BeforeConnect
    | ConnectedEvent
    | Disconnected(aborter: Thread, found: Phase)
    | Closed
    | Finish

  datatype Kind = Payload | PingKind | PongKind | CloseKind

  /** A frame on the wire: who wrote it, in which send call, on which connection, and what it is. */
  datatype Frame = Frame(thread: Thread, call: nat, conn: nat, kind: Kind)

  // ---- where the threads are ----

  datatype Place = InConnect | InPoll

  datatype Control = Ping | Pong(place: Place) | Close

  datatype Cause = ConnectFailed | PongLate | ReceiveFailed(place: Place) | PollFailed

  /** What the task wants `lock` for. */
  datatype Goal = Dispatch | Receive | FailPoll | EndTurn | FailPong(place: Place) | Reconnect

  /** What the task does after giving `lock`. */
  datatype Next = Inspect | Again | FetchTx(control: Control) | Yield

  datatype TaskPc =
    | Off
    | LoopTest
    | WantLock(goal: Goal)
    | Switch
    | Connecting
    | Piggyback
    | Receiving(place: Place)
    | WantTx(control: Control)
    | WantLockWithTx(control: Control)
    | SendingControl(control: Control)
    | GivingTx(control: Control, sent: bool)
    | PongCheck
    | Aborting(cause: Cause)
    | Unlock(next: Next)
    | IsConnected
    | IsWaiting
    | IsClosing
    | Polling
    | Sleeping
    | AwaitClose
    | MarkClosed
    | Finishing
    | ClosingTransport
    | Stopping

  datatype SenderPc =
    | Idle
    | WantSend(frames: nat, closing: bool)
    | Writing(call: nat, frames: nat, left: nat, closing: bool)
    | Releasing(mark: bool)
    | Marking
    | WantAbort(mark: bool)
    | SenderAborting(mark: bool)
    | SenderUnlock(mark: bool)

  datatype Locks = Locks(main: Option<Thread>, tx: Option<Thread>)

  /** The client's own view of the connection, the transport's, and how many there have been. */
  datatype Link = Link(phase: Phase, run: bool, closeSent: bool, open: bool, conn: nat)

  /** What has been written and reported; `calls` numbers the send calls. */
  datatype Log = Log(calls: nat, wire: seq<Frame>, events: seq<Event>)

  datatype State = State(locks: Locks, link: Link, log: Log, task: TaskPc, senders: map<nat, SenderPc>)

  // ---- what the environment decides ----

  datatype ConnectResult = Refused | Redirected(open: bool) | Accepted

  datatype Got = ReadError | Nothing | DataFrame | PingFrame | PongFrame | CloseFrame

  datatype Luck = Luck(yes: bool, connect: ConnectResult, got: Got)

  /** A write can also stall at nothing; its caller then gets 0, and a close call takes that for success. */
  datatype Outcome = Succeeds | Fails | Stalls | NoBuffer

  datatype Action =
    | TaskRuns(luck: Luck)
    | Call(caller: nat, pieces: nat, close: bool)
    | SenderRuns(sender: nat, outcome: Outcome)
    | Stop

  // ---- the steps ----

  function Reported(log: Log, event: Event): Log {
    log.(events := log.events + [event])
  }

  /** Closes the connection and reports it, unless it is already closing or down. */
  predicate Abortable(phase: Phase) {
    phase == Init || phase == Connected
  }

  function AbortedLink(c: Config, link: Link): Link {
    if !Abortable(link.phase) then link
    else link.(open := false, run := link.run && c.autoReconnect,
               phase := if c.autoReconnect then WaitTimeout else Unknown)
  }

  function AbortedLog(link: Link, log: Log, who: Thread): Log {
    if !Abortable(link.phase) then log else Reported(log, Disconnected(who, link.phase))
  }

  function AfterReceive(place: Place): TaskPc {
    if place == InConnect then Unlock(Yield) else Unlock(Again)
  }

  function AfterAbort(cause: Cause): TaskPc {
    if cause == PollFailed || cause == ReceiveFailed(InPoll) then Unlock(Again) else Unlock(Inspect)
  }

  function AfterControl(control: Control, sent: bool): TaskPc {
    match control
    case Ping => if sent then PongCheck else Unlock(Inspect)
    case Pong(place) => AfterReceive(place)
    case Close => Unlock(Inspect)
  }

  function AfterTimeout(control: Control): TaskPc {
    match control
    case Pong(place) => WantLock(FailPong(place))
    case _ => WantLock(EndTurn)
  }

  function Fetched(goal: Goal): TaskPc {
    match goal
    case Dispatch => Switch
    case Receive => Receiving(InPoll)
    case FailPoll => Aborting(PollFailed)
    case EndTurn => Unlock(Inspect)
    case FailPong(place) => Aborting(ReceiveFailed(place))
    case Reconnect => MarkClosed
  }

  function Unlocked(next: Next): TaskPc {
    match next
    case Inspect => IsConnected
    case Again => LoopTest
    case FetchTx(control) => WantTx(control)
    case Yield => WantLock(EndTurn)
  }

  /** To a control frame: at once with a single lock, over `tx_lock` and a fresh look at the state with two. */
  function ToControl(c: Config, control: Control): TaskPc {
    if c.separateTxLock then Unlock(FetchTx(control)) else SendingControl(control)
  }

  function KindOf(control: Control): Kind {
    match control
    case Ping => PingKind
    case Pong(_) => PongKind
    case Close => CloseKind
  }

  predicate StillWanted(phase: Phase, control: Control) {
    match control
    case Ping => phase == Connected
    case Pong(_) => phase == Init || phase == Connected
    case Close => phase == Closing
  }

  function Dispatched(c: Config, link: Link, luck: Luck): TaskPc {
    match link.phase
    case Init => Connecting
    case Connected =>
      if link.closeSent then Unlock(Inspect) else if luck.yes then ToControl(c, Ping) else PongCheck
    case WaitTimeout => Unlock(Inspect)
    case Closing => if link.closeSent then Unlock(Inspect) else ToControl(c, Close)
    case Unknown => Unlock(Inspect)
  }

  function Connects(s: State, result: ConnectResult): State {
    match result
    case Refused => s.(task := Aborting(ConnectFailed))
    case Redirected(open) => s.(link := s.link.(open := open), task := Unlock(Inspect))
    case Accepted => s.(link := Link(Connected, s.link.run, false, true, s.link.conn + 1),
                        log := Reported(s.log, ConnectedEvent), task := Piggyback)
  }

  function Received(c: Config, link: Link, place: Place, got: Got): TaskPc {
    if !link.open || got == ReadError then Aborting(ReceiveFailed(place))
    else if got == PingFrame then ToControl(c, Pong(place))
    else AfterReceive(place)
  }

  /** A control frame is one call of its own; with two locks the state is looked at again before it. */
  function SendsControl(c: Config, s: State, control: Control, ok: bool): State {
    if c.separateTxLock && !StillWanted(s.link.phase, control) then s.(task := GivingTx(control, false))
    else s.(
      link := s.link.(closeSent := s.link.closeSent || (control == Close && !c.separateTxLock)),
      log := Log(s.log.calls + 1,
                 if s.link.open && ok then s.log.wire + [Frame(Task, s.log.calls, s.link.conn, KindOf(control))]
                 else s.log.wire,
                 s.log.events),
      task := if c.separateTxLock then GivingTx(control, true) else AfterControl(control, true))
  }

  /** The steps of the task between taking and giving `lock`, other than on the mutexes. */
  function TaskWorks(c: Config, s: State, luck: Luck): State {
    match s.task
    case Switch =>
      s.(link := if s.link.phase == WaitTimeout && luck.yes then s.link.(phase := Init) else s.link,
         log := if s.link.phase == Init then Reported(s.log, BeforeConnect) else s.log,
         task := Dispatched(c, s.link, luck))
    case Connecting => Connects(s, luck.connect)
    case Piggyback => s.(task := if luck.yes then Receiving(InConnect) else Unlock(Inspect))
    case Receiving(place) =>
      s.(link := if s.link.open && luck.got == CloseFrame then s.link.(phase := Closing) else s.link,
         task := Received(c, s.link, place, luck.got))
    case SendingControl(control) => SendsControl(c, s, control, luck.yes)
    case PongCheck => s.(task := if luck.yes then Aborting(PongLate) else Unlock(Inspect))
    case Aborting(cause) =>
      s.(link := AbortedLink(c, s.link), log := AbortedLog(s.link, s.log, Task), task := AfterAbort(cause))
    case MarkClosed =>
      s.(link := s.link.(phase := WaitTimeout, open := false, closeSent := false), log := Reported(s.log, Closed),
         task := Unlock(Again))
    case _ => s
  }

  /** Its steps on the mutexes. */
  function TaskLocks(s: State, luck: Luck): State {
    match s.task
    case WantLock(goal) => s.(locks := s.locks.(main := Some(Task)), task := Fetched(goal))
    case WantTx(control) =>
      if s.locks.tx.None? && luck.yes then s.(locks := s.locks.(tx := Some(Task)), task := WantLockWithTx(control))
      else s.(task := AfterTimeout(control))
    case WantLockWithTx(control) => s.(locks := s.locks.(main := Some(Task)), task := SendingControl(control))
    case GivingTx(control, sent) =>
      s.(locks := s.locks.(tx := None), link := s.link.(closeSent := s.link.closeSent || (control == Close && sent)),
         task := AfterControl(control, sent))
    case Unlock(next) => s.(locks := s.locks.(main := None), task := Unlocked(next))
    case _ => s
  }

  /** And its steps without any. */
  function TaskRoams(c: Config, s: State, luck: Luck): State {
    match s.task
    case Off =>
      s.(link := s.link.(run := true, phase := Init, closeSent := false), log := Reported(s.log, Begin), task := LoopTest)
    case LoopTest => s.(task := if s.link.run then WantLock(Dispatch) else Finishing)
    case IsConnected => s.(task := if s.link.phase == Connected then Polling else IsWaiting)
    case IsWaiting => s.(task := if s.link.phase == WaitTimeout then Sleeping else IsClosing)
    case IsClosing => s.(task := if s.link.phase == Closing && s.link.closeSent then AwaitClose else LoopTest)
    case Polling => s.(task := match luck.got
                               case ReadError => WantLock(FailPoll)
                               case Nothing => LoopTest
                               case _ => WantLock(Receive))
    case Sleeping => s.(task := LoopTest)
    case AwaitClose =>
      if c.closeReconnect then s.(task := WantLock(Reconnect))
      else s.(link := s.link.(run := false, phase := Unknown), log := Reported(s.log, Closed), task := Finishing)
    case Finishing => s.(log := Reported(s.log, Finish), task := ClosingTransport)
    case ClosingTransport => s.(link := s.link.(open := false), task := Stopping)
    case Stopping => s.(link := s.link.(phase := Unknown), task := Off)
    case _ => s
  }

  predicate OnLocks(pc: TaskPc) {
    pc.WantLock? || pc.WantTx? || pc.WantLockWithTx? || pc.GivingTx? || pc.Unlock?
  }

  predicate Working(pc: TaskPc) {
    || pc.Switch? || pc.Connecting? || pc.Piggyback? || pc.Receiving? || pc.SendingControl? || pc.PongCheck?
    || pc.Aborting? || pc.MarkClosed?
  }

  function TaskStep(c: Config, s: State, luck: Luck): State {
    if OnLocks(s.task) then TaskLocks(s, luck)
    else if Working(s.task) then TaskWorks(c, s, luck)
    else TaskRoams(c, s, luck)
  }

  // ---- senders ----

  /** The mutex a sender writes under, taken and given. */
  function TookTx(c: Config, locks: Locks, t: nat): Locks {
    if c.separateTxLock then locks.(tx := Some(Sender(t))) else locks.(main := Some(Sender(t)))
  }

  function GaveTx(c: Config, locks: Locks): Locks {
    if c.separateTxLock then locks.(tx := None) else locks.(main := None)
  }

  function TxOwner(c: Config, locks: Locks): Option<Thread> {
    if c.separateTxLock then locks.tx else locks.main
  }

  function SentKind(closing: bool): Kind {
    if closing then CloseKind else Payload
  }

  function Write(c: Config, s: State, t: nat, pc: SenderPc, outcome: Outcome): (State, SenderPc)
    requires pc.Writing?
  {
    if pc.left == 0 then (s, Releasing(pc.closing))
    else if s.link.open && outcome == Succeeds then
      (s.(log := s.log.(wire := s.log.wire + [Frame(Sender(t), pc.call, s.link.conn, SentKind(pc.closing))])),
       pc.(left := pc.left - 1))
    else if c.separateTxLock then (s.(locks := GaveTx(c, s.locks)), WantAbort(pc.closing && outcome == Stalls))
    else (s, SenderAborting(pc.closing && outcome == Stalls))
  }

  /** One step of sender `t`, which stands at `pc`: what becomes of the rest, and where it stands then. */
  function SenderMove(c: Config, s: State, t: nat, pc: SenderPc, outcome: Outcome): (State, SenderPc) {
    match pc
    case Idle => (s, Idle)
    case WantSend(frames, closing) =>
      if TxOwner(c, s.locks).Some? || outcome == Fails || outcome == Stalls then (s, Idle)
      else if outcome == NoBuffer then (s.(locks := TookTx(c, s.locks, t)), Releasing(false))
      else (s.(locks := TookTx(c, s.locks, t), log := s.log.(calls := s.log.calls + 1)),
            Writing(s.log.calls, frames, frames, closing))
    case Writing(_, _, _, _) => Write(c, s, t, pc, outcome)
    case Releasing(mark) => (s.(locks := GaveTx(c, s.locks)), if mark then Marking else Idle)
    case Marking => (s.(link := s.link.(closeSent := true)), Idle)
    case WantAbort(mark) => (s.(locks := s.locks.(main := Some(Sender(t)))), SenderAborting(mark))
    case SenderAborting(mark) =>
      (s.(link := AbortedLink(c, s.link), log := AbortedLog(s.link, s.log, Sender(t))), SenderUnlock(mark))
    case SenderUnlock(mark) => (s.(locks := s.locks.(main := None)), if mark then Marking else Idle)
  }

  function SenderStep(c: Config, s: State, t: nat, outcome: Outcome): State
    requires t in s.senders
  {
    var (after, pc) := SenderMove(c, s, t, s.senders[t], outcome);
    after.(senders := s.senders[t := pc])
  }

  /** A thread at a lock it waits for without a timeout runs only when the lock is free. */
  predicate Enabled(c: Config, s: State, a: Action) {
    match a
    case TaskRuns(_) =>
      (s.task == Off ==> s.link.phase == Unknown)
      && (s.task.WantLock? || s.task.WantLockWithTx? ==> s.locks.main == None)
    case Call(t, _, _) => t in s.senders && s.senders[t] == Idle
    case SenderRuns(t, _) =>
      t in s.senders && s.senders[t] != Idle && (s.senders[t].WantAbort? ==> s.locks.main == None)
    case Stop => s.task != Off
  }

  function Step(c: Config, s: State, a: Action): State
    requires Enabled(c, s, a)
  {
    match a
    case TaskRuns(luck) => TaskStep(c, s, luck)
    case Call(t, pieces, close) =>
      if s.link.phase == Connected then s.(senders := s.senders[t := WantSend(pieces, close)]) else s
    case SenderRuns(t, outcome) => SenderStep(c, s, t, outcome)
    case Stop => s.(link := s.link.(run := false))
  }

  /** The client as created, with any set of threads that may send. */
  ghost predicate Starts(s: State) {
    && s == State(Locks(None, None), Link(Unknown, false, false, false, 0), Log(0, [], []), Off, s.senders)
    && forall t :: t in s.senders ==> s.senders[t] == Idle
  }

  ghost predicate IsRun(c: Config, states: seq<State>, actions: seq<Action>) {
    && |states| == |actions| + 1 && Starts(states[0])
    && forall i :: 0 <= i < |actions| ==> Enabled(c, states[i], actions[i]) && states[i + 1] == Step(c, states[i], actions[i])
  }
}
