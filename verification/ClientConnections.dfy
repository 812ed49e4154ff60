/**
 Which connection a frame goes out on, in either lock build: the frames of a call are on one connection exactly
 when no CONNECTED was reported in between.
 */
module ClientConnections {
  import opened Basics
  import opened ClientModel
  import opened ClientEvents
  import opened ClientWire

  predicate ReportsConnected(before: Log, after: Log) {
    after.events == before.events + [ConnectedEvent]
  }

  /** A step writes at most one frame, on the connection of its moment, and counts a connection iff it reports it. */
  predicate StepOfLink(s: State, t: State) {
    && (t.log.wire == s.log.wire
        || (|t.log.wire| == |s.log.wire| + 1 && s.log.wire <= t.log.wire
            && t.log.wire[|s.log.wire|].conn == s.link.conn))
    && t.link.conn == s.link.conn + if ReportsConnected(s.log, t.log) then 1 else 0
  }

  /** Which event was appended, if any, can be read off the log. */
  lemma {:induction false} ReportsOne(before: Log, after: Log, e: Option<Event>)
    requires Reports(before, after, e)
    ensures ReportsConnected(before, after) <==> e == Some(ConnectedEvent)
  {
    if e.Some? {
      assert after.events[|before.events|] == e.value;
    } else {
      assert |before.events + [ConnectedEvent]| == |before.events| + 1;
    }
    if ReportsConnected(before, after) {
      assert after.events[|before.events|] == ConnectedEvent;
    }
  }

  lemma {:induction false} TaskConnects(c: Config, s: State, luck: Luck)
    ensures TaskStep(c, s, luck).link.conn
            == s.link.conn + if TaskEvent(c, s, luck) == Some(ConnectedEvent) then 1 else 0
  {
  }

  lemma {:induction false} TaskStepOfLink(c: Config, s: State, luck: Luck)
    ensures StepOfLink(s, TaskStep(c, s, luck))
  {
    TaskWrites(c, s, luck);
    TaskConnects(c, s, luck);
    TaskReports(c, s, luck);
    hide TaskStep, TaskEvent, Reports, ReportsConnected;
    ReportsOne(s.log, TaskStep(c, s, luck).log, TaskEvent(c, s, luck));
  }

  lemma {:induction false} SenderStepOfLink(c: Config, s: State, id: nat, outcome: Outcome)
    requires id in s.senders
    ensures StepOfLink(s, SenderStep(c, s, id, outcome))
  {
    SenderWritesOne(c, s, id, outcome);
    SenderReports(c, s, id, outcome);
    hide SenderStep, Reports, ReportsConnected;
    ReportsOne(s.log, SenderStep(c, s, id, outcome).log, SenderEvent(s, id));
  }

  lemma {:induction false} SenderWritesOne(c: Config, s: State, id: nat, outcome: Outcome)
    requires id in s.senders
    ensures var t := SenderStep(c, s, id, outcome);
            && t.link.conn == s.link.conn
            && (t.log.wire == s.log.wire
                || exists f: Frame :: t.log.wire == s.log.wire + [f] && f.conn == s.link.conn)
  {
    SenderWrites(c, s, id, outcome);
    hide SenderStep;
  }

  lemma {:induction false} AnyStepOfLink(c: Config, s: State, a: Action)
    requires Enabled(c, s, a)
    ensures StepOfLink(s, Step(c, s, a))
  {
    hide TaskStep, SenderStep, StepOfLink;
    match a
    case TaskRuns(luck) => TaskStepOfLink(c, s, luck);
    case SenderRuns(t, outcome) => SenderStepOfLink(c, s, t, outcome);
    case _ => NothingWritten(s, Step(c, s, a));
  }

  lemma {:induction false} NothingWritten(s: State, t: State)
    requires t.log == s.log && t.link.conn == s.link.conn
    ensures StepOfLink(s, t)
  {
    ReportsOne(s.log, t.log, None);
  }

  /** The step in which a frame was written. */
  lemma {:induction false} FrameWritten(c: Config, states: seq<State>, actions: seq<Action>, n: nat, i: nat)
      returns (a: nat)
    requires IsRun(c, states, actions) && n < |states| && i < |states[n].log.wire|
    ensures a < n && |states[a].log.wire| == i && |states[a + 1].log.wire| == i + 1
    ensures states[a].log.wire <= states[a + 1].log.wire <= states[n].log.wire
    ensures states[n].log.wire[i].conn == states[a].link.conn
  {
    hide Step, Enabled;
    AnyStepOfLink(c, states[n - 1], actions[n - 1]);
    if i < |states[n - 1].log.wire| {
      a := FrameWritten(c, states, actions, n - 1, i);
    } else {
      a := n - 1;
    }
  }

  lemma {:induction false} ConnectionsBetween(c: Config, states: seq<State>, actions: seq<Action>, a: nat, b: nat)
    requires IsRun(c, states, actions) && a <= b < |states|
    ensures states[a].link.conn <= states[b].link.conn
    ensures states[a].link.conn < states[b].link.conn
            <==> exists x :: a <= x < b && ReportsConnected(states[x].log, states[x + 1].log)
  {
    hide Step, Enabled;
    if a < b {
      ConnectionsBetween(c, states, actions, a, b - 1);
      AnyStepOfLink(c, states[b - 1], actions[b - 1]);
      if ReportsConnected(states[b - 1].log, states[b - 1 + 1].log) {
        assert a <= b - 1 < b;
      }
    }
  }

  /**
   In every run of either build, two frames are on different connections iff a CONNECTED was reported between the
   step that wrote the first and the step that wrote the second; so a call stays on one connection iff none was
   reported between its first frame and its last.
   */
  lemma {:induction false} StraddlesIffReconnected(c: Config, states: seq<State>, actions: seq<Action>, n: nat,
                                                   i: nat, k: nat)
      returns (a: nat, b: nat)
    requires IsRun(c, states, actions) && n < |states| && i < k < |states[n].log.wire|
    ensures a < b < n
    ensures |states[a].log.wire| == i && |states[a + 1].log.wire| == i + 1
    ensures |states[b].log.wire| == k && |states[b + 1].log.wire| == k + 1
    ensures states[n].log.wire[i].conn != states[n].log.wire[k].conn
            <==> exists x :: a <= x < b && ReportsConnected(states[x].log, states[x + 1].log)
  {
    b := FrameWritten(c, states, actions, n, k);
    a := FrameWritten(c, states, actions, b, i);
    hide IsRun;
    assert states[b].log.wire[i] == states[n].log.wire[i];
    ConnectionsBetween(c, states, actions, a, b);
  }
}
