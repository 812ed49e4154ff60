/**
 The client's keep-alive: PINGs at an interval, one outstanding PONG, and the abort when it does not come.
 Times are milliseconds of a 64-bit clock.
 */
module KeepAlive {
  import opened Basics

  datatype Config = Config(pongTimeoutSec: nat)

  datatype Timers = Timers(pingTick: nat, pongTick: nat, waitForPong: bool)

  /** What happened on the wire; a PING is written at one time and stamped at another. */
  datatype Event = Connected(at: nat) | PingSent(at: nat, stamped: nat) | PongReceived(at: nat)

  /**
   One iteration of the task in CONNECTED: the ping interval it reads, which any thread may have set, the
   clock at its four reads, the send in between, and whether the transmit lock was obtained.
   */
  datatype Check = Check(intervalSec: nat, t1: nat, t2: nat, sent: nat, t3: nat, t4: nat, locked: bool)

  predicate PingDue(s: Timers, k: Check) {
    k.t1 - s.pingTick > k.intervalSec * 1000
  }

  /** The timers, the events and the verdict of one iteration; without the lock it ends early. */
  function Checked(c: Config, s: Timers, k: Check): (Timers, seq<Event>, bool) {
    if PingDue(s, k) && !k.locked then (s.(pingTick := k.t2), [], false)
    else
      var t := if !PingDue(s, k) then s
               else if !s.waitForPong && c.pongTimeoutSec != 0 then Timers(k.t2, k.t3, true)
               else s.(pingTick := k.t2);
      (t, if PingDue(s, k) then [PingSent(k.sent, k.t3)] else [],
       k.t4 - t.pongTick > c.pongTimeoutSec * 1000 && t.waitForPong)
  }

  class KeepAliveTimers {
    const config: Config
    var pingTick: nat
    var pongTick: nat
    var waitForPong: bool

    ghost function View(): Timers
      reads this
    {
      Timers(pingTick, pongTick, waitForPong)
    }

    constructor (config: Config, now: nat)
      ensures this.config == config && View() == Timers(now, 0, false)
    {
      this.config := config;
      pingTick, pongTick, waitForPong := now, 0, false;
    }

    method OnConnected()
      modifies this`waitForPong
      ensures View() == old(View()).(waitForPong := false)
    {
      waitForPong := false;
    }

    method OnPong()
      modifies this`waitForPong
      ensures View() == old(View()).(waitForPong := false)
    {
      waitForPong := false;
    }

    method CheckPing(k: Check) returns (events: seq<Event>, abort: bool)
      modifies this
      ensures (View(), events, abort) == Checked(config, old(View()), k)
    {
      events, abort := [], false;
      if k.t1 - pingTick > k.intervalSec * 1000 {
        pingTick := k.t2;
        if !k.locked {
          return;
        }
        events := [PingSent(k.sent, k.t3)];
        if !waitForPong && config.pongTimeoutSec != 0 {
          pongTick := k.t3;
          waitForPong := true;
        }
      }
      if k.t4 - pongTick > config.pongTimeoutSec * 1000 {
        if waitForPong {
          abort := true;
        }
      }
    }
  }

  // ---- runs ----

  datatype Action = Connect(at: nat) | Pong(at: nat) | Iterate(check: Check)

  function Step(c: Config, s: Timers, a: Action): (Timers, seq<Event>, bool) {
    match a
    case Connect(at) => (s.(waitForPong := false), [Connected(at)], false)
    case Pong(at) => (s.(waitForPong := false), [PongReceived(at)], false)
    case Iterate(k) => Checked(c, s, k)
  }

  /** The timers and the history after a run. */
  function Run(c: Config, start: nat, actions: seq<Action>): (Timers, seq<Event>) {
    if actions == [] then (Timers(start, 0, false), [])
    else
      var (s, h) := Run(c, start, actions[..|actions| - 1]);
      var (t, events, _) := Step(c, s, actions[|actions| - 1]);
      (t, h + events)
  }

  /** The oldest PING of the current connection that no PONG has answered. */
  function Unanswered(h: seq<Event>): (r: Option<Event>)
    ensures r.Some? ==> r.value.PingSent?
  {
    if h == [] then None
    else
      var before := Unanswered(h[..|h| - 1]);
      match h[|h| - 1]
      case Connected(_) => None
      case PongReceived(_) => None
      case PingSent(_, _) => if before.Some? then before else Some(h[|h| - 1])
  }

  lemma {:induction false} UnansweredSnoc(h: seq<Event>, e: Event)
    ensures Unanswered(h + [e]) == match e
                                   case PingSent(_, _) => (if Unanswered(h).Some? then Unanswered(h) else Some(e))
                                   case _ => None
    ensures h + [] == h
  {
    assert (h + [e])[..|h|] == h;
  }

  /** The two fields remember exactly the oldest unanswered PING; with the timeout off they remember nothing. */
  lemma {:induction false} TimersRememberPing(c: Config, start: nat, actions: seq<Action>)
    ensures var (s, h) := Run(c, start, actions);
            if c.pongTimeoutSec == 0 then !s.waitForPong
            else (s.waitForPong <==> Unanswered(h).Some?)
                 && (s.waitForPong ==> Unanswered(h).value.stamped == s.pongTick)
  {
    if actions != [] {
      TimersRememberPing(c, start, actions[..|actions| - 1]);
      var (s, h) := Run(c, start, actions[..|actions| - 1]);
      var (t, events, _) := Step(c, s, actions[|actions| - 1]);
      if events != [] {
        UnansweredSnoc(h, events[0]);
        assert events == [events[0]];
      } else {
        assert h + events == h;
      }
    }
  }

  /**
   The verdict of any iteration of any run that gets the lock: abort iff the timeout is on and the oldest
   unanswered PING of this connection was stamped more than the timeout ago.
   */
  lemma {:induction false} AbortIffOverdue(c: Config, start: nat, actions: seq<Action>, k: Check)
    ensures var (s, h) := Run(c, start, actions);
            var (t, events, abort) := Checked(c, s, k);
            var ping := Unanswered(h + events);
            (abort <==> c.pongTimeoutSec != 0 && (PingDue(s, k) ==> k.locked)
                        && ping.Some? && k.t4 - ping.value.stamped > c.pongTimeoutSec * 1000)
  {
    var (s, h) := Run(c, start, actions);
    TimersRememberPing(c, start, actions);
    TimersRememberPing(c, start, actions + [Iterate(k)]);
    assert (actions + [Iterate(k)])[..|actions|] == actions;
  }

  /** An unanswered PING is a PING of the history, after which there is no PONG and no new connection. */
  lemma {:induction false} UnansweredMeans(h: seq<Event>) returns (i: nat)
    requires Unanswered(h).Some?
    ensures i < |h| && h[i] == Unanswered(h).value && h[i].PingSent?
    ensures forall j :: i < j < |h| ==> h[j].PingSent?
  {
    var init := h[..|h| - 1];
    if Unanswered(init).Some? {
      i := UnansweredMeans(init);
    } else {
      i := |h| - 1;
    }
  }

  /** So no abort without a PING on this connection, sent more than the timeout ago and never answered. */
  lemma {:induction false} AbortNeedsOldPing(c: Config, start: nat, actions: seq<Action>, k: Check) returns (i: nat)
    requires Checked(c, Run(c, start, actions).0, k).2
    requires forall a :: a in actions + [Iterate(k)] && a.Iterate? ==> a.check.sent <= a.check.t3
    ensures var (s, h) := Run(c, start, actions);
            var all := h + Checked(c, s, k).1;
            && c.pongTimeoutSec != 0 && i < |all| && all[i].PingSent?
            && k.t4 - all[i].at > c.pongTimeoutSec * 1000
            && forall j :: i < j < |all| ==> all[j].PingSent?
  {
    AbortIffOverdue(c, start, actions, k);
    var all := Run(c, start, actions).1 + Checked(c, Run(c, start, actions).0, k).1;
    i := UnansweredMeans(all);
    assert (actions + [Iterate(k)])[..|actions|] == actions;
    PingsWereStampedAfter(c, start, actions + [Iterate(k)], i);
  }

  lemma {:induction false} PingsWereStampedAfter(c: Config, start: nat, actions: seq<Action>, i: nat)
    requires forall a :: a in actions && a.Iterate? ==> a.check.sent <= a.check.t3
    requires i < |Run(c, start, actions).1| && Run(c, start, actions).1[i].PingSent?
    ensures Run(c, start, actions).1[i].at <= Run(c, start, actions).1[i].stamped
  {
    var init, last := actions[..|actions| - 1], actions[|actions| - 1];
    var (s, h) := Run(c, start, init);
    if i < |h| {
      PingsWereStampedAfter(c, start, init, i);
    } else {
      assert last in actions;
    }
  }

  // ---- when a PING goes out ----

  /** The time noted by the last iteration that found a PING due, or the start. */
  function LastAttempt(start: nat, actions: seq<Action>): nat {
    if actions == [] then start
    else
      var before, a := LastAttempt(start, actions[..|actions| - 1]), actions[|actions| - 1];
      if a.Iterate? && a.check.t1 - before > a.check.intervalSec * 1000 then a.check.t2 else before
  }

  lemma {:induction false} TickIsLastAttempt(c: Config, start: nat, actions: seq<Action>)
    ensures Run(c, start, actions).0.pingTick == LastAttempt(start, actions)
  {
    if actions != [] {
      TickIsLastAttempt(c, start, actions[..|actions| - 1]);
    }
  }

  /**
   After any run, an iteration sends exactly one PING if more than the interval it reads has passed since the
   last attempt and the lock was obtained, and none otherwise.
   */
  lemma {:induction false} PingSentIff(c: Config, start: nat, actions: seq<Action>, k: Check)
    ensures Checked(c, Run(c, start, actions).0, k).1
            == if k.t1 - LastAttempt(start, actions) > k.intervalSec * 1000 && k.locked then [PingSent(k.sent, k.t3)] else []
  {
    TickIsLastAttempt(c, start, actions);
  }

  ghost predicate Attempts(start: nat, actions: seq<Action>, i: nat)
    requires i < |actions|
  {
    actions[i].Iterate?
    && actions[i].check.t1 - LastAttempt(start, actions[..i]) > actions[i].check.intervalSec * 1000
  }

  ghost predicate ClockRuns(actions: seq<Action>) {
    forall x, y :: 0 <= x < y < |actions| && actions[x].Iterate? && actions[y].Iterate? ==>
      actions[x].check.t2 <= actions[y].check.t2
  }

  /** So two attempts are more than the interval apart, whatever the connections and PONGs in between. */
  lemma {:induction false} AttemptsAreSpaced(start: nat, actions: seq<Action>, i: nat, j: nat)
    requires i < j < |actions| && Attempts(start, actions, i) && Attempts(start, actions, j) && ClockRuns(actions)
    ensures actions[j].check.t1 - actions[i].check.t2 > actions[j].check.intervalSec * 1000
  {
    AttemptIsRemembered(start, actions, i, j);
  }

  lemma {:induction false} AttemptIsRemembered(start: nat, actions: seq<Action>, i: nat, n: nat)
    requires i < n <= |actions| && Attempts(start, actions, i) && ClockRuns(actions)
    ensures LastAttempt(start, actions[..n]) >= actions[i].check.t2
  {
    assert actions[..n][..n - 1] == actions[..n - 1];
    if i < n - 1 {
      AttemptIsRemembered(start, actions, i, n - 1);
    }
  }
}
