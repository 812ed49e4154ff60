/**
 Runs of the job service: POSTs, worker turns, crashes and restarts in any order. What the table says and
 what the process holds agree at every suspension point.
 */
module JobRuns {
  import opened Basics
  import opened Jobs

  datatype Action =
    | Post(newId: JobId, recording: string, codecOk: bool, path: Option<string>)
    | Take
    | SttDone(out: Outcome)
    | AgentDone(out: Outcome)
    | Finish
    | Crash
    | Restart(jobs: seq<JobId>)

  ghost predicate Enabled(s: Sys, a: Action) {
    match a
    case Post(newId, _, _, _) => !s.turn.Down? && newId !in s.rows
    case Take => s.turn.Waiting? && s.queue != []
    case SttDone(_) => s.turn.InStt?
    case AgentDone(_) => s.turn.InAgent?
    case Finish => s.turn.Showing?
    case Crash => !s.turn.Down?
    case Restart(jobs) => s.turn.Down? && Enumerates(jobs, Unfinished(s.rows))
  }

  ghost function Step(s: Sys, a: Action, maxsize: int): Sys
    requires Enabled(s, a)
  {
    match a
    case Post(newId, recording, codecOk, path) => Posted(s, maxsize, newId, recording, codecOk, path).0
    case Take => Dequeued(s)
    case SttDone(out) => SttReturned(s, out)
    case AgentDone(out) => AgentReturned(s, out)
    case Finish => Shown(s)
    case Crash => Crashed(s)
    case Restart(jobs) => Restarted(s, maxsize, jobs)
  }

  function Bound(maxsize: int): nat {
    if maxsize > 0 then maxsize else 0
  }

  /** The jobs the process is answerable for: the one in hand, then the queued ones. */
  function InFlight(s: Sys): seq<JobId> {
    s.turn.Current() + s.queue
  }

  /** The shape a row's status dictates. */
  predicate Shaped(r: Row) {
    match r.status
    case Received => r.transcript.None? && r.reply.None? && r.error.None?
    case Transcribing => r.transcript.None? && r.reply.None? && r.error.None?
    case Working => r.transcript.Some? && r.transcript.value != "" && r.reply.None? && r.error.None?
    case Displaying => r.transcript.Some? && r.transcript.value != "" && r.reply.Some? && r.error.None?
    case Done => r.transcript.Some? && (r.reply.None? <==> r.transcript.value == "") && r.error.None?
    case Failed => r.transcript.None? && r.reply.None? && r.error.Some?
  }

  /** The table and the process agree. */
  ghost predicate Agree(s: Sys, maxsize: int) {
    if s.turn.Down? then s == Crashed(s) && |Unfinished(s.rows)| <= Bound(maxsize)
    else Enumerates(InFlight(s), Unfinished(s.rows)) && s.active == |InFlight(s)| <= Bound(maxsize)
  }

  /** The row of the job in hand is where its turn says. */
  ghost predicate TurnMatches(s: Sys) {
    match s.turn
    case InStt(job) => job in s.rows && s.rows[job].status == Transcribing
    case InAgent(job, text) => job in s.rows && s.rows[job].status == Working && text != ""
    case Showing(job, text, reply) => job in s.rows && s.rows[job].status == Displaying && text != ""
    case _ => true
  }

  ghost predicate StartedOnce(s: Sys) {
    && NoDuplicates(s.started)
    && (forall id :: id in s.started ==> id in s.rows)
    && (forall id :: id in s.queue ==> id !in s.started)
  }

  ghost predicate RowsOk(rows: Table) {
    Unique(rows) && forall id :: id in rows ==> Shaped(rows[id])
  }

  ghost predicate Inv(s: Sys, maxsize: int) {
    && RowsOk(s.rows)
    && Agree(s, maxsize) && TurnMatches(s) && StartedOnce(s)
  }

  const INITIAL := Sys(map[], [], 0, Down, [])

  lemma {:induction false} InitialInv(maxsize: int)
    ensures Inv(INITIAL, maxsize)
  {
    assert Unfinished(map[]) == {};
  }

  // ---- table facts ----

  lemma {:induction false} EnumerationSize(q: seq<JobId>, s: set<JobId>)
    requires Enumerates(q, s)
    ensures |q| == |s|
  {
    if q != [] {
      var last, rest := q[|q| - 1], q[..|q| - 1];
      assert last in q && last !in rest;
      forall id
        ensures id in rest <==> id in s - {last}
      {
        if id in s - {last} {
          assert id in q;
        }
      }
      EnumerationSize(rest, s - {last});
    } else {
      assert s == {};
    }
  }

  lemma {:induction false} UnfinishedUpdated(rows: Table, id: JobId, st: Status, t: Option<string>,
                                             r: Option<string>, e: Option<string>)
    requires id in rows
    ensures Unfinished(Updated(rows, id, st, t, r, e))
            == if Recoverable(st) then Unfinished(rows) + {id} else Unfinished(rows) - {id}
    ensures RowsOk(rows) && Shaped(Row("", "", st, t, r, e)) ==> RowsOk(Updated(rows, id, st, t, r, e))
  {
    var after := Updated(rows, id, st, t, r, e);
    forall i, j | i in after && j in after && after[i].recording == after[j].recording && Unique(rows)
      ensures i == j
    {
      assert rows[i].recording == rows[j].recording;
    }
  }

  lemma {:induction false} RowsInserted(rows: Table, id: JobId, recording: string, path: string)
    requires RowsOk(rows) && id !in rows && ByRecording(rows, recording).None?
    ensures RowsOk(Inserted(rows, id, recording, path))
    ensures Unfinished(Inserted(rows, id, recording, path)) == Unfinished(rows) + {id}
  {
    assert forall i :: i in rows ==> !Holds(rows, recording, i);
  }

  // ---- every step keeps the invariant ----

  /** A new recording that finds room: its job is inserted and queued. */
  lemma {:induction false} AcceptKeepsInv(s: Sys, t: Sys, id: JobId, recording: string, path: string, maxsize: int)
    requires Inv(s, maxsize) && !s.turn.Down? && id !in s.rows && ByRecording(s.rows, recording).None?
    requires s.active < maxsize
    requires t == s.(rows := Inserted(s.rows, id, recording, path), active := s.active + 1, queue := s.queue + [id])
    ensures Inv(t, maxsize)
  {
    RowsInserted(s.rows, id, recording, path);
    assert id !in Unfinished(s.rows);
    assert InFlight(t) == InFlight(s) + [id];
    EnumeratesSnoc(InFlight(s), Unfinished(s.rows), id);
  }

  lemma {:induction false} RowsRefused(rows: Table, id: JobId, recording: string, path: string)
    requires RowsOk(rows) && id !in rows && ByRecording(rows, recording).None?
    ensures var after := Updated(Inserted(rows, id, recording, path), id, Failed, None, None, Some("queue_full"));
            && RowsOk(after) && Unfinished(after) == Unfinished(rows) && after.Keys == rows.Keys + {id}
            && forall i :: i in rows ==> after[i] == rows[i]
  {
    RowsInserted(rows, id, recording, path);
    UnfinishedUpdated(Inserted(rows, id, recording, path), id, Failed, None, None, Some("queue_full"));
    assert id !in Unfinished(rows);
    hide RowsOk, ByRecording;
  }

  /** A new recording that finds none: its job is inserted and marked failed at once. */
  lemma {:induction false} RefuseKeepsInv(s: Sys, t: Sys, id: JobId, recording: string, path: string, maxsize: int)
    requires Inv(s, maxsize) && !s.turn.Down? && id !in s.rows && ByRecording(s.rows, recording).None?
    requires var rows := Inserted(s.rows, id, recording, path);
             t == s.(rows := Updated(rows, id, Failed, None, None, Some("queue_full")))
    ensures Inv(t, maxsize)
  {
    hide RowsOk, Unfinished, Enumerates, NoDuplicates, ByRecording, Updated, Inserted;
    RowsRefused(s.rows, id, recording, path);
    assert InFlight(t) == InFlight(s);
  }

  lemma {:induction false} PostKeepsInv(s: Sys, a: Action, maxsize: int)
    requires a.Post? && Enabled(s, a) && Inv(s, maxsize)
    ensures Inv(Step(s, a, maxsize), maxsize)
  {
    hide Inv;
    var (t, response) := Posted(s, maxsize, a.newId, a.recording, a.codecOk, a.path);
    if a.codecOk && ByRecording(s.rows, a.recording).None? && a.path.Some? {
      if response.Busy? {
        RefuseKeepsInv(s, t, a.newId, a.recording, a.path.value, maxsize);
      } else {
        AcceptKeepsInv(s, t, a.newId, a.recording, a.path.value, maxsize);
      }
    }
  }

  lemma {:induction false} EnumeratesSnoc(q: seq<JobId>, s: set<JobId>, id: JobId)
    requires Enumerates(q, s) && id !in s
    ensures Enumerates(q + [id], s + {id})
  {
    assert forall i :: 0 <= i < |q| ==> q[i] in q;
  }

  lemma {:induction false} EnumeratesTail(q: seq<JobId>, s: set<JobId>)
    requires Enumerates(q, s) && q != []
    ensures Enumerates(q[1..], s - {q[0]}) && q[0] in s && q[0] !in q[1..]
  {
    assert q[0] in q;
    forall id
      ensures id in q[1..] <==> id in s - {q[0]}
    {
      if id in s - {q[0]} {
        assert id in q;
      }
    }
  }

  /** The job in hand moves on, or is finished and leaves the process. */
  lemma {:induction false} HandKeepsInv(s: Sys, t: Sys, maxsize: int, st: Status,
                                        tr: Option<string>, re: Option<string>, er: Option<string>)
    requires Inv(s, maxsize) && s.turn.Current() != []
    requires t.rows == Updated(s.rows, s.turn.job, st, tr, re, er) && t.queue == s.queue && t.started == s.started
    requires Shaped(Row("", "", st, tr, re, er)) && TurnMatches(t)
    requires if Recoverable(st) then t.turn.Current() == s.turn.Current() && t.active == s.active
             else t.turn.Waiting? && t.active == s.active - 1
    ensures Inv(t, maxsize)
  {
    var job := s.turn.job;
    EnumeratesTail(InFlight(s), Unfinished(s.rows));
    assert InFlight(s)[0] == job && InFlight(s)[1..] == s.queue;
    UnfinishedUpdated(s.rows, job, st, tr, re, er);
    if Recoverable(st) {
      assert Unfinished(t.rows) == Unfinished(s.rows);
      assert InFlight(t) == InFlight(s);
    } else {
      assert InFlight(t) == s.queue;
    }
  }

  function Begun(rows: Table, job: JobId): Table {
    Updated(rows, job, Transcribing, None, None, None)
  }

  function Broken(rows: Table, job: JobId): Table {
    Updated(Begun(rows, job), job, Failed, None, None, Some("io_error"))
  }

  lemma {:induction false} RowsTaken(rows: Table, job: JobId)
    requires RowsOk(rows) && job in Unfinished(rows)
    ensures RowsOk(Begun(rows, job)) && RowsOk(Broken(rows, job))
    ensures Unfinished(Begun(rows, job)) == Unfinished(rows)
            && Unfinished(Broken(rows, job)) == Unfinished(rows) - {job}
    ensures Begun(rows, job).Keys == Broken(rows, job).Keys == rows.Keys
            && Begun(rows, job)[job].status == Transcribing
  {
    UnfinishedUpdated(rows, job, Transcribing, None, None, None);
    UnfinishedUpdated(Begun(rows, job), job, Failed, None, None, Some("io_error"));
    assert Unfinished(rows) + {job} == Unfinished(rows);
    hide RowsOk;
  }

  lemma {:induction false} TakeStartsKeepsInv(s: Sys, t: Sys, maxsize: int)
    requires Inv(s, maxsize) && s.turn.Waiting? && s.queue != []
    requires var job := s.queue[0];
             t == s.(rows := Begun(s.rows, job), queue := s.queue[1..], turn := InStt(job), started := s.started + [job])
    ensures Inv(t, maxsize)
  {
    assert InFlight(s) == s.queue == InFlight(t);
    EnumeratesTail(s.queue, Unfinished(s.rows));
    RowsTaken(s.rows, s.queue[0]);
    StartedSnoc(s, t);
    hide RowsOk, Unfinished, Enumerates, NoDuplicates, StartedOnce, Begun;
  }

  /** Only queued jobs may still be started. */
  lemma {:induction false} StartedSnoc(s: Sys, t: Sys)
    requires StartedOnce(s) && s.queue != [] && s.queue[0] in s.rows && s.queue[0] !in s.queue[1..]
    requires t.queue == s.queue[1..] && t.rows.Keys == s.rows.Keys
    requires t.started == s.started + [s.queue[0]] || t.started == s.started
    ensures StartedOnce(t)
  {
    assert s.queue[0] in s.queue;
  }

  lemma {:induction false} TakeFailsKeepsInv(s: Sys, t: Sys, maxsize: int)
    requires Inv(s, maxsize) && s.turn.Waiting? && s.queue != []
    requires t == s.(rows := Broken(s.rows, s.queue[0]), queue := s.queue[1..], active := s.active - 1)
    ensures Inv(t, maxsize)
  {
    assert InFlight(s) == s.queue && InFlight(t) == s.queue[1..];
    EnumeratesTail(s.queue, Unfinished(s.rows));
    RowsTaken(s.rows, s.queue[0]);
    StartedSnoc(s, t);
    hide RowsOk, Unfinished, Enumerates, NoDuplicates, StartedOnce, Broken;
  }

  lemma {:induction false} TakeKeepsInv(s: Sys, maxsize: int)
    requires Enabled(s, Take) && Inv(s, maxsize)
    ensures Inv(Dequeued(s), maxsize)
  {
    hide Inv, Updated;
    if Dequeued(s).turn.InStt? {
      TakeStartsKeepsInv(s, Dequeued(s), maxsize);
    } else {
      TakeFailsKeepsInv(s, Dequeued(s), maxsize);
    }
  }

  /** Recovery takes every unfinished job: the bound was respected before the crash, so no break is reached. */
  lemma {:induction false} RecoveryIsComplete(jobs: seq<JobId>, queue: seq<JobId>, maxsize: int)
    requires |queue| + |jobs| <= Bound(maxsize)
    ensures Recovered(jobs, queue, |queue|, maxsize) == (queue + jobs, |queue| + |jobs|)
    decreases |jobs|
  {
    if jobs != [] {
      RecoveryIsComplete(jobs[1..], queue + [jobs[0]], maxsize);
      assert queue + [jobs[0]] + jobs[1..] == queue + jobs;
    } else {
      assert queue + jobs == queue;
    }
  }

  lemma {:induction false} RestartKeepsInv(s: Sys, jobs: seq<JobId>, maxsize: int)
    requires Enabled(s, Restart(jobs)) && Inv(s, maxsize)
    ensures Inv(Restarted(s, maxsize, jobs), maxsize) && Restarted(s, maxsize, jobs).queue == jobs
  {
    EnumerationSize(jobs, Unfinished(s.rows));
    RecoveryIsComplete(jobs, [], maxsize);
    assert [] + jobs == jobs;
    assert InFlight(Restarted(s, maxsize, jobs)) == jobs;
  }

  lemma {:induction false} StepKeepsInv(s: Sys, a: Action, maxsize: int)
    requires Enabled(s, a) && Inv(s, maxsize)
    ensures Inv(Step(s, a, maxsize), maxsize)
  {
    var t := Step(s, a, maxsize);
    match a
    case Post(_, _, _, _) => PostKeepsInv(s, a, maxsize);
    case Take => TakeKeepsInv(s, maxsize);
    case SttDone(out) =>
      match out {
        case Err(code) => HandKeepsInv(s, t, maxsize, Failed, None, None, Some(code));
        case Ok(text) =>
          if text == "" {
            HandKeepsInv(s, t, maxsize, Done, Some(""), None, None);
          } else {
            HandKeepsInv(s, t, maxsize, Working, Some(text), None, None);
          }
      }
    case AgentDone(out) =>
      match out {
        case Err(code) => HandKeepsInv(s, t, maxsize, Failed, None, None, Some(code));
        case Ok(reply) => HandKeepsInv(s, t, maxsize, Displaying, Some(s.turn.text), Some(reply), None);
      }
    case Finish => HandKeepsInv(s, t, maxsize, Done, Some(s.turn.text), Some(s.turn.reply), None);
    case Crash => EnumerationSize(InFlight(s), Unfinished(s.rows));
    case Restart(jobs) => RestartKeepsInv(s, jobs, maxsize);
  }

  // ---- runs ----

  ghost predicate IsRun(states: seq<Sys>, actions: seq<Action>, maxsize: int) {
    && |states| == |actions| + 1 && states[0] == INITIAL
    && forall i :: 0 <= i < |actions| ==> Enabled(states[i], actions[i]) && states[i + 1] == Step(states[i], actions[i], maxsize)
  }

  lemma {:induction false} RunKeepsInv(states: seq<Sys>, actions: seq<Action>, maxsize: int, k: nat)
    requires IsRun(states, actions, maxsize) && k < |states|
    ensures Inv(states[k], maxsize)
  {
    if k == 0 {
      InitialInv(maxsize);
    } else {
      RunKeepsInv(states, actions, maxsize, k - 1);
      StepKeepsInv(states[k - 1], actions[k - 1], maxsize);
    }
  }

  /**
   Durable state agrees with volatile state: in every run, while the process is up the rows with a
   recoverable status are exactly the jobs queued or in hand, each once, and `active` counts them.
   */
  lemma {:induction false} DurableAgreesWithVolatile(states: seq<Sys>, actions: seq<Action>, maxsize: int, k: nat)
    requires IsRun(states, actions, maxsize) && k < |states| && !states[k].turn.Down?
    ensures var s := states[k];
            && Enumerates(InFlight(s), Unfinished(s.rows))
            && s.active == |InFlight(s)| == |Unfinished(s.rows)| <= Bound(maxsize)
  {
    RunKeepsInv(states, actions, maxsize, k);
    EnumerationSize(InFlight(states[k]), Unfinished(states[k].rows));
  }

  /** So put_nowait never raises: a job that passes the `active` test finds room in the queue. */
  lemma {:induction false} QueueNeverFull(states: seq<Sys>, actions: seq<Action>, maxsize: int, k: nat)
    requires IsRun(states, actions, maxsize) && k < |states|
    ensures states[k].active < maxsize ==> !QueueFull(states[k].queue, maxsize)
  {
    RunKeepsInv(states, actions, maxsize, k);
  }

  /** ... and recovery never stops early, whatever order the table lists the jobs in. */
  lemma {:induction false} RecoveryNeverBreaks(states: seq<Sys>, actions: seq<Action>, maxsize: int, k: nat)
    requires IsRun(states, actions, maxsize) && k < |actions| && actions[k].Restart?
    ensures states[k + 1].queue == actions[k].jobs && states[k + 1].active == |actions[k].jobs|
  {
    RunKeepsInv(states, actions, maxsize, k);
    RestartKeepsInv(states[k], actions[k].jobs, maxsize);
    RunKeepsInv(states, actions, maxsize, k + 1);
    assert InFlight(states[k + 1]) == actions[k].jobs;
  }

  // ---- the life of a row ----

  function Rank(st: Status): nat {
    match st
    case Received => 0
    case Transcribing => 1
    case Working => 2
    case Displaying => 3
    case Done => 4
    case Failed => 4
  }

  ghost predicate RowKept(s: Sys, t: Sys, id: JobId, taken: bool)
    requires id in s.rows
  {
    && id in t.rows && t.rows[id].recording == s.rows[id].recording
    && (!Recoverable(s.rows[id].status) ==> t.rows[id] == s.rows[id])
    && (!taken ==> Rank(s.rows[id].status) <= Rank(t.rows[id].status))
  }

  lemma {:induction false} TakeRow(s: Sys, maxsize: int, id: JobId)
    requires Enabled(s, Take) && Inv(s, maxsize) && id in s.rows
    ensures RowKept(s, Dequeued(s), id, id == s.queue[0])
  {
    assert InFlight(s) == s.queue && s.queue[0] in InFlight(s);
    hide Shaped, TurnMatches, StartedOnce, Unique;
  }

  lemma {:induction false} PostRow(s: Sys, a: Action, maxsize: int, id: JobId)
    requires Enabled(s, a) && a.Post? && id in s.rows
    ensures RowKept(s, Step(s, a, maxsize), id, false)
  {
    var t := Step(s, a, maxsize);
    assert t.rows == s.rows || (id != a.newId && t.rows[id] == s.rows[id]);
  }

  /**
   A step leaves every row in place with its recording; a finished row entirely alone; and only a take goes back.
   */
  lemma {:induction false} RowStep(s: Sys, a: Action, maxsize: int, id: JobId)
    requires Enabled(s, a) && Inv(s, maxsize) && id in s.rows
    ensures RowKept(s, Step(s, a, maxsize), id, a.Take? && id == s.queue[0])
  {
    hide RowKept;
    if a.Take? {
      TakeRow(s, maxsize, id);
    } else if a.Post? {
      PostRow(s, a, maxsize, id);
    } else if a.Crash? || a.Restart? {
      SameRow(s, Step(s, a, maxsize), id);
    } else {
      HandRow(s, a, maxsize, id);
    }
  }

  lemma {:induction false} SameRow(s: Sys, t: Sys, id: JobId)
    requires id in s.rows && t.rows == s.rows
    ensures RowKept(s, t, id, false)
  {
  }

  lemma {:induction false} HandRow(s: Sys, a: Action, maxsize: int, id: JobId)
    requires Enabled(s, a) && TurnMatches(s) && id in s.rows && (a.SttDone? || a.AgentDone? || a.Finish?)
    ensures RowKept(s, Step(s, a, maxsize), id, false)
  {
  }

  /** Done and failed rows never change again, across crashes and restarts. */
  lemma {:induction false} FinishedRowsAreFrozen(states: seq<Sys>, actions: seq<Action>, maxsize: int, i: nat,
                                                 j: nat, id: JobId)
    requires IsRun(states, actions, maxsize) && i <= j < |states|
    requires id in states[i].rows && !Recoverable(states[i].rows[id].status)
    ensures id in states[j].rows && states[j].rows[id] == states[i].rows[id]
  {
    hide Step, Enabled, Inv;
    if i < j {
      FinishedRowsAreFrozen(states, actions, maxsize, i, j - 1, id);
      RunKeepsInv(states, actions, maxsize, j - 1);
      RowStep(states[j - 1], actions[j - 1], maxsize, id);
    }
  }

  /** Between two takes of the job (one attempt), its status only moves forward. */
  lemma {:induction false} StatusMovesForward(states: seq<Sys>, actions: seq<Action>, maxsize: int, i: nat,
                                              j: nat, id: JobId)
    requires IsRun(states, actions, maxsize) && i <= j < |states| && id in states[i].rows
    requires forall k :: i <= k < j && actions[k].Take? ==> states[k].queue[0] != id
    ensures id in states[j].rows && Rank(states[i].rows[id].status) <= Rank(states[j].rows[id].status)
  {
    hide Step, Enabled, Inv;
    if i < j {
      StatusMovesForward(states, actions, maxsize, i, j - 1, id);
      RunKeepsInv(states, actions, maxsize, j - 1);
      RowStep(states[j - 1], actions[j - 1], maxsize, id);
    }
  }

  /** A recording keeps its job: posting it again at any later time changes nothing and answers with that job. */
  lemma {:induction false} OneJobPerRecording(states: seq<Sys>, actions: seq<Action>, maxsize: int, i: nat, j: nat,
                                              recording: string, newId: JobId, path: Option<string>)
    requires IsRun(states, actions, maxsize) && i <= j < |states|
    requires ByRecording(states[i].rows, recording).Some?
    ensures var job := ByRecording(states[i].rows, recording);
            && ByRecording(states[j].rows, recording) == job
            && Posted(states[j], maxsize, newId, recording, true, path) == (states[j], Accepted(job.value))
  {
    var id := ByRecording(states[i].rows, recording).value;
    RunKeepsInv(states, actions, maxsize, j);
    RecordingStays(states, actions, maxsize, i, j, id);
    assert Holds(states[j].rows, recording, id);
  }

  lemma {:induction false} RecordingStays(states: seq<Sys>, actions: seq<Action>, maxsize: int, i: nat, j: nat,
                                          id: JobId)
    requires IsRun(states, actions, maxsize) && i <= j < |states| && id in states[i].rows
    ensures id in states[j].rows && states[j].rows[id].recording == states[i].rows[id].recording
  {
    hide Step, Enabled, Inv;
    if i < j {
      RecordingStays(states, actions, maxsize, i, j - 1, id);
      RunKeepsInv(states, actions, maxsize, j - 1);
      RowStep(states[j - 1], actions[j - 1], maxsize, id);
    }
  }

  /** STT starts at most once per job per process start: a job taken from the queue has not been started before. */
  lemma {:induction false} SttStartsOnce(states: seq<Sys>, actions: seq<Action>, maxsize: int, k: nat)
    requires IsRun(states, actions, maxsize) && k < |states|
    ensures NoDuplicates(states[k].started)
    ensures k < |actions| && actions[k].Take? ==> states[k].queue[0] !in states[k].started
  {
    RunKeepsInv(states, actions, maxsize, k);
    if k < |actions| && actions[k].Take? {
      assert states[k].queue[0] in states[k].queue;
    }
  }

  /** Every row of every reachable table has the shape its status dictates, and recordings are unique. */
  lemma {:induction false} RowsAreShaped(states: seq<Sys>, actions: seq<Action>, maxsize: int, k: nat, id: JobId)
    requires IsRun(states, actions, maxsize) && k < |states| && id in states[k].rows
    ensures Shaped(states[k].rows[id]) && Unique(states[k].rows)
  {
    RunKeepsInv(states, actions, maxsize, k);
  }
}
