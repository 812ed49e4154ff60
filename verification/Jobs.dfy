/**
 The job orchestrator: a durable job table with a unique recording key, a bounded in-flight queue, and a
 worker whose every turn runs from one suspension point to the next.
 */
module Jobs {
  import opened Basics

  type JobId = string

  datatype Status = Received | Transcribing | Working | Displaying | Done | Failed

  datatype Row = Row(recording: string, audioPath: string, status: Status,
                     transcript: Option<string>, reply: Option<string>, error: Option<string>)

  type Table = map<JobId, Row>

  predicate Recoverable(st: Status) {
    st != Done && st != Failed
  }

  ghost predicate Unique(rows: Table) {
    forall i, j {:trigger rows[i], rows[j]} :: i in rows && j in rows && rows[i].recording == rows[j].recording ==> i == j
  }

  function Unfinished(rows: Table): set<JobId> {
    set id | id in rows && Recoverable(rows[id].status)
  }

  ghost predicate Holds(rows: Table, recording: string, id: JobId) {
    id in rows && rows[id].recording == recording
  }

  /** SELECT ... WHERE recording_id=? */
  ghost function ByRecording(rows: Table, recording: string): (r: Option<JobId>)
    ensures r.Some? ==> Holds(rows, recording, r.value)
    ensures r.None? ==> forall id :: !Holds(rows, recording, id)
  {
    if exists id :: Holds(rows, recording, id) then
      var id :| Holds(rows, recording, id);
      Some(id)
    else None
  }

  /** UPDATE jobs SET status, transcript, reply, error_code WHERE job_id=? */
  function Updated(rows: Table, id: JobId, st: Status, transcript: Option<string>, reply: Option<string>,
                   error: Option<string>): Table
  {
    if id in rows then
      rows[id := rows[id].(status := st, transcript := transcript, reply := reply, error := error)]
    else rows
  }

  function Inserted(rows: Table, id: JobId, recording: string, audioPath: string): Table {
    rows[id := Row(recording, audioPath, Received, None, None, None)]
  }

  ghost predicate NoDuplicates<T(!new)>(q: seq<T>) {
    forall i, j :: 0 <= i < j < |q| ==> q[i] != q[j]
  }

  ghost predicate Enumerates(q: seq<JobId>, s: set<JobId>) {
    NoDuplicates(q) && forall id :: id in q <==> id in s
  }

  class JobStore {
    var rows: Table

    ghost predicate Valid()
      reads this
    {
      Unique(rows)
    }

    constructor ()
      ensures Valid() && rows == map[]
    {
      rows := map[];
    }

    method GetByRecording(recording: string) returns (job: Option<JobId>)
      requires Valid()
      ensures job == ByRecording(rows, recording)
    {
      var todo := rows.Keys;
      job := None;
      while todo != {} && job.None?
        invariant todo <= rows.Keys
        invariant job.Some? ==> Holds(rows, recording, job.value)
        invariant job.None? ==> forall id :: Holds(rows, recording, id) ==> id in todo
        decreases |todo|
      {
        var id :| id in todo;
        if rows[id].recording == recording {
          job := Some(id);
        }
        todo := todo - {id};
      }
      if job.Some? {
        assert Holds(rows, recording, job.value);
      }
    }

    /** INSERT; a key that exists already returns the row of that recording instead. */
    method CreateJob(newId: JobId, recording: string, audioPath: string) returns (job: Option<JobId>)
      requires Valid()
      modifies this
      ensures Valid()
      ensures var taken := newId in old(rows) || ByRecording(old(rows), recording).Some?;
              && rows == (if taken then old(rows) else Inserted(old(rows), newId, recording, audioPath))
              && job == (if taken then ByRecording(old(rows), recording) else Some(newId))
    {
      var existing := GetByRecording(recording);
      if newId in rows || existing.Some? {
        return existing;
      }
      assert forall id :: id in rows ==> !Holds(rows, recording, id);
      rows := Inserted(rows, newId, recording, audioPath);
      job := Some(newId);
    }

    method SetStatus(id: JobId, st: Status, transcript: Option<string>, reply: Option<string>, error: Option<string>)
      requires Valid()
      modifies this
      ensures Valid() && rows == Updated(old(rows), id, st, transcript, reply, error)
    {
      rows := Updated(rows, id, st, transcript, reply, error);
    }

    method GetAudioPath(id: JobId) returns (path: Option<string>)
      ensures path == if id in rows then Some(rows[id].audioPath) else None
    {
      path := if id in rows then Some(rows[id].audioPath) else None;
    }

    /** The unfinished jobs, in no particular order. */
    method ListRecoverable() returns (jobs: seq<JobId>)
      ensures Enumerates(jobs, Unfinished(rows))
    {
      var todo := Unfinished(rows);
      jobs := [];
      while todo != {}
        invariant todo <= Unfinished(rows)
        invariant NoDuplicates(jobs) && forall id :: id in jobs <==> id in Unfinished(rows) - todo
        decreases |todo|
      {
        var id :| id in todo;
        assert forall i :: 0 <= i < |jobs| ==> jobs[i] in jobs;
        jobs := jobs + [id];
        todo := todo - {id};
      }
    }
  }

  // ---- the worker ----

  /**
   Where the worker task is suspended: nowhere, in queue.get, in the provider calls, or between its last commits.
   */
  datatype Turn =
    | Down
    | Waiting
    | InStt(job: JobId)
    | InAgent(job: JobId, text: string)
    | Showing(job: JobId, text: string, reply: string)
  {
    function Current(): seq<JobId> {
      if Down? || Waiting? then [] else [job]
    }
  }

  datatype Outcome = Ok(text: string) | Err(code: string)

  datatype Response = Accepted(job: JobId) | Unprocessable | BadPath | Busy

  /** What the process and the database hold; `started` lists the jobs handed to STT since the process started. */
  datatype Sys = Sys(rows: Table, queue: seq<JobId>, active: int, turn: Turn, started: seq<JobId>)

  /** queue.put_nowait raises QueueFull; a bound of zero or less means no bound. */
  predicate QueueFull(queue: seq<JobId>, maxsize: int) {
    maxsize > 0 && |queue| >= maxsize
  }

  function Submitted(s: Sys, maxsize: int, job: JobId): (Sys, bool) {
    if s.active >= maxsize || QueueFull(s.queue, maxsize) then (s, false)
    else (s.(active := s.active + 1, queue := s.queue + [job]), true)
  }

  function Recovered(jobs: seq<JobId>, queue: seq<JobId>, active: int, maxsize: int): (seq<JobId>, int)
    decreases |jobs|
  {
    if jobs == [] || active >= maxsize || QueueFull(queue, maxsize) then (queue, active)
    else Recovered(jobs[1..], queue + [jobs[0]], active + 1, maxsize)
  }

  /** The POST route: it never suspends. */
  ghost function Posted(s: Sys, maxsize: int, newId: JobId, recording: string, codecOk: bool, path: Option<string>)
      : (Sys, Response)
  {
    if !codecOk then (s, Unprocessable)
    else
      var existing := ByRecording(s.rows, recording);
      if existing.Some? then (s, Accepted(existing.value))
      else if path.None? then (s, BadPath)
      else
        var (t, ok) := Submitted(s.(rows := Inserted(s.rows, newId, recording, path.value)), maxsize, newId);
        if ok then (t, Accepted(newId))
        else (t.(rows := Updated(t.rows, newId, Failed, None, None, Some("queue_full"))), Busy)
  }

  function Dequeued(s: Sys): Sys
    requires s.queue != []
  {
    var job, rest := s.queue[0], s.queue[1..];
    var rows := Updated(s.rows, job, Transcribing, None, None, None);
    if job in rows && rows[job].audioPath != "" then
      s.(rows := rows, queue := rest, turn := InStt(job), started := s.started + [job])
    else
      s.(rows := Updated(rows, job, Failed, None, None, Some("io_error")), queue := rest, active := s.active - 1)
  }

  function SttReturned(s: Sys, out: Outcome): Sys
    requires s.turn.InStt?
  {
    var job := s.turn.job;
    match out
    case Err(code) =>
      s.(rows := Updated(s.rows, job, Failed, None, None, Some(code)), turn := Waiting, active := s.active - 1)
    case Ok(text) =>
      if text == "" then
        s.(rows := Updated(s.rows, job, Done, Some(""), None, None), turn := Waiting, active := s.active - 1)
      else
        s.(rows := Updated(s.rows, job, Working, Some(text), None, None), turn := InAgent(job, text))
  }

  function AgentReturned(s: Sys, out: Outcome): Sys
    requires s.turn.InAgent?
  {
    var job, text := s.turn.job, s.turn.text;
    match out
    case Err(code) =>
      s.(rows := Updated(s.rows, job, Failed, None, None, Some(code)), turn := Waiting, active := s.active - 1)
    case Ok(reply) =>
      s.(rows := Updated(s.rows, job, Displaying, Some(text), Some(reply), None), turn := Showing(job, text, reply))
  }

  function Shown(s: Sys): Sys
    requires s.turn.Showing?
  {
    s.(rows := Updated(s.rows, s.turn.job, Done, Some(s.turn.text), Some(s.turn.reply), None),
       turn := Waiting, active := s.active - 1)
  }

  /** A crash or a shutdown: only the table survives. */
  function Crashed(s: Sys): Sys {
    Sys(s.rows, [], 0, Down, [])
  }

  function Restarted(s: Sys, maxsize: int, jobs: seq<JobId>): Sys {
    var (queue, active) := Recovered(jobs, [], 0, maxsize);
    Sys(s.rows, queue, active, Waiting, [])
  }

  /** The worker and the route as the service runs them. */
  class Service {
    const store: JobStore
    const maxsize: int
    var queue: seq<JobId>
    var active: int
    var turn: Turn
    ghost var started: seq<JobId>

    ghost function View(): Sys
      reads this, store
    {
      Sys(store.rows, queue, active, turn, started)
    }

    /** A fresh process over an existing database. */
    constructor (store: JobStore, maxsize: int)
      ensures this.store == store && this.maxsize == maxsize && View() == Crashed(View())
    {
      this.store, this.maxsize := store, maxsize;
      queue, active, turn, started := [], 0, Down, [];
    }

    method Submit(job: JobId) returns (ok: bool)
      modifies this`active, this`queue
      ensures (View(), ok) == Submitted(old(View()), maxsize, job)
    {
      if active >= maxsize {
        return false;
      }
      active := active + 1;
      if QueueFull(queue, maxsize) {
        active := active - 1;
        return false;
      }
      queue := queue + [job];
      return true;
    }

    /** The start of the worker task: re-queue what the database says is unfinished. */
    method Recover() returns (ghost jobs: seq<JobId>)
      requires View() == Crashed(View())
      modifies this
      ensures Enumerates(jobs, Unfinished(store.rows)) && View() == Restarted(old(View()), maxsize, jobs)
    {
      var list := store.ListRecoverable();
      jobs := list;
      ghost var target := Recovered(list, [], 0, maxsize);
      var i := 0;
      while i < |list|
        invariant 0 <= i <= |list| && turn == Down && started == []
        invariant Recovered(list[i..], queue, active, maxsize) == target
      {
        if active >= maxsize {
          break;
        }
        active := active + 1;
        if QueueFull(queue, maxsize) {
          active := active - 1;
          break;
        }
        assert list[i..][1..] == list[i + 1..];
        queue := queue + [list[i]];
        i := i + 1;
      }
      turn := Waiting;
    }

    method Post(newId: JobId, recording: string, codecOk: bool, path: Option<string>) returns (r: Response)
      requires store.Valid() && newId !in store.rows
      modifies this, store
      ensures store.Valid() && (View(), r) == Posted(old(View()), maxsize, newId, recording, codecOk, path)
    {
      if !codecOk {
        return Unprocessable;
      }
      var existing := store.GetByRecording(recording);
      if existing.Some? {
        return Accepted(existing.value);
      }
      if path.None? {
        return BadPath;
      }
      var job := store.CreateJob(newId, recording, path.value);
      var ok := Submit(job.value);
      if !ok {
        store.SetStatus(job.value, Failed, None, None, Some("queue_full"));
        return Busy;
      }
      return Accepted(job.value);
    }

    /** From queue.get to the STT call, or straight to the end when the audio is missing. */
    method TakeJob()
      requires store.Valid() && turn == Waiting && queue != []
      modifies this, store
      ensures store.Valid() && View() == Dequeued(old(View()))
    {
      var job := queue[0];
      queue := queue[1..];
      store.SetStatus(job, Transcribing, None, None, None);
      var path := store.GetAudioPath(job);
      if path.None? || path.value == "" {
        store.SetStatus(job, Failed, None, None, Some("io_error"));
        active := active - 1;
      } else {
        turn := InStt(job);
        started := started + [job];
      }
    }

    method OnTranscript(out: Outcome)
      requires store.Valid() && turn.InStt?
      modifies this, store
      ensures store.Valid() && View() == SttReturned(old(View()), out)
    {
      var job := turn.job;
      match out
      case Err(code) =>
        store.SetStatus(job, Failed, None, None, Some(code));
        turn, active := Waiting, active - 1;
      case Ok(text) =>
        if text == "" {
          store.SetStatus(job, Done, Some(""), None, None);
          turn, active := Waiting, active - 1;
        } else {
          store.SetStatus(job, Working, Some(text), None, None);
          turn := InAgent(job, text);
        }
    }

    method OnReply(out: Outcome)
      requires store.Valid() && turn.InAgent?
      modifies this, store
      ensures store.Valid() && View() == AgentReturned(old(View()), out)
    {
      var job, text := turn.job, turn.text;
      match out
      case Err(code) =>
        store.SetStatus(job, Failed, None, None, Some(code));
        turn, active := Waiting, active - 1;
      case Ok(reply) =>
        store.SetStatus(job, Displaying, Some(text), Some(reply), None);
        turn := Showing(job, text, reply);
    }

    method FinishShowing()
      requires store.Valid() && turn.Showing?
      modifies this, store
      ensures store.Valid() && View() == Shown(old(View()))
    {
      store.SetStatus(turn.job, Done, Some(turn.text), Some(turn.reply), None);
      turn, active := Waiting, active - 1;
    }
  }
}
