/**
 Where what the job table says comes from: transcripts, replies, errors and paths are those of the job's own
 attempt or POST, jobs are admitted exactly while there is room, and they are taken in the order they came.
 */
module JobHistory {
  import opened Basics
  import opened Jobs
  import opened JobRuns

  /** The job was not taken again in steps i to k. */
  ghost predicate SameAttempt(states: seq<Sys>, actions: seq<Action>, i: nat, k: nat, id: JobId)
    requires k <= |actions| < |states|
  {
    forall x :: i <= x < k && actions[x].Take? && states[x].queue != [] ==> states[x].queue[0] != id
  }

  predicate HasTranscript(s: Sys, id: JobId, text: string) {
    || (id in s.rows && s.rows[id].transcript == Some(text))
    || (s.turn.InAgent? && s.turn.job == id && s.turn.text == text)
    || (s.turn.Showing? && s.turn.job == id && s.turn.text == text)
  }

  predicate HasReply(s: Sys, id: JobId, reply: string) {
    || (id in s.rows && s.rows[id].reply == Some(reply))
    || (s.turn.Showing? && s.turn.job == id && s.turn.reply == reply)
  }

  // ---- one step ----

  predicate Takes(s: Sys, a: Action, id: JobId) {
    a.Take? && s.queue != [] && s.queue[0] == id
  }

  lemma {:induction false} TranscriptStep(s: Sys, a: Action, maxsize: int, id: JobId, text: string)
    requires Enabled(s, a) && HasTranscript(Step(s, a, maxsize), id, text)
    ensures !Takes(s, a, id)
    ensures HasTranscript(s, id, text) || (a == SttDone(Ok(text)) && s.turn == InStt(id))
  {
  }

  lemma {:induction false} ReplyStep(s: Sys, a: Action, maxsize: int, id: JobId, reply: string)
    requires Enabled(s, a) && HasReply(Step(s, a, maxsize), id, reply)
    ensures !Takes(s, a, id)
    ensures HasReply(s, id, reply) || (a == AgentDone(Ok(reply)) && s.turn.InAgent? && s.turn.job == id)
  {
  }

  /** What can put an error into the row of a job. */
  ghost predicate Fails(s: Sys, a: Action, maxsize: int, id: JobId, error: string) {
    match a
    case SttDone(out) => s.turn == InStt(id) && out == Err(error)
    case AgentDone(out) => s.turn.InAgent? && s.turn.job == id && out == Err(error)
    case Take => Takes(s, a, id) && error == "io_error" && (id in s.rows ==> s.rows[id].audioPath == "")
    case Post(newId, _, _, path) => newId == id && error == "queue_full" && path.Some? && s.active >= maxsize
    case _ => false
  }

  lemma {:induction false} ErrorStep(s: Sys, a: Action, maxsize: int, id: JobId, error: string)
    requires Enabled(s, a) && id in Step(s, a, maxsize).rows && Step(s, a, maxsize).rows[id].error == Some(error)
    requires QueueFull(s.queue, maxsize) ==> s.active >= maxsize
    ensures (id in s.rows && s.rows[id].error == Some(error) && !Takes(s, a, id)) || Fails(s, a, maxsize, id, error)
  {
  }

  lemma {:induction false} PathStep(s: Sys, a: Action, maxsize: int, id: JobId)
    requires Enabled(s, a) && id in Step(s, a, maxsize).rows
    ensures var row := Step(s, a, maxsize).rows[id];
            if id in s.rows then row.audioPath == s.rows[id].audioPath && row.recording == s.rows[id].recording
            else a == Post(id, row.recording, true, Some(row.audioPath)) && ByRecording(s.rows, row.recording).None?
  {
  }

  // ---- runs ----

  /** A transcript in the row or in hand is what STT returned for this job, in its last attempt. */
  lemma {:induction false} TranscriptCameFrom(states: seq<Sys>, actions: seq<Action>, maxsize: int, k: nat, id: JobId,
                                              text: string)
      returns (i: nat)
    requires IsRun(states, actions, maxsize) && k < |states| && HasTranscript(states[k], id, text)
    ensures i < k && actions[i] == SttDone(Ok(text)) && states[i].turn == InStt(id)
    ensures SameAttempt(states, actions, i, k, id)
  {
    hide Step, Enabled;
    TranscriptStep(states[k - 1], actions[k - 1], maxsize, id, text);
    if HasTranscript(states[k - 1], id, text) {
      i := TranscriptCameFrom(states, actions, maxsize, k - 1, id, text);
    } else {
      i := k - 1;
    }
  }

  /** A reply in the row or on display is what the agent returned for this job, in its last attempt. */
  lemma {:induction false} ReplyCameFrom(states: seq<Sys>, actions: seq<Action>, maxsize: int, k: nat, id: JobId,
                                         reply: string)
      returns (i: nat)
    requires IsRun(states, actions, maxsize) && k < |states| && HasReply(states[k], id, reply)
    ensures i < k && actions[i] == AgentDone(Ok(reply)) && states[i].turn.InAgent? && states[i].turn.job == id
    ensures SameAttempt(states, actions, i, k, id)
  {
    hide Step, Enabled;
    ReplyStep(states[k - 1], actions[k - 1], maxsize, id, reply);
    if HasReply(states[k - 1], id, reply) {
      i := ReplyCameFrom(states, actions, maxsize, k - 1, id, reply);
    } else {
      i := k - 1;
    }
  }

  /**
   An error in a row is what STT or the agent failed with for this job, or io_error for a job taken without
   audio, or queue_full for one posted when as many jobs were in flight as may be.
   */
  lemma {:induction false} ErrorCameFrom(states: seq<Sys>, actions: seq<Action>, maxsize: int, k: nat, id: JobId,
                                         error: string)
      returns (i: nat)
    requires IsRun(states, actions, maxsize) && k < |states|
    requires id in states[k].rows && states[k].rows[id].error == Some(error)
    ensures i < k && Fails(states[i], actions[i], maxsize, id, error)
  {
    hide Step, Enabled;
    QueueNeverFull(states, actions, maxsize, k - 1);
    ErrorStep(states[k - 1], actions[k - 1], maxsize, id, error);
    if id in states[k - 1].rows && states[k - 1].rows[id].error == Some(error)
       && !Fails(states[k - 1], actions[k - 1], maxsize, id, error) {
      i := ErrorCameFrom(states, actions, maxsize, k - 1, id, error);
    } else {
      i := k - 1;
    }
  }

  /** A row's recording and audio path are those of the POST that created it, the first for its recording. */
  lemma {:induction false} PathCameFrom(states: seq<Sys>, actions: seq<Action>, maxsize: int, k: nat, id: JobId)
      returns (i: nat)
    requires IsRun(states, actions, maxsize) && k < |states| && id in states[k].rows
    ensures i < k && ByRecording(states[i].rows, states[k].rows[id].recording).None?
    ensures actions[i] == Post(id, states[k].rows[id].recording, true, Some(states[k].rows[id].audioPath))
  {
    hide Step, Enabled;
    PathStep(states[k - 1], actions[k - 1], maxsize, id);
    if id in states[k - 1].rows {
      i := PathCameFrom(states, actions, maxsize, k - 1, id);
    } else {
      i := k - 1;
    }
  }

  // ---- admission and order ----

  /**
   What the route answers in any reachable state: it refuses a bad codec first, answers a known recording with its
   job, refuses a bad path, and takes a new job exactly while fewer jobs are unfinished than the bound.
   */
  lemma {:induction false} AdmittedIff(states: seq<Sys>, actions: seq<Action>, maxsize: int, k: nat, newId: JobId,
                                       recording: string, codecOk: bool, path: Option<string>)
    requires IsRun(states, actions, maxsize) && k < |states| && !states[k].turn.Down? && newId !in states[k].rows
    ensures var (t, answer) := Posted(states[k], maxsize, newId, recording, codecOk, path);
            var known := ByRecording(states[k].rows, recording);
            && (answer == Unprocessable <==> !codecOk)
            && (answer == BadPath <==> codecOk && known.None? && path.None?)
            && (answer == Busy <==> codecOk && known.None? && path.Some? && |Unfinished(states[k].rows)| >= maxsize)
            && (answer.Accepted? ==> answer.job == if known.Some? then known.value else newId)
            && (answer == Accepted(newId) && known.None? ==>
                  newId in Unfinished(t.rows) && t.queue == states[k].queue + [newId])
  {
    RunKeepsInv(states, actions, maxsize, k);
    EnumerationSize(InFlight(states[k]), Unfinished(states[k].rows));
    QueueNeverFull(states, actions, maxsize, k);
    if ByRecording(states[k].rows, recording).Some? {
      assert Holds(states[k].rows, recording, ByRecording(states[k].rows, recording).value);
    }
    hide Unique, Shaped, TurnMatches, StartedOnce, Enumerates;
  }

  /**
   What taking a job comes to, in any reachable state: it is handed to STT, for the first time in this process,
   exactly when its row names an audio file; if not it is failed and the worker goes on to the next.
   */
  lemma {:induction false} TakenIff(states: seq<Sys>, actions: seq<Action>, maxsize: int, k: nat)
    requires IsRun(states, actions, maxsize) && k < |actions| && actions[k].Take?
    ensures states[k].queue != [] && states[k].queue[0] in states[k].rows
    ensures var job, t := states[k].queue[0], states[k + 1];
            && t.queue == states[k].queue[1..] && job in t.rows
            && t.turn == (if states[k].rows[job].audioPath != "" then InStt(job) else Waiting)
            && t.rows[job].status == (if states[k].rows[job].audioPath != "" then Transcribing else Failed)
            && t.started == states[k].started + if states[k].rows[job].audioPath != "" then [job] else []
  {
    RunKeepsInv(states, actions, maxsize, k);
    var s := states[k];
    assert InFlight(s)[0] == s.queue[0];
    assert s.queue[0] in Unfinished(s.rows);
    hide Unique, Shaped, StartedOnce;
  }

  /** In the queue, a stands before b. */
  ghost predicate Before(q: seq<JobId>, a: JobId, b: JobId) {
    exists i, j :: 0 <= i < j < |q| && q[i] == a && q[j] == b
  }

  lemma {:induction false} OrderStep(s: Sys, act: Action, maxsize: int, a: JobId, b: JobId)
    requires Enabled(s, act) && !act.Crash? && !act.Restart? && Before(s.queue, a, b) && !Takes(s, act, a)
    ensures Before(Step(s, act, maxsize).queue, a, b)
  {
    var t := Step(s, act, maxsize);
    var i, j :| 0 <= i < j < |s.queue| && s.queue[i] == a && s.queue[j] == b;
    if act.Take? {
      assert t.queue[i - 1] == a && t.queue[j - 1] == b;
    } else {
      QueueGrows(s, act, maxsize);
      assert t.queue[i] == a && t.queue[j] == b;
    }
  }

  lemma {:induction false} QueueGrows(s: Sys, act: Action, maxsize: int)
    requires Enabled(s, act) && !act.Crash? && !act.Restart? && !act.Take?
    ensures s.queue <= Step(s, act, maxsize).queue
  {
  }

  /** First in, first out: within one process, a job is not taken before another that stood before it in the queue. */
  lemma {:induction false} FirstInFirstOut(states: seq<Sys>, actions: seq<Action>, maxsize: int, i: nat, k: nat,
                                           a: JobId, b: JobId)
      returns (j: nat)
    requires IsRun(states, actions, maxsize) && i <= k < |actions| && Before(states[i].queue, a, b)
    requires forall x :: i <= x < k ==> !actions[x].Crash? && !actions[x].Restart?
    requires Takes(states[k], actions[k], b)
    ensures i <= j < k && Takes(states[j], actions[j], a)
  {
    RunKeepsInv(states, actions, maxsize, k);
    QueueHasNoDuplicates(states[k], maxsize);
    if Before(states[k].queue, a, b) {
      HeadIsFirst(states[k].queue, a, b);
    }
    j := TakenBetween(states, actions, maxsize, i, k, a, b);
  }

  lemma {:induction false} QueueHasNoDuplicates(s: Sys, maxsize: int)
    requires Inv(s, maxsize) && !s.turn.Down?
    ensures NoDuplicates(s.queue)
  {
    var q, n := InFlight(s), |s.turn.Current()|;
    forall i, j | 0 <= i < j < |s.queue|
      ensures s.queue[i] != s.queue[j]
    {
      assert q[n + i] == s.queue[i] && q[n + j] == s.queue[j];
    }
  }

  lemma {:induction false} HeadIsFirst(q: seq<JobId>, a: JobId, b: JobId)
    requires NoDuplicates(q) && Before(q, a, b)
    ensures q[0] != b
  {
  }

  lemma {:induction false} TakenBetween(states: seq<Sys>, actions: seq<Action>, maxsize: int, i: nat, k: nat,
                                        a: JobId, b: JobId)
      returns (j: nat)
    requires IsRun(states, actions, maxsize) && i <= k < |states| && Before(states[i].queue, a, b)
    requires forall x :: i <= x < k ==> !actions[x].Crash? && !actions[x].Restart?
    requires !Before(states[k].queue, a, b)
    ensures i <= j < k && Takes(states[j], actions[j], a)
  {
    hide Step, Enabled, Before, Takes;
    if Takes(states[k - 1], actions[k - 1], a) {
      j := k - 1;
    } else {
      if Before(states[k - 1].queue, a, b) {
        OrderStep(states[k - 1], actions[k - 1], maxsize, a, b);
      }
      j := TakenBetween(states, actions, maxsize, i, k - 1, a, b);
    }
  }

  /** Recovery over any bound: the first jobs of the list, as many as fit. */
  lemma {:induction false} RecoveredFits(jobs: seq<JobId>, queue: seq<JobId>, maxsize: int)
    requires |queue| <= Bound(maxsize)
    ensures var n := Min(|jobs|, Bound(maxsize) - |queue|);
            Recovered(jobs, queue, |queue|, maxsize) == (queue + jobs[..n], |queue| + n)
    decreases |jobs|
  {
    if jobs != [] && |queue| < maxsize {
      RecoveredFits(jobs[1..], queue + [jobs[0]], maxsize);
      var n := Min(|jobs| - 1, Bound(maxsize) - |queue| - 1);
      assert queue + [jobs[0]] + jobs[1..][..n] == queue + jobs[..n + 1];
    } else {
      assert queue + jobs[..0] == queue;
    }
  }
}
