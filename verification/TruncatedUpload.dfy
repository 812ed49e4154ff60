/**
 What an empty flash read in the middle of an upload does: a run in which a truncated file is submitted and the
 recording is removed from flash.
 */
module TruncatedUpload {
  import opened Basics
  import opened MuLaw
  import opened Gateway
  import opened Device
  import opened UploadProtocol

  /** Some run leads to the state. */
  ghost predicate Reached(w: World) {
    exists states, actions :: IsRun(states, actions) && states[|actions|] == w
  }

  lemma {:induction false} Extend(w: World, a: Action)
    requires Reached(w) && Enabled(w, a)
    ensures Reached(Step(w, a))
  {
    hide Step, Enabled;
    var states, actions :| IsRun(states, actions) && states[|actions|] == w;
    var more, further := states + [Step(w, a)], actions + [a];
    forall i | 0 <= i < |further|
      ensures Enabled(more[i], further[i]) && more[i + 1] == Step(more[i], further[i])
    {
      assert i < |actions| ==> further[i] == actions[i] && more[i] == states[i] && more[i + 1] == states[i + 1];
    }
    assert IsRun(more, further) && more[|further|] == Step(w, a);
  }

  const RECORDING: seq<byte> := [7, 9]
  const RELEASED := Input(true, false, 300, 300, true, true, [], [])
  const PRESSED := Input(true, true, 1, 1, true, true, [], [])
  const HELD := Input(true, true, 200, 200, true, true, RECORDING, [])

  const ARMED := Booted(None).(armed := true)
  const DOWN := ARMED.(btnDown := 1)
  const RECORDS := DOWN.(flash := Some(RECORDING), recordingOpen := true, i2sActive := true, btnHeld := true,
                         recordingStarted := 200, captured := 2)
  const RECORDED := RECORDS.(recordingOpen := false, i2sActive := false, btnHeld := false, btnDown := 0, upload := Start)

  lemma {:induction false} Presses()
    ensures ButtonPass(Booted(None), RELEASED) == ARMED && ButtonPass(ARMED, PRESSED) == DOWN
  {
  }

  lemma {:induction false} HoldsOn()
    ensures ButtonPass(DOWN, HELD) == RECORDS
  {
    assert [] + RECORDING == RECORDING;
  }

  lemma {:induction false} Releases()
    ensures ButtonPass(RECORDS, RELEASED) == RECORDED
  {
    assert RECORDING + [] == RECORDING;
  }

  /** Two bytes are recorded. */
  lemma {:induction false} Records()
    ensures Reached(InitialWorld(None).(dev := RECORDED, recordings := {RECORDING}))
  {
    var w := InitialWorld(None);
    var none: seq<Action> := [];
    assert IsRun([w], none) && [w][|none|] == w;
    Presses();
    HoldsOn();
    Releases();
    hide ButtonPass, IsRun;
    Extend(w, Button(RELEASED));
    Extend(w.(dev := ARMED), Button(PRESSED));
    Extend(w.(dev := DOWN), Button(HELD));
    Extend(w.(dev := RECORDS), Button(RELEASED));
  }

  /** Reads of one byte, and of nothing; every send succeeds. */
  const ONE := Net(true, true, 1, true)
  const NOTHING := Net(true, true, 0, true)

  const SENT := [Identify(true), MicStart(true), Audio([7]), MicStop]

  /** The world with the upload on the first connection, so many frames sent and none delivered. */
  function Uploading(d: Dev, sent: nat, endings: set<Ending>): World
    requires sent <= 4
  {
    World(d, Some(0), [Link(SENT[..sent], 0, NewSession(0))], Disk(map[], []), {RECORDING}, endings)
  }

  /** The upload sends the next of the frames. */
  lemma {:induction false} FrameGoes(d: Dev, net: Net, k: nat, e: Dev)
    requires k < 4 && Reached(Uploading(d, k, {})) && net.connected && net.sendOk
    requires UploadPass(d, net) == (e, Some(SENT[k]))
    ensures Reached(Uploading(e, k + 1, if k == 3 then {EndingOn(d, 0, SENT[..3])} else {}))
  {
    hide UploadPass, EndingOn;
    var w := Uploading(d, k, {});
    assert SENT[..k] + [SENT[k]] == SENT[..k + 1];
    assert SENT[k] == MicStop <==> k == 3;
    Extend(w, Upload(net, false));
  }

  const FIRST := RECORDED.(upload := Data, uploadAt := Some(0))
  const HALF := FIRST.(uploadAt := Some(1))
  const STOPPED := HALF.(upload := Stop)
  const GONE := STOPPED.(upload := Idle, uploadAt := None, flash := None)

  lemma {:induction false} Passes()
    ensures UploadPass(RECORDED, ONE) == (FIRST, Some(SENT[1]))
    ensures UploadPass(FIRST, ONE) == (HALF, Some(SENT[2]))
    ensures UploadPass(HALF, NOTHING) == (STOPPED, None) && EmptyRead(HALF, NOTHING)
    ensures UploadPass(STOPPED, ONE) == (GONE, Some(SENT[3]))
    ensures EndingOn(STOPPED, 0, SENT[..3]).flash == RECORDING
  {
    assert ReadAt(RECORDING, 0, 1) == [7];
  }

  lemma {:induction false} Connects()
    ensures Reached(Uploading(RECORDED, 1, {}))
  {
    Records();
    assert SENT[..1] == [Identify(true)];
    Extend(InitialWorld(None).(dev := RECORDED, recordings := {RECORDING}), Connect(Some(true)));
  }

  const ENDING := EndingOn(STOPPED, 0, SENT[..3])

  /** One byte is read and sent, the next read is empty, and mic_stop is accepted: the recording is gone. */
  lemma {:induction false} Uploads()
    ensures Reached(Uploading(GONE, 4, {ENDING}))
  {
    hide UploadPass;
    Connects();
    Passes();
    FrameGoes(RECORDED, ONE, 1, FIRST);
    FrameGoes(FIRST, ONE, 2, HALF);
    Extend(Uploading(HALF, 3, {}), Upload(NOTHING, false));
    FrameGoes(STOPPED, ONE, 3, GONE);
  }

  /** The gateway's side: the session and the files after so many of the frames. */
  function Delivering(k: nat, s: Session, disk: Disk): World
    requires k <= 4
  {
    World(GONE, Some(0), [Link(SENT, k, s)], disk, {RECORDING}, {ENDING})
  }

  lemma {:induction false} FrameArrives(k: nat, s: Session, disk: Disk, t: Session, after: Disk)
    requires k < 4 && Reached(Delivering(k, s, disk)) && Handle(s, disk, SENT[k]) == (t, after)
    ensures Reached(Delivering(k + 1, t, after))
  {
    hide Handle, ENDING;
    Extend(Delivering(k, s, disk), Deliver(0));
  }

  const FILE := FileId(0, 1)
  const IDENTIFIED := NewSession(0).(canary := true)
  const OPEN := IDENTIFIED.(open := true, file := Some(FILE), mulaw := true, number := 1)

  lemma {:induction false} Handled()
    ensures Handle(NewSession(0), Disk(map[], []), SENT[0]) == (IDENTIFIED, Disk(map[], []))
    ensures Handle(IDENTIFIED, Disk(map[], []), SENT[1]) == (OPEN, Disk(map[FILE := []], []))
    ensures Handle(OPEN, Disk(map[FILE := []], []), SENT[2]) == (OPEN, Disk(map[FILE := PcmBytes([7])], []))
    ensures Handle(OPEN, Disk(map[FILE := PcmBytes([7])], []), SENT[3])
            == (OPEN.(open := false), Disk(map[FILE := PcmBytes([7])], [FILE]))
  {
    hide PcmBytes;
    var pcm := PcmBytes([7]);
    assert [] + pcm == pcm && |pcm| == 2;
    assert SENT[2] == Audio([7]) && SENT[3] == MicStop;
    assert map[FILE := []][FILE := pcm] == map[FILE := pcm];
    assert Content(Disk(map[FILE := pcm], []), FILE) == pcm;
    assert [] + [FILE] == [FILE];
  }

  /**
   A reachable world in which the file handed to the orchestrator decodes no recording there ever was, and the
   recording is no longer in flash.
   */
  lemma {:induction false} TruncatedFileIsSubmitted() returns (states: seq<World>, actions: seq<Action>)
    ensures IsRun(states, actions)
    ensures var w := states[|actions|];
            && w.recordings == {RECORDING} && w.dev.flash == None && w.disk.submitted == [FILE]
            && forall r :: r in w.recordings ==> Content(w.disk, FILE) != PcmBytes(r)
  {
    hide Handle, PcmBytes;
    Uploads();
    Handled();
    assert SENT[..4] == SENT;
    FrameArrives(0, NewSession(0), Disk(map[], []), IDENTIFIED, Disk(map[], []));
    FrameArrives(1, IDENTIFIED, Disk(map[], []), OPEN, Disk(map[FILE := []], []));
    FrameArrives(2, OPEN, Disk(map[FILE := []], []), OPEN, Disk(map[FILE := PcmBytes([7])], []));
    FrameArrives(3, OPEN, Disk(map[FILE := PcmBytes([7])], []), OPEN.(open := false),
                 Disk(map[FILE := PcmBytes([7])], [FILE]));
    var last := Delivering(4, OPEN.(open := false), Disk(map[FILE := PcmBytes([7])], [FILE]));
    states, actions :| IsRun(states, actions) && states[|actions|] == last;
    assert |PcmBytes([7])| == 2 && |PcmBytes(RECORDING)| == 4;
  }
}
