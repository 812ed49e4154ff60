/**
 The device's main loop: the upload machine, the button with its recording, the 15 s limit, Wi-Fi loss,
 OTA and microphone test, over one flash file.
 */
module Device {
  import opened Basics
  import opened Gateway

  const CHUNK := 1024

  datatype Upload = Idle | Start | Data | Stop

  /**
   The loop's state. `flash` is the recording file, `uploadAt` the read position of the open upload file,
   `captured` the byte counter of the recording.
   */
  datatype Dev = Dev(upload: Upload, uploadAt: Option<nat>, flash: Option<seq<byte>>,
                     recordingOpen: bool, captured: nat, btnHeld: bool, btnDown: uint32, armed: bool,
                     timedOut: bool, recordingStarted: uint32, i2sActive: bool, micTest: bool)

  /** The state after a boot: flash survives, nothing else does. */
  function Booted(flash: Option<seq<byte>>): Dev {
    Dev(Idle, None, flash, false, 0, false, 0, false, false, 0, false, false)
  }

  // ---- processAudioUpload ----

  /** What the pass meets: the socket, the file system, and whether the send call returns true. */
  datatype Net = Net(connected: bool, fileOpens: bool, readSize: nat, sendOk: bool)

  function Restarted(d: Dev): Dev {
    d.(upload := Start, uploadAt := None)
  }

  /** The bytes a read returns: up to a chunk of what is left, and perhaps none of it. */
  function ReadAt(flash: seq<byte>, at: nat, readSize: nat): seq<byte> {
    if at >= |flash| then [] else flash[at..at + Min(readSize, Min(CHUNK, |flash| - at))]
  }

  function FlashBytes(d: Dev): seq<byte> {
    if d.flash.Some? then d.flash.value else []
  }

  /** The upload's read returns nothing although bytes are left. */
  predicate EmptyRead(d: Dev, net: Net) {
    d.upload == Data && net.connected && d.uploadAt.Some? && d.uploadAt.value < |FlashBytes(d)| && net.readSize == 0
  }

  /** One pass of the upload machine, and the frame it tries to send; a read of nothing is taken for the end. */
  function UploadPass(d: Dev, net: Net): (Dev, Option<Msg>) {
    if d.upload == Idle || !net.connected then (d, None)
    else match d.upload
      case Start =>
        if d.flash.None? || !net.fileOpens then (d.(upload := Idle, uploadAt := None), None)
        else (if net.sendOk then d.(upload := Data, uploadAt := Some(0)) else Restarted(d), Some(MicStart(true)))
      case Data =>
        var at := if d.uploadAt.Some? then d.uploadAt.value else 0;
        var chunk := ReadAt(FlashBytes(d), at, net.readSize);
        if d.uploadAt.None? || chunk == [] then (d.(upload := Stop), None)
        else (if net.sendOk then d.(uploadAt := Some(at + |chunk|)) else Restarted(d), Some(Audio(chunk)))
      case Stop =>
        (if net.sendOk then d.(upload := Idle, uploadAt := None, flash := None) else Restarted(d), Some(MicStop))
  }

  // ---- the button and the recording ----

  /** What the rest of the pass meets; the byte lists are what flash accepts of the captured audio. */
  datatype Input = Input(wifi: bool, pressed: bool, now: uint32, later: uint32, fileOpens: bool, i2sStarts: bool,
                         block: seq<byte>, flushed: seq<byte>)

  function Elapsed(now: uint32, since: uint32): uint32 {
    (now - since) % 0x1_0000_0000
  }

  function Grown(d: Dev, bytes: seq<byte>): Dev {
    if d.recordingOpen then d.(flash := Some(FlashBytes(d) + bytes), captured := d.captured + |bytes|) else d
  }

  /** The recording ends: flush, close, stop I2S, and queue the upload if anything was stored. */
  function Ended(d: Dev, flushed: seq<byte>, limit: bool): Dev {
    var e := Grown(d, flushed).(recordingOpen := false, i2sActive := false, btnHeld := false, btnDown := 0,
                               timedOut := limit);
    if e.captured > 0 then e.(upload := Start) else e
  }

  predicate MayRecord(d: Dev, pressed: bool) {
    pressed && d.armed && !d.timedOut && !d.btnHeld && d.upload == Idle
  }

  /** A debounced press replaces the file and starts recording. */
  function Pressed(d: Dev, input: Input): Dev {
    if !input.fileOpens then d.(flash := None, btnDown := 0)
    else if !(d.i2sActive || input.i2sStarts) then d.(flash := Some([]), btnDown := 0)
    else d.(flash := Some([]), recordingOpen := true, i2sActive := true, btnHeld := true,
            recordingStarted := input.now, captured := 0)
  }

  /** A press starts the debounce, a held press the recording, a release ends it. */
  function PressOrRelease(d: Dev, input: Input): Dev {
    if MayRecord(d, input.pressed) && d.btnDown == 0 then d.(btnDown := input.now)
    else if MayRecord(d, input.pressed) && Elapsed(input.now, d.btnDown) > 100 then Pressed(d, input)
    else if !input.pressed then
      (if d.btnHeld then Ended(d, input.flushed, false) else d.(btnDown := 0, timedOut := false))
    else d
  }

  /** The 15 s limit, then one I2S read. */
  function LimitAndRead(d: Dev, input: Input): Dev {
    var e := if d.btnHeld && Elapsed(input.later, d.recordingStarted) >= 15000 then Ended(d, input.flushed, true) else d;
    if e.btnHeld && e.i2sActive then Grown(e, input.block) else e
  }

  function ButtonPass(d0: Dev, input: Input): Dev {
    var d := if !input.pressed then d0.(armed := true) else d0;
    if !input.wifi then (if d.btnHeld then Ended(d, input.flushed, true) else d)
    else LimitAndRead(PressOrRelease(d, input), input)
  }

  function OtaPass(d: Dev, rebooted: bool): Dev {
    if rebooted then Booted(d.flash) else d.(i2sActive := false)
  }

  function MicTestPass(d: Dev, over: bool, i2sStarts: bool): Dev {
    if !d.micTest then d
    else if over then d.(micTest := false, i2sActive := d.btnHeld && d.i2sActive)
    else if !d.btnHeld && i2sStarts then d.(i2sActive := true)
    else d
  }

  /** What one pass of the loop meets. */
  datatype Pass = Pass(net: Net, input: Input, ota: bool, rebooted: bool, testOver: bool)

  function Looped(d: Dev, p: Pass): Dev {
    var d1 := if p.ota then OtaPass(d, p.rebooted) else d;
    var d3 := ButtonPass(UploadPass(d1, p.net).0, p.input);
    if p.input.wifi then MicTestPass(d3, p.testOver, p.input.i2sStarts) else d3
  }

  /** The firmware's globals and the statics of its loop. */
  class Firmware {
    var upload: Upload
    var uploadAt: Option<nat>
    var flash: Option<seq<byte>>
    var recordingOpen: bool
    var captured: nat
    var btnHeld: bool
    var btnDown: uint32
    var armed: bool
    var timedOut: bool
    var recordingStarted: uint32
    var i2sActive: bool
    var micTest: bool

    ghost function View(): Dev
      reads this
    {
      Dev(upload, uploadAt, flash, recordingOpen, captured, btnHeld, btnDown, armed, timedOut, recordingStarted,
          i2sActive, micTest)
    }

    constructor (flash: Option<seq<byte>>)
      ensures View() == Booted(flash)
    {
      upload, uploadAt, this.flash, recordingOpen, captured := Idle, None, flash, false, 0;
      btnHeld, btnDown, armed, timedOut, recordingStarted := false, 0, false, false, 0;
      i2sActive, micTest := false, false;
    }

    method RestartAudioUpload()
      modifies this`upload, this`uploadAt
      ensures upload == Start && uploadAt == None
    {
      uploadAt := None;
      upload := Start;
    }

    /** `frame` is what is handed to the socket; at most one frame leaves per pass. */
    method ProcessAudioUpload(net: Net) returns (frame: Option<Msg>)
      modifies this
      ensures (View(), frame) == UploadPass(old(View()), net)
    {
      frame := None;
      if upload == Idle || !net.connected {
        return;
      }
      if upload == Start {
        uploadAt := None;
        if flash.None? || !net.fileOpens {
          upload := Idle;
          return;
        }
        uploadAt := Some(0);
        frame := Some(MicStart(true));
        if !net.sendOk {
          RestartAudioUpload();
          return;
        }
        upload := Data;
        return;
      }
      if upload == Data {
        var file := if flash.Some? then flash.value else [];
        var chunk := if uploadAt.None? then [] else ReadAt(file, uploadAt.value, net.readSize);
        if chunk == [] {
          upload := Stop;
          return;
        }
        uploadAt := Some(uploadAt.value + |chunk|);
        frame := Some(Audio(chunk));
        if !net.sendOk {
          RestartAudioUpload();
        }
        return;
      }
      frame := Some(MicStop);
      if !net.sendOk {
        RestartAudioUpload();
        return;
      }
      uploadAt := None;
      flash := None;
      upload := Idle;
    }

    method EndRecording(flushed: seq<byte>, limit: bool)
      modifies this
      ensures View() == Ended(old(View()), flushed, limit)
    {
      if recordingOpen {
        flash := Some((if flash.Some? then flash.value else []) + flushed);
        captured := captured + |flushed|;
      }
      recordingOpen, i2sActive, btnHeld, btnDown, timedOut := false, false, false, 0, limit;
      if captured > 0 {
        upload := Start;
      }
    }

    method HandlePress(input: Input)
      modifies this
      ensures View() == PressOrRelease(old(View()), input)
    {
      if input.pressed && armed && !timedOut && !btnHeld && upload == Idle && btnDown == 0 {
        btnDown := input.now;
      } else if input.pressed && armed && !timedOut && !btnHeld && upload == Idle
                && Elapsed(input.now, btnDown) > 100 {
        flash := if input.fileOpens then Some([]) else None;
        if input.fileOpens && (i2sActive || input.i2sStarts) {
          i2sActive, recordingOpen, btnHeld := true, true, true;
          recordingStarted := input.now;
          captured := 0;
        } else {
          btnDown := 0;
        }
      } else if !input.pressed {
        if btnHeld {
          EndRecording(input.flushed, false);
        }
        btnHeld, btnDown, timedOut := false, 0, false;
      }
    }

    method RecordBlock(input: Input)
      modifies this
      ensures View() == LimitAndRead(old(View()), input)
    {
      if btnHeld && Elapsed(input.later, recordingStarted) >= 15000 {
        EndRecording(input.flushed, true);
      }
      if btnHeld && i2sActive && recordingOpen {
        flash := Some((if flash.Some? then flash.value else []) + input.block);
        captured := captured + |input.block|;
      }
    }

    method HandleButton(input: Input)
      modifies this
      ensures View() == ButtonPass(old(View()), input)
    {
      if !input.pressed {
        armed := true;
      }
      if !input.wifi {
        if btnHeld {
          EndRecording(input.flushed, true);
        }
        return;
      }
      HandlePress(input);
      RecordBlock(input);
    }

    method HandleOta(rebooted: bool)
      modifies this
      ensures View() == OtaPass(old(View()), rebooted)
    {
      if rebooted {
        upload, uploadAt, recordingOpen, captured := Idle, None, false, 0;
        btnHeld, btnDown, armed, timedOut, recordingStarted := false, 0, false, false, 0;
        i2sActive, micTest := false, false;
      } else {
        i2sActive := false;
      }
    }

    method HandleMicTest(over: bool, i2sStarts: bool)
      modifies this
      ensures View() == MicTestPass(old(View()), over, i2sStarts)
    {
      if micTest {
        if over {
          micTest := false;
          if !btnHeld {
            i2sActive := false;
          }
        } else if !btnHeld && i2sStarts {
          i2sActive := true;
        }
      }
    }

    /** One pass of the main loop, after the socket has been served. */
    method Loop(p: Pass) returns (frame: Option<Msg>)
      modifies this
      ensures View() == Looped(old(View()), p)
      ensures frame == UploadPass(if p.ota then OtaPass(old(View()), p.rebooted) else old(View()), p.net).1
    {
      if p.ota {
        HandleOta(p.rebooted);
      }
      frame := ProcessAudioUpload(p.net);
      HandleButton(p.input);
      if p.input.wifi {
        HandleMicTest(p.testOver, p.input.i2sStarts);
      }
    }
  }

  // ---- recording and upload exclude each other ----

  /** What every part of the loop keeps. */
  ghost predicate DevOk(d: Dev) {
    && (d.btnHeld <==> d.recordingOpen)
    && (d.btnHeld ==> d.upload == Idle && d.flash.Some? && d.captured == |d.flash.value|)
    && (d.upload != Idle ==> d.flash.Some? && d.flash.value != [])
    && (d.upload == Data || d.upload == Stop ==> d.uploadAt.Some? && d.uploadAt.value <= |d.flash.value|)
  }

  lemma {:induction false} UploadKeepsOk(d: Dev, net: Net)
    requires DevOk(d)
    ensures DevOk(UploadPass(d, net).0)
  {
  }

  lemma {:induction false} EndedOk(d: Dev, flushed: seq<byte>, limit: bool)
    requires DevOk(d) && d.btnHeld
    ensures DevOk(Ended(d, flushed, limit))
  {
  }

  lemma {:induction false} PressKeepsOk(d: Dev, input: Input)
    requires DevOk(d)
    ensures DevOk(PressOrRelease(d, input))
  {
    hide Ended;
    if d.btnHeld {
      EndedOk(d, input.flushed, false);
    }
  }

  lemma {:induction false} LimitKeepsOk(d: Dev, input: Input)
    requires DevOk(d)
    ensures DevOk(LimitAndRead(d, input))
  {
    hide Ended;
    if d.btnHeld {
      EndedOk(d, input.flushed, true);
    }
  }

  lemma {:induction false} ButtonKeepsOk(d: Dev, input: Input)
    requires DevOk(d)
    ensures DevOk(ButtonPass(d, input))
  {
    hide Ended, PressOrRelease, LimitAndRead;
    var e := if !input.pressed then d.(armed := true) else d;
    PressKeepsOk(e, input);
    LimitKeepsOk(PressOrRelease(e, input), input);
    if e.btnHeld {
      EndedOk(e, input.flushed, true);
    }
  }

  lemma {:induction false} OthersKeepOk(d: Dev, rebooted: bool, over: bool, i2sStarts: bool)
    requires DevOk(d)
    ensures DevOk(OtaPass(d, rebooted)) && DevOk(MicTestPass(d, over, i2sStarts))
    ensures d.btnHeld ==> MicTestPass(d, over, i2sStarts).i2sActive == d.i2sActive
  {
  }

  /** While an upload is pending the button, the microphone test and OTA leave the file and the upload alone. */
  lemma {:induction false} PendingUploadIsUntouched(d: Dev, input: Input, over: bool, i2sStarts: bool)
    requires DevOk(d) && d.upload != Idle
    ensures var b := ButtonPass(d, input);
            && b.flash == d.flash && b.upload == d.upload && b.uploadAt == d.uploadAt && !b.btnHeld
    ensures MicTestPass(d, over, i2sStarts).flash == d.flash && MicTestPass(d, over, i2sStarts).upload == d.upload
    ensures OtaPass(d, false).flash == OtaPass(d, true).flash == d.flash && OtaPass(d, false).upload == d.upload
  {
  }

  /** The upload changes the file only by removing it, and only when its mic_stop is accepted. */
  lemma {:induction false} RemovedOnlyAfterStop(d: Dev, net: Net)
    requires DevOk(d) && UploadPass(d, net).0.flash != d.flash
    ensures d.upload == Stop && net.connected && net.sendOk
    ensures UploadPass(d, net) == (d.(upload := Idle, uploadAt := None, flash := None), Some(MicStop))
  {
  }

  /** The upload goes to STOP only by a read of nothing, which leaves bytes unread iff it was an empty read. */
  lemma {:induction false} StopsAtNothing(d: Dev, net: Net)
    requires DevOk(d) && d.upload != Stop && UploadPass(d, net).0.upload == Stop
    ensures d.upload == Data && net.connected && UploadPass(d, net) == (d.(upload := Stop), None)
    ensures d.uploadAt.value < |FlashBytes(d)| <==> EmptyRead(d, net)
  {
  }

  /** A run of the loop; between passes the socket's callback may start a microphone test. */
  function LoopRun(d: Dev, passes: seq<(Pass, bool)>): Dev {
    if passes == [] then d
    else
      var before := LoopRun(d, passes[..|passes| - 1]);
      var (p, testAsked) := passes[|passes| - 1];
      Looped(if testAsked then before.(micTest := true) else before, p)
  }

  lemma {:induction false} LoopKeepsOk(d: Dev, p: Pass)
    requires DevOk(d)
    ensures DevOk(Looped(d, p))
  {
    hide DevOk;
    OthersKeepOk(d, p.rebooted, p.testOver, p.input.i2sStarts);
    var d1 := if p.ota then OtaPass(d, p.rebooted) else d;
    UploadKeepsOk(d1, p.net);
    var d2 := UploadPass(d1, p.net).0;
    ButtonKeepsOk(d2, p.input);
    OthersKeepOk(ButtonPass(d2, p.input), p.rebooted, p.testOver, p.input.i2sStarts);
  }

  /** In every state the loop can reach, a recording in progress means no upload is pending. */
  lemma {:induction false} RecordingExcludesUpload(flash: Option<seq<byte>>, passes: seq<(Pass, bool)>)
    ensures var d := LoopRun(Booted(flash), passes);
            DevOk(d) && (d.btnHeld || d.recordingOpen ==> d.upload == Idle)
  {
    if passes != [] {
      RecordingExcludesUpload(flash, passes[..|passes| - 1]);
      var before := LoopRun(Booted(flash), passes[..|passes| - 1]);
      var (p, testAsked) := passes[|passes| - 1];
      LoopKeepsOk(if testAsked then before.(micTest := true) else before, p);
    }
  }
}
