/**
 When a recording starts, goes on and ends, over runs of the device: debounce, arming, the 15 s limit, Wi-Fi
 loss, and what the end of a recording leaves behind.
 */
module ButtonLaws {
  import opened Basics
  import opened Device
  import opened UploadProtocol

  // ---- one pass ----

  /** A recording in progress goes on exactly while the button is down, Wi-Fi is up and 15 s have not passed. */
  lemma {:induction false} GoesOnIff(d: Dev, input: Input)
    requires DevOk(d) && d.btnHeld
    ensures var e := ButtonPass(d, input);
            e.btnHeld <==> input.wifi && input.pressed && Elapsed(input.later, d.recordingStarted) < 15000
    ensures var e := ButtonPass(d, input);
            e.btnHeld ==> e.flash == Some(FlashBytes(d) + if d.i2sActive then input.block else [])
                          && e.recordingStarted == d.recordingStarted && e.upload == Idle
  {
    if input.wifi && input.pressed {
      HeldPressed(d.(armed := d.armed || !input.pressed), input);
    }
    assert FlashBytes(d) + [] == FlashBytes(d);
  }

  lemma {:induction false} HeldPressed(d: Dev, input: Input)
    requires d.btnHeld && input.pressed
    ensures PressOrRelease(d, input) == d
  {
  }

  /** Its end keeps everything captured, and the upload follows iff there is anything. */
  lemma {:induction false} EndKeepsRecording(d: Dev, input: Input)
    requires DevOk(d) && d.btnHeld && !ButtonPass(d, input).btnHeld
    ensures var e := ButtonPass(d, input);
            && e.flash == Some(FlashBytes(d) + input.flushed)
            && (e.upload == Start <==> e.flash.value != []) && (e.upload != Start ==> e.upload == Idle)
            && !e.recordingOpen && !e.i2sActive && e.btnDown == 0
            && (e.timedOut <==> !input.wifi || input.pressed)
  {
    hide PressOrRelease;
    var f := d.(armed := d.armed || !input.pressed);
    if input.wifi {
      if input.pressed {
        HeldPressed(f, input);
      } else {
        HeldReleased(f, input);
      }
    }
  }

  lemma {:induction false} HeldReleased(d: Dev, input: Input)
    requires d.btnHeld && !input.pressed
    ensures PressOrRelease(d, input) == Ended(d, input.flushed, false)
  {
  }

  /** What a press needs to become a recording. */
  predicate Starts(d: Dev, input: Input) {
    && input.wifi && input.pressed && d.armed && !d.timedOut && d.upload == Idle
    && d.btnDown != 0 && Elapsed(input.now, d.btnDown) > 100
    && input.fileOpens && (d.i2sActive || input.i2sStarts)
  }

  /** A recording starts exactly then, on an empty file; it could only be over at once by a read that takes 15 s. */
  lemma {:induction false} StartsIff(d: Dev, input: Input)
    requires DevOk(d) && !d.btnHeld
    ensures var e := ButtonPass(d, input);
            e.btnHeld <==> Starts(d, input) && Elapsed(input.later, input.now) < 15000
    ensures var e := ButtonPass(d, input);
            e.btnHeld ==> e.flash == Some(input.block) && e.recordingStarted == input.now && e.i2sActive
  {
    assert [] + input.block == input.block;
  }

  /**
   The first pass of a press only notes its time; one that cannot start leaves an empty file or none, and waits
   anew.
   */
  lemma {:induction false} PressIsNoted(d: Dev, input: Input)
    requires input.wifi && input.pressed && d.armed && !d.timedOut && !d.btnHeld && d.upload == Idle
    ensures d.btnDown == 0 ==> ButtonPass(d, input) == d.(btnDown := input.now)
    ensures d.btnDown != 0 && Elapsed(input.now, d.btnDown) <= 100 ==> ButtonPass(d, input) == d
    ensures d.btnDown != 0 && Elapsed(input.now, d.btnDown) > 100 && !Starts(d, input) ==>
              ButtonPass(d, input) == d.(flash := if input.fileOpens then Some([]) else None, btnDown := 0)
  {
  }

  /** What the press and release branch does to the press, the timeout mark and the arming. */
  lemma {:induction false} PressPart(d: Dev, input: Input)
    ensures var e := PressOrRelease(d, input);
            && e.armed == d.armed
            && (!e.btnHeld && e.btnDown != 0 && !d.btnHeld ==>
                  (e.btnDown == d.btnDown || (input.pressed && e.btnDown == input.now)) && input.pressed)
            && (d.btnHeld && !e.btnHeld ==> e.btnDown == 0)
            && (d.timedOut && !e.timedOut ==> !input.pressed)
            && (d.timedOut && !d.btnHeld ==> !e.btnHeld)
  {
  }

  lemma {:induction false} LimitPart(d: Dev, input: Input)
    ensures var e := LimitAndRead(d, input);
            && e.armed == d.armed && (e.btnHeld ==> d.btnHeld) && (d.timedOut ==> e.timedOut)
            && (if d.btnHeld && !e.btnHeld then e.btnDown == 0 else e.btnDown == d.btnDown)
  {
  }

  /** And the whole pass. */
  lemma {:induction false} PressFields(d: Dev, input: Input)
    requires DevOk(d)
    ensures var e := ButtonPass(d, input);
            && e.armed == (d.armed || !input.pressed)
            && (!e.btnHeld && e.btnDown != 0 ==>
                  !d.btnHeld && (e.btnDown == d.btnDown || (input.wifi && input.pressed && e.btnDown == input.now))
                  && (input.wifi ==> input.pressed))
            && (d.timedOut && !e.timedOut ==> input.wifi && !input.pressed)
            && (d.timedOut && !d.btnHeld ==> !e.btnHeld)
  {
    hide PressOrRelease, LimitAndRead, DevOk;
    var f := if !input.pressed then d.(armed := true) else d;
    PressPart(f, input);
    LimitPart(PressOrRelease(f, input), input);
    if d.btnHeld && input.pressed {
      HeldPressed(f, input);
    }
  }

  // ---- runs ----

  /** No reboot from step i to step k. */
  ghost predicate NoReboot(actions: seq<Action>, i: nat, k: nat)
    requires k <= |actions|
  {
    forall x :: i <= x < k ==> actions[x] != Ota(true)
  }

  /** In every pass of steps i to k that saw the button with Wi-Fi up, it was down. */
  ghost predicate KeptDown(actions: seq<Action>, i: nat, k: nat)
    requires k <= |actions|
  {
    forall x :: i <= x < k && actions[x].Button? && actions[x].input.wifi ==> actions[x].input.pressed
  }

  /** What the steps other than the button's leave alone. */
  lemma {:induction false} OtherSteps(w: World, a: Action)
    requires Inv(w) && Enabled(w, a) && !a.Button?
    ensures var d, e := w.dev, Step(w, a).dev;
            if a == Ota(true) then e == Booted(d.flash)
            else e.btnHeld == d.btnHeld && e.btnDown == d.btnDown && e.armed == d.armed && e.timedOut == d.timedOut
                 && e.recordingStarted == d.recordingStarted
  {
    hide GatewayOk, DevOk;
    match a
    case Upload(net, leaked) => UploadLeavesButton(w.dev, net);
    case _ =>
  }

  lemma {:induction false} UploadLeavesButton(d: Dev, net: Net)
    ensures var e := UploadPass(d, net).0; e == d.(upload := e.upload, uploadAt := e.uploadAt, flash := e.flash)
  {
    hide ReadAt, FlashBytes;
    match d.upload
    case Idle =>
    case Start =>
    case Data =>
    case Stop =>
  }

  lemma {:induction false} ButtonStep(w: World, input: Input)
    ensures Step(w, Button(input)).dev == ButtonPass(w.dev, input)
  {
  }

  /** A press that has not become a recording was seen at the time noted, and the button has been down since. */
  lemma {:induction false} PressWasSeen(states: seq<World>, actions: seq<Action>, k: nat) returns (j: nat)
    requires IsRun(states, actions) && k < |states| && states[k].dev.btnDown != 0 && !states[k].dev.btnHeld
    ensures j < k && actions[j].Button? && actions[j].input.pressed && actions[j].input.now == states[k].dev.btnDown
    ensures KeptDown(actions, j, k) && NoReboot(actions, j, k)
  {
    hide ButtonPass, Step, Enabled;
    RunKeepsInv(states, actions, k - 1);
    var w, a := states[k - 1], actions[k - 1];
    if a.Button? {
      ButtonStep(w, a.input);
      PressFields(w.dev, a.input);
      if states[k].dev.btnDown == w.dev.btnDown {
        j := PressWasSeen(states, actions, k - 1);
      } else {
        j := k - 1;
      }
    } else {
      OtherSteps(w, a);
      j := PressWasSeen(states, actions, k - 1);
    }
  }

  /** An armed device has seen its button up since it booted. */
  lemma {:induction false} ReleaseWasSeen(states: seq<World>, actions: seq<Action>, k: nat) returns (j: nat)
    requires IsRun(states, actions) && k < |states| && states[k].dev.armed
    ensures j < k && actions[j].Button? && !actions[j].input.pressed && NoReboot(actions, j, k)
  {
    hide ButtonPass, Step, Enabled;
    RunKeepsInv(states, actions, k - 1);
    var w, a := states[k - 1], actions[k - 1];
    if a.Button? {
      ButtonStep(w, a.input);
      PressFields(w.dev, a.input);
      if a.input.pressed {
        j := ReleaseWasSeen(states, actions, k - 1);
      } else {
        j := k - 1;
      }
    } else {
      OtherSteps(w, a);
      j := ReleaseWasSeen(states, actions, k - 1);
    }
  }

  /**
   Debounce and arming: in every run, a pass that starts a recording comes more than 100 ms after a pass that saw
   the press, with the button down in between, and after the button was seen up since boot.
   */
  lemma {:induction false} StartIsDebounced(states: seq<World>, actions: seq<Action>, k: nat)
      returns (up: nat, down: nat)
    requires IsRun(states, actions) && k < |actions| && actions[k].Button?
    requires !states[k].dev.btnHeld && states[k + 1].dev.btnHeld
    ensures up < k && actions[up].Button? && !actions[up].input.pressed && NoReboot(actions, up, k)
    ensures down < k && actions[down].Button? && actions[down].input.pressed
    ensures KeptDown(actions, down, k) && NoReboot(actions, down, k)
    ensures Elapsed(actions[k].input.now, actions[down].input.now) > 100
  {
    RunKeepsInv(states, actions, k);
    ButtonStep(states[k], actions[k].input);
    StartsIff(states[k].dev, actions[k].input);
    hide ButtonPass, Step, Enabled;
    down := PressWasSeen(states, actions, k);
    up := ReleaseWasSeen(states, actions, k);
  }

  /** After a timeout or a Wi-Fi loss the button records again only when it has been let go with Wi-Fi up. */
  lemma {:induction false} TimeoutNeedsRelease(states: seq<World>, actions: seq<Action>, i: nat, k: nat)
      returns (j: nat)
    requires IsRun(states, actions) && i <= k < |actions| && states[i].dev.timedOut && !states[i].dev.btnHeld
    requires !states[k].dev.btnHeld && states[k + 1].dev.btnHeld
    ensures i <= j < k
    ensures actions[j] == Ota(true) || (actions[j].Button? && actions[j].input.wifi && !actions[j].input.pressed)
  {
    RunKeepsInv(states, actions, k);
    hide ButtonPass, Step, Enabled;
    if states[k].dev.timedOut {
      StillTimedOut(states[k], actions[k]);
    }
    j := MarkWasLifted(states, actions, i, k);
  }

  lemma {:induction false} StillTimedOut(w: World, a: Action)
    requires Inv(w) && Enabled(w, a) && w.dev.timedOut && !w.dev.btnHeld
    ensures !Step(w, a).dev.btnHeld
  {
    hide ButtonPass;
    if a.Button? {
      ButtonStep(w, a.input);
      PressFields(w.dev, a.input);
    } else {
      OtherSteps(w, a);
    }
  }

  lemma {:induction false} MarkWasLifted(states: seq<World>, actions: seq<Action>, i: nat, k: nat) returns (j: nat)
    requires IsRun(states, actions) && i <= k < |states| && states[i].dev.timedOut && !states[k].dev.timedOut
    ensures i <= j < k
    ensures actions[j] == Ota(true) || (actions[j].Button? && actions[j].input.wifi && !actions[j].input.pressed)
  {
    hide ButtonPass, Step, Enabled;
    RunKeepsInv(states, actions, k - 1);
    var w, a := states[k - 1], actions[k - 1];
    if a.Button? {
      ButtonStep(w, a.input);
      PressFields(w.dev, a.input);
    } else {
      OtherSteps(w, a);
    }
    if states[k - 1].dev.timedOut {
      j := k - 1;
    } else {
      j := MarkWasLifted(states, actions, i, k - 1);
    }
  }

  // ---- the microphone test and OTA ----

  /** A test lasts exactly until its time is over, leaves a recording alone, and otherwise owns I2S. */
  lemma {:induction false} TestLasts(d: Dev, over: bool, i2sStarts: bool)
    requires d.micTest
    ensures var e := MicTestPass(d, over, i2sStarts);
            && (e.micTest <==> !over) && e.btnHeld == d.btnHeld && e.flash == d.flash && e.upload == d.upload
            && (d.btnHeld ==> e.i2sActive == d.i2sActive)
            && (!d.btnHeld ==> (e.i2sActive <==> !over && (d.i2sActive || i2sStarts)))
  {
  }

  /** A failed update stops I2S and nothing else; a successful one keeps only the flash. */
  lemma {:induction false} OtaStops(d: Dev)
    ensures OtaPass(d, true) == Booted(d.flash) && !OtaPass(d, false).i2sActive
    ensures OtaPass(d, false).(i2sActive := d.i2sActive) == d
  {
  }
}
