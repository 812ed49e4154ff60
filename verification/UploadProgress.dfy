/**
 What becomes of a pending upload: a failed send starts it over, nothing else gives it up, and left alone it
 sends the whole file.
 */
module UploadProgress {
  import opened Basics
  import opened MuLaw
  import opened Gateway
  import opened Device
  import opened UploadProtocol

  // ---- in every run ----

  lemma {:induction false} FailedSendRestarts(d: Dev, net: Net)
    requires UploadPass(d, net).1.Some? && !net.sendOk
    ensures UploadPass(d, net).0 == d.(upload := Start, uploadAt := None)
  {
  }

  /**
   A send that fails costs the connection and starts the upload over: the file is kept and read from its
   beginning.
   */
  lemma {:induction false} LostSendStartsOver(states: seq<World>, actions: seq<Action>, k: nat)
    requires IsRun(states, actions) && k < |actions| && actions[k].Upload?
    requires states[k].link.Some? && states[k + 1].link.None?
    ensures states[k].dev.upload != Idle && states[k + 1].dev.upload == Start
    ensures states[k + 1].dev.uploadAt == None && states[k + 1].dev.flash == states[k].dev.flash
  {
    var w, net := states[k], actions[k].net;
    FailedFrame(w.dev, net);
    assert states[k + 1] == Uploaded(w, net, actions[k].leaked);
    hide UploadPass, IsRun;
    if UploadPass(w.dev, net).1.Some? && !net.sendOk {
      FailedSendRestarts(w.dev, net);
    }
  }

  lemma {:induction false} FailedFrame(d: Dev, net: Net)
    ensures UploadPass(d, net).1.Some? ==> d.upload != Idle && net.connected
  {
  }

  /** The ways a pending upload can end: its mic_stop is accepted, or its file does not open. */
  ghost predicate GivenUp(d: Dev, net: Net, e: Dev) {
    || (d.upload == Stop && net.sendOk && e.flash == None && UploadPass(d, net).1 == Some(MicStop))
    || (d.upload == Start && !net.fileOpens && e.flash == d.flash && UploadPass(d, net).1 == None)
  }

  lemma {:induction false} PassGivesUp(d: Dev, net: Net)
    requires DevOk(d) && d.upload != Idle && UploadPass(d, net).0.upload == Idle
    ensures net.connected && GivenUp(d, net, UploadPass(d, net).0)
  {
  }

  /** In every run, a pending upload ends only so, or by a reboot; and only the first empties the flash. */
  lemma {:induction false} PendingUntilAccepted(states: seq<World>, actions: seq<Action>, k: nat)
    requires IsRun(states, actions) && k < |actions|
    requires states[k].dev.upload != Idle && states[k + 1].dev.upload == Idle
    ensures match actions[k]
            case Upload(net, _) => net.connected && GivenUp(states[k].dev, net, states[k + 1].dev)
            case Ota(rebooted) => rebooted && states[k + 1].dev.flash == states[k].dev.flash
            case _ => false
  {
    RunKeepsInv(states, actions, k);
    var w, a := states[k], actions[k];
    hide IsRun, GatewayOk, Handle, GivenUp;
    match a
    case Upload(net, _) => PassGivesUp(w.dev, net);
    case Button(input) => PendingUploadIsUntouched(w.dev, input, false, false);
    case Ota(rebooted) =>
    case MicTest(asked, over, starts) =>
      MicTestKeepsUpload(if asked then w.dev.(micTest := true) else w.dev, over, starts);
    case _ =>
  }

  /** And it does end in either case: an upload whose file is gone does not stay pending. */
  lemma {:induction false} UploadEndsIff(states: seq<World>, actions: seq<Action>, k: nat)
    requires IsRun(states, actions) && k < |actions| && actions[k].Upload? && states[k].dev.upload != Idle
    ensures var d, net := states[k].dev, actions[k].net;
            states[k + 1].dev.upload == Idle
            <==> net.connected && ((d.upload == Stop && net.sendOk) || (d.upload == Start && !net.fileOpens))
  {
    RunKeepsInv(states, actions, k);
    var w, net := states[k], actions[k].net;
    assert states[k + 1] == Uploaded(w, net, actions[k].leaked);
    hide IsRun, GatewayOk;
    PassEndsIff(w.dev, net);
    hide UploadPass;
  }

  lemma {:induction false} PassEndsIff(d: Dev, net: Net)
    requires DevOk(d) && d.upload != Idle
    ensures UploadPass(d, net).0.upload == Idle
            <==> net.connected && ((d.upload == Stop && net.sendOk) || (d.upload == Start && !net.fileOpens))
  {
  }

  lemma {:induction false} MicTestKeepsUpload(d: Dev, over: bool, starts: bool)
    ensures MicTestPass(d, over, starts).upload == d.upload
  {
  }

  // ---- left alone ----

  /** Passes of the upload machine, and the frames they hand to the socket. */
  function Passes(d: Dev, nets: seq<Net>): (Dev, seq<Msg>) {
    if nets == [] then (d, [])
    else
      var (e, sent) := Passes(d, nets[..|nets| - 1]);
      var (f, frame) := UploadPass(e, nets[|nets| - 1]);
      (f, if frame.Some? then sent + [frame.value] else sent)
  }

  ghost predicate Undisturbed(nets: seq<Net>) {
    forall i :: 0 <= i < |nets| ==> nets[i].connected && nets[i].fileOpens && nets[i].readSize > 0 && nets[i].sendOk
  }

  /** Passes it takes at most from here to IDLE. */
  function Left(d: Dev): nat {
    match d.upload
    case Idle => 0
    case Start => |FlashBytes(d)| + 3
    case Data =>
      var at := if d.uploadAt.Some? then d.uploadAt.value else 0;
      2 + if at <= |FlashBytes(d)| then |FlashBytes(d)| - at else 0
    case Stop => 1
  }

  /** The frames so far are those of one upload of the file: whole when it is over, else what has been read. */
  ghost predicate InOrder(d: Dev, flash: seq<byte>, sent: seq<Msg>) {
    match d.upload
    case Start => sent == [] && d.flash == Some(flash)
    case Data =>
      && d.flash == Some(flash) && d.uploadAt.Some? && d.uploadAt.value <= |flash|
      && Starts(sent) == 1 && Pending(sent) == Some(flash[..d.uploadAt.value]) && MicStop !in sent
    case Stop =>
      d.flash == Some(flash) && d.uploadAt.Some? && Starts(sent) == 1 && Pending(sent) == Some(flash) && MicStop !in sent
    case Idle => d.flash == None && Whole(sent, flash)
  }

  /** One mic_start for mu-law, the bytes, one mic_stop. */
  ghost predicate Whole(sent: seq<Msg>, flash: seq<byte>) {
    && |sent| > 1 && sent[|sent| - 1] == MicStop && MicStop !in sent[..|sent| - 1]
    && Starts(sent) == 1 && Pending(sent[..|sent| - 1]) == Some(flash)
  }

  lemma {:induction false} GoodPass(d: Dev, net: Net, flash: seq<byte>, sent: seq<Msg>)
    requires InOrder(d, flash, sent) && Undisturbed([net])
    ensures var (e, frame) := UploadPass(d, net);
            && InOrder(e, flash, if frame.Some? then sent + [frame.value] else sent)
            && (d.upload != Idle ==> Left(e) < Left(d)) && (d.upload == Idle ==> e == d)
  {
    assert [net][0] == net;
    match d.upload
    case Start => GoodStartPass(d, net, flash);
    case Data => GoodDataPass(d, net, flash, sent);
    case Stop => GoodStopPass(d, net, flash, sent);
    case Idle =>
  }

  lemma {:induction false} GoodStartPass(d: Dev, net: Net, flash: seq<byte>)
    requires d.upload == Start && d.flash == Some(flash) && Undisturbed([net])
    ensures UploadPass(d, net) == (d.(upload := Data, uploadAt := Some(0)), Some(MicStart(true)))
    ensures InOrder(UploadPass(d, net).0, flash, [MicStart(true)]) && [] + [MicStart(true)] == [MicStart(true)]
  {
    assert [net][0] == net;
    HistorySnoc([], MicStart(true));
    assert [] + [MicStart(true)] == [MicStart(true)] && flash[..0] == [];
  }

  lemma {:induction false} GoodStopPass(d: Dev, net: Net, flash: seq<byte>, sent: seq<Msg>)
    requires d.upload == Stop && InOrder(d, flash, sent) && Undisturbed([net])
    ensures UploadPass(d, net) == (d.(upload := Idle, uploadAt := None, flash := None), Some(MicStop))
    ensures InOrder(UploadPass(d, net).0, flash, sent + [MicStop])
  {
    assert [net][0] == net;
    hide Pending, Starts;
    HistorySnoc(sent, MicStop);
    assert (sent + [MicStop])[..|sent|] == sent;
    NothingPendingNoStarts();
  }

  /** A read sends some of what is left of the file, or finds it all sent. */
  lemma {:induction false} GoodRead(d: Dev, net: Net, flash: seq<byte>)
    requires d.upload == Data && d.flash == Some(flash) && d.uploadAt.Some? && d.uploadAt.value <= |flash|
    requires net.connected && net.readSize > 0 && net.sendOk
    ensures var at, (e, frame) := d.uploadAt.value, UploadPass(d, net);
            if at == |flash| then e == d.(upload := Stop) && frame == None
            else exists to: nat :: at < to <= |flash| && frame == Some(Audio(flash[at..to]))
                                   && e == d.(uploadAt := Some(to))
  {
    var at := d.uploadAt.value;
    if at < |flash| {
      var to := at + Min(net.readSize, Min(CHUNK, |flash| - at));
      assert ReadAt(flash, at, net.readSize) == flash[at..to] && |flash[at..to]| == to - at;
    }
  }

  lemma {:induction false} GoodDataPass(d: Dev, net: Net, flash: seq<byte>, sent: seq<Msg>)
    requires d.upload == Data && InOrder(d, flash, sent) && Undisturbed([net])
    ensures var (e, frame) := UploadPass(d, net);
            && InOrder(e, flash, if frame.Some? then sent + [frame.value] else sent)
            && Left(e) < Left(d)
  {
    assert [net][0] == net;
    hide Pending, Starts, Whole, UploadPass;
    GoodRead(d, net, flash);
    var at := d.uploadAt.value;
    if at < |flash| {
      var to: nat :| at < to <= |flash| && UploadPass(d, net).1 == Some(Audio(flash[at..to]))
                     && UploadPass(d, net).0 == d.(uploadAt := Some(to));
      HistorySnoc(sent, Audio(flash[at..to]));
      assert flash[..at] + flash[at..to] == flash[..to];
    } else {
      assert flash[..at] == flash;
    }
  }

  lemma {:induction false} NothingPendingNoStarts()
    ensures Pending([]) == None && Starts([]) == 0
  {
  }

  /**
   An upload left alone comes to its end: after as many passes as the file has bytes, and three more, the device
   is IDLE, the file is gone from flash, and it has sent one mic_start, exactly the bytes of the file in order,
   and one mic_stop.
   */
  lemma {:induction false} UndisturbedUploadCompletes(d: Dev, nets: seq<Net>)
    requires DevOk(d) && d.upload == Start && Undisturbed(nets) && |nets| >= |FlashBytes(d)| + 3
    ensures var (e, sent) := Passes(d, nets);
            e.upload == Idle && e.flash == None && Whole(sent, FlashBytes(d))
  {
    PassesGoOn(d, nets);
  }

  lemma {:induction false} PassesGoOn(d: Dev, nets: seq<Net>)
    requires DevOk(d) && d.upload == Start && Undisturbed(nets)
    ensures var (e, sent) := Passes(d, nets);
            InOrder(e, FlashBytes(d), sent) && (e.upload == Idle || Left(e) + |nets| <= |FlashBytes(d)| + 3)
  {
    if nets != [] {
      var init, last := nets[..|nets| - 1], nets[|nets| - 1];
      PassesGoOn(d, init);
      var (e, sent) := Passes(d, init);
      hide UploadPass, InOrder, Left;
      GoodPass(e, last, FlashBytes(d), sent);
      IdleIsOver(UploadPass(e, last).0);
    }
  }

  lemma {:induction false} IdleIsOver(d: Dev)
    ensures Left(d) == 0 <==> d.upload == Idle
  {
  }

  /**
   A frame of audio is the next bytes of the file: at least one, at most 1024, and all that is left if the read
   is.
   */
  lemma {:induction false} ChunkIsNext(d: Dev, net: Net)
    requires DevOk(d) && UploadPass(d, net).1.Some? && UploadPass(d, net).1.value.Audio?
    ensures var at, bytes := d.uploadAt.value, UploadPass(d, net).1.value.bytes;
            && 1 <= |bytes| <= 1024 && at + |bytes| <= |FlashBytes(d)| && bytes == FlashBytes(d)[at..at + |bytes|]
            && (net.readSize >= 1024 ==> |bytes| == 1024 || at + |bytes| == |FlashBytes(d)|)
  {
  }
}
