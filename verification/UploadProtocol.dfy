/**
 Store-and-forward audio as a two-party protocol. Every connection delivers an in-order prefix of what was
 sent on it; connections drop at any time, also silently while an upload is in progress; a send that
 returns false may have been delivered. Whatever happens, only whole recordings are submitted.
 */
module UploadProtocol {
  import opened Basics
  import opened MuLaw
  import opened Gateway
  import opened Device

  /** One connection: what the device sent on it, how much was delivered, and the gateway's session. */
  datatype Link = Link(sent: seq<Msg>, delivered: nat, session: Session)

  /** An upload that got to its mic_stop: the gateway's file for it, the flash file, and how much of it was read. */
  datatype Ending = Ending(file: FileId, flash: seq<byte>, at: nat)

  /**
   `link` is the device's current connection; `recordings` collects every recording completed so far, and
   `endings` every upload whose mic_stop went out.
   */
  datatype World = World(dev: Dev, link: Option<nat>, links: seq<Link>, disk: Disk, recordings: set<seq<byte>>,
                         endings: set<Ending>)

  datatype Action =
    | Connect(hello: Option<bool>)
    | Drop
    | Chatter
    | Upload(net: Net, leaked: bool)
    | Button(input: Input)
    | Ota(rebooted: bool)
    | MicTest(asked: bool, over: bool, i2sStarts: bool)
    | Deliver(cid: nat)

  ghost predicate Enabled(w: World, a: Action) {
    match a
    case Connect(_) => w.link.None?
    case Drop => w.link.Some?
    case Chatter => w.link.Some? && w.link.value < |w.links|
    case Upload(net, _) => net.connected ==> w.link.Some? && w.link.value < |w.links|
    case Deliver(cid) => cid < |w.links| && w.links[cid].delivered < |w.links[cid].sent|
    case _ => true
  }

  function Sent(links: seq<Link>, cid: nat, m: Msg): seq<Link>
    requires cid < |links|
  {
    links[cid := links[cid].(sent := links[cid].sent + [m])]
  }

  /** The upload of which the device is sending the mic_stop on a connection. */
  function EndingOn(d: Dev, cid: nat, sent: seq<Msg>): Ending {
    Ending(FileId(cid, Starts(sent)), FlashBytes(d), if d.uploadAt.Some? then d.uploadAt.value else 0)
  }

  function Uploaded(w: World, net: Net, leaked: bool): World
    requires net.connected ==> w.link.Some? && w.link.value < |w.links|
  {
    var (d, frame) := UploadPass(w.dev, net);
    if frame.None? then w.(dev := d)
    else if !net.connected then w.(dev := d)
    else w.(dev := d,
            links := if net.sendOk || leaked then Sent(w.links, w.link.value, frame.value) else w.links,
            endings := if (net.sendOk || leaked) && frame.value == MicStop then
                         w.endings + {EndingOn(w.dev, w.link.value, w.links[w.link.value].sent)}
                       else w.endings,
            link := if net.sendOk then w.link else None)
  }

  function Delivered(w: World, cid: nat): World
    requires cid < |w.links| && w.links[cid].delivered < |w.links[cid].sent|
  {
    var l := w.links[cid];
    var (s, disk) := Handle(l.session, w.disk, l.sent[l.delivered]);
    w.(links := w.links[cid := l.(delivered := l.delivered + 1, session := s)], disk := disk)
  }

  function ButtonHandled(w: World, input: Input): World {
    var d := ButtonPass(w.dev, input);
    w.(dev := d,
       recordings := if w.dev.upload == Idle && d.upload != Idle then w.recordings + {FlashBytes(d)} else w.recordings)
  }

  ghost function Step(w: World, a: Action): World
    requires Enabled(w, a)
  {
    match a
    case Connect(hello) =>
      var sent := if hello.Some? then [Identify(hello.value)] else [];
      w.(link := Some(|w.links|), links := w.links + [Link(sent, 0, NewSession(|w.links|))])
    case Drop => w.(link := None)
    case Chatter => w.(links := Sent(w.links, w.link.value, Other))
    case Upload(net, leaked) => Uploaded(w, net, leaked)
    case Button(input) => ButtonHandled(w, input)
    case Ota(rebooted) => w.(dev := OtaPass(w.dev, rebooted), link := if rebooted then None else w.link)
    case MicTest(asked, over, starts) =>
      w.(dev := MicTestPass(if asked then w.dev.(micTest := true) else w.dev, over, starts))
    case Deliver(cid) => Delivered(w, cid)
  }

  // ---- the invariant ----

  /** Every mic_stop on a connection ends an upload, or stands on a connection without any mic_start. */
  ghost predicate StopsComplete(sent: seq<Msg>, cid: nat, endings: set<Ending>) {
    forall i :: 0 <= i < |sent| && sent[i] == MicStop ==> StopOk(sent[..i], cid, endings)
  }

  /** What is open before a mic_stop is what an upload of a recorded ending had read. */
  ghost predicate StopOk(before: seq<Msg>, cid: nat, endings: set<Ending>) {
    var p := Pending(before);
    if p.Some? then EndsWith(endings, FileId(cid, Starts(before)), p.value) else Starts(before) == 0
  }

  ghost predicate EndsWith(endings: set<Ending>, file: FileId, bytes: seq<byte>) {
    exists e :: e in endings && e.file == file && e.at <= |e.flash| && bytes == e.flash[..e.at]
  }

  /**
   What is open on the device's connection is the part of the flash file already read, or was lost with an older
   one.
   */
  ghost predicate InStep(d: Dev, sent: seq<Msg>) {
    if d.upload == Idle || d.upload == Start then Pending(sent) == None
    else Starts(sent) == 0
         || (d.uploadAt.Some? && d.uploadAt.value <= |FlashBytes(d)|
             && Pending(sent) == Some(FlashBytes(d)[..d.uploadAt.value]))
  }

  ghost predicate LinkOk(l: Link, cid: nat, disk: Disk, endings: set<Ending>) {
    && l.delivered <= |l.sent| && l.session.cid == cid && AllMulaw(l.sent)
    && StopsComplete(l.sent, cid, endings)
    && Follows(l.session, disk, l.sent[..l.delivered])
  }

  /** A file holds the decoding of what the upload of a recorded ending had read. */
  ghost predicate Holds(content: seq<byte>, file: FileId, endings: set<Ending>) {
    exists e :: e in endings && e.file == file && e.at <= |e.flash| && content == PcmBytes(e.flash[..e.at])
  }

  /** A submitted file holds what an upload had read and will not be written again. */
  ghost predicate FileOk(f: FileId, w: World) {
    && f.cid < |w.links| && f.number <= w.links[f.cid].session.number
    && (f.number == w.links[f.cid].session.number ==> !w.links[f.cid].session.open)
    && f in w.disk.files && Holds(w.disk.files[f], f, w.endings)
  }

  ghost predicate DeviceOk(w: World) {
    && DevOk(w.dev)
    && (w.dev.upload != Idle ==> FlashBytes(w.dev) in w.recordings)
    && (w.link.Some? ==> w.link.value < |w.links| && InStep(w.dev, w.links[w.link.value].sent))
  }

  ghost predicate GatewayOk(w: World) {
    && (forall c :: 0 <= c < |w.links| ==> LinkOk(w.links[c], c, w.disk, w.endings))
    && (forall f :: f in w.disk.files ==> f.cid < |w.links|)
    && (forall k :: 0 <= k < |w.disk.submitted| ==> FileOk(w.disk.submitted[k], w))
    && (forall j, k :: 0 <= j < k < |w.disk.submitted| ==> w.disk.submitted[j] != w.disk.submitted[k])
  }

  ghost predicate Inv(w: World) {
    DeviceOk(w) && GatewayOk(w)
  }

  function InitialWorld(flash: Option<seq<byte>>): World {
    World(Booted(flash), None, [], Disk(map[], []), {}, {})
  }

  // ---- sending ----

  lemma {:induction false} SendKeepsLink(l: Link, m: Msg, cid: nat, disk: Disk, endings: set<Ending>)
    requires LinkOk(l, cid, disk, endings)
    requires m.MicStart? ==> m.mulaw
    requires m == MicStop ==> StopOk(l.sent, cid, endings)
    ensures LinkOk(l.(sent := l.sent + [m]), cid, disk, endings)
  {
    var sent := l.sent + [m];
    assert sent[..l.delivered] == l.sent[..l.delivered];
    forall i | 0 <= i < |sent| && sent[i] == MicStop
      ensures StopOk(sent[..i], cid, endings)
    {
      assert sent[..i] == l.sent[..i];
      assert i == |l.sent| ==> l.sent[..i] == l.sent;
    }
  }

  lemma {:induction false} SendKeepsGateway(w: World, cid: nat, m: Msg)
    requires GatewayOk(w) && cid < |w.links|
    requires m.MicStart? ==> m.mulaw
    requires m == MicStop ==> StopOk(w.links[cid].sent, cid, w.endings)
    ensures GatewayOk(w.(links := Sent(w.links, cid, m)))
  {
    var t := w.(links := Sent(w.links, cid, m));
    SendKeepsLink(w.links[cid], m, cid, w.disk, w.endings);
    forall k | 0 <= k < |t.disk.submitted|
      ensures FileOk(t.disk.submitted[k], t)
    {
      assert FileOk(w.disk.submitted[k], w);
    }
  }

  /** The frames of the upload keep the connection in step with the file. */
  lemma {:induction false} UploadKeepsStep(d: Dev, net: Net, sent: seq<Msg>)
    requires DevOk(d) && InStep(d, sent) && net.connected
    ensures var (e, frame) := UploadPass(d, net);
            && (frame.None? ==> InStep(e, sent))
            && (frame.Some? && net.sendOk ==> InStep(e, sent + [frame.value]))
            && (frame.Some? && frame.value.MicStart? ==> frame.value.mulaw)
  {
    var (e, frame) := UploadPass(d, net);
    if frame.Some? {
      HistorySnoc(sent, frame.value);
      if Starts(sent) == 0 {
        NoStartsNothingPending(sent);
      }
      if d.upload == Data && net.sendOk {
        var at, chunk := d.uploadAt.value, frame.value.bytes;
        assert FlashBytes(d)[..at] + chunk == FlashBytes(d)[..at + |chunk|];
      }
    }
  }

  lemma {:induction false} StopEndsUpload(d: Dev, net: Net, cid: nat, sent: seq<Msg>, endings: set<Ending>)
    requires DevOk(d) && InStep(d, sent) && UploadPass(d, net).1 == Some(MicStop)
    requires EndingOn(d, cid, sent) in endings
    ensures StopOk(sent, cid, endings)
  {
    if Starts(sent) == 0 {
      NoStartsNothingPending(sent);
    } else {
      var e := EndingOn(d, cid, sent);
      assert e.at <= |e.flash| && Pending(sent) == Some(e.flash[..e.at]);
    }
  }

  lemma {:induction false} UploadKeepsPending(d: Dev, net: Net)
    ensures var (e, frame) := UploadPass(d, net);
            && (e.upload != Idle ==> d.upload != Idle && e.flash == d.flash)
            && (!net.connected ==> e == d && frame == None)
  {
    hide ReadAt, FlashBytes;
    match d.upload
    case Idle =>
    case Start =>
    case Data =>
    case Stop =>
  }

  lemma {:induction false} UploadKeepsInv(w: World, net: Net, leaked: bool)
    requires Inv(w) && Enabled(w, Upload(net, leaked))
    ensures Inv(Uploaded(w, net, leaked))
  {
    hide UploadPass, StopsComplete, Follows, Holds, DevOk, EndingOn;
    var t := Uploaded(w, net, leaked);
    var (d, frame) := UploadPass(w.dev, net);
    UploadKeepsOk(w.dev, net);
    UploadKeepsPending(w.dev, net);
    if net.connected {
      UploadKeepsStep(w.dev, net, w.links[w.link.value].sent);
      if frame.Some? && (net.sendOk || leaked) {
        FrameKeepsGateway(w, net, frame.value);
        GatewayIgnoresDevice(WithFrame(w, frame.value), d, t.link);
      }
    }
    GatewayIgnoresDevice(w, d, t.link);
  }

  /** The world after a frame of the upload has gone out, the device aside. */
  function WithFrame(w: World, m: Msg): World
    requires w.link.Some? && w.link.value < |w.links|
  {
    var cid := w.link.value;
    w.(links := Sent(w.links, cid, m),
       endings := if m == MicStop then w.endings + {EndingOn(w.dev, cid, w.links[cid].sent)} else w.endings)
  }

  lemma {:induction false} FrameKeepsGateway(w: World, net: Net, m: Msg)
    requires Inv(w) && net.connected && w.link.Some? && UploadPass(w.dev, net).1 == Some(m)
    ensures GatewayOk(WithFrame(w, m))
  {
    var cid := w.link.value;
    var sent := w.links[cid].sent;
    if m == MicStop {
      var e := EndingOn(w.dev, cid, sent);
      MoreEndings(w, e);
      StopEndsUpload(w.dev, net, cid, sent, w.endings + {e});
      SendKeepsGateway(w.(endings := w.endings + {e}), cid, m);
    } else {
      SendKeepsGateway(w, cid, m);
    }
  }

  lemma {:induction false} GatewayIgnoresDevice(w: World, d: Dev, link: Option<nat>)
    requires GatewayOk(w)
    ensures GatewayOk(w.(dev := d, link := link))
  {
    forall k | 0 <= k < |w.disk.submitted|
      ensures FileOk(w.disk.submitted[k], w.(dev := d, link := link))
    {
      assert FileOk(w.disk.submitted[k], w);
    }
  }

  lemma {:induction false} MoreRecordings(w: World, r: seq<byte>)
    requires GatewayOk(w)
    ensures GatewayOk(w.(recordings := w.recordings + {r}))
  {
    var t := w.(recordings := w.recordings + {r});
    forall k | 0 <= k < |t.disk.submitted|
      ensures FileOk(t.disk.submitted[k], t)
    {
      assert FileOk(w.disk.submitted[k], w);
    }
  }

  lemma {:induction false} StopsStayOk(sent: seq<Msg>, cid: nat, endings: set<Ending>, more: set<Ending>)
    requires StopsComplete(sent, cid, endings) && endings <= more
    ensures StopsComplete(sent, cid, more)
  {
    forall i | 0 <= i < |sent| && sent[i] == MicStop
      ensures StopOk(sent[..i], cid, more)
    {
      assert StopOk(sent[..i], cid, endings);
    }
  }

  lemma {:induction false} MoreEndings(w: World, e: Ending)
    requires GatewayOk(w)
    ensures GatewayOk(w.(endings := w.endings + {e}))
  {
    var t := w.(endings := w.endings + {e});
    forall c | 0 <= c < |t.links|
      ensures LinkOk(t.links[c], c, t.disk, t.endings)
    {
      assert LinkOk(w.links[c], c, w.disk, w.endings);
      StopsStayOk(w.links[c].sent, c, w.endings, t.endings);
    }
    forall k | 0 <= k < |t.disk.submitted|
      ensures FileOk(t.disk.submitted[k], t)
    {
      assert FileOk(w.disk.submitted[k], w);
    }
  }

  lemma {:induction false} ButtonKeepsInv(w: World, input: Input)
    requires Inv(w)
    ensures Inv(ButtonHandled(w, input))
  {
    var t := ButtonHandled(w, input);
    ButtonKeepsOk(w.dev, input);
    GatewayIgnoresDevice(w, t.dev, w.link);
    if w.dev.upload == Idle {
      assert t.dev.upload == Idle || t.dev.upload == Start;
      MoreRecordings(w.(dev := t.dev), FlashBytes(t.dev));
    } else {
      PendingUploadIsUntouched(w.dev, input, false, false);
    }
  }

  lemma {:induction false} NewLinkOk(hello: Option<bool>, c: nat, disk: Disk, endings: set<Ending>)
    requires forall f :: f in disk.files ==> f.cid < c
    ensures var sent := if hello.Some? then [Identify(hello.value)] else [];
            LinkOk(Link(sent, 0, NewSession(c)), c, disk, endings) && Pending(sent) == None && Starts(sent) == 0
  {
    assert Pending([]) == None && Starts([]) == 0;
    if hello.Some? {
      HistorySnoc([], Identify(hello.value));
      assert [] + [Identify(hello.value)] == [Identify(hello.value)];
    }
    var sent := if hello.Some? then [Identify(hello.value)] else [];
    assert sent[..0] == [];
  }

  lemma {:induction false} ConnectKeepsInv(w: World, hello: Option<bool>)
    requires Inv(w) && w.link.None?
    ensures Inv(Step(w, Connect(hello)))
  {
    hide LinkOk, Pending, Starts, DevOk, Holds;
    var t := Step(w, Connect(hello));
    NewLinkOk(hello, |w.links|, w.disk, w.endings);
    forall k | 0 <= k < |t.disk.submitted|
      ensures FileOk(t.disk.submitted[k], t)
    {
      assert FileOk(w.disk.submitted[k], w);
    }
  }

  // ---- delivering ----

  lemma {:induction false} DeliverKeepsLinks(w: World, cid: nat)
    requires GatewayOk(w) && Enabled(w, Deliver(cid))
    ensures var t := Delivered(w, cid);
            && (forall c :: 0 <= c < |t.links| ==> LinkOk(t.links[c], c, t.disk, t.endings))
            && (forall f :: f in t.disk.files ==> f.cid < |t.links|)
  {
    var t := Delivered(w, cid);
    var l := w.links[cid];
    var h, m := l.sent[..l.delivered], l.sent[l.delivered];
    assert LinkOk(l, cid, w.disk, w.endings);
    assert h + [m] == l.sent[..l.delivered + 1];
    HandleFollows(l.session, w.disk, h, m);
    forall c | 0 <= c < |t.links|
      ensures LinkOk(t.links[c], c, t.disk, t.endings)
    {
      if c != cid {
        assert LinkOk(w.links[c], c, w.disk, w.endings);
        OtherSessionFollows(w.links[c].session, l.session, w.disk, w.links[c].sent[..w.links[c].delivered], m);
      }
    }
  }

  lemma {:induction false} OtherSessionFollows(other: Session, s: Session, disk: Disk, h: seq<Msg>, m: Msg)
    requires Follows(other, disk, h) && other.cid != s.cid
    requires s.file.Some? ==> s.file.value.cid == s.cid
    ensures Follows(other, Handle(s, disk, m).1, h)
  {
    var (t, after) := Handle(s, disk, m);
    if other.file.Some? {
      HandleFrame(s, disk, m, other.file.value);
    }
    forall n | n > other.number
      ensures FileId(other.cid, n) !in after.files
    {
      HandleFrame(s, disk, m, FileId(other.cid, n));
    }
  }

  /** Submitted files are not touched by a delivery. */
  lemma {:induction false} DeliverKeepsFile(w: World, cid: nat, f: FileId)
    requires GatewayOk(w) && Enabled(w, Deliver(cid)) && FileOk(f, w)
    ensures var t := Delivered(w, cid); FileOk(f, t) && t.disk.files[f] == w.disk.files[f]
  {
    var l := w.links[cid];
    assert LinkOk(l, cid, w.disk, w.endings);
    HandleFrame(l.session, w.disk, l.sent[l.delivered], f);
  }

  lemma {:induction false} InSubmitted(w: World, f: FileId)
    requires GatewayOk(w)
    ensures f in w.disk.submitted ==> FileOk(f, w)
  {
  }

  /** On a connection of this device the open file holds the decoding of the pending bytes. */
  lemma {:induction false} OpenHolds(l: Link, cid: nat, disk: Disk, endings: set<Ending>)
    requires LinkOk(l, cid, disk, endings)
    ensures var h := l.sent[..l.delivered];
            l.session.open <==> Pending(h).Some?
    ensures var h := l.sent[..l.delivered];
            Pending(h).Some? ==> l.session.file == Some(FileId(cid, Starts(h)))
                                 && Content(disk, FileId(cid, Starts(h))) == PcmBytes(Pending(h).value)
  {
    var h := l.sent[..l.delivered];
    if Pending(h).Some? {
      assert AllMulaw(h);
      if Starts(h) == 0 {
        NoStartsNothingPending(h);
      }
      MulawCodec(h);
    }
  }

  lemma {:induction false} DeliveredHolds(w: World, cid: nat)
    requires GatewayOk(w) && Enabled(w, Deliver(cid)) && w.links[cid].sent[w.links[cid].delivered] == MicStop
    requires w.links[cid].session.file.Some? && Content(w.disk, w.links[cid].session.file.value) != []
    ensures w.links[cid].session.open
    ensures Holds(Content(w.disk, w.links[cid].session.file.value), w.links[cid].session.file.value, w.endings)
  {
    var l := w.links[cid];
    assert LinkOk(l, cid, w.disk, w.endings);
    var h := l.sent[..l.delivered];
    assert StopOk(h, cid, w.endings);
    OpenHolds(l, cid, w.disk, w.endings);
    hide LinkOk, PcmBytes, AllMulaw, StopsComplete;
    if Pending(h).Some? {
      var e :| e in w.endings && e.file == FileId(cid, Starts(h)) && e.at <= |e.flash|
               && Pending(h).value == e.flash[..e.at];
      assert Content(w.disk, l.session.file.value) == PcmBytes(e.flash[..e.at]);
    }
  }

  /** What a delivered mic_stop submits is what an upload had read, and no file is submitted twice. */
  lemma {:induction false} DeliverSubmits(w: World, cid: nat)
    requires GatewayOk(w) && Enabled(w, Deliver(cid))
    ensures var t := Delivered(w, cid);
            var s := w.links[cid].session;
            t.disk.submitted == w.disk.submitted
            || (s.open && t.disk.submitted == w.disk.submitted + [s.file.value]
                && FileOk(s.file.value, t) && s.file.value !in w.disk.submitted)
  {
    var t := Delivered(w, cid);
    var l := w.links[cid];
    var s := l.session;
    assert LinkOk(l, cid, w.disk, w.endings);
    if t.disk.submitted != w.disk.submitted {
      assert l.sent[l.delivered] == MicStop;
      var f := s.file.value;
      InSubmitted(w, f);
      DeliveredHolds(w, cid);
    }
  }

  lemma {:induction false} DeliverKeepsInv(w: World, cid: nat)
    requires Inv(w) && Enabled(w, Deliver(cid))
    ensures Inv(Delivered(w, cid))
  {
    var t := Delivered(w, cid);
    DeliverKeepsLinks(w, cid);
    DeliverSubmits(w, cid);
    forall k | 0 <= k < |t.disk.submitted|
      ensures FileOk(t.disk.submitted[k], t)
    {
      if k < |w.disk.submitted| {
        assert FileOk(w.disk.submitted[k], w);
        DeliverKeepsFile(w, cid, w.disk.submitted[k]);
      }
    }
  }

  lemma {:induction false} ChatterKeepsInv(w: World)
    requires Inv(w) && Enabled(w, Chatter)
    ensures Inv(Step(w, Chatter))
  {
    SendKeepsGateway(w, w.link.value, Other);
    HistorySnoc(w.links[w.link.value].sent, Other);
  }

  lemma {:induction false} OtaKeepsInv(w: World, rebooted: bool)
    requires Inv(w)
    ensures Inv(Step(w, Ota(rebooted)))
  {
    OthersKeepOk(w.dev, rebooted, false, false);
    GatewayIgnoresDevice(w, OtaPass(w.dev, rebooted), if rebooted then None else w.link);
  }

  lemma {:induction false} MicTestKeepsInv(w: World, asked: bool, over: bool, starts: bool)
    requires Inv(w)
    ensures Inv(Step(w, MicTest(asked, over, starts)))
  {
    var d := if asked then w.dev.(micTest := true) else w.dev;
    OthersKeepOk(d, false, over, starts);
    GatewayIgnoresDevice(w, MicTestPass(d, over, starts), w.link);
  }

  lemma {:induction false} DropKeepsInv(w: World)
    requires Inv(w)
    ensures Inv(w.(link := None))
  {
    GatewayIgnoresDevice(w, w.dev, None);
  }

  lemma {:induction false} StepKeepsInv(w: World, a: Action)
    requires Inv(w) && Enabled(w, a)
    ensures Inv(Step(w, a))
  {
    hide Inv;
    match a
    case Connect(hello) => ConnectKeepsInv(w, hello);
    case Drop => DropKeepsInv(w);
    case Chatter => ChatterKeepsInv(w);
    case Upload(net, leaked) => UploadKeepsInv(w, net, leaked);
    case Button(input) => ButtonKeepsInv(w, input);
    case Ota(rebooted) => OtaKeepsInv(w, rebooted);
    case MicTest(asked, over, starts) => MicTestKeepsInv(w, asked, over, starts);
    case Deliver(cid) => DeliverKeepsInv(w, cid);
  }

  // ---- runs ----

  ghost predicate IsRun(states: seq<World>, actions: seq<Action>) {
    && |states| == |actions| + 1 && states[0] == InitialWorld(states[0].dev.flash)
    && forall i :: 0 <= i < |actions| ==> Enabled(states[i], actions[i]) && states[i + 1] == Step(states[i], actions[i])
  }

  lemma {:induction false} RunKeepsInv(states: seq<World>, actions: seq<Action>, k: nat)
    requires IsRun(states, actions) && k < |states|
    ensures Inv(states[k])
  {
    if k > 0 {
      RunKeepsInv(states, actions, k - 1);
      StepKeepsInv(states[k - 1], actions[k - 1]);
    }
  }

  lemma {:induction false} StepKeepsSubmitted(w: World, a: Action)
    requires Inv(w) && Enabled(w, a)
    ensures var t := Step(w, a);
            w.disk.submitted <= t.disk.submitted
            && forall f :: f in w.disk.submitted ==> Content(t.disk, f) == Content(w.disk, f)
  {
    if a.Deliver? {
      DeliverSubmits(w, a.cid);
      forall f | f in w.disk.submitted
        ensures Content(Step(w, a).disk, f) == Content(w.disk, f)
      {
        InSubmitted(w, f);
        DeliverKeepsFile(w, a.cid, f);
      }
    }
  }

  lemma {:induction false} SubmittedStays(states: seq<World>, actions: seq<Action>, i: nat, j: nat, f: FileId)
    requires IsRun(states, actions) && i <= j < |states| && f in states[i].disk.submitted
    ensures f in states[j].disk.submitted && Content(states[j].disk, f) == Content(states[i].disk, f)
  {
    hide Step, Enabled, Inv;
    if i < j {
      SubmittedStays(states, actions, i, j - 1, f);
      RunKeepsInv(states, actions, j - 1);
      StepKeepsSubmitted(states[j - 1], actions[j - 1]);
    }
  }

  /**
   The step in which the upload of a file got to its mic_stop, on the file's own connection and recording number.
   */
  ghost predicate SentStop(states: seq<World>, actions: seq<Action>, j: nat, f: FileId)
    requires j < |states| && j < |actions|
  {
    && actions[j].Upload? && UploadPass(states[j].dev, actions[j].net).1 == Some(MicStop)
    && states[j].link == Some(f.cid) && f.cid < |states[j].links|
    && f.number == Starts(states[j].links[f.cid].sent)
  }

  lemma {:induction false} EndingsHappened(states: seq<World>, actions: seq<Action>, i: nat, e: Ending)
      returns (j: nat)
    requires IsRun(states, actions) && i < |states| && e in states[i].endings
    ensures j < i && SentStop(states, actions, j, e.file)
    ensures e == EndingOn(states[j].dev, e.file.cid, states[j].links[e.file.cid].sent)
  {
    if e in states[i - 1].endings {
      j := EndingsHappened(states, actions, i - 1, e);
    } else {
      j := i - 1;
      NewEnding(states[j], actions[j], e);
    }
  }

  lemma {:induction false} NewEnding(w: World, a: Action, e: Ending)
    requires Enabled(w, a) && e in Step(w, a).endings && e !in w.endings
    ensures a.Upload? && UploadPass(w.dev, a.net).1 == Some(MicStop) && w.link.Some? && w.link.value < |w.links|
    ensures e == EndingOn(w.dev, w.link.value, w.links[w.link.value].sent)
  {
    hide UploadPass, ButtonPass, Handle;
  }

  /**
   No duplicated or reordered audio is ever submitted: in every run, a file handed to the orchestrator was ended
   by a mic_stop on its own connection, and holds from then on the mu-law decoding of what that upload had read
   of the flash file of that moment, from its beginning, each byte once and in order. The flash file was a whole
   recording, and the file is handed over once.
   */
  lemma {:induction false} SubmittedIsWhatWasRead(states: seq<World>, actions: seq<Action>, i: nat, k: nat, f: FileId)
      returns (j: nat, at: nat)
    requires IsRun(states, actions) && i <= k < |states| && f in states[i].disk.submitted
    ensures j < i && SentStop(states, actions, j, f)
    ensures states[j].dev.upload == Stop && states[j].dev.uploadAt == Some(at) && at <= |FlashBytes(states[j].dev)|
    ensures FlashBytes(states[j].dev) in states[j].recordings
    ensures Content(states[k].disk, f) == PcmBytes(FlashBytes(states[j].dev)[..at])
    ensures multiset(states[k].disk.submitted)[f] == 1
  {
    SubmittedStays(states, actions, i, k, f);
    RunKeepsInv(states, actions, i);
    InSubmitted(states[i], f);
    var e :| e in states[i].endings && e.file == f && e.at <= |e.flash|
             && states[i].disk.files[f] == PcmBytes(e.flash[..e.at]);
    j := EndingsHappened(states, actions, i, e);
    at := e.at;
    RunKeepsInv(states, actions, j);
    StopHasPosition(states[j].dev, actions[j].net);
    RunKeepsInv(states, actions, k);
    OnceIn(states[k].disk.submitted, f);
  }

  lemma {:induction false} StopHasPosition(d: Dev, net: Net)
    requires DevOk(d) && UploadPass(d, net).1 == Some(MicStop)
    ensures d.upload == Stop && d.uploadAt.Some?
  {
  }

  // ---- whole or cut short ----

  /** An upload in STOP got there by a read of nothing, since when its file and position have not changed. */
  ghost predicate StoppedBy(states: seq<World>, actions: seq<Action>, r: nat, j: nat)
    requires r < j < |states| && j <= |actions|
  {
    && actions[r].Upload? && states[r].dev.upload == Data
    && (forall x :: r < x <= j ==> states[x].dev.upload == Stop && states[x].dev.flash == states[r].dev.flash
                                   && states[x].dev.uploadAt == states[r].dev.uploadAt)
  }

  lemma {:induction false} StepToStop(w: World, a: Action)
    requires Inv(w) && Enabled(w, a) && Step(w, a).dev.upload == Stop
    ensures var d, e := w.dev, Step(w, a).dev;
            e.flash == d.flash && e.uploadAt == d.uploadAt
            && (d.upload != Stop ==>
                  a.Upload? && d.upload == Data && (d.uploadAt.value < |FlashBytes(d)| <==> EmptyRead(d, a.net)))
  {
    hide Handle, GatewayOk;
    match a
    case Button(input) =>
      ButtonKeepsOk(w.dev, input);
      ButtonNeverStops(w.dev, input);
    case Upload(net, _) =>
      StopOrNot(w.dev, net);
    case MicTest(asked, over, starts) =>
    case _ =>
  }

  lemma {:induction false} StopOrNot(d: Dev, net: Net)
    requires DevOk(d) && UploadPass(d, net).0.upload == Stop
    ensures if d.upload == Stop then UploadPass(d, net).0 == d
            else d.upload == Data && UploadPass(d, net).0 == d.(upload := Stop)
                 && (d.uploadAt.value < |FlashBytes(d)| <==> EmptyRead(d, net))
  {
    if d.upload != Stop {
      StopsAtNothing(d, net);
    }
  }

  lemma {:induction false} ButtonNeverStops(d: Dev, input: Input)
    requires DevOk(d) && ButtonPass(d, input).upload == Stop
    ensures d.upload == Stop && ButtonPass(d, input).flash == d.flash && ButtonPass(d, input).uploadAt == d.uploadAt
  {
    if d.upload != Idle {
      PendingUploadIsUntouched(d, input, false, false);
    }
  }

  /** The read that ended the upload now in STOP; it left bytes unread iff it came back empty early. */
  lemma {:induction false} LastRead(states: seq<World>, actions: seq<Action>, j: nat) returns (r: nat)
    requires IsRun(states, actions) && j < |states| && states[j].dev.upload == Stop
    ensures r < j && StoppedBy(states, actions, r, j)
    ensures states[r].dev.uploadAt.Some?
    ensures states[r].dev.uploadAt.value < |FlashBytes(states[r].dev)| <==> EmptyRead(states[r].dev, actions[r].net)
  {
    hide Step, Enabled;
    RunKeepsInv(states, actions, j - 1);
    StepToStop(states[j - 1], actions[j - 1]);
    if states[j - 1].dev.upload == Stop {
      r := LastRead(states, actions, j - 1);
    } else {
      r := j - 1;
    }
  }

  /**
   A submitted file is the whole recording iff the read that ended its upload did not come back empty early; an
   upload has no other read of nothing, because the first one ends it.
   */
  lemma {:induction false} SubmittedIsWholeIff(states: seq<World>, actions: seq<Action>, i: nat, k: nat, f: FileId)
      returns (r: nat, j: nat)
    requires IsRun(states, actions) && i <= k < |states| && f in states[i].disk.submitted
    ensures r < j < i && StoppedBy(states, actions, r, j)
    ensures SentStop(states, actions, j, f)
    ensures FlashBytes(states[j].dev) in states[j].recordings
    ensures Content(states[k].disk, f) == PcmBytes(FlashBytes(states[j].dev)) <==> !EmptyRead(states[r].dev, actions[r].net)
  {
    var at;
    j, at := SubmittedIsWhatWasRead(states, actions, i, k, f);
    r := LastRead(states, actions, j);
    assert states[j].dev.flash == states[r].dev.flash && states[j].dev.uploadAt == states[r].dev.uploadAt;
    WholeIffAll(FlashBytes(states[j].dev), at);
  }

  lemma {:induction false} WholeIffAll(flash: seq<byte>, at: nat)
    requires at <= |flash|
    ensures PcmBytes(flash[..at]) == PcmBytes(flash) <==> at == |flash|
  {
    assert flash[..|flash|] == flash;
    assert |PcmBytes(flash[..at])| == 2 * at && |PcmBytes(flash)| == 2 * |flash|;
  }

  /**
   So on a device whose flash reads never come back empty early, no truncated audio is ever submitted: every
   file handed to the orchestrator is the decoding of the whole recording that was in flash at its mic_stop.
   */
  lemma {:induction false} SubmittedIsWhole(states: seq<World>, actions: seq<Action>, i: nat, k: nat, f: FileId)
      returns (j: nat)
    requires IsRun(states, actions) && i <= k < |states| && f in states[i].disk.submitted
    requires forall x :: 0 <= x < |actions| && actions[x].Upload? ==> !EmptyRead(states[x].dev, actions[x].net)
    ensures j < i && SentStop(states, actions, j, f)
    ensures Content(states[k].disk, f) == PcmBytes(FlashBytes(states[j].dev))
    ensures FlashBytes(states[j].dev) in states[j].recordings
  {
    var r;
    r, j := SubmittedIsWholeIff(states, actions, i, k, f);
  }

  lemma {:induction false} OnceIn(q: seq<FileId>, f: FileId)
    requires f in q && forall j, k :: 0 <= j < k < |q| ==> q[j] != q[k]
    ensures multiset(q)[f] == 1
  {
    var last, rest := q[|q| - 1], q[..|q| - 1];
    assert q == rest + [last];
    if last == f {
      assert f !in rest;
    } else {
      OnceIn(rest, f);
    }
  }

  /** What `recordings` means: each was the whole flash file at the moment a recording ended. */
  lemma {:induction false} RecordingsWereInFlash(states: seq<World>, actions: seq<Action>, j: nat, r: seq<byte>)
      returns (i: nat)
    requires IsRun(states, actions) && j < |states| && r in states[j].recordings
    ensures i < j && states[i].dev.upload == Idle && states[i + 1].dev.upload == Start
    ensures states[i + 1].dev.flash == Some(r) && !states[i + 1].dev.btnHeld
  {
    if r in states[j - 1].recordings {
      i := RecordingsWereInFlash(states, actions, j - 1, r);
    } else {
      i := j - 1;
      RunKeepsInv(states, actions, i);
      RecordingEnds(states[i].dev, actions[i].input);
    }
  }

  lemma {:induction false} RecordingEnds(d: Dev, input: Input)
    requires DevOk(d) && d.upload == Idle && ButtonPass(d, input).upload != Idle
    ensures var e := ButtonPass(d, input); !e.btnHeld && e.upload == Start && e.flash == Some(FlashBytes(e))
  {
    ButtonKeepsOk(d, input);
  }

  /** The flash copy of a pending recording is removed only by its accepted mic_stop. */
  lemma {:induction false} FlashKeptUntilAccepted(states: seq<World>, actions: seq<Action>, k: nat)
    requires IsRun(states, actions) && k < |actions|
    requires states[k].dev.upload != Idle && states[k + 1].dev.flash != states[k].dev.flash
    ensures actions[k].Upload? && actions[k].net.sendOk && states[k].dev.upload == Stop
    ensures states[k].link.Some? && states[k + 1].links
            == Sent(states[k].links, states[k].link.value, MicStop)
  {
    RunKeepsInv(states, actions, k);
    var w, a := states[k], actions[k];
    if a.Button? {
      PendingUploadIsUntouched(w.dev, a.input, false, false);
    } else if a.MicTest? {
      PendingUploadIsUntouched(if a.asked then w.dev.(micTest := true) else w.dev,
                               Input(false, false, 0, 0, false, false, [], []), a.over, a.i2sStarts);
    } else if a.Upload? {
      RemovedOnlyAfterStop(w.dev, a.net);
    }
  }

  /**
   And an upload that stayed on one identified connection is submitted when its mic_stop is delivered, unless
   empty.
   */
  lemma {:induction false} DeliveredStopSubmits(w: World, cid: nat)
    requires Inv(w) && Enabled(w, Deliver(cid))
    requires var l := w.links[cid];
             && l.sent[l.delivered] == MicStop && l.session.canary && Pending(l.sent[..l.delivered]).Some?
    ensures var l, t := w.links[cid], Delivered(w, cid);
            var bytes := Pending(l.sent[..l.delivered]).value;
            if bytes == [] then t.disk.submitted == w.disk.submitted
            else |t.disk.submitted| == |w.disk.submitted| + 1
                 && Content(t.disk, t.disk.submitted[|w.disk.submitted|]) == PcmBytes(bytes)
  {
    var l := w.links[cid];
    assert LinkOk(l, cid, w.disk, w.endings);
    OpenHolds(l, cid, w.disk, w.endings);
    PcmEmptyIff(Pending(l.sent[..l.delivered]).value);
    hide LinkOk, PcmBytes;
  }

  lemma {:induction false} PcmEmptyIff(bytes: seq<byte>)
    ensures PcmBytes(bytes) == [] <==> bytes == []
  {
    assert |PcmBytes(bytes)| == 2 * |bytes|;
  }
}
