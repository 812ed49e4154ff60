/**
 The gateway's WebSocket handler: per-connection audio state, one PCM file per mic_start, and the
 submission of a finished file to the orchestrator.
 */
module Gateway {
  import opened Basics
  import opened MuLaw

  /** What a device sends. `canary` stands for the one MAC address that is routed to the orchestrator. */
  datatype Msg = Identify(canary: bool) | MicStart(mulaw: bool) | Audio(bytes: seq<byte>) | MicStop | Other

  /** A file name: the connection it belongs to and the number of the recording on it. */
  datatype FileId = FileId(cid: nat, number: nat)

  datatype Session = Session(cid: nat, open: bool, file: Option<FileId>, mulaw: bool, number: nat, canary: bool)

  /** The audio files, and the files handed to the orchestrator, in order. */
  datatype Disk = Disk(files: map<FileId, seq<byte>>, submitted: seq<FileId>)

  function NewSession(cid: nat): Session {
    Session(cid, false, None, false, 0, false)
  }

  function Content(disk: Disk, file: FileId): seq<byte> {
    if file in disk.files then disk.files[file] else []
  }

  function Handle(s: Session, disk: Disk, msg: Msg): (Session, Disk) {
    match msg
    case Identify(canary) => (s.(canary := canary), disk)
    case MicStart(mulaw) =>
      var file := FileId(s.cid, s.number + 1);
      (s.(open := true, file := Some(file), mulaw := mulaw, number := s.number + 1),
       disk.(files := disk.files[file := Content(disk, file)]))
    case Audio(bytes) =>
      if !s.open || s.file.None? then (s, disk)
      else
        var file := s.file.value;
        (s, disk.(files := disk.files[file := Content(disk, file) + if s.mulaw then PcmBytes(bytes) else bytes]))
    case MicStop =>
      (s.(open := false),
       if s.file.Some? && Content(disk, s.file.value) != [] && s.canary then
         disk.(submitted := disk.submitted + [s.file.value])
       else disk)
    case Other => (s, disk)
  }

  class AudioStore {
    var files: map<FileId, seq<byte>>
    var submitted: seq<FileId>

    ghost function View(): Disk
      reads this
    {
      Disk(files, submitted)
    }

    constructor ()
      ensures View() == Disk(map[], [])
    {
      files, submitted := map[], [];
    }

    /** open(name, "ab") then write: creates the file, or adds to what is there */
    method Append(file: FileId, bytes: seq<byte>)
      modifies this`files
      ensures files == old(files)[file := Content(old(View()), file) + bytes]
    {
      files := files[file := (if file in files then files[file] else []) + bytes];
    }
  }

  /** The handler of one connection. */
  class Handler {
    const cid: nat
    const store: AudioStore
    var audioOpen: bool
    var audioFile: Option<FileId>
    var audioMulaw: bool
    var recordingNumber: nat
    var canary: bool

    ghost function View(): Session
      reads this
    {
      Session(cid, audioOpen, audioFile, audioMulaw, recordingNumber, canary)
    }

    constructor (cid: nat, store: AudioStore)
      ensures View() == NewSession(cid) && this.store == store
    {
      this.cid, this.store := cid, store;
      audioOpen, audioFile, audioMulaw, recordingNumber, canary := false, None, false, 0, false;
    }

    method OnMessage(msg: Msg)
      modifies this, store
      ensures (View(), store.View()) == Handle(old(View()), old(store.View()), msg)
    {
      match msg
      case Identify(c) =>
        canary := c;
      case MicStart(mulaw) =>
        recordingNumber := recordingNumber + 1;
        audioMulaw := mulaw;
        audioFile := Some(FileId(cid, recordingNumber));
        store.Append(audioFile.value, []);
        audioOpen := true;
        assert Content(old(store.View()), audioFile.value) + [] == Content(old(store.View()), audioFile.value);
      case Audio(bytes) =>
        if !audioOpen || audioFile.None? {
          return;
        }
        if audioMulaw {
          var pcm := MulawToPcm16(bytes);
          store.Append(audioFile.value, pcm[..]);
        } else {
          store.Append(audioFile.value, bytes);
        }
      case MicStop =>
        audioOpen := false;
        var size := if audioFile.Some? && audioFile.value in store.files then |store.files[audioFile.value]| else 0;
        if size > 0 && canary {
          store.submitted := store.submitted + [audioFile.value];
        }
      case Other =>
    }
  }

  // ---- what a connection's history means ----

  /** The mu-law bytes since the last mic_start, while that recording is open. */
  function Pending(h: seq<Msg>): Option<seq<byte>> {
    if h == [] then None
    else
      var before := Pending(h[..|h| - 1]);
      match h[|h| - 1]
      case MicStart(_) => Some([])
      case MicStop => None
      case Audio(bytes) => if before.Some? then Some(before.value + bytes) else None
      case _ => before
  }

  function Starts(h: seq<Msg>): nat {
    if h == [] then 0 else Starts(h[..|h| - 1]) + if h[|h| - 1].MicStart? then 1 else 0
  }

  /** The codec of the last mic_start, raw 16-bit samples if there was none. */
  function Codec(h: seq<Msg>): bool {
    if h == [] then false else if h[|h| - 1].MicStart? then h[|h| - 1].mulaw else Codec(h[..|h| - 1])
  }

  /** What the last identify said; a connection without one is not routed. */
  function Identified(h: seq<Msg>): bool {
    if h == [] then false else if h[|h| - 1].Identify? then h[|h| - 1].canary else Identified(h[..|h| - 1])
  }

  function Decoded(mulaw: bool, bytes: seq<byte>): seq<byte> {
    if mulaw then PcmBytes(bytes) else bytes
  }

  ghost predicate AllMulaw(h: seq<Msg>) {
    forall i :: 0 <= i < |h| && h[i].MicStart? ==> h[i].mulaw
  }

  lemma {:induction false} MulawCodec(h: seq<Msg>)
    requires AllMulaw(h) && Starts(h) > 0
    ensures Codec(h)
  {
    if !h[|h| - 1].MicStart? {
      MulawCodec(h[..|h| - 1]);
    }
  }

  lemma {:induction false} HistorySnoc(h: seq<Msg>, m: Msg)
    ensures Starts(h + [m]) == Starts(h) + if m.MicStart? then 1 else 0
    ensures Pending(h + [m]) == match m
                                case MicStart(_) => Some([])
                                case MicStop => None
                                case Audio(bytes) => if Pending(h).Some? then Some(Pending(h).value + bytes) else None
                                case _ => Pending(h)
    ensures Codec(h + [m]) == (if m.MicStart? then m.mulaw else Codec(h))
    ensures Identified(h + [m]) == (if m.Identify? then m.canary else Identified(h))
  {
    assert (h + [m])[..|h|] == h;
  }

  lemma {:induction false} NoStartsNothingPending(h: seq<Msg>)
    requires Starts(h) == 0
    ensures Pending(h) == None
  {
    if h != [] {
      NoStartsNothingPending(h[..|h| - 1]);
    }
  }

  /** The handler's state after a history: what the history means, file for file. */
  ghost predicate Follows(s: Session, disk: Disk, h: seq<Msg>) {
    && s.number == Starts(h) && (s.open <==> Pending(h).Some?)
    && s.file == (if s.number == 0 then None else Some(FileId(s.cid, s.number)))
    && s.mulaw == Codec(h) && s.canary == Identified(h)
    && (s.open ==> s.file.Some? && Content(disk, s.file.value) == Decoded(Codec(h), Pending(h).value))
    && (forall n :: n > s.number ==> FileId(s.cid, n) !in disk.files)
  }

  /** The handler refines the history: each message moves the files exactly as it moves the meaning. */
  lemma {:induction false} HandleFollows(s: Session, disk: Disk, h: seq<Msg>, m: Msg)
    requires Follows(s, disk, h)
    ensures var (t, after) := Handle(s, disk, m); Follows(t, after, h + [m]) && t.cid == s.cid
  {
    HistorySnoc(h, m);
    if Starts(h) == 0 {
      NoStartsNothingPending(h);
    }
    match m
    case Audio(bytes) =>
      if s.open {
        PcmBytesAppend(Pending(h).value, bytes);
      }
    case MicStart(_) =>
      assert PcmBytes([]) == [];
    case _ =>
  }

  /** A message changes no file but the one that is current after it, and that one only while it is open. */
  lemma {:induction false} HandleFrame(s: Session, disk: Disk, m: Msg, file: FileId)
    ensures var (t, after) := Handle(s, disk, m);
            !(t.open && t.file == Some(file)) ==>
              (file in after.files <==> file in disk.files) && Content(after, file) == Content(disk, file)
  {
  }

  /**
   A submission is made by a mic_stop, of a connection whose last identify was the routed device's, for its last
   recording, if that file is not empty; and by nothing else.
   */
  lemma {:induction false} SubmitsIff(s: Session, disk: Disk, h: seq<Msg>, m: Msg)
    requires Follows(s, disk, h)
    ensures var file := FileId(s.cid, Starts(h));
            Handle(s, disk, m).1.submitted
            == if m == MicStop && Identified(h) && Starts(h) > 0 && Content(disk, file) != [] then disk.submitted + [file]
               else disk.submitted
  {
  }
}
