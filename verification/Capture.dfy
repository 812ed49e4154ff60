/**
 Recording on the device: I2S blocks of any size are gained, saturated, mu-law encoded, collected in a
 1 KB buffer and written to flash. The file does not depend on how the samples arrive.
 */
module Capture {
  import opened Basics
  import opened MuLaw

  const BUFFER_BYTES := 1024
  const BLOCK_SAMPLES := 512
  const STARTUP_SAMPLES := 4096

  /** A file open for writing. A write may be short unless the flash is reliable. */
  class FlashFile {
    var contents: seq<byte>
    const reliable: bool

    constructor (reliable: bool)
      ensures contents == [] && this.reliable == reliable
    {
      this.contents := [];
      this.reliable := reliable;
    }

    method Write(data: array<byte>, count: nat) returns (written: nat)
      requires count <= data.Length
      modifies this`contents
      ensures written <= count && contents == old(contents) + data[..written]
      ensures reliable ==> written == count
    {
      if reliable {
        written := count;
      } else {
        written :| 0 <= written <= count;
      }
      contents := contents + data[..written];
    }
  }

  /** One raw I2S slot: drop the 14 low bits, then saturate to 16 bits. */
  function Gain(slot: int32): (pcm: int16) {
    var s := slot / 0x4000;
    if s > 0x7FFF then 0x7FFF else if s < -0x8000 then -0x8000 else s
  }

  /** What the gain is, slot by slot: 16384 slot steps to one sample step, rounded down, saturated at 16 bits. */
  lemma {:induction false} GainIs(slot: int32)
    ensures var g: int := Gain(slot);
            if slot >= 0x2000_0000 then g == 32767
            else if slot < -0x2000_0000 then g == -32768
            else g * 16384 <= slot < (g + 1) * 16384
  {
  }

  function GainAll(raw: seq<int32>): (pcm: seq<int16>)
    ensures |pcm| == |raw|
  {
    seq(|raw|, i requires 0 <= i < |raw| => Gain(raw[i]))
  }

  /** The recording of a raw stream: all of it but the first 256 ms, gained and encoded. */
  function Recorded(raw: seq<int32>): seq<byte> {
    EncodeAll(GainAll(raw[Min(STARTUP_SAMPLES, |raw|)..]))
  }

  /** What a block adds to the recording of the stream before it. */
  lemma {:induction false} RecordedAppend(raw: seq<int32>, block: seq<int32>)
    ensures var left := STARTUP_SAMPLES - Min(STARTUP_SAMPLES, |raw|);
            Recorded(raw + block) == Recorded(raw) + EncodeAll(GainAll(block[Min(left, |block|)..]))
  {
    var left := STARTUP_SAMPLES - Min(STARTUP_SAMPLES, |raw|);
    var kept := block[Min(left, |block|)..];
    var before := raw[Min(STARTUP_SAMPLES, |raw|)..];
    assert (raw + block)[Min(STARTUP_SAMPLES, |raw + block|)..] == before + kept;
    assert GainAll(before + kept) == GainAll(before) + GainAll(kept);
    EncodeAllAppend(GainAll(before), GainAll(kept));
  }

  function StillToDrop(raw: seq<int32>): nat {
    STARTUP_SAMPLES - Min(STARTUP_SAMPLES, |raw|)
  }

  /** The stream after one block more: what is recorded and what is still to be dropped. */
  lemma {:induction false} BlockAdded(blocks: seq<seq<int32>>, i: nat)
    requires i < |blocks|
    ensures var before, after := Flatten(blocks[..i]), Flatten(blocks[..i + 1]);
            var drop := Min(StillToDrop(before), |blocks[i]|);
            && StillToDrop(after) == StillToDrop(before) - drop
            && Recorded(after) == Recorded(before) + EncodeAll(GainAll(blocks[i][drop..]))
  {
    hide Recorded, EncodeAll, GainAll, Flatten;
    assert blocks[..i + 1] == blocks[..i] + [blocks[i]];
    FlattenAppend(blocks[..i], blocks[i]);
    RecordedAppend(Flatten(blocks[..i]), blocks[i]);
  }

  lemma {:induction false} CounterWraps(length: nat, written: nat)
    ensures (length % 0x1_0000_0000 + written) % 0x1_0000_0000 == (length + written) % 0x1_0000_0000
  {
  }

  class Recorder {
    const encodedAudioBuffer: array<byte>
    const pcmAudioBuffer: array<int16>
    var encodedAudioSamples: nat
    var recordingBytesCaptured: uint32
    var recordingFile: FlashFile?
    var startupSamplesToDrop: nat

    ghost predicate Counted()
      reads this, recordingFile
    {
      && encodedAudioBuffer.Length == BUFFER_BYTES && pcmAudioBuffer.Length == BLOCK_SAMPLES
      && encodedAudioSamples <= BUFFER_BYTES
      && (recordingFile != null ==> recordingBytesCaptured == |recordingFile.contents| % 0x1_0000_0000)
    }

    /** Holds between calls: the buffer always has room, and the counter is the length of the file. */
    ghost predicate Valid()
      reads this, recordingFile
    {
      Counted() && encodedAudioSamples < BUFFER_BYTES
    }

    /** Everything encoded so far: in flash and still in RAM. */
    ghost function Stream(): seq<byte>
      reads this, recordingFile, encodedAudioBuffer
      requires recordingFile != null && Counted()
    {
      recordingFile.contents + encodedAudioBuffer[..encodedAudioSamples]
    }

    constructor ()
      ensures Valid() && recordingFile == null && fresh(encodedAudioBuffer) && fresh(pcmAudioBuffer)
    {
      encodedAudioBuffer := new byte[BUFFER_BYTES](_ => 0);
      pcmAudioBuffer := new int16[BLOCK_SAMPLES](_ => 0);
      encodedAudioSamples, recordingBytesCaptured, startupSamplesToDrop := 0, 0, 0;
      recordingFile := null;
    }

    method FlushAudioBuffer() returns (stored: bool)
      requires Counted()
      modifies this`encodedAudioSamples, this`recordingBytesCaptured, recordingFile
      ensures Valid() && encodedAudioSamples == 0
      ensures recordingFile == null ==> (stored <==> old(encodedAudioSamples) == 0)
      ensures recordingFile != null ==>
                var n := |recordingFile.contents| - |old(recordingFile.contents)|;
                && 0 <= n <= old(encodedAudioSamples)
                && recordingFile.contents == old(recordingFile.contents) + old(encodedAudioBuffer[..])[..n]
                && (stored <==> n == old(encodedAudioSamples))
      ensures recordingFile != null && recordingFile.reliable ==> stored && Stream() == old(Stream())
    {
      if encodedAudioSamples == 0 {
        return true;
      }
      var written := 0;
      if recordingFile != null {
        written := recordingFile.Write(encodedAudioBuffer, encodedAudioSamples);
        assert encodedAudioBuffer[..written] == encodedAudioBuffer[..][..written];
      }
      CounterWraps(if recordingFile == null then 0 else |old(recordingFile.contents)|, written);
      recordingBytesCaptured := (recordingBytesCaptured + written) % 0x1_0000_0000;
      stored := written == encodedAudioSamples;
      encodedAudioSamples := 0;
    }

    method QueueAudioSamples(samples: array<int16>, count: nat)
      requires Valid() && recordingFile != null && count <= samples.Length
      modifies this`encodedAudioSamples, this`recordingBytesCaptured, recordingFile, encodedAudioBuffer
      ensures Valid() && encodedAudioBuffer.Length == 1024 && encodedAudioSamples < 1024
      ensures recordingFile.reliable ==> Stream() == old(Stream()) + EncodeAll(old(samples[..count]))
    {
      ghost var pcm := samples[..count];
      assert EncodeAll([]) == [];
      for i := 0 to count
        invariant Valid() && samples[..count] == pcm
        invariant recordingFile.reliable ==> Stream() == old(Stream()) + EncodeAll(pcm[..i])
      {
        ghost var before := Stream();
        var code := LinearToMuLaw(samples[i]);
        encodedAudioBuffer[encodedAudioSamples] := code;
        encodedAudioSamples := encodedAudioSamples + 1;
        assert Stream() == before + [code];
        assert pcm[..i + 1] == pcm[..i] + [pcm[i]];
        EncodeAllAppend(pcm[..i], [pcm[i]]);
        assert EncodeAll([pcm[i]]) == [code];
        if encodedAudioSamples == encodedAudioBuffer.Length {
          var _ := FlushAudioBuffer();
        }
      }
      assert pcm[..count] == pcm;
    }

    /** One pass of the recording branch of the main loop over the slots of one I2S read. */
    method CaptureBlock(raw: seq<int32>)
      requires Valid() && recordingFile != null && |raw| <= BLOCK_SAMPLES
      modifies this`encodedAudioSamples, this`recordingBytesCaptured, this`startupSamplesToDrop
      modifies recordingFile, encodedAudioBuffer, pcmAudioBuffer
      ensures Valid()
      ensures startupSamplesToDrop == old(startupSamplesToDrop) - Min(old(startupSamplesToDrop), |raw|)
      ensures recordingFile.reliable ==>
                Stream() == old(Stream()) + EncodeAll(GainAll(raw[Min(old(startupSamplesToDrop), |raw|)..]))
    {
      var firstSample := 0;
      if startupSamplesToDrop > 0 && |raw| > 0 {
        firstSample := Min(|raw|, startupSamplesToDrop);
        startupSamplesToDrop := startupSamplesToDrop - firstSample;
      }
      var samples := |raw| - firstSample;
      ghost var kept := raw[firstSample..];
      for i := 0 to samples
        invariant pcmAudioBuffer[..i] == GainAll(kept)[..i]
        invariant Valid() && Stream() == old(Stream())
        invariant startupSamplesToDrop == old(startupSamplesToDrop) - firstSample
      {
        var sample := raw[firstSample + i] / 0x4000;
        if sample > 0x7FFF {
          sample := 0x7FFF;
        }
        if sample < -0x8000 {
          sample := -0x8000;
        }
        pcmAudioBuffer[i] := sample;
        assert kept[i] == raw[firstSample + i];
      }
      assert pcmAudioBuffer[..samples] == GainAll(kept);
      if samples > 0 {
        QueueAudioSamples(pcmAudioBuffer, samples);
      } else {
        assert EncodeAll(GainAll(kept)) == [];
      }
    }

    /** A whole recording: opened on an empty file, fed by any number of reads, flushed and closed. */
    method Record(file: FlashFile, blocks: seq<seq<int32>>)
      requires Valid() && file.contents == []
      requires forall block :: block in blocks ==> |block| <= BLOCK_SAMPLES
      modifies this, encodedAudioBuffer, pcmAudioBuffer, file
      ensures Valid() && recordingFile == null
      ensures file.reliable ==> file.contents == Recorded(Flatten(blocks))
      ensures recordingBytesCaptured == |file.contents| % 0x1_0000_0000
    {
      recordingFile := file;
      recordingBytesCaptured, encodedAudioSamples := 0, 0;
      startupSamplesToDrop := STARTUP_SAMPLES;
      assert Recorded([]) == [] && StillToDrop([]) == STARTUP_SAMPLES;
      hide Recorded, EncodeAll, GainAll, Flatten, StillToDrop;
      assert Flatten(blocks[..0]) == [] by { FlattenNone<int32>(); }
      for i := 0 to |blocks|
        invariant Valid() && recordingFile == file
        invariant startupSamplesToDrop == StillToDrop(Flatten(blocks[..i]))
        invariant file.reliable ==> Stream() == Recorded(Flatten(blocks[..i]))
      {
        BlockAdded(blocks, i);
        CaptureBlock(blocks[i]);
      }
      assert blocks[..|blocks|] == blocks;
      var _ := FlushAudioBuffer();
      assert file.reliable ==> file.contents == Stream();
      recordingFile := null;
    }
  }

  /**
   The recording against the microphone: byte i of the file decodes to within its segment's error, and one step
   of rounding, of raw slot 4096 + i, for every slot that is not clipped; and nothing else is in the file.
   */
  lemma {:induction false} RecordingOfMicrophone(raw: seq<int32>, i: nat)
    requires 4096 + i < |raw| && -32635 * 16384 <= raw[4096 + i] < 32636 * 16384
    ensures var file, slot := PcmBytes(Recorded(raw)), raw[4096 + i];
            |file| == 2 * (|raw| - 4096)
            && var bound: int := Pow2(Segment(Biased(Gain(slot))) + 2);
               -(bound + 1) * 16384 <= FromLittleEndian(file[2 * i], file[2 * i + 1]) * 16384 - slot <= (bound + 1) * 16384
  {
    GainIs(raw[4096 + i]);
    RecordingFidelity(GainAll(raw[STARTUP_SAMPLES..]), i);
  }

  /** A slot beyond the clip level is recorded as the loudest code of its sign. */
  lemma {:induction false} LoudIsClipped(raw: seq<int32>, i: nat)
    requires 4096 + i < |raw|
    ensures raw[4096 + i] >= 32635 * 16384 ==> Recorded(raw)[i] == 0x80
    ensures raw[4096 + i] < -32635 * 16384 + 16384 ==> Recorded(raw)[i] == 0x00
  {
    GainIs(raw[4096 + i]);
    hide Encode, Gain;
    LoudCodes(Gain(raw[4096 + i]));
  }

  /** Up to the first 256 ms nothing is recorded. */
  lemma {:induction false} StartupIsDropped(raw: seq<int32>)
    requires |raw| <= 4096
    ensures Recorded(raw) == []
  {
    assert raw[|raw|..] == [];
  }
}
