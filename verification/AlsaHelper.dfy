/** Capturing a session (recordmgr/src/Util/AlsaHelper.cpp) as the record worker drives it
 * (recordmgr/src/Thread/RecordWorker.cpp): the device handle, the audio buffer, and the saved file.
 * What ALSA and the file system answer is given by the parameters. Times are in nanoseconds. */
module AlsaHelpers {
  import opened Wrappers
  import opened Wav

  const SAMPLE_RATE: Uint32 := 16000
  const FRAMES_PER_PERIOD := 1024
  const FRAME_TIME := 62_500
  const EPIPE := 32

  /** One snd_pcm_readi: its result, the frames it put into the period buffer, and the result of
      snd_pcm_recover, should it be called. */
  datatype ReadResult = ReadResult(r: int, frames: seq<Sample>, recovered: int)

  type Read = x: ReadResult | |x.frames| == FRAMES_PER_PERIOD && x.r <= FRAMES_PER_PERIOD
    witness ReadResult(0, seq(FRAMES_PER_PERIOD, _ => 0), 0)

  /** A result that is no error, an overrun, -32, or an error that is recovered from. */
  predicate Succeeds(x: Read) {
    x.r >= 0 || x.r == -32 || x.recovered >= 0
  }

  function Frames(x: Read): (s: seq<Sample>)
    ensures |s| <= FRAMES_PER_PERIOD
  {
    if x.r >= 0 then x.frames[..x.r] else []
  }

  /** One pass through the capture loop: the duration check, then captureOnce. */
  datatype Pass = Pass(checkedAt: int, read: Read, readAt: int)

  /** All frames of the passes, in order. */
  function Captured(passes: seq<Pass>): seq<Sample>
    decreases |passes|
  {
    if passes == [] then [] else Captured(passes[..|passes| - 1]) + Frames(passes[|passes| - 1].read)
  }

  predicate AllSucceed(passes: seq<Pass>) {
    forall i | 0 <= i < |passes| :: Succeeds(passes[i].read)
  }

  /** The results of the calls that configure an opened device, negative for an error. */
  datatype Setup = Setup(any: int, access: int, format: int, rate: int, channels: int, params: int, prepare: int)

  predicate Configured(s: Setup) {
    s.any >= 0 && s.access >= 0 && s.format >= 0 && s.rate >= 0 && s.channels >= 0 && s.params >= 0 && s.prepare >= 0
  }

  class AlsaHelper {
    var pcmHandle: Option<nat>
    var audioBuffer: seq<Sample>
    ghost var hwParams: int          // snd_pcm_hw_params_t objects allocated and not freed
    ghost var openHandles: set<nat>  // handles that were opened and not closed

    constructor ()
      ensures pcmHandle == None && audioBuffer == [] && openHandles == {} && hwParams == 0
    {
      pcmHandle := None;
      audioBuffer := [];
      openHandles := {};
      hwParams := 0;
    }

    /** The device is opened and configured call by call. A failed call leaves the handle open for
        cleanupAlsa, and the hardware parameters are freed on every path. */
    method InitAlsa(device: Option<nat>, setup: Setup) returns (ok: bool)
      requires device.Some? ==> device.value !in openHandles
      modifies this`pcmHandle, this`openHandles, this`hwParams
      ensures ok <==> device.Some? && Configured(setup)
      ensures pcmHandle == device && hwParams == old(hwParams)
      ensures openHandles == old(openHandles) + (if device.Some? then {device.value} else {})
    {
      pcmHandle := device;
      if device.None? {
        return false;
      }
      openHandles := openHandles + {device.value};
      hwParams := hwParams + 1;
      if setup.any < 0 {
        hwParams := hwParams - 1;
        return false;
      }
      if setup.access < 0 {
        hwParams := hwParams - 1;
        return false;
      }
      if setup.format < 0 {
        hwParams := hwParams - 1;
        return false;
      }
      if setup.rate < 0 {
        hwParams := hwParams - 1;
        return false;
      }
      if setup.channels < 0 {
        hwParams := hwParams - 1;
        return false;
      }
      if setup.params < 0 {
        hwParams := hwParams - 1;
        return false;
      }
      hwParams := hwParams - 1;
      if setup.prepare < 0 {
        return false;
      }
      return true;
    }

    method CleanupAlsa()
      modifies this`pcmHandle, this`openHandles
      ensures pcmHandle == None
      ensures openHandles ==
        if old(pcmHandle).Some? then old(openHandles) - {old(pcmHandle).value} else old(openHandles)
    {
      if pcmHandle.Some? {
        openHandles := openHandles - {pcmHandle.value};
        pcmHandle := None;
      }
    }

    method CaptureOnce(x: Read) returns (ok: bool)
      modifies this`audioBuffer
      ensures ok <==> pcmHandle.Some? && Succeeds(x)
      ensures audioBuffer == old(audioBuffer) + if pcmHandle.Some? then Frames(x) else []
    {
      if pcmHandle.None? {
        return false;
      }
      if x.r == -EPIPE {
        return true;
      } else if x.r < 0 {
        return x.recovered >= 0;
      }
      audioBuffer := audioBuffer + x.frames[..x.r];
      return true;
    }

    method SaveWavFile(opens: bool) returns (file: Option<seq<Byte>>)
      ensures file == if audioBuffer != [] && opens then Some(FileBytes(audioBuffer, 16000)) else None
    {
      if audioBuffer == [] {
        return None;
      }
      if !opens {
        return None;
      }
      var subchunk2Size: int := DataSize(audioBuffer);
      var chunkSize := ToUint32(36 + subchunk2Size);
      var byteRate := ToUint32(SAMPLE_RATE * 1 * 2);
      var out: seq<Byte> := RIFF;
      out := out + Le32(chunkSize);
      out := out + WAVE;
      var fmt := Le16(1) + Le16(1) + Le32(SAMPLE_RATE) + Le32(byteRate) + Le16(2) + Le16(16);
      out := out + (FMT + Le32(16) + fmt + (DATA + Le32(subchunk2Size) + Memory(audioBuffer)[..subchunk2Size]));
      return Some(out);
    }

    method ClearAudioBuffer()
      modifies this`audioBuffer
      ensures audioBuffer == []
    {
      audioBuffer := [];
    }

    /** A session of the record worker: the device is closed again however it ends, and what is saved is
        what this session captured and nothing else. */
    method Session(device: Option<nat>, setup: Setup, passes: seq<Pass>, cancelled: bool, opens: bool)
      returns (file: Option<seq<Byte>>)
      requires pcmHandle == None && (device.Some? ==> device.value !in openHandles)
      modifies this
      ensures pcmHandle == None && openHandles == old(openHandles) && hwParams == old(hwParams)
      ensures file.Some? <==>
        device.Some? && Configured(setup) && AllSucceed(passes) && !cancelled && Captured(passes) != [] && opens
      ensures file.Some? ==> file.value == FileBytes(Captured(passes), 16000)
    {
      ClearAudioBuffer();
      var ready := InitAlsa(device, setup);
      if !ready {
        CleanupAlsa();
        return None;
      }
      var captureError := false;
      var i := 0;
      while i < |passes| && !captureError
        invariant 0 <= i <= |passes| && hwParams == old(hwParams)
        invariant pcmHandle == device && openHandles == old(openHandles) + {device.value}
        invariant audioBuffer == Captured(passes[..i])
        invariant captureError <==> !AllSucceed(passes[..i])
      {
        var ok := CaptureOnce(passes[i].read);
        captureError := !ok;
        assert passes[..i + 1][..i] == passes[..i];
        assert passes[..i + 1][i] == passes[i];
        i := i + 1;
      }
      assert captureError ==> !AllSucceed(passes) by {
        assert forall k | 0 <= k < i :: passes[..i][k] == passes[k];
      }
      assert !captureError ==> passes[..i] == passes;
      file := None;
      if !captureError && !cancelled {
        file := SaveWavFile(opens);
      }
      CleanupAlsa();
    }
  }

  // ---------------------------------------------------------------- how much a session can capture

  /** The passes as the clock sees them: the loop goes on only while the limit of 300 s is not exceeded. */
  predicate Clocked(passes: seq<Pass>)
  {
    && (forall i | 0 <= i < |passes| :: 0 <= passes[i].checkedAt <= passes[i].readAt)
    && (forall i | 0 <= i < |passes| :: passes[i].checkedAt <= 300_000_000_000)
    && (forall i | 0 < i < |passes| :: passes[i - 1].readAt <= passes[i].checkedAt)
  }

  /** The device delivers at most 16000 frames a second. */
  ghost predicate NoFaster(passes: seq<Pass>) {
    forall i | 0 <= i < |passes| :: |Captured(passes[..i + 1])| * FRAME_TIME <= passes[i].readAt
  }

  /** duration_cast to seconds of the time at which the file has been saved. */
  function DurationSec(endTime: int): int
    requires endTime >= 0
  {
    endTime / 1_000_000_000
  }

  /** What had been captured when the last pass began. */
  lemma BeforeLast(passes: seq<Pass>)
    requires Clocked(passes) && NoFaster(passes) && passes != []
    ensures |Captured(passes[..|passes| - 1])| <= 4_800_000
    ensures |Captured(passes)| * FRAME_TIME <= passes[|passes| - 1].readAt
  {
    var n := |passes| - 1;
    assert passes[..n + 1] == passes;
    if n > 0 {
      assert passes[..n - 1 + 1] == passes[..n];
      assert |Captured(passes[..n - 1 + 1])| * FRAME_TIME <= passes[n - 1].readAt <= passes[n].checkedAt;
    } else {
      assert passes[..n] == [];
    }
  }

  lemma CaptureBound(passes: seq<Pass>)
    requires Clocked(passes) && NoFaster(passes)
    ensures |Captured(passes)| <= 4_801_024
  {
    if passes != [] {
      BeforeLast(passes);
    }
  }

  /** A session on a device that is no faster than its rate stays below every 32-bit size: its file is
      read back as exactly the captured frames, and the duration stored with it covers them. */
  lemma SessionFidelity(passes: seq<Pass>, endTime: int)
    requires Clocked(passes) && NoFaster(passes) && passes != [] && endTime >= passes[|passes| - 1].readAt
    ensures Parse(FileBytes(Captured(passes), 16000)) == Some(Wave(1, 16000, 32000, Captured(passes)))
    ensures DurationSec(endTime) >= |Captured(passes)| / 16000
    ensures DurationSec(endTime) * 1_000_000_000 <= endTime < (DurationSec(endTime) + 1) * 1_000_000_000
  {
    CaptureBound(passes);
    IsFaithful(Captured(passes), SAMPLE_RATE);
    ByteRate(SAMPLE_RATE);
    BeforeLast(passes);
    WholeSeconds(|Captured(passes)|, endTime);
  }

  lemma IsFaithful(samples: seq<Sample>, rate: Uint32)
    requires |samples| <= 4_801_024
    ensures Parse(FileBytes(samples, rate)) == Some(Wave(1, rate, ToUint32(2 * rate), samples))
  {
    WavFidelity(samples, rate);
  }

  lemma ByteRate(rate: Uint32)
    requires rate == 16000
    ensures ToUint32(2 * rate) == 32000
  {
  }

  lemma WholeSeconds(frames: nat, time: int)
    requires frames * FRAME_TIME <= time
    ensures time / 1_000_000_000 >= frames / SAMPLE_RATE
  {
    var s := frames / SAMPLE_RATE;
    assert s * SAMPLE_RATE <= frames;
    assert s * 1_000_000_000 <= time;
  }
}
