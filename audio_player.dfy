/** The audio player: a FIFO queue of decoded buffers played one after the
    other, each started when the previous one's `ended` event fires. The Web
    Audio context is not modelled; starting a buffer is recorded in `started`
    and the end of a buffer is the event OnSourceEnded. */
module Player {
  import opened Common
  import opened Pcm

  /** The sample rate convertPCMToAudioBuffer uses when none is given. */
  const DefaultSampleRate := 16000

  /** A mono AudioBuffer: the samples of channel 0 and the sample rate. */
  datatype AudioBuffer = AudioBuffer(channel: seq<real>, sampleRate: nat)

  /** Each sample scaled by Normalized. */
  function NormalizedAll(samples: seq<Int16>): (r: seq<real>)
  {
    seq(|samples|, i requires 0 <= i < |samples| => Normalized(samples[i]))
  }

  /** The buffer the player builds from a decoded chunk: the PCM samples of
      its bytes, scaled, at the default rate. */
  function BufferOf(binary: string): AudioBuffer
  {
    AudioBuffer(NormalizedAll(Samples(CharCodes(binary))), DefaultSampleRate)
  }

  /** The buffer a chunk yields, or None where addAudioChunk rejects it:
      atob throws (`decoded` is None), or fewer than two bytes leave a
      zero-length buffer, which createBuffer refuses. */
  function BufferFor(decoded: Option<string>): (b: Option<AudioBuffer>)
    ensures b.Some? <==> decoded.Some? && |decoded.value| >= 2
  {
    if decoded.Some? && |decoded.value| >= 2 then Some(BufferOf(decoded.value)) else None
  }

  class AudioPlayer {
    /** Buffers waiting to be played, head first. */
    var queue: seq<AudioBuffer>
    var isPlaying: bool
    /** Every value passed to the state-change callback, in order. */
    var reported: seq<bool>
    /** Every buffer handed to a buffer source and started, in order. */
    var started: seq<AudioBuffer>
    /** Buffer sources started whose `ended` event has not fired yet. */
    var live: nat

    /** The player is idle only with nothing queued, and while it is playing
        some source is still sounding. */
    ghost predicate Valid()
      reads this
    {
      (!isPlaying ==> queue == []) && (isPlaying ==> live > 0)
    }

    constructor ()
      ensures Valid()
      ensures queue == [] && !isPlaying && reported == [] && started == [] && live == 0
    {
      queue, isPlaying, reported, started, live := [], false, [], [], 0;
    }

    /** convertPCMToAudioBuffer: the bytes of the decoded chunk read two at a
        time as little-endian signed 16-bit samples and scaled into a
        Float32Array of floor(length / 2) elements. None where createBuffer
        throws because that length is zero. */
    method ConvertPcmToAudioBuffer(binary: string) returns (buffer: Option<AudioBuffer>)
      ensures buffer.None? <==> |binary| < 2
      ensures buffer.Some? ==> buffer.value.sampleRate == DefaultSampleRate
      ensures buffer.Some? ==> |buffer.value.channel| == |binary| / 2
      ensures buffer.Some? ==> forall i :: 0 <= i < |buffer.value.channel| ==>
        buffer.value.channel[i] == Normalized(Int16LE(ToUint8(binary[2 * i] as int), ToUint8(binary[2 * i + 1] as int)))
      ensures buffer == BufferFor(Some(binary))
    {
      var pcm := CharCodes(binary);
      var floats := new real[|pcm| / 2];
      var i := 0;
      while i < floats.Length
        invariant 0 <= i <= floats.Length
        invariant forall k :: 0 <= k < i ==> floats[k] == Normalized(Int16LE(pcm[2 * k], pcm[2 * k + 1]))
      {
        floats[i] := Normalized(Int16LE(pcm[2 * i], pcm[2 * i + 1]));
        i := i + 1;
      }
      if floats.Length == 0 {
        return None;
      }
      buffer := Some(AudioBuffer(floats[..], DefaultSampleRate));
      assert buffer.value.channel == NormalizedAll(Samples(pcm));
    }

    /** playNext: start the head of the queue and report `true`, or, with
        nothing queued, go idle and report `false`. */
    method PlayNext()
      modifies this
      ensures Valid()
      ensures started + queue == old(started + queue)
      ensures old(queue) == [] ==>
        !isPlaying && queue == [] && reported == old(reported) + [false]
        && started == old(started) && live == old(live)
      ensures old(queue) != [] ==>
        isPlaying && queue == old(queue)[1..] && reported == old(reported) + [true]
        && started == old(started) + [old(queue)[0]] && live == old(live) + 1
    {
      if |queue| == 0 {
        isPlaying := false;
        reported := reported + [false];
        return;
      }
      isPlaying := true;
      reported := reported + [true];
      var buffer := queue[0];
      queue := queue[1..];
      started := started + [buffer];
      live := live + 1;
    }

    /** addAudioChunk: decode the chunk, append it at the tail, and start
        playing if idle. `decoded` is what atob returns for the chunk, None
        when atob throws. A chunk that atob or createBuffer rejects abandons
        the call before the queue is touched. */
    method AddAudioChunk(decoded: Option<string>)
      requires Valid()
      modifies this
      ensures Valid()
      ensures BufferFor(decoded).None? ==>
        queue == old(queue) && isPlaying == old(isPlaying) && reported == old(reported)
        && started == old(started) && live == old(live)
      ensures BufferFor(decoded).Some? ==>
        started + queue == old(started + queue) + [BufferFor(decoded).value] && isPlaying
      ensures BufferFor(decoded).Some? && old(isPlaying) ==>
        queue == old(queue) + [BufferFor(decoded).value]
        && reported == old(reported) && started == old(started) && live == old(live)
      ensures BufferFor(decoded).Some? && !old(isPlaying) ==>
        queue == [] && reported == old(reported) + [true]
        && started == old(started) + [BufferFor(decoded).value] && live == old(live) + 1
    {
      if decoded.None? {
        return;
      }
      var buffer := ConvertPcmToAudioBuffer(decoded.value);
      if buffer.None? {
        return;
      }
      queue := queue + [buffer.value];
      if !isPlaying {
        PlayNext();
      }
    }

    /** The `ended` event of a started source: the chain moves on to the next
        buffer. */
    method OnSourceEnded()
      requires Valid() && live > 0
      modifies this
      ensures Valid()
      ensures started + queue == old(started + queue)
      ensures old(queue) == [] ==>
        !isPlaying && queue == [] && reported == old(reported) + [false]
        && started == old(started) && live == old(live) - 1
      ensures old(queue) != [] ==>
        isPlaying && queue == old(queue)[1..] && reported == old(reported) + [true]
        && started == old(started) + [old(queue)[0]] && live == old(live)
    {
      live := live - 1;
      PlayNext();
    }

    /** clearQueue: drop every queued buffer and go idle, reporting `false`
        only if the player was playing. The source already sounding is not
        stopped. */
    method ClearQueue()
      modifies this
      ensures Valid()
      ensures queue == [] && !isPlaying
      ensures reported == old(reported) + (if old(isPlaying) then [false] else [])
      ensures started == old(started) && live == old(live)
    {
      queue := [];
      if isPlaying {
        isPlaying := false;
        reported := reported + [false];
      }
    }
  }

  /** Three chunks arriving while the first still plays are started in the
      order they arrived, and the start of each is reported: `true` is
      reported three times in a row before the final `false`. */
  method PlaysInArrivalOrder(x: string, y: string, z: string)
    returns (started: seq<AudioBuffer>, reported: seq<bool>)
    requires |x| >= 2 && |y| >= 2 && |z| >= 2
    ensures started == [BufferOf(x), BufferOf(y), BufferOf(z)]
    ensures reported == [true, true, true, false]
  {
    var p := new AudioPlayer();
    p.AddAudioChunk(Some(x));
    p.AddAudioChunk(Some(y));
    p.AddAudioChunk(Some(z));
    p.OnSourceEnded();
    p.OnSourceEnded();
    p.OnSourceEnded();
    started, reported := p.started, p.reported;
  }

  /** Clearing while a buffer sounds does not stop it: a chunk added right
      after the clear starts a second source beside the first, and when the
      first one ends the player goes idle and reports `false` although the
      second source is still sounding. */
  method ClearLeavesSourceSounding(x: string, y: string)
    returns (liveAfterAdd: nat, liveAfterEnd: nat, playingAfterEnd: bool, reported: seq<bool>)
    requires |x| >= 2 && |y| >= 2
    ensures liveAfterAdd == 2
    ensures liveAfterEnd == 1 && !playingAfterEnd
    ensures reported == [true, false, true, false]
  {
    var p := new AudioPlayer();
    p.AddAudioChunk(Some(x));
    p.ClearQueue();
    p.AddAudioChunk(Some(y));
    liveAfterAdd := p.live;
    p.OnSourceEnded();
    liveAfterEnd, playingAfterEnd, reported := p.live, p.isPlaying, p.reported;
  }

  /** A second clear reports nothing. */
  method ClearTwiceReportsOnce(x: string) returns (reported: seq<bool>)
    requires |x| >= 2
    ensures reported == [true, false]
  {
    var p := new AudioPlayer();
    p.AddAudioChunk(Some(x));
    p.ClearQueue();
    p.ClearQueue();
    reported := p.reported;
  }

  /** A chunk too short for one sample is rejected: nothing is queued,
      started or reported, even on an idle player. */
  method ShortChunkRejected(x: string) returns (queue: seq<AudioBuffer>, reported: seq<bool>, playing: bool)
    requires |x| < 2
    ensures queue == [] && reported == [] && !playing
  {
    var p := new AudioPlayer();
    p.AddAudioChunk(Some(x));
    queue, reported, playing := p.queue, p.reported, p.isPlaying;
  }
}
