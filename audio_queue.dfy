/** The URL-based playback queue: a list of audio sources played one at a
    time through HTMLAudioElement. Unlike the buffer player, the source being
    played stays at the head of the queue until it ends or fails. The React
    effect that starts playback is the Tick transition; the element's
    `ended` and `error` events and the rejection of its play() promise are
    the On* methods. */
module AudioQueue {
  import opened Common

  /** `[...queue, src]` for a non-empty source; an empty string is ignored. */
  function Enqueued(queue: seq<string>, src: string): (r: seq<string>)
    ensures src == "" ==> r == queue
    ensures src != "" ==> |r| == |queue| + 1 && r[..|queue|] == queue && r[|queue|] == src
  {
    if src == "" then queue else queue + [src]
  }

  /** `queue.slice(1)`: everything after the head; the empty queue stays empty. */
  function Advanced(queue: seq<string>): (r: seq<string>)
    ensures |r| == if queue == [] then 0 else |queue| - 1
    ensures forall i :: 0 <= i < |r| ==> r[i] == queue[i + 1]
  {
    if queue == [] then [] else queue[1..]
  }

  /** Appending and advancing commute on a non-empty queue: items keep their
      order whichever of the two happens first. */
  lemma AdvanceEnqueueCommute(queue: seq<string>, src: string)
    requires queue != []
    ensures Advanced(Enqueued(queue, src)) == Enqueued(Advanced(queue), src)
  {
  }

  /** Advancing n times drops exactly the first n items. */
  function AdvancedTimes(queue: seq<string>, n: nat): seq<string>
  {
    if n == 0 then queue else Advanced(AdvancedTimes(queue, n - 1))
  }

  lemma {:induction false} AdvancedTimesDrops(queue: seq<string>, n: nat)
    requires n <= |queue|
    ensures AdvancedTimes(queue, n) == queue[n..]
  {
    if n > 0 {
      AdvancedTimesDrops(queue, n - 1);
      assert queue[n - 1..][1..] == queue[n..];
    }
  }

  /** An HTMLAudioElement with the queue's handlers attached, and whether it
      has been paused. */
  datatype Element = Element(src: string, paused: bool)

  class AudioQueue {
    var queue: seq<string>
    var isPlaying: bool
    /** audioRef.current, None for null. */
    var audio: Option<Element>
    /** The source of every element created and asked to play, in order. */
    var played: seq<string>

    /** An element is attached exactly while playing, and it plays the head
        of the queue. */
    ghost predicate Valid()
      reads this
    {
      (isPlaying <==> audio.Some?)
      && (audio.Some? ==> queue != [] && audio.value.src == queue[0])
    }

    /** The element being played has not been paused, so its `ended` event
        can still arrive and move the queue on. */
    predicate CanEnd()
      reads this
    {
      audio.Some? && !audio.value.paused
    }

    constructor ()
      ensures Valid()
      ensures queue == [] && !isPlaying && audio == None && played == []
    {
      queue, isPlaying, audio, played := [], false, None, [];
    }

    /** The queueLength the hook returns. */
    function QueueLength(): nat
      reads this
    {
      |queue|
    }

    /** addToQueue. */
    method AddToQueue(src: string)
      requires Valid()
      modifies this
      ensures Valid()
      ensures queue == Enqueued(old(queue), src)
      ensures QueueLength() == old(QueueLength()) + (if src != "" then 1 else 0)
      ensures isPlaying == old(isPlaying) && audio == old(audio) && played == old(played)
    {
      queue := Enqueued(queue, src);
    }

    /** clearQueue: detach and drop the element, empty the queue, stop. */
    method ClearQueue()
      modifies this
      ensures Valid()
      ensures queue == [] && !isPlaying && audio == None && played == old(played)
      ensures QueueLength() == 0
    {
      audio := None;
      queue := [];
      isPlaying := false;
    }

    /** The playback effect: when idle with something queued, create an
        element for the head, mark the queue playing and ask the element to
        play; the head stays queued. Its cleanup is taken to run only when
        the component unmounts, as the source's comment intends. */
    method Tick()
      requires Valid()
      modifies this
      ensures Valid()
      ensures queue == old(queue)
      ensures !old(isPlaying) && old(queue) != [] ==>
        isPlaying && audio == Some(Element(old(queue)[0], false))
        && played == old(played) + [old(queue)[0]]
      ensures old(isPlaying) || old(queue) == [] ==>
        isPlaying == old(isPlaying) && audio == old(audio) && played == old(played)
      ensures old(CanEnd()) || !old(isPlaying) ==> (isPlaying ==> CanEnd())
    {
      if !isPlaying && |queue| > 0 {
        var src := queue[0];
        audio := Some(Element(src, false));
        isPlaying := true;
        played := played + [src];
      }
    }

    /** The same effect as React runs it: before every re-run caused by a
        change of the queue or of isPlaying, the previous run's cleanup
        pauses the current element. */
    method RunEffectAsWritten()
      requires Valid()
      modifies this
      ensures Valid()
      ensures queue == old(queue)
      ensures old(audio).Some? ==>
        audio == Some(old(audio).value.(paused := true)) && isPlaying && played == old(played)
      ensures old(audio).None? && old(queue) != [] ==>
        isPlaying && audio == Some(Element(old(queue)[0], false))
        && played == old(played) + [old(queue)[0]]
      ensures old(audio).None? && old(queue) == [] ==>
        !isPlaying && audio == None && played == old(played)
    {
      if audio.Some? {
        audio := Some(audio.value.(paused := true));
      }
      Tick();
    }

    /** The element's `ended` event: stop, drop exactly the head. */
    method OnEnded()
      requires Valid() && CanEnd()
      modifies this
      ensures Valid()
      ensures !isPlaying && audio == None
      ensures queue == Advanced(old(queue)) && queue == old(queue)[1..]
      ensures QueueLength() == old(QueueLength()) - 1
      ensures played == old(played)
    {
      isPlaying := false;
      queue := Advanced(queue);
      audio := None;
    }

    /** The element's `error` event: handled exactly as `ended`. */
    method OnError()
      requires Valid() && audio.Some?
      modifies this
      ensures Valid()
      ensures !isPlaying && audio == None
      ensures queue == Advanced(old(queue)) && queue == old(queue)[1..]
      ensures QueueLength() == old(QueueLength()) - 1
      ensures played == old(played)
    {
      isPlaying := false;
      queue := Advanced(queue);
      audio := None;
    }

    /** play() rejected: an AbortError is ignored; any other error stops
        playback but keeps the head queued, so the effect will try the same
        source again. */
    method OnPlayRejected(isAbortError: bool)
      requires Valid() && audio.Some?
      modifies this
      ensures Valid()
      ensures queue == old(queue) && played == old(played)
      ensures isAbortError ==> isPlaying == old(isPlaying) && audio == old(audio)
      ensures !isAbortError ==> !isPlaying && audio == None
    {
      if isAbortError {
        return;
      }
      isPlaying := false;
      audio := None;
    }
  }

  /** Two sources added to an idle queue play one after the other, each
      removed only when it ends. */
  method PlaysInOrder(a: string, b: string) returns (played: seq<string>, left: seq<string>)
    requires a != "" && b != ""
    ensures played == [a, b] && left == []
  {
    var q := new AudioQueue();
    q.AddToQueue(a);
    q.AddToQueue(b);
    q.Tick();
    q.OnEnded();
    q.Tick();
    q.OnEnded();
    played, left := q.played, q.queue;
  }

  /** A play() refused for a reason other than AbortError leaves the source
      at the head, and the next effect run plays it again. */
  method RefusedPlayRetriesHead(a: string) returns (played: seq<string>, left: seq<string>)
    requires a != ""
    ensures played == [a, a] && left == [a]
  {
    var q := new AudioQueue();
    q.AddToQueue(a);
    q.Tick();
    q.OnPlayRejected(false);
    q.Tick();
    played, left := q.played, q.queue;
  }

  /** As written, the re-run triggered by isPlaying becoming true pauses the
      element it has just started: the queue stays "playing" with no element
      that can end, and the second source does not start unless the paused
      element fires an error or the queue is cleared. */
  method CleanupStallsQueue(a: string, b: string)
    returns (playing: bool, canEnd: bool, played: seq<string>, left: seq<string>)
    requires a != "" && b != ""
    ensures playing && !canEnd && played == [a] && left == [a, b]
  {
    var q := new AudioQueue();
    q.AddToQueue(a);
    q.RunEffectAsWritten();
    q.RunEffectAsWritten();
    q.OnPlayRejected(true);
    q.AddToQueue(b);
    q.RunEffectAsWritten();
    playing, canEnd, played, left := q.isPlaying, q.CanEnd(), q.played, q.queue;
  }

  /** The stall ends if the paused element fires an error: the head is
      dropped and the next effect run starts the second source. */
  method StalledQueueMovesOnError(a: string, b: string)
    returns (played: seq<string>, left: seq<string>)
    requires a != "" && b != ""
    ensures played == [a, b] && left == [b]
  {
    var q := new AudioQueue();
    q.AddToQueue(a);
    q.RunEffectAsWritten();
    q.RunEffectAsWritten();
    q.OnPlayRejected(true);
    q.AddToQueue(b);
    q.RunEffectAsWritten();
    q.OnError();
    q.RunEffectAsWritten();
    played, left := q.played, q.queue;
  }
}
