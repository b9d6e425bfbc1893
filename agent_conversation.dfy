/** The conversation orchestrator: the agent socket's lifecycle, the routing
    of inbound agent events, the forwarding of microphone chunks to both
    sockets, and the speaker-change step run on every recognition result.
    It owns an audio player and a recognition client and calls their
    operations; the agent socket, the microphone stream, navigation and
    window opening are external and recorded in `effects`. */
module Conversation {
  import opened Common
  import opened Pcm
  import opened Player
  import opened Recognition

  /** The agent endpoint, completed by the agent id. */
  const AgentUrlPrefix := "wss://api.elevenlabs.io/v1/convai/conversation?agent_id="
  const EndReason := "User ended conversation"
  const NavigateTool := "onNavigateRobots"
  const SetImageTool := "onSetImageUrl"
  const SetVideoTool := "onSetVideoUrl"
  const RobotsPath := "/robots"
  const RobotsSite := "https://robots.educabot.com/bloques-75401"

  /** Base64 decoding as atob does it: the binary string, or None where atob
      throws because the text is not valid base64. */
  type Decoder = string -> Option<string>

  datatype AssetKind = Image | Video

  /** What the page shows beside the conversation. */
  datatype Asset = Asset(kind: AssetKind, url: Option<string>)

  const DefaultAsset := Asset(Image, None)

  /** An inbound agent event after JSON.parse, by its `type`. A tool call's
      parameters are represented by their `url` field. */
  datatype AgentEvent =
    | UserTranscript(userTranscript: string)
    | AgentResponse(agentResponse: string)
    | AgentResponseCorrection(original: string, corrected: string)
    | Audio(audioBase64: string, eventId: int)
    | Interruption(interruptionId: int)
    | Ping(pingId: int, pingMs: Option<int>)
    | ClientToolCall(toolCallId: string, toolName: string, urlParameter: Option<string>)
    | Other(kind: string)

  /** A JSON message sent on the agent socket. */
  datatype OutMessage =
    | ConversationInitiation
    | UserAudioChunk(chunk: string)
    | ContextualUpdate(text: string)

  /** What the orchestrator does to the world outside its two collaborators. */
  datatype Effect =
    | OpenSocket(url: string)
    | Send(message: OutMessage)
    | CloseSocket(code: int, reason: string)
    | StartStreaming
    | StopStreaming
    | Navigate(path: string)
    | OpenWindow(url: string, target: string)

  /** sendMessage: a message goes out only on an open socket. */
  function SendMessage(readyState: ReadyState, message: OutMessage): (sent: seq<Effect>)
    ensures readyState == Open <==> sent != []
    ensures sent == [] || sent == [Send(message)]
  {
    if readyState == Open then [Send(message)] else []
  }

  /** The speaker-change test: the previous speaker is a non-empty name
      (JavaScript truthiness) other than the new one. */
  predicate SpeakerChanged(previous: Option<string>, newSpeaker: string)
  {
    previous.Some? && previous.value != "" && previous.value != newSpeaker
  }

  const ChangePrefix := "Hubo un cambio de hablante. Ahora habla "
  const ChangeMiddle := ", antes estaba hablando "
  const ChangeSuffix := ". Recuerda saludarlo y llamarlo por su nombre."

  /** The contextual update announcing a change of speaker. */
  function ContextMessage(newSpeaker: string, previous: string): string
  {
    ChangePrefix + newSpeaker + ChangeMiddle + previous + ChangeSuffix
  }

  /** The update names the new speaker, then the previous one, each at a
      fixed place. */
  lemma ContextMessageNamesBoth(newSpeaker: string, previous: string)
    ensures var m := ContextMessage(newSpeaker, previous);
      var at := |ChangePrefix| + |newSpeaker| + |ChangeMiddle|;
      |m| == at + |previous| + |ChangeSuffix|
      && m[|ChangePrefix|..|ChangePrefix| + |newSpeaker|] == newSpeaker
      && m[at..at + |previous|] == previous
  {
  }

  /** Different pairs of speakers give different updates. */
  lemma {:induction false} ContextMessageInjective(a: string, b: string, c: string, d: string)
    requires |a| == |c|
    requires ContextMessage(a, b) == ContextMessage(c, d)
    ensures a == c && b == d
  {
    ContextMessageNamesBoth(a, b);
    ContextMessageNamesBoth(c, d);
  }

  /** Without the length condition the update is ambiguous: a new speaker
      whose name contains the middle phrase reads like a shorter new speaker
      with a longer previous one. */
  lemma ContextMessageAmbiguous(a: string, b: string, c: string)
    ensures a + ChangeMiddle + b != a
    ensures ContextMessage(a + ChangeMiddle + b, c) == ContextMessage(a, b + ChangeMiddle + c)
  {
    assert |a + ChangeMiddle + b| > |a|;
    Regroup(ChangePrefix, a, ChangeMiddle, b, c, ChangeSuffix);
  }

  lemma Regroup(p: string, a: string, m: string, b: string, c: string, s: string)
    ensures p + (a + m + b) + m + c + s == p + a + m + (b + m + c) + s
  {
    assert p + (a + m + b) == p + a + m + b;
    assert p + a + m + (b + m + c) == p + a + m + b + m + c;
  }

  /** The (new, previous) pairs announced while the agent socket stays open,
      for a run of inferred speakers processed from `current`. */
  function Announcements(current: Option<string>, speakers: seq<string>): seq<(string, string)>
    decreases |speakers|
  {
    if speakers == [] then []
    else
      (if SpeakerChanged(current, speakers[0]) then [(speakers[0], current.value)] else [])
      + Announcements(Some(speakers[0]), speakers[1..])
  }

  /** A run of results naming the current speaker announces nothing. */
  lemma {:induction false} RepeatedSpeakerIsSilent(current: string, speakers: seq<string>)
    requires forall i :: 0 <= i < |speakers| ==> speakers[i] == current
    ensures Announcements(Some(current), speakers) == []
  {
    if speakers != [] {
      RepeatedSpeakerIsSilent(current, speakers[1..]);
    }
  }

  /** From no speaker, a run of `a` and then `b` announces exactly one
      change, naming `b` as the new speaker and `a` as the previous one. */
  lemma {:induction false} OneChangeOneAnnouncement(a: string, b: string, n: nat)
    requires a != "" && a != b
    ensures Announcements(None, Repeat(a, n + 1) + [b]) == [(b, a)]
  {
    var run := Repeat(a, n + 1) + [b];
    assert run[1..] == Repeat(a, n) + [b];
    RunThenChange(a, b, n);
  }

  lemma {:induction false} RunThenChange(a: string, b: string, n: nat)
    requires a != "" && a != b
    ensures Announcements(Some(a), Repeat(a, n) + [b]) == [(b, a)]
  {
    if n == 0 {
      assert Repeat(a, 0) + [b] == [b];
    } else {
      var run := Repeat(a, n) + [b];
      assert run[0] == a;
      assert run[1..] == Repeat(a, n - 1) + [b];
      RunThenChange(a, b, n - 1);
    }
  }

  /** `n` copies of `s`. */
  function Repeat(s: string, n: nat): (r: seq<string>)
    ensures |r| == n && forall i :: 0 <= i < n ==> r[i] == s
  {
    if n == 0 then [] else [s] + Repeat(s, n - 1)
  }

  /** The current speaker after a run of inferred speakers processed from
      `current`: the last one of the run, or `current` for an empty run. */
  function Last(current: Option<string>, speakers: seq<string>): Option<string>
  {
    if speakers == [] then current else Some(speakers[|speakers| - 1])
  }

  /** The inferred speaker of each result, in order. */
  function InferredSpeakers(results: seq<SpeakerRecognitionResult>): seq<string>
  {
    seq(|results|, i requires 0 <= i < |results| => results[i].inferredSpeaker)
  }

  /** The contextual updates sent for a run of announced (new, previous)
      pairs, one per pair and in the same order. */
  function Updates(pairs: seq<(string, string)>): seq<Effect>
  {
    seq(|pairs|, i requires 0 <= i < |pairs| => Send(ContextualUpdate(ContextMessage(pairs[i].0, pairs[i].1))))
  }

  lemma UpdatesAppend(p: seq<(string, string)>, q: seq<(string, string)>)
    ensures Updates(p + q) == Updates(p) + Updates(q)
  {
  }

  /** Processing one more speaker announces at most one more pair: the new
      speaker with the last one of the run, when the change test holds. */
  lemma {:induction false} AnnouncementsAppend(current: Option<string>, speakers: seq<string>, x: string)
    ensures Announcements(current, speakers + [x]) ==
      Announcements(current, speakers)
      + (if SpeakerChanged(Last(current, speakers), x) then [(x, Last(current, speakers).value)] else [])
    decreases |speakers|
  {
    if speakers == [] {
      assert speakers + [x] == [x];
    } else {
      var run := speakers + [x];
      var first := if SpeakerChanged(current, speakers[0]) then [(speakers[0], current.value)] else [];
      var last := Last(current, speakers);
      var added := if SpeakerChanged(last, x) then [(x, last.value)] else [];
      assert run[0] == speakers[0];
      assert run[1..] == speakers[1..] + [x];
      assert Last(Some(speakers[0]), speakers[1..]) == last;
      calc {
        Announcements(current, run);
        first + Announcements(Some(speakers[0]), speakers[1..] + [x]);
        { AnnouncementsAppend(Some(speakers[0]), speakers[1..], x); }
        first + (Announcements(Some(speakers[0]), speakers[1..]) + added);
        (first + Announcements(Some(speakers[0]), speakers[1..])) + added;
        Announcements(current, speakers) + added;
      }
    }
  }

  class Conversation {
    /** The audio player fed with the agent's audio. */
    const player: AudioPlayer
    /** The speaker-recognition client. */
    const recognition: SpeakerRecognition
    /** The agent the socket URL names. */
    const agentId: string
    /** Base64 decoding (atob): None when the text is not valid base64. */
    const atob: Decoder

    /** isConversationConnected. */
    var connected: bool
    /** elevenLabsSocketRef.current: the readyState, None for null. */
    var agentSocket: Option<ReadyState>
    /** The speaker named by the latest recognition result. */
    var currentSpeaker: Option<string>
    /** previousSpeakerRef.current. */
    var previousSpeaker: Option<string>
    var asset: Asset
    var effects: seq<Effect>

    ghost predicate Valid()
      reads this, player, recognition
    {
      player.Valid() && recognition.Valid()
      && agentSocket != Some(Closed)
      && (agentSocket == Some(Open) ==> connected)
      && (connected ==> agentSocket == Some(Open) || agentSocket == Some(Closing))
    }

    constructor (agentId: string, atob: Decoder)
      ensures Valid() && fresh(player) && fresh(recognition)
      ensures this.agentId == agentId && this.atob == atob
      ensures !connected && agentSocket == None && currentSpeaker == None && previousSpeaker == None
      ensures asset == DefaultAsset && effects == []
      ensures player.queue == [] && !player.isPlaying && player.started == [] && player.live == 0
      ensures player.reported == []
      ensures recognition.socket == None && !recognition.connected
      ensures recognition.effects == [] && recognition.delivered == []
    {
      this.agentId := agentId;
      this.atob := atob;
      player := new AudioPlayer();
      recognition := new SpeakerRecognition();
      connected, agentSocket := false, None;
      currentSpeaker, previousSpeaker := None, None;
      asset, effects := DefaultAsset, [];
    }

    /** The speaker-change step, run on each recognition result: previous
        takes the old current, current takes the new speaker, and a detected
        change is announced on the agent socket only if it is open; otherwise
        the announcement is dropped. */
    method OnRecognitionResult(result: SpeakerRecognitionResult)
      requires Valid()
      modifies this
      ensures Valid()
      ensures previousSpeaker == old(currentSpeaker)
      ensures currentSpeaker == Some(result.inferredSpeaker)
      ensures effects == old(effects) +
        (if SpeakerChanged(old(currentSpeaker), result.inferredSpeaker) && agentSocket == Some(Open)
         then [Send(ContextualUpdate(ContextMessage(result.inferredSpeaker, old(currentSpeaker).value)))]
         else [])
      ensures connected == old(connected) && agentSocket == old(agentSocket) && asset == old(asset)
    {
      var newSpeaker := result.inferredSpeaker;
      previousSpeaker := currentSpeaker;
      currentSpeaker := Some(newSpeaker);
      var previous := previousSpeaker;
      if SpeakerChanged(previous, newSpeaker) {
        var text := ContextMessage(newSpeaker, previous.value);
        if agentSocket == Some(Open) {
          effects := effects + SendMessage(agentSocket.value, ContextualUpdate(text));
        }
      }
    }

    /** A run of recognition results handled in order while the agent
        socket stays open: exactly the changes the fold finds are announced,
        one contextual update each, and the last result names the current
        speaker. */
    method OnRecognitionResults(results: seq<SpeakerRecognitionResult>)
      requires Valid() && agentSocket == Some(Open)
      modifies this
      ensures Valid()
      ensures currentSpeaker == Last(old(currentSpeaker), InferredSpeakers(results))
      ensures results != [] ==>
        previousSpeaker == Last(old(currentSpeaker), InferredSpeakers(results)[..|results| - 1])
      ensures results == [] ==> previousSpeaker == old(previousSpeaker)
      ensures effects == old(effects) + Updates(Announcements(old(currentSpeaker), InferredSpeakers(results)))
      ensures connected == old(connected) && agentSocket == old(agentSocket) && asset == old(asset)
    {
      ghost var speakers := InferredSpeakers(results);
      var i := 0;
      while i < |results|
        invariant 0 <= i <= |results|
        invariant Valid() && connected == old(connected) && agentSocket == old(agentSocket) && asset == old(asset)
        invariant currentSpeaker == Last(old(currentSpeaker), speakers[..i])
        invariant i > 0 ==> previousSpeaker == Last(old(currentSpeaker), speakers[..i - 1])
        invariant i == 0 ==> previousSpeaker == old(previousSpeaker)
        invariant effects == old(effects) + Updates(Announcements(old(currentSpeaker), speakers[..i]))
      {
        ghost var before := currentSpeaker;
        OnRecognitionResult(results[i]);
        assert speakers[..i + 1] == speakers[..i] + [speakers[i]];
        assert speakers[..i + 1][..i] == speakers[..i];
        AnnouncementsAppend(old(currentSpeaker), speakers[..i], speakers[i]);
        UpdatesAppend(Announcements(old(currentSpeaker), speakers[..i]),
          if SpeakerChanged(before, speakers[i]) then [(speakers[i], before.value)] else []);
        i := i + 1;
      }
      assert speakers[..i] == speakers;
    }

    /** A text frame on the recognition socket: parsed results reach the
        speaker-change step, unparsable ones are dropped. */
    method OnRecognitionMessage(message: Message)
      requires Valid() && recognition.socket == Some(Open)
      modifies this, recognition
      ensures Valid()
      ensures recognition.socket == old(recognition.socket) && recognition.effects == old(recognition.effects)
      ensures recognition.connected == old(recognition.connected)
      ensures message.Unparsable? ==>
        recognition.delivered == old(recognition.delivered)
        && currentSpeaker == old(currentSpeaker) && previousSpeaker == old(previousSpeaker)
        && effects == old(effects)
      ensures message.Parsed? ==>
        recognition.delivered == old(recognition.delivered) + [message.result]
        && previousSpeaker == old(currentSpeaker)
        && currentSpeaker == Some(message.result.inferredSpeaker)
        && effects == old(effects) +
             (if SpeakerChanged(old(currentSpeaker), message.result.inferredSpeaker) && agentSocket == Some(Open)
              then [Send(ContextualUpdate(ContextMessage(message.result.inferredSpeaker, old(currentSpeaker).value)))]
              else [])
      ensures connected == old(connected) && agentSocket == old(agentSocket) && asset == old(asset)
    {
      var result := recognition.OnMessage(message);
      if result.Some? {
        OnRecognitionResult(result.value);
      }
    }

    /** onAudioChunked: a microphone chunk goes to the agent socket only if it
        is open, and to the recognition client always (which itself sends
        only on an open socket). */
    method OnAudioChunked(chunk: string)
      requires Valid()
      modifies this, recognition
      ensures Valid()
      ensures effects == old(effects) +
        (if agentSocket == Some(Open) then [Send(UserAudioChunk(chunk))] else [])
      ensures recognition.effects == old(recognition.effects) +
        (if recognition.socket == Some(Open) && atob(chunk).Some?
         then [SendBinary(CharCodes(atob(chunk).value))] else [])
      ensures recognition.socket == old(recognition.socket)
      ensures recognition.connected == old(recognition.connected)
      ensures recognition.delivered == old(recognition.delivered)
      ensures connected == old(connected) && agentSocket == old(agentSocket) && asset == old(asset)
      ensures currentSpeaker == old(currentSpeaker) && previousSpeaker == old(previousSpeaker)
    {
      if agentSocket == Some(Open) {
        effects := effects + SendMessage(agentSocket.value, UserAudioChunk(chunk));
      }
      recognition.SendAudioChunk(atob(chunk));
    }

    /** startConversation, with the guard the session rule needs: nothing
        happens while connected or while a socket still exists; otherwise
        recognition is started and a new agent socket starts connecting. */
    method StartConversation()
      requires Valid()
      modifies this, recognition
      ensures Valid()
      ensures old(connected) || old(agentSocket).Some? ==>
        agentSocket == old(agentSocket) && effects == old(effects)
        && recognition.socket == old(recognition.socket) && recognition.effects == old(recognition.effects)
      ensures !old(connected) && old(agentSocket).None? ==>
        agentSocket == Some(Connecting)
        && effects == old(effects) + [OpenSocket(AgentUrlPrefix + agentId)]
        && (old(recognition.socket).None? ==>
              recognition.socket == Some(Connecting)
              && recognition.effects == old(recognition.effects) + [Connect(RecognitionUrl)])
        && (old(recognition.socket).Some? ==>
              recognition.socket == old(recognition.socket)
              && recognition.effects == old(recognition.effects))
      ensures connected == old(connected) && asset == old(asset)
      ensures currentSpeaker == old(currentSpeaker) && previousSpeaker == old(previousSpeaker)
      ensures recognition.connected == old(recognition.connected)
      ensures recognition.delivered == old(recognition.delivered)
    {
      if connected || agentSocket.Some? {
        return;
      }
      recognition.StartRecognition();
      agentSocket := Some(Connecting);
      effects := effects + [OpenSocket(AgentUrlPrefix + agentId)];
    }

    /** startConversation as written: only the connected flag guards it, and
        that flag is set by the open event, so a call while the socket is
        still connecting (or closing after a failed connection) opens another
        socket and the reference forgets the first, whose handlers stay
        attached. */
    method StartConversationAsWritten()
      requires Valid()
      modifies this, recognition
      ensures Valid()
      ensures old(connected) ==>
        agentSocket == old(agentSocket) && effects == old(effects)
        && recognition.socket == old(recognition.socket) && recognition.effects == old(recognition.effects)
      ensures !old(connected) ==>
        agentSocket == Some(Connecting)
        && effects == old(effects) + [OpenSocket(AgentUrlPrefix + agentId)]
        && (old(recognition.socket).None? ==>
              recognition.socket == Some(Connecting)
              && recognition.effects == old(recognition.effects) + [Connect(RecognitionUrl)])
        && (old(recognition.socket).Some? ==>
              recognition.socket == old(recognition.socket)
              && recognition.effects == old(recognition.effects))
      ensures connected == old(connected) && asset == old(asset)
      ensures currentSpeaker == old(currentSpeaker) && previousSpeaker == old(previousSpeaker)
      ensures recognition.connected == old(recognition.connected)
      ensures recognition.delivered == old(recognition.delivered)
    {
      if connected {
        return;
      }
      recognition.StartRecognition();
      agentSocket := Some(Connecting);
      effects := effects + [OpenSocket(AgentUrlPrefix + agentId)];
    }

    /** The agent socket's open event: connected, one initiation message,
        then microphone streaming. */
    method OnAgentOpen()
      requires Valid() && agentSocket == Some(Connecting)
      modifies this
      ensures Valid()
      ensures connected && agentSocket == Some(Open)
      ensures effects == old(effects) + [Send(ConversationInitiation), StartStreaming]
      ensures asset == old(asset)
      ensures currentSpeaker == old(currentSpeaker) && previousSpeaker == old(previousSpeaker)
    {
      agentSocket := Some(Open);
      connected := true;
      effects := effects + SendMessage(Open, ConversationInitiation);
      effects := effects + [StartStreaming];
    }

    /** An audio event whose payload is non-empty and yields a buffer: the
        only kind of event that reaches the player. */
    predicate QueuesAudio(event: AgentEvent)
    {
      event.Audio? && event.audioBase64 != "" && BufferFor(atob(event.audioBase64)).Some?
    }

    /** The agent socket's message event, dispatched by the event's type and
        a tool call's name. */
    method OnAgentMessage(event: AgentEvent)
      requires Valid() && agentSocket == Some(Open)
      modifies this, player
      ensures Valid()
      ensures asset ==
        (if event.ClientToolCall? && event.toolName == SetImageTool then Asset(Image, event.urlParameter)
         else if event.ClientToolCall? && event.toolName == SetVideoTool then Asset(Video, event.urlParameter)
         else old(asset))
      ensures effects == old(effects) +
        (if event.ClientToolCall? && event.toolName == NavigateTool
         then [Navigate(RobotsPath), OpenWindow(RobotsSite, "_blank")] else [])
      ensures QueuesAudio(event) ==>
        player.started + player.queue == old(player.started + player.queue) + [BufferFor(atob(event.audioBase64)).value]
        && player.isPlaying
      ensures QueuesAudio(event) && old(player.isPlaying) ==>
        player.queue == old(player.queue) + [BufferFor(atob(event.audioBase64)).value]
        && player.reported == old(player.reported)
        && player.started == old(player.started) && player.live == old(player.live)
      ensures QueuesAudio(event) && !old(player.isPlaying) ==>
        player.queue == [] && player.reported == old(player.reported) + [true]
        && player.started == old(player.started) + [BufferFor(atob(event.audioBase64)).value]
        && player.live == old(player.live) + 1
      ensures !QueuesAudio(event) ==>
        player.queue == old(player.queue) && player.isPlaying == old(player.isPlaying)
        && player.started == old(player.started) && player.reported == old(player.reported)
        && player.live == old(player.live)
      ensures connected == old(connected) && agentSocket == old(agentSocket)
      ensures currentSpeaker == old(currentSpeaker) && previousSpeaker == old(previousSpeaker)
    {
      match event
      case ClientToolCall(_, name, url) =>
        if name == NavigateTool {
          effects := effects + [Navigate(RobotsPath)];
        }
        if name == SetImageTool {
          asset := Asset(Image, url);
        }
        if name == SetVideoTool {
          asset := Asset(Video, url);
        }
        if name == NavigateTool {
          effects := effects + [OpenWindow(RobotsSite, "_blank")];
        }
      case Audio(audio, _) =>
        if audio != "" {
          player.AddAudioChunk(atob(audio));
        }
      case _ =>
    }

    /** The agent server starts the closing handshake: the socket is
        closing and no handler runs until the close event. */
    method OnAgentClosing()
      requires Valid() && agentSocket == Some(Open)
      modifies this
      ensures Valid()
      ensures agentSocket == Some(Closing)
      ensures connected == old(connected) && asset == old(asset) && effects == old(effects)
      ensures currentSpeaker == old(currentSpeaker) && previousSpeaker == old(previousSpeaker)
    {
      agentSocket := Some(Closing);
    }

    /** The agent socket's close event, whatever caused it: the session is
        torn down and the asset reset. */
    method OnAgentClose()
      requires Valid() && agentSocket.Some?
      modifies this, player, recognition
      ensures Valid()
      ensures agentSocket == None && !connected
      ensures effects == old(effects) + [StopStreaming]
      ensures player.queue == [] && !player.isPlaying
      ensures player.reported == old(player.reported) + (if old(player.isPlaying) then [false] else [])
      ensures player.started == old(player.started) && player.live == old(player.live)
      ensures recognition.connected == old(recognition.connected)
      ensures recognition.delivered == old(recognition.delivered)
      ensures old(recognition.socket).None? ==>
        recognition.socket == None && recognition.effects == old(recognition.effects)
      ensures old(recognition.socket).Some? ==>
        recognition.socket == Some(AfterCloseCall(old(recognition.socket).value))
        && recognition.effects == old(recognition.effects) + [Close(NormalClosure, Recognition.StopReason)]
      ensures asset == DefaultAsset
      ensures currentSpeaker == old(currentSpeaker) && previousSpeaker == old(previousSpeaker)
    {
      agentSocket := None;
      connected := false;
      effects := effects + [StopStreaming];
      player.ClearQueue();
      recognition.StopRecognition();
      asset := DefaultAsset;
    }

    /** The agent socket's error event is only logged. */
    method OnAgentError()
      requires Valid() && agentSocket.Some?
      ensures unchanged(this)
    {
    }

    /** stopConversation: stop recognition, reset the asset and close the
        agent socket with code 1000 if there is one; safe with none. The
        rest of the teardown follows on the close event. */
    method StopConversation()
      requires Valid()
      modifies this, recognition
      ensures Valid()
      ensures old(agentSocket).None? ==> agentSocket == None && effects == old(effects)
      ensures old(agentSocket).Some? ==>
        agentSocket == Some(AfterCloseCall(old(agentSocket).value))
        && effects == old(effects) + [CloseSocket(NormalClosure, EndReason)]
      ensures old(recognition.socket).None? ==>
        recognition.socket == None && recognition.effects == old(recognition.effects)
      ensures old(recognition.socket).Some? ==>
        recognition.socket == Some(AfterCloseCall(old(recognition.socket).value))
        && recognition.effects == old(recognition.effects) + [Close(NormalClosure, Recognition.StopReason)]
      ensures asset == DefaultAsset && connected == old(connected)
      ensures recognition.connected == old(recognition.connected)
      ensures recognition.delivered == old(recognition.delivered)
      ensures currentSpeaker == old(currentSpeaker) && previousSpeaker == old(previousSpeaker)
    {
      recognition.StopRecognition();
      asset := DefaultAsset;
      if agentSocket.Some? {
        agentSocket := Some(AfterCloseCall(agentSocket.value));
        effects := effects + [CloseSocket(NormalClosure, EndReason)];
      }
    }
  }

  /** As written, two starts before the first socket opens create two sockets. */
  method DoubleStartAsWritten(agentId: string, atob: Decoder) returns (log: seq<Effect>)
    ensures log == [OpenSocket(AgentUrlPrefix + agentId), OpenSocket(AgentUrlPrefix + agentId)]
  {
    var c := new Conversation(agentId, atob);
    c.StartConversationAsWritten();
    c.StartConversationAsWritten();
    log := c.effects;
  }

  /** With the corrected guard, one socket is opened and a further start does
      nothing in every state of a live session: connecting, open, or closing
      after a stop. */
  method DoubleStartOpensOnce(agentId: string, atob: Decoder)
    returns (first: seq<Effect>, whileConnecting: seq<Effect>, whileOpen: seq<Effect>, whileClosing: seq<Effect>)
    ensures first == [OpenSocket(AgentUrlPrefix + agentId)]
    ensures whileConnecting == [] && whileOpen == [] && whileClosing == []
  {
    var c := new Conversation(agentId, atob);
    c.StartConversation();
    first := c.effects;
    c.StartConversation();
    whileConnecting := c.effects[|first|..];
    c.OnAgentOpen();
    var log := c.effects;
    c.StartConversation();
    whileOpen := c.effects[|log|..];
    c.StopConversation();
    log := c.effects;
    c.StartConversation();
    whileClosing := c.effects[|log|..];
  }

  /** Stopping an active session and then receiving the close event leaves
      everything idle: capture stopped, queue empty, recognition asked to
      close, asset reset, no socket. */
  method StopTearsDown(agentId: string, atob: Decoder)
    returns (connected: bool, socketGone: bool, queueEmpty: bool, playing: bool,
             asset: Asset, lastEffect: Effect, recognitionClosing: bool, reported: seq<bool>)
    ensures !connected && socketGone && queueEmpty && !playing
    ensures asset == DefaultAsset && lastEffect == StopStreaming && recognitionClosing
    ensures reported == []
  {
    var c := new Conversation(agentId, atob);
    c.StartConversation();
    c.recognition.OnOpen();
    c.OnAgentOpen();
    c.StopConversation();
    c.OnAgentClose();
    connected, socketGone := c.connected, c.agentSocket == None;
    queueEmpty, playing, asset := c.player.queue == [], c.player.isPlaying, c.asset;
    lastEffect := c.effects[|c.effects| - 1];
    recognitionClosing := c.recognition.socket == Some(Closing);
    reported := c.player.reported;
  }

  /** Ending the session while the agent speaks: the close event reports the
      player idle once, but the source already started keeps sounding. */
  method StopWhileSpeaking(agentId: string, atob: Decoder, chunk: string)
    returns (reported: seq<bool>, sounding: nat, queueEmpty: bool)
    requires chunk != "" && atob(chunk).Some? && |atob(chunk).value| >= 2
    ensures reported == [true, false] && sounding == 1 && queueEmpty
  {
    var c := new Conversation(agentId, atob);
    c.StartConversation();
    c.recognition.OnOpen();
    c.OnAgentOpen();
    c.OnAgentMessage(Audio(chunk, 0));
    c.StopConversation();
    c.OnAgentClose();
    reported, sounding, queueEmpty := c.player.reported, c.player.live, c.player.queue == [];
  }

  /** A recognition result naming `speaker`, every other field zero. */
  function ResultFor(speaker: string): SpeakerRecognitionResult
  {
    SpeakerRecognitionResult(0.0, map[], 0.0, 0.0, 0.0, false, 0.0, 0.0, speaker, 0.0)
  }

  /** With both sockets open, results naming a, a, then b send exactly one
      contextual update, naming b as the new speaker and a as the previous
      one; the first result, with no previous speaker, is silent. */
  method SpeakerChangeAnnouncedOnce(agentId: string, atob: Decoder, a: string, b: string)
    returns (sent: seq<Effect>)
    requires a != "" && a != b
    ensures sent == [Send(ContextualUpdate(ContextMessage(b, a)))]
  {
    var c := new Conversation(agentId, atob);
    c.StartConversation();
    c.recognition.OnOpen();
    c.OnAgentOpen();
    var before := c.effects;
    c.OnRecognitionMessage(Parsed(ResultFor(a)));
    c.OnRecognitionMessage(Unparsable);
    c.OnRecognitionMessage(Parsed(ResultFor(a)));
    assert c.effects == before + [] && c.currentSpeaker == Some(a);
    c.OnRecognitionMessage(Parsed(ResultFor(b)));
    assert c.effects == before + [Send(ContextualUpdate(ContextMessage(b, a)))];
    sent := c.effects[|before|..];
  }

  /** A change detected while the agent socket is still connecting is
      dropped: the recognition socket opened first, and nothing is sent. */
  method ChangeBeforeAgentOpensIsDropped(agentId: string, atob: Decoder, a: string, b: string)
    returns (sent: seq<Effect>, previous: Option<string>, current: Option<string>)
    requires a != "" && a != b
    ensures sent == [] && previous == Some(a) && current == Some(b)
  {
    var c := new Conversation(agentId, atob);
    c.StartConversation();
    c.recognition.OnOpen();
    var before := c.effects;
    c.OnRecognitionMessage(Parsed(ResultFor(a)));
    c.OnRecognitionMessage(Parsed(ResultFor(b)));
    sent := c.effects[|before|..];
    previous, current := c.previousSpeaker, c.currentSpeaker;
  }

  /** A change detected after the agent server began closing the socket is
      dropped, although recognition is still open and the change is
      recorded. */
  method ChangeWhileAgentClosingIsDropped(agentId: string, atob: Decoder, a: string, b: string)
    returns (sent: seq<Effect>, previous: Option<string>, current: Option<string>)
    requires a != "" && a != b
    ensures sent == [] && previous == Some(a) && current == Some(b)
  {
    var c := new Conversation(agentId, atob);
    c.StartConversation();
    c.recognition.OnOpen();
    c.OnAgentOpen();
    c.OnRecognitionMessage(Parsed(ResultFor(a)));
    c.OnAgentClosing();
    var before := c.effects;
    c.OnRecognitionMessage(Parsed(ResultFor(b)));
    sent := c.effects[|before|..];
    previous, current := c.previousSpeaker, c.currentSpeaker;
  }
}
