/** The speaker-recognition client: one WebSocket to the recognition
    service, binary audio frames out, parsed recognition results in. The
    socket itself is external: its readyState is kept here, its events are
    the On* methods, and what the client does to it is logged in `effects`. */
module Recognition {
  import opened Common
  import opened Pcm

  /** The endpoint startRecognition connects to. */
  const RecognitionUrl := "ws://localhost:8000/ws/recognize"

  /** The reason stopRecognition passes to close(). */
  const StopReason := "Client stopped recognition"

  /** One result of the recognition service (numbers are JavaScript numbers). */
  datatype SpeakerRecognitionResult = SpeakerRecognitionResult(
    timestamp: real,
    speakers: map<string, string>,
    audioLength: real,
    totalSpeakers: real,
    audioEnergy: real,
    activationThreshold: bool,
    activationThresholdLimit: real,
    currentAudioEnergy: real,
    inferredSpeaker: string,
    speakerConfidenceThreshold: real)

  /** An inbound text frame after JSON.parse: a result, or a parse failure. */
  datatype Message = Unparsable | Parsed(result: SpeakerRecognitionResult)

  /** What the client does to its socket. */
  datatype Effect =
    | Connect(url: string)
    | SendBinary(bytes: seq<Byte>)
    | Close(code: int, reason: string)

  /** The loop of base64ToArrayBuffer, run on the binary string atob
      returns: a Uint8Array as long as that string, filled character by
      character. */
  method BinaryStringToBytes(binary: string) returns (bytes: seq<Byte>)
    ensures |bytes| == |binary|
    ensures forall i :: 0 <= i < |binary| ==> bytes[i] == ToUint8(binary[i] as int)
    ensures IsBinaryString(binary) ==> forall i :: 0 <= i < |binary| ==> bytes[i] == binary[i] as int
    ensures bytes == CharCodes(binary)
  {
    var len := |binary|;
    var buffer := new Byte[len];
    var i := 0;
    while i < len
      invariant 0 <= i <= len
      invariant forall k :: 0 <= k < i ==> buffer[k] == ToUint8(binary[k] as int)
    {
      buffer[i] := ToUint8(binary[i] as int);
      i := i + 1;
    }
    bytes := buffer[..];
  }

  class SpeakerRecognition {
    /** socketRef.current: the readyState of the socket, None for null. */
    var socket: Option<ReadyState>
    /** isRecognitionConnected. */
    var connected: bool
    /** What was done to the socket, in order. */
    var effects: seq<Effect>
    /** Every result handed to the result callback, in order. */
    var delivered: seq<SpeakerRecognitionResult>

    /** The reference never holds a closed socket (the close event clears
        it), an open socket has been reported as connected, and the flag is
        only set while the socket is open or closing. */
    ghost predicate Valid()
      reads this
    {
      socket != Some(Closed)
      && (socket == Some(Open) ==> connected)
      && (connected ==> socket == Some(Open) || socket == Some(Closing))
    }

    constructor ()
      ensures Valid()
      ensures socket == None && !connected && effects == [] && delivered == []
    {
      socket, connected, effects, delivered := None, false, [], [];
    }

    /** startRecognition: a no-op while a socket reference exists, including
        a socket already asked to close; otherwise a new socket, connecting. */
    method StartRecognition()
      requires Valid()
      modifies this
      ensures Valid()
      ensures connected == old(connected) && delivered == old(delivered)
      ensures old(socket).Some? ==> socket == old(socket) && effects == old(effects)
      ensures old(socket).None? ==>
        socket == Some(Connecting) && effects == old(effects) + [Connect(RecognitionUrl)]
    {
      if socket.Some? {
        return;
      }
      socket := Some(Connecting);
      effects := effects + [Connect(RecognitionUrl)];
    }

    /** The open event: the socket is open and the client reports connected. */
    method OnOpen()
      requires Valid() && socket == Some(Connecting)
      modifies this
      ensures Valid()
      ensures socket == Some(Open) && connected
      ensures effects == old(effects) && delivered == old(delivered)
    {
      socket := Some(Open);
      connected := true;
    }

    /** The message event: a parsed result goes to the callback, once and
        after every earlier one; a frame that does not parse is dropped and
        the socket stays as it is. */
    method OnMessage(message: Message) returns (result: Option<SpeakerRecognitionResult>)
      requires Valid() && socket == Some(Open)
      modifies this
      ensures Valid()
      ensures socket == old(socket) && connected == old(connected) && effects == old(effects)
      ensures message.Unparsable? ==> result == None && delivered == old(delivered)
      ensures message.Parsed? ==>
        result == Some(message.result) && delivered == old(delivered) + [message.result]
    {
      match message
      case Unparsable =>
        result := None;
      case Parsed(r) =>
        delivered := delivered + [r];
        result := Some(r);
    }

    /** The close event, whatever caused it: the client reports disconnected
        and drops its reference, so a new socket may be started. */
    method OnClose()
      requires Valid() && socket.Some?
      modifies this
      ensures Valid()
      ensures socket == None && !connected
      ensures effects == old(effects) && delivered == old(delivered)
    {
      connected := false;
      socket := None;
    }

    /** The error event is only logged: no field changes. */
    method OnError()
      requires Valid() && socket.Some?
      ensures unchanged(this)
    {
    }

    /** stopRecognition: close the socket with code 1000 if there is one; the
        reference itself stays until the close event. */
    method StopRecognition()
      requires Valid()
      modifies this
      ensures Valid()
      ensures connected == old(connected) && delivered == old(delivered)
      ensures old(socket).None? ==> socket == None && effects == old(effects)
      ensures old(socket).Some? ==>
        socket == Some(AfterCloseCall(old(socket).value))
        && effects == old(effects) + [Close(NormalClosure, StopReason)]
    {
      if socket.Some? {
        socket := Some(AfterCloseCall(socket.value));
        effects := effects + [Close(NormalClosure, StopReason)];
      }
    }

    /** sendAudioChunk: only on an open socket, one binary frame holding the
        decoded bytes of the chunk. `decoded` is what atob returns for the
        chunk, None when it throws, in which case nothing is sent. */
    method SendAudioChunk(decoded: Option<string>)
      requires Valid()
      modifies this
      ensures Valid()
      ensures socket == old(socket) && connected == old(connected) && delivered == old(delivered)
      ensures effects == old(effects) +
        (if old(socket) == Some(Open) && decoded.Some? then [SendBinary(CharCodes(decoded.value))] else [])
    {
      if socket == Some(Open) && decoded.Some? {
        var bytes := BinaryStringToBytes(decoded.value);
        effects := effects + [SendBinary(bytes)];
      }
    }
  }

  /** Stopping does not free the client: until the close event arrives a
      new start is ignored, and only after it does a second socket open. */
  method RestartWaitsForClose() returns (connectsBeforeClose: nat, connectsAfterClose: nat)
    ensures connectsBeforeClose == 1 && connectsAfterClose == 2
  {
    var c := new SpeakerRecognition();
    c.StartRecognition();
    ConnectsAppend([], Connect(RecognitionUrl));
    c.OnOpen();
    c.StopRecognition();
    ConnectsAppend([Connect(RecognitionUrl)], Close(NormalClosure, StopReason));
    c.StartRecognition();
    connectsBeforeClose := Connects(c.effects);
    c.OnClose();
    var before := c.effects;
    c.StartRecognition();
    ConnectsAppend(before, Connect(RecognitionUrl));
    connectsAfterClose := Connects(c.effects);
  }

  /** The number of sockets opened in a log of effects. */
  function Connects(effects: seq<Effect>): nat
  {
    if effects == [] then 0
    else Connects(effects[..|effects| - 1]) + (if effects[|effects| - 1].Connect? then 1 else 0)
  }

  lemma ConnectsAppend(effects: seq<Effect>, e: Effect)
    ensures Connects(effects + [e]) == Connects(effects) + (if e.Connect? then 1 else 0)
  {
  }
}
