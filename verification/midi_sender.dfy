/**
 The `MidiSender` object as a value: the port it holds (if construction succeeded)
 and the log of messages the transport has accepted so far. Every operation returns
 the `True`/`False` result of the source method together with the sender after it.

 The transport is abstract: `transportOk` is whether opening the port or sending a
 message succeeded (`False` stands for a caught `rtmidi.SystemError`), and the log
 `sent` is everything the transport has been handed successfully.
 */
module MidiSender {
  import opened Wrappers
  import opened MidiMessages
  import opened PortSelection

  /** An opened port: its index and name, and whether the transport reports it open. */
  datatype Port = Port(index: nat, name: string, isOpen: bool)

  /** `port == None` is the source's `self.midiout = None`. */
  datatype Sender = Sender(port: Option<Port>, sent: seq<seq<int>>)

  /** The result of a send: the method's boolean and the sender afterwards. */
  datatype Sent = Sent(ok: bool, after: Sender)

  /** `_is_ready`: a port object exists and the transport reports it open. */
  predicate IsReady(s: Sender) {
    s.port.Some? && s.port.value.isOpen
  }

  /**
   The constructor: choose a port from `ports` and try to open it; `openOk` is
   whether `open_port` succeeded.
   */
  function Connect(ports: seq<string>, portName: Option<string>, portIndex: Option<int>,
                   prompted: Option<int>, openOk: bool): (s: Sender)
    ensures s.sent == []
    ensures |ports| == 0 ==> !IsReady(s)
    ensures !openOk ==> !IsReady(s)
    ensures IsReady(s) <==> openOk && SelectPort(ports, portName, portIndex, prompted).Some?
    ensures IsReady(s) ==>
      && s.port.value.index == SelectPort(ports, portName, portIndex, prompted).value
      && s.port.value.name == ports[s.port.value.index]
    ensures s.port.Some? ==> IsReady(s)
  {
    match SelectPort(ports, portName, portIndex, prompted)
    case None => Sender(None, [])
    case Some(i) => if openOk then Sender(Some(Port(i, ports[i], true)), []) else Sender(None, [])
  }

  /** `send_raw_message`: refuses unless ready and every byte is in 0..255. */
  function SendRaw(s: Sender, message: seq<int>, transportOk: bool): (r: Sent)
    ensures r.ok <==> IsReady(s) && AllBytes(message) && transportOk
    ensures r.after.port == s.port
    ensures r.ok ==> r.after.sent == s.sent + [message]
    ensures !r.ok ==> r.after.sent == s.sent
  {
    if !IsReady(s) then Sent(false, s)
    else if !(forall i :: 0 <= i < |message| ==> 0 <= message[i] <= 255) then Sent(false, s)
    else if !transportOk then Sent(false, s)
    else Sent(true, s.(sent := s.sent + [message]))
  }

  /** Hands an encoder's result to `SendRaw`, or refuses if the encoder rejected its arguments. */
  function SendEncoded(s: Sender, encoded: Option<seq<int>>, transportOk: bool): (r: Sent)
    ensures r.ok <==> encoded.Some? && IsReady(s) && AllBytes(encoded.value) && transportOk
    ensures r.after.port == s.port
    ensures r.ok ==> r.after.sent == s.sent + [encoded.value]
    ensures !r.ok ==> r.after.sent == s.sent
  {
    match encoded
    case None => Sent(false, s)
    case Some(message) => SendRaw(s, message, transportOk)
  }

  function SendNoteOn(s: Sender, channel: int, note: int, velocity: int, transportOk: bool): (r: Sent)
    ensures r.ok <==> IsReady(s) && IsChannel(channel) && IsData(note) && IsData(velocity) && transportOk
    ensures r.after.port == s.port
    ensures r.ok ==> r.after.sent == s.sent + [[0x90 + channel, note, velocity]]
    ensures !r.ok ==> r.after.sent == s.sent
  {
    SendEncoded(s, EncodeNoteOn(channel, note, velocity), transportOk)
  }

  function SendNoteOff(s: Sender, channel: int, note: int, velocity: int := 0, transportOk: bool): (r: Sent)
    ensures r.ok <==> IsReady(s) && IsChannel(channel) && IsData(note) && IsData(velocity) && transportOk
    ensures r.after.port == s.port
    ensures r.ok ==> r.after.sent == s.sent + [[0x80 + channel, note, velocity]]
    ensures !r.ok ==> r.after.sent == s.sent
  {
    SendEncoded(s, EncodeNoteOff(channel, note, velocity), transportOk)
  }

  function SendControlChange(s: Sender, channel: int, controller: int, value: int, transportOk: bool): (r: Sent)
    ensures r.ok <==> IsReady(s) && IsChannel(channel) && IsData(controller) && IsData(value) && transportOk
    ensures r.after.port == s.port
    ensures r.ok ==> r.after.sent == s.sent + [[0xB0 + channel, controller, value]]
    ensures !r.ok ==> r.after.sent == s.sent
  {
    SendEncoded(s, EncodeControlChange(channel, controller, value), transportOk)
  }

  function SendProgramChange(s: Sender, channel: int, program: int, transportOk: bool): (r: Sent)
    ensures r.ok <==> IsReady(s) && IsChannel(channel) && IsData(program) && transportOk
    ensures r.after.port == s.port
    ensures r.ok ==> r.after.sent == s.sent + [[0xC0 + channel, program]]
    ensures !r.ok ==> r.after.sent == s.sent
  {
    SendEncoded(s, EncodeProgramChange(channel, program), transportOk)
  }

  function SendPitchBend(s: Sender, channel: int, bend: int, transportOk: bool): (r: Sent)
    ensures r.ok <==> IsReady(s) && IsChannel(channel) && IsBend(bend) && transportOk
    ensures r.after.port == s.port
    ensures r.ok ==> |r.after.sent| == |s.sent| + 1 && r.after.sent[..|s.sent|] == s.sent
    ensures r.ok ==> var m := r.after.sent[|s.sent|];
      && |m| == 3 && m[0] == 0xE0 + channel && IsData(m[1]) && IsData(m[2])
      && m[2] * 128 + m[1] - BendOffset == bend
    ensures !r.ok ==> r.after.sent == s.sent
  {
    SendEncoded(s, EncodePitchBend(channel, bend), transportOk)
  }

  /** One call a client makes on the sender. */
  datatype Command = Raw(message: seq<int>) | Voice(event: ChannelVoice)

  /** Dispatches a command to the matching `send_*` method. */
  function Step(s: Sender, c: Command, transportOk: bool): (r: Sent)
    ensures r.after.port == s.port
    ensures r.ok ==> |r.after.sent| == |s.sent| + 1 && r.after.sent[..|s.sent|] == s.sent
    ensures r.ok ==> AllBytes(r.after.sent[|s.sent|])
    ensures !r.ok ==> r.after.sent == s.sent
    ensures c.Raw? ==> (r.ok <==> IsReady(s) && AllBytes(c.message) && transportOk)
    ensures c.Raw? && r.ok ==> r.after.sent[|s.sent|] == c.message
    ensures c.Voice? ==> (r.ok <==> IsReady(s) && Valid(c.event) && transportOk)
  {
    match c
    case Raw(m) => SendRaw(s, m, transportOk)
    case Voice(NoteOff(ch, n, v)) => SendNoteOff(s, ch, n, v, transportOk)
    case Voice(NoteOn(ch, n, v)) => SendNoteOn(s, ch, n, v, transportOk)
    case Voice(ControlChange(ch, k, v)) => SendControlChange(s, ch, k, v, transportOk)
    case Voice(ProgramChange(ch, p)) => SendProgramChange(s, ch, p, transportOk)
    case Voice(PitchBend(ch, b)) => SendPitchBend(s, ch, b, transportOk)
  }

  /** A voice command that succeeds logs exactly the bytes that decode back to its event. */
  lemma VoiceStepLogsEvent(s: Sender, m: ChannelVoice, transportOk: bool)
    requires Step(s, Voice(m), transportOk).ok
    ensures Step(s, Voice(m), transportOk).after.sent == s.sent + [Encode(m).value]
    ensures Decode(Step(s, Voice(m), transportOk).after.sent[|s.sent|]) == Some(m)
  {
    DecodeEncode(m);
    match m
    case PitchBend(ch, b) =>
      assert Step(s, Voice(m), transportOk) == SendEncoded(s, EncodePitchBend(ch, b), transportOk);
    case _ =>
  }

  /** Applies `cmds` in order; `outcomes[i]` is whether the transport accepted the i-th send. */
  function Run(s: Sender, cmds: seq<Command>, outcomes: seq<bool>): Sender
    requires |outcomes| == |cmds|
    decreases |cmds|
  {
    if cmds == [] then s
    else Run(Step(s, cmds[0], outcomes[0]).after, cmds[1..], outcomes[1..])
  }

  /** A sender that is not ready stays so and transmits nothing, whatever it is asked to do. */
  lemma {:induction false} NotReadyTransmitsNothing(s: Sender, cmds: seq<Command>, outcomes: seq<bool>)
    requires |outcomes| == |cmds|
    requires !IsReady(s)
    ensures Run(s, cmds, outcomes) == s
    decreases |cmds|
  {
    if cmds != [] {
      var r := Step(s, cmds[0], outcomes[0]);
      assert r.after == s;
      NotReadyTransmitsNothing(s, cmds[1..], outcomes[1..]);
    }
  }

  /**
   Over any run the port is untouched, the log only grows, at most one message per
   command, and every logged message is a sequence of bytes in 0..255.
   */
  lemma {:induction false} RunKeepsLogWellFormed(s: Sender, cmds: seq<Command>, outcomes: seq<bool>)
    requires |outcomes| == |cmds|
    ensures var t := Run(s, cmds, outcomes);
      && t.port == s.port
      && |s.sent| <= |t.sent| <= |s.sent| + |cmds|
      && t.sent[..|s.sent|] == s.sent
      && forall i :: |s.sent| <= i < |t.sent| ==> AllBytes(t.sent[i])
    decreases |cmds|
  {
    if cmds != [] {
      var r := Step(s, cmds[0], outcomes[0]);
      RunKeepsLogWellFormed(r.after, cmds[1..], outcomes[1..]);
      var t := Run(s, cmds, outcomes);
      assert t == Run(r.after, cmds[1..], outcomes[1..]);
      assert r.after.sent[..|s.sent|] == s.sent;
      assert t.sent[..|r.after.sent|] == r.after.sent;
      assert t.sent[..|s.sent|] == r.after.sent[..|s.sent|];
      forall i | |s.sent| <= i < |t.sent|
        ensures AllBytes(t.sent[i])
      {
        if i < |r.after.sent| {
          assert t.sent[i] == r.after.sent[i];
        }
      }
    }
  }

  /** A sender constructed on an out-of-range index never transmits anything. */
  lemma BadIndexNeverTransmits(ports: seq<string>, portName: Option<string>, index: int,
                               prompted: Option<int>, openOk: bool,
                               cmds: seq<Command>, outcomes: seq<bool>)
    requires !(0 <= index < |ports|)
    requires |outcomes| == |cmds|
    ensures Run(Connect(ports, portName, Some(index), prompted, openOk), cmds, outcomes).sent == []
  {
    NotReadyTransmitsNothing(Connect(ports, portName, Some(index), prompted, openOk), cmds, outcomes);
  }
}
