/**
 The channel-voice messages of the MIDI 1.0 Detailed Specification as the sender
 packs them: a status byte whose high nibble is the message type and whose low
 nibble is the channel, followed by one or two 7-bit data bytes.

 Each `Encode*` function is the validate-and-pack part of one `send_*` method of
 `MidiSender`: `None` is the early `return False` for an out-of-range argument.
 `Decode` is an independent reference reading of the same byte layouts; the lemmas
 at the end prove the two agree in both directions.
 */
module MidiMessages {
  import opened Wrappers
  import opened Bitwise

  const NoteOffStatus: nat := 0x80
  const NoteOnStatus: nat := 0x90
  const ControlChangeStatus: nat := 0xB0
  const ProgramChangeStatus: nat := 0xC0
  const PitchBendStatus: nat := 0xE0

  /** Pitch-bend values are sent offset by this amount, so that "no bend" is the 14-bit midpoint. */
  const BendOffset := 8192

  predicate IsChannel(c: int) { 0 <= c <= 15 }

  /** A 7-bit data byte: note number, velocity, controller, value or program. */
  predicate IsData(d: int) { 0 <= d <= 127 }

  /** The bends `send_pitch_bend` accepts: the 14-bit range shifted down by the offset. */
  predicate IsBend(b: int) { -BendOffset <= b < BendOffset }

  predicate IsByte(b: int) { 0 <= b <= 255 }

  predicate AllBytes(message: seq<int>) {
    forall i :: 0 <= i < |message| ==> IsByte(message[i])
  }

  /** `type | channel`, the status byte of a channel-voice message. */
  function StatusByte(kind: nat, channel: int): (r: nat)
    requires kind % 16 == 0 && 0x80 <= kind < 0x100 && IsChannel(channel)
    ensures r / 16 == kind / 16 && r % 16 == channel
    ensures 0x80 <= r < 0x100
  {
    assert Pow2(4) == 16;
    OrDisjoint(kind / 16, channel, 4);
    Or(kind, channel)
  }

  function EncodeNoteOn(channel: int, note: int, velocity: int): (r: Option<seq<int>>)
    ensures r.Some? <==> IsChannel(channel) && IsData(note) && IsData(velocity)
    ensures r.Some? ==> r.value == [NoteOnStatus + channel, note, velocity]
  {
    if !(0 <= channel <= 15 && 0 <= note <= 127 && 0 <= velocity <= 127) then None
    else Some([StatusByte(NoteOnStatus, channel), note, velocity])
  }

  function EncodeNoteOff(channel: int, note: int, velocity: int): (r: Option<seq<int>>)
    ensures r.Some? <==> IsChannel(channel) && IsData(note) && IsData(velocity)
    ensures r.Some? ==> r.value == [NoteOffStatus + channel, note, velocity]
  {
    if !(0 <= channel <= 15 && 0 <= note <= 127 && 0 <= velocity <= 127) then None
    else Some([StatusByte(NoteOffStatus, channel), note, velocity])
  }

  function EncodeControlChange(channel: int, controller: int, value: int): (r: Option<seq<int>>)
    ensures r.Some? <==> IsChannel(channel) && IsData(controller) && IsData(value)
    ensures r.Some? ==> r.value == [ControlChangeStatus + channel, controller, value]
  {
    if !(0 <= channel <= 15 && 0 <= controller <= 127 && 0 <= value <= 127) then None
    else Some([StatusByte(ControlChangeStatus, channel), controller, value])
  }

  function EncodeProgramChange(channel: int, program: int): (r: Option<seq<int>>)
    ensures r.Some? <==> IsChannel(channel) && IsData(program)
    ensures r.Some? ==> r.value == [ProgramChangeStatus + channel, program]
  {
    if !(0 <= channel <= 15 && 0 <= program <= 127) then None
    else Some([StatusByte(ProgramChangeStatus, channel), program])
  }

  /** The least significant 7 bits of the offset bend, `value & 0x7F`. */
  function BendLsb(converted: nat): (lsb: nat)
    ensures lsb == converted % 128
  {
    assert Pow2(7) == 128;
    AndLowMask(converted, 7);
    And(converted, 0x7F)
  }

  /** The next 7 bits of the offset bend, `(value >> 7) & 0x7F`. */
  function BendMsb(converted: nat): (msb: nat)
    ensures msb == (converted / 128) % 128
  {
    assert Pow2(7) == 128;
    ShiftRightDivides(converted, 7);
    AndLowMask(ShiftRight(converted, 7), 7);
    And(ShiftRight(converted, 7), 0x7F)
  }

  /** Pitch bend, least significant byte first. */
  function EncodePitchBend(channel: int, bend: int): (r: Option<seq<int>>)
    ensures r.Some? <==> IsChannel(channel) && IsBend(bend)
    ensures r.Some? ==>
      && |r.value| == 3
      && r.value[0] == PitchBendStatus + channel
      && IsData(r.value[1]) && IsData(r.value[2])
      && r.value[2] * 128 + r.value[1] - BendOffset == bend
  {
    if !(0 <= channel <= 15 && -8192 <= bend <= 8191) then None
    else
      var converted := bend + 8192;
      Some([StatusByte(PitchBendStatus, channel), BendLsb(converted), BendMsb(converted)])
  }

  /** One channel-voice event, as the five `send_*` methods take it. */
  datatype ChannelVoice =
    | NoteOff(channel: int, note: int, velocity: int)
    | NoteOn(channel: int, note: int, velocity: int)
    | ControlChange(channel: int, controller: int, value: int)
    | ProgramChange(channel: int, program: int)
    | PitchBend(channel: int, bend: int)

  /** The argument ranges each `send_*` method accepts. */
  predicate Valid(m: ChannelVoice) {
    match m
    case NoteOff(c, n, v) => IsChannel(c) && IsData(n) && IsData(v)
    case NoteOn(c, n, v) => IsChannel(c) && IsData(n) && IsData(v)
    case ControlChange(c, k, v) => IsChannel(c) && IsData(k) && IsData(v)
    case ProgramChange(c, p) => IsChannel(c) && IsData(p)
    case PitchBend(c, b) => IsChannel(c) && IsBend(b)
  }

  function Encode(m: ChannelVoice): (r: Option<seq<int>>)
    ensures r.Some? <==> Valid(m)
  {
    match m
    case NoteOff(c, n, v) => EncodeNoteOff(c, n, v)
    case NoteOn(c, n, v) => EncodeNoteOn(c, n, v)
    case ControlChange(c, k, v) => EncodeControlChange(c, k, v)
    case ProgramChange(c, p) => EncodeProgramChange(c, p)
    case PitchBend(c, b) => EncodePitchBend(c, b)
  }

  /**
   Reference reading of a channel-voice message: the type from the status byte's
   high nibble, the channel from its low nibble, and the data bytes by position.
   Anything else (wrong length, data byte with the top bit set, other status) is `None`.
   */
  function Decode(bytes: seq<int>): (r: Option<ChannelVoice>)
    ensures r.Some? ==> Valid(r.value)
  {
    if |bytes| == 0 || !IsByte(bytes[0]) then None
    else
      var kind, channel := bytes[0] / 16, bytes[0] % 16;
      if |bytes| == 2 then
        if kind == 0xC && IsData(bytes[1]) then Some(ProgramChange(channel, bytes[1]))
        else None
      else if |bytes| == 3 && IsData(bytes[1]) && IsData(bytes[2]) then
        if kind == 0x8 then Some(NoteOff(channel, bytes[1], bytes[2]))
        else if kind == 0x9 then Some(NoteOn(channel, bytes[1], bytes[2]))
        else if kind == 0xB then Some(ControlChange(channel, bytes[1], bytes[2]))
        else if kind == 0xE then Some(PitchBend(channel, bytes[2] * 128 + bytes[1] - BendOffset))
        else None
      else None
  }

  /** Every encoded message is a well-formed 2- or 3-byte channel-voice message. */
  lemma EncodedIsWellFormed(m: ChannelVoice)
    requires Valid(m)
    ensures var bytes := Encode(m).value;
      && (|bytes| == 2 <==> m.ProgramChange?)
      && (|bytes| == 3 <==> !m.ProgramChange?)
      && 0x80 <= bytes[0] <= 0xEF && bytes[0] % 16 == m.channel
      && (forall i :: 1 <= i < |bytes| ==> IsData(bytes[i]))
      && AllBytes(bytes)
  {
  }

  /** Decoding what was encoded gives back the event. */
  lemma DecodeEncode(m: ChannelVoice)
    requires Valid(m)
    ensures Decode(Encode(m).value) == Some(m)
  {
  }

  /** Encoding what was decoded gives back the bytes. */
  lemma EncodeDecode(bytes: seq<int>)
    requires Decode(bytes).Some?
    ensures Encode(Decode(bytes).value) == Some(bytes)
  {
    var m := Decode(bytes).value;
    assert bytes[0] == 16 * (bytes[0] / 16) + bytes[0] % 16;
    match m
    case ProgramChange(_, _) =>
      assert bytes == [bytes[0], bytes[1]];
    case PitchBend(_, _) =>
      PitchBendBytes(bytes);
    case _ =>
      assert bytes == [bytes[0], bytes[1], bytes[2]];
  }

  /** The pitch-bend case of `EncodeDecode`: the data bytes are the two 7-bit halves of the offset bend. */
  lemma PitchBendBytes(bytes: seq<int>)
    requires Decode(bytes).Some? && Decode(bytes).value.PitchBend?
    ensures EncodePitchBend(Decode(bytes).value.channel, Decode(bytes).value.bend) == Some(bytes)
  {
    assert |bytes| == 3 && bytes[0] / 16 == 0xE;
    assert bytes[0] == 0xE0 + bytes[0] % 16;
    var v := bytes[2] * 128 + bytes[1];
    DivModUnique(v, 128, bytes[2], bytes[1]);
    assert bytes == [bytes[0], bytes[1], bytes[2]];
  }

  /** Distinct valid events never share an encoding. */
  lemma EncodeInjective(m1: ChannelVoice, m2: ChannelVoice)
    requires Valid(m1) && Valid(m2) && Encode(m1) == Encode(m2)
    ensures m1 == m2
  {
    DecodeEncode(m1);
    DecodeEncode(m2);
  }

  /** The pitch-bend byte pair round-trips through the 14-bit offset value. */
  lemma PitchBendRoundTrip(channel: int, bend: int)
    requires IsChannel(channel) && IsBend(bend)
    ensures Decode(EncodePitchBend(channel, bend).value) == Some(PitchBend(channel, bend))
  {
    DecodeEncode(PitchBend(channel, bend));
  }
}
