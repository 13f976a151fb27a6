# Distance-to-MIDI bridge: MIDI sender and distance mapping in Dafny

The system reads an ultrasonic rangefinder, maps each distance to a note number and
plays it as a MIDI Note On. This project models the two pure parts of it:

- the `MidiSender` class (`modules/jj_midi.py`): choosing an output port from the
  list of port names, the readiness test, the raw send with its byte check, and the
  five typed senders that range-check their arguments and pack the channel-voice
  messages of the MIDI 1.0 Detailed Specification (Note Off 0x8n, Note On 0x9n,
  Control Change 0xBn, Program Change 0xCn, Pitch Bend 0xEn with the least
  significant 7 bits first);
- `distance_to_midi_value` (`main.py`): the window [2, 400] cm scaled onto note
  numbers 67..127.

Files and modules:

- `wrappers.dfy` (`Wrappers`): `Option`, used for Python's `None` and for refusals.
- `bitwise.dfy` (`Bitwise`): Python's `&`, `|` and `>>` on non-negative unbounded
  integers, defined bit by bit, with the two facts the encoder needs (masking with
  `2^k - 1` is `mod 2^k`; or-ing a small value into a multiple of `2^k` adds).
- `midi_messages.dfy` (`MidiMessages`): the `Encode*` functions (validate, then pack
  with the same `|`, `&`, `>>` as the source), the `ChannelVoice` datatype, and
  `Decode`, an independent reading of the byte layouts used as the encoders' partner.
- `port_selection.dfy` (`PortSelection`): ASCII lower-casing, substring search, the
  first-match loop, and `SelectPort`.
- `midi_sender.dfy` (`MidiSender`): the sender as a value `Sender(port, sent)`, where
  `sent` is the log of everything the transport accepted; each send returns
  `Sent(ok, after)`. Transport success (`open_port`, `send_message`) is a boolean
  parameter, so every result holds for either outcome of the transport.
- `distance_mapping.dfy` (`DistanceMapping`): the distance mapping over exact reals.

The source's own comments disagree with its code in two places; the model follows the
code. The pitch-bend doc comment allows 0..16383, but the check at
`modules/jj_midi.py:196` accepts only -8192..8191. The comments of
`distance_to_midi_value` speak of 0..127 and of 60..127, but the expression computes
67..127.

## Model

| member | source | states |
|---|---|---|
| Bitwise.AndLowMask | modules/jj_midi.py:203-204 | `v & (2^k - 1)` equals `v mod 2^k` for every non-negative `v` |
| Bitwise.ShiftRightDivides | modules/jj_midi.py:204 | `a >> k` is `a` divided by `2^k`, rounded down |
| Bitwise.OrDisjoint | modules/jj_midi.py:127 | or-ing a value below `2^k` into a multiple of `2^k` is plain addition |
| MidiMessages.StatusByte | modules/jj_midi.py:127 | `type | channel` has the message type as its high nibble and the channel as its low nibble, and is a status byte (0x80..0xFF) |
| MidiMessages.EncodeNoteOn | modules/jj_midi.py:124-128 | accepted exactly when channel is 0..15 and note and velocity are 0..127; then the bytes are `[0x90 + channel, note, velocity]` |
| MidiMessages.EncodeNoteOff | modules/jj_midi.py:143-147 | accepted exactly when channel is 0..15 and note and velocity are 0..127; then the bytes are `[0x80 + channel, note, velocity]` |
| MidiMessages.EncodeControlChange | modules/jj_midi.py:161-165 | accepted exactly when channel is 0..15 and controller and value are 0..127; then the bytes are `[0xB0 + channel, controller, value]` |
| MidiMessages.EncodeProgramChange | modules/jj_midi.py:178-182 | accepted exactly when channel is 0..15 and program is 0..127; then the two bytes are `[0xC0 + channel, program]` |
| MidiMessages.BendLsb | modules/jj_midi.py:203 | `value & 0x7F` is the offset bend modulo 128 |
| MidiMessages.BendMsb | modules/jj_midi.py:204 | `(value >> 7) & 0x7F` is the offset bend divided by 128, modulo 128 |
| MidiMessages.EncodePitchBend | modules/jj_midi.py:196-207 | accepted exactly when channel is 0..15 and bend is -8192..8191; then three bytes `0xE0 + channel`, lsb, msb with lsb and msb 7-bit and `msb * 128 + lsb - 8192 == bend` |
| MidiMessages.Encode | modules/jj_midi.py:113-207 | a channel-voice event is encoded exactly when all its arguments are in the ranges its `send_*` method checks |
| MidiMessages.EncodedIsWellFormed | modules/jj_midi.py:124-207 | every accepted event becomes 3 bytes (2 for Program Change), a status byte 0x80..0xEF whose low nibble is the channel, then 7-bit data bytes, all within 0..255 |
| MidiMessages.DecodeEncode | modules/jj_midi.py:124-207 | reading back the bytes of any accepted event with the reference decoder gives the same event |
| MidiMessages.EncodeDecode | modules/jj_midi.py:124-207 | any byte sequence the reference decoder accepts is exactly what the encoder produces for the decoded event |
| MidiMessages.PitchBendBytes | modules/jj_midi.py:202-207 | any pitch-bend message the reference decoder accepts is exactly what the pitch-bend encoder produces for the decoded channel and bend: the data bytes are the low and high 7 bits of `bend + 8192` |
| MidiMessages.EncodeInjective | modules/jj_midi.py:124-207 | two different accepted events never produce the same bytes |
| MidiMessages.PitchBendRoundTrip | modules/jj_midi.py:200-207 | decoding `msb * 128 + lsb - 8192` from the pitch-bend bytes gives back the bend and the channel |
| PortSelection.Lower | modules/jj_midi.py:44 | lower-casing keeps the length and folds each character on its own |
| PortSelection.ContainsFrom | modules/jj_midi.py:44 | the search from position `from` succeeds exactly when the fragment occurs at some position at or after `from` |
| PortSelection.Contains | modules/jj_midi.py:44 | Python's `in` on strings: true exactly when the fragment occurs somewhere in the name |
| PortSelection.FirstMatchFrom | modules/jj_midi.py:42-46 | the loop with `break` returns the smallest index whose lower-cased name contains the lower-cased fragment, or nothing when no port matches |
| PortSelection.SelectPort | modules/jj_midi.py:24-73 | no ports gives nothing; an index gives that port when in bounds and nothing otherwise, whatever the name; else a name gives the first case-insensitive match or nothing; else the prompted index as for an explicit index |
| PortSelection.IndexTakesPrecedence | modules/jj_midi.py:31-41 | with an explicit index, the name and the prompt do not influence the choice |
| PortSelection.LowerIdempotent | modules/jj_midi.py:44 | lower-casing twice is lower-casing once |
| PortSelection.NameMatchIgnoresCase | modules/jj_midi.py:44 | whether a fragment matches a port name does not depend on the case of either |
| MidiSender.Connect | modules/jj_midi.py:10-80 | the new sender has sent nothing; it is ready exactly when a port was selected and opening it succeeded, and then it holds the selected index and that port's name; an empty port list or a failed open leaves it not ready |
| MidiSender.SendRaw | modules/jj_midi.py:96-111 | succeeds exactly when the sender is ready, every byte is in 0..255 and the transport accepts; on success the message is appended to the log unchanged, otherwise the log is untouched; the port never changes |
| MidiSender.SendNoteOn | modules/jj_midi.py:124-129 | succeeds exactly when ready, arguments in range and the transport accepts; then the log gains `[0x90 + channel, note, velocity]`, otherwise it is unchanged |
| MidiSender.SendNoteOff | modules/jj_midi.py:131-148 | as for Note On with status 0x80; velocity defaults to 0 |
| MidiSender.SendControlChange | modules/jj_midi.py:161-166 | as for Note On with status 0xB0 and controller, value |
| MidiSender.SendProgramChange | modules/jj_midi.py:178-183 | succeeds exactly when ready, channel 0..15, program 0..127 and the transport accepts; then the log gains `[0xC0 + channel, program]` |
| MidiSender.SendPitchBend | modules/jj_midi.py:196-208 | succeeds exactly when ready, channel 0..15, bend -8192..8191 and the transport accepts; then the log gains one message `[0xE0 + channel, lsb, msb]` from which the bend is recovered |
| MidiSender.Step | modules/jj_midi.py:87-208 | any send appends at most one message, every appended message is a byte sequence, a raw send appends its argument unchanged, and a typed send succeeds exactly when ready, arguments valid and the transport accepts |
| MidiSender.VoiceStepLogsEvent | modules/jj_midi.py:113-208 | a successful typed send logs exactly the encoding of its event, and that message decodes back to the event |
| MidiSender.NotReadyTransmitsNothing | modules/jj_midi.py:83-98 | a sender that is not ready stays the same value through any sequence of sends: nothing is logged and it never becomes ready |
| MidiSender.RunKeepsLogWellFormed | modules/jj_midi.py:100-108 | over any sequence of sends the port is unchanged, the log only grows at its end, by at most one message per send, and every new message has all bytes in 0..255 |
| MidiSender.BadIndexNeverTransmits | modules/jj_midi.py:31-40 | a sender constructed with an out-of-range index transmits nothing, whatever is sent to it |
| DistanceMapping.DistanceToMidiValue | main.py:5-13 | gives no value exactly when the distance is below 2 or above 400; otherwise a note number in 67..127 |
| DistanceMapping.Endpoints | main.py:9-13 | 2 cm gives 67, 400 cm gives 127, 1 cm and 401 cm give no value |
| DistanceMapping.Monotone | main.py:12-13 | inside the window a larger distance never gives a smaller note number |
| DistanceMapping.HundredthsReference | main.py:12-13 | for a distance with two decimals, `h / 100` cm, the result is the integer `67 + (60 * (h - 200)) div 39800` |
| DistanceMapping.ValueBands | main.py:12-13 | inside the window a distance gives note `v` exactly when it lies in `v`'s band of width 398/60 cm; 127 only at 400 cm |
| DistanceMapping.MappedValueIsPlayable | main.py:32-36 | every mapped value passes Note On's validation on channel 0 with velocity 100, so the send fails only if the sender is not ready or the transport fails |

## Left out

- The rtmidi transport itself (`MidiOut`, `get_ports`, `open_port`, `send_message`, `is_port_open`): the port list is a parameter, the success of opening and sending is a boolean parameter, and the messages handed over are a log in the sender value.
- MidiSender.SendRaw: only `rtmidi.SystemError` from `send_message` becomes `False` (modules/jj_midi.py:109-111); any other exception the transport raises reaches the caller, and the model has no such outcome. The transport code is not part of this model, so which messages make it raise (an empty raw message, or a non-SysEx raw message longer than 3 bytes, say) is not captured: the model logs them as sent. The typed sends always hand over 2 or 3 bytes.
- MidiSender.Connect: only `rtmidi.SystemError` from `open_port` leaves the sender not ready (modules/jj_midi.py:78-80); any other exception escapes the constructor, and the model has no such outcome.
- Printing of diagnostics and of the port list everywhere: output only.
- The interactive prompt (modules/jj_midi.py:56-73): the integer the user types is a parameter `prompted`, with `None` for input that is not a number; the prompt text is not modelled.
- The `port_name`/`port_index` attributes kept after a failed `open_port`: the model drops the port entirely, as `self.midiout = None` makes the sender unusable.
- `__del__` (modules/jj_midi.py:210-217): finalisation closes the port; no modelled operation runs after it. The open flag of `Port` is kept so that `IsReady` is the two-part test of `_is_ready`.
- PortSelection.Lower: folds ASCII letters only; Python's `str.lower()` also folds other Unicode letters.
- Arguments that are not integers (a float or bool channel, say): all arguments are modelled as integers.
- DistanceMapping.DistanceToMidiValue: computed over exact reals, so rounding of Python floats near a band edge is not captured; only the default window 2..400 is modelled, as the sampling script uses it (a window with equal ends would divide by zero in the source).
- The sensor (`modules/jj_ultrasonic.py`): GPIO polling, wall-clock timing, sleeping and float distance arithmetic.
- The sampling loop, interrupt handling and cleanup of `main.py` (main.py:15-51), and the scripts `midi.py` and `miditest.py`: glue and demonstrations.
