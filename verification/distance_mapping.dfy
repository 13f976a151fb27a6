/**
 `distance_to_midi_value` from the sampling script: a distance in centimetres inside
 the usable window [2, 400] is scaled linearly onto the note numbers 67..127 and
 truncated; anything outside the window gives `None` and no note is played.
 */
module DistanceMapping {
  import opened Wrappers
  import opened MidiMessages
  import opened MidiSender

  const MinDistance: real := 2.0
  const MaxDistance: real := 400.0

  /** The lowest and highest note numbers the mapping produces. */
  const LowestValue: int := 67
  const HighestValue: int := 127

  function DistanceToMidiValue(distance: real): (r: Option<int>)
    ensures r.None? <==> distance < MinDistance || distance > MaxDistance
    ensures r.Some? ==> LowestValue <= r.value <= HighestValue
  {
    if distance < MinDistance || distance > MaxDistance then None
    else
      var normalized := (distance - MinDistance) / (MaxDistance - MinDistance);
      Some((normalized * 60.0 + 67.0).Floor)
  }

  /** The ends of the window map to the ends of the note range; just outside it, nothing. */
  lemma Endpoints()
    ensures DistanceToMidiValue(2.0) == Some(67)
    ensures DistanceToMidiValue(400.0) == Some(127)
    ensures DistanceToMidiValue(1.0) == None
    ensures DistanceToMidiValue(401.0) == None
  {
  }

  /** A farther distance never gives a lower note. */
  lemma Monotone(d1: real, d2: real)
    requires MinDistance <= d1 <= d2 <= MaxDistance
    ensures DistanceToMidiValue(d1).value <= DistanceToMidiValue(d2).value
  {
  }

  /**
   For a reading with two decimals, `hundredths / 100` centimetres, the note number
   is plain integer arithmetic: 67 plus 60 times the offset from 2 cm, divided by
   the 398 cm width of the window, rounded down.
   */
  lemma HundredthsReference(hundredths: int)
    requires 200 <= hundredths <= 40000
    ensures DistanceToMidiValue(hundredths as real / 100.0) == Some(67 + (60 * (hundredths - 200)) / 39800)
  {
    var n := 60 * (hundredths - 200);
    var q := n / 39800;
    assert q * 39800 <= n < (q + 1) * 39800;
    var x := (hundredths as real / 100.0 - MinDistance) / (MaxDistance - MinDistance) * 60.0;
    assert x == n as real / 39800.0;
    assert q as real <= x < (q + 1) as real;
  }

  /** Where the band of distances that give note number `v` begins: each band is 398/60 cm wide. */
  function BandStart(v: int): real {
    MinDistance + (v - LowestValue) as real * (MaxDistance - MinDistance) / 60.0
  }

  /**
   Inverse view of the mapping: inside the window, `d` gives `v` exactly when `d`
   lies in `v`'s band; the top note is reached only at 400 cm itself.
   */
  lemma ValueBands(d: real, v: int)
    requires MinDistance <= d <= MaxDistance
    ensures DistanceToMidiValue(d) == Some(v) <==>
      && LowestValue <= v <= HighestValue
      && BandStart(v) <= d
      && (d < BandStart(v + 1) || v == HighestValue)
  {
  }

  /** Every value the mapping produces is a note number `send_note_on` accepts. */
  lemma MappedValueIsPlayable(s: Sender, distance: real, transportOk: bool)
    requires DistanceToMidiValue(distance).Some?
    ensures var v := DistanceToMidiValue(distance).value;
      && EncodeNoteOn(0, v, 100) == Some([0x90, v, 100])
      && (SendNoteOn(s, 0, v, 100, transportOk).ok <==> IsReady(s) && transportOk)
  {
  }
}
