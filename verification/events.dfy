/**
 * `bm_ev_st` and `bm_delta_ev_st` of basicmidi.h: one MIDI event, decoded,
 * and an event together with its delay in ticks. The C struct is a tag
 * and a union; here each tag is a constructor carrying only its own
 * fields, with the C field types. The ranges that the header documents
 * for each field, narrower than the C types, make up `WellFormed`.
 */
module Events {
  import opened CInt
  import opened PatchIds
  import opened PatchNames
  import opened PatchTable
  import opened PatchLayout
  import opened Wrappers
  import EventTypes

  /** The channels 0..15 of a MIDI port. */
  const ChannelCount: nat := 16

  /** The largest unsigned 7-bit value (note numbers and velocities). */
  const Max7: nat := 0x7F

  /** The largest unsigned 14-bit value (volumes and the modulation wheel). */
  const Max14: nat := 0x3FFF

  /** The smallest and largest signed 14-bit values (pans and pitch bend). */
  const Min14Signed: int := -0x2000
  const Max14Signed: int := 0x1FFF

  /** The largest unsigned 24-bit value (tempo in microseconds per quarter note). */
  const Max24: nat := 0xFF_FFFF

  datatype Event =
    | Reset(divisor: u16)                        // ticks per quarter note
    | Tempo(tempo: u32)                          // microseconds per quarter note
    | MasterVolume(volume: u16)
    | MasterPan(pan: i16)                        // -8192 is left, 8191 right
    | NoteOn(channel: u8, note: u8, velocity: u8)
    | NoteOff(channel: u8, note: u8)
    | PedalOn(channel: u8, pedal: u8)
    | PedalOff(channel: u8, pedal: u8)
    | ChannelVolume(channel: u8, volume: u16)
    | ChannelPan(channel: u8, pan: i16)
    | Patch(channel: u8, patch: u16)
    | Bend(channel: u8, bend: i16)               // -8192 is two semitones down, 8191 two up
    | Mod(channel: u8, modulation: u16)

  /** An event and the number of ticks since the previous event. */
  datatype DeltaEvent = DeltaEvent(delta: i32, event: Event)

  /**
   * The `type` tag the C struct carries for an event. The tags numbered
   * from `BM_EV_NOTEON` (4) on are exactly the ones whose union member
   * carries a channel; the four below belong to the whole port.
   */
  function TypeOf(e: Event): (t: EventTypes.EventType)
    ensures IsChannelEvent(e) <==> 4 <= EventTypes.Code(t)
  {
    match e
    case Reset(_) => EventTypes.Reset
    case Tempo(_) => EventTypes.Tempo
    case MasterVolume(_) => EventTypes.MasterVolume
    case MasterPan(_) => EventTypes.MasterPan
    case NoteOn(_, _, _) => EventTypes.NoteOn
    case NoteOff(_, _) => EventTypes.NoteOff
    case PedalOn(_, _) => EventTypes.PedalOn
    case PedalOff(_, _) => EventTypes.PedalOff
    case ChannelVolume(_, _) => EventTypes.ChannelVolume
    case ChannelPan(_, _) => EventTypes.ChannelPan
    case Patch(_, _) => EventTypes.Patch
    case Bend(_, _) => EventTypes.Bend
    case Mod(_, _) => EventTypes.Mod
  }

  /** The events that belong to one channel rather than to the whole port. */
  predicate IsChannelEvent(e: Event) {
    !(e.Reset? || e.Tempo? || e.MasterVolume? || e.MasterPan?)
  }

  /** Every field within the range the header documents for it. */
  predicate WellFormed(e: Event) {
    && (IsChannelEvent(e) ==> e.channel < ChannelCount)
    && match e
       case Reset(_) => true
       case Tempo(tempo) => tempo <= Max24
       case MasterVolume(volume) => volume <= Max14
       case MasterPan(pan) => Min14Signed <= pan <= Max14Signed
       case NoteOn(_, note, velocity) => note <= Max7 && velocity <= Max7
       case NoteOff(_, note) => note <= Max7
       case PedalOn(_, pedal) => pedal < PedalCount
       case PedalOff(_, pedal) => pedal < PedalCount
       case ChannelVolume(_, volume) => volume <= Max14
       case ChannelPan(_, pan) => Min14Signed <= pan <= Max14Signed
       case Patch(_, patch) => patch < PatchCount
       case Bend(_, bend) => Min14Signed <= bend <= Max14Signed
       case Mod(_, modulation) => modulation <= Max14
  }

  /** A delay is a count of ticks, so it is never negative. */
  predicate WellFormedDelta(d: DeltaEvent) {
    0 <= d.delta && WellFormed(d.event)
  }

  /**
   * A patch event is well formed exactly when its channel is in range and
   * `bm_patch_str` gives its patch a real name.
   */
  lemma PatchEventNamed(channel: u8, patch: u16)
    ensures WellFormed(Patch(channel, patch)) <==>
      channel < ChannelCount && PatchStr(patch) != InvalidPatch
  {
  }

  /** The pedal of a well-formed pedal event is one of the six pedal ids. */
  lemma PedalEventPedal(e: Event)
    requires (e.PedalOn? || e.PedalOff?) && WellFormed(e)
    ensures e.pedal in Pedals && Pedals[e.pedal] == e.pedal
  {
    PedalLayout();
  }

  /**
   * The patch of a well-formed patch event selects a program and a bank
   * that are both 7-bit MIDI data bytes.
   */
  lemma PatchEventCodes(channel: u8, patch: u16)
    requires WellFormed(Patch(channel, patch))
    ensures |PatchMidi| == PatchCount
    ensures 0 <= Program(PatchMidi[patch]) < 0x80 && 0 <= Bank(PatchMidi[patch]) < 0x80
  {
    EntriesPacked();
    PackedRoundTrip(PatchMidi[patch]);
  }

  /**
   * Searching the half of the table a well-formed patch event's patch lies
   * in (melodic or percussion) for its code gives the patch back.
   */
  lemma PatchEventLookup(channel: u8, patch: u16)
    requires WellFormed(Patch(channel, patch))
    ensures |PatchMidi| == PatchCount
    ensures patch < MelodyCount ==> FindCode(PatchMidi, PatchMidi[patch], 0, MelodyCount) == Some(patch)
    ensures MelodyCount <= patch ==> FindCode(PatchMidi, PatchMidi[patch], MelodyCount, PatchCount) == Some(patch)
  {
    if patch < MelodyCount {
      MelodyLookupRoundTrip(patch);
    } else {
      PercussionLookupRoundTrip(patch);
    }
  }
}
