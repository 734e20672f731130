/**
 * `bm_ev_type` of basicmidi.h: the tag of an event, numbered from 0 in
 * declaration order as a C enum is.
 */
module EventTypes {
  import opened Wrappers

  /** The number of event types. */
  const EventTypeCount: nat := 13

  datatype EventType =
    | Reset          // reset all sound, optionally setting ticks per quarter note
    | Tempo          // microseconds per quarter note
    | MasterVolume
    | MasterPan
    | NoteOn
    | NoteOff
    | PedalOn        // a foot pedal pressed
    | PedalOff       // a foot pedal released
    | ChannelVolume
    | ChannelPan
    | Patch          // the instrument of a channel
    | Bend           // pitch bend
    | Mod            // modulation wheel

  /** The value of the enumerator. */
  function Code(t: EventType): (code: nat)
    ensures code < EventTypeCount
  {
    match t
    case Reset => 0
    case Tempo => 1
    case MasterVolume => 2
    case MasterPan => 3
    case NoteOn => 4
    case NoteOff => 5
    case PedalOn => 6
    case PedalOff => 7
    case ChannelVolume => 8
    case ChannelPan => 9
    case Patch => 10
    case Bend => 11
    case Mod => 12
  }

  /** The enumerator with a given value, if there is one. */
  function FromCode(code: int): (t: Option<EventType>)
    ensures t.Some? <==> 0 <= code < EventTypeCount
    ensures t.Some? ==> Code(t.value) == code
  {
    if code == 0 then Some(Reset)
    else if code == 1 then Some(Tempo)
    else if code == 2 then Some(MasterVolume)
    else if code == 3 then Some(MasterPan)
    else if code == 4 then Some(NoteOn)
    else if code == 5 then Some(NoteOff)
    else if code == 6 then Some(PedalOn)
    else if code == 7 then Some(PedalOff)
    else if code == 8 then Some(ChannelVolume)
    else if code == 9 then Some(ChannelPan)
    else if code == 10 then Some(Patch)
    else if code == 11 then Some(Bend)
    else if code == 12 then Some(Mod)
    else None
  }

  /** Every enumerator has its own value: reading back a value gives the enumerator. */
  lemma CodeRoundTrip(t: EventType)
    ensures FromCode(Code(t)) == Some(t)
  {
  }
}
