/**
 * `bm_patch_str` of basicmidi.c: the display name of a patch id. Every id
 * of the header has its own name; any other 16-bit value is answered with
 * the fixed text "Invalid patch".
 *
 * The names are kept in rows of eight, ids 8 * r .. 8 * r + 7 in row r,
 * in the order of the header's ids.
 */
module PatchNames {
  import opened CInt
  import opened PatchIds

  /** The answer for a value that is not a patch id. */
  const InvalidPatch: string := "Invalid patch"

  /** The name of every patch id, eight ids per row. */
  const PatchNameRows: seq<seq<string>> :=
    [
      // 0..7
      ["Acoustic Grand Piano",
       "Acoustic Grand Piano (wide)",
       "Acoustic Grand Piano (dark)",
       "Bright Acoustic Piano",
       "Bright Acoustic Piano (wide)",
       "Electric Grand Piano",
       "Electric Grand Piano (wide)",
       "Honky-tonk Piano"],
      // 8..15
      ["Honky-tonk Piano (wide)",
       "Electric Piano 1",
       "Electric Piano 1 (detuned)",
       "Electric Piano 1 (velocity mix)",
       "Electric Piano 1 (60's)",
       "Electric Piano 2",
       "Electric Piano 2 (detuned)",
       "Electric Piano 2 (velocity mix)"],
      // 16..23
      ["Electric Piano 2 (legend)",
       "Electric Piano 2 (phase)",
       "Harpsichord",
       "Harpsichord (octave mix)",
       "Harpsichord (wide)",
       "Harpsichord (with key off)",
       "Clavi",
       "Clavi (pulse)"],
      // 24..31
      ["Celesta",
       "Glockenspiel",
       "Music Box",
       "Vibraphone",
       "Vibraphone (wide)",
       "Marimba",
       "Marimba (wide)",
       "Xylophone"],
      // 32..39
      ["Tubular Bells",
       "Tubular Bells (church)",
       "Tubular Bells (carillon)",
       "Dulcimer",
       "Drawbar Organ",
       "Drawbar Organ (detuned)",
       "Drawbar Organ (60's)",
       "Drawbar Organ (alternative)"],
      // 40..47
      ["Percussive Organ",
       "Percussive Organ (detuned)",
       "Percussive Organ 2",
       "Rock Organ",
       "Church Organ",
       "Church Organ (octave mix)",
       "Church Organ (detuned)",
       "Reed Organ"],
      // 48..55
      ["Reed Organ (puff)",
       "Accordion",
       "Accordion (alternative)",
       "Harmonica",
       "Tango Accordion",
       "Nylon Acoustic Guitar",
       "Nylon Acoustic Guitar (ukulele)",
       "Nylon Acoustic Guitar (key off)"],
      // 56..63
      ["Nylon Acoustic Guitar (alternative)",
       "Steel Acoustic Guitar",
       "Steel Acoustic Guitar (12-string)",
       "Steel Acoustic Guitar (mandolin)",
       "Steel Acoustic Guitar (body sound)",
       "Jazz Electric Guitar",
       "Jazz Electric Guitar (pedal steel)",
       "Clean Electric Guitar"],
      // 64..71
      ["Clean Electric Guitar (detuned)",
       "Clean Electric Guitar (midtone)",
       "Muted Electric Guitar",
       "Muted Electric Guitar (funky cutting)",
       "Muted Electric Guitar (velo-sw)",
       "Muted Electric Guitar (jazz man)",
       "Overdriven Guitar",
       "Overdriven Guitar (pinch)"],
      // 72..79
      ["Distortion Guitar",
       "Distortion Guitar (feedback)",
       "Distortion Guitar (rhythm)",
       "Guitar Harmonics",
       "Guitar Harmonics (feedback)",
       "Acoustic Bass",
       "Finger Electric Bass",
       "Finger Electric Bass (slap)"],
      // 80..87
      ["Pick Electric Bass",
       "Fretless Bass",
       "Slap Bass 1",
       "Slap Bass 2",
       "Synth Bass 1",
       "Synth Bass 1 (warm)",
       "Synth Bass 1 (resonance)",
       "Synth Bass 1 (clavi)"],
      // 88..95
      ["Synth Bass 1 (hammer)",
       "Synth Bass 2",
       "Synth Bass 2 (attack)",
       "Synth Bass 2 (rubber)",
       "Synth Bass 2 (attack pulse)",
       "Violin",
       "Violin (slow attack)",
       "Viola"],
      // 96..103
      ["Cello",
       "Contrabass",
       "Tremolo Strings",
       "Pizzicato Strings",
       "Orchestral Harp",
       "Orchestral Harp (yang chin)",
       "Timpani",
       "String Ensembles 1"],
      // 104..111
      ["String Ensembles 1 (strings and brass)",
       "String Ensembles 1 (60s strings)",
       "String Ensembles 2",
       "SynthStrings 1",
       "SynthStrings 1 (alternative)",
       "SynthStrings 2",
       "Choir Aahs",
       "Choir Aahs (alternative)"],
      // 112..119
      ["Voice Oohs",
       "Voice Oohs (humming)",
       "Synth Voice",
       "Synth Voice (analog)",
       "Orchestra Hit",
       "Orchestra Hit (bass hit plus)",
       "Orchestra Hit (6th)",
       "Orchestra Hit (euro)"],
      // 120..127
      ["Trumpet",
       "Trumpet (dark soft)",
       "Trombone",
       "Trombone (alternative)",
       "Trombone (bright)",
       "Tuba",
       "Muted Trumpet",
       "Muted Trumpet (alternative)"],
      // 128..135
      ["French Horn",
       "French Horn (warm)",
       "Brass Section",
       "Brass Section (octave mix)",
       "Synth Brass 1",
       "Synth Brass 1 (alternative)",
       "Synth Brass 1 (analog)",
       "Synth Brass 1 (jump)"],
      // 136..143
      ["Synth Brass 2",
       "Synth Brass 2 (alternative)",
       "Synth Brass 2 (analog)",
       "Soprano Sax",
       "Alto Sax",
       "Tenor Sax",
       "Baritone Sax",
       "Oboe"],
      // 144..151
      ["English Horn",
       "Bassoon",
       "Clarinet",
       "Piccolo",
       "Flute",
       "Recorder",
       "Pan Flute",
       "Blown Bottle"],
      // 152..159
      ["Shakuhachi",
       "Whistle",
       "Ocarina",
       "Oscilliator 1",
       "Oscilliator 1 (square)",
       "Oscilliator 1 (sine)",
       "Oscilliator 2",
       "Oscilliator 2 (sawtooth)"],
      // 160..167
      ["Oscilliator 2 (saw + pulse)",
       "Oscilliator 2 (double sawtooth)",
       "Oscilliator 2 (sequenced analog)",
       "Calliope",
       "Chiff",
       "Charang",
       "Charang (wire lead)",
       "Voice"],
      // 168..175
      ["Fifths",
       "Bass + Lead",
       "Bass + Lead (soft wrl)",
       "New Age",
       "Warm",
       "Warm (sine)",
       "Polysynth",
       "Choir"],
      // 176..183
      ["Choir (itopia)",
       "Bowed",
       "Metallic",
       "Halo",
       "Sweep",
       "Rain",
       "Soundtrack",
       "Crystal"],
      // 184..191
      ["Crystal (mallet)",
       "Atmosphere",
       "Brightness",
       "Goblins",
       "Echoes",
       "Echoes (bell)",
       "Echoes (pan)",
       "Sci-Fi"],
      // 192..199
      ["Sitar",
       "Sitar (bend)",
       "Banjo",
       "Shamisen",
       "Koto",
       "Koto (taisho)",
       "Kalimba",
       "Bag Pipe"],
      // 200..207
      ["Fiddle",
       "Shanai",
       "Tinkle Bell",
       "Agogo",
       "Steel Drums",
       "Woodblock",
       "Woodblock (castanets)",
       "Taiko Drum"],
      // 208..215
      ["Taiko Drum (concert bass)",
       "Melodic Tom",
       "Melodic Tom (power)",
       "Synth Drum",
       "Synth Drum (rhythm box tom)",
       "Synth Drum (electric)",
       "Reverse Cymbal",
       "Guitar Fret Noise"],
      // 216..223
      ["Guitar Cutting Noise (GM2)",
       "Acoustic Bass String Slap (GM2)",
       "Breath Noise",
       "Flute Key Click (GM2)",
       "Seashore",
       "Rain (GM2)",
       "Thunder (GM2)",
       "Wind (GM2)"],
      // 224..231
      ["Stream (GM2)",
       "Bubble (GM2)",
       "Bird Tweet 1",
       "Dog (GM2)",
       "Horse Gallop (GM2)",
       "Bird Tweet 2 (GM2)",
       "Telephone Ring 1",
       "Telephone Ring 2 (GM2)"],
      // 232..239
      ["Door Creaking (GM2)",
       "Door (GM2)",
       "Scratch (GM2)",
       "Wind Chime (GM2)",
       "Helicopter",
       "Car Engine (GM2)",
       "Car Stop (GM2)",
       "Car Pass (GM2)"],
      // 240..247
      ["Car Crash (GM2)",
       "Siren (GM2)",
       "Train (GM2)",
       "Jetplane (GM2)",
       "Starship (GM2)",
       "Burst Noise (GM2)",
       "Applause",
       "Laughing (GM2)"],
      // 248..255
      ["Screaming (GM2)",
       "Punch (GM2)",
       "Heart Beat (GM2)",
       "Footsteps (GM2)",
       "Gun Shot",
       "Machine Gun (GM2)",
       "Laser Gun (GM2)",
       "Explosion (GM2)"],
      // 256..263
      ["PSS Standard",
       "PSS Room",
       "PSS Power",
       "PSS Electronic",
       "PSS Analog",
       "PSS Jazz",
       "PSS Brush",
       "PSS Orchestra"],
      // 264..264
      ["PSS Sound Effects"]
    ]

  lemma NameRowsShape()
    ensures |PatchNameRows| == 34
    ensures forall r | 0 <= r < 33 :: |PatchNameRows[r]| == 8
    ensures |PatchNameRows[33]| == 1
  {
  }

  // ---------------------------------------------------------------------
  // No patch is named "Invalid patch", checked a few rows at a time

  lemma NamesValid0()
    ensures |PatchNameRows| == 34
    ensures forall r | 0 <= r < 6 :: InvalidPatch !in PatchNameRows[r]
  {
  }

  lemma NamesValid1()
    ensures |PatchNameRows| == 34
    ensures forall r | 6 <= r < 12 :: InvalidPatch !in PatchNameRows[r]
  {
  }

  lemma NamesValid2()
    ensures |PatchNameRows| == 34
    ensures forall r | 12 <= r < 18 :: InvalidPatch !in PatchNameRows[r]
  {
  }

  lemma NamesValid3()
    ensures |PatchNameRows| == 34
    ensures forall r | 18 <= r < 24 :: InvalidPatch !in PatchNameRows[r]
  {
  }

  lemma NamesValid4()
    ensures |PatchNameRows| == 34
    ensures forall r | 24 <= r < 29 :: InvalidPatch !in PatchNameRows[r]
  {
  }

  lemma NamesValid5()
    ensures |PatchNameRows| == 34
    ensures forall r | 29 <= r < 34 :: InvalidPatch !in PatchNameRows[r]
  {
  }

  /** The name of a patch id; never "Invalid patch". */
  function PatchName(id: PatchId): (name: string)
    ensures |PatchNameRows| == 34 && name in PatchNameRows[id / 8]
    ensures name != InvalidPatch
  {
    NameRowsShape();
    NamesValid0(); NamesValid1(); NamesValid2(); NamesValid3(); NamesValid4(); NamesValid5();
    PatchNameRows[id / 8][id % 8]
  }

  /**
   * `bm_patch_str`: the name of a patch id, or "Invalid patch" for any
   * other value. The answer is "Invalid patch" exactly for the values
   * beyond the last percussion set, so a caller can tell a valid id from
   * its name.
   */
  function PatchStr(patch: u16): (name: string)
    ensures name == InvalidPatch <==> PatchCount <= patch
    ensures patch < PatchCount ==> name in PatchNameRows[patch / 8]
  {
    if patch < PatchCount then PatchName(patch) else InvalidPatch
  }

  /** The first and last melodic and percussion names. */
  lemma PatchStrAnchors()
    ensures PatchStr(PianoAcgr) == "Acoustic Grand Piano"
    ensures PatchStr(Sfx2G7Expl) == "Explosion (GM2)"
    ensures PatchStr(PersndStan) == "PSS Standard"
    ensures PatchStr(PersndSnfx) == "PSS Sound Effects"
    ensures PatchStr(PatchCount) == InvalidPatch && PatchStr(0xFFFF) == InvalidPatch
  {
  }
}
