# basicmidi patch tables, event type and sample timing in Dafny

This project models the data core of basicmidi, a small C library that
decodes Standard MIDI Files into a stream of events for a synthesizer.
It covers four parts:

- **The patch table `patch_midi`** (`src/basicmidi.c`). It maps each of the
  library's 265 patch ids to a packed General MIDI 2 code 0xQQRR, where QQ is
  the Program Change code and RR the bank code. Ids 0..255 are melodic
  instruments and ids 256..264 are percussion sets. The decoder, which is not
  part of this model, resolves a Program Change by searching the melodic
  range or the percussion range from front to back for an exact match.
  `PatchTable.FindCode` is that search.
- **The name function `bm_patch_str`** (`src/basicmidi.c`). It gives the
  display name of a patch id, and "Invalid patch" for any other 16-bit
  value.
- **The header's constants and the event record** (`src/basicmidi.h`). These
  are the `BM_PATCH_*` and `BM_PEDAL_*` ids, the `bm_ev_type` tag and the
  `bm_ev_st` / `bm_delta_ev_st` event records, together with the ranges the
  header documents for their fields.
- **`bm_samples`** (`src/basicmidi.h`). It converts a delay in MIDI ticks
  into a number of audio samples, with the C code's 64-bit unsigned
  arithmetic and `int` cast written out.

Everything here is pure data and pure functions, so the model is made of
datatypes, functions and lemmas.

Modules:

| file | module | what |
|---|---|---|
| `wrappers.dfy` | `Wrappers` | `Option` |
| `c_int.dfy` | `CInt` | C integer ranges, the conversions to `uint64_t` and `int` |
| `patch_ids.dfy` | `PatchIds` | `BM_PATCH_*`, `BM_PEDAL_*`, family starts |
| `patch_table.dfy` | `PatchTable` | `patch_midi` as written and corrected, packing, the search |
| `patch_layout.dfy` | `PatchLayout` | what the table's layout guarantees, and what the slip breaks |
| `patch_names.dfy` | `PatchNames` | `bm_patch_str` |
| `event_types.dfy` | `EventTypes` | `bm_ev_type` |
| `events.dfy` | `Events` | `bm_ev_st`, `bm_delta_ev_st`, field ranges |
| `samples.dfy` | `Samples` | `bm_samples` |

The source's table has a slip in the ethnic family, ids 192..201 (see
Findings). The model therefore keeps two tables:

- `PatchMidiAsWritten` is the table exactly as the source writes it. The
  lemmas whose names start with `AsWritten` state what the slip does.
- `PatchMidi` replaces those ten entries with the General MIDI codes. It is
  the table used everywhere else.

`PatchLayout.AsWrittenAgrees` proves that the two tables differ nowhere
else. Both tables are stored as rows of eight entries, one row per line of
the C initialiser.

## Model

| member | source | states |
|---|---|---|
| CInt.ToU64 | src/basicmidi.h:408 | conversion to `uint64_t` is congruent to its input modulo 2^64 and is the identity on 0..2^64-1 |
| CInt.ToI32 | src/basicmidi.h:408 | conversion to `int` is congruent modulo 2^32 and is the identity on the `int` range |
| PatchIds.IdLayout | src/basicmidi.h:35-299 | the ids are split as follows: Acoustic Grand Piano is 0, Explosion is 255 (the last melodic id), Standard is 256 (the first percussion set) and Sound Effects is 264 (the last id); the sixteen family starts ascend |
| PatchIds.PedalLayout | src/basicmidi.h:28-33 | the six pedal ids are exactly 0..5, one per pedal flag |
| PatchTable.Program | src/basicmidi.c:8 | the program code QQ of a non-negative entry is its high byte: QQ * 256 <= entry < QQ * 256 + 256 |
| PatchTable.Bank | src/basicmidi.c:8 | the bank code RR is a byte, and QQ * 256 + RR is the entry again |
| PatchTable.Pack | src/basicmidi.c:8 | packing a program and a bank byte as 0xQQRR decodes back to that program and that bank |
| PatchTable.PatchMidiAsWritten | src/basicmidi.c:9-44 | the `patch_midi` table exactly as the source writes it, 265 entries in id order |
| PatchTable.PatchMidi | src/basicmidi.c:9-44 | `patch_midi` with the ethnic entries 192..201 at programs 0x68..0x6F (see Findings) |
| PatchTable.PackedRoundTrip | src/basicmidi.c:7-8 | an entry 0xQQRR with 7-bit codes decodes into QQ <= 127 and RR <= 127 and packs back to itself |
| PatchTable.PackUnpack | src/basicmidi.c:8 | packing two 7-bit codes and decoding the result gives both codes back |
| PatchTable.NextVariationDecoded | src/basicmidi.c:10-41 | one step of the General MIDI ordering increases the code, and goes either to the next bank of the same program or to bank 0 of the next program |
| PatchTable.FindCode | src/basicmidi.c:9-44 | the search answers the first id in the range whose entry is the code; it answers nothing exactly when no entry in the range is the code |
| PatchLayout.EntriesPacked | src/basicmidi.c:9-44 | both tables have 265 entries; every entry, in both, has QQ <= 127 and RR <= 127 and re-packs to itself |
| PatchLayout.PercussionEntries | src/basicmidi.c:42-43 | ids 256..264 are bank 0 of programs 0, 8, 16, 24, 25, 32, 40, 48, 56 in that order, the same in both tables |
| PatchLayout.AsWrittenAgrees | src/basicmidi.c:10-43 | the corrected table differs from the source's only at ids 192..201 |
| PatchLayout.MelodyChained | src/basicmidi.c:10-41 | in the corrected table `PatchMidi` (the source's breaks this at ids 191..192, see Findings), every melodic entry is packed; each is followed by the next bank of its program or by bank 0 of the next program |
| PatchLayout.MelodyStrictlyIncreasing | src/basicmidi.c:10-41 | in the corrected table `PatchMidi` (the source's repeats codes at ids 192..201, see Findings), the melodic codes strictly increase, so no two melodic ids share a code |
| PatchLayout.MelodyLookupRoundTrip | src/basicmidi.c:7-41 | in the corrected table `PatchMidi` (for the source's, see `PatchLayout.AsWrittenMelodyLookup`), searching ids 0..255 for a melodic id's code finds that id |
| PatchLayout.PercussionLookupRoundTrip | src/basicmidi.c:42-43 | searching ids 256..264 for a percussion set's code finds that set |
| PatchLayout.PercussionCodesOverlapMelody | src/basicmidi.c:7-10 | the Standard set shares code 0x0000 with Acoustic Grand Piano, so a whole-table search for it finds id 0; this is why the two ranges are searched separately |
| PatchLayout.EveryProgramHasBankZero | src/basicmidi.c:10-41 | in the corrected table `PatchMidi` (the source's lacks programs 0x68..0x6F, see Findings), every program 0..127 has a bank-0 entry among the melodic ids, so searching for it succeeds |
| PatchLayout.FamilyStartsAreCapitalTones | src/basicmidi.h:35-290 | in the corrected table `PatchMidi` (in the source's, the ethnic family starts at 0x6000, see Findings), the first id of family f (piano, chromatic percussion, …, sound effects) has the code of program 8f, bank 0 |
| PatchLayout.AsWrittenEthnicShadowed | src/basicmidi.c:32-34 | in the source's table Sitar (id 192) has Rain's code 0x6000 (id 181), so a search for that code reports Rain |
| PatchLayout.AsWrittenLacksEthnicPrograms | src/basicmidi.c:34-35 | no entry of the source's table has any of programs 0x68..0x6F, so a search for any of them finds nothing |
| PatchLayout.AsWrittenMelodyLookup | src/basicmidi.c:10-41 | in the source's table, searching ids 0..255 for a melodic id's own code finds that id exactly when the id is not one of the eight shadowed ethnic ids 192, 194..196, 198..201 |
| PatchNames.PatchName | src/basicmidi.c:48-312 | the name of a patch id is never "Invalid patch" |
| PatchNames.PatchStr | src/basicmidi.c:46-315 | the answer is "Invalid patch" exactly when the value is 265 or more; below that it is one of the names listed for ids 8 * (patch / 8) .. 8 * (patch / 8) + 7 |
| PatchNames.PatchStrAnchors | src/basicmidi.c:46-315 | id 0 is "Acoustic Grand Piano", 255 "Explosion (GM2)", 256 "PSS Standard", 264 "PSS Sound Effects"; 265 and 65535 are "Invalid patch" |
| EventTypes.Code | src/basicmidi.h:12-26 | each tag's enumerator value is below 13 |
| EventTypes.FromCode | src/basicmidi.h:12-26 | a value names a tag exactly when it is 0..12, and the tag it names has that value |
| EventTypes.CodeRoundTrip | src/basicmidi.h:12-26 | reading back a tag's value gives the tag |
| Events.TypeOf | src/basicmidi.h:12-26 | an event belongs to one channel (its union member carries a `channel` field, src/basicmidi.h:308-344) exactly when its tag's enumerator value is 4 (`BM_EV_NOTEON`) or more |
| Events.WellFormed | src/basicmidi.h:301-344 | the ranges the header documents for each union member's fields: channel 0..15, 7-bit notes and velocities, 14-bit volumes and modulation, signed 14-bit pans and bend, 24-bit tempo, pedal 0..5, patch 0..264 |
| Events.WellFormedDelta | src/basicmidi.h:380-383 | a delta event's tick count is not negative and its event is well formed |
| Events.PatchEventNamed | src/basicmidi.h:333-336 | a patch event is well formed exactly when its channel is below 16 and `bm_patch_str` gives its patch a real name |
| Events.PedalEventPedal | src/basicmidi.h:317-324 | the pedal of a well-formed pedal event is one of the six pedal ids |
| Events.PatchEventCodes | src/basicmidi.h:335 | the patch of a well-formed patch event has a program and a bank that are 7-bit MIDI data bytes |
| Events.PatchEventLookup | src/basicmidi.h:335 | in the corrected table `PatchMidi`, searching the table range that a well-formed patch lies in (melodic or percussion) gives the patch back |
| Samples.ExactSamples | src/basicmidi.h:403-407 | the exact floor of ticks * tempo * rate / (1000000 * divisor) is never negative for non-negative ticks and rate |
| Samples.WrappedProduct | src/basicmidi.h:408 | the 64-bit product is 0 for zero ticks, and is the exact product whenever that fits in 64 bits |
| Samples.Samples | src/basicmidi.h:402-410 | zero ticks give zero samples; in range (non-negative operands, a product below 2^64 and a quotient that fits in an `int`) the result is exactly the floor formula |
| Samples.SamplesMonotonic | src/basicmidi.h:402-410 | a longer delay in range is never fewer samples, and any shorter non-negative delay is in range too |
| Samples.SamplesQuarterNote | src/basicmidi.h:403-409 | one quarter note at tempo 1000000 (one second) lasts exactly `sample_rate` samples |
| Samples.SamplesSplit | src/basicmidi.h:408-409 | cutting a delay into two parts loses at most one sample to rounding |
| Samples.SamplesWrapOnLongDelay | src/basicmidi.h:408-409 | with divisor 32767, tempo 0xFFFFFF, 44100 Hz and 2^26 ticks, the exact answer 1515310615 fits in an `int`, but the wrapped 64-bit product gives fewer samples |

## Left out

- The decoder and the rest of the library are not part of this model:
  `bm_readmidi`, `bm_devicebytes`, `bm_deviceinit`, `bm_writemidi`,
  `bm_init` and `bm_update`. The header only declares them. With them go
  `bm_state_st`, `bm_device_st` and the callback types `bm_event_f`,
  `bm_warn_f` and `bm_dump_f`.
- The bank-register classification and the fallback policy around the
  search (percussion channel, default kit, warnings) belong to that decoder.
  Only the search over the table is modelled, as `PatchTable.FindCode`.
- `src/main.c` is not part of this model. It does argument handling, file
  I/O and printing.
- The header declares the name function as `bm_patchstr`, but
  `src/basicmidi.c` defines `bm_patch_str`. The model follows the
  definition. Callers that use the declared name would not link, and that
  is outside what can be modelled.
- The names are modelled as the literal strings of the source in id order.
  Nothing is proved about their wording beyond the anchors, and the proof
  that all 265 names differ from each other is left out.
- PatchNames.PatchStr: its contract places the name among the eight names
  of the id's row of the name table, not at the id's exact position. The
  exact names of ids 0, 255, 256 and 264 are fixed by
  `PatchNames.PatchStrAnchors`.
- Samples.Samples: its contract states the exact result only in range. For
  negative ticks or a negative sample rate, and for a product of 2^64 or
  more, the model computes what the C expression computes: conversion to
  `uint64_t` modulo 2^64 and multiplication modulo 2^64. No property of the
  result is claimed for those inputs.
- CInt.ToI32: converting a quotient above 2^31-1 to `int` is
  implementation-defined in C. The model takes the two's-complement
  reduction that GCC and Clang document.
- Events.TypeOf: `bm_ev_st` is a tag plus a union in C. A record whose tag
  does not match the union member written has no counterpart in the
  datatype, because each constructor carries its own tag.

## Findings

| source | as written | input that shows it | evidently intended | confidence | as-written member | corrected member |
|---|---|---|---|---|---|---|
| src/basicmidi.c:34-35 | ids 192..201 (Sitar, Sitar (bend), Banjo, Shamisen, Koto, Koto (taisho), Kalimba, Bag Pipe, Fiddle, Shanai) hold 0x6000, 0x6001, 0x6100, 0x6200, 0x6300, 0x6301, 0x6400, 0x6500, 0x6600, 0x6700. These are programs 96..103, which ids 181..191 already use | Program Change 104 (Sitar, code 0x6800) on a melodic bank: no entry has program 104, so the search finds nothing. Code 0x6000 is found at id 181 (Rain), never at 192 | 0x6800, 0x6801, 0x6900, 0x6A00, 0x6B00, 0x6B01, 0x6C00, 0x6D00, 0x6E00, 0x6F00: General MIDI programs 104..111 with the same bank steps | not executed; high, since the names at those ids are the General MIDI ethnic instruments 104..111 and every other row follows the program order | PatchLayout.AsWrittenLacksEthnicPrograms | PatchLayout.EveryProgramHasBankZero |

`PatchLayout.AsWrittenEthnicShadowed` shows the second effect: Sitar's
code in the source's table already belongs to Rain. `PatchLayout.AsWrittenMelodyLookup`
names all eight ids that the search cannot reach in the source's table
(192, 194..196, 198..201) and proves that every other melodic id is still
found. The corrected table
also satisfies `PatchLayout.MelodyLookupRoundTrip`, so every melodic id is
found again from its own code.
