/**
 * The program/bank table `patch_midi` of basicmidi.c. Entry i belongs to
 * patch id i and packs a General MIDI 2 Program Change code QQ and bank
 * code RR as 0xQQRR. Ids below 256 are melodic instruments, searched by
 * melodic bank codes; ids 256..264 are percussion sets.
 *
 * Both the table as the source writes it and a corrected table are kept:
 * in the source, ids 192..201 (the ethnic family, Sitar to Shanai) carry
 * the codes 0x6000..0x6700 of the synth-effects family, where General
 * MIDI places them at programs 0x68..0x6F. `PatchMidiAsWritten` is the
 * source's table and the lemmas at the end of this module show what the
 * slip does; `PatchMidi` is the corrected table, which differs in those
 * ten entries only.
 *
 * The tables are stored as rows of eight entries, one row per line of the
 * C initialiser, so that the verifier looks up an entry in two short steps.
 */
module PatchTable {
  import opened CInt
  import opened Wrappers
  import opened PatchIds

  /** The Program Change code QQ of an entry 0xQQRR: its high byte. */
  function Program(code: int): (program: int)
    ensures 0 <= code ==> 0 <= program && program * 256 <= code < program * 256 + 256
  {
    code / 256
  }

  /** The bank code RR of an entry 0xQQRR: its low byte, what is left below QQ. */
  function Bank(code: int): (bank: int)
    ensures 0 <= bank < 256 && Program(code) * 256 + bank == code
  {
    code % 256
  }

  /** Packs a program code and a bank code as 0xQQRR. */
  function Pack(program: int, bank: int): (code: int)
    ensures 0 <= bank < 256 ==> Program(code) == program && Bank(code) == bank
  {
    program * 256 + bank
  }

  /** A 0xQQRR entry whose two codes are both 7-bit MIDI data bytes. */
  predicate Packed(code: int) { 0 <= code < 0x8000 && Bank(code) < 0x80 }

  /** Unpacking a packed entry and packing it again gives the entry back. */
  lemma PackedRoundTrip(code: int)
    requires Packed(code)
    ensures 0 <= Program(code) < 0x80 && 0 <= Bank(code) < 0x80
    ensures Pack(Program(code), Bank(code)) == code
  {
  }

  /** Packing two 7-bit codes and unpacking them gives the codes back. */
  lemma PackUnpack(program: int, bank: int)
    requires 0 <= program < 0x80 && 0 <= bank < 0x80
    ensures Packed(Pack(program, bank))
    ensures Program(Pack(program, bank)) == program && Bank(Pack(program, bank)) == bank
  {
  }

  /**
   * `b` is the entry that follows `a` in a table ordered the General MIDI 2
   * way: the next bank of the same program, or bank 0 of the next program.
   */
  predicate NextVariation(a: int, b: int) {
    (b == a + 1 && Bank(b) != 0) || (Bank(b) == 0 && a < b <= a + 256)
  }

  /** `NextVariation` read through the QQ/RR decoding. */
  lemma NextVariationDecoded(a: int, b: int)
    requires 0 <= a && NextVariation(a, b)
    ensures a < b
    ensures || (Program(b) == Program(a) && Bank(b) == Bank(a) + 1)
            || (Program(b) == Program(a) + 1 && Bank(b) == 0)
  {
  }

  // ---------------------------------------------------------------------
  // The tables

  /** The rows of `patch_midi`, exactly as the source writes them. */
  const PatchMidiRowsAsWritten: seq<seq<u16>> :=
    [
      [0x0000, 0x0001, 0x0002, 0x0100, 0x0101, 0x0200, 0x0201, 0x0300],  // 0..7
      [0x0301, 0x0400, 0x0401, 0x0402, 0x0403, 0x0500, 0x0501, 0x0502],  // 8..15
      [0x0503, 0x0504, 0x0600, 0x0601, 0x0602, 0x0603, 0x0700, 0x0701],  // 16..23
      [0x0800, 0x0900, 0x0A00, 0x0B00, 0x0B01, 0x0C00, 0x0C01, 0x0D00],  // 24..31
      [0x0E00, 0x0E01, 0x0E02, 0x0F00, 0x1000, 0x1001, 0x1002, 0x1003],  // 32..39
      [0x1100, 0x1101, 0x1102, 0x1200, 0x1300, 0x1301, 0x1302, 0x1400],  // 40..47
      [0x1401, 0x1500, 0x1501, 0x1600, 0x1700, 0x1800, 0x1801, 0x1802],  // 48..55
      [0x1803, 0x1900, 0x1901, 0x1902, 0x1903, 0x1A00, 0x1A01, 0x1B00],  // 56..63
      [0x1B01, 0x1B02, 0x1C00, 0x1C01, 0x1C02, 0x1C03, 0x1D00, 0x1D01],  // 64..71
      [0x1E00, 0x1E01, 0x1E02, 0x1F00, 0x1F01, 0x2000, 0x2100, 0x2101],  // 72..79
      [0x2200, 0x2300, 0x2400, 0x2500, 0x2600, 0x2601, 0x2602, 0x2603],  // 80..87
      [0x2604, 0x2700, 0x2701, 0x2702, 0x2703, 0x2800, 0x2801, 0x2900],  // 88..95
      [0x2A00, 0x2B00, 0x2C00, 0x2D00, 0x2E00, 0x2E01, 0x2F00, 0x3000],  // 96..103
      [0x3001, 0x3002, 0x3100, 0x3200, 0x3201, 0x3300, 0x3400, 0x3401],  // 104..111
      [0x3500, 0x3501, 0x3600, 0x3601, 0x3700, 0x3701, 0x3702, 0x3703],  // 112..119
      [0x3800, 0x3801, 0x3900, 0x3901, 0x3902, 0x3A00, 0x3B00, 0x3B01],  // 120..127
      [0x3C00, 0x3C01, 0x3D00, 0x3D01, 0x3E00, 0x3E01, 0x3E02, 0x3E03],  // 128..135
      [0x3F00, 0x3F01, 0x3F02, 0x4000, 0x4100, 0x4200, 0x4300, 0x4400],  // 136..143
      [0x4500, 0x4600, 0x4700, 0x4800, 0x4900, 0x4A00, 0x4B00, 0x4C00],  // 144..151
      [0x4D00, 0x4E00, 0x4F00, 0x5000, 0x5001, 0x5002, 0x5100, 0x5101],  // 152..159
      [0x5102, 0x5103, 0x5104, 0x5200, 0x5300, 0x5400, 0x5401, 0x5500],  // 160..167
      [0x5600, 0x5700, 0x5701, 0x5800, 0x5900, 0x5901, 0x5A00, 0x5B00],  // 168..175
      [0x5B01, 0x5C00, 0x5D00, 0x5E00, 0x5F00, 0x6000, 0x6100, 0x6200],  // 176..183
      [0x6201, 0x6300, 0x6400, 0x6500, 0x6600, 0x6601, 0x6602, 0x6700],  // 184..191
      [0x6000, 0x6001, 0x6100, 0x6200, 0x6300, 0x6301, 0x6400, 0x6500],  // 192..199
      [0x6600, 0x6700, 0x7000, 0x7100, 0x7200, 0x7300, 0x7301, 0x7400],  // 200..207
      [0x7401, 0x7500, 0x7501, 0x7600, 0x7601, 0x7602, 0x7700, 0x7800],  // 208..215
      [0x7801, 0x7802, 0x7900, 0x7901, 0x7A00, 0x7A01, 0x7A02, 0x7A03],  // 216..223
      [0x7A04, 0x7A05, 0x7B00, 0x7B01, 0x7B02, 0x7B03, 0x7C00, 0x7C01],  // 224..231
      [0x7C02, 0x7C03, 0x7C04, 0x7C05, 0x7D00, 0x7D01, 0x7D02, 0x7D03],  // 232..239
      [0x7D04, 0x7D05, 0x7D06, 0x7D07, 0x7D08, 0x7D09, 0x7E00, 0x7E01],  // 240..247
      [0x7E02, 0x7E03, 0x7E04, 0x7E05, 0x7F00, 0x7F01, 0x7F02, 0x7F03],  // 248..255
      [0x0000, 0x0800, 0x1000, 0x1800, 0x1900, 0x2000, 0x2800, 0x3000],  // 256..263
      [0x3800]  // 264..264
    ]

  /** Rows 24 and 25 (ids 192..207) with the ethnic family at programs 0x68..0x6F. */
  const PatchMidiRows: seq<seq<u16>> :=
    PatchMidiRowsAsWritten
      [24 := [0x6800, 0x6801, 0x6900, 0x6A00, 0x6B00, 0x6B01, 0x6C00, 0x6D00]]
      [25 := [0x6E00, 0x6F00, 0x7000, 0x7100, 0x7200, 0x7300, 0x7301, 0x7400]]

  /** Full rows of eight entries, then one last row of one to eight entries. */
  predicate RowShape(rows: seq<seq<u16>>) {
    && |rows| > 0
    && (forall r | 0 <= r < |rows| - 1 :: |rows[r]| == 8)
    && 0 < |rows[|rows| - 1]| <= 8
  }

  /** The rows laid end to end: entry i sits in row i / 8, column i % 8. */
  function Flatten(rows: seq<seq<u16>>): (table: seq<u16>)
    requires RowShape(rows)
    ensures |table| == 8 * (|rows| - 1) + |rows[|rows| - 1]|
    ensures forall i | 0 <= i < |table| :: table[i] == rows[i / 8][i % 8]
  {
    seq(8 * (|rows| - 1) + |rows[|rows| - 1]|, i requires 0 <= i < 8 * (|rows| - 1) + |rows[|rows| - 1]| =>
      rows[i / 8][i % 8])
  }

  lemma RowShapes()
    ensures |PatchMidiRowsAsWritten| == 34 && RowShape(PatchMidiRowsAsWritten)
    ensures |PatchMidiRows| == 34 && RowShape(PatchMidiRows)
    ensures |PatchMidiRows[33]| == 1
  {
  }

  /** `patch_midi` as the source has it. */
  const PatchMidiAsWritten: seq<u16> := Flatten(PatchMidiRowsAsWritten)

  /** `patch_midi` with the ethnic family corrected. */
  const PatchMidi: seq<u16> := Flatten(PatchMidiRows)

  /**
   * The first id in lo..hi-1 whose entry is `code`, if any: the id that a
   * front-to-back search of that range of the table reports for a
   * program/bank code.
   */
  function FindCode(table: seq<u16>, code: int, lo: nat, hi: nat): (found: Option<nat>)
    requires hi <= |table|
    ensures found.Some? ==> lo <= found.value < hi && table[found.value] == code
    ensures found.Some? ==> forall j | lo <= j < found.value :: table[j] != code
    ensures found.None? <==> forall j | lo <= j < hi :: table[j] != code
    decreases hi - lo
  {
    if lo >= hi then None
    else if table[lo] == code then Some(lo)
    else FindCode(table, code, lo + 1, hi)
  }
}
