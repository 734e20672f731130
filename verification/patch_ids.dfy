/**
 * The identifier constants of basicmidi.h: the six foot pedals
 * (`BM_PEDAL_*`) and the 265 canonical patches (`BM_PATCH_*`). Patch ids
 * 0..255 are General MIDI 2 melodic instruments and their variations,
 * grouped in the sixteen General MIDI families of eight programs; ids
 * 256..264 are the nine General MIDI 2 percussion sets.
 */
module PatchIds {

  /** Number of pedal flags a channel carries (`bool pedals[6]`). */
  const PedalCount: nat := 6

  type PedalId = x: int | 0 <= x < 6

  const PedalDamper: PedalId := 0
  const PedalPortamento: PedalId := 1
  const PedalSostenuto: PedalId := 2
  const PedalSoft: PedalId := 3
  const PedalLegato: PedalId := 4
  const PedalHold: PedalId := 5

  /** The pedal constants in order; every pedal id is one of them. */
  const Pedals: seq<PedalId> :=
    [PedalDamper, PedalPortamento, PedalSostenuto, PedalSoft, PedalLegato, PedalHold]

  /** Number of patch ids (0..264). */
  const PatchCount: nat := 265

  /** Number of melodic patch ids; the percussion sets follow them. */
  const MelodyCount: nat := 256

  type PatchId = x: int | 0 <= x < 265

  predicate IsMelody(id: PatchId) { id < MelodyCount }
  predicate IsPercussion(id: PatchId) { MelodyCount <= id }

  const PianoAcgr: PatchId := 0
  const PianoAcgrWi: PatchId := 1
  const PianoAcgrDk: PatchId := 2
  const PianoBrac: PatchId := 3
  const PianoBracWi: PatchId := 4
  const PianoElgr: PatchId := 5
  const PianoElgrWi: PatchId := 6
  const PianoHoto: PatchId := 7
  const PianoHotoWi: PatchId := 8
  const PianoEle1: PatchId := 9
  const PianoEle1Dt: PatchId := 10
  const PianoEle1Vm: PatchId := 11
  const PianoEle160: PatchId := 12
  const PianoEle2: PatchId := 13
  const PianoEle2Dt: PatchId := 14
  const PianoEle2Vm: PatchId := 15
  const PianoEle2Le: PatchId := 16
  const PianoEle2Ph: PatchId := 17
  const PianoHarp: PatchId := 18
  const PianoHarpOm: PatchId := 19
  const PianoHarpWi: PatchId := 20
  const PianoHarpKo: PatchId := 21
  const PianoClav: PatchId := 22
  const PianoClavPu: PatchId := 23
  const ChromCele: PatchId := 24
  const ChromGloc: PatchId := 25
  const ChromMubo: PatchId := 26
  const ChromViph: PatchId := 27
  const ChromViphWi: PatchId := 28
  const ChromMari: PatchId := 29
  const ChromMariWi: PatchId := 30
  const ChromXylo: PatchId := 31
  const ChromBellTu: PatchId := 32
  const ChromBellCh: PatchId := 33
  const ChromBellCa: PatchId := 34
  const ChromDulc: PatchId := 35
  const OrganDraw: PatchId := 36
  const OrganDrawDt: PatchId := 37
  const OrganDraw60: PatchId := 38
  const OrganDrawAl: PatchId := 39
  const OrganPerc: PatchId := 40
  const OrganPercDt: PatchId := 41
  const OrganPerc2: PatchId := 42
  const OrganRock: PatchId := 43
  const OrganChur: PatchId := 44
  const OrganChurOm: PatchId := 45
  const OrganChurDt: PatchId := 46
  const OrganReed: PatchId := 47
  const OrganReedPu: PatchId := 48
  const OrganAcco: PatchId := 49
  const OrganAcco2: PatchId := 50
  const OrganHarm: PatchId := 51
  const OrganTang: PatchId := 52
  const GuitarNylo: PatchId := 53
  const GuitarNyloUk: PatchId := 54
  const GuitarNyloKo: PatchId := 55
  const GuitarNyloAl: PatchId := 56
  const GuitarStee: PatchId := 57
  const GuitarStee12: PatchId := 58
  const GuitarSteeMa: PatchId := 59
  const GuitarSteeBs: PatchId := 60
  const GuitarJazz: PatchId := 61
  const GuitarJazzPs: PatchId := 62
  const GuitarClea: PatchId := 63
  const GuitarCleaDt: PatchId := 64
  const GuitarCleaMt: PatchId := 65
  const GuitarMute: PatchId := 66
  const GuitarMuteFc: PatchId := 67
  const GuitarMuteVs: PatchId := 68
  const GuitarMuteJm: PatchId := 69
  const GuitarOver: PatchId := 70
  const GuitarOverPi: PatchId := 71
  const GuitarDist: PatchId := 72
  const GuitarDistFb: PatchId := 73
  const GuitarDistRh: PatchId := 74
  const GuitarHarm: PatchId := 75
  const GuitarHarmFb: PatchId := 76
  const BassAcou: PatchId := 77
  const BassFing: PatchId := 78
  const BassFingSl: PatchId := 79
  const BassPick: PatchId := 80
  const BassFret: PatchId := 81
  const BassSlp1: PatchId := 82
  const BassSlp2: PatchId := 83
  const BassSyn1: PatchId := 84
  const BassSyn1Wa: PatchId := 85
  const BassSyn1Re: PatchId := 86
  const BassSyn1Cl: PatchId := 87
  const BassSyn1Ha: PatchId := 88
  const BassSyn2: PatchId := 89
  const BassSyn2At: PatchId := 90
  const BassSyn2Ru: PatchId := 91
  const BassSyn2Ap: PatchId := 92
  const StringViln: PatchId := 93
  const StringVilnSa: PatchId := 94
  const StringVila: PatchId := 95
  const StringCell: PatchId := 96
  const StringCont: PatchId := 97
  const StringTrem: PatchId := 98
  const StringPizz: PatchId := 99
  const StringHarp: PatchId := 100
  const StringHarpYc: PatchId := 101
  const StringTimp: PatchId := 102
  const EnsemStr1: PatchId := 103
  const EnsemStr1Sb: PatchId := 104
  const EnsemStr160: PatchId := 105
  const EnsemStr2: PatchId := 106
  const EnsemSyn1: PatchId := 107
  const EnsemSyn1Al: PatchId := 108
  const EnsemSyn2: PatchId := 109
  const EnsemChoi: PatchId := 110
  const EnsemChoiAl: PatchId := 111
  const EnsemVoic: PatchId := 112
  const EnsemVoicHm: PatchId := 113
  const EnsemSyvo: PatchId := 114
  const EnsemSyvoAn: PatchId := 115
  const EnsemOrhi: PatchId := 116
  const EnsemOrhiBp: PatchId := 117
  const EnsemOrhi6: PatchId := 118
  const EnsemOrhiEu: PatchId := 119
  const BrassTrum: PatchId := 120
  const BrassTrumDs: PatchId := 121
  const BrassTrom: PatchId := 122
  const BrassTromAl: PatchId := 123
  const BrassTromBr: PatchId := 124
  const BrassTuba: PatchId := 125
  const BrassMutr: PatchId := 126
  const BrassMutrAl: PatchId := 127
  const BrassFrho: PatchId := 128
  const BrassFrhoWa: PatchId := 129
  const BrassBrse: PatchId := 130
  const BrassBrseOm: PatchId := 131
  const BrassSbr1: PatchId := 132
  const BrassSbr1Al: PatchId := 133
  const BrassSbr1An: PatchId := 134
  const BrassSbr1Ju: PatchId := 135
  const BrassSbr2: PatchId := 136
  const BrassSbr2Al: PatchId := 137
  const BrassSbr2An: PatchId := 138
  const ReedSosa: PatchId := 139
  const ReedAlsa: PatchId := 140
  const ReedTesa: PatchId := 141
  const ReedBasa: PatchId := 142
  const ReedOboe: PatchId := 143
  const ReedEnho: PatchId := 144
  const ReedBass: PatchId := 145
  const ReedClar: PatchId := 146
  const PipePicc: PatchId := 147
  const PipeFlut: PatchId := 148
  const PipeReco: PatchId := 149
  const PipePafl: PatchId := 150
  const PipeBlbo: PatchId := 151
  const PipeShak: PatchId := 152
  const PipeWhis: PatchId := 153
  const PipeOcar: PatchId := 154
  const LeadOsc1: PatchId := 155
  const LeadOsc1Sq: PatchId := 156
  const LeadOsc1Si: PatchId := 157
  const LeadOsc2: PatchId := 158
  const LeadOsc2Sa: PatchId := 159
  const LeadOsc2Sp: PatchId := 160
  const LeadOsc2Ds: PatchId := 161
  const LeadOsc2An: PatchId := 162
  const LeadCall: PatchId := 163
  const LeadChif: PatchId := 164
  const LeadChar: PatchId := 165
  const LeadCharWl: PatchId := 166
  const LeadVoic: PatchId := 167
  const LeadFift: PatchId := 168
  const LeadBale: PatchId := 169
  const LeadBaleSw: PatchId := 170
  const PadNeag: PatchId := 171
  const PadWarm: PatchId := 172
  const PadWarmSi: PatchId := 173
  const PadPoly: PatchId := 174
  const PadChoi: PatchId := 175
  const PadChoiIt: PatchId := 176
  const PadBowe: PatchId := 177
  const PadMeta: PatchId := 178
  const PadHalo: PatchId := 179
  const PadSwee: PatchId := 180
  const Sfx1Rain: PatchId := 181
  const Sfx1Sotr: PatchId := 182
  const Sfx1Crys: PatchId := 183
  const Sfx1CrysMa: PatchId := 184
  const Sfx1Atmo: PatchId := 185
  const Sfx1Brig: PatchId := 186
  const Sfx1Gobl: PatchId := 187
  const Sfx1Echo: PatchId := 188
  const Sfx1EchoBe: PatchId := 189
  const Sfx1EchoPa: PatchId := 190
  const Sfx1Scfi: PatchId := 191
  const EthnicSita: PatchId := 192
  const EthnicSitaBe: PatchId := 193
  const EthnicBanj: PatchId := 194
  const EthnicSham: PatchId := 195
  const EthnicKoto: PatchId := 196
  const EthnicKotoTa: PatchId := 197
  const EthnicKali: PatchId := 198
  const EthnicBapi: PatchId := 199
  const EthnicFidd: PatchId := 200
  const EthnicShan: PatchId := 201
  const PercTibe: PatchId := 202
  const PercAgog: PatchId := 203
  const PercStdr: PatchId := 204
  const PercWood: PatchId := 205
  const PercWoodCa: PatchId := 206
  const PercTadr: PatchId := 207
  const PercTadrCb: PatchId := 208
  const PercMeto: PatchId := 209
  const PercMetoPo: PatchId := 210
  const PercSydr: PatchId := 211
  const PercSydrRb: PatchId := 212
  const PercSydrEl: PatchId := 213
  const PercRecy: PatchId := 214
  const Sfx2G0Gufr: PatchId := 215
  const Sfx2G0Gucu: PatchId := 216
  const Sfx2G0Stsl: PatchId := 217
  const Sfx2G1Brno: PatchId := 218
  const Sfx2G1Flkc: PatchId := 219
  const Sfx2G2Seas: PatchId := 220
  const Sfx2G2Rain: PatchId := 221
  const Sfx2G2Thun: PatchId := 222
  const Sfx2G2Wind: PatchId := 223
  const Sfx2G2Stre: PatchId := 224
  const Sfx2G2Bubb: PatchId := 225
  const Sfx2G3Btw1: PatchId := 226
  const Sfx2G3Dog: PatchId := 227
  const Sfx2G3Hoga: PatchId := 228
  const Sfx2G3Btw2: PatchId := 229
  const Sfx2G4Tel1: PatchId := 230
  const Sfx2G4Tel2: PatchId := 231
  const Sfx2G4Docr: PatchId := 232
  const Sfx2G4Door: PatchId := 233
  const Sfx2G4Scra: PatchId := 234
  const Sfx2G4Wich: PatchId := 235
  const Sfx2G5Heli: PatchId := 236
  const Sfx2G5Caen: PatchId := 237
  const Sfx2G5Cast: PatchId := 238
  const Sfx2G5Capa: PatchId := 239
  const Sfx2G5Cacr: PatchId := 240
  const Sfx2G5Sire: PatchId := 241
  const Sfx2G5Trai: PatchId := 242
  const Sfx2G5Jetp: PatchId := 243
  const Sfx2G5Star: PatchId := 244
  const Sfx2G5Buno: PatchId := 245
  const Sfx2G6Appl: PatchId := 246
  const Sfx2G6Laug: PatchId := 247
  const Sfx2G6Scre: PatchId := 248
  const Sfx2G6Punc: PatchId := 249
  const Sfx2G6Hebe: PatchId := 250
  const Sfx2G6Foot: PatchId := 251
  const Sfx2G7Gush: PatchId := 252
  const Sfx2G7Magu: PatchId := 253
  const Sfx2G7Lagu: PatchId := 254
  const Sfx2G7Expl: PatchId := 255
  const PersndStan: PatchId := 256
  const PersndRoom: PatchId := 257
  const PersndPowe: PatchId := 258
  const PersndElec: PatchId := 259
  const PersndAnlg: PatchId := 260
  const PersndJazz: PatchId := 261
  const PersndBrus: PatchId := 262
  const PersndOrch: PatchId := 263
  const PersndSnfx: PatchId := 264

  /**
   * The first id of each General MIDI family, in family order (piano,
   * chromatic percussion, organ, guitar, bass, strings, ensemble, brass,
   * reed, pipe, synth lead, synth pad, synth effects, ethnic, percussive,
   * sound effects), followed by the first percussion set. Family f holds
   * the ids FamilyStarts[f] .. FamilyStarts[f + 1] - 1.
   */
  const FamilyStarts: seq<PatchId> :=
    [PianoAcgr, ChromCele, OrganDraw, GuitarNylo, BassAcou, StringViln, EnsemStr1, BrassTrum,
     ReedSosa, PipePicc, LeadOsc1, PadNeag, Sfx1Rain, EthnicSita, PercTibe, Sfx2G0Gufr,
     PersndStan]

  /**
   * The id constants split 0..264 the way the patch table does: the first
   * percussion set comes right after the last melodic id, the last set is
   * the last id, and the families start in ascending order.
   */
  lemma IdLayout()
    ensures PianoAcgr == 0 && Sfx2G7Expl == MelodyCount - 1
    ensures PersndStan == MelodyCount && PersndSnfx == PatchCount - 1
    ensures |FamilyStarts| == 17 && FamilyStarts[16] == PersndStan
    ensures forall f | 0 <= f < 16 :: FamilyStarts[f] < FamilyStarts[f + 1]
  {
  }

  /** The pedal ids are exactly 0..5, one per pedal flag. */
  lemma PedalLayout()
    ensures |Pedals| == PedalCount
    ensures forall p: PedalId :: Pedals[p] == p
  {
  }
}
