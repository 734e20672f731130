/**
 * What the layout of `patch_midi` guarantees: how many entries it has,
 * that every entry is a packed pair of 7-bit codes, where the percussion
 * sets sit, and that the melodic part runs through the General MIDI 2
 * programs in order, so that every id is found again from its own code.
 * The last lemmas show what the slip in the source's ethnic rows breaks.
 *
 * The facts about individual rows are checked by evaluation, a few rows
 * per lemma; the general facts are proved about any table of that shape
 * and then applied to `patch_midi`.
 */
module PatchLayout {
  import opened CInt
  import opened Wrappers
  import opened PatchIds
  import opened PatchTable

  /** A full row of eight packed entries, each the next variation after the one before. */
  predicate RowChained(row: seq<u16>)
    requires |row| == 8
  {
    && Packed(row[0]) && Packed(row[1]) && Packed(row[2]) && Packed(row[3])
    && Packed(row[4]) && Packed(row[5]) && Packed(row[6]) && Packed(row[7])
    && NextVariation(row[0], row[1]) && NextVariation(row[1], row[2])
    && NextVariation(row[2], row[3]) && NextVariation(row[3], row[4])
    && NextVariation(row[4], row[5]) && NextVariation(row[5], row[6])
    && NextVariation(row[6], row[7])
  }

  /** One column of a chained row. */
  lemma RowChainedAt(row: seq<u16>, c: int)
    requires |row| == 8 && RowChained(row) && 0 <= c < 8
    ensures Packed(row[c])
    ensures c < 7 ==> NextVariation(row[c], row[c + 1])
  {
    if c == 0 {} else if c == 1 {} else if c == 2 {} else if c == 3 {}
    else if c == 4 {} else if c == 5 {} else if c == 6 {} else {}
  }

  // ---------------------------------------------------------------------
  // Facts about any table

  /** The first `n` rows, chained and joined, give a chained table of 8 * n entries. */
  lemma ChainedRowsFlatten(rows: seq<seq<u16>>, n: nat)
    requires RowShape(rows) && n < |rows|
    requires forall r | 0 <= r < n :: |rows[r]| == 8 && RowChained(rows[r])
    requires forall r | 0 <= r < n - 1 :: NextVariation(rows[r][7], rows[r + 1][0])
    ensures 8 * n <= |Flatten(rows)|
    ensures forall i | 0 <= i < 8 * n :: Packed(Flatten(rows)[i])
    ensures forall i | 0 <= i < 8 * n - 1 :: NextVariation(Flatten(rows)[i], Flatten(rows)[i + 1])
  {
    var t := Flatten(rows);
    forall i | 0 <= i < 8 * n
      ensures Packed(t[i])
    {
      RowChainedAt(rows[i / 8], i % 8);
    }
    forall i | 0 <= i < 8 * n - 1
      ensures NextVariation(t[i], t[i + 1])
    {
      if i % 8 < 7 {
        assert (i + 1) / 8 == i / 8 && (i + 1) % 8 == i % 8 + 1;
        RowChainedAt(rows[i / 8], i % 8);
      } else {
        assert (i + 1) / 8 == i / 8 + 1 && (i + 1) % 8 == 0;
      }
    }
  }

  /** A sequence that increases at every step increases between any two positions. */
  lemma {:induction false} StepwiseIncreasing(t: seq<u16>, lo: nat, hi: nat)
    requires lo <= hi <= |t|
    requires forall i | lo <= i < hi - 1 :: t[i] < t[i + 1]
    ensures forall i, j | lo <= i < j < hi :: t[i] < t[j]
  {
    if hi - lo > 1 {
      StepwiseIncreasing(t, lo, hi - 1);
      forall i | lo <= i < hi - 1
        ensures t[i] < t[hi - 1]
      {
        if i < hi - 2 {
          assert t[i] < t[hi - 2];
        }
      }
    }
  }

  /** A search reports the first position holding the code. */
  lemma FirstMatch(t: seq<u16>, code: int, lo: nat, hi: nat, k: nat)
    requires lo <= k < hi <= |t| && t[k] == code
    requires forall j | lo <= j < k :: t[j] != code
    ensures FindCode(t, code, lo, hi) == Some(k)
  {
  }

  /** In a strictly increasing range every entry is found again from its own code. */
  lemma IncreasingLookup(t: seq<u16>, lo: nat, hi: nat, k: nat)
    requires lo <= k < hi <= |t|
    requires forall i, j | lo <= i < j < hi :: t[i] < t[j]
    ensures FindCode(t, t[k], lo, hi) == Some(k)
  {
    FirstMatch(t, t[k], lo, hi, k);
  }

  /**
   * In a table that starts at program 0 bank 0 and moves one variation at a
   * time, every program up to that of entry k has its bank-0 entry at or
   * before k.
   */
  lemma {:induction false} BankZeroEntries(t: seq<u16>, k: nat)
    requires k < |t| && t[0] == 0
    requires forall i | 0 <= i < k :: NextVariation(t[i], t[i + 1])
    ensures forall q | 0 <= q <= Program(t[k]) :: exists i | 0 <= i <= k :: t[i] == Pack(q, 0)
  {
    if k == 0 {
      assert Program(t[k]) == 0 && t[0] == Pack(0, 0);
      forall q | 0 <= q <= Program(t[k])
        ensures exists i | 0 <= i <= k :: t[i] == Pack(q, 0)
      {
        assert t[0] == Pack(q, 0);
      }
    } else {
      BankZeroEntries(t, k - 1);
      var a, b := t[k - 1], t[k];
      assert NextVariation(a, b);
      if Program(a) < Program(b) {
        NewProgramAtBankZero(a, b);
      } else {
        NextVariationDecoded(a, b);
      }
      forall q | 0 <= q <= Program(b)
        ensures exists i | 0 <= i <= k :: t[i] == Pack(q, 0)
      {
        if q <= Program(a) {
          var i :| 0 <= i <= k - 1 && t[i] == Pack(q, 0);
          assert 0 <= i <= k;
        } else {
          assert t[k] == Pack(q, 0);
        }
      }
    }
  }

  /** A step of the ordering that changes the program lands on bank 0 of the next one. */
  lemma NewProgramAtBankZero(a: int, b: int)
    requires 0 <= a && NextVariation(a, b) && Program(a) < Program(b)
    ensures Program(b) == Program(a) + 1 && b == Pack(Program(b), 0)
  {
    NextVariationDecoded(a, b);
  }

  // ---------------------------------------------------------------------
  // Evaluation of individual rows, a few rows per lemma

  lemma MelodyRowsChained0()
    ensures forall r | 0 <= r < 8 :: |PatchMidiRows[r]| == 8 && RowChained(PatchMidiRows[r])
  {
  }

  lemma MelodyRowsChained1()
    ensures forall r | 8 <= r < 16 :: |PatchMidiRows[r]| == 8 && RowChained(PatchMidiRows[r])
  {
  }

  lemma MelodyRowsChained2()
    ensures forall r | 16 <= r < 24 :: |PatchMidiRows[r]| == 8 && RowChained(PatchMidiRows[r])
  {
  }

  lemma MelodyRowsChained3()
    ensures forall r | 24 <= r < 32 :: |PatchMidiRows[r]| == 8 && RowChained(PatchMidiRows[r])
  {
  }

  lemma MelodyRowsJoined0()
    ensures forall r | 0 <= r < 8 :: |PatchMidiRows[r]| == 8 && NextVariation(PatchMidiRows[r][7], PatchMidiRows[r + 1][0])
  {
  }

  lemma MelodyRowsJoined1()
    ensures forall r | 8 <= r < 16 :: |PatchMidiRows[r]| == 8 && NextVariation(PatchMidiRows[r][7], PatchMidiRows[r + 1][0])
  {
  }

  lemma MelodyRowsJoined2()
    ensures forall r | 16 <= r < 24 :: |PatchMidiRows[r]| == 8 && NextVariation(PatchMidiRows[r][7], PatchMidiRows[r + 1][0])
  {
  }

  lemma MelodyRowsJoined3()
    ensures forall r | 24 <= r < 31 :: |PatchMidiRows[r]| == 8 && NextVariation(PatchMidiRows[r][7], PatchMidiRows[r + 1][0])
  {
  }

  /** The source's rows 24 and 25: packed, programs 0x60..0x67 in the first ten entries, then as corrected. */
  lemma EthnicRowsAsWritten()
    ensures |PatchMidiRowsAsWritten[24]| == 8 && |PatchMidiRowsAsWritten[25]| == 8
    ensures forall c | 0 <= c < 8 :: Packed(PatchMidiRowsAsWritten[24][c]) && Packed(PatchMidiRowsAsWritten[25][c])
    ensures forall c | 0 <= c < 8 :: 0x60 <= Program(PatchMidiRowsAsWritten[24][c]) <= 0x67
    ensures forall c | 0 <= c < 2 :: 0x60 <= Program(PatchMidiRowsAsWritten[25][c]) <= 0x67
    ensures forall c | 2 <= c < 8 :: PatchMidiRowsAsWritten[25][c] == PatchMidiRows[25][c]
  {
  }

  // ---------------------------------------------------------------------
  // The whole table

  /** The nine percussion entries: bank 0 and programs 0, 8, 16, 24, 25, 32, 40, 48, 56, in both tables. */
  lemma PercussionEntries()
    ensures |PatchMidi| == PatchCount && |PatchMidiAsWritten| == PatchCount
    ensures PatchMidi[MelodyCount..] == PatchMidiAsWritten[MelodyCount..]
    ensures PatchMidi[MelodyCount..] ==
      [Pack(0, 0), Pack(8, 0), Pack(16, 0), Pack(24, 0), Pack(25, 0),
       Pack(32, 0), Pack(40, 0), Pack(48, 0), Pack(56, 0)]
  {
    RowShapes();
    assert PatchMidiRows[32] == PatchMidiRowsAsWritten[32];
    assert PatchMidiRows[33] == PatchMidiRowsAsWritten[33];
  }

  /** The two tables differ only at ids 192..201, the ethnic family. */
  lemma AsWrittenAgrees()
    ensures |PatchMidi| == PatchCount && |PatchMidiAsWritten| == PatchCount
    ensures forall i | 0 <= i < PatchCount && !(EthnicSita <= i <= EthnicShan) ::
      PatchMidiAsWritten[i] == PatchMidi[i]
  {
    RowShapes();
    EthnicRowsAsWritten();
    forall i | 0 <= i < PatchCount && !(EthnicSita <= i <= EthnicShan)
      ensures PatchMidiAsWritten[i] == PatchMidi[i]
    {
      assert i / 8 != 24;
    }
  }

  /** Each melodic entry is packed and followed by the next bank of its program or bank 0 of the next program. */
  lemma MelodyChained()
    ensures |PatchMidi| == PatchCount
    ensures forall i | 0 <= i < MelodyCount :: Packed(PatchMidi[i])
    ensures forall i | 0 <= i < MelodyCount - 1 :: NextVariation(PatchMidi[i], PatchMidi[i + 1])
  {
    RowShapes();
    MelodyRowsChained0(); MelodyRowsChained1(); MelodyRowsChained2(); MelodyRowsChained3();
    MelodyRowsJoined0(); MelodyRowsJoined1(); MelodyRowsJoined2(); MelodyRowsJoined3();
    ChainedRowsFlatten(PatchMidiRows, 32);
  }

  /**
   * The table has one entry per patch id, and every entry, in the source's
   * table and in the corrected one, decodes as 0xQQRR with QQ <= 127 and
   * RR <= 127 and packs back to itself.
   */
  lemma EntriesPacked()
    ensures |PatchMidi| == PatchCount && |PatchMidiAsWritten| == PatchCount
    ensures forall i | 0 <= i < PatchCount :: Packed(PatchMidi[i]) && Packed(PatchMidiAsWritten[i])
    ensures forall i | 0 <= i < PatchCount ::
      Pack(Program(PatchMidiAsWritten[i]), Bank(PatchMidiAsWritten[i])) == PatchMidiAsWritten[i]
  {
    RowShapes();
    MelodyChained();
    PercussionEntries();
    AsWrittenAgrees();
    EthnicRowsAsWritten();
    forall i | 0 <= i < PatchCount
      ensures Packed(PatchMidi[i]) && Packed(PatchMidiAsWritten[i])
    {
      if MelodyCount <= i {
        assert PatchMidi[i] == PatchMidi[MelodyCount..][i - MelodyCount];
      } else if EthnicSita <= i <= EthnicShan {
        assert PatchMidiAsWritten[i] == PatchMidiRowsAsWritten[i / 8][i % 8];
      }
    }
    forall i | 0 <= i < PatchCount
      ensures Pack(Program(PatchMidiAsWritten[i]), Bank(PatchMidiAsWritten[i])) == PatchMidiAsWritten[i]
    {
      PackedRoundTrip(PatchMidiAsWritten[i]);
    }
  }

  /** The melodic codes strictly increase, so no two melodic ids share a code. */
  lemma MelodyStrictlyIncreasing()
    ensures |PatchMidi| == PatchCount
    ensures forall i, j | 0 <= i < j < MelodyCount :: PatchMidi[i] < PatchMidi[j]
  {
    MelodyChained();
    StepwiseIncreasing(PatchMidi, 0, MelodyCount);
  }

  /** Searching the melodic range for an id's code finds that id. */
  lemma MelodyLookupRoundTrip(id: PatchId)
    requires IsMelody(id)
    ensures |PatchMidi| == PatchCount
    ensures FindCode(PatchMidi, PatchMidi[id], 0, MelodyCount) == Some(id)
  {
    MelodyStrictlyIncreasing();
    IncreasingLookup(PatchMidi, 0, MelodyCount, id);
  }

  /** Searching the percussion range for a set's code finds that set. */
  lemma PercussionLookupRoundTrip(id: PatchId)
    requires IsPercussion(id)
    ensures |PatchMidi| == PatchCount
    ensures FindCode(PatchMidi, PatchMidi[id], MelodyCount, PatchCount) == Some(id)
  {
    PercussionEntries();
    forall i | MelodyCount <= i < PatchCount - 1
      ensures PatchMidi[i] < PatchMidi[i + 1]
    {
      assert PatchMidi[i] == PatchMidi[MelodyCount..][i - MelodyCount];
      assert PatchMidi[i + 1] == PatchMidi[MelodyCount..][i + 1 - MelodyCount];
    }
    StepwiseIncreasing(PatchMidi, MelodyCount, PatchCount);
    IncreasingLookup(PatchMidi, MelodyCount, PatchCount, id);
  }

  /**
   * Percussion codes also occur among the melodic codes (0x0000 is both the
   * Acoustic Grand Piano and the Standard set), so a percussion set is only
   * found again by searching the percussion range.
   */
  lemma PercussionCodesOverlapMelody()
    ensures |PatchMidi| == PatchCount
    ensures PatchMidi[PersndStan] == PatchMidi[PianoAcgr]
    ensures FindCode(PatchMidi, PatchMidi[PersndStan], 0, PatchCount) == Some(PianoAcgr)
  {
    RowShapes();
    FirstMatch(PatchMidi, PatchMidi[PianoAcgr], 0, PatchCount, PianoAcgr);
  }

  /**
   * Every General MIDI program 0..127 has a bank-0 entry (its capital
   * tone) in the melodic range, so a search for it succeeds.
   */
  lemma EveryProgramHasBankZero(program: int)
    requires 0 <= program < 0x80
    ensures |PatchMidi| == PatchCount
    ensures FindCode(PatchMidi, Pack(program, 0), 0, MelodyCount).Some?
  {
    MelodyChained();
    assert PatchMidi[0] == 0 && Program(PatchMidi[MelodyCount - 1]) == 0x7F by {
      RowShapes();
    }
    BankZeroEntries(PatchMidi, MelodyCount - 1);
  }

  lemma FamilyStartsAreCapitalTones0()
    ensures |PatchMidi| == PatchCount && |FamilyStarts| == 17
    ensures forall f | 0 <= f < 8 :: PatchMidi[FamilyStarts[f]] == Pack(8 * f, 0)
  {
    RowShapes();
  }

  lemma FamilyStartsAreCapitalTones1()
    ensures |PatchMidi| == PatchCount && |FamilyStarts| == 17
    ensures forall f | 8 <= f < 16 :: PatchMidi[FamilyStarts[f]] == Pack(8 * f, 0)
  {
    RowShapes();
  }

  /**
   * Each instrument family of the header starts at the bank-0 entry of its
   * first program: family f at program 8 * f.
   */
  lemma FamilyStartsAreCapitalTones()
    ensures |PatchMidi| == PatchCount && |FamilyStarts| == 17
    ensures forall f | 0 <= f < 16 :: PatchMidi[FamilyStarts[f]] == Pack(8 * f, 0)
  {
    FamilyStartsAreCapitalTones0();
    FamilyStartsAreCapitalTones1();
  }

  // ---------------------------------------------------------------------
  // What the source's ethnic rows break

  /**
   * In the source's table Sitar (id 192) has the code of Rain (id 181), so
   * a search of the melodic range for that code reports Rain: Sitar cannot
   * be reached through its code.
   */
  lemma AsWrittenEthnicShadowed()
    ensures |PatchMidiAsWritten| == PatchCount
    ensures PatchMidiAsWritten[EthnicSita] == PatchMidiAsWritten[Sfx1Rain] == Pack(0x60, 0)
    ensures FindCode(PatchMidiAsWritten, PatchMidiAsWritten[EthnicSita], 0, MelodyCount) == Some(Sfx1Rain)
  {
    MelodyStrictlyIncreasing();
    AsWrittenAgrees();
    assert PatchMidi[Sfx1Rain] == Pack(0x60, 0) && PatchMidiAsWritten[EthnicSita] == Pack(0x60, 0) by {
      RowShapes();
    }
    forall j | 0 <= j < Sfx1Rain
      ensures PatchMidiAsWritten[j] != Pack(0x60, 0)
    {
      assert PatchMidi[j] < PatchMidi[Sfx1Rain];
    }
    FirstMatch(PatchMidiAsWritten, Pack(0x60, 0), 0, MelodyCount, Sfx1Rain);
  }

  /**
   * The source's table has no entry at all for programs 0x68..0x6F (Sitar
   * to Shanai), so a search for any of them finds nothing.
   */
  lemma AsWrittenLacksEthnicPrograms(program: int)
    requires 0x68 <= program <= 0x6F
    ensures |PatchMidiAsWritten| == PatchCount
    ensures forall i | 0 <= i < PatchCount :: Program(PatchMidiAsWritten[i]) != program
    ensures FindCode(PatchMidiAsWritten, Pack(program, 0), 0, MelodyCount) == None
  {
    MelodyStrictlyIncreasing();
    PercussionEntries();
    AsWrittenAgrees();
    EthnicRowsAsWritten();
    assert PatchMidi[EthnicSita - 1] == 0x6700 && PatchMidi[PercTibe] == 0x7000 by {
      RowShapes();
    }
    forall i | 0 <= i < PatchCount
      ensures Program(PatchMidiAsWritten[i]) != program
    {
      if EthnicSita <= i <= EthnicShan {
        assert PatchMidiAsWritten[i] == PatchMidiRowsAsWritten[i / 8][i % 8];
      } else if i < EthnicSita {
        assert PatchMidi[i] <= PatchMidi[EthnicSita - 1];
      } else if i < MelodyCount {
        assert PatchMidi[PercTibe] <= PatchMidi[i];
      } else {
        assert PatchMidi[i] == PatchMidi[MelodyCount..][i - MelodyCount];
      }
    }
  }

  /**
   * The eight ethnic ids whose code in the source's table already belongs
   * to a synth-effects id before them: Sitar, Banjo, Shamisen, Koto,
   * Kalimba, Bag Pipe, Fiddle and Shanai.
   */
  const AsWrittenShadowed: set<int> :=
    {EthnicSita, EthnicBanj, EthnicSham, EthnicKoto, EthnicKali, EthnicBapi, EthnicFidd, EthnicShan}

  /** Outside the ethnic rows the source's table still finds each melodic id from its own code. */
  lemma AsWrittenLookupOutsideEthnic(id: PatchId)
    requires IsMelody(id) && !(EthnicSita <= id <= EthnicShan)
    ensures |PatchMidiAsWritten| == PatchCount
    ensures FindCode(PatchMidiAsWritten, PatchMidiAsWritten[id], 0, MelodyCount) == Some(id)
  {
    MelodyStrictlyIncreasing();
    AsWrittenAgrees();
    EthnicRowsAsWritten();
    assert PatchMidi[PercTibe] == 0x7000 by {
      RowShapes();
    }
    forall j | 0 <= j < id
      ensures PatchMidiAsWritten[j] != PatchMidiAsWritten[id]
    {
      if EthnicSita <= j <= EthnicShan {
        assert PatchMidiAsWritten[j] == PatchMidiRowsAsWritten[j / 8][j % 8] by {
          RowShapes();
        }
        assert PatchMidi[PercTibe] <= PatchMidi[id];
      } else {
        assert PatchMidi[j] < PatchMidi[id];
      }
    }
    FirstMatch(PatchMidiAsWritten, PatchMidiAsWritten[id], 0, MelodyCount, id);
  }

  /** Sitar (bend) and Koto (taisho) keep codes 0x6001 and 0x6301, which no earlier id has. */
  lemma AsWrittenLookupEthnicReachable(id: PatchId)
    requires id == EthnicSitaBe || id == EthnicKotoTa
    ensures |PatchMidiAsWritten| == PatchCount
    ensures FindCode(PatchMidiAsWritten, PatchMidiAsWritten[id], 0, MelodyCount) == Some(id)
  {
    RowShapes();
    MelodyStrictlyIncreasing();
    AsWrittenAgrees();
    assert PatchMidi[Sfx1Rain] == 0x6000;
    assert PatchMidiAsWritten[id] == if id == EthnicSitaBe then 0x6001 else 0x6301;
    forall j | 0 <= j < id
      ensures PatchMidiAsWritten[j] != PatchMidiAsWritten[id]
    {
      if j < Sfx1Rain {
        assert PatchMidi[j] < PatchMidi[Sfx1Rain];
      } else {
        assert PatchMidiAsWritten[j] == PatchMidiRowsAsWritten[j / 8][j % 8];
      }
    }
    FirstMatch(PatchMidiAsWritten, PatchMidiAsWritten[id], 0, MelodyCount, id);
  }

  /**
   * Each of the eight shadowed ethnic ids has the code of a synth-effects
   * id 181..191, so the search reports that earlier id instead.
   */
  lemma AsWrittenLookupShadowed(id: PatchId)
    requires id in AsWrittenShadowed
    ensures |PatchMidiAsWritten| == PatchCount
    ensures var found := FindCode(PatchMidiAsWritten, PatchMidiAsWritten[id], 0, MelodyCount);
      found.Some? && Sfx1Rain <= found.value <= Sfx1Scfi
  {
    RowShapes();
    MelodyStrictlyIncreasing();
    AsWrittenAgrees();
    var k :=
      if id == EthnicSita then Sfx1Rain
      else if id == EthnicBanj then Sfx1Sotr
      else if id == EthnicSham then Sfx1Crys
      else if id == EthnicKoto then Sfx1Atmo
      else if id == EthnicKali then Sfx1Brig
      else if id == EthnicBapi then Sfx1Gobl
      else if id == EthnicFidd then Sfx1Echo
      else Sfx1Scfi;
    assert PatchMidiAsWritten[k] == PatchMidiAsWritten[id];
    assert PatchMidi[Sfx1Rain] == 0x6000 && 0x6000 <= PatchMidiAsWritten[id];
    forall j | 0 <= j < Sfx1Rain
      ensures PatchMidiAsWritten[j] != PatchMidiAsWritten[id]
    {
      assert PatchMidi[j] < PatchMidi[Sfx1Rain];
    }
  }

  /**
   * In the source's table, a search of the melodic range for an id's own
   * code finds that id exactly when the id is not one of the eight
   * shadowed ethnic ids.
   */
  lemma AsWrittenMelodyLookup(id: PatchId)
    requires IsMelody(id)
    ensures |PatchMidiAsWritten| == PatchCount
    ensures FindCode(PatchMidiAsWritten, PatchMidiAsWritten[id], 0, MelodyCount) == Some(id) <==>
      id !in AsWrittenShadowed
  {
    if id in AsWrittenShadowed {
      AsWrittenLookupShadowed(id);
    } else if id == EthnicSitaBe || id == EthnicKotoTa {
      AsWrittenLookupEthnicReachable(id);
    } else {
      AsWrittenLookupOutsideEthnic(id);
    }
  }
}
