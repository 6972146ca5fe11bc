/** The fixed tables of `TransposerConfig` (config.py): the reference
    spellings, the normalisation dictionaries and the per-key spelling rows. */
module Config {
  import opened Results
  import opened Symbols
  import opened Common
  import opened Pitch

  /** `reference_abc_keys`: the spelling of pitch class i in letter notation. */
  const ReferenceAbcKeys: seq<string> :=
    ["C", "C#", "D", "Eb", "E", "F", "F#", "G", "G#", "A", "Bb", "B"]

  /** `reference_doremi_keys`: the same in solfege notation. */
  const ReferenceDoremiKeys: seq<string> :=
    ["DO", "DO#", "RE", "MIb", "MI", "FA", "FA#", "SOL", "SOL#", "LA", "SIb", "SI"]

  /** The accidental runs the normalisation tables accept after a base name. */
  const AccidentalSuffixes: set<string> := {"", "#", "b", "##", "bb"}

  /** A base name followed by no accidental, one, or two of the same kind. */
  predicate IsPlainSpelling(chord: string) {
    IsTrailingSpelling(chord) && FindAccidentals(chord) in AccidentalSuffixes
  }

  /** The dictionary of `key_to_reference_abc`. */
  const KeyToReferenceAbcTable: map<string, string> := map[
    "C" := "C", "D" := "D", "E" := "E", "F" := "F", "G" := "G", "A" := "A", "B" := "B",
    "C#" := "C#", "D#" := "Eb", "E#" := "F", "F#" := "F#", "G#" := "G#", "A#" := "Bb", "B#" := "C",
    "Cb" := "B", "Db" := "C#", "Eb" := "Eb", "Fb" := "E", "Gb" := "F#", "Ab" := "G#", "Bb" := "Bb",
    "C##" := "D", "D##" := "E", "E##" := "F#", "F##" := "G", "G##" := "A", "A##" := "B", "B##" := "C#",
    "Cbb" := "Bb", "Dbb" := "C", "Ebb" := "D", "Fbb" := "Eb", "Gbb" := "F", "Abb" := "G", "Bbb" := "A"
  ]

  /** The dictionary of `key_to_reference_doremi`. */
  const KeyToReferenceDoremiTable: map<string, string> := map[
    "DO" := "DO", "RE" := "RE", "MI" := "MI", "FA" := "FA", "SOL" := "SOL", "LA" := "LA", "SI" := "SI",
    "DO#" := "DO#", "RE#" := "MIb", "MI#" := "FA", "FA#" := "FA#", "SOL#" := "SOL#", "LA#" := "SIb", "SI#" := "DO",
    "DOb" := "SI", "REb" := "DO#", "MIb" := "MIb", "FAb" := "MI", "SOLb" := "FA#", "LAb" := "SOL#", "SIb" := "SIb",
    "DO##" := "RE", "RE##" := "MI", "MI##" := "FA#", "FA##" := "SOL", "SOL##" := "LA", "LA##" := "SI", "SI##" := "DO#",
    "DObb" := "SIb", "REbb" := "DO", "MIbb" := "RE", "FAbb" := "MIb", "SOLbb" := "FA", "LAbb" := "SOL", "SIbb" := "LA"
  ]

  /** `key_to_reference_abc`: the reference spelling of a letter-notation name. */
  function KeyToReferenceAbc(key: string): (r: Result<string>)
    ensures r.Err? ==> r.error == InvalidKey(key)
  {
    if key in KeyToReferenceAbcTable then Ok(KeyToReferenceAbcTable[key]) else Err(InvalidKey(key))
  }

  /** `key_to_reference_doremi`: the reference spelling of a solfege name. */
  function KeyToReferenceDoremi(key: string): (r: Result<string>)
    ensures r.Err? ==> r.error == InvalidKey(key)
  {
    if key in KeyToReferenceDoremiTable then Ok(KeyToReferenceDoremiTable[key]) else Err(InvalidKey(key))
  }

  /** `key_to_reference`: dispatch on the notation of the name. */
  function KeyToReference(key: string): Result<string> {
    if IsAbc(key) then KeyToReferenceAbc(key)
    else if IsDoremi(key) then KeyToReferenceDoremi(key)
    else Err(InvalidKey(key))
  }

  /** A spelled name has one of the accepted accidental runs. */
  lemma SpelledIsPlain(s: string)
    requires IsSpelled(s)
    ensures IsPlainSpelling(s)
  {
    SpelledScans(s);
    SpelledClassification(s);
    var a := s[NameLength(s)..];
    if |a| == 1 {
      if a[0] == Sharp { assert a == "#"; } else { assert a == "b"; }
    } else if |a| == 2 {
      if a[0] == Sharp { assert a == "##"; } else { assert a == "bb"; }
    }
  }

  /** A letter-notation spelling and the arithmetic of its pitch class, read off its characters. */
  predicate IsLetterSpelledAs(s: string, p: int) {
    IsSpelled(s) && NameOf(s) in LetterNames && (BasePitch(NameOf(s)) + RunAlteration(s)) % 12 == p
  }

  /** The same for a solfege spelling. */
  predicate IsSyllableSpelledAs(s: string, p: int) {
    IsSpelled(s) && NameOf(s) in SyllableNames && (BasePitch(NameOf(s)) + RunAlteration(s)) % 12 == p
  }

  lemma LetterSpelledFacts(s: string, p: int)
    requires IsLetterSpelledAs(s, p)
    ensures IsAbc(s) && IsPlainSpelling(s) && HasPitch(s) && PitchClass(s) == p
  {
    SpelledClassification(s);
    SpelledPitchClass(s);
    SpelledIsPlain(s);
  }

  lemma SyllableSpelledFacts(s: string, p: int)
    requires IsSyllableSpelledAs(s, p)
    ensures IsDoremi(s) && IsPlainSpelling(s) && HasPitch(s) && PitchClass(s) == p
  {
    SpelledClassification(s);
    SpelledPitchClass(s);
    SpelledIsPlain(s);
  }

  lemma ReferenceAbcKeysShape()
    ensures |ReferenceAbcKeys| == 12
    ensures forall i | 0 <= i < 12 :: IsLetterSpelledAs(ReferenceAbcKeys[i], i)
  {
  }

  lemma ReferenceDoremiKeysShape()
    ensures |ReferenceDoremiKeys| == 12
    ensures forall i | 0 <= i < 12 :: IsSyllableSpelledAs(ReferenceDoremiKeys[i], i)
  {
  }

  /** A letter-notation row whose slot i spells pitch class i. */
  predicate SpellsPitchClasses(row: seq<string>) {
    |row| == 12 && forall i | 0 <= i < 12 :: IsAbc(row[i]) && HasPitch(row[i]) && PitchClass(row[i]) == i
  }

  /** The same for a solfege row. */
  predicate SpellsPitchClassesInSolfege(row: seq<string>) {
    |row| == 12 && forall i | 0 <= i < 12 :: IsDoremi(row[i]) && HasPitch(row[i]) && PitchClass(row[i]) == i
  }

  /** The reference spellings of either notation are twelve distinct plain spellings,
      entry i of pitch class i. */
  lemma ReferenceKeysSpellPitchClasses()
    ensures SpellsPitchClasses(ReferenceAbcKeys) && SpellsPitchClassesInSolfege(ReferenceDoremiKeys)
    ensures forall i | 0 <= i < 12 :: IsPlainSpelling(ReferenceAbcKeys[i]) && IsPlainSpelling(ReferenceDoremiKeys[i])
    ensures forall i, j | 0 <= i < j < 12 :: ReferenceAbcKeys[i] != ReferenceAbcKeys[j]
    ensures forall i, j | 0 <= i < j < 12 :: ReferenceDoremiKeys[i] != ReferenceDoremiKeys[j]
  {
    ReferenceAbcKeysShape();
    ReferenceDoremiKeysShape();
    forall i | 0 <= i < 12
      ensures IsAbc(ReferenceAbcKeys[i]) && IsPlainSpelling(ReferenceAbcKeys[i])
      ensures HasPitch(ReferenceAbcKeys[i]) && PitchClass(ReferenceAbcKeys[i]) == i
      ensures IsDoremi(ReferenceDoremiKeys[i]) && IsPlainSpelling(ReferenceDoremiKeys[i])
      ensures HasPitch(ReferenceDoremiKeys[i]) && PitchClass(ReferenceDoremiKeys[i]) == i
    {
      LetterSpelledFacts(ReferenceAbcKeys[i], i);
      SyllableSpelledFacts(ReferenceDoremiKeys[i], i);
    }
  }

  /** Two spelled names with corresponding base names and the same accidentals translate into each other. */
  lemma SpelledTranslation(s: string, t: string)
    requires IsSpelled(s) && IsSpelled(t) && NameOf(s) in LetterNames
    requires AbcToDoremiDictionary[NameOf(s)] == NameOf(t)
    requires |s| - NameLength(s) == |t| - NameLength(t)
    requires forall j | NameLength(s) <= j < |s| :: s[j] == t[j - NameLength(s) + NameLength(t)]
    ensures AbcToDoremi(s) == Ok(t)
  {
    SpelledScans(s);
    SpelledScans(t);
    SpelledClassification(s);
    SpelledClassification(t);
    assert s[NameLength(s)..] == t[NameLength(t)..];
  }

  lemma ReferenceTranslations()
    ensures forall i | 0 <= i < 12 :: AbcToDoremi(ReferenceAbcKeys[i]) == Ok(ReferenceDoremiKeys[i])
  {
    ReferenceAbcKeysShape();
    ReferenceDoremiKeysShape();
    ReferenceNamesCorrespond();
    ReferenceRunsCorrespond();
    forall i | 0 <= i < 12
      ensures AbcToDoremi(ReferenceAbcKeys[i]) == Ok(ReferenceDoremiKeys[i])
    {
      SpelledTranslation(ReferenceAbcKeys[i], ReferenceDoremiKeys[i]);
    }
  }

  /** Slot by slot, the two reference lists use corresponding base names... */
  lemma ReferenceNamesCorrespond()
    ensures forall i | 0 <= i < 12 ::
      NameOf(ReferenceAbcKeys[i]) in AbcToDoremiDictionary &&
      AbcToDoremiDictionary[NameOf(ReferenceAbcKeys[i])] == NameOf(ReferenceDoremiKeys[i])
  {
  }

  /** ... and the same accidentals. */
  lemma ReferenceRunsCorrespond()
    ensures forall i | 0 <= i < 12 ::
      |ReferenceAbcKeys[i]| - NameLength(ReferenceAbcKeys[i]) == |ReferenceDoremiKeys[i]| - NameLength(ReferenceDoremiKeys[i]) &&
      forall j | NameLength(ReferenceAbcKeys[i]) <= j < |ReferenceAbcKeys[i]| ::
        ReferenceAbcKeys[i][j] == ReferenceDoremiKeys[i][j - NameLength(ReferenceAbcKeys[i]) + NameLength(ReferenceDoremiKeys[i])]
  {
  }

  // Table lookups: the keys and entries of the two normalisation dictionaries, read off their
  // literal entries, a few at a time.

  /** The keys of the letter table, written out. */
  lemma KeyToReferenceAbcTableKeys(k: string)
    requires k in KeyToReferenceAbcTable
    ensures k == "C" || k == "D" || k == "E" || k == "F" || k == "G" || k == "A" || k == "B"
      || k == "C#" || k == "D#" || k == "E#" || k == "F#" || k == "G#" || k == "A#" || k == "B#"
      || k == "Cb" || k == "Db" || k == "Eb" || k == "Fb" || k == "Gb" || k == "Ab" || k == "Bb"
      || k == "C##" || k == "D##" || k == "E##" || k == "F##" || k == "G##" || k == "A##" || k == "B##"
      || k == "Cbb" || k == "Dbb" || k == "Ebb" || k == "Fbb" || k == "Gbb" || k == "Abb" || k == "Bbb"
  {
  }

  lemma KeyToReferenceAbcTableRow0()
    ensures IsSpelled("C") && NameOf("C") in LetterNames
    ensures IsSpelled("D") && NameOf("D") in LetterNames
    ensures IsSpelled("E") && NameOf("E") in LetterNames
    ensures IsSpelled("F") && NameOf("F") in LetterNames
    ensures IsSpelled("G") && NameOf("G") in LetterNames
    ensures IsSpelled("A") && NameOf("A") in LetterNames
    ensures IsSpelled("B") && NameOf("B") in LetterNames
  {
  }

  lemma KeyToReferenceAbcTableRow1()
    ensures IsSpelled("C#") && NameOf("C#") in LetterNames
    ensures IsSpelled("D#") && NameOf("D#") in LetterNames
    ensures IsSpelled("E#") && NameOf("E#") in LetterNames
    ensures IsSpelled("F#") && NameOf("F#") in LetterNames
    ensures IsSpelled("G#") && NameOf("G#") in LetterNames
    ensures IsSpelled("A#") && NameOf("A#") in LetterNames
    ensures IsSpelled("B#") && NameOf("B#") in LetterNames
  {
  }

  lemma KeyToReferenceAbcTableRow2()
    ensures IsSpelled("Cb") && NameOf("Cb") in LetterNames
    ensures IsSpelled("Db") && NameOf("Db") in LetterNames
    ensures IsSpelled("Eb") && NameOf("Eb") in LetterNames
    ensures IsSpelled("Fb") && NameOf("Fb") in LetterNames
    ensures IsSpelled("Gb") && NameOf("Gb") in LetterNames
    ensures IsSpelled("Ab") && NameOf("Ab") in LetterNames
    ensures IsSpelled("Bb") && NameOf("Bb") in LetterNames
  {
  }

  lemma KeyToReferenceAbcTableRow3()
    ensures IsSpelled("C##") && NameOf("C##") in LetterNames
    ensures IsSpelled("D##") && NameOf("D##") in LetterNames
    ensures IsSpelled("E##") && NameOf("E##") in LetterNames
    ensures IsSpelled("F##") && NameOf("F##") in LetterNames
    ensures IsSpelled("G##") && NameOf("G##") in LetterNames
    ensures IsSpelled("A##") && NameOf("A##") in LetterNames
    ensures IsSpelled("B##") && NameOf("B##") in LetterNames
  {
  }

  lemma KeyToReferenceAbcTableRow4()
    ensures IsSpelled("Cbb") && NameOf("Cbb") in LetterNames
    ensures IsSpelled("Dbb") && NameOf("Dbb") in LetterNames
    ensures IsSpelled("Ebb") && NameOf("Ebb") in LetterNames
    ensures IsSpelled("Fbb") && NameOf("Fbb") in LetterNames
    ensures IsSpelled("Gbb") && NameOf("Gbb") in LetterNames
    ensures IsSpelled("Abb") && NameOf("Abb") in LetterNames
    ensures IsSpelled("Bbb") && NameOf("Bbb") in LetterNames
  {
  }

  /** Every key of the letter table is a name followed by a run of one accidental. */
  lemma KeyToReferenceAbcTableShape()
    ensures forall k | k in KeyToReferenceAbcTable :: IsSpelled(k) && NameOf(k) in LetterNames
  {
    KeyToReferenceAbcTableRow0(); KeyToReferenceAbcTableRow1(); KeyToReferenceAbcTableRow2(); KeyToReferenceAbcTableRow3(); KeyToReferenceAbcTableRow4();
    forall k | k in KeyToReferenceAbcTable
      ensures IsSpelled(k) && NameOf(k) in LetterNames
    {
      KeyToReferenceAbcTableKeys(k);
    }
  }

  /** The keys of the solfege table, written out. */
  lemma KeyToReferenceDoremiTableKeys(k: string)
    requires k in KeyToReferenceDoremiTable
    ensures k == "DO" || k == "RE" || k == "MI" || k == "FA" || k == "SOL" || k == "LA" || k == "SI"
      || k == "DO#" || k == "RE#" || k == "MI#" || k == "FA#" || k == "SOL#" || k == "LA#" || k == "SI#"
      || k == "DOb" || k == "REb" || k == "MIb" || k == "FAb" || k == "SOLb" || k == "LAb" || k == "SIb"
      || k == "DO##" || k == "RE##" || k == "MI##" || k == "FA##" || k == "SOL##" || k == "LA##" || k == "SI##"
      || k == "DObb" || k == "REbb" || k == "MIbb" || k == "FAbb" || k == "SOLbb" || k == "LAbb" || k == "SIbb"
  {
  }

  lemma KeyToReferenceDoremiTableRow0()
    ensures IsSpelled("DO") && NameOf("DO") in SyllableNames
    ensures IsSpelled("RE") && NameOf("RE") in SyllableNames
    ensures IsSpelled("MI") && NameOf("MI") in SyllableNames
    ensures IsSpelled("FA") && NameOf("FA") in SyllableNames
    ensures IsSpelled("SOL") && NameOf("SOL") in SyllableNames
    ensures IsSpelled("LA") && NameOf("LA") in SyllableNames
    ensures IsSpelled("SI") && NameOf("SI") in SyllableNames
  {
  }

  lemma KeyToReferenceDoremiTableRow1()
    ensures IsSpelled("DO#") && NameOf("DO#") in SyllableNames
    ensures IsSpelled("RE#") && NameOf("RE#") in SyllableNames
    ensures IsSpelled("MI#") && NameOf("MI#") in SyllableNames
    ensures IsSpelled("FA#") && NameOf("FA#") in SyllableNames
    ensures IsSpelled("SOL#") && NameOf("SOL#") in SyllableNames
    ensures IsSpelled("LA#") && NameOf("LA#") in SyllableNames
    ensures IsSpelled("SI#") && NameOf("SI#") in SyllableNames
  {
  }

  lemma KeyToReferenceDoremiTableRow2()
    ensures IsSpelled("DOb") && NameOf("DOb") in SyllableNames
    ensures IsSpelled("REb") && NameOf("REb") in SyllableNames
    ensures IsSpelled("MIb") && NameOf("MIb") in SyllableNames
    ensures IsSpelled("FAb") && NameOf("FAb") in SyllableNames
    ensures IsSpelled("SOLb") && NameOf("SOLb") in SyllableNames
    ensures IsSpelled("LAb") && NameOf("LAb") in SyllableNames
    ensures IsSpelled("SIb") && NameOf("SIb") in SyllableNames
  {
  }

  lemma KeyToReferenceDoremiTableRow3()
    ensures IsSpelled("DO##") && NameOf("DO##") in SyllableNames
    ensures IsSpelled("RE##") && NameOf("RE##") in SyllableNames
    ensures IsSpelled("MI##") && NameOf("MI##") in SyllableNames
    ensures IsSpelled("FA##") && NameOf("FA##") in SyllableNames
    ensures IsSpelled("SOL##") && NameOf("SOL##") in SyllableNames
    ensures IsSpelled("LA##") && NameOf("LA##") in SyllableNames
    ensures IsSpelled("SI##") && NameOf("SI##") in SyllableNames
  {
  }

  lemma KeyToReferenceDoremiTableRow4()
    ensures IsSpelled("DObb") && NameOf("DObb") in SyllableNames
    ensures IsSpelled("REbb") && NameOf("REbb") in SyllableNames
    ensures IsSpelled("MIbb") && NameOf("MIbb") in SyllableNames
    ensures IsSpelled("FAbb") && NameOf("FAbb") in SyllableNames
    ensures IsSpelled("SOLbb") && NameOf("SOLbb") in SyllableNames
    ensures IsSpelled("LAbb") && NameOf("LAbb") in SyllableNames
    ensures IsSpelled("SIbb") && NameOf("SIbb") in SyllableNames
  {
  }

  /** Every key of the solfege table is a name followed by a run of one accidental. */
  lemma KeyToReferenceDoremiTableShape()
    ensures forall k | k in KeyToReferenceDoremiTable :: IsSpelled(k) && NameOf(k) in SyllableNames
  {
    KeyToReferenceDoremiTableRow0(); KeyToReferenceDoremiTableRow1(); KeyToReferenceDoremiTableRow2(); KeyToReferenceDoremiTableRow3(); KeyToReferenceDoremiTableRow4();
    forall k | k in KeyToReferenceDoremiTable
      ensures IsSpelled(k) && NameOf(k) in SyllableNames
    {
      KeyToReferenceDoremiTableKeys(k);
    }
  }

  /** The entries of the letter table for a name followed by no accidental, written out. */
  lemma AbcColumnUnaltered()
    ensures "C" in KeyToReferenceAbcTable && KeyToReferenceAbcTable["C"] == ReferenceAbcKeys[0]
    ensures "D" in KeyToReferenceAbcTable && KeyToReferenceAbcTable["D"] == ReferenceAbcKeys[2]
    ensures "E" in KeyToReferenceAbcTable && KeyToReferenceAbcTable["E"] == ReferenceAbcKeys[4]
    ensures "F" in KeyToReferenceAbcTable && KeyToReferenceAbcTable["F"] == ReferenceAbcKeys[5]
    ensures "G" in KeyToReferenceAbcTable && KeyToReferenceAbcTable["G"] == ReferenceAbcKeys[7]
    ensures "A" in KeyToReferenceAbcTable && KeyToReferenceAbcTable["A"] == ReferenceAbcKeys[9]
    ensures "B" in KeyToReferenceAbcTable && KeyToReferenceAbcTable["B"] == ReferenceAbcKeys[11]
  {
  }

  /** A letter name followed by no accidental is a key of the letter table. */
  lemma AbcEntryUnaltered(b: string)
    requires b in LetterNames
    ensures b in KeyToReferenceAbcTable && KeyToReferenceAbcTable[b] == ReferenceAbcKeys[BasePitch(b)]
  {
    AbcColumnUnaltered();
  }

  /** The entries of the letter table for a name followed by one sharp, written out. */
  lemma AbcColumnSharp()
    ensures "C#" in KeyToReferenceAbcTable && KeyToReferenceAbcTable["C#"] == ReferenceAbcKeys[1]
    ensures "D#" in KeyToReferenceAbcTable && KeyToReferenceAbcTable["D#"] == ReferenceAbcKeys[3]
    ensures "E#" in KeyToReferenceAbcTable && KeyToReferenceAbcTable["E#"] == ReferenceAbcKeys[5]
    ensures "F#" in KeyToReferenceAbcTable && KeyToReferenceAbcTable["F#"] == ReferenceAbcKeys[6]
    ensures "G#" in KeyToReferenceAbcTable && KeyToReferenceAbcTable["G#"] == ReferenceAbcKeys[8]
    ensures "A#" in KeyToReferenceAbcTable && KeyToReferenceAbcTable["A#"] == ReferenceAbcKeys[10]
    ensures "B#" in KeyToReferenceAbcTable && KeyToReferenceAbcTable["B#"] == ReferenceAbcKeys[0]
  {
  }

  /** A letter name followed by one sharp is a key of the letter table. */
  lemma AbcEntrySharp(b: string)
    requires b in LetterNames
    ensures b + "#" in KeyToReferenceAbcTable && KeyToReferenceAbcTable[b + "#"] == ReferenceAbcKeys[(BasePitch(b) + 1) % 12]
  {
    AbcColumnSharp();
    if b == "C" { assert b + "#" == "C#"; }
    else if b == "D" { assert b + "#" == "D#"; }
    else if b == "E" { assert b + "#" == "E#"; }
    else if b == "F" { assert b + "#" == "F#"; }
    else if b == "G" { assert b + "#" == "G#"; }
    else if b == "A" { assert b + "#" == "A#"; }
    else { assert b + "#" == "B#"; }
  }

  /** The entries of the letter table for a name followed by two sharps, written out. */
  lemma AbcColumnDoubleSharp()
    ensures "C##" in KeyToReferenceAbcTable && KeyToReferenceAbcTable["C##"] == ReferenceAbcKeys[2]
    ensures "D##" in KeyToReferenceAbcTable && KeyToReferenceAbcTable["D##"] == ReferenceAbcKeys[4]
    ensures "E##" in KeyToReferenceAbcTable && KeyToReferenceAbcTable["E##"] == ReferenceAbcKeys[6]
    ensures "F##" in KeyToReferenceAbcTable && KeyToReferenceAbcTable["F##"] == ReferenceAbcKeys[7]
    ensures "G##" in KeyToReferenceAbcTable && KeyToReferenceAbcTable["G##"] == ReferenceAbcKeys[9]
    ensures "A##" in KeyToReferenceAbcTable && KeyToReferenceAbcTable["A##"] == ReferenceAbcKeys[11]
    ensures "B##" in KeyToReferenceAbcTable && KeyToReferenceAbcTable["B##"] == ReferenceAbcKeys[1]
  {
  }

  /** A letter name followed by two sharps is a key of the letter table. */
  lemma AbcEntryDoubleSharp(b: string)
    requires b in LetterNames
    ensures b + "##" in KeyToReferenceAbcTable && KeyToReferenceAbcTable[b + "##"] == ReferenceAbcKeys[(BasePitch(b) + 2) % 12]
  {
    AbcColumnDoubleSharp();
    if b == "C" { assert b + "##" == "C##"; }
    else if b == "D" { assert b + "##" == "D##"; }
    else if b == "E" { assert b + "##" == "E##"; }
    else if b == "F" { assert b + "##" == "F##"; }
    else if b == "G" { assert b + "##" == "G##"; }
    else if b == "A" { assert b + "##" == "A##"; }
    else { assert b + "##" == "B##"; }
  }

  /** The entries of the letter table for a name followed by one flat, written out. */
  lemma AbcColumnFlat()
    ensures "Cb" in KeyToReferenceAbcTable && KeyToReferenceAbcTable["Cb"] == ReferenceAbcKeys[11]
    ensures "Db" in KeyToReferenceAbcTable && KeyToReferenceAbcTable["Db"] == ReferenceAbcKeys[1]
    ensures "Eb" in KeyToReferenceAbcTable && KeyToReferenceAbcTable["Eb"] == ReferenceAbcKeys[3]
    ensures "Fb" in KeyToReferenceAbcTable && KeyToReferenceAbcTable["Fb"] == ReferenceAbcKeys[4]
    ensures "Gb" in KeyToReferenceAbcTable && KeyToReferenceAbcTable["Gb"] == ReferenceAbcKeys[6]
    ensures "Ab" in KeyToReferenceAbcTable && KeyToReferenceAbcTable["Ab"] == ReferenceAbcKeys[8]
    ensures "Bb" in KeyToReferenceAbcTable && KeyToReferenceAbcTable["Bb"] == ReferenceAbcKeys[10]
  {
  }

  /** A letter name followed by one flat is a key of the letter table. */
  lemma AbcEntryFlat(b: string)
    requires b in LetterNames
    ensures b + "b" in KeyToReferenceAbcTable && KeyToReferenceAbcTable[b + "b"] == ReferenceAbcKeys[(BasePitch(b) + -1) % 12]
  {
    AbcColumnFlat();
    if b == "C" { assert b + "b" == "Cb"; }
    else if b == "D" { assert b + "b" == "Db"; }
    else if b == "E" { assert b + "b" == "Eb"; }
    else if b == "F" { assert b + "b" == "Fb"; }
    else if b == "G" { assert b + "b" == "Gb"; }
    else if b == "A" { assert b + "b" == "Ab"; }
    else { assert b + "b" == "Bb"; }
  }

  /** The entries of the letter table for a name followed by two flats, written out. */
  lemma AbcColumnDoubleFlat()
    ensures "Cbb" in KeyToReferenceAbcTable && KeyToReferenceAbcTable["Cbb"] == ReferenceAbcKeys[10]
    ensures "Dbb" in KeyToReferenceAbcTable && KeyToReferenceAbcTable["Dbb"] == ReferenceAbcKeys[0]
    ensures "Ebb" in KeyToReferenceAbcTable && KeyToReferenceAbcTable["Ebb"] == ReferenceAbcKeys[2]
    ensures "Fbb" in KeyToReferenceAbcTable && KeyToReferenceAbcTable["Fbb"] == ReferenceAbcKeys[3]
    ensures "Gbb" in KeyToReferenceAbcTable && KeyToReferenceAbcTable["Gbb"] == ReferenceAbcKeys[5]
    ensures "Abb" in KeyToReferenceAbcTable && KeyToReferenceAbcTable["Abb"] == ReferenceAbcKeys[7]
    ensures "Bbb" in KeyToReferenceAbcTable && KeyToReferenceAbcTable["Bbb"] == ReferenceAbcKeys[9]
  {
  }

  /** A letter name followed by two flats is a key of the letter table. */
  lemma AbcEntryDoubleFlat(b: string)
    requires b in LetterNames
    ensures b + "bb" in KeyToReferenceAbcTable && KeyToReferenceAbcTable[b + "bb"] == ReferenceAbcKeys[(BasePitch(b) + -2) % 12]
  {
    AbcColumnDoubleFlat();
    if b == "C" { assert b + "bb" == "Cbb"; }
    else if b == "D" { assert b + "bb" == "Dbb"; }
    else if b == "E" { assert b + "bb" == "Ebb"; }
    else if b == "F" { assert b + "bb" == "Fbb"; }
    else if b == "G" { assert b + "bb" == "Gbb"; }
    else if b == "A" { assert b + "bb" == "Abb"; }
    else { assert b + "bb" == "Bbb"; }
  }

  /** The entries of the solfege table for a name followed by no accidental, written out. */
  lemma DoremiColumnUnaltered()
    ensures "DO" in KeyToReferenceDoremiTable && KeyToReferenceDoremiTable["DO"] == ReferenceDoremiKeys[0]
    ensures "RE" in KeyToReferenceDoremiTable && KeyToReferenceDoremiTable["RE"] == ReferenceDoremiKeys[2]
    ensures "MI" in KeyToReferenceDoremiTable && KeyToReferenceDoremiTable["MI"] == ReferenceDoremiKeys[4]
    ensures "FA" in KeyToReferenceDoremiTable && KeyToReferenceDoremiTable["FA"] == ReferenceDoremiKeys[5]
    ensures "SOL" in KeyToReferenceDoremiTable && KeyToReferenceDoremiTable["SOL"] == ReferenceDoremiKeys[7]
    ensures "LA" in KeyToReferenceDoremiTable && KeyToReferenceDoremiTable["LA"] == ReferenceDoremiKeys[9]
    ensures "SI" in KeyToReferenceDoremiTable && KeyToReferenceDoremiTable["SI"] == ReferenceDoremiKeys[11]
  {
  }

  /** A solfege name followed by no accidental is a key of the solfege table. */
  lemma DoremiEntryUnaltered(d: string)
    requires d in SyllableNames
    ensures d in KeyToReferenceDoremiTable && KeyToReferenceDoremiTable[d] == ReferenceDoremiKeys[BasePitch(d)]
  {
    DoremiColumnUnaltered();
  }

  /** The entries of the solfege table for a name followed by one sharp, written out. */
  lemma DoremiColumnSharp()
    ensures "DO#" in KeyToReferenceDoremiTable && KeyToReferenceDoremiTable["DO#"] == ReferenceDoremiKeys[1]
    ensures "RE#" in KeyToReferenceDoremiTable && KeyToReferenceDoremiTable["RE#"] == ReferenceDoremiKeys[3]
    ensures "MI#" in KeyToReferenceDoremiTable && KeyToReferenceDoremiTable["MI#"] == ReferenceDoremiKeys[5]
    ensures "FA#" in KeyToReferenceDoremiTable && KeyToReferenceDoremiTable["FA#"] == ReferenceDoremiKeys[6]
    ensures "SOL#" in KeyToReferenceDoremiTable && KeyToReferenceDoremiTable["SOL#"] == ReferenceDoremiKeys[8]
    ensures "LA#" in KeyToReferenceDoremiTable && KeyToReferenceDoremiTable["LA#"] == ReferenceDoremiKeys[10]
    ensures "SI#" in KeyToReferenceDoremiTable && KeyToReferenceDoremiTable["SI#"] == ReferenceDoremiKeys[0]
  {
  }

  /** A solfege name followed by one sharp is a key of the solfege table. */
  lemma DoremiEntrySharp(d: string)
    requires d in SyllableNames
    ensures d + "#" in KeyToReferenceDoremiTable && KeyToReferenceDoremiTable[d + "#"] == ReferenceDoremiKeys[(BasePitch(d) + 1) % 12]
  {
    DoremiColumnSharp();
    if d == "DO" { assert d + "#" == "DO#"; }
    else if d == "RE" { assert d + "#" == "RE#"; }
    else if d == "MI" { assert d + "#" == "MI#"; }
    else if d == "FA" { assert d + "#" == "FA#"; }
    else if d == "SOL" { assert d + "#" == "SOL#"; }
    else if d == "LA" { assert d + "#" == "LA#"; }
    else { assert d + "#" == "SI#"; }
  }

  /** The entries of the solfege table for a name followed by two sharps, written out. */
  lemma DoremiColumnDoubleSharp()
    ensures "DO##" in KeyToReferenceDoremiTable && KeyToReferenceDoremiTable["DO##"] == ReferenceDoremiKeys[2]
    ensures "RE##" in KeyToReferenceDoremiTable && KeyToReferenceDoremiTable["RE##"] == ReferenceDoremiKeys[4]
    ensures "MI##" in KeyToReferenceDoremiTable && KeyToReferenceDoremiTable["MI##"] == ReferenceDoremiKeys[6]
    ensures "FA##" in KeyToReferenceDoremiTable && KeyToReferenceDoremiTable["FA##"] == ReferenceDoremiKeys[7]
    ensures "SOL##" in KeyToReferenceDoremiTable && KeyToReferenceDoremiTable["SOL##"] == ReferenceDoremiKeys[9]
    ensures "LA##" in KeyToReferenceDoremiTable && KeyToReferenceDoremiTable["LA##"] == ReferenceDoremiKeys[11]
    ensures "SI##" in KeyToReferenceDoremiTable && KeyToReferenceDoremiTable["SI##"] == ReferenceDoremiKeys[1]
  {
  }

  /** A solfege name followed by two sharps is a key of the solfege table. */
  lemma DoremiEntryDoubleSharp(d: string)
    requires d in SyllableNames
    ensures d + "##" in KeyToReferenceDoremiTable && KeyToReferenceDoremiTable[d + "##"] == ReferenceDoremiKeys[(BasePitch(d) + 2) % 12]
  {
    DoremiColumnDoubleSharp();
    if d == "DO" { assert d + "##" == "DO##"; }
    else if d == "RE" { assert d + "##" == "RE##"; }
    else if d == "MI" { assert d + "##" == "MI##"; }
    else if d == "FA" { assert d + "##" == "FA##"; }
    else if d == "SOL" { assert d + "##" == "SOL##"; }
    else if d == "LA" { assert d + "##" == "LA##"; }
    else { assert d + "##" == "SI##"; }
  }

  /** The entries of the solfege table for a name followed by one flat, written out. */
  lemma DoremiColumnFlat()
    ensures "DOb" in KeyToReferenceDoremiTable && KeyToReferenceDoremiTable["DOb"] == ReferenceDoremiKeys[11]
    ensures "REb" in KeyToReferenceDoremiTable && KeyToReferenceDoremiTable["REb"] == ReferenceDoremiKeys[1]
    ensures "MIb" in KeyToReferenceDoremiTable && KeyToReferenceDoremiTable["MIb"] == ReferenceDoremiKeys[3]
    ensures "FAb" in KeyToReferenceDoremiTable && KeyToReferenceDoremiTable["FAb"] == ReferenceDoremiKeys[4]
    ensures "SOLb" in KeyToReferenceDoremiTable && KeyToReferenceDoremiTable["SOLb"] == ReferenceDoremiKeys[6]
    ensures "LAb" in KeyToReferenceDoremiTable && KeyToReferenceDoremiTable["LAb"] == ReferenceDoremiKeys[8]
    ensures "SIb" in KeyToReferenceDoremiTable && KeyToReferenceDoremiTable["SIb"] == ReferenceDoremiKeys[10]
  {
  }

  /** A solfege name followed by one flat is a key of the solfege table. */
  lemma DoremiEntryFlat(d: string)
    requires d in SyllableNames
    ensures d + "b" in KeyToReferenceDoremiTable && KeyToReferenceDoremiTable[d + "b"] == ReferenceDoremiKeys[(BasePitch(d) + -1) % 12]
  {
    DoremiColumnFlat();
    if d == "DO" { assert d + "b" == "DOb"; }
    else if d == "RE" { assert d + "b" == "REb"; }
    else if d == "MI" { assert d + "b" == "MIb"; }
    else if d == "FA" { assert d + "b" == "FAb"; }
    else if d == "SOL" { assert d + "b" == "SOLb"; }
    else if d == "LA" { assert d + "b" == "LAb"; }
    else { assert d + "b" == "SIb"; }
  }

  /** The entries of the solfege table for a name followed by two flats, written out. */
  lemma DoremiColumnDoubleFlat()
    ensures "DObb" in KeyToReferenceDoremiTable && KeyToReferenceDoremiTable["DObb"] == ReferenceDoremiKeys[10]
    ensures "REbb" in KeyToReferenceDoremiTable && KeyToReferenceDoremiTable["REbb"] == ReferenceDoremiKeys[0]
    ensures "MIbb" in KeyToReferenceDoremiTable && KeyToReferenceDoremiTable["MIbb"] == ReferenceDoremiKeys[2]
    ensures "FAbb" in KeyToReferenceDoremiTable && KeyToReferenceDoremiTable["FAbb"] == ReferenceDoremiKeys[3]
    ensures "SOLbb" in KeyToReferenceDoremiTable && KeyToReferenceDoremiTable["SOLbb"] == ReferenceDoremiKeys[5]
    ensures "LAbb" in KeyToReferenceDoremiTable && KeyToReferenceDoremiTable["LAbb"] == ReferenceDoremiKeys[7]
    ensures "SIbb" in KeyToReferenceDoremiTable && KeyToReferenceDoremiTable["SIbb"] == ReferenceDoremiKeys[9]
  {
  }

  /** A solfege name followed by two flats is a key of the solfege table. */
  lemma DoremiEntryDoubleFlat(d: string)
    requires d in SyllableNames
    ensures d + "bb" in KeyToReferenceDoremiTable && KeyToReferenceDoremiTable[d + "bb"] == ReferenceDoremiKeys[(BasePitch(d) + -2) % 12]
  {
    DoremiColumnDoubleFlat();
    if d == "DO" { assert d + "bb" == "DObb"; }
    else if d == "RE" { assert d + "bb" == "REbb"; }
    else if d == "MI" { assert d + "bb" == "MIbb"; }
    else if d == "FA" { assert d + "bb" == "FAbb"; }
    else if d == "SOL" { assert d + "bb" == "SOLbb"; }
    else if d == "LA" { assert d + "bb" == "LAbb"; }
    else { assert d + "bb" == "SIbb"; }
  }

  // The normalisation dictionaries against the pitch-class definition.

  /** The pitch class of a trailing spelling whose base name and accidentals are known. */
  lemma PitchClassOfParts(k: string, name: string, a: string)
    requires name in LetterNames || name in SyllableNames
    requires RemoveAccidentals(k) == name && FindAccidentals(k) == a
    ensures HasPitch(k) && PitchClass(k) == (BasePitch(name) + Alteration(a)) % 12
  {
  }

  /** Every letter name followed by no accidental or sharps is a key of the letter table. */
  lemma AbcTableEntryUp(b: string, a: string)
    requires b in LetterNames && a in {"", "#", "##"}
    ensures b + a in KeyToReferenceAbcTable
    ensures KeyToReferenceAbcTable[b + a] == ReferenceAbcKeys[(BasePitch(b) + Alteration(a)) % 12]
  {
    if a == "" {
      AbcEntryUnaltered(b);
      assert b + a == b && Alteration(a) == 0;
    } else if a == "#" {
      AbcEntrySharp(b);
      assert Alteration(a) == 1;
    } else {
      AbcEntryDoubleSharp(b);
      assert Alteration(a) == 2;
    }
  }

  /** Every letter name followed by flats is a key of the letter table. */
  lemma AbcTableEntryDown(b: string, a: string)
    requires b in LetterNames && a in {"b", "bb"}
    ensures b + a in KeyToReferenceAbcTable
    ensures KeyToReferenceAbcTable[b + a] == ReferenceAbcKeys[(BasePitch(b) + Alteration(a)) % 12]
  {
    if a == "b" {
      AbcEntryFlat(b);
      assert Alteration(a) == -1;
    } else {
      AbcEntryDoubleFlat(b);
      assert Alteration(a) == -2;
    }
  }

  /** Every letter name with every accepted accidental run is a key of the letter table. */
  lemma AbcTableEntry(b: string, a: string)
    requires b in LetterNames && a in AccidentalSuffixes
    ensures b + a in KeyToReferenceAbcTable
    ensures KeyToReferenceAbcTable[b + a] == ReferenceAbcKeys[(BasePitch(b) + Alteration(a)) % 12]
  {
    if a in {"", "#", "##"} {
      AbcTableEntryUp(b, a);
    } else {
      AbcTableEntryDown(b, a);
    }
  }

  /** Every syllable followed by no accidental or sharps is a key of the solfege table. */
  lemma DoremiTableEntryUp(d: string, a: string)
    requires d in SyllableNames && a in {"", "#", "##"}
    ensures d + a in KeyToReferenceDoremiTable
    ensures KeyToReferenceDoremiTable[d + a] == ReferenceDoremiKeys[(BasePitch(d) + Alteration(a)) % 12]
  {
    if a == "" {
      DoremiEntryUnaltered(d);
      assert d + a == d && Alteration(a) == 0;
    } else if a == "#" {
      DoremiEntrySharp(d);
      assert Alteration(a) == 1;
    } else {
      DoremiEntryDoubleSharp(d);
      assert Alteration(a) == 2;
    }
  }

  /** Every syllable followed by flats is a key of the solfege table. */
  lemma DoremiTableEntryDown(d: string, a: string)
    requires d in SyllableNames && a in {"b", "bb"}
    ensures d + a in KeyToReferenceDoremiTable
    ensures KeyToReferenceDoremiTable[d + a] == ReferenceDoremiKeys[(BasePitch(d) + Alteration(a)) % 12]
  {
    if a == "b" {
      DoremiEntryFlat(d);
      assert Alteration(a) == -1;
    } else {
      DoremiEntryDoubleFlat(d);
      assert Alteration(a) == -2;
    }
  }

  /** Every syllable with every accepted accidental run is a key of the solfege table. */
  lemma DoremiTableEntry(d: string, a: string)
    requires d in SyllableNames && a in AccidentalSuffixes
    ensures d + a in KeyToReferenceDoremiTable
    ensures KeyToReferenceDoremiTable[d + a] == ReferenceDoremiKeys[(BasePitch(d) + Alteration(a)) % 12]
  {
    if a in {"", "#", "##"} {
      DoremiTableEntryUp(d, a);
    } else {
      DoremiTableEntryDown(d, a);
    }
  }

  /** A plain letter-notation spelling is a key of the letter table, mapped to the reference of its pitch class. */
  lemma PlainAbcSpellingTabled(k: string)
    requires IsAbc(k) && IsPlainSpelling(k)
    ensures HasPitch(k) && k in KeyToReferenceAbcTable && KeyToReferenceAbcTable[k] == ReferenceAbcKeys[PitchClass(k)]
  {
    var b, a := RemoveAccidentals(k), FindAccidentals(k);
    DictionaryKeysAreNames(b);
    PitchClassOfParts(k, b, a);
    AbcTableEntry(b, a);
  }

  /** A plain solfege spelling is a key of the solfege table, mapped to the reference of its pitch class. */
  lemma PlainDoremiSpellingTabled(k: string)
    requires IsDoremi(k) && IsPlainSpelling(k)
    ensures HasPitch(k) && k in KeyToReferenceDoremiTable && KeyToReferenceDoremiTable[k] == ReferenceDoremiKeys[PitchClass(k)]
  {
    var d, a := RemoveAccidentals(k), FindAccidentals(k);
    DictionaryKeysAreNames(d);
    PitchClassOfParts(k, d, a);
    DoremiTableEntry(d, a);
  }

  /** `key_to_reference_abc` accepts exactly the plain letter spellings and maps each to
      the reference spelling of its pitch class. */
  lemma KeyToReferenceAbcNormalises(k: string)
    ensures KeyToReferenceAbc(k).Ok? <==> IsAbc(k) && IsPlainSpelling(k)
    ensures KeyToReferenceAbc(k).Ok? ==> HasPitch(k) && KeyToReferenceAbc(k).value == ReferenceAbcKeys[PitchClass(k)]
  {
    if k in KeyToReferenceAbcTable {
      KeyToReferenceAbcTableShape();
      SpelledClassification(k);
      SpelledIsPlain(k);
    }
    if IsAbc(k) && IsPlainSpelling(k) {
      PlainAbcSpellingTabled(k);
    }
  }

  /** `key_to_reference_doremi` accepts exactly the plain solfege spellings and maps each to
      the reference spelling of its pitch class. */
  lemma KeyToReferenceDoremiNormalises(k: string)
    ensures KeyToReferenceDoremi(k).Ok? <==> IsDoremi(k) && IsPlainSpelling(k)
    ensures KeyToReferenceDoremi(k).Ok? ==> HasPitch(k) && KeyToReferenceDoremi(k).value == ReferenceDoremiKeys[PitchClass(k)]
  {
    if k in KeyToReferenceDoremiTable {
      KeyToReferenceDoremiTableShape();
      SpelledClassification(k);
      SpelledIsPlain(k);
    }
    if IsDoremi(k) && IsPlainSpelling(k) {
      PlainDoremiSpellingTabled(k);
    }
  }

  /** `key_to_reference` accepts exactly the plain spellings of either notation and maps each
      to the reference spelling of its pitch class, in its own notation. */
  lemma KeyToReferenceNormalises(k: string)
    ensures KeyToReference(k).Ok? <==> (IsAbc(k) || IsDoremi(k)) && IsPlainSpelling(k)
    ensures KeyToReference(k).Err? ==> KeyToReference(k).error == InvalidKey(k)
    ensures KeyToReference(k).Ok? && IsAbc(k) ==> HasPitch(k) && KeyToReference(k).value == ReferenceAbcKeys[PitchClass(k)]
    ensures KeyToReference(k).Ok? && IsDoremi(k) ==> HasPitch(k) && KeyToReference(k).value == ReferenceDoremiKeys[PitchClass(k)]
  {
    NoChordIsBothStyles(k);
    KeyToReferenceAbcNormalises(k);
    KeyToReferenceDoremiNormalises(k);
  }

  /** A reference spelling is its own reference. */
  lemma KeyToReferenceIdempotent(k: string)
    requires KeyToReference(k).Ok?
    ensures KeyToReference(KeyToReference(k).value) == KeyToReference(k)
  {
    KeyToReferenceNormalises(k);
    ReferenceKeysSpellPitchClasses();
    var r := KeyToReference(k).value;
    KeyToReferenceNormalises(r);
    NoChordIsBothStyles(r);
  }

  /** The two normalisation tables agree: translating a name and then normalising it
      gives the translation of its reference spelling. */
  lemma KeyToReferenceTablesAgree(k: string)
    requires IsAbc(k) && IsTrailingSpelling(k)
    ensures KeyToReference(AbcToDoremi(k).value).Ok? <==> KeyToReference(k).Ok?
    ensures KeyToReference(k).Ok? ==>
      AbcToDoremi(KeyToReference(k).value) == KeyToReference(AbcToDoremi(k).value)
  {
    var d := AbcToDoremi(k).value;
    AbcToDoremiKeepsPitch(k);
    NoChordIsBothStyles(d);
    KeyToReferenceNormalises(k);
    KeyToReferenceNormalises(d);
    ReferenceTranslations();
  }
}
