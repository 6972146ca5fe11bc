/** The worked examples of the package's docstrings, derived from the general lemmas. */
module Documented {
  import opened Results
  import opened Symbols
  import opened Common
  import opened Pitch
  import opened Config
  import opened Scales
  import opened Transposer

  /** A letter spelling of pitch class p normalises to entry p of the reference list. */
  lemma LetterReference(s: string, p: int)
    requires IsLetterSpelledAs(s, p)
    ensures 0 <= p < 12 && KeyToReference(s) == Ok(ReferenceAbcKeys[p])
  {
    LetterSpelledFacts(s, p);
    KeyToReferenceNormalises(s);
  }

  /** `key_to_reference`: F## is G. */
  lemma KeyToReferenceDoubleSharp()
    ensures KeyToReference("F##") == Ok("G")
  {
    LetterReference("F##", 7);
  }

  /** `key_to_reference`: B# is C. */
  lemma KeyToReferenceSharp()
    ensures KeyToReference("B#") == Ok("C")
  {
    LetterReference("B#", 0);
  }

  /** `key_to_reference`: Cbb is B flat. */
  lemma KeyToReferenceDoubleFlat()
    ensures KeyToReference("Cbb") == Ok("Bb")
  {
    LetterReference("Cbb", 10);
  }

  /** `key_to_reference`: Fb is E. */
  lemma KeyToReferenceFlat()
    ensures KeyToReference("Fb") == Ok("E")
  {
    LetterReference("Fb", 4);
  }

  /** A mixed accidental run is not a spelling the tables list. */
  lemma KeyToReferenceRejectsMixedRun()
    ensures KeyToReference("C#b") == Err(InvalidKey("C#b"))
  {
    KeyToReferenceNormalises("C#b");
  }

  /** `chord_doremi_to_abc`: MIb is Eb. */
  lemma DoremiToAbcExample()
    ensures DoremiToAbc("MIb") == Ok("Eb")
  {
    SyllableToLetter("E", "MI", "b", "Eb", "MIb");
  }

  /** `chord_doremi_to_abc`: FA## is F##. */
  lemma DoremiToAbcDoubleSharpExample()
    ensures DoremiToAbc("FA##") == Ok("F##")
  {
    SyllableToLetter("F", "FA", "##", "F##", "FA##");
  }

  /** `chord_abc_to_doremi`: Eb is MIb. */
  lemma AbcToDoremiFlatExample()
    ensures AbcToDoremi("Eb") == Ok("MIb")
  {
    LetterToSyllable("E", "MI", "b", "Eb", "MIb");
  }

  /** `chord_abc_to_doremi`: F## is FA##. */
  lemma AbcToDoremiExample()
    ensures AbcToDoremi("F##") == Ok("FA##")
  {
    LetterToSyllable("F", "FA", "##", "F##", "FA##");
  }

  /** `is_abc`, `is_doremi` and `chord_style`: Eb is a letter name, FA a syllable. */
  lemma NotationExamples()
    ensures IsAbc("Eb") && !IsDoremi("Eb") && ChordStyle("Eb") == Ok(Abc)
    ensures !IsAbc("FA") && IsDoremi("FA") && ChordStyle("FA") == Ok(Doremi)
  {
    assert "Eb" == "E" + "b";
    SplitSpelling("E", "b");
    assert "FA" == "FA" + "";
    SplitSpelling("FA", "");
    NoChordIsBothStyles("Eb");
    NoChordIsBothStyles("FA");
  }

  /** `chord_to_chord_style`: Eb in solfege is MIb. */
  lemma ChordToChordStyleExample()
    ensures ChordToChordStyle("Eb", Doremi) == Ok("MIb")
  {
    Translation("E", "MI", "b", "Eb", "MIb");
  }

  /** `chord_to_chord_style`: a chord already in the output notation stays, G in letters and DO
      in solfege. */
  lemma ChordToChordStyleKeepsExamples()
    ensures ChordToChordStyle("G", Abc) == Ok("G") && ChordToChordStyle("DO", Doremi) == Ok("DO")
  {
    SpellingsStay("G", "SOL", "", "G", "SOL");
    SpellingsStay("C", "DO", "", "C", "DO");
  }

  /** DO# is C# in letter notation. */
  lemma DoSharpInLetters()
    ensures ChordToChordStyle("DO#", Abc) == Ok("C#")
  {
    assert "DO#" == "DO" + "#";
    SplitSpelling("DO", "#");
    assert "C" + "#" == "C#";
    NoChordIsBothStyles("DO#");
  }

  /** C# is already in letter notation. */
  lemma CSharpInLetters()
    ensures ChordToChordStyle("C#", Abc) == Ok("C#")
  {
    LetterInAbc("C#", 1);
  }

  /** `express_chord_in_key`: DO# in the key of D# is C#. */
  lemma ExpressChordInKeyExample()
    ensures ExpressChordInKey(KeyChordsAbcAsWritten, "DO#", "D#", Abc) == Ok("C#")
  {
    ExpressInLetters(KeyChordsAbcAsWritten, "C#", "D#", 3, 1);
    DoSharpInLetters();
    CSharpInLetters();
    ExpressSameConversion(KeyChordsAbcAsWritten, "DO#", "C#", "D#", Abc);
  }

  /** `express_chord_in_key` in solfege notation, for a solfege key whose letter key has a row
      and the entry j of the solfege reference list: the translation of entry j of the row. */
  lemma ExpressInSolfege(chord: string, key: string, kv: string, abcKey: string, j: nat, x: string, y: string)
    requires ChordToChordStyle(key, Doremi) == Ok(kv) && !IsAbc(kv) && IsDoremi(kv) && DoremiToAbc(kv) == Ok(abcKey)
    requires j < 12 && ChordToChordStyle(chord, Doremi) == Ok(ReferenceDoremiKeys[j])
    requires KeyChords(kv).Ok? && abcKey in KeyChordsAbcAsWritten
    requires j < |KeyChordsAbcAsWritten[abcKey]| && KeyChordsAbcAsWritten[abcKey][j] == x && AbcToDoremi(x) == Ok(y)
    ensures ExpressChordInKey(KeyChordsAbcAsWritten, chord, key, Doremi) == Ok(y)
  {
    ReferenceEntry(ReferenceDoremiKeys, j);
  }

  /** A letter and its syllable, followed by the same accidentals, translate into each other,
      and each converts to the other notation. */
  lemma Translation(a: string, d: string, acc: string, letter: string, syllable: string)
    requires a in LetterNames && a in AbcToDoremiDictionary && AbcToDoremiDictionary[a] == d
    requires forall i | 0 <= i < |acc| :: IsAccidental(acc[i])
    requires letter == a + acc && syllable == d + acc
    ensures IsAbc(letter) && !IsDoremi(letter) && IsDoremi(syllable) && !IsAbc(syllable)
    ensures AbcToDoremi(letter) == Ok(syllable) && DoremiToAbc(syllable) == Ok(letter)
    ensures ChordToChordStyle(letter, Doremi) == Ok(syllable) && ChordToChordStyle(letter, Abc) == Ok(letter)
    ensures ChordToChordStyle(syllable, Abc) == Ok(letter) && ChordToChordStyle(syllable, Doremi) == Ok(syllable)
  {
    DictionariesAreInverseBijections();
    NamesHaveNoAccidentals(a);
    NamesHaveNoAccidentals(d);
    SplitSpelling(a, acc);
    SplitSpelling(d, acc);
    NoChordIsBothStyles(letter);
    NoChordIsBothStyles(syllable);
  }

  /** The letter spelling in solfege is the syllable spelling. */
  lemma LetterToSyllable(a: string, d: string, acc: string, letter: string, syllable: string)
    requires a in LetterNames && a in AbcToDoremiDictionary && AbcToDoremiDictionary[a] == d
    requires forall i | 0 <= i < |acc| :: IsAccidental(acc[i])
    requires letter == a + acc && syllable == d + acc
    ensures AbcToDoremi(letter) == Ok(syllable)
  {
    Translation(a, d, acc, letter, syllable);
  }

  /** The syllable spelling in letters is the letter spelling. */
  lemma SyllableToLetter(a: string, d: string, acc: string, letter: string, syllable: string)
    requires a in LetterNames && a in AbcToDoremiDictionary && AbcToDoremiDictionary[a] == d
    requires forall i | 0 <= i < |acc| :: IsAccidental(acc[i])
    requires letter == a + acc && syllable == d + acc
    ensures DoremiToAbc(syllable) == Ok(letter)
  {
    Translation(a, d, acc, letter, syllable);
  }

  /** Each spelling converted to its own notation stays as it is. */
  lemma SpellingsStay(a: string, d: string, acc: string, letter: string, syllable: string)
    requires a in LetterNames && a in AbcToDoremiDictionary && AbcToDoremiDictionary[a] == d
    requires forall i | 0 <= i < |acc| :: IsAccidental(acc[i])
    requires letter == a + acc && syllable == d + acc
    ensures ChordToChordStyle(letter, Abc) == Ok(letter) && ChordToChordStyle(syllable, Doremi) == Ok(syllable)
  {
    Translation(a, d, acc, letter, syllable);
  }

  /** A scale key in solfege is the syllable of its letter, whose letter key has a row. */
  lemma KeyInSolfege(a: string, d: string)
    requires a in LetterNames && a in AbcToDoremiDictionary && AbcToDoremiDictionary[a] == d && a in ScaleKeys
    ensures ChordToChordStyle(a, Doremi) == Ok(d) && !IsAbc(d) && IsDoremi(d)
    ensures DoremiToAbc(d) == Ok(a) && KeyChords(d).Ok?
  {
    assert a + "" == a && d + "" == d;
    Translation(a, d, "", a, d);
    KeyChordsAligned(d);
  }

  /** DO# is entry 1 of the solfege reference list. */
  lemma DoSharpInSolfege()
    ensures ChordToChordStyle("DO#", Doremi) == Ok(ReferenceDoremiKeys[1])
  {
    Translation("C", "DO", "#", "C#", "DO#");
  }

  /** Entry 1 of the row of F is Db. */
  lemma DFlatInRowOfF()
    ensures 1 < |KeyChordsAbcAsWritten["F"]| && KeyChordsAbcAsWritten["F"][1] == "Db"
  {
  }

  /** Db in solfege is REb. */
  lemma DFlatInSolfege()
    ensures AbcToDoremi("Db") == Ok("REb")
  {
    Translation("D", "RE", "b", "Db", "REb");
  }

  /** `express_chord_in_key`: DO# in the key of F, in solfege, is REb. */
  lemma ExpressChordInKeySolfegeExample()
    ensures ExpressChordInKey(KeyChordsAbcAsWritten, "DO#", "F", Doremi) == Ok("REb")
  {
    KeyInSolfege("F", "FA");
    DoSharpInSolfege();
    DFlatInRowOfF();
    DFlatInSolfege();
    ExpressInSolfege("DO#", "F", "FA", "F", 1, "Db", "REb");
  }

  /** Fb up one semitone is the reference spelling F, whatever happens next. */
  lemma FFlatUpOne(toKey: Option<string>)
    ensures TransposeChord(KeyChordsAbcAsWritten, "Fb", 1, toKey, Abc) == SpellTransposed(KeyChordsAbcAsWritten, "F", toKey, Abc)
  {
    TransposeLetter(KeyChordsAbcAsWritten, "Fb", 1, toKey, Abc, 4, 5, "F");
  }

  /** `transpose_chord`: Fb up one semitone is F. */
  lemma TransposeChordFFlatExample()
    ensures TransposeChord(KeyChordsAbcAsWritten, "Fb", 1, None, Abc) == Ok("F")
  {
    LetterInAbc("F", 5);
    FFlatUpOne(None);
  }

  /** `transpose_chord` in a target key: Fb up one semitone in D flat is F. */
  lemma TransposeChordFFlatInKeyExample()
    ensures TransposeChord(KeyChordsAbcAsWritten, "Fb", 1, Some("Db"), Abc) == Ok("F")
  {
    ExpressInLetters(KeyChordsAbcAsWritten, "F", "Db", 1, 5);
    FFlatUpOne(Some("Db"));
  }

  /** F## up one semitone is the reference spelling G#, whatever happens next. */
  lemma FDoubleSharpUpOne(toKey: Option<string>)
    ensures TransposeChord(KeyChordsAbcAsWritten, "F##", 1, toKey, Abc) == SpellTransposed(KeyChordsAbcAsWritten, "G#", toKey, Abc)
  {
    TransposeLetter(KeyChordsAbcAsWritten, "F##", 1, toKey, Abc, 7, 8, "G#");
  }

  /** `transpose_chord`: F## up one semitone is G#. */
  lemma TransposeChordFDoubleSharpExample()
    ensures TransposeChord(KeyChordsAbcAsWritten, "F##", 1, None, Abc) == Ok("G#")
  {
    LetterInAbc("G#", 8);
    FDoubleSharpUpOne(None);
  }

  /** `transpose_chord` in a target key: F## up one semitone in C is Ab. */
  lemma TransposeChordFDoubleSharpInKeyExample()
    ensures TransposeChord(KeyChordsAbcAsWritten, "F##", 1, Some("C"), Abc) == Ok("Ab")
  {
    ExpressInLetters(KeyChordsAbcAsWritten, "G#", "C", 0, 8);
    FDoubleSharpUpOne(Some("C"));
  }

  /** F up two semitones is the reference spelling G, whatever happens next. */
  lemma FUpTwo(toKey: Option<string>)
    ensures TransposeChord(KeyChordsAbcAsWritten, "F", 2, toKey, Doremi) == SpellTransposed(KeyChordsAbcAsWritten, "G", toKey, Doremi)
  {
    TransposeLetter(KeyChordsAbcAsWritten, "F", 2, toKey, Doremi, 5, 7, "G");
  }

  /** G in solfege is SOL, entry 7 of the solfege reference list. */
  lemma GInSolfege()
    ensures ChordToChordStyle("G", Doremi) == Ok("SOL") && ReferenceDoremiKeys[7] == "SOL"
    ensures AbcToDoremi("G") == Ok("SOL")
  {
    Translation("G", "SOL", "", "G", "SOL");
  }

  /** `transpose_chord` in solfege: F up two semitones is SOL. */
  lemma TransposeChordSolfegeExample()
    ensures TransposeChord(KeyChordsAbcAsWritten, "F", 2, None, Doremi) == Ok("SOL")
  {
    GInSolfege();
    FUpTwo(None);
  }

  /** Entry 7 of the row of D is G. */
  lemma GInRowOfD()
    ensures 7 < |KeyChordsAbcAsWritten["D"]| && KeyChordsAbcAsWritten["D"][7] == "G"
  {
  }

  /** `transpose_chord` in a target key, in solfege: F up two semitones in D is SOL. */
  lemma TransposeChordSolfegeInKeyExample()
    ensures TransposeChord(KeyChordsAbcAsWritten, "F", 2, Some("D"), Doremi) == Ok("SOL")
  {
    KeyInSolfege("D", "RE");
    GInSolfege();
    GInRowOfD();
    ExpressInSolfege("G", "D", "RE", "D", 7, "G", "SOL");
    FUpTwo(Some("D"));
  }
}
