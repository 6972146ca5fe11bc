/** Notation classification and letter/solfege translation (common.py). */
module Common {
  import opened Results
  import opened Symbols

  /** The seven letter names and their solfege syllables. */
  const AbcToDoremiDictionary: map<string, string> :=
    map["A" := "LA", "B" := "SI", "C" := "DO", "D" := "RE", "E" := "MI", "F" := "FA", "G" := "SOL"]

  /** The inverse dictionary, one entry per letter keyed by its syllable.
      The source builds it by inverting the first; here it is written out and
      `DictionariesAreInverseBijections` proves it is that inverse. */
  const DoremiToAbcDictionary: map<string, string> :=
    map["LA" := "A", "SI" := "B", "DO" := "C", "RE" := "D", "MI" := "E", "FA" := "F", "SOL" := "G"]

  /** The letter names (keys of the first dictionary). */
  const LetterNames: set<string> := {"A", "B", "C", "D", "E", "F", "G"}
  /** The syllables (keys of the second dictionary). */
  const SyllableNames: set<string> := {"LA", "SI", "DO", "RE", "MI", "FA", "SOL"}

  lemma LetterDictionaryKeys()
    ensures AbcToDoremiDictionary.Keys == LetterNames && |LetterNames| == 7
  {
  }

  lemma SyllableDictionaryKeys()
    ensures DoremiToAbcDictionary.Keys == SyllableNames && |SyllableNames| == 7
  {
  }

  /** Membership in a dictionary is membership in its name set. */
  lemma DictionaryKeysAreNames(name: string)
    ensures name in AbcToDoremiDictionary <==> name in LetterNames
    ensures name in DoremiToAbcDictionary <==> name in SyllableNames
  {
  }

  lemma DictionaryRoundTrips()
    ensures forall c | c in AbcToDoremiDictionary ::
      AbcToDoremiDictionary[c] in DoremiToAbcDictionary && DoremiToAbcDictionary[AbcToDoremiDictionary[c]] == c
  {
  }

  lemma DictionaryRoundTripsBack()
    ensures forall d | d in DoremiToAbcDictionary ::
      DoremiToAbcDictionary[d] in AbcToDoremiDictionary && AbcToDoremiDictionary[DoremiToAbcDictionary[d]] == d
  {
  }

  lemma NameSetsDisjoint()
    ensures LetterNames !! SyllableNames
  {
  }

  /** The two 7-entry dictionaries are bijections with disjoint key sets, and each is the other's inverse. */
  lemma DictionariesAreInverseBijections()
    ensures AbcToDoremiDictionary.Keys == LetterNames && |LetterNames| == 7
    ensures DoremiToAbcDictionary.Keys == SyllableNames && |SyllableNames| == 7
    ensures forall c | c in AbcToDoremiDictionary ::
      AbcToDoremiDictionary[c] in DoremiToAbcDictionary && DoremiToAbcDictionary[AbcToDoremiDictionary[c]] == c
    ensures forall d | d in DoremiToAbcDictionary ::
      DoremiToAbcDictionary[d] in AbcToDoremiDictionary && AbcToDoremiDictionary[DoremiToAbcDictionary[d]] == d
    ensures LetterNames !! SyllableNames
  {
    LetterDictionaryKeys();
    SyllableDictionaryKeys();
    DictionaryRoundTrips();
    DictionaryRoundTripsBack();
    NameSetsDisjoint();
  }

  /** `re.sub('[#b]', '', chord)`: the chord with every accidental character deleted. */
  function RemoveAccidentals(s: string): (r: string)
    ensures |r| <= |s|
    ensures forall i | 0 <= i < |r| :: !IsAccidental(r[i])
  {
    if s == [] then [] else (if IsAccidental(s[0]) then [] else [s[0]]) + RemoveAccidentals(s[1..])
  }

  /** `re.findall('[#b]', chord)`: the accidental characters of the chord, in order. */
  function FindAccidentals(s: string): (r: string)
    ensures |r| <= |s|
    ensures forall i | 0 <= i < |r| :: IsAccidental(r[i])
  {
    if s == [] then [] else (if IsAccidental(s[0]) then [s[0]] else []) + FindAccidentals(s[1..])
  }

  /** Both scans distribute over concatenation. */
  lemma {:induction false} AccidentalScansAppend(a: string, b: string)
    ensures RemoveAccidentals(a + b) == RemoveAccidentals(a) + RemoveAccidentals(b)
    ensures FindAccidentals(a + b) == FindAccidentals(a) + FindAccidentals(b)
  {
    if a == [] {
      assert a + b == b;
    } else {
      assert (a + b)[1..] == a[1..] + b;
      AccidentalScansAppend(a[1..], b);
    }
  }

  /** A string without accidentals survives the deletion whole, and one made only of accidentals vanishes. */
  lemma {:induction false} AccidentalScansOfPureStrings(s: string)
    ensures (forall i | 0 <= i < |s| :: !IsAccidental(s[i])) ==> RemoveAccidentals(s) == s && FindAccidentals(s) == []
    ensures (forall i | 0 <= i < |s| :: IsAccidental(s[i])) ==> RemoveAccidentals(s) == [] && FindAccidentals(s) == s
  {
    if s != [] {
      AccidentalScansOfPureStrings(s[1..]);
    }
  }

  /** A base name followed by accidentals splits back into the two. */
  lemma SplitSpelling(base: string, accidentals: string)
    requires forall i | 0 <= i < |base| :: !IsAccidental(base[i])
    requires forall i | 0 <= i < |accidentals| :: IsAccidental(accidentals[i])
    ensures RemoveAccidentals(base + accidentals) == base
    ensures FindAccidentals(base + accidentals) == accidentals
  {
    AccidentalScansAppend(base, accidentals);
    AccidentalScansOfPureStrings(base);
    AccidentalScansOfPureStrings(accidentals);
  }

  /** No name in either dictionary contains an accidental character. */
  lemma NamesHaveNoAccidentals(name: string)
    requires name in LetterNames || name in SyllableNames
    ensures forall i | 0 <= i < |name| :: !IsAccidental(name[i])
  {
  }

  /** `is_abc`: after deleting accidentals, a letter name remains. */
  predicate IsAbc(chord: string) {
    RemoveAccidentals(chord) in AbcToDoremiDictionary
  }

  /** `is_doremi`: after deleting accidentals, a syllable remains. */
  predicate IsDoremi(chord: string) {
    RemoveAccidentals(chord) in DoremiToAbcDictionary
  }

  /** The accidentals of the chord all follow its base name (`F##`, not `#F#`). */
  predicate IsTrailingSpelling(chord: string) {
    chord == RemoveAccidentals(chord) + FindAccidentals(chord)
  }

  lemma NoChordIsBothStyles(chord: string)
    ensures !(IsAbc(chord) && IsDoremi(chord))
  {
    DictionariesAreInverseBijections();
  }

  /** `chord_style`. */
  function ChordStyle(chord: string): (r: Result<string>)
    ensures r.Ok? <==> IsAbc(chord) || IsDoremi(chord)
    ensures r.Ok? ==> (r.value == Abc <==> IsAbc(chord)) && (r.value == Doremi <==> IsDoremi(chord))
    ensures r.Err? ==> r.error == InvalidChord(chord)
  {
    NoChordIsBothStyles(chord);
    if IsAbc(chord) then Ok(Abc)
    else if IsDoremi(chord) then Ok(Doremi)
    else Err(InvalidChord(chord))
  }

  /** `chord_doremi_to_abc`: the syllable is translated, and the accidentals are appended after it in their original order. */
  function DoremiToAbc(chord: string): (r: Result<string>)
    ensures r.Ok? <==> IsDoremi(chord)
    ensures r.Err? ==> r.error == InvalidChord(chord)
    ensures r.Ok? ==> IsAbc(r.value) && IsTrailingSpelling(r.value)
    ensures r.Ok? ==> RemoveAccidentals(r.value) == DoremiToAbcDictionary[RemoveAccidentals(chord)]
    ensures r.Ok? ==> FindAccidentals(r.value) == FindAccidentals(chord)
  {
    if IsDoremi(chord) then
      var base := DoremiToAbcDictionary[RemoveAccidentals(chord)];
      DictionariesAreInverseBijections();
      NamesHaveNoAccidentals(base);
      SplitSpelling(base, FindAccidentals(chord));
      Ok(base + FindAccidentals(chord))
    else
      Err(InvalidChord(chord))
  }

  /** `chord_abc_to_doremi`: the letter is translated, and the accidentals are appended after it in their original order. */
  function AbcToDoremi(chord: string): (r: Result<string>)
    ensures r.Ok? <==> IsAbc(chord)
    ensures r.Err? ==> r.error == InvalidChord(chord)
    ensures r.Ok? ==> IsDoremi(r.value) && IsTrailingSpelling(r.value)
    ensures r.Ok? ==> RemoveAccidentals(r.value) == AbcToDoremiDictionary[RemoveAccidentals(chord)]
    ensures r.Ok? ==> FindAccidentals(r.value) == FindAccidentals(chord)
  {
    if IsAbc(chord) then
      var base := AbcToDoremiDictionary[RemoveAccidentals(chord)];
      DictionariesAreInverseBijections();
      NamesHaveNoAccidentals(base);
      SplitSpelling(base, FindAccidentals(chord));
      Ok(base + FindAccidentals(chord))
    else
      Err(InvalidChord(chord))
  }

  /** The source's loop form of `chord_doremi_to_abc`: the accidentals are appended one at a time. */
  method ChordDoremiToAbc(chord: string) returns (r: Result<string>)
    ensures r == DoremiToAbc(chord)
  {
    if IsDoremi(chord) {
      var sharpFlat := FindAccidentals(chord);
      var cleanChord := RemoveAccidentals(chord);
      var translatedChord := DoremiToAbcDictionary[cleanChord];
      for k := 0 to |sharpFlat|
        invariant translatedChord == DoremiToAbcDictionary[cleanChord] + sharpFlat[..k]
      {
        translatedChord := translatedChord + [sharpFlat[k]];
      }
      assert sharpFlat[..|sharpFlat|] == sharpFlat;
      return Ok(translatedChord);
    }
    return Err(InvalidChord(chord));
  }

  /** The source's loop form of `chord_abc_to_doremi`. */
  method ChordAbcToDoremi(chord: string) returns (r: Result<string>)
    ensures r == AbcToDoremi(chord)
  {
    if IsAbc(chord) {
      var sharpFlat := FindAccidentals(chord);
      var cleanChord := RemoveAccidentals(chord);
      var translatedChord := AbcToDoremiDictionary[cleanChord];
      for k := 0 to |sharpFlat|
        invariant translatedChord == AbcToDoremiDictionary[cleanChord] + sharpFlat[..k]
      {
        translatedChord := translatedChord + [sharpFlat[k]];
      }
      assert sharpFlat[..|sharpFlat|] == sharpFlat;
      return Ok(translatedChord);
    }
    return Err(InvalidChord(chord));
  }

  /** Converting a letter chord whose accidentals trail its letter to solfege and back gives it back. */
  lemma AbcDoremiRoundTrip(chord: string)
    requires IsAbc(chord) && IsTrailingSpelling(chord)
    ensures AbcToDoremi(chord).Ok? && DoremiToAbc(AbcToDoremi(chord).value) == Ok(chord)
  {
    DictionariesAreInverseBijections();
    var d := AbcToDoremi(chord).value;
    assert DoremiToAbc(d).value == RemoveAccidentals(chord) + FindAccidentals(chord);
  }

  /** Converting a solfege chord whose accidentals trail its syllable to letters and back gives it back. */
  lemma DoremiAbcRoundTrip(chord: string)
    requires IsDoremi(chord) && IsTrailingSpelling(chord)
    ensures DoremiToAbc(chord).Ok? && AbcToDoremi(DoremiToAbc(chord).value) == Ok(chord)
  {
    DictionariesAreInverseBijections();
    var a := DoremiToAbc(chord).value;
    assert AbcToDoremi(a).value == RemoveAccidentals(chord) + FindAccidentals(chord);
  }

  /** Each converter refuses a chord written in the other notation. */
  lemma ConvertersRejectOtherNotation(chord: string)
    ensures IsDoremi(chord) ==> AbcToDoremi(chord) == Err(InvalidChord(chord))
    ensures IsAbc(chord) ==> DoremiToAbc(chord) == Err(InvalidChord(chord))
  {
    NoChordIsBothStyles(chord);
  }

  /** `chord_to_chord_style`: a chord already in the requested style is returned as it is; otherwise it is converted. */
  function ChordToChordStyle(chord: string, styleOut: string): (r: Result<string>)
    ensures r.Ok? <==> (IsAbc(chord) || IsDoremi(chord)) && IsStyle(styleOut)
    ensures !(IsAbc(chord) || IsDoremi(chord)) ==> r == Err(InvalidChord(chord))
    ensures (IsAbc(chord) || IsDoremi(chord)) && !IsStyle(styleOut) ==> r == Err(InvalidOutputStyle(styleOut))
    ensures r.Ok? ==> ChordStyle(r.value) == Ok(styleOut)
    ensures r.Ok? && ChordStyle(chord) == Ok(styleOut) ==> r.value == chord
    ensures r.Ok? ==> FindAccidentals(r.value) == FindAccidentals(chord)
  {
    var style :- ChordStyle(chord);
    if styleOut == style then Ok(chord)
    else if styleOut == Abc then DoremiToAbc(chord)
    else if styleOut == Doremi then AbcToDoremi(chord)
    else Err(InvalidOutputStyle(styleOut))
  }

  /** Converting twice to the same style is converting once. */
  lemma ChordToChordStyleIdempotent(chord: string, styleOut: string)
    requires ChordToChordStyle(chord, styleOut).Ok?
    ensures ChordToChordStyle(ChordToChordStyle(chord, styleOut).value, styleOut) == ChordToChordStyle(chord, styleOut)
  {
  }
}
