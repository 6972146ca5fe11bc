/** The per-key spelling rows of `TransposerConfig` (config.py, "SCALES"):
    `key_chords_abc`, `key_chords_doremi` and `key_chords`. */
module Scales {
  import opened Results
  import opened Symbols
  import opened Common
  import opened Pitch
  import opened Config

  /** The keys `key_chords_abc` knows: the naturals and ten single-accidental keys. */
  const ScaleKeys: set<string> :=
    {"C", "C#", "Db", "D", "D#", "Eb", "E", "F", "F#", "Gb", "G", "G#", "Ab", "A", "A#", "Bb", "B"}

  /** A `key_chords_abc` dictionary: a row of letter-notation spellings per key. */
  type ScaleTable = map<string, seq<string>>

  /** The dictionary of `key_chords_abc` exactly as the source writes it.
      Its "Db" and "G#" rows have only 11 entries (see `AsWrittenRowsMisaligned`). */
  const KeyChordsAbcAsWritten: ScaleTable := map[
    "C" := ["C", "C#", "D", "Eb", "E", "F", "F#", "G", "Ab", "A", "Bb", "B"],
    "C#" := ["B#", "C#", "D", "D#", "E", "E#", "F#", "G", "G#", "A", "A#", "B"],
    "Db" := ["C", "Db", "D", "Eb", "Fb", "F", "Gb", "G", "Ab", "Bbb", "Cb"],
    "D" := ["C", "C#", "D", "Eb", "E", "F", "F#", "G", "G#", "A", "Bb", "B"],
    "D#" := ["B#", "C#", "C##", "D#", "E", "E#", "F#", "F##", "G#", "A", "A#", "B"],
    "Eb" := ["C", "Db", "D", "Eb", "E", "F", "Gb", "G", "Ab", "A", "Bb", "Cb"],
    "E" := ["C", "C#", "D", "D#", "E", "F", "F#", "G", "G#", "A", "Bb", "B"],
    "F" := ["C", "Db", "D", "Eb", "E", "F", "F#", "G", "Ab", "A", "Bb", "B"],
    "F#" := ["C", "C#", "D", "D#", "E", "E#", "F#", "G", "G#", "A", "A#", "B"],
    "Gb" := ["C", "Db", "Ebb", "Eb", "Fb", "F", "Gb", "G", "Ab", "Bbb", "Bb", "Cb"],
    "G" := ["C", "C#", "D", "Eb", "E", "F", "F#", "G", "G#", "A", "Bb", "B"],
    "G#" := ["B#", "C#", "D", "D#", "E", "E#", "F##", "G#", "A", "A#", "B"],
    "Ab" := ["C", "Db", "D", "Eb", "Fb", "F", "Gb", "G", "Ab", "A", "Bb", "Cb"],
    "A" := ["C", "C#", "D", "D#", "E", "F", "F#", "G", "G#", "A", "A#", "B"],
    "A#" := ["B#", "C#", "C##", "D#", "E", "E#", "F#", "F##", "G#", "G##", "A#", "B"],
    "Bb" := ["C", "Db", "D", "Eb", "E", "F", "Gb", "G", "Ab", "A", "Bb", "B"],
    "B" := ["C", "C#", "D", "D#", "E", "F", "F#", "G", "G#", "A", "A#", "B"]
  ]

  /** The dictionary of `key_chords_abc` with its two short rows completed:
      "Bb" restored at slot 10 of the "Db" row and "F#" at slot 6 of the "G#" row. */
  const KeyChordsAbcTable: ScaleTable := map[
    "C" := ["C", "C#", "D", "Eb", "E", "F", "F#", "G", "Ab", "A", "Bb", "B"],
    "C#" := ["B#", "C#", "D", "D#", "E", "E#", "F#", "G", "G#", "A", "A#", "B"],
    "Db" := ["C", "Db", "D", "Eb", "Fb", "F", "Gb", "G", "Ab", "Bbb", "Bb", "Cb"],
    "D" := ["C", "C#", "D", "Eb", "E", "F", "F#", "G", "G#", "A", "Bb", "B"],
    "D#" := ["B#", "C#", "C##", "D#", "E", "E#", "F#", "F##", "G#", "A", "A#", "B"],
    "Eb" := ["C", "Db", "D", "Eb", "E", "F", "Gb", "G", "Ab", "A", "Bb", "Cb"],
    "E" := ["C", "C#", "D", "D#", "E", "F", "F#", "G", "G#", "A", "Bb", "B"],
    "F" := ["C", "Db", "D", "Eb", "E", "F", "F#", "G", "Ab", "A", "Bb", "B"],
    "F#" := ["C", "C#", "D", "D#", "E", "E#", "F#", "G", "G#", "A", "A#", "B"],
    "Gb" := ["C", "Db", "Ebb", "Eb", "Fb", "F", "Gb", "G", "Ab", "Bbb", "Bb", "Cb"],
    "G" := ["C", "C#", "D", "Eb", "E", "F", "F#", "G", "G#", "A", "Bb", "B"],
    "G#" := ["B#", "C#", "D", "D#", "E", "E#", "F#", "F##", "G#", "A", "A#", "B"],
    "Ab" := ["C", "Db", "D", "Eb", "Fb", "F", "Gb", "G", "Ab", "A", "Bb", "Cb"],
    "A" := ["C", "C#", "D", "D#", "E", "F", "F#", "G", "G#", "A", "A#", "B"],
    "A#" := ["B#", "C#", "C##", "D#", "E", "E#", "F#", "F##", "G#", "G##", "A#", "B"],
    "Bb" := ["C", "Db", "D", "Eb", "E", "F", "Gb", "G", "Ab", "A", "Bb", "B"],
    "B" := ["C", "C#", "D", "D#", "E", "F", "F#", "G", "G#", "A", "A#", "B"]
  ]

  /** The keys of both versions of the `key_chords_abc` dictionary are the 17 scale keys. */
  lemma KeyChordsDomain()
    ensures KeyChordsAbcTable.Keys == ScaleKeys && KeyChordsAbcAsWritten.Keys == ScaleKeys
  {
  }

  /** Slot i of the row spells pitch class i, read off its characters. */
  predicate RowSpelled(row: seq<string>) {
    |row| == 12 && forall i | 0 <= i < 12 :: IsLetterSpelledAs(row[i], i)
  }

  // Table lookups: each row of the completed dictionary, read off its literal entries.

  lemma RowC()
    ensures |KeyChordsAbcTable["C"]| == 12
    ensures forall i | 0 <= i < 12 :: IsLetterSpelledAs(KeyChordsAbcTable["C"][i], i)
  {
  }

  lemma RowCSharp()
    ensures |KeyChordsAbcTable["C#"]| == 12
    ensures forall i | 0 <= i < 12 :: IsLetterSpelledAs(KeyChordsAbcTable["C#"][i], i)
  {
  }

  lemma RowDFlat()
    ensures |KeyChordsAbcTable["Db"]| == 12
    ensures forall i | 0 <= i < 12 :: IsLetterSpelledAs(KeyChordsAbcTable["Db"][i], i)
  {
  }

  lemma RowD()
    ensures |KeyChordsAbcTable["D"]| == 12
    ensures forall i | 0 <= i < 12 :: IsLetterSpelledAs(KeyChordsAbcTable["D"][i], i)
  {
  }

  lemma RowDSharp()
    ensures |KeyChordsAbcTable["D#"]| == 12
    ensures forall i | 0 <= i < 12 :: IsLetterSpelledAs(KeyChordsAbcTable["D#"][i], i)
  {
  }

  lemma RowEFlat()
    ensures |KeyChordsAbcTable["Eb"]| == 12
    ensures forall i | 0 <= i < 12 :: IsLetterSpelledAs(KeyChordsAbcTable["Eb"][i], i)
  {
  }

  lemma RowE()
    ensures |KeyChordsAbcTable["E"]| == 12
    ensures forall i | 0 <= i < 12 :: IsLetterSpelledAs(KeyChordsAbcTable["E"][i], i)
  {
  }

  lemma RowF()
    ensures |KeyChordsAbcTable["F"]| == 12
    ensures forall i | 0 <= i < 12 :: IsLetterSpelledAs(KeyChordsAbcTable["F"][i], i)
  {
  }

  lemma RowFSharp()
    ensures |KeyChordsAbcTable["F#"]| == 12
    ensures forall i | 0 <= i < 12 :: IsLetterSpelledAs(KeyChordsAbcTable["F#"][i], i)
  {
  }

  lemma RowGFlat()
    ensures |KeyChordsAbcTable["Gb"]| == 12
    ensures forall i | 0 <= i < 12 :: IsLetterSpelledAs(KeyChordsAbcTable["Gb"][i], i)
  {
  }

  lemma RowG()
    ensures |KeyChordsAbcTable["G"]| == 12
    ensures forall i | 0 <= i < 12 :: IsLetterSpelledAs(KeyChordsAbcTable["G"][i], i)
  {
  }

  lemma RowGSharp()
    ensures |KeyChordsAbcTable["G#"]| == 12
    ensures forall i | 0 <= i < 12 :: IsLetterSpelledAs(KeyChordsAbcTable["G#"][i], i)
  {
  }

  lemma RowAFlat()
    ensures |KeyChordsAbcTable["Ab"]| == 12
    ensures forall i | 0 <= i < 12 :: IsLetterSpelledAs(KeyChordsAbcTable["Ab"][i], i)
  {
  }

  lemma RowA()
    ensures |KeyChordsAbcTable["A"]| == 12
    ensures forall i | 0 <= i < 12 :: IsLetterSpelledAs(KeyChordsAbcTable["A"][i], i)
  {
  }

  lemma RowASharp()
    ensures |KeyChordsAbcTable["A#"]| == 12
    ensures forall i | 0 <= i < 12 :: IsLetterSpelledAs(KeyChordsAbcTable["A#"][i], i)
  {
  }

  lemma RowBFlat()
    ensures |KeyChordsAbcTable["Bb"]| == 12
    ensures forall i | 0 <= i < 12 :: IsLetterSpelledAs(KeyChordsAbcTable["Bb"][i], i)
  {
  }

  lemma RowB()
    ensures |KeyChordsAbcTable["B"]| == 12
    ensures forall i | 0 <= i < 12 :: IsLetterSpelledAs(KeyChordsAbcTable["B"][i], i)
  {
  }

  /** Every row of the completed `key_chords_abc` dictionary has twelve letter-notation
      spellings, slot i of pitch class i. */
  lemma KeyChordsAbcRowsAligned(key: string)
    requires key in ScaleKeys
    ensures key in KeyChordsAbcTable && RowSpelled(KeyChordsAbcTable[key])
  {
    if key == "C" {
      RowC();
    } else if key == "C#" {
      RowCSharp();
    } else if key == "Db" {
      RowDFlat();
    } else if key == "D" {
      RowD();
    } else if key == "D#" {
      RowDSharp();
    } else if key == "Eb" {
      RowEFlat();
    } else if key == "E" {
      RowE();
    } else if key == "F" {
      RowF();
    } else if key == "F#" {
      RowFSharp();
    } else if key == "Gb" {
      RowGFlat();
    } else if key == "G" {
      RowG();
    } else if key == "G#" {
      RowGSharp();
    } else if key == "Ab" {
      RowAFlat();
    } else if key == "A" {
      RowA();
    } else if key == "A#" {
      RowASharp();
    } else if key == "Bb" {
      RowBFlat();
    } else if key == "B" {
      RowB();
    } else {
      assert false;
    }
  }

  lemma AsWrittenDbRow()
    ensures |KeyChordsAbcAsWritten["Db"]| == 11 && KeyChordsAbcAsWritten["Db"][10] == "Cb"
    ensures KeyChordsAbcTable["Db"] == KeyChordsAbcAsWritten["Db"][..10] + ["Bb"] + KeyChordsAbcAsWritten["Db"][10..]
  {
  }

  lemma AsWrittenGSharpRow()
    ensures |KeyChordsAbcAsWritten["G#"]| == 11 && KeyChordsAbcAsWritten["G#"][6] == "F##"
    ensures KeyChordsAbcTable["G#"] == KeyChordsAbcAsWritten["G#"][..6] + ["F#"] + KeyChordsAbcAsWritten["G#"][6..]
  {
  }

  /** What is wrong with the dictionary as the source writes it: its "Db" and "G#" rows hold
      eleven spellings, so from the missing slot on every entry sits one slot below its pitch
      class and slot 11 does not exist. The completed table differs from it in just those two
      places (and `OtherRowsAsWritten` shows the other rows are equal). */
  lemma AsWrittenRowsMisaligned()
    ensures |KeyChordsAbcAsWritten["Db"]| == 11 && |KeyChordsAbcAsWritten["G#"]| == 11
    ensures KeyChordsAbcAsWritten["Db"][10] == "Cb" && HasPitch("Cb") && PitchClass("Cb") == 11
    ensures KeyChordsAbcAsWritten["G#"][6] == "F##" && HasPitch("F##") && PitchClass("F##") == 7
    ensures !SpellsPitchClasses(KeyChordsAbcAsWritten["Db"]) && !SpellsPitchClasses(KeyChordsAbcAsWritten["G#"])
    ensures KeyChordsAbcTable["Db"] == KeyChordsAbcAsWritten["Db"][..10] + ["Bb"] + KeyChordsAbcAsWritten["Db"][10..]
    ensures KeyChordsAbcTable["G#"] == KeyChordsAbcAsWritten["G#"][..6] + ["F#"] + KeyChordsAbcAsWritten["G#"][6..]
  {
    AsWrittenDbRow();
    AsWrittenGSharpRow();
    LetterSpelledFacts("Cb", 11);
    LetterSpelledFacts("F##", 7);
  }

  /** The other fifteen rows are the same in both versions. */
  lemma OtherRowsAsWritten(key: string)
    requires key in ScaleKeys && key != "Db" && key != "G#"
    ensures key in KeyChordsAbcAsWritten && key in KeyChordsAbcTable
    ensures KeyChordsAbcAsWritten[key] == KeyChordsAbcTable[key]
  {
  }

  /** `key_chords_abc` over a given dictionary: the row of a known key. */
  function KeyChordsAbcFrom(table: ScaleTable, key: string): (r: Result<seq<string>>)
    ensures r.Err? ==> r.error == InvalidKey(key)
  {
    if key in table then Ok(table[key]) else Err(InvalidKey(key))
  }

  /** The list comprehension of `key_chords_doremi`: every spelling translated to solfege,
      the first failure raised. */
  function AllAbcToDoremi(chords: seq<string>): (r: Result<seq<string>>)
    ensures r.Ok? <==> forall i | 0 <= i < |chords| :: IsAbc(chords[i])
    ensures r.Ok? ==> |r.value| == |chords| && forall i | 0 <= i < |chords| :: AbcToDoremi(chords[i]) == Ok(r.value[i])
    ensures r.Err? ==> r.error.InvalidChord?
  {
    if chords == [] then Ok([])
    else
      var head :- AbcToDoremi(chords[0]);
      var tail :- AllAbcToDoremi(chords[1..]);
      Ok([head] + tail)
  }

  /** `key_chords_doremi` over a given dictionary: the key is translated to letters, its row
      looked up and translated back. */
  function KeyChordsDoremiFrom(table: ScaleTable, key: string): Result<seq<string>> {
    var abcKey :- DoremiToAbc(key);
    var chords :- KeyChordsAbcFrom(table, abcKey);
    AllAbcToDoremi(chords)
  }

  /** `key_chords` over a given dictionary: dispatch on the notation of the key. */
  function KeyChordsFrom(table: ScaleTable, key: string): Result<seq<string>> {
    if IsAbc(key) then KeyChordsAbcFrom(table, key)
    else if IsDoremi(key) then KeyChordsDoremiFrom(table, key)
    else Err(InvalidKey(key))
  }

  /** `key_chords`, on the dictionary as the source writes it. */
  function KeyChords(key: string): Result<seq<string>> {
    KeyChordsFrom(KeyChordsAbcAsWritten, key)
  }

  /** The keys with a row: a scale key, or the solfege name of one. */
  predicate HasScale(key: string) {
    (IsAbc(key) && key in ScaleKeys) || (IsDoremi(key) && DoremiToAbc(key).value in ScaleKeys)
  }

  /** The keys whose row the source writes with eleven entries: D flat and G sharp, in either
      notation. */
  predicate HasShortRow(key: string) {
    (IsAbc(key) && key in {"Db", "G#"}) || (IsDoremi(key) && DoremiToAbc(key).value in {"Db", "G#"})
  }

  /** A row of twelve plain spellings in the notation of the key, slot i of pitch class i. */
  predicate SpellsScale(row: seq<string>, key: string) {
    |row| == 12 && forall i | 0 <= i < 12 ::
      IsPlainSpelling(row[i]) && HasPitch(row[i]) && PitchClass(row[i]) == i &&
      IsAbc(row[i]) == IsAbc(key) && IsDoremi(row[i]) == IsDoremi(key)
  }

  /** A dictionary `key_chords` reads correctly for the key: it finds a row exactly when the
      key has a scale, reports an invalid key otherwise, and the row spells the scale. */
  predicate ServesKey(table: ScaleTable, key: string) {
    var row := KeyChordsFrom(table, key);
    (row.Ok? <==> HasScale(key)) && (row.Err? ==> row.error.InvalidKey?) &&
    (row.Ok? ==> SpellsScale(row.value, key))
  }

  /** The completed dictionary serves every key. */
  lemma CompletedKeyChordsAligned(key: string)
    ensures ServesKey(KeyChordsAbcTable, key)
  {
    NoChordIsBothStyles(key);
    KeyChordsDomain();
    if IsAbc(key) && key in ScaleKeys {
      KeyChordsAbcRowsAligned(key);
      var row := KeyChordsAbcTable[key];
      forall i | 0 <= i < 12
        ensures IsPlainSpelling(row[i]) && HasPitch(row[i]) && PitchClass(row[i]) == i
        ensures IsAbc(row[i]) && !IsDoremi(row[i])
      {
        LetterSpelledFacts(row[i], i);
        NoChordIsBothStyles(row[i]);
      }
    } else if IsDoremi(key) && DoremiToAbc(key).value in ScaleKeys {
      var abcKey := DoremiToAbc(key).value;
      KeyChordsAbcRowsAligned(abcKey);
      var row := KeyChordsAbcTable[abcKey];
      forall i | 0 <= i < 12 ensures IsAbc(row[i]) {
        LetterSpelledFacts(row[i], i);
      }
      var out := AllAbcToDoremi(row);
      assert out.Ok?;
      forall i | 0 <= i < 12
        ensures IsPlainSpelling(out.value[i]) && HasPitch(out.value[i]) && PitchClass(out.value[i]) == i
        ensures IsDoremi(out.value[i]) && !IsAbc(out.value[i])
      {
        LetterSpelledFacts(row[i], i);
        AbcToDoremiKeepsPitch(row[i]);
        NoChordIsBothStyles(out.value[i]);
      }
    }
  }

  /** Off the two short rows the two dictionaries give the same row, or the same error. */
  lemma TablesAgreeOffShortRows(key: string)
    requires !HasShortRow(key)
    ensures KeyChordsFrom(KeyChordsAbcAsWritten, key) == KeyChordsFrom(KeyChordsAbcTable, key)
  {
    KeyChordsDomain();
    if IsAbc(key) && key in ScaleKeys {
      OtherRowsAsWritten(key);
    } else if !IsAbc(key) && IsDoremi(key) && DoremiToAbc(key).value in ScaleKeys {
      OtherRowsAsWritten(DoremiToAbc(key).value);
    }
  }

  /** The two short rows hold eleven letter-notation spellings. */
  lemma ShortRowsAreLetters()
    ensures |KeyChordsAbcAsWritten["Db"]| == 11 && |KeyChordsAbcAsWritten["G#"]| == 11
    ensures forall i | 0 <= i < 11 :: IsAbc(KeyChordsAbcAsWritten["Db"][i]) && IsAbc(KeyChordsAbcAsWritten["G#"][i])
  {
    AsWrittenRowsMisaligned();
    KeyChordsAbcRowsAligned("Db");
    KeyChordsAbcRowsAligned("G#");
    forall i | 0 <= i < 11
      ensures IsAbc(KeyChordsAbcAsWritten["Db"][i]) && IsAbc(KeyChordsAbcAsWritten["G#"][i])
    {
      var d := if i < 10 then i else i + 1;
      assert KeyChordsAbcAsWritten["Db"][i] == KeyChordsAbcTable["Db"][d];
      LetterSpelledFacts(KeyChordsAbcTable["Db"][d], d);
      var g := if i < 6 then i else i + 1;
      assert KeyChordsAbcAsWritten["G#"][i] == KeyChordsAbcTable["G#"][g];
      LetterSpelledFacts(KeyChordsAbcTable["G#"][g], g);
    }
  }

  /** A key with a short row finds a row of eleven spellings. */
  lemma ShortRowFound(key: string)
    requires HasShortRow(key)
    ensures HasScale(key)
    ensures KeyChords(key).Ok? && |KeyChords(key).value| == 11
  {
    NoChordIsBothStyles(key);
    ShortRowsAreLetters();
    KeyChordsDomain();
  }

  /** `key_chords` as the source writes it finds a row exactly for the keys with a scale, and
      reports an invalid key otherwise. It serves every key but D flat and G sharp (REb and
      SOL# in solfege), whose rows hold eleven spellings. */
  lemma KeyChordsAligned(key: string)
    ensures KeyChords(key).Ok? <==> HasScale(key)
    ensures KeyChords(key).Err? ==> KeyChords(key).error.InvalidKey?
    ensures !HasShortRow(key) ==> ServesKey(KeyChordsAbcAsWritten, key)
    ensures HasShortRow(key) ==> KeyChords(key).Ok? && |KeyChords(key).value| == 11
  {
    if HasShortRow(key) {
      ShortRowFound(key);
    } else {
      CompletedKeyChordsAligned(key);
      TablesAgreeOffShortRows(key);
    }
  }
}
