# pytransposer chord engine in Dafny

This project models the chord engine of the Python package `pytransposer`. The engine works with two notations:

- letter names: `C`, `D#`, `Bb`
- solfege names: `DO`, `RE#`, `SIb`

Given a chord name, the engine:

- normalises it to its *reference* spelling, the simplest spelling of its pitch class;
- moves it a number of semitones around the twelve reference spellings of its notation;
- either writes the result in the requested output notation, or spells it the way the scale of a target key spells that pitch class.

On top of single chords the engine also:

- transposes every chord name found in a line of text (`transpose_chord_group`);
- transposes every chord group `\[...]` of a song (`transpose_song`);
- takes the key of a song from its first chord (`song_key`).

The small solfege module `doremi.py` keeps its own index of the twelve semitones. It offers index lookups and a step count between two keys.

The model is split into these modules:

- `Results`: the error kinds and the `Result` type. Every Python exception the engine can raise becomes an `Err` value carrying one of them.
- `Symbols`: the sharp and flat characters and the two style labels.
- `Common`: the name dictionaries, the notation tests and the converters of `common.py`. The converters are functions, and methods with the character loop of the source proved equal to them.
- `Pitch`: an independent reference definition of the pitch class of a name. It takes the base pitch of the letter or syllable and adds one per sharp and subtracts one per flat, modulo 12. The tables of the source are proved against this definition.
- `Config`: the reference lists and the normalisation dictionaries of `config.py`, with `key_to_reference`.
- `Scales`: the scale dictionary of `key_chords_abc` and `key_chords`. It keeps the table as the source writes it, which is the one the engine functions read, and a completed table in which the D flat and G sharp rows have their missing entries (see Findings).
- `Grammar`: the chord-name pattern and the chord-group pattern, as a tokenizer with a left-to-right non-overlapping scan. The scan is proved to be the unique first-match scan.
- `Substitution`: substitution of the spans found by a scan. It holds both the in-place editing loop of `transpose_chord_group`, with its running position shift, and the substitution all at once that `re.sub` performs. The two are proved equal.
- `Transposer`: `transpose_chord`, `express_chord_in_key` and `transpose_chord_group`. The functions take the scale dictionary as a parameter; the results about the program are stated for the dictionary as written, and the corrected results for the completed one.
- `Song`: `song_key` and `transpose_song`.
- `DoremiKeys`: `doremi.py`.
- `Documented`: the docstring examples of `common.py`, `key_to_reference`, `transpose_chord` and `express_chord_in_key`, each derived from the general lemmas. The examples of `song_key`, `transpose_chord_group` and `transpose_song` are not stated (see Left out).

The central results are the following.

- `key_to_reference` accepts exactly the names with a run of at most two equal accidentals. It maps each to the reference spelling of its pitch class, in its own notation.
- `transpose_chord` is pitch-class arithmetic: it moves the chord's pitch class by the semitone count, modulo 12, and is periodic in 12. Without a target key, and with any target key other than D flat and G sharp, it composes: transposing by m and then by n equals transposing by m + n.
- Without a target key, the result is the reference spelling in the output notation.
- With a target key, the lookup fails exactly when the key has no scale. For every key other than D flat and G sharp (`REb` and `SOL#` in solfege) the result is the scale's spelling of the same pitch class.
- `express_chord_in_key` succeeds for those keys exactly when the key has a scale and the chord is a reference spelling, and its result has the pitch class of the chord.
- The D flat and G sharp rows hold eleven entries. For those keys slot j of the row is returned for pitch class j, which is a spelling of another pitch class from the missing slot on, and pitch class 11 raises an index error. Transposition in D flat therefore does not compose.
- On the completed table every key with a scale behaves as the first two points say, and transposition composes for every target key.
- `transpose_chord_group` changes nothing but the chord names of the line. It succeeds exactly when every chord name can be transposed, and otherwise reports the failure of the first one that cannot.
- The same holds for `transpose_song` over chord groups.

Python's `%` takes the sign of the divisor. Dafny's Euclidean `%` agrees with it for the positive modulus 12, which is the only modulus the engine uses.

## Model

| member | source | states |
|---|---|---|
| Results.MapElementwise | src/pytransposer/config.py:193 | a mapping that stops at the first failure succeeds exactly when every element succeeds, and then holds each element's result in order |
| Results.MapFirstFailure | src/pytransposer/config.py:193 | a failed mapping reports the failure of the first element that fails, with every earlier element succeeding |
| Common.DictionariesAreInverseBijections | src/pytransposer/common.py:2-13 | the letter dictionary has the seven letters as keys, the derived solfege dictionary the seven syllables; each undoes the other, and no name is in both |
| Common.RemoveAccidentals | src/pytransposer/common.py:26 | deleting sharps and flats leaves no sharp or flat and never lengthens the name |
| Common.FindAccidentals | src/pytransposer/common.py:67 | the extracted run consists of sharps and flats only |
| Common.AccidentalScansAppend | src/pytransposer/common.py:67-68 | deleting and extracting accidentals both distribute over concatenation |
| Common.SplitSpelling | src/pytransposer/common.py:67-68 | a base name followed by an accidental run is split back into exactly that base and that run |
| Common.NoChordIsBothStyles | src/pytransposer/common.py:16-39 | no chord is in both the letter and the solfege notation |
| Common.ChordStyle | src/pytransposer/common.py:42-55 | a style is returned exactly for names of either notation, and it names the notation the chord is in; any other chord is an invalid chord |
| Common.DoremiToAbc | src/pytransposer/common.py:58-73 | succeeds exactly on solfege names; the result is a letter name with the dictionary's translation of the base followed by the same accidentals |
| Common.AbcToDoremi | src/pytransposer/common.py:76-91 | succeeds exactly on letter names; the result is a solfege name with the translated base followed by the same accidentals |
| Common.ChordDoremiToAbc | src/pytransposer/common.py:58-73 | the loop appending the accidentals one by one computes the solfege-to-letter conversion |
| Common.ChordAbcToDoremi | src/pytransposer/common.py:76-91 | the loop appending the accidentals one by one computes the letter-to-solfege conversion |
| Common.AbcDoremiRoundTrip | src/pytransposer/common.py:76-91 | converting a letter name (accidentals trailing) to solfege and back gives the name back |
| Common.DoremiAbcRoundTrip | src/pytransposer/common.py:58-73 | converting a solfege name (accidentals trailing) to letters and back gives the name back |
| Common.ConvertersRejectOtherNotation | src/pytransposer/common.py:58-91 | each converter raises invalid chord on a name already in the other notation |
| Common.ChordToChordStyle | src/pytransposer/common.py:94-110 | succeeds exactly for a name of either notation and a valid style; the result is in the requested notation, keeps the accidentals and is the chord itself when already there; the two errors are distinguished |
| Common.ChordToChordStyleIdempotent | src/pytransposer/common.py:94-110 | converting an already converted chord again changes nothing |
| Pitch.BasePitch | src/pytransposer/config.py:27-58 | the natural names C/DO, D/RE, E/MI, F/FA, G/SOL, A/LA, B/SI have pitch classes 0, 2, 4, 5, 7, 9, 11 |
| Pitch.HasPitchIffNamed | src/pytransposer/common.py:16-39 | a chord has a pitch class exactly when it is in one of the two notations |
| Pitch.LetterDictionaryKeepsBasePitch | src/pytransposer/common.py:2-10 | every letter and its syllable have the same base pitch |
| Pitch.AbcToDoremiKeepsPitch | src/pytransposer/common.py:76-91 | translating a letter name to solfege keeps its pitch class |
| Pitch.DoremiToAbcKeepsPitch | src/pytransposer/common.py:58-73 | translating a solfege name to letters keeps its pitch class |
| Pitch.ChordToChordStyleKeepsPitch | src/pytransposer/common.py:94-110 | converting to an output notation keeps the pitch class |
| Config.ReferenceKeysSpellPitchClasses | src/pytransposer/config.py:27-58 | both reference lists have twelve distinct plain spellings in their own notation, entry i of pitch class i |
| Config.ReferenceTranslations | src/pytransposer/config.py:27-58 | entry i of the solfege reference list is the translation of entry i of the letter list |
| Config.KeyToReferenceAbcTableShape | src/pytransposer/config.py:62-102 | every key of the letter dictionary is a letter followed by a run of at most two equal accidentals |
| Config.AbcTableEntry | src/pytransposer/config.py:62-102 | every letter with each of the runs none, #, ##, b, bb is a key of the dictionary, mapped to the reference spelling of its pitch class |
| Config.DoremiTableEntry | src/pytransposer/config.py:109-149 | the same for every syllable in the solfege dictionary |
| Config.KeyToReferenceAbc | src/pytransposer/config.py:61-106 | a failed lookup is an invalid key naming the key |
| Config.KeyToReferenceAbcNormalises | src/pytransposer/config.py:61-106 | `key_to_reference_abc` accepts exactly the plain letter spellings and returns the reference spelling of the name's pitch class |
| Config.KeyToReferenceDoremiNormalises | src/pytransposer/config.py:108-153 | `key_to_reference_doremi` accepts exactly the plain solfege spellings and returns the solfege reference spelling of the pitch class |
| Config.KeyToReferenceNormalises | src/pytransposer/config.py:155-161 | `key_to_reference` accepts exactly the plain spellings of either notation, returns the reference of the same pitch class in the same notation, and otherwise raises invalid key |
| Config.KeyToReferenceIdempotent | src/pytransposer/config.py:155-161 | the reference spelling of a reference spelling is itself |
| Config.KeyToReferenceTablesAgree | src/pytransposer/config.py:61-153 | for names whose accidentals trail, the two dictionaries agree: the reference of a letter name translates to the reference of its solfege translation, and one exists exactly when the other does |
| Scales.KeyChordsDomain | src/pytransposer/config.py:166-182 | the scale dictionary has exactly the seventeen listed keys |
| Scales.KeyChordsAbcRowsAligned | src/pytransposer/config.py:166-182 | every row of the completed scale table has twelve letter spellings, slot i of pitch class i |
| Scales.AsWrittenRowsMisaligned | src/pytransposer/config.py:168-177 | the Db and G# rows as written have eleven entries, with Cb (pitch class 11) in slot 10 and F## (pitch class 7) in slot 6; they are the completed rows without Bb and F# |
| Scales.OtherRowsAsWritten | src/pytransposer/config.py:166-182 | every row other than Db and G# is the same in the written and the completed table |
| Scales.KeyChordsAbcFrom | src/pytransposer/config.py:184-187 | a key without a row is an invalid key |
| Scales.AllAbcToDoremi | src/pytransposer/config.py:193 | the row is translated exactly when every entry is a letter name, and entry i of the result translates entry i |
| Scales.CompletedKeyChordsAligned | src/pytransposer/config.py:165-201 | over the completed table `key_chords` gives a row exactly for a scale key or its solfege name, otherwise invalid key; the row has twelve plain spellings in the key's notation, slot i of pitch class i |
| Scales.TablesAgreeOffShortRows | src/pytransposer/config.py:166-201 | for every key other than D flat and G sharp in either notation, `key_chords` reads the same row, or the same error, from both tables |
| Scales.ShortRowFound | src/pytransposer/config.py:165-201 | D flat and G sharp, and REb and SOL#, have a scale, and `key_chords` gives them a row of eleven spellings |
| Scales.KeyChordsAligned | src/pytransposer/config.py:165-201 | `key_chords` as written gives a row exactly for a scale key or its solfege name, otherwise invalid key; off D flat and G sharp the row has twelve plain spellings in the key's notation, slot i of pitch class i; for those two keys it has eleven |
| Transposer.IndexOf | src/pytransposer/transposer.py:88 | `list.index`: the first position holding the value, or a value error when none does |
| Transposer.ReferenceKeysOf | src/pytransposer/transposer.py:82-87 | letter names select the letter reference list, solfege names the solfege list; anything else is an invalid chord |
| Transposer.StepAlong | src/pytransposer/transposer.py:88-91 | stepping along the circular list succeeds exactly when the value is listed, else a value error |
| Transposer.ReferenceEntry | src/pytransposer/transposer.py:82-91 | entry i of either reference list has pitch class i, selects its own list and is found by `index` at position i |
| Transposer.ReferenceSpellingIsOwnReference | src/pytransposer/config.py:155-161 | a chord is a reference spelling exactly when it normalises to itself |
| Transposer.TransposedReferenceSpelling | src/pytransposer/transposer.py:81-91 | the transposed reference has pitch class (p + halfTones) mod 12, stays in the notation of the chord and is a reference spelling |
| Transposer.ReferenceOf | src/pytransposer/transposer.py:81 | the reference of a plain spelling is a reference spelling of the same pitch class and notation |
| Transposer.TransposeChordAccepts | src/pytransposer/transposer.py:48-94 | a plain spelling is transposed by pitch-class arithmetic and then spelled for the target key or output notation |
| Transposer.TransposeChordRejects | src/pytransposer/transposer.py:81 | any chord that is not a plain spelling raises invalid key |
| Transposer.TransposeChordIsPitchArithmetic | src/pytransposer/transposer.py:48-94 | `transpose_chord` equals the independent pitch-class definition on every input |
| Transposer.TransposeChordToReference | src/pytransposer/transposer.py:92-94 | without a target key the result is the reference spelling of pitch class (p + halfTones) mod 12 in the output notation, or invalid output style |
| Transposer.ExpressChordInKeySpellsInScale | src/pytransposer/transposer.py:97-122 | on the table as written each failure is the one the source raises; for keys other than D flat and G sharp it succeeds exactly when key and chord convert, the key has a scale and the chord is a reference spelling, and gives the scale's spelling of the chord's pitch class in the output notation; for those two keys it gives slot p of the eleven-entry row for pitch class p, and an index error for pitch class 11 |
| Transposer.CompletedExpressSpellsInScale | src/pytransposer/transposer.py:97-122 | on the completed table it succeeds exactly when key and chord convert, the key has a scale and the chord is a reference spelling, and gives the scale's spelling of the chord's pitch class in the output notation; each failure is the one the source raises |
| Transposer.ExpressInServedScale | src/pytransposer/transposer.py:113-122 | over any table that serves the converted key: success exactly when the key has a scale and the chord is a reference spelling, invalid key or value error otherwise, and the row's entry at the chord's pitch class on success |
| Transposer.ExpressInShortRow | src/pytransposer/transposer.py:113-122 | on the table as written, for D flat or G sharp, a reference chord of pitch class p gives slot p of the eleven-entry row, or an index error for p = 11 |
| Transposer.ExpressSameConversion | src/pytransposer/transposer.py:113-114 | two chords with the same conversion to the output notation are expressed alike in any key |
| Transposer.ExpressFromOutcome | src/pytransposer/transposer.py:113-122 | over any scale table: a missing row is that row's error, a chord not in the reference list is a value error, and otherwise the row's entry at the chord's pitch class, or an index error past the end of the row |
| Transposer.ExpressInLetters | src/pytransposer/transposer.py:113-122 | a letter reference spelling in a letter key is the row entry at its position, or an index error past the row's end |
| Transposer.TransposeChordInKey | src/pytransposer/transposer.py:92-93 | with a target key, on the table as written: a failed key conversion is the error; a key without a scale is invalid key; for other keys than D flat and G sharp the result is that scale's spelling of j = (p + halfTones) mod 12; for those two it is slot j of the eleven-entry row, or an index error for j = 11 |
| Transposer.CompletedTransposeChordInKey | src/pytransposer/transposer.py:92-93 | with a target key, on the completed table, the result exists exactly when the converted key has a scale, and is that scale's spelling of (p + halfTones) mod 12 |
| Transposer.TransposeChordInServedKey | src/pytransposer/transposer.py:81-93 | over any table that serves the converted target key, the result exists exactly when the key has a scale, and is a plain spelling of (p + halfTones) mod 12 read from the scale's row |
| Transposer.TransposeChordPeriodic | src/pytransposer/transposer.py:89-90 | transposing by halfTones + 12 is the same as by halfTones |
| Transposer.TransposeChordComposes | src/pytransposer/transposer.py:48-94 | over any table that serves the target key, if one is given, transposing by m and then by n gives the transposition by m + n |
| Transposer.TransposeChordComposesOffShortRows | src/pytransposer/transposer.py:48-94 | on the table as written, transposing by m and then by n gives the transposition by m + n, without a target key or with one other than D flat and G sharp |
| Transposer.CompletedTransposeChordComposes | src/pytransposer/transposer.py:48-94 | on the completed table, transposing by m and then by n gives the transposition by m + n for every target key |
| Transposer.DbTargetBreaksComposition | src/pytransposer/config.py:168 | on the table as written, in D flat, A up one semitone is Cb and Cb up one is C, but A up two is an index error |
| Transposer.TransposeChordOfReference | src/pytransposer/transposer.py:81 | a chord and its reference spelling transpose alike |
| Transposer.PitchTranspositionComposes | src/pytransposer/transposer.py:89-91 | the pitch-class definition composes: m then n is m + n |
| Transposer.DbScaleAsWrittenBFlat | src/pytransposer/config.py:168 | with the row as written, B flat in D flat becomes Cb; with the completed row it stays Bb |
| Transposer.DbScaleAsWrittenB | src/pytransposer/config.py:168 | with the row as written, B in D flat raises an index error; with the completed row it is Cb |
| Transposer.GSharpScaleAsWrittenFSharp | src/pytransposer/config.py:177 | with the row as written, F sharp in G sharp becomes F##; with the completed row it stays F# |
| Transposer.GSharpScaleAsWrittenB | src/pytransposer/config.py:177 | with the row as written, B in G sharp raises an index error; with the completed row it is B |
| Transposer.TransposeChordGroup | src/pytransposer/transposer.py:125-154 | the in-place editing loop computes the substitution of every chord name of the line by its transposition |
| Transposer.TransposedGroupChords | src/pytransposer/transposer.py:146-153 | the line is transposed exactly when every chord name in it is, and otherwise the failure is that of the first chord name that cannot be |
| Transposer.TransposedGroupSplices | src/pytransposer/transposer.py:145-154 | when every chord name of the line can be transposed, the line is each chord name replaced by its own transposition, the text between them kept |
| Transposer.TransposedGroupKeepsFixedChords | src/pytransposer/transposer.py:145-154 | when every chord name transposes to itself the line is unchanged |
| Transposer.TransposedGroupWithoutChords | src/pytransposer/transposer.py:145-154 | a line without chord names is returned unchanged |
| Transposer.TransposedGroupPeriodic | src/pytransposer/transposer.py:125-154 | transposing a line by halfTones + 12 is the same as by halfTones |
| Grammar.AccidentalRunAt | src/pytransposer/config.py:11-14 | at most two accidentals are taken, all of them sharps or flats, and a shorter run stops before a non-accidental |
| Grammar.Chords | src/pytransposer/config.py:16-17 | the chord names found are the left-to-right first-match scan of the chord pattern, in order and non-overlapping |
| Grammar.ScanIsUnique | src/pytransposer/config.py:16-17 | the first-match scan of a text is unique |
| Grammar.TokenIsChordName | src/pytransposer/config.py:10-17 | every token the chord pattern matches is a name in one of the two notations with at most two trailing accidentals |
| Grammar.ChordBounds | src/pytransposer/transposer.py:146-149 | every chord span found lies inside the line and covers a whole token |
| Grammar.ChordGroups | src/pytransposer/config.py:19-20 | the chord groups found are the first-match scan of the group pattern, in order and non-overlapping |
| Grammar.GroupShape | src/pytransposer/config.py:19-20 | a chord group is the opening delimiter, content without a closing bracket or line break, and the closing delimiter |
| Substitution.SpliceOfOriginalIsIdentity | src/pytransposer/transposer.py:206-210 | substituting every span by its own text gives the text back |
| Substitution.EditedLength | src/pytransposer/transposer.py:152 | the edited text is longer than the original by the sum of the length differences of the substitutions |
| Substitution.PassFinds | src/pytransposer/transposer.py:147-149 | after k substitutions, the original span k shifted by the accumulated difference still covers the original chord text |
| Substitution.PassReplaces | src/pytransposer/transposer.py:150-153 | replacing that shifted slice gives the text with k + 1 substitutions done, and the shift grows by the length difference |
| Substitution.ReplacedFails | src/pytransposer/transposer.py:150-151 | if the first k chords succeed and chord k fails, the whole substitution fails with its error |
| Substitution.ReplacedSucceeds | src/pytransposer/transposer.py:154 | when every chord succeeds, the text edited in place is the result of the substitution |
| Substitution.ReplacedBy | src/pytransposer/transposer.py:145-154 | when each span's text is replaced by the replacement at the same position, the result splices those replacements in |
| Substitution.ReplaceInPlace | src/pytransposer/transposer.py:145-154 | the loop that edits the line in place, keeping a running position difference, computes the substitution of all spans at once |
| Song.FirstChord | src/pytransposer/transposer.py:32-35 | the first chord exists exactly when there is a group and its content has a chord name; that name is in one of the notations; otherwise an index error at 0 |
| Song.SongKeyTransposesFirstChord | src/pytransposer/transposer.py:4-45 | the song key is the first chord transposed without a target key; taking its reference first and converting the result again change nothing |
| Song.SongKeyIsReference | src/pytransposer/transposer.py:36-45 | for a plain first chord and a valid style, the key is the reference spelling of (p + halfTones) mod 12 in the output notation |
| Song.SongKeyRejects | src/pytransposer/transposer.py:36-45 | a first chord that is not a plain spelling gives invalid key, an unknown style gives invalid output style |
| Song.SongKeyIsReferenceSpelling | src/pytransposer/transposer.py:4-45 | a song key is in the output notation and is its own reference |
| Song.SongKeyPeriodic | src/pytransposer/transposer.py:38-42 | the song key for halfTones + 12 is the one for halfTones |
| Song.ReplaceGroupsGroupwise | src/pytransposer/transposer.py:206-210 | the groups are replaced exactly when every group content transposes, each by its delimiters around the transposed content; otherwise the first failing group's error |
| Song.TransposeSongGroupwise | src/pytransposer/transposer.py:157-210 | a failing automatic key is the song's error; otherwise the song is transposed exactly when every group is, and is then the song with every group replaced by its delimiters around its transposed content, else the first failing group's error |
| Song.TransposeSongWithoutGroups | src/pytransposer/transposer.py:196-210 | a song without chord groups is returned unchanged, unless the key is automatic, which raises an index error |
| Song.TransposeSongPeriodic | src/pytransposer/transposer.py:157-210 | transposing a song by halfTones + 12 is the same as by halfTones |
| DoremiKeys.KeyListShape | src/pytransposer/doremi.py:3-4 | twelve slots starting with LA, each with one or two spellings; exactly slots 1, 4, 6, 9 and 11 have two |
| DoremiKeys.TwoSpellingSlotsShape | src/pytransposer/doremi.py:3-4 | a two-spelling slot holds the previous slot's name with a sharp, then the next slot's name with a flat |
| DoremiKeys.KeyListSpellings | src/pytransposer/doremi.py:3-4 | every spelling in slot i is a solfege spelling of pitch class (i + 9) mod 12 |
| DoremiKeys.SlotsAreDisjoint | src/pytransposer/doremi.py:3-4 | no spelling is in two slots |
| DoremiKeys.PreferencesCoverKeyList | src/pytransposer/doremi.py:6-24 | the preference table has exactly the spellings of the key list as keys, each mapped to a sharp or a flat |
| DoremiKeys.SlotFrom | src/pytransposer/doremi.py:33-35 | the search returns the first slot from the start position that holds the key, or invalid key when none does |
| DoremiKeys.IndexFromKey | src/pytransposer/doremi.py:28-36 | an index exists exactly when some slot holds the key, and that slot holds it; otherwise invalid key |
| DoremiKeys.GetIndexFromKey | src/pytransposer/doremi.py:28-36 | the loop over the slots computes the index lookup |
| DoremiKeys.IndexFromKeyIsPitchClass | src/pytransposer/doremi.py:28-36 | the index of a key is its pitch class minus 9, modulo 12 |
| DoremiKeys.SharpOrFlat | src/pytransposer/doremi.py:46 | `sharp_flat.index`: the position of a sharp or flat in the list, else a value error |
| DoremiKeys.KeyFromIndexSlot | src/pytransposer/doremi.py:38-48 | the key returned lies in slot index mod 12; lookup fails, with a key error, exactly for a two-spelling slot and a target without a preference |
| DoremiKeys.KeyFromIndexPrefers | src/pytransposer/doremi.py:44-47 | in a two-spelling slot the spelling returned ends with the target's preferred accidental |
| DoremiKeys.KeyFromIndexRoundTrip | src/pytransposer/doremi.py:38-48 | the index of the key returned for an index is that index modulo 12 |
| DoremiKeys.TransponationStepsBounds | src/pytransposer/doremi.py:51-58 | the steps exist exactly when both keys are listed, and lie between -11 and 11 |
| DoremiKeys.TransponationStepsReachTarget | src/pytransposer/doremi.py:51-58 | stepping from the source index by the steps reaches a spelling of the target key's slot |
| DoremiKeys.TransponationStepsAntisymmetric | src/pytransposer/doremi.py:51-58 | the steps back are the negated steps forward |
| DoremiKeys.DocumentedExamples | src/pytransposer/doremi.py:28-58 | SIb has index 1; index 1 for target MIb is SIb; from RE to DO is -2 steps |
| Documented.KeyToReferenceDoubleSharp | src/pytransposer/transposer.py:10-11 | the reference of F## is G |
| Documented.KeyToReferenceFlat | src/pytransposer/transposer.py:10-11 | the reference of Fb is E |
| Documented.KeyToReferenceSharp | src/pytransposer/config.py:77 | the reference of B# is C |
| Documented.KeyToReferenceDoubleFlat | src/pytransposer/config.py:95 | the reference of Cbb is Bb |
| Documented.KeyToReferenceRejectsMixedRun | src/pytransposer/config.py:103-106 | a mixed run such as C#b is an invalid key |
| Documented.DoremiToAbcExample | src/pytransposer/common.py:60-61 | MIb in letters is Eb |
| Documented.DoremiToAbcDoubleSharpExample | src/pytransposer/common.py:62-63 | FA## in letters is F## |
| Documented.AbcToDoremiFlatExample | src/pytransposer/common.py:78-79 | Eb in solfege is MIb |
| Documented.AbcToDoremiExample | src/pytransposer/common.py:80-81 | F## in solfege is FA## |
| Documented.NotationExamples | src/pytransposer/common.py:16-50 | Eb is a letter name and not a syllable, FA the other way round; their styles are abc and doremi |
| Documented.ChordToChordStyleExample | src/pytransposer/common.py:97-98 | Eb in solfege is MIb |
| Documented.ChordToChordStyleKeepsExamples | src/pytransposer/common.py:99-102 | a chord already in the output notation stays: G in letters, DO in solfege |
| Documented.Translation | src/pytransposer/common.py:58-91 | a letter and its syllable followed by the same accidentals convert into each other, each in one notation only |
| Documented.ExpressChordInKeyExample | src/pytransposer/transposer.py:106-107 | DO# in the key of D# is C# |
| Documented.ExpressChordInKeySolfegeExample | src/pytransposer/transposer.py:109-110 | DO# in the key of F, in solfege, is REb |
| Documented.TransposeChordFDoubleSharpExample | src/pytransposer/transposer.py:74-75 | F## up one semitone is G# |
| Documented.TransposeChordFDoubleSharpInKeyExample | src/pytransposer/transposer.py:60-61 | F## up one semitone in C is Ab |
| Documented.TransposeChordSolfegeExample | src/pytransposer/transposer.py:77-78 | F up two semitones, in solfege, is SOL |
| Documented.TransposeChordSolfegeInKeyExample | src/pytransposer/transposer.py:65-66 | F up two semitones in D, in solfege, is SOL |
| Documented.TransposeChordFFlatExample | src/pytransposer/transposer.py:71-72 | Fb up one semitone is F |
| Documented.TransposeChordFFlatInKeyExample | src/pytransposer/transposer.py:57-58 | Fb up one semitone in D flat is F |

## Left out

- Custom chord-group delimiters (`pre_chord`, `post_chord` of `song_key` and `transpose_song`) are not modelled. They are arbitrary regular expressions, and the model fixes the default `\[` and `]`.
- The sharp and flat characters and the style labels are fixed to `#`, `b`, `abc` and `doremi`. The source keeps them as settable attributes of its configuration object.
- Regular expressions in general are not modelled. The chord pattern and the chord-group pattern are replaced by a tokenizer that scans the same tokens: the solfege alternative is tried before the letter one, and at most two accidentals are taken.
- `doremi.py` imports `sharp_flat` from `common.py`, which defines no such name. The model uses the list `['#', 'b']` of `config.py:24-25`.
- `key_regex` of `doremi.py` is defined but never used, so it is not modelled.
- `src/pytransposer/abc.py` and the `src/pytranspose` package are not part of this model.
- Exceptions are modelled as `Err` values of one error kind each. The message text is not modelled.
- A song without chord groups, or whose first group holds no chord name, has no first chord: like the `[0]` subscripts of `song_key`, the model fails with an index error at 0 and has no separate "no key" outcome.
- Mixed accidental runs such as `C#b` are not keys of the normalisation dictionaries of `config.py`, so `key_to_reference` reports them as invalid keys; the model has no rule that resolves them one accidental at a time, because the code has none.
- Documented examples: the doctests of `song_key`, `transpose_chord_group` and `transpose_song` are not stated as concrete lemmas. Their behaviour is stated by the general lemmas over songs and groups, and the tokenizer is not evaluated on literal lines.
- Transposer.TransposeChordComposesOffShortRows: excludes the target keys D flat and G sharp (`REb`, `SOL#`), because on the table as written composition fails there; Transposer.DbTargetBreaksComposition exhibits the failure, and Transposer.CompletedTransposeChordComposes proves composition for every target key on the completed table.
- Transposer.TransposeChordInKey: requires a non-empty key, as do Transposer.CompletedTransposeChordInKey and Transposer.TransposeChordInServedKey. An empty key is falsy in Python and behaves as no key, which Transposer.TransposeChordToReference covers.

## Findings

| source | as written | input that shows it | evidently intended | confidence | as-written member | corrected member |
|---|---|---|---|---|---|---|
| src/pytransposer/config.py:168 | the D flat row has eleven entries: `Bb` is missing between `Bbb` and `Cb` | `express_chord_in_key('Bb', 'Db')` returns `Cb`, which is pitch class 11, not 10 | twelve entries with `Bb` in slot 10 | not executed | Transposer.DbScaleAsWrittenBFlat | Transposer.CompletedExpressSpellsInScale |
| src/pytransposer/config.py:168 | the D flat row has eleven entries, so slot 11 does not exist | `express_chord_in_key('B', 'Db')` raises an index error | `Cb` in slot 11 | not executed | Transposer.DbScaleAsWrittenB | Scales.CompletedKeyChordsAligned |
| src/pytransposer/config.py:177 | the G sharp row has eleven entries: `F#` is missing before `F##` | `express_chord_in_key('F#', 'G#')` returns `F##`, which is pitch class 7, not 6 | twelve entries with `F#` in slot 6 | not executed | Transposer.GSharpScaleAsWrittenFSharp | Transposer.CompletedExpressSpellsInScale |
| src/pytransposer/config.py:177 | the G sharp row has eleven entries, so slot 11 does not exist | `express_chord_in_key('B', 'G#')` raises an index error | `B` in slot 11 | not executed | Transposer.GSharpScaleAsWrittenB | Scales.CompletedKeyChordsAligned |
| src/pytransposer/config.py:168 | with a target key of D flat, transposition does not compose | `transpose_chord('A', 1, 'Db')` is `Cb`, `transpose_chord('Cb', 1, 'Db')` is `C`, but `transpose_chord('A', 2, 'Db')` raises an index error | m then n equals m + n for every target key | not executed | Transposer.DbTargetBreaksComposition | Transposer.CompletedTransposeChordComposes |
