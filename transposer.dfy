/** The transposer (transposer.py): one chord, one chord group, one song. A chord is first
    normalised to its reference spelling, moved along the twelve reference spellings of its
    notation, and then either written in the requested notation or spelled the way the scale
    of a target key spells it. */
module Transposer {
  import opened Results
  import opened Symbols
  import opened Common
  import opened Pitch
  import opened Config
  import opened Scales
  import opened Grammar
  import opened Substitution

  /** `list.index`: the position of the first occurrence of x, or a ValueError. */
  function IndexOf(xs: seq<string>, x: string): (r: Result<nat>)
    ensures r.Ok? ==> r.value < |xs| && xs[r.value] == x && forall j | 0 <= j < r.value :: xs[j] != x
    ensures r.Err? ==> r.error == ValueNotInList(x) && forall j | 0 <= j < |xs| :: xs[j] != x
  {
    if xs == [] then Err(ValueNotInList(x))
    else if xs[0] == x then Ok(0)
    else
      var i :- IndexOf(xs[1..], x);
      Ok(i + 1)
  }

  /** The reference list of the chord's own notation, or "Invalid chord". */
  function ReferenceKeysOf(chord: string): (r: Result<seq<string>>)
    ensures IsAbc(chord) ==> r == Ok(ReferenceAbcKeys)
    ensures IsDoremi(chord) ==> r == Ok(ReferenceDoremiKeys)
    ensures !IsAbc(chord) && !IsDoremi(chord) ==> r == Err(InvalidChord(chord))
    ensures r.Ok? ==> |r.value| == 12
  {
    NoChordIsBothStyles(chord);
    if IsAbc(chord) then Ok(ReferenceAbcKeys)
    else if IsDoremi(chord) then Ok(ReferenceDoremiKeys)
    else Err(InvalidChord(chord))
  }

  /** The reference list of an output style. */
  function ReferenceKeysIn(style: string): seq<string> {
    if style == Abc then ReferenceAbcKeys else ReferenceDoremiKeys
  }

  /** Python truthiness of the optional target key: given and not empty. */
  predicate Truthy(toKey: Option<string>) {
    toKey.Some? && toKey.value != ""
  }

  /** A chord written the way its own notation writes its pitch class by default: the entry
      of its pitch class in the reference list of its notation. */
  predicate IsReferenceSpelling(chord: string) {
    (IsAbc(chord) || IsDoremi(chord)) && HasPitch(chord) &&
    chord == ReferenceKeysOf(chord).value[PitchClass(chord)]
  }

  /** `transpose_chord`. */
  function TransposeChord(table: ScaleTable, chord: string, halfTones: int, toKey: Option<string>, styleOut: string): Result<string> {
    var reference :- KeyToReference(chord);
    var referenceKeys :- ReferenceKeysOf(reference);
    var transposed :- StepAlong(referenceKeys, reference, halfTones);
    SpellTransposed(table, transposed, toKey, styleOut)
  }

  /** The last step of `transpose_chord`: the transposed name spelled in the target key when
      one is given, otherwise written in the output notation. */
  function SpellTransposed(table: ScaleTable, transposed: string, toKey: Option<string>, styleOut: string): Result<string> {
    if Truthy(toKey) then ExpressChordInKey(table, transposed, toKey.value, styleOut)
    else ChordToChordStyle(transposed, styleOut)
  }

  /** The entry `halfTones` places after x in the circular list `keys` (before it, when
      negative): `keys[(keys.index(x) + halfTones) % len(keys)]`. */
  function StepAlong(keys: seq<string>, x: string, halfTones: int): (r: Result<string>)
    ensures r.Ok? <==> IndexOf(keys, x).Ok?
    ensures r.Err? ==> r.error == ValueNotInList(x)
  {
    var index :- IndexOf(keys, x);
    Ok(keys[(index + halfTones) % |keys|])
  }

  /** `express_chord_in_key`, reading the scale from `table`. Python evaluates
      `config.key_chords(key)` before the subscript `reference_keys.index(chord)`, so a key
      without a scale is reported before a chord missing from the reference list. */
  function ExpressChordInKey(table: ScaleTable, chord: string, key: string, styleOut: string): Result<string> {
    var k :- ChordToChordStyle(key, styleOut);
    var c :- ChordToChordStyle(chord, styleOut);
    var referenceKeys :- ReferenceKeysOf(c);
    var row :- KeyChordsFrom(table, k);
    var index :- IndexOf(referenceKeys, c);
    if index < |row| then Ok(row[index]) else Err(IndexOutOfRange(index))
  }

  // Reference spellings.

  /** Entry i of either reference list: a plain spelling of pitch class i whose notation
      selects that list, found by `list.index` at position i. */
  lemma ReferenceEntry(keys: seq<string>, i: nat)
    requires keys == ReferenceAbcKeys || keys == ReferenceDoremiKeys
    requires i < 12
    ensures var e := keys[i];
      HasPitch(e) && PitchClass(e) == i && IsPlainSpelling(e) && ReferenceKeysOf(e) == Ok(keys) &&
      IndexOf(keys, e) == Ok(i) && IsReferenceSpelling(e)
  {
    ReferenceKeysSpellPitchClasses();
    var e := keys[i];
    NoChordIsBothStyles(e);
    var r := IndexOf(keys, e);
    assert keys[i] == e;
    assert PitchClass(keys[r.value]) == r.value;
  }

  /** The reference spellings are exactly the names `key_to_reference` leaves unchanged. */
  lemma ReferenceSpellingIsOwnReference(c: string)
    ensures IsReferenceSpelling(c) <==> KeyToReference(c) == Ok(c)
  {
    KeyToReferenceNormalises(c);
    NoChordIsBothStyles(c);
    if IsReferenceSpelling(c) {
      ReferenceEntry(ReferenceKeysOf(c).value, PitchClass(c));
    }
  }

  /** A reference spelling written in either notation is the reference spelling of the same
      pitch class in that notation. */
  lemma ReferenceInStyle(j: nat, styleOut: string)
    requires j < 12 && IsStyle(styleOut)
    ensures ChordToChordStyle(ReferenceAbcKeys[j], styleOut) == Ok(ReferenceKeysIn(styleOut)[j])
    ensures ChordToChordStyle(ReferenceDoremiKeys[j], styleOut) == Ok(ReferenceKeysIn(styleOut)[j])
  {
    ReferenceKeysSpellPitchClasses();
    ReferenceTranslations();
    ReferenceAbcKeysShape();
    var a := ReferenceAbcKeys[j];
    SpelledClassification(a);
    AbcDoremiRoundTrip(a);
    NoChordIsBothStyles(a);
    NoChordIsBothStyles(ReferenceDoremiKeys[j]);
  }

  /** What `transpose_chord` computes, written with pitch classes instead of table lookups:
      the reference spelling, in the chord's own notation, of the pitch class `halfTones`
      semitones above (below, when negative) the chord's, modulo 12. */
  function TransposedReference(chord: string, halfTones: int): string
    requires IsAbc(chord) || IsDoremi(chord)
  {
    HasPitchIffNamed(chord);
    ReferenceKeysOf(chord).value[(PitchClass(chord) + halfTones) % 12]
  }

  /** The transposed name is a plain reference spelling of the chord's notation, and its
      pitch class is the chord's moved by `halfTones`, modulo 12. */
  lemma TransposedReferenceSpelling(chord: string, halfTones: int)
    requires IsAbc(chord) || IsDoremi(chord)
    ensures var t := TransposedReference(chord, halfTones);
      HasPitch(chord) && HasPitch(t) && PitchClass(t) == (PitchClass(chord) + halfTones) % 12 &&
      IsAbc(t) == IsAbc(chord) && IsDoremi(t) == IsDoremi(chord) && IsReferenceSpelling(t) && IsPlainSpelling(t)
  {
    HasPitchIffNamed(chord);
    NoChordIsBothStyles(chord);
    var keys := ReferenceKeysOf(chord).value;
    var t := TransposedReference(chord, halfTones);
    ReferenceEntry(keys, (PitchClass(chord) + halfTones) % 12);
    NoChordIsBothStyles(t);
  }

  /** The reference spelling of a plain spelling: same notation, same pitch class. */
  lemma ReferenceOf(chord: string)
    requires (IsAbc(chord) || IsDoremi(chord)) && IsPlainSpelling(chord)
    ensures KeyToReference(chord).Ok? && HasPitch(chord)
    ensures var r := KeyToReference(chord).value;
      IsReferenceSpelling(r) && IsPlainSpelling(r) && HasPitch(r) && PitchClass(r) == PitchClass(chord) &&
      ReferenceKeysOf(r) == ReferenceKeysOf(chord) && IsAbc(r) == IsAbc(chord) && IsDoremi(r) == IsDoremi(chord)
  {
    KeyToReferenceNormalises(chord);
    NoChordIsBothStyles(chord);
    ReferenceEntry(ReferenceKeysOf(chord).value, PitchClass(chord));
    var r := KeyToReference(chord).value;
    NoChordIsBothStyles(r);
  }

  /** A reference spelling in the form list lookups use. */
  lemma ReferenceSpellingListed(r: string)
    requires IsReferenceSpelling(r)
    ensures IsAbc(r) || IsDoremi(r)
    ensures HasPitch(r)
    ensures IndexOf(ReferenceKeysOf(r).value, r) == Ok(PitchClass(r))
  {
    ReferenceEntry(ReferenceKeysOf(r).value, PitchClass(r));
  }

  /** Stepping from the entry at position p of a list of twelve. */
  lemma StepAlongFrom(keys: seq<string>, x: string, halfTones: int, p: nat)
    requires IndexOf(keys, x) == Ok(p) && |keys| == 12
    ensures StepAlong(keys, x, halfTones) == Ok(keys[(p + halfTones) % 12])
  {
  }

  /** The transposed reference spelling, read off the reference list and the pitch class. */
  lemma TransposedReferenceFrom(r: string, halfTones: int, keys: seq<string>, p: nat)
    requires IsAbc(r) || IsDoremi(r)
    requires ReferenceKeysOf(r) == Ok(keys) && HasPitch(r) && PitchClass(r) == p
    ensures |keys| == 12 && TransposedReference(r, halfTones) == keys[(p + halfTones) % 12]
  {
  }

  /** Stepping along the reference list from a name listed at its pitch class lands on the
      transposed reference spelling. */
  lemma StepAlongListed(r: string, halfTones: int, keys: seq<string>, p: nat)
    requires IsAbc(r) || IsDoremi(r)
    requires ReferenceKeysOf(r) == Ok(keys) && HasPitch(r) && PitchClass(r) == p
    requires IndexOf(keys, r) == Ok(p)
    ensures StepAlong(keys, r, halfTones) == Ok(TransposedReference(r, halfTones))
  {
    TransposedReferenceFrom(r, halfTones, keys, p);
    StepAlongFrom(keys, r, halfTones, p);
  }

  /** Stepping along the reference list of a reference spelling is pitch-class arithmetic. */
  lemma StepAlongReference(r: string, halfTones: int)
    requires IsReferenceSpelling(r)
    ensures StepAlong(ReferenceKeysOf(r).value, r, halfTones) == Ok(TransposedReference(r, halfTones))
  {
    ReferenceSpellingListed(r);
    StepAlongListed(r, halfTones, ReferenceKeysOf(r).value, PitchClass(r));
  }

  /** Two names of the same notation and pitch class move to the same reference spelling. */
  lemma TransposedReferenceAgrees(a: string, b: string, halfTones: int)
    requires IsAbc(a) || IsDoremi(a)
    requires IsAbc(b) || IsDoremi(b)
    requires HasPitch(a) && HasPitch(b) && PitchClass(a) == PitchClass(b)
    requires ReferenceKeysOf(a) == ReferenceKeysOf(b)
    ensures TransposedReference(a, halfTones) == TransposedReference(b, halfTones)
  {
  }

  /** The reference spelling of a plain spelling moves where the plain spelling moves. */
  lemma ReferenceMovesAlike(chord: string, halfTones: int)
    requires (IsAbc(chord) || IsDoremi(chord)) && IsPlainSpelling(chord)
    ensures KeyToReference(chord).Ok?
    ensures IsReferenceSpelling(KeyToReference(chord).value)
    ensures ReferenceKeysOf(KeyToReference(chord).value).Ok?
    ensures TransposedReference(KeyToReference(chord).value, halfTones) == TransposedReference(chord, halfTones)
  {
    ReferenceOf(chord);
    TransposedReferenceAgrees(KeyToReference(chord).value, chord, halfTones);
  }

  /** `transpose_chord` once its three lookups have succeeded. */
  lemma TransposeChordSteps(table: ScaleTable, chord: string, halfTones: int, toKey: Option<string>, styleOut: string,
                            reference: string, keys: seq<string>, transposed: string)
    requires KeyToReference(chord) == Ok(reference)
    requires ReferenceKeysOf(reference) == Ok(keys)
    requires StepAlong(keys, reference, halfTones) == Ok(transposed)
    ensures TransposeChord(table, chord, halfTones, toKey, styleOut) == SpellTransposed(table, transposed, toKey, styleOut)
  {
  }

  /** Transposition by pitch-class arithmetic, the reference definition `transpose_chord` is
      proved equal to: a plain spelling is moved to the reference spelling of the pitch class
      `halfTones` semitones away, which is then written in the output notation or spelled in
      the target key; any other name is an invalid key. */
  function PitchTransposition(table: ScaleTable, chord: string, halfTones: int, toKey: Option<string>, styleOut: string): Result<string> {
    if !((IsAbc(chord) || IsDoremi(chord)) && IsPlainSpelling(chord)) then Err(InvalidKey(chord))
    else SpellTransposed(table, TransposedReference(chord, halfTones), toKey, styleOut)
  }

  /** A plain spelling is transposed by pitch-class arithmetic. */
  lemma TransposeChordAccepts(table: ScaleTable, chord: string, halfTones: int, toKey: Option<string>, styleOut: string)
    requires (IsAbc(chord) || IsDoremi(chord)) && IsPlainSpelling(chord)
    ensures TransposeChord(table, chord, halfTones, toKey, styleOut) ==
      SpellTransposed(table, TransposedReference(chord, halfTones), toKey, styleOut)
  {
    ReferenceMovesAlike(chord, halfTones);
    StepAlongReference(KeyToReference(chord).value, halfTones);
    TransposeChordSteps(table, chord, halfTones, toKey, styleOut, KeyToReference(chord).value,
      ReferenceKeysOf(KeyToReference(chord).value).value, TransposedReference(chord, halfTones));
  }

  /** Any other name is an invalid key. */
  lemma TransposeChordRejects(table: ScaleTable, chord: string, halfTones: int, toKey: Option<string>, styleOut: string)
    requires !((IsAbc(chord) || IsDoremi(chord)) && IsPlainSpelling(chord))
    ensures TransposeChord(table, chord, halfTones, toKey, styleOut) == Err(InvalidKey(chord))
  {
    KeyToReferenceNormalises(chord);
  }

  /** `transpose_chord` accepts exactly the plain spellings (a name and at most two equal
      accidentals) and moves them by pitch-class arithmetic. */
  lemma TransposeChordIsPitchArithmetic(table: ScaleTable, chord: string, halfTones: int, toKey: Option<string>, styleOut: string)
    ensures TransposeChord(table, chord, halfTones, toKey, styleOut) == PitchTransposition(table, chord, halfTones, toKey, styleOut)
  {
    if (IsAbc(chord) || IsDoremi(chord)) && IsPlainSpelling(chord) {
      TransposeChordAccepts(table, chord, halfTones, toKey, styleOut);
    } else {
      TransposeChordRejects(table, chord, halfTones, toKey, styleOut);
    }
  }

  /** The transposed reference spelling is entry j of the chord's own reference list. */
  lemma TransposedReferenceAt(chord: string, halfTones: int, j: int)
    requires (IsAbc(chord) || IsDoremi(chord)) && HasPitch(chord)
    requires j == (PitchClass(chord) + halfTones) % 12
    ensures 0 <= j < 12
    ensures ReferenceKeysOf(chord).Ok?
    ensures TransposedReference(chord, halfTones) == ReferenceKeysOf(chord).value[j]
  {
  }

  /** Entry j of a reference list, written in an output notation. */
  lemma SpellReferenceAt(t: string, keys: seq<string>, j: nat, styleOut: string)
    requires keys == ReferenceAbcKeys || keys == ReferenceDoremiKeys
    requires j < 12 && t == keys[j] && IsStyle(styleOut)
    ensures ChordToChordStyle(t, styleOut) == Ok(ReferenceKeysIn(styleOut)[j])
  {
    ReferenceInStyle(j, styleOut);
  }

  /** Without a target key, the transposition of a plain spelling moved to pitch class j. */
  lemma PitchTranspositionToReferenceAt(table: ScaleTable, chord: string, halfTones: int, styleOut: string, j: int)
    requires (IsAbc(chord) || IsDoremi(chord)) && IsPlainSpelling(chord) && HasPitch(chord)
    requires j == (PitchClass(chord) + halfTones) % 12
    ensures 0 <= j < 12
    ensures PitchTransposition(table, chord, halfTones, None, styleOut) ==
      if IsStyle(styleOut) then Ok(ReferenceKeysIn(styleOut)[j]) else Err(InvalidOutputStyle(styleOut))
  {
    TransposedReferenceAt(chord, halfTones, j);
    TransposedReferenceSpelling(chord, halfTones);
    if IsStyle(styleOut) {
      SpellReferenceAt(TransposedReference(chord, halfTones), ReferenceKeysOf(chord).value, j, styleOut);
    }
  }

  /** Without a target key the result is the reference spelling, in the requested notation,
      of the transposed pitch class. */
  lemma PitchTranspositionToReference(table: ScaleTable, chord: string, halfTones: int, styleOut: string)
    requires (IsAbc(chord) || IsDoremi(chord)) && IsPlainSpelling(chord)
    ensures HasPitch(chord)
    ensures PitchTransposition(table, chord, halfTones, None, styleOut) ==
      if IsStyle(styleOut) then Ok(ReferenceKeysIn(styleOut)[(PitchClass(chord) + halfTones) % 12])
      else Err(InvalidOutputStyle(styleOut))
  {
    HasPitchIffNamed(chord);
    PitchTranspositionToReferenceAt(table, chord, halfTones, styleOut, (PitchClass(chord) + halfTones) % 12);
  }

  /** `transpose_chord` without a target key. */
  lemma TransposeChordToReference(table: ScaleTable, chord: string, halfTones: int, styleOut: string)
    requires (IsAbc(chord) || IsDoremi(chord)) && IsPlainSpelling(chord)
    ensures HasPitch(chord)
    ensures TransposeChord(table, chord, halfTones, None, styleOut) ==
      if IsStyle(styleOut) then Ok(ReferenceKeysIn(styleOut)[(PitchClass(chord) + halfTones) % 12])
      else Err(InvalidOutputStyle(styleOut))
  {
    TransposeChordIsPitchArithmetic(table, chord, halfTones, None, styleOut);
    PitchTranspositionToReference(table, chord, halfTones, styleOut);
  }

  // Spelling in a key.

  /** `express_chord_in_key` sees the chord only through its conversion to the output notation. */
  lemma ExpressSameConversion(table: ScaleTable, chord: string, c: string, key: string, styleOut: string)
    requires ChordToChordStyle(chord, styleOut) == ChordToChordStyle(c, styleOut)
    ensures ExpressChordInKey(table, chord, key, styleOut) == ExpressChordInKey(table, c, key, styleOut)
  {
  }

  /** Over any scale dictionary: the row lookup fails first, then the reference lookup, then
      the row may be too short. */
  lemma ExpressFromOutcome(table: ScaleTable, chord: string, key: string, styleOut: string,
                           kv: string, cv: string)
    requires ChordToChordStyle(key, styleOut) == Ok(kv) && ChordToChordStyle(chord, styleOut) == Ok(cv)
    ensures IsAbc(cv) || IsDoremi(cv)
    ensures var r := ExpressChordInKey(table, chord, key, styleOut);
      var row := KeyChordsFrom(table, kv);
      (row.Err? ==> r == Err(row.error)) &&
      (row.Ok? && !IsReferenceSpelling(cv) ==> r == Err(ValueNotInList(cv))) &&
      (row.Ok? && IsReferenceSpelling(cv) ==>
        r == if PitchClass(cv) < |row.value| then Ok(row.value[PitchClass(cv)]) else Err(IndexOutOfRange(PitchClass(cv))))
  {
    IndexOfReference(cv);
    if IsReferenceSpelling(cv) {
      ReferenceEntry(ReferenceKeysOf(cv).value, PitchClass(cv));
    }
  }

  /** A name of either notation is found in its reference list exactly when it is a reference
      spelling. */
  lemma IndexOfReference(cv: string)
    requires IsAbc(cv) || IsDoremi(cv)
    ensures ReferenceKeysOf(cv).Ok?
    ensures IndexOf(ReferenceKeysOf(cv).value, cv).Ok? <==> IsReferenceSpelling(cv)
  {
    NoChordIsBothStyles(cv);
    var keys := ReferenceKeysOf(cv).value;
    if IndexOf(keys, cv).Ok? {
      ReferenceEntry(keys, IndexOf(keys, cv).value);
    }
    if IsReferenceSpelling(cv) {
      ReferenceEntry(keys, PitchClass(cv));
    }
  }

  /** Over a dictionary that serves the key, once both names are in the output notation:
      `express_chord_in_key` succeeds exactly when the key has a scale and the chord is a
      reference spelling, and gives the scale's spelling of the chord's pitch class. */
  lemma ExpressInServedScale(table: ScaleTable, chord: string, key: string, styleOut: string, kv: string, cv: string)
    requires ChordToChordStyle(key, styleOut) == Ok(kv) && ChordToChordStyle(chord, styleOut) == Ok(cv)
    requires ServesKey(table, kv)
    ensures var r := ExpressChordInKey(table, chord, key, styleOut);
      (r.Ok? <==> HasScale(kv) && IsReferenceSpelling(cv)) &&
      (!HasScale(kv) ==> r.Err? && r.error.InvalidKey?) &&
      (HasScale(kv) && !IsReferenceSpelling(cv) ==> r == Err(ValueNotInList(cv))) &&
      (r.Ok? ==> HasPitch(chord) && HasPitch(r.value) && PitchClass(r.value) == PitchClass(chord) &&
                 KeyChordsFrom(table, kv).Ok? && |KeyChordsFrom(table, kv).value| == 12 &&
                 r.value == KeyChordsFrom(table, kv).value[PitchClass(chord)] &&
                 IsPlainSpelling(r.value) && ChordStyle(r.value) == Ok(styleOut))
  {
    ExpressFromOutcome(table, chord, key, styleOut, kv, cv);
    if ExpressChordInKey(table, chord, key, styleOut).Ok? {
      ChordToChordStyleKeepsPitch(chord, styleOut);
      NoChordIsBothStyles(cv);
      NoChordIsBothStyles(kv);
      NoChordIsBothStyles(KeyChordsFrom(table, kv).value[PitchClass(cv)]);
    }
  }

  /** Over the source's dictionary, a key with a short row spells pitch classes 0 to 10 by
      the entry in that slot and has no slot for pitch class 11. */
  lemma ExpressInShortRow(chord: string, key: string, styleOut: string, kv: string, cv: string)
    requires ChordToChordStyle(key, styleOut) == Ok(kv) && ChordToChordStyle(chord, styleOut) == Ok(cv)
    requires HasShortRow(kv) && IsReferenceSpelling(cv)
    ensures KeyChords(kv).Ok? && |KeyChords(kv).value| == 11
    ensures ExpressChordInKey(KeyChordsAbcAsWritten, chord, key, styleOut) ==
      if PitchClass(cv) < 11 then Ok(KeyChords(kv).value[PitchClass(cv)]) else Err(IndexOutOfRange(11))
  {
    KeyChordsAligned(kv);
    ExpressFromOutcome(KeyChordsAbcAsWritten, chord, key, styleOut, kv, cv);
  }

  /** `express_chord_in_key` on the source's dictionary. Each failure is the first of the
      Python evaluation order. For every key but D flat and G sharp (REb and SOL#) it succeeds
      exactly when the key has a scale and the chord is a reference spelling, once both are
      written in the output notation, and gives the scale's spelling of the chord's pitch
      class. For those four keys slot i of the eleven-entry row is returned for pitch class i,
      and pitch class 11 is an index error. */
  lemma ExpressChordInKeySpellsInScale(chord: string, key: string, styleOut: string)
    ensures var r := ExpressChordInKey(KeyChordsAbcAsWritten, chord, key, styleOut);
      var k := ChordToChordStyle(key, styleOut);
      var c := ChordToChordStyle(chord, styleOut);
      (k.Err? ==> r == Err(k.error)) &&
      (k.Ok? && c.Err? ==> r == Err(c.error)) &&
      (k.Ok? && c.Ok? && !HasScale(k.value) ==> r.Err? && r.error.InvalidKey?) &&
      (k.Ok? && c.Ok? && HasScale(k.value) && !IsReferenceSpelling(c.value) ==> r == Err(ValueNotInList(c.value))) &&
      (k.Ok? && c.Ok? && !HasShortRow(k.value) ==>
        (r.Ok? <==> HasScale(k.value) && IsReferenceSpelling(c.value)) &&
        (r.Ok? ==> HasPitch(chord) && HasPitch(r.value) && PitchClass(r.value) == PitchClass(chord) &&
                   KeyChords(k.value).Ok? && |KeyChords(k.value).value| == 12 &&
                   r.value == KeyChords(k.value).value[PitchClass(chord)] && ChordStyle(r.value) == Ok(styleOut))) &&
      (k.Ok? && c.Ok? && HasShortRow(k.value) && IsReferenceSpelling(c.value) ==>
        KeyChords(k.value).Ok? && |KeyChords(k.value).value| == 11 &&
        r == if PitchClass(c.value) < 11 then Ok(KeyChords(k.value).value[PitchClass(c.value)]) else Err(IndexOutOfRange(11)))
  {
    var k := ChordToChordStyle(key, styleOut);
    var c := ChordToChordStyle(chord, styleOut);
    if k.Ok? && c.Ok? {
      KeyChordsAligned(k.value);
      ExpressFromOutcome(KeyChordsAbcAsWritten, chord, key, styleOut, k.value, c.value);
      if HasShortRow(k.value) {
        if IsReferenceSpelling(c.value) {
          ExpressInShortRow(chord, key, styleOut, k.value, c.value);
        }
      } else {
        ExpressInServedScale(KeyChordsAbcAsWritten, chord, key, styleOut, k.value, c.value);
      }
    }
  }

  /** `express_chord_in_key` on the completed dictionary: it succeeds exactly when the key has
      a scale and the chord is a reference spelling, once both are written in the output
      notation, and gives the scale's spelling of the chord's pitch class. */
  lemma CompletedExpressSpellsInScale(chord: string, key: string, styleOut: string)
    ensures var r := ExpressChordInKey(KeyChordsAbcTable, chord, key, styleOut);
      var k := ChordToChordStyle(key, styleOut);
      var c := ChordToChordStyle(chord, styleOut);
      (r.Ok? <==> k.Ok? && c.Ok? && HasScale(k.value) && IsReferenceSpelling(c.value)) &&
      (k.Err? ==> r == Err(k.error)) &&
      (k.Ok? && c.Err? ==> r == Err(c.error)) &&
      (k.Ok? && c.Ok? && !HasScale(k.value) ==> r.Err? && r.error.InvalidKey?) &&
      (k.Ok? && c.Ok? && HasScale(k.value) && !IsReferenceSpelling(c.value) ==> r == Err(ValueNotInList(c.value))) &&
      (r.Ok? ==> HasPitch(chord) && HasPitch(r.value) && PitchClass(r.value) == PitchClass(chord) &&
                 KeyChordsFrom(KeyChordsAbcTable, k.value).Ok? && |KeyChordsFrom(KeyChordsAbcTable, k.value).value| == 12 &&
                 r.value == KeyChordsFrom(KeyChordsAbcTable, k.value).value[PitchClass(chord)] &&
                 ChordStyle(r.value) == Ok(styleOut))
  {
    var k := ChordToChordStyle(key, styleOut);
    var c := ChordToChordStyle(chord, styleOut);
    if k.Ok? && c.Ok? {
      CompletedKeyChordsAligned(k.value);
      ExpressInServedScale(KeyChordsAbcTable, chord, key, styleOut, k.value, c.value);
    }
  }

  /** A letter name spelled as pitch class p is already in letter notation. */
  lemma LetterInAbc(s: string, p: int)
    requires IsLetterSpelledAs(s, p)
    ensures IsAbc(s) && ChordToChordStyle(s, Abc) == Ok(s)
  {
    LetterSpelledFacts(s, p);
    NoChordIsBothStyles(s);
  }

  /** `express_chord_in_key` in letter notation, for a letter key with a row and the entry i
      of the reference list: entry i of the row, if the row has one. */
  lemma ExpressInLetters(table: ScaleTable, chord: string, key: string, p: int, i: nat)
    requires IsLetterSpelledAs(key, p) && key in table
    requires i < 12 && chord == ReferenceAbcKeys[i]
    ensures ExpressChordInKey(table, chord, key, Abc) ==
      if i < |table[key]| then Ok(table[key][i]) else Err(IndexOutOfRange(i))
  {
    LetterInAbc(key, p);
    ReferenceAbcKeysShape();
    LetterInAbc(chord, i);
    ReferenceEntry(ReferenceAbcKeys, i);
  }

  /** The "Db" scale as the source writes it spells B flat (pitch class 10) as C flat (pitch
      class 11); the completed scale spells it B flat. */
  lemma DbScaleAsWrittenBFlat()
    ensures ExpressChordInKey(KeyChordsAbcAsWritten, "Bb", "Db", Abc) == Ok("Cb")
    ensures ExpressChordInKey(KeyChordsAbcTable, "Bb", "Db", Abc) == Ok("Bb")
  {
    AsWrittenDbRow();
    ExpressInLetters(KeyChordsAbcAsWritten, "Bb", "Db", 1, 10);
    ExpressInLetters(KeyChordsAbcTable, "Bb", "Db", 1, 10);
  }

  /** The "Db" scale as the source writes it has no slot for B (pitch class 11); the completed
      scale spells it C flat. */
  lemma DbScaleAsWrittenB()
    ensures ExpressChordInKey(KeyChordsAbcAsWritten, "B", "Db", Abc) == Err(IndexOutOfRange(11))
    ensures ExpressChordInKey(KeyChordsAbcTable, "B", "Db", Abc) == Ok("Cb")
  {
    AsWrittenDbRow();
    ExpressInLetters(KeyChordsAbcAsWritten, "B", "Db", 1, 11);
    ExpressInLetters(KeyChordsAbcTable, "B", "Db", 1, 11);
  }

  /** The "G#" scale as the source writes it spells F sharp (pitch class 6) as F double sharp
      (pitch class 7); the completed scale spells it F sharp. */
  lemma GSharpScaleAsWrittenFSharp()
    ensures ExpressChordInKey(KeyChordsAbcAsWritten, "F#", "G#", Abc) == Ok("F##")
    ensures ExpressChordInKey(KeyChordsAbcTable, "F#", "G#", Abc) == Ok("F#")
  {
    AsWrittenGSharpRow();
    ExpressInLetters(KeyChordsAbcAsWritten, "F#", "G#", 8, 6);
    ExpressInLetters(KeyChordsAbcTable, "F#", "G#", 8, 6);
  }

  /** The "G#" scale as the source writes it has no slot for B (pitch class 11); the completed
      scale spells it B. */
  lemma GSharpScaleAsWrittenB()
    ensures ExpressChordInKey(KeyChordsAbcAsWritten, "B", "G#", Abc) == Err(IndexOutOfRange(11))
    ensures ExpressChordInKey(KeyChordsAbcTable, "B", "G#", Abc) == Ok("B")
  {
    AsWrittenGSharpRow();
    ExpressInLetters(KeyChordsAbcAsWritten, "B", "G#", 8, 11);
    ExpressInLetters(KeyChordsAbcTable, "B", "G#", 8, 11);
  }

  /** With a target key, the transposition of a plain spelling moved to pitch class j is
      `express_chord_in_key` of the reference spelling of j in the output notation. */
  lemma PitchTranspositionInKeyAt(table: ScaleTable, chord: string, halfTones: int, key: string, styleOut: string, j: int)
    requires (IsAbc(chord) || IsDoremi(chord)) && IsPlainSpelling(chord) && HasPitch(chord) && key != ""
    requires j == (PitchClass(chord) + halfTones) % 12
    ensures 0 <= j < 12
    ensures PitchTransposition(table, chord, halfTones, Some(key), styleOut) ==
      ExpressChordInKey(table, ReferenceKeysIn(styleOut)[j], key, styleOut)
  {
    TransposedReferenceAt(chord, halfTones, j);
    TransposedReferenceSpelling(chord, halfTones);
    var t := TransposedReference(chord, halfTones);
    var x := ReferenceKeysIn(styleOut)[j];
    if IsStyle(styleOut) {
      SpellReferenceAt(t, ReferenceKeysOf(chord).value, j, styleOut);
      ReferenceInStyle(j, styleOut);
      ExpressSameConversion(table, t, x, key, styleOut);
    }
  }

  /** The same for `transpose_chord`. */
  lemma TransposeChordInKeyAt(table: ScaleTable, chord: string, halfTones: int, key: string, styleOut: string, j: int)
    requires (IsAbc(chord) || IsDoremi(chord)) && IsPlainSpelling(chord) && HasPitch(chord) && key != ""
    requires j == (PitchClass(chord) + halfTones) % 12
    ensures 0 <= j < 12
    ensures TransposeChord(table, chord, halfTones, Some(key), styleOut) ==
      ExpressChordInKey(table, ReferenceKeysIn(styleOut)[j], key, styleOut)
  {
    TransposeChordIsPitchArithmetic(table, chord, halfTones, Some(key), styleOut);
    PitchTranspositionInKeyAt(table, chord, halfTones, key, styleOut, j);
  }

  /** Stepping to pitch class j in an output notation lands on its reference spelling, which
      is its own conversion. */
  lemma ReferenceInStyleSpelling(styleOut: string, j: nat)
    requires IsStyle(styleOut) && j < 12
    ensures var x := ReferenceKeysIn(styleOut)[j];
      ChordToChordStyle(x, styleOut) == Ok(x) && IsReferenceSpelling(x) && HasPitch(x) && PitchClass(x) == j
  {
    ReferenceInStyle(j, styleOut);
    ReferenceEntry(ReferenceKeysIn(styleOut), j);
  }

  /** With a target key the dictionary serves, the transposed pitch class is spelled the way
      the key's scale spells it, in the output notation. */
  lemma TransposeChordInServedKey(table: ScaleTable, chord: string, halfTones: int, key: string, styleOut: string)
    requires (IsAbc(chord) || IsDoremi(chord)) && IsPlainSpelling(chord) && key != ""
    requires ChordToChordStyle(key, styleOut).Ok? ==> ServesKey(table, ChordToChordStyle(key, styleOut).value)
    ensures HasPitch(chord)
    ensures var r := TransposeChord(table, chord, halfTones, Some(key), styleOut);
      var k := ChordToChordStyle(key, styleOut);
      var j := (PitchClass(chord) + halfTones) % 12;
      (k.Err? ==> r == Err(k.error)) &&
      (r.Ok? <==> k.Ok? && HasScale(k.value)) &&
      (k.Ok? && !HasScale(k.value) ==> r.Err? && r.error.InvalidKey?) &&
      (r.Ok? ==> IsPlainSpelling(r.value) && HasPitch(r.value) && PitchClass(r.value) == j &&
                 KeyChordsFrom(table, k.value).Ok? && |KeyChordsFrom(table, k.value).value| == 12 &&
                 r.value == KeyChordsFrom(table, k.value).value[j] && ChordStyle(r.value) == Ok(styleOut))
  {
    HasPitchIffNamed(chord);
    var j := (PitchClass(chord) + halfTones) % 12;
    TransposeChordInKeyAt(table, chord, halfTones, key, styleOut, j);
    var k := ChordToChordStyle(key, styleOut);
    if k.Ok? {
      var x := ReferenceKeysIn(styleOut)[j];
      ReferenceInStyleSpelling(styleOut, j);
      ExpressInServedScale(table, x, key, styleOut, k.value, x);
    }
  }

  /** `transpose_chord` with a target key, on the source's dictionary. For every key but
      D flat and G sharp (REb and SOL#) the result exists exactly when the converted key has
      a scale, and is that scale's spelling of the moved pitch class j. For those four keys
      it is slot j of the eleven-entry row, and pitch class 11 is an index error. */
  lemma TransposeChordInKey(chord: string, halfTones: int, key: string, styleOut: string)
    requires (IsAbc(chord) || IsDoremi(chord)) && IsPlainSpelling(chord) && key != ""
    ensures HasPitch(chord)
    ensures var r := TransposeChord(KeyChordsAbcAsWritten, chord, halfTones, Some(key), styleOut);
      var k := ChordToChordStyle(key, styleOut);
      var j := (PitchClass(chord) + halfTones) % 12;
      (k.Err? ==> r == Err(k.error)) &&
      (k.Ok? && !HasScale(k.value) ==> r.Err? && r.error.InvalidKey?) &&
      (k.Ok? && HasScale(k.value) && !HasShortRow(k.value) ==>
        r.Ok? && HasPitch(r.value) && PitchClass(r.value) == j &&
        KeyChords(k.value).Ok? && |KeyChords(k.value).value| == 12 &&
        r.value == KeyChords(k.value).value[j] && ChordStyle(r.value) == Ok(styleOut)) &&
      (k.Ok? && HasShortRow(k.value) ==>
        KeyChords(k.value).Ok? && |KeyChords(k.value).value| == 11 &&
        r == if j < 11 then Ok(KeyChords(k.value).value[j]) else Err(IndexOutOfRange(11)))
  {
    HasPitchIffNamed(chord);
    var k := ChordToChordStyle(key, styleOut);
    if k.Ok? {
      KeyChordsAligned(k.value);
      if HasShortRow(k.value) {
        var j := (PitchClass(chord) + halfTones) % 12;
        TransposeChordInKeyAt(KeyChordsAbcAsWritten, chord, halfTones, key, styleOut, j);
        var x := ReferenceKeysIn(styleOut)[j];
        ReferenceInStyleSpelling(styleOut, j);
        ExpressInShortRow(x, key, styleOut, k.value, x);
      } else {
        TransposeChordInServedKey(KeyChordsAbcAsWritten, chord, halfTones, key, styleOut);
      }
    } else {
      TransposeChordInServedKey(KeyChordsAbcAsWritten, chord, halfTones, key, styleOut);
    }
  }

  /** `transpose_chord` with a target key, on the completed dictionary: the result exists
      exactly when the converted key has a scale, and is that scale's spelling of the moved
      pitch class. */
  lemma CompletedTransposeChordInKey(chord: string, halfTones: int, key: string, styleOut: string)
    requires (IsAbc(chord) || IsDoremi(chord)) && IsPlainSpelling(chord) && key != ""
    ensures HasPitch(chord)
    ensures var r := TransposeChord(KeyChordsAbcTable, chord, halfTones, Some(key), styleOut);
      var k := ChordToChordStyle(key, styleOut);
      (r.Ok? <==> k.Ok? && HasScale(k.value)) &&
      (r.Ok? ==> HasPitch(r.value) && PitchClass(r.value) == (PitchClass(chord) + halfTones) % 12 &&
                 KeyChordsFrom(KeyChordsAbcTable, k.value).Ok? && |KeyChordsFrom(KeyChordsAbcTable, k.value).value| == 12 &&
                 r.value == KeyChordsFrom(KeyChordsAbcTable, k.value).value[(PitchClass(chord) + halfTones) % 12] &&
                 ChordStyle(r.value) == Ok(styleOut))
  {
    if ChordToChordStyle(key, styleOut).Ok? {
      CompletedKeyChordsAligned(ChordToChordStyle(key, styleOut).value);
    }
    TransposeChordInServedKey(KeyChordsAbcTable, chord, halfTones, key, styleOut);
  }

  /** `transpose_chord` of a plain spelling, as the spelling of entry j of its reference list. */
  lemma TransposeChordAt(table: ScaleTable, chord: string, h: int, toKey: Option<string>, style: string, j: int, r: Result<string>)
    requires (IsAbc(chord) || IsDoremi(chord)) && IsPlainSpelling(chord) && HasPitch(chord)
    requires j == (PitchClass(chord) + h) % 12 && r == TransposeChord(table, chord, h, toKey, style)
    ensures 0 <= j < 12 && ReferenceKeysOf(chord).Ok?
    ensures r == SpellTransposed(table, ReferenceKeysOf(chord).value[j], toKey, style)
  {
    TransposeChordAccepts(table, chord, h, toKey, style);
    TransposedReferenceAt(chord, h, j);
  }

  /** `transpose_chord` of a letter spelling of pitch class p lands on reference entry j. */
  lemma TransposeLetter(table: ScaleTable, chord: string, h: int, toKey: Option<string>, style: string, p: int, j: int, t: string)
    requires IsLetterSpelledAs(chord, p) && j == (p + h) % 12 && t == ReferenceAbcKeys[j]
    ensures TransposeChord(table, chord, h, toKey, style) == SpellTransposed(table, t, toKey, style)
  {
    LetterSpelledFacts(chord, p);
    TransposeAbcAt(table, chord, h, toKey, style, j);
  }

  /** A plain letter-notation chord moved to pitch class j takes the letter reference name of j. */
  lemma TransposeAbcAt(table: ScaleTable, chord: string, h: int, toKey: Option<string>, style: string, j: int)
    requires IsAbc(chord) && IsPlainSpelling(chord) && HasPitch(chord) && j == (PitchClass(chord) + h) % 12
    ensures 0 <= j < 12
    ensures TransposeChord(table, chord, h, toKey, style) == SpellTransposed(table, ReferenceAbcKeys[j], toKey, style)
  {
    TransposeChordAt(table, chord, h, toKey, style, j, TransposeChord(table, chord, h, toKey, style));
  }

  /** A up one semitone in D flat, on the source's dictionary: slot 10 of the short row. */
  lemma DbTargetAUpOne()
    ensures TransposeChord(KeyChordsAbcAsWritten, "A", 1, Some("Db"), Abc) == Ok("Cb")
  {
    TransposeLetter(KeyChordsAbcAsWritten, "A", 1, Some("Db"), Abc, 9, 10, "Bb");
    DbScaleAsWrittenBFlat();
  }

  /** C flat up one semitone in D flat, on the source's dictionary: slot 0. */
  lemma DbTargetCFlatUpOne()
    ensures TransposeChord(KeyChordsAbcAsWritten, "Cb", 1, Some("Db"), Abc) == Ok("C")
  {
    TransposeLetter(KeyChordsAbcAsWritten, "Cb", 1, Some("Db"), Abc, 11, 0, "C");
    DbScaleC();
  }

  /** C in D flat, on the source's dictionary: slot 0 of the row. */
  lemma DbScaleC()
    ensures ExpressChordInKey(KeyChordsAbcAsWritten, "C", "Db", Abc) == Ok("C")
  {
    AsWrittenDbRow();
    ExpressInLetters(KeyChordsAbcAsWritten, "C", "Db", 1, 0);
  }

  /** A up two semitones in D flat, on the source's dictionary: no slot 11. */
  lemma DbTargetAUpTwo()
    ensures TransposeChord(KeyChordsAbcAsWritten, "A", 2, Some("Db"), Abc) == Err(IndexOutOfRange(11))
  {
    TransposeLetter(KeyChordsAbcAsWritten, "A", 2, Some("Db"), Abc, 9, 11, "B");
    DbScaleAsWrittenB();
  }

  /** On the source's dictionary transposition in D flat does not compose: A up one semitone
      is C flat and C flat up one is C, but A up two has no slot in the short row. */
  lemma DbTargetBreaksComposition()
    ensures TransposeChord(KeyChordsAbcAsWritten, "A", 1, Some("Db"), Abc) == Ok("Cb")
    ensures TransposeChord(KeyChordsAbcAsWritten, TransposeChord(KeyChordsAbcAsWritten, "A", 1, Some("Db"), Abc).value, 1, Some("Db"), Abc) == Ok("C")
    ensures TransposeChord(KeyChordsAbcAsWritten, "A", 2, Some("Db"), Abc) == Err(IndexOutOfRange(11))
  {
    DbTargetAUpOne();
    DbTargetCFlatUpOne();
    DbTargetAUpTwo();
  }

  // Transposition as arithmetic.

  lemma ModPeriodic(p: int, halfTones: int)
    ensures (p + (halfTones + 12)) % 12 == (p + halfTones) % 12
  {
  }

  lemma ModCompose(p: int, m: int, n: int, total: int, j: int)
    requires j == (p + m) % 12 && total == m + n
    ensures (j + n) % 12 == (p + total) % 12
  {
  }

  /** Moving by twelve semitones more lands on the same reference spelling. */
  lemma PitchTranspositionPeriodic(table: ScaleTable, chord: string, halfTones: int, toKey: Option<string>, styleOut: string)
    ensures PitchTransposition(table, chord, halfTones + 12, toKey, styleOut) == PitchTransposition(table, chord, halfTones, toKey, styleOut)
  {
    if (IsAbc(chord) || IsDoremi(chord)) && IsPlainSpelling(chord) {
      HasPitchIffNamed(chord);
      ModPeriodic(PitchClass(chord), halfTones);
    }
  }

  /** Transposing by twelve semitones more changes nothing. */
  lemma TransposeChordPeriodic(table: ScaleTable, chord: string, halfTones: int, toKey: Option<string>, styleOut: string)
    ensures TransposeChord(table, chord, halfTones + 12, toKey, styleOut) == TransposeChord(table, chord, halfTones, toKey, styleOut)
  {
    TransposeChordIsPitchArithmetic(table, chord, halfTones, toKey, styleOut);
    TransposeChordIsPitchArithmetic(table, chord, halfTones + 12, toKey, styleOut);
    PitchTranspositionPeriodic(table, chord, halfTones, toKey, styleOut);
  }

  /** Only plain spellings are transposed. */
  lemma PitchTranspositionAccepts(table: ScaleTable, chord: string, halfTones: int, toKey: Option<string>, styleOut: string)
    requires PitchTransposition(table, chord, halfTones, toKey, styleOut).Ok?
    ensures (IsAbc(chord) || IsDoremi(chord)) && IsPlainSpelling(chord)
  {
  }

  /** Moving on by n from a plain spelling x of pitch class p + m. */
  lemma ComposeAt(table: ScaleTable, chord: string, m: int, n: int, total: int, styleOut: string, x: string)
    requires (IsAbc(chord) || IsDoremi(chord)) && IsPlainSpelling(chord) && HasPitch(chord)
    requires (IsAbc(x) || IsDoremi(x)) && IsPlainSpelling(x) && HasPitch(x)
    requires PitchClass(x) == (PitchClass(chord) + m) % 12 && total == m + n
    ensures PitchTransposition(table, x, n, None, styleOut) == PitchTransposition(table, chord, total, None, styleOut)
  {
    ModCompose(PitchClass(chord), m, n, total, PitchClass(x));
    SamePitchClassAt(table, x, n, chord, total, styleOut, (PitchClass(x) + n) % 12);
  }

  /** Two plain spellings moved to the same pitch class j end in the same place. */
  lemma SamePitchClassAt(table: ScaleTable, a: string, h: int, b: string, g: int, styleOut: string, j: int)
    requires (IsAbc(a) || IsDoremi(a)) && IsPlainSpelling(a) && HasPitch(a)
    requires (IsAbc(b) || IsDoremi(b)) && IsPlainSpelling(b) && HasPitch(b)
    requires j == (PitchClass(a) + h) % 12 && j == (PitchClass(b) + g) % 12
    ensures PitchTransposition(table, a, h, None, styleOut) == PitchTransposition(table, b, g, None, styleOut)
  {
    PitchTranspositionToReferenceAt(table, a, h, styleOut, j);
    PitchTranspositionToReferenceAt(table, b, g, styleOut, j);
  }

  /** The reference spelling of pitch class j in an output notation. */
  lemma ReferenceInStyleEntry(styleOut: string, j: nat)
    requires IsStyle(styleOut) && j < 12
    ensures var x := ReferenceKeysIn(styleOut)[j];
      (IsAbc(x) || IsDoremi(x)) && IsPlainSpelling(x) && HasPitch(x) && PitchClass(x) == j
  {
    ReferenceEntry(ReferenceKeysIn(styleOut), j);
  }

  /** Moving by m and then by n, both without target key, is moving by their sum. */
  lemma PitchTranspositionComposes(table: ScaleTable, chord: string, m: int, n: int, total: int, styleOut: string)
    requires PitchTransposition(table, chord, m, None, styleOut).Ok? && total == m + n
    ensures PitchTransposition(table, PitchTransposition(table, chord, m, None, styleOut).value, n, None, styleOut) ==
      PitchTransposition(table, chord, total, None, styleOut)
  {
    PitchTranspositionAccepts(table, chord, m, None, styleOut);
    PitchTranspositionToReference(table, chord, m, styleOut);
    ReferenceInStyleEntry(styleOut, (PitchClass(chord) + m) % 12);
    ComposeAt(table, chord, m, n, total, styleOut, ReferenceKeysIn(styleOut)[(PitchClass(chord) + m) % 12]);
  }

  /** Transposing by m and then by n is transposing by m + n, whenever the dictionary serves
      the target key, if one is given: the second call normalises the first result, and the
      first result is the scale's plain spelling of the moved pitch class. */
  lemma TransposeChordComposes(table: ScaleTable, chord: string, m: int, n: int, total: int,
                               toKey: Option<string>, styleOut: string)
    requires TransposeChord(table, chord, m, toKey, styleOut).Ok? && total == m + n
    requires Truthy(toKey) && ChordToChordStyle(toKey.value, styleOut).Ok? ==>
      ServesKey(table, ChordToChordStyle(toKey.value, styleOut).value)
    ensures TransposeChord(table, TransposeChord(table, chord, m, toKey, styleOut).value, n, toKey, styleOut) ==
      TransposeChord(table, chord, total, toKey, styleOut)
  {
    if Truthy(toKey) {
      ComposesInKey(table, chord, m, n, total, toKey.value, styleOut);
    } else {
      ComposesWithoutKey(table, chord, m, n, total, toKey, styleOut);
    }
  }

  /** Composition with a target key the dictionary serves. */
  lemma ComposesInKey(table: ScaleTable, chord: string, m: int, n: int, total: int, key: string, styleOut: string)
    requires TransposeChord(table, chord, m, Some(key), styleOut).Ok? && total == m + n && key != ""
    requires ChordToChordStyle(key, styleOut).Ok? ==> ServesKey(table, ChordToChordStyle(key, styleOut).value)
    ensures TransposeChord(table, TransposeChord(table, chord, m, Some(key), styleOut).value, n, Some(key), styleOut) ==
      TransposeChord(table, chord, total, Some(key), styleOut)
  {
    var first := TransposeChord(table, chord, m, Some(key), styleOut).value;
    FirstInKey(table, chord, m, key, styleOut, first);
    TransposeChordIsPitchArithmetic(table, first, n, Some(key), styleOut);
    TransposeChordIsPitchArithmetic(table, chord, total, Some(key), styleOut);
    ComposeInKeyAt(table, chord, m, n, total, key, styleOut, first);
  }

  /** Moving x, a plain spelling of pitch class p + m, by n lands where moving p by m + n does. */
  lemma ComposeInKeyAt(table: ScaleTable, chord: string, m: int, n: int, total: int, key: string, styleOut: string, x: string)
    requires (IsAbc(chord) || IsDoremi(chord)) && IsPlainSpelling(chord) && HasPitch(chord)
    requires (IsAbc(x) || IsDoremi(x)) && IsPlainSpelling(x) && HasPitch(x)
    requires PitchClass(x) == (PitchClass(chord) + m) % 12 && total == m + n && key != ""
    ensures PitchTransposition(table, x, n, Some(key), styleOut) == PitchTransposition(table, chord, total, Some(key), styleOut)
  {
    ModCompose(PitchClass(chord), m, n, total, PitchClass(x));
    SamePitchClassInKeyAt(table, x, n, chord, total, key, styleOut, (PitchClass(x) + n) % 12);
  }

  /** Two plain spellings moved to the same pitch class j are spelled alike in a key. */
  lemma SamePitchClassInKeyAt(table: ScaleTable, a: string, h: int, b: string, g: int, key: string, styleOut: string, j: int)
    requires (IsAbc(a) || IsDoremi(a)) && IsPlainSpelling(a) && HasPitch(a)
    requires (IsAbc(b) || IsDoremi(b)) && IsPlainSpelling(b) && HasPitch(b)
    requires j == (PitchClass(a) + h) % 12 && j == (PitchClass(b) + g) % 12 && key != ""
    ensures PitchTransposition(table, a, h, Some(key), styleOut) == PitchTransposition(table, b, g, Some(key), styleOut)
  {
    PitchTranspositionInKeyAt(table, a, h, key, styleOut, j);
    PitchTranspositionInKeyAt(table, b, g, key, styleOut, j);
  }

  /** A transposition in a served key is a plain spelling of the moved pitch class. */
  lemma FirstInKey(table: ScaleTable, chord: string, m: int, key: string, styleOut: string, first: string)
    requires TransposeChord(table, chord, m, Some(key), styleOut) == Ok(first) && key != ""
    requires ChordToChordStyle(key, styleOut).Ok? ==> ServesKey(table, ChordToChordStyle(key, styleOut).value)
    ensures (IsAbc(chord) || IsDoremi(chord)) && IsPlainSpelling(chord) && HasPitch(chord)
    ensures (IsAbc(first) || IsDoremi(first)) && IsPlainSpelling(first) && HasPitch(first)
    ensures PitchClass(first) == (PitchClass(chord) + m) % 12
  {
    TransposeChordIsPitchArithmetic(table, chord, m, Some(key), styleOut);
    PitchTranspositionAccepts(table, chord, m, Some(key), styleOut);
    HasPitchIffNamed(chord);
    TransposeChordInServedKey(table, chord, m, key, styleOut);
  }

  /** Composition without a target key, or with an empty one. */
  lemma ComposesWithoutKey(table: ScaleTable, chord: string, m: int, n: int, total: int, toKey: Option<string>, styleOut: string)
    requires TransposeChord(table, chord, m, toKey, styleOut).Ok? && total == m + n && !Truthy(toKey)
    ensures TransposeChord(table, TransposeChord(table, chord, m, toKey, styleOut).value, n, toKey, styleOut) ==
      TransposeChord(table, chord, total, toKey, styleOut)
  {
    var first := TransposeChord(table, chord, m, toKey, styleOut).value;
    TransposeChordIsPitchArithmetic(table, chord, m, toKey, styleOut);
    TransposeChordIsPitchArithmetic(table, chord, total, toKey, styleOut);
    TransposeChordIsPitchArithmetic(table, first, n, toKey, styleOut);
    WithoutKey(table, chord, m, toKey, styleOut);
    WithoutKey(table, chord, total, toKey, styleOut);
    WithoutKey(table, first, n, toKey, styleOut);
    PitchTranspositionComposes(table, chord, m, n, total, styleOut);
  }

  /** An empty target key is no target key. */
  lemma WithoutKey(table: ScaleTable, chord: string, halfTones: int, toKey: Option<string>, styleOut: string)
    requires !Truthy(toKey)
    ensures PitchTransposition(table, chord, halfTones, toKey, styleOut) == PitchTransposition(table, chord, halfTones, None, styleOut)
  {
  }

  /** On the completed dictionary transposition composes for every target key. */
  lemma CompletedTransposeChordComposes(chord: string, m: int, n: int, total: int, toKey: Option<string>, styleOut: string)
    requires TransposeChord(KeyChordsAbcTable, chord, m, toKey, styleOut).Ok? && total == m + n
    ensures TransposeChord(KeyChordsAbcTable, TransposeChord(KeyChordsAbcTable, chord, m, toKey, styleOut).value, n, toKey, styleOut) ==
      TransposeChord(KeyChordsAbcTable, chord, total, toKey, styleOut)
  {
    if Truthy(toKey) && ChordToChordStyle(toKey.value, styleOut).Ok? {
      CompletedKeyChordsAligned(ChordToChordStyle(toKey.value, styleOut).value);
    }
    TransposeChordComposes(KeyChordsAbcTable, chord, m, n, total, toKey, styleOut);
  }

  /** On the source's dictionary transposition composes without a target key and for every
      target key but D flat and G sharp (REb and SOL#); `DbTargetBreaksComposition` shows
      it failing for D flat. */
  lemma TransposeChordComposesOffShortRows(chord: string, m: int, n: int, total: int, toKey: Option<string>, styleOut: string)
    requires TransposeChord(KeyChordsAbcAsWritten, chord, m, toKey, styleOut).Ok? && total == m + n
    requires Truthy(toKey) && ChordToChordStyle(toKey.value, styleOut).Ok? ==>
      !HasShortRow(ChordToChordStyle(toKey.value, styleOut).value)
    ensures TransposeChord(KeyChordsAbcAsWritten, TransposeChord(KeyChordsAbcAsWritten, chord, m, toKey, styleOut).value, n, toKey, styleOut) ==
      TransposeChord(KeyChordsAbcAsWritten, chord, total, toKey, styleOut)
  {
    if Truthy(toKey) && ChordToChordStyle(toKey.value, styleOut).Ok? {
      KeyChordsAligned(ChordToChordStyle(toKey.value, styleOut).value);
    }
    TransposeChordComposes(KeyChordsAbcAsWritten, chord, m, n, total, toKey, styleOut);
  }

  /** Normalising a chord first does not change where it moves. */
  lemma PitchTranspositionOfReference(table: ScaleTable, chord: string, halfTones: int, toKey: Option<string>, styleOut: string)
    requires KeyToReference(chord).Ok?
    ensures PitchTransposition(table, KeyToReference(chord).value, halfTones, toKey, styleOut) ==
      PitchTransposition(table, chord, halfTones, toKey, styleOut)
  {
    KeyToReferenceNormalises(chord);
    ReferenceOf(chord);
    ReferenceMovesAlike(chord, halfTones);
  }

  /** Normalising a chord first does not change its transposition. */
  lemma TransposeChordOfReference(table: ScaleTable, chord: string, halfTones: int, toKey: Option<string>, styleOut: string)
    requires KeyToReference(chord).Ok?
    ensures TransposeChord(table, KeyToReference(chord).value, halfTones, toKey, styleOut) ==
      TransposeChord(table, chord, halfTones, toKey, styleOut)
  {
    TransposeChordIsPitchArithmetic(table, chord, halfTones, toKey, styleOut);
    TransposeChordIsPitchArithmetic(table, KeyToReference(chord).value, halfTones, toKey, styleOut);
    PitchTranspositionOfReference(table, chord, halfTones, toKey, styleOut);
  }

  // One chord group (`transpose_chord_group`).

  /** `transpose_chord` with its other arguments fixed. */
  function TransposeWith(table: ScaleTable, halfTones: int, toKey: Option<string>, styleOut: string): string -> Result<string> {
    chord => TransposeChord(table, chord, halfTones, toKey, styleOut)
  }

  /** What `transpose_chord_group` computes over a given scale dictionary: every chord token
      of the line transposed, the text between tokens kept, as a single substitution; the
      first token that cannot be transposed is the failure. */
  function TransposedGroup(table: ScaleTable, line: string, halfTones: int, toKey: Option<string>, styleOut: string): Result<string> {
    Replaced(line, Chords(line), TransposeWith(table, halfTones, toKey, styleOut))
  }

  /** `transpose_chord_group`, over the dictionary as written: the chord tokens are found in
      the original line, and the loop of `ReplaceInPlace` replaces each by its transposition
      in the line being edited. */
  method TransposeChordGroup(line: string, halfTones: int, toKey: Option<string>, styleOut: string) returns (r: Result<string>)
    ensures r == TransposedGroup(KeyChordsAbcAsWritten, line, halfTones, toKey, styleOut)
  {
    var spans := Chords(line);
    r := ReplaceInPlace(line, spans, TransposeWith(KeyChordsAbcAsWritten, halfTones, toKey, styleOut));
  }

  /** The group can be transposed exactly when each of its chord tokens can; otherwise the
      failure is that of the leftmost token that cannot be transposed. `TransposedGroupSplices`
      says what the transposed group then is. */
  lemma TransposedGroupChords(table: ScaleTable, line: string, halfTones: int, toKey: Option<string>, styleOut: string)
    ensures var chords := Covered(line, Chords(line), 0);
      (TransposedGroup(table, line, halfTones, toKey, styleOut).Ok? <==>
        forall i | 0 <= i < |chords| :: TransposeChord(table, chords[i], halfTones, toKey, styleOut).Ok?) &&
      (TransposedGroup(table, line, halfTones, toKey, styleOut).Err? ==>
        exists i | 0 <= i < |chords| ::
          TransposeChord(table, chords[i], halfTones, toKey, styleOut) == Err(TransposedGroup(table, line, halfTones, toKey, styleOut).error) &&
          forall j | 0 <= j < i :: TransposeChord(table, chords[j], halfTones, toKey, styleOut).Ok?)
  {
    var chords := Covered(line, Chords(line), 0);
    var f := TransposeWith(table, halfTones, toKey, styleOut);
    MapElementwise(chords, f);
    if MapUntilFailure(chords, f).Err? {
      MapFirstFailure(chords, f);
    }
  }

  /** When every chord token can be transposed, each is replaced by its own transposition and
      the text between tokens is kept. */
  lemma TransposedGroupSplices(table: ScaleTable, line: string, halfTones: int, toKey: Option<string>, styleOut: string)
    ensures var chords := Covered(line, Chords(line), 0);
      (forall i | 0 <= i < |chords| :: TransposeChord(table, chords[i], halfTones, toKey, styleOut).Ok?) ==>
        TransposedGroup(table, line, halfTones, toKey, styleOut) == Ok(Splice(line, Chords(line),
          seq(|chords|, i requires 0 <= i < |chords| && TransposeChord(table, chords[i], halfTones, toKey, styleOut).Ok? =>
            TransposeChord(table, chords[i], halfTones, toKey, styleOut).value), 0))
  {
    var chords := Covered(line, Chords(line), 0);
    if forall i | 0 <= i < |chords| :: TransposeChord(table, chords[i], halfTones, toKey, styleOut).Ok? {
      var reps := seq(|chords|, i requires 0 <= i < |chords| && TransposeChord(table, chords[i], halfTones, toKey, styleOut).Ok? =>
        TransposeChord(table, chords[i], halfTones, toKey, styleOut).value);
      ReplacedBy(line, Chords(line), TransposeWith(table, halfTones, toKey, styleOut), reps);
    }
  }

  /** A line whose chord tokens all transpose to themselves comes back unchanged. */
  lemma TransposedGroupKeepsFixedChords(table: ScaleTable, line: string, halfTones: int, toKey: Option<string>, styleOut: string)
    requires forall i | 0 <= i < |Chords(line)| ::
      TransposeChord(table, Covered(line, Chords(line), 0)[i], halfTones, toKey, styleOut) == Ok(Covered(line, Chords(line), 0)[i])
    ensures TransposedGroup(table, line, halfTones, toKey, styleOut) == Ok(line)
  {
    var chords := Covered(line, Chords(line), 0);
    var f := TransposeWith(table, halfTones, toKey, styleOut);
    MapElementwise(chords, f);
    assert MapUntilFailure(chords, f).value == chords;
    SpliceOfOriginalIsIdentity(line, Chords(line), 0);
  }

  /** A line without chord tokens comes back unchanged. */
  lemma TransposedGroupWithoutChords(table: ScaleTable, line: string, halfTones: int, toKey: Option<string>, styleOut: string)
    requires Chords(line) == []
    ensures TransposedGroup(table, line, halfTones, toKey, styleOut) == Ok(line)
  {
    TransposedGroupKeepsFixedChords(table, line, halfTones, toKey, styleOut);
  }

  /** Transposing a group by twelve semitones more changes nothing. */
  lemma TransposedGroupPeriodic(table: ScaleTable, line: string, halfTones: int, toKey: Option<string>, styleOut: string)
    ensures TransposedGroup(table, line, halfTones + 12, toKey, styleOut) == TransposedGroup(table, line, halfTones, toKey, styleOut)
  {
    var chords := Covered(line, Chords(line), 0);
    var f := TransposeWith(table, halfTones + 12, toKey, styleOut);
    var g := TransposeWith(table, halfTones, toKey, styleOut);
    forall i | 0 <= i < |chords|
      ensures f(chords[i]) == g(chords[i])
    {
      TransposeChordPeriodic(table, chords[i], halfTones, toKey, styleOut);
    }
    MapAgrees(chords, f, g);
  }
}
