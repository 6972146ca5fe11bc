/** A whole song (transposer.py, `song_key` and `transpose_song`): chords are written inside
    chord groups `\[...]` in running text; every chord group is transposed, the text outside
    the groups is kept. */
module Song {
  import opened Results
  import opened Symbols
  import opened Common
  import opened Pitch
  import opened Config
  import opened Grammar
  import opened Substitution
  import opened Scales
  import opened Transposer

  /** The contents of the chord groups of a song, left to right (the second capture group of
      each match). */
  function GroupContents(song: string): (contents: seq<string>)
    ensures |contents| == |ChordGroups(song)|
  {
    var groups := ChordGroups(song);
    seq(|groups|, k requires 0 <= k < |groups| =>
      ChordGroupBounds(song, k);
      GroupContent(song, groups[k]))
  }

  /** The first chord token of the first chord group; a song without chord groups, or whose
      first group holds no chord, has no element 0 to take (IndexError). */
  function FirstChord(song: string): (r: Result<string>)
    ensures r.Ok? ==> (IsAbc(r.value) || IsDoremi(r.value)) && IsTrailingSpelling(r.value)
    ensures r.Err? ==> r.error == IndexOutOfRange(0)
    ensures r.Ok? <==> |GroupContents(song)| > 0 && |Chords(GroupContents(song)[0])| > 0
  {
    var contents := GroupContents(song);
    if |contents| == 0 then Err(IndexOutOfRange(0))
    else
      var chords := Chords(contents[0]);
      if |chords| == 0 then Err(IndexOutOfRange(0))
      else
        ChordBounds(contents[0], 0);
        TokenIsChordName(contents[0], chords[0].start);
        Ok(contents[0][chords[0].start..chords[0].end])
  }

  /** `song_key`: the reference spelling of the first chord, transposed, in the output
      notation. */
  function SongKey(song: string, halfTones: int, styleOut: string): Result<string> {
    var chord :- FirstChord(song);
    var reference :- KeyToReference(chord);
    var transposed :- TransposeChord(KeyChordsAbcAsWritten, reference, halfTones, None, styleOut);
    ChordToChordStyle(transposed, styleOut)
  }

  /** The key of a song is its first chord transposed without a target key: taking the
      reference spelling first and rewriting the result in the output notation change
      nothing. */
  lemma SongKeyTransposesFirstChord(song: string, halfTones: int, styleOut: string)
    ensures FirstChord(song).Err? ==> SongKey(song, halfTones, styleOut) == Err(IndexOutOfRange(0))
    ensures FirstChord(song).Ok? ==>
      SongKey(song, halfTones, styleOut) == TransposeChord(KeyChordsAbcAsWritten, FirstChord(song).value, halfTones, None, styleOut)
  {
    if FirstChord(song).Ok? {
      var chord := FirstChord(song).value;
      KeyToReferenceNormalises(chord);
      if KeyToReference(chord).Ok? {
        TransposeChordOfReference(KeyChordsAbcAsWritten, chord, halfTones, None, styleOut);
        TransposeChordToReference(KeyChordsAbcAsWritten, chord, halfTones, styleOut);
        if IsStyle(styleOut) {
          var j := (PitchClass(chord) + halfTones) % 12;
          SpellReferenceAt(ReferenceKeysIn(styleOut)[j], ReferenceKeysIn(styleOut), j, styleOut);
        }
      }
    }
  }

  /** `transpose_chord` without a target key, on a chord of either notation: it fails on a
      spelling the reference tables do not list and on an unknown output notation, and
      otherwise gives the reference spelling of the moved pitch class. */
  lemma TransposeChordWithoutKey(table: ScaleTable, chord: string, halfTones: int, styleOut: string, r: Result<string>)
    requires IsAbc(chord) || IsDoremi(chord)
    requires r == TransposeChord(table, chord, halfTones, None, styleOut)
    ensures IsPlainSpelling(chord) ==> HasPitch(chord)
    ensures r == if !IsPlainSpelling(chord) then Err(InvalidKey(chord))
      else if !IsStyle(styleOut) then Err(InvalidOutputStyle(styleOut))
      else Ok(ReferenceKeysIn(styleOut)[(PitchClass(chord) + halfTones) % 12])
  {
    KeyToReferenceNormalises(chord);
    if IsPlainSpelling(chord) {
      TransposeChordToReference(table, chord, halfTones, styleOut);
    }
  }

  /** When the first chord is a plain spelling and the output notation is known, the key found
      is the reference spelling, in the output notation, of the first chord's pitch class
      moved by `halfTones`. */
  lemma SongKeyIsReference(song: string, halfTones: int, styleOut: string, chord: string)
    requires FirstChord(song) == Ok(chord) && IsPlainSpelling(chord) && IsStyle(styleOut)
    ensures HasPitch(chord)
    ensures SongKey(song, halfTones, styleOut) == Ok(ReferenceKeysIn(styleOut)[(PitchClass(chord) + halfTones) % 12])
  {
    SongKeyTransposesFirstChord(song, halfTones, styleOut);
    TransposeChordWithoutKey(KeyChordsAbcAsWritten, chord, halfTones, styleOut, SongKey(song, halfTones, styleOut));
  }

  /** Otherwise the key cannot be found: first for a spelling the reference tables do not
      list, then for an unknown output notation. */
  lemma SongKeyRejects(song: string, halfTones: int, styleOut: string, chord: string)
    requires FirstChord(song) == Ok(chord) && !(IsPlainSpelling(chord) && IsStyle(styleOut))
    ensures SongKey(song, halfTones, styleOut) ==
      if !IsPlainSpelling(chord) then Err(InvalidKey(chord)) else Err(InvalidOutputStyle(styleOut))
  {
    SongKeyTransposesFirstChord(song, halfTones, styleOut);
    TransposeChordWithoutKey(KeyChordsAbcAsWritten, chord, halfTones, styleOut, SongKey(song, halfTones, styleOut));
  }

  /** A key found is its own reference spelling, written in the output notation, so it is a
      valid target key. */
  lemma SongKeyIsReferenceSpelling(song: string, halfTones: int, styleOut: string)
    requires SongKey(song, halfTones, styleOut).Ok?
    ensures var key := SongKey(song, halfTones, styleOut).value;
      ChordStyle(key) == Ok(styleOut) && KeyToReference(key) == Ok(key)
  {
    var key := SongKey(song, halfTones, styleOut);
    SongKeyTransposesFirstChord(song, halfTones, styleOut);
    var chord := FirstChord(song).value;
    TransposeChordWithoutKey(KeyChordsAbcAsWritten, chord, halfTones, styleOut, key);
    ReferenceKeyInStyle(styleOut, (PitchClass(chord) + halfTones) % 12, key.value);
  }

  /** The reference spelling of a pitch class in an output notation is written in that
      notation and is its own reference. */
  lemma ReferenceKeyInStyle(styleOut: string, j: nat, key: string)
    requires IsStyle(styleOut) && j < 12 && key == ReferenceKeysIn(styleOut)[j]
    ensures ChordStyle(key) == Ok(styleOut) && KeyToReference(key) == Ok(key)
  {
    ReferenceInStyleEntry(styleOut, j);
    SpellReferenceAt(key, ReferenceKeysIn(styleOut), j, styleOut);
    ReferenceEntry(ReferenceKeysIn(styleOut), j);
    ReferenceSpellingIsOwnReference(key);
  }

  /** The key of a song moved by twelve semitones more is the same. */
  lemma SongKeyPeriodic(song: string, halfTones: int, styleOut: string)
    ensures SongKey(song, halfTones + 12, styleOut) == SongKey(song, halfTones, styleOut)
  {
    SongKeyTransposesFirstChord(song, halfTones, styleOut);
    SongKeyTransposesFirstChord(song, halfTones + 12, styleOut);
    if FirstChord(song).Ok? {
      TransposeChordPeriodic(KeyChordsAbcAsWritten, FirstChord(song).value, halfTones, None, styleOut);
    }
  }

  /** The target key `transpose_song` uses: with `'auto'` the key of the song, otherwise the
      one given. */
  function TargetKey(song: string, halfTones: int, toKey: Option<string>, styleOut: string): Result<Option<string>> {
    if toKey == Some("auto") then
      var key :- SongKey(song, halfTones, styleOut);
      Ok(Some(key))
    else Ok(toKey)
  }

  /** What the callback of `transpose_song` puts in place of one chord group: its delimiters
      around its transposed content. */
  function GroupReplacement(table: ScaleTable, content: string, halfTones: int, toKey: Option<string>, styleOut: string): Result<string> {
    var transposed :- TransposedGroup(table, content, halfTones, toKey, styleOut);
    Ok(GroupOpen + transposed + GroupClose)
  }

  /** `GroupReplacement` with its other arguments fixed. */
  function ReplaceGroupWith(table: ScaleTable, halfTones: int, toKey: Option<string>, styleOut: string): string -> Result<string> {
    content => GroupReplacement(table, content, halfTones, toKey, styleOut)
  }

  /** `transpose_song` with the default delimiters, over a scale dictionary; the program's is
      `KeyChordsAbcAsWritten`. */
  function TransposeSong(table: ScaleTable, song: string, halfTones: int, toKey: Option<string>, styleOut: string): Result<string> {
    var key :- TargetKey(song, halfTones, toKey, styleOut);
    var replaced :- MapUntilFailure(GroupContents(song), ReplaceGroupWith(table, halfTones, key, styleOut));
    Ok(Splice(song, ChordGroups(song), replaced, 0))
  }

  /** Replacing the chord groups of a song with a given target key: it succeeds exactly when
      every group can be transposed, and each group is then its delimiters around its
      transposed content; otherwise the failure is that of the leftmost group that cannot be
      transposed. */
  lemma ReplaceGroupsGroupwise(table: ScaleTable, song: string, halfTones: int, key: Option<string>, styleOut: string,
                               r: Result<seq<string>>)
    requires r == MapUntilFailure(GroupContents(song), ReplaceGroupWith(table, halfTones, key, styleOut))
    ensures var contents := GroupContents(song);
      (r.Ok? <==> forall i | 0 <= i < |contents| :: TransposedGroup(table, contents[i], halfTones, key, styleOut).Ok?) &&
      (r.Ok? ==>
        r.value == seq(|contents|, i requires 0 <= i < |contents| && TransposedGroup(table, contents[i], halfTones, key, styleOut).Ok? =>
          GroupOpen + TransposedGroup(table, contents[i], halfTones, key, styleOut).value + GroupClose)) &&
      (r.Err? ==> exists i | 0 <= i < |contents| ::
        TransposedGroup(table, contents[i], halfTones, key, styleOut) == Err(r.error) &&
        forall j | 0 <= j < i :: TransposedGroup(table, contents[j], halfTones, key, styleOut).Ok?)
  {
    var contents := GroupContents(song);
    var f := ReplaceGroupWith(table, halfTones, key, styleOut);
    MapElementwise(contents, f);
    if r.Err? {
      MapFirstFailure(contents, f);
    }
  }

  /** A song is transposed exactly when its target key is found and every chord group can be
      transposed; each group is then replaced by its delimiters around its transposed
      content, the text outside the groups kept. Otherwise the failure is that of the target
      key or of the leftmost group that cannot be transposed. */
  lemma TransposeSongGroupwise(table: ScaleTable, song: string, halfTones: int, toKey: Option<string>, styleOut: string)
    ensures TargetKey(song, halfTones, toKey, styleOut).Err? ==>
      TransposeSong(table, song, halfTones, toKey, styleOut) == Err(TargetKey(song, halfTones, toKey, styleOut).error)
    ensures TargetKey(song, halfTones, toKey, styleOut).Ok? ==>
      var key := TargetKey(song, halfTones, toKey, styleOut).value;
      var contents := GroupContents(song);
      var r := TransposeSong(table, song, halfTones, toKey, styleOut);
      (r.Ok? <==> forall i | 0 <= i < |contents| :: TransposedGroup(table, contents[i], halfTones, key, styleOut).Ok?) &&
      (r.Ok? ==> r.value == Splice(song, ChordGroups(song),
        seq(|contents|, i requires 0 <= i < |contents| && TransposedGroup(table, contents[i], halfTones, key, styleOut).Ok? =>
          GroupOpen + TransposedGroup(table, contents[i], halfTones, key, styleOut).value + GroupClose), 0)) &&
      (r.Err? ==> exists i | 0 <= i < |contents| ::
        TransposedGroup(table, contents[i], halfTones, key, styleOut) == Err(r.error) &&
        forall j | 0 <= j < i :: TransposedGroup(table, contents[j], halfTones, key, styleOut).Ok?)
  {
    var target := TargetKey(song, halfTones, toKey, styleOut);
    if target.Ok? {
      var key := target.value;
      ReplaceGroupsGroupwise(table, song, halfTones, key, styleOut,
        MapUntilFailure(GroupContents(song), ReplaceGroupWith(table, halfTones, key, styleOut)));
    }
  }

  /** A song without chord groups comes back unchanged, except that `'auto'` finds no first
      chord to take the key from. */
  lemma TransposeSongWithoutGroups(table: ScaleTable, song: string, halfTones: int, toKey: Option<string>, styleOut: string)
    requires ChordGroups(song) == []
    ensures TransposeSong(table, song, halfTones, toKey, styleOut) ==
      if toKey == Some("auto") then Err(IndexOutOfRange(0)) else Ok(song)
  {
    SpliceOfOriginalIsIdentity(song, [], 0);
  }

  /** Transposing a song by twelve semitones more changes nothing, the key found for
      `'auto'` included. */
  lemma TransposeSongPeriodic(table: ScaleTable, song: string, halfTones: int, toKey: Option<string>, styleOut: string)
    ensures TransposeSong(table, song, halfTones + 12, toKey, styleOut) == TransposeSong(table, song, halfTones, toKey, styleOut)
  {
    SongKeyPeriodic(song, halfTones, styleOut);
    var target := TargetKey(song, halfTones, toKey, styleOut);
    assert TargetKey(song, halfTones + 12, toKey, styleOut) == target;
    if target.Ok? {
      var contents := GroupContents(song);
      var f := ReplaceGroupWith(table, halfTones + 12, target.value, styleOut);
      var g := ReplaceGroupWith(table, halfTones, target.value, styleOut);
      forall i | 0 <= i < |contents|
        ensures f(contents[i]) == g(contents[i])
      {
        TransposedGroupPeriodic(table, contents[i], halfTones, target.value, styleOut);
      }
      MapAgrees(contents, f, g);
    }
  }
}
