/** Pitch classes: an independent reference definition against which the
    spelling tables are checked. A spelled note is a base name (letter or
    syllable) whose pitch class is fixed (C = DO = 0, D = RE = 2, E = MI = 4,
    F = FA = 5, G = SOL = 7, A = LA = 9, B = SI = 11), moved one semitone up per
    sharp and one down per flat, modulo 12. */
module Pitch {
  import opened Symbols
  import opened Common
  import opened Results

  /** Pitch class of a natural base name, letter or syllable, read off its first character
      (and, for the syllables starting with D and S, its length or second character). */
  function BasePitch(name: string): (p: int)
    requires name in LetterNames || name in SyllableNames
    ensures 0 <= p < 12
    ensures name in {"C", "DO"} ==> p == 0
    ensures name in {"D", "RE"} ==> p == 2
    ensures name in {"E", "MI"} ==> p == 4
    ensures name in {"F", "FA"} ==> p == 5
    ensures name in {"G", "SOL"} ==> p == 7
    ensures name in {"A", "LA"} ==> p == 9
    ensures name in {"B", "SI"} ==> p == 11
  {
    match name[0]
    case 'C' => 0
    case 'D' => if |name| == 1 then 2 else 0
    case 'R' => 2
    case 'E' => 4
    case 'M' => 4
    case 'F' => 5
    case 'G' => 7
    case 'S' => if name[1] == 'O' then 7 else 11
    case 'A' => 9
    case 'L' => 9
    case _ => 11
  }

  /** Semitone offset of a run of accidentals: one up per sharp, one down per flat. */
  function Alteration(accidentals: string): int {
    if accidentals == [] then 0
    else (if accidentals[0] == Sharp then 1 else if accidentals[0] == Flat then -1 else 0) + Alteration(accidentals[1..])
  }

  /** The chord's base name (what is left once its accidentals are deleted) is a letter or a syllable. */
  predicate HasPitch(chord: string) {
    var name := RemoveAccidentals(chord);
    name in LetterNames || name in SyllableNames
  }

  /** The pitch class the chord name denotes. */
  function PitchClass(chord: string): (p: nat)
    requires HasPitch(chord)
    ensures p < 12
  {
    (BasePitch(RemoveAccidentals(chord)) + Alteration(FindAccidentals(chord))) % 12
  }

  /** Exactly the chords of either notation have a pitch class. */
  lemma HasPitchIffNamed(chord: string)
    ensures HasPitch(chord) <==> IsAbc(chord) || IsDoremi(chord)
  {
    DictionariesAreInverseBijections();
  }

  /** The letter dictionary pairs each letter with the syllable of the same pitch class. */
  lemma LetterDictionaryKeepsBasePitch(c: string)
    requires c in AbcToDoremiDictionary
    ensures c in LetterNames && AbcToDoremiDictionary[c] in SyllableNames
    ensures BasePitch(AbcToDoremiDictionary[c]) == BasePitch(c)
  {
  }

  /** The solfege dictionary pairs each syllable with the letter of the same pitch class. */
  lemma SyllableDictionaryKeepsBasePitch(d: string)
    requires d in DoremiToAbcDictionary
    ensures d in SyllableNames && DoremiToAbcDictionary[d] in LetterNames
    ensures BasePitch(DoremiToAbcDictionary[d]) == BasePitch(d)
  {
  }

  /** Two chords whose base names have the same pitch class and whose accidentals agree denote the same pitch class. */
  lemma SamePartsSamePitch(x: string, y: string, nx: string, ny: string)
    requires nx == RemoveAccidentals(x) && ny == RemoveAccidentals(y)
    requires (nx in LetterNames || nx in SyllableNames) && (ny in LetterNames || ny in SyllableNames)
    requires BasePitch(nx) == BasePitch(ny) && FindAccidentals(x) == FindAccidentals(y)
    ensures HasPitch(x) && HasPitch(y) && PitchClass(x) == PitchClass(y)
  {
  }

  lemma AbcToDoremiKeepsPitch(chord: string)
    requires IsAbc(chord)
    ensures HasPitch(chord) && HasPitch(AbcToDoremi(chord).value)
    ensures PitchClass(AbcToDoremi(chord).value) == PitchClass(chord)
  {
    var b := RemoveAccidentals(chord);
    var d := AbcToDoremi(chord).value;
    LetterDictionaryKeepsBasePitch(b);
    SamePartsSamePitch(chord, d, b, RemoveAccidentals(d));
  }

  lemma DoremiToAbcKeepsPitch(chord: string)
    requires IsDoremi(chord)
    ensures HasPitch(chord) && HasPitch(DoremiToAbc(chord).value)
    ensures PitchClass(DoremiToAbc(chord).value) == PitchClass(chord)
  {
    var b := RemoveAccidentals(chord);
    var a := DoremiToAbc(chord).value;
    SyllableDictionaryKeepsBasePitch(b);
    SamePartsSamePitch(chord, a, b, RemoveAccidentals(a));
  }

  /** Translating between the notations never changes the pitch class. */
  lemma TranslationKeepsPitch(chord: string)
    ensures AbcToDoremi(chord).Ok? ==>
      HasPitch(chord) && HasPitch(AbcToDoremi(chord).value) && PitchClass(AbcToDoremi(chord).value) == PitchClass(chord)
    ensures DoremiToAbc(chord).Ok? ==>
      HasPitch(chord) && HasPitch(DoremiToAbc(chord).value) && PitchClass(DoremiToAbc(chord).value) == PitchClass(chord)
  {
    if IsAbc(chord) { AbcToDoremiKeepsPitch(chord); }
    if IsDoremi(chord) { DoremiToAbcKeepsPitch(chord); }
  }

  /** Changing the notation of a chord keeps its pitch class. */
  lemma ChordToChordStyleKeepsPitch(chord: string, styleOut: string)
    requires ChordToChordStyle(chord, styleOut).Ok?
    ensures HasPitch(chord) && HasPitch(ChordToChordStyle(chord, styleOut).value)
    ensures PitchClass(ChordToChordStyle(chord, styleOut).value) == PitchClass(chord)
  {
    TranslationKeepsPitch(chord);
    HasPitchIffNamed(chord);
    HasPitchIffNamed(ChordToChordStyle(chord, styleOut).value);
  }

  // Spelled names written out character by character. The tables of the
  // transposer are literal strings; these definitions let their facts be
  // read off character by character.

  /** Length of the base name a spelling starts with: "SOL", another syllable, or a letter. */
  function NameLength(s: string): nat {
    if |s| >= 3 && s[0] == 'S' && s[1] == 'O' && s[2] == 'L' then 3
    else if |s| >= 2 && !IsAccidental(s[1]) then 2
    else 1
  }

  /** The base name a spelling starts with, built from its characters. */
  function NameOf(s: string): string
    requires |s| >= NameLength(s) >= 1
  {
    if NameLength(s) == 3 then [s[0], s[1], s[2]]
    else if NameLength(s) == 2 then [s[0], s[1]]
    else [s[0]]
  }

  /** A base name followed by at most two copies of one accidental. */
  predicate IsSpelled(s: string) {
    var n := NameLength(s);
    1 <= |s| && n <= |s| <= n + 2 &&
    (NameOf(s) in LetterNames || NameOf(s) in SyllableNames) &&
    forall i | n <= i < |s| :: s[i] == s[n] && IsAccidental(s[i])
  }

  /** The semitone offset of a spelling's accidentals, read off its length. */
  function RunAlteration(s: string): int
    requires |s| >= NameLength(s)
  {
    var k := |s| - NameLength(s);
    if k == 0 then 0 else if s[NameLength(s)] == Sharp then k else -k
  }

  lemma {:induction false} AlterationOfRun(a: string, c: char)
    requires c == Sharp || c == Flat
    requires forall i | 0 <= i < |a| :: a[i] == c
    ensures Alteration(a) == if c == Sharp then |a| else -|a|
  {
    if a != [] {
      AlterationOfRun(a[1..], c);
    }
  }

  /** The accidental scans split a spelled name into its base name and its accidentals. */
  lemma SpelledScans(s: string)
    requires IsSpelled(s)
    ensures RemoveAccidentals(s) == NameOf(s)
    ensures FindAccidentals(s) == s[NameLength(s)..]
  {
    var n := NameLength(s);
    var b, a := s[..n], s[n..];
    assert s == b + a;
    assert b == NameOf(s);
    NamesHaveNoAccidentals(b);
    SplitSpelling(b, a);
  }

  /** What classification says of a spelled name. */
  lemma SpelledClassification(s: string)
    requires IsSpelled(s)
    ensures IsTrailingSpelling(s) && HasPitch(s)
    ensures IsAbc(s) <==> NameOf(s) in LetterNames
    ensures IsDoremi(s) <==> NameOf(s) in SyllableNames
  {
    SpelledScans(s);
    var n := NameLength(s);
    assert s == s[..n] + s[n..];
    LetterDictionaryKeys();
    SyllableDictionaryKeys();
  }

  /** The pitch class of a spelled name, read off its characters. */
  lemma SpelledPitchClass(s: string)
    requires IsSpelled(s)
    ensures HasPitch(s)
    ensures PitchClass(s) == (BasePitch(NameOf(s)) + RunAlteration(s)) % 12
  {
    SpelledScans(s);
    var n := NameLength(s);
    var a := s[n..];
    if a != [] {
      assert a[0] == s[n];
      AlterationOfRun(a, a[0]);
    }
  }
}
