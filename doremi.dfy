/** The solfege key index of doremi.py: twelve slots, one per semitone starting from LA, each
    holding the one or two solfege spellings of that semitone, and a table saying, for every
    such spelling used as a target key, whether sharps or flats are preferred. */
module DoremiKeys {
  import opened Results
  import opened Symbols
  import opened Common
  import opened Pitch
  import opened Config

  /** `key_list`: the twelve semitone slots, LA first. */
  const KeyList: seq<seq<string>> := [
    ["LA"], ["LA#", "SIb"], ["SI"], ["DO"], ["DO#", "REb"], ["RE"],
    ["RE#", "MIb"], ["MI"], ["FA"], ["FA#", "SOLb"], ["SOL"], ["SOL#", "LAb"]]

  /** `sharp_flat_preferences`: the accidental a target key prefers. */
  const SharpFlatPreferences: map<string, char> := map[
    "LA" := '#', "LA#" := 'b', "SIb" := 'b', "SI" := '#', "DO" := 'b', "DO#" := 'b',
    "REb" := 'b', "RE" := '#', "RE#" := 'b', "MIb" := 'b', "MI" := '#', "FA" := 'b',
    "FA#" := '#', "SOLb" := '#', "SOL" := '#', "SOL#" := 'b', "LAb" := 'b']

  /** The slots holding two spellings. */
  const TwoSpellingSlots: set<nat> := {1, 4, 6, 9, 11}

  /** Twelve slots of one or two spellings, LA first; the two-spelling slots are those of
      `TwoSpellingSlots`. */
  lemma KeyListShape()
    ensures |KeyList| == 12 && KeyList[0] == ["LA"]
    ensures forall i | 0 <= i < 12 :: 1 <= |KeyList[i]| <= 2
    ensures forall i | 0 <= i < 12 :: |KeyList[i]| == 2 <==> i in TwoSpellingSlots
  {
  }

  /** A two-spelling slot holds the sharp spelling of the slot below first and the flat
      spelling of the slot above second. */
  lemma TwoSpellingSlotsShape(i: nat)
    requires i in TwoSpellingSlots
    ensures i < 12 && |KeyList[i]| == 2
    ensures KeyList[i][0] == KeyList[(i - 1) % 12][0] + [Sharp]
    ensures KeyList[i][1] == KeyList[(i + 1) % 12][0] + [Flat]
  {
  }

  /** Every spelling of the key list has a preference, every preference belongs to a spelling
      of the key list, and each preference is a sharp or a flat. */
  lemma PreferencesCoverKeyList()
    ensures forall i, j | 0 <= i < 12 && 0 <= j < |KeyList[i]| :: KeyList[i][j] in SharpFlatPreferences
    ensures forall k | k in SharpFlatPreferences :: exists i | 0 <= i < 12 :: k in KeyList[i]
    ensures forall k | k in SharpFlatPreferences :: SharpFlatPreferences[k] in SharpFlat
  {
    forall k | k in SharpFlatPreferences
      ensures exists i | 0 <= i < 12 :: k in KeyList[i]
    {
      var i := SlotOfPreference(k);
    }
  }

  /** The slot of a spelling that has a preference. */
  lemma SlotOfPreference(k: string) returns (i: nat)
    requires k in SharpFlatPreferences
    ensures i < 12 && k in KeyList[i]
  {
    if k == "LA" { i := 0; }
    else if k == "LA#" || k == "SIb" { i := 1; }
    else if k == "SI" { i := 2; }
    else if k == "DO" { i := 3; }
    else if k == "DO#" || k == "REb" { i := 4; }
    else if k == "RE" { i := 5; }
    else if k == "RE#" || k == "MIb" { i := 6; }
    else if k == "MI" { i := 7; }
    else if k == "FA" { i := 8; }
    else if k == "FA#" || k == "SOLb" { i := 9; }
    else if k == "SOL" { i := 10; }
    else { i := 11; }
  }

  /** No spelling appears in two slots (so `key_list.index` of the slot found is its
      position). */
  lemma SlotsAreDisjoint(k: string, i: nat, j: nat)
    requires i < 12 && j < 12 && k in KeyList[i] && k in KeyList[j]
    ensures i == j
  {
  }

  /** Every spelling in slot i is a solfege spelling read off its characters as pitch class
      i + 9 modulo 12 (slot 0 is LA, pitch class 9). */
  lemma KeyListSpellings()
    ensures forall i, j | 0 <= i < 12 && 0 <= j < |KeyList[i]| :: IsSyllableSpelledAs(KeyList[i][j], (i + 9) % 12)
  {
  }

  /** The slots of the key list follow the pitch classes: a spelling in slot i denotes pitch
      class i + 9 modulo 12. */
  lemma KeyListPitches(i: nat, j: nat)
    requires i < 12 && j < |KeyList[i]|
    ensures IsDoremi(KeyList[i][j]) && HasPitch(KeyList[i][j]) && PitchClass(KeyList[i][j]) == (i + 9) % 12
  {
    KeyListSpellings();
    SyllableSpelledFacts(KeyList[i][j], (i + 9) % 12);
  }

  /** The search of `get_index_from_key` from slot `from` on. */
  function SlotFrom(key: string, from: nat): (r: Result<nat>)
    requires from <= 12
    ensures r.Ok? ==> from <= r.value < 12 && key in KeyList[r.value]
    ensures r.Ok? ==> forall j | from <= j < r.value :: key !in KeyList[j]
    ensures r.Err? ==> r.error == InvalidKey(key) && forall j | from <= j < 12 :: key !in KeyList[j]
    decreases 12 - from
  {
    if from == 12 then Err(InvalidKey(key))
    else if key in KeyList[from] then Ok(from)
    else SlotFrom(key, from + 1)
  }

  /** `get_index_from_key`: the slot holding the key, or "Invalid key". */
  function IndexFromKey(key: string): (r: Result<nat>)
    ensures r.Ok? <==> exists i | 0 <= i < 12 :: key in KeyList[i]
    ensures r.Ok? ==> r.value < 12 && key in KeyList[r.value]
    ensures r.Err? ==> r.error == InvalidKey(key)
  {
    SlotFrom(key, 0)
  }

  /** `get_index_from_key` as written: a loop over the slots that returns the position of the
      first slot holding the key. */
  method GetIndexFromKey(key: string) returns (r: Result<nat>)
    ensures r == IndexFromKey(key)
  {
    for i := 0 to |KeyList|
      invariant forall j | 0 <= j < i :: key !in KeyList[j]
      invariant SlotFrom(key, i) == SlotFrom(key, 0)
    {
      if key in KeyList[i] {
        return Ok(i);
      }
    }
    return Err(InvalidKey(key));
  }

  /** The slot found for a key is its pitch class moved down by 9 (LA) modulo 12. */
  lemma IndexFromKeyIsPitchClass(key: string)
    requires IndexFromKey(key).Ok?
    ensures HasPitch(key) && PitchClass(key) == (IndexFromKey(key).value + 9) % 12
  {
    var i := IndexFromKey(key).value;
    var j :| 0 <= j < |KeyList[i]| && KeyList[i][j] == key;
    KeyListPitches(i, j);
  }

  /** `sharp_flat.index(p)`: 0 for a sharp, 1 for a flat, a ValueError otherwise. */
  function SharpOrFlat(p: char): (r: Result<nat>)
    ensures r.Ok? <==> p in SharpFlat
    ensures r.Ok? ==> r.value < |SharpFlat| && SharpFlat[r.value] == p
    ensures r.Err? ==> r.error == ValueNotInList([p])
  {
    if p == SharpFlat[0] then Ok(0)
    else if p == SharpFlat[1] then Ok(1)
    else Err(ValueNotInList([p]))
  }

  /** `get_key_from_index`: the spelling in slot `index` modulo 12; a slot with two spellings
      takes the one of the accidental the target key prefers. */
  function KeyFromIndex(index: int, toKey: string): Result<string> {
    var keyNames := KeyList[index % |KeyList|];
    if |keyNames| > 1 then
      if toKey !in SharpFlatPreferences then Err(KeyNotFound(toKey))
      else
        var sharpOrFlat :- SharpOrFlat(SharpFlatPreferences[toKey]);
        if sharpOrFlat < |keyNames| then Ok(keyNames[sharpOrFlat]) else Err(IndexOutOfRange(sharpOrFlat))
    else Ok(keyNames[0])
  }

  /** The key found lies in slot `index` modulo 12; it fails exactly when that slot has two
      spellings and the target key has no preference. */
  lemma KeyFromIndexSlot(index: int, toKey: string)
    ensures KeyFromIndex(index, toKey).Err? <==>
      index % 12 in TwoSpellingSlots && toKey !in SharpFlatPreferences
    ensures KeyFromIndex(index, toKey).Err? ==> KeyFromIndex(index, toKey).error == KeyNotFound(toKey)
    ensures KeyFromIndex(index, toKey).Ok? ==> KeyFromIndex(index, toKey).value in KeyList[index % 12]
  {
    KeyListShape();
    PreferencesCoverKeyList();
  }

  /** In a two-spelling slot the key found carries the accidental the target key prefers. */
  lemma KeyFromIndexPrefers(index: int, toKey: string)
    requires index % 12 in TwoSpellingSlots && toKey in SharpFlatPreferences
    ensures KeyFromIndex(index, toKey).Ok?
    ensures var key := KeyFromIndex(index, toKey).value;
      |key| > 0 && key[|key| - 1] == SharpFlatPreferences[toKey]
  {
    TwoSpellingSlotsShape(index % 12);
    PreferencesCoverKeyList();
  }

  /** Round trip: the key found for slot `index` is found back in slot `index` modulo 12, for
      every target key that has a preference. */
  lemma KeyFromIndexRoundTrip(index: int, toKey: string)
    requires toKey in SharpFlatPreferences
    ensures KeyFromIndex(index, toKey).Ok?
    ensures IndexFromKey(KeyFromIndex(index, toKey).value) == Ok(index % 12)
  {
    KeyFromIndexSlot(index, toKey);
    var key := KeyFromIndex(index, toKey).value;
    SlotsAreDisjoint(key, IndexFromKey(key).value, index % 12);
  }

  /** `get_transponation_steps`: the target's slot minus the source's slot. */
  function TransponationSteps(sourceKey: string, targetKey: string): Result<int> {
    var sourceIndex :- IndexFromKey(sourceKey);
    var targetIndex :- IndexFromKey(targetKey);
    Ok(targetIndex - sourceIndex)
  }

  /** The steps are found exactly when both keys are, and lie between -11 and 11. */
  lemma TransponationStepsBounds(sourceKey: string, targetKey: string)
    ensures TransponationSteps(sourceKey, targetKey).Ok? <==> IndexFromKey(sourceKey).Ok? && IndexFromKey(targetKey).Ok?
    ensures TransponationSteps(sourceKey, targetKey).Ok? ==> -11 <= TransponationSteps(sourceKey, targetKey).value <= 11
  {
  }

  /** Moving the source's slot by the steps and spelling the slot reached for any target key
      that has a preference gives a spelling of the target's slot. */
  lemma TransponationStepsReachTarget(sourceKey: string, targetKey: string, toKey: string)
    requires TransponationSteps(sourceKey, targetKey).Ok? && toKey in SharpFlatPreferences
    ensures KeyFromIndex(IndexFromKey(sourceKey).value + TransponationSteps(sourceKey, targetKey).value, toKey).Ok?
    ensures IndexFromKey(KeyFromIndex(IndexFromKey(sourceKey).value + TransponationSteps(sourceKey, targetKey).value, toKey).value) ==
      IndexFromKey(targetKey)
  {
    var target := IndexFromKey(sourceKey).value + TransponationSteps(sourceKey, targetKey).value;
    assert IndexFromKey(targetKey) == Ok(target) && target % 12 == target;
    KeyFromIndexRoundTrip(target, toKey);
  }

  /** Swapping source and target negates the steps. */
  lemma TransponationStepsAntisymmetric(sourceKey: string, targetKey: string)
    requires TransponationSteps(sourceKey, targetKey).Ok?
    ensures TransponationSteps(targetKey, sourceKey) == Ok(-TransponationSteps(sourceKey, targetKey).value)
  {
  }

  /** The documented examples. */
  lemma DocumentedExamples()
    ensures IndexFromKey("SIb") == Ok(1)
    ensures KeyFromIndex(1, "MIb") == Ok("SIb")
    ensures TransponationSteps("RE", "DO") == Ok(-2)
  {
    KeyListShape();
    SlotsAreDisjoint("SIb", IndexFromKey("SIb").value, 1);
    SlotsAreDisjoint("RE", IndexFromKey("RE").value, 5);
    SlotsAreDisjoint("DO", IndexFromKey("DO").value, 3);
  }
}
