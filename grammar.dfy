/** The two regular expressions of `TransposerConfig` (config.py), written as hand-made
    scanners: the chord pattern of `get_chord_regex` and the chord-group pattern of
    `get_chord_group_regex` with the default delimiters `\[` and `]`. Both are searched the way
    Python's `finditer`, `findall` and `sub` search: leftmost match first, then on from its
    end, never overlapping. */
module Grammar {
  import opened Symbols
  import opened Common

  /** A match: the half-open interval [start, end) of the text. */
  datatype Span = Span(start: nat, end: nat)

  /** Where the search for match k begins: the end of match k - 1, or `from` for the first. */
  function Before(spans: seq<Span>, k: nat, from: nat): nat
    requires k <= |spans|
  {
    if k == 0 then from else spans[k - 1].end
  }

  /** A pattern is given by the length of its match at each position of the text, 0 where
      it does not match; a match must lie inside the text. */
  predicate MatchesAt(lens: seq<nat>, p: nat) {
    p < |lens| && 0 < lens[p] && p + lens[p] <= |lens|
  }

  /** No match starts in [a, b). */
  predicate NoMatchIn(lens: seq<nat>, a: nat, b: nat) {
    forall p | a <= p < b :: !MatchesAt(lens, p)
  }

  /** `span` is the first match at or after position a. */
  predicate IsFirstMatch(lens: seq<nat>, a: nat, span: Span) {
    a <= span.start && MatchesAt(lens, span.start) && span.end == span.start + lens[span.start] &&
    NoMatchIn(lens, a, span.start)
  }

  /** `spans` is what a left-to-right search from `from` finds: each match starts at the
      first matching position at or after the end of the previous one, and no match starts
      after the last one. */
  predicate IsScan(lens: seq<nat>, from: nat, spans: seq<Span>) {
    from <= |lens| &&
    (forall k {:trigger Before(spans, k, from)} | 0 <= k < |spans| :: IsFirstMatch(lens, Before(spans, k, from), spans[k])) &&
    NoMatchIn(lens, Before(spans, |spans|, from), |lens|)
  }

  /** The spans are in order, non-overlapping and inside the text. */
  predicate Ordered(spans: seq<Span>, from: nat, n: nat) {
    from <= Before(spans, |spans|, from) <= n &&
    forall k {:trigger Before(spans, k, from)} | 0 <= k < |spans| :: Before(spans, k, from) <= spans[k].start <= spans[k].end <= n
  }

  /** The search itself. */
  function Scan(lens: seq<nat>, from: nat): (spans: seq<Span>)
    requires from <= |lens|
    ensures IsScan(lens, from, spans)
    decreases |lens| - from
  {
    if from == |lens| then []
    else if MatchesAt(lens, from) then
      var rest := Scan(lens, from + lens[from]);
      ScanStep(lens, from, rest);
      [Span(from, from + lens[from])] + rest
    else
      var spans := Scan(lens, from + 1);
      ScanSkip(lens, from, spans);
      spans
  }

  /** A match at `from` followed by the scan from its end is the scan from `from`. */
  lemma ScanStep(lens: seq<nat>, from: nat, rest: seq<Span>)
    requires MatchesAt(lens, from) && IsScan(lens, from + lens[from], rest)
    ensures IsScan(lens, from, [Span(from, from + lens[from])] + rest)
  {
    var spans := [Span(from, from + lens[from])] + rest;
    forall k | 1 <= k < |spans|
      ensures IsFirstMatch(lens, Before(spans, k, from), spans[k])
    {
      assert Before(spans, k, from) == Before(rest, k - 1, from + lens[from]);
    }
    assert Before(spans, |spans|, from) == Before(rest, |rest|, from + lens[from]);
  }

  /** Where nothing matches at `from`, the scan from `from` is the scan from the next position. */
  lemma ScanSkip(lens: seq<nat>, from: nat, spans: seq<Span>)
    requires from < |lens| && !MatchesAt(lens, from) && IsScan(lens, from + 1, spans)
    ensures IsScan(lens, from, spans)
  {
    forall k | 0 <= k < |spans|
      ensures IsFirstMatch(lens, Before(spans, k, from), spans[k])
    {
      assert IsFirstMatch(lens, Before(spans, k, from + 1), spans[k]);
    }
    if spans == [] {
      assert NoMatchIn(lens, Before(spans, 0, from + 1), |lens|);
    }
  }

  lemma ScanIsOrdered(lens: seq<nat>, from: nat, spans: seq<Span>)
    requires IsScan(lens, from, spans)
    ensures Ordered(spans, from, |lens|)
  {
    forall k | 0 <= k < |spans|
      ensures Before(spans, k, from) <= spans[k].start <= spans[k].end <= |lens|
    {
      assert IsFirstMatch(lens, Before(spans, k, from), spans[k]);
    }
    ScanAdvances(lens, from, spans, |spans|);
  }

  /** Each search starts no earlier than `from` and inside the text. */
  lemma {:induction false} ScanAdvances(lens: seq<nat>, from: nat, spans: seq<Span>, k: nat)
    requires IsScan(lens, from, spans) && k <= |spans|
    ensures from <= Before(spans, k, from) <= |lens|
  {
    if 0 < k {
      ScanAdvances(lens, from, spans, k - 1);
      assert IsFirstMatch(lens, Before(spans, k - 1, from), spans[k - 1]);
    }
  }

  /** The description by `IsScan` leaves no choice: a scan is unique. */
  lemma {:induction false} ScanIsUnique(lens: seq<nat>, from: nat, a: seq<Span>, b: seq<Span>)
    requires IsScan(lens, from, a) && IsScan(lens, from, b)
    ensures a == b
    decreases |lens| - from
  {
    assert a != [] ==> IsFirstMatch(lens, Before(a, 0, from), a[0]);
    assert b != [] ==> IsFirstMatch(lens, Before(b, 0, from), b[0]);
    if a != [] && b != [] {
      assert a[0] == b[0];
      var next := a[0].end;
      assert IsScan(lens, next, a[1..]) by {
        assert forall k | 0 <= k <= |a[1..]| :: Before(a[1..], k, next) == Before(a, k + 1, from);
      }
      assert IsScan(lens, next, b[1..]) by {
        assert forall k | 0 <= k <= |b[1..]| :: Before(b[1..], k, next) == Before(b, k + 1, from);
      }
      ScanIsUnique(lens, next, a[1..], b[1..]);
      assert a == [a[0]] + a[1..] && b == [b[0]] + b[1..];
    }
  }

  // The chord pattern: a syllable (DO, RE, MI, FA, SOL, LA, SI) is tried before a letter
  // A to G, and either is followed by at most two accidentals, taken greedily.

  /** Length of the syllable starting at i, 0 if none. */
  function SyllableLength(s: string, i: nat): (r: nat)
    ensures r == 0 || r == 2 || r == 3
    ensures r > 0 ==> i + r <= |s|
  {
    if i + 2 <= |s| && [s[i], s[i + 1]] in SyllableNames then 2
    else if i + 3 <= |s| && s[i] == 'S' && s[i + 1] == 'O' && s[i + 2] == 'L' then 3
    else 0
  }

  /** Length of the base name starting at i, 0 if none. */
  function NameLengthAt(s: string, i: nat): (r: nat)
    ensures r <= 3
    ensures r > 0 ==> i + r <= |s|
  {
    if SyllableLength(s, i) > 0 then SyllableLength(s, i)
    else if i < |s| && s[i] in "ABCDEFG" then 1
    else 0
  }

  /** Length of the greedy run of at most two accidentals starting at j. */
  function AccidentalRunAt(s: string, j: nat): (r: nat)
    ensures r <= 2 && (r > 0 ==> j + r <= |s|)
    ensures forall q | j <= q < j + r :: q < |s| && IsAccidental(s[q])
    ensures j + r < |s| && r < 2 ==> !IsAccidental(s[j + r])
  {
    if j < |s| && IsAccidental(s[j]) then
      if j + 1 < |s| && IsAccidental(s[j + 1]) then 2 else 1
    else 0
  }

  /** Length of the chord token starting at i, 0 if none. */
  function TokenLength(s: string, i: nat): (r: nat)
    ensures r > 0 ==> i + r <= |s|
  {
    var name := NameLengthAt(s, i);
    if name == 0 then 0 else name + AccidentalRunAt(s, i + name)
  }

  /** `get_chord_regex().finditer(s)`: the chord tokens of s, left to right. */
  function Chords(s: string): (spans: seq<Span>)
    ensures IsScan(TokenLengths(s), 0, spans)
    ensures Ordered(spans, 0, |s|)
  {
    var spans := Scan(TokenLengths(s), 0);
    ScanIsOrdered(TokenLengths(s), 0, spans);
    spans
  }

  /** The token length at every position of s. */
  function TokenLengths(s: string): (lens: seq<nat>)
    ensures |lens| == |s| && forall p | 0 <= p < |s| :: lens[p] == TokenLength(s, p)
  {
    seq(|s|, p requires 0 <= p < |s| => TokenLength(s, p))
  }

  /** Every token is a base name of one notation followed only by accidentals (at most
      two), so it names a chord of that notation. */
  lemma TokenIsChordName(s: string, i: nat)
    requires TokenLength(s, i) > 0
    ensures var token := s[i..i + TokenLength(s, i)];
      (IsAbc(token) || IsDoremi(token)) && IsTrailingSpelling(token) && |FindAccidentals(token)| <= 2
  {
    var n := NameLengthAt(s, i);
    var token := s[i..i + TokenLength(s, i)];
    var name, run := s[i..i + n], s[i + n..i + TokenLength(s, i)];
    assert token == name + run;
    if SyllableLength(s, i) == 2 {
      assert name == [s[i], s[i + 1]];
    } else if SyllableLength(s, i) == 3 {
      assert name == "SOL";
    } else {
      assert name == [s[i]];
      assert name in LetterNames;
    }
    NamesHaveNoAccidentals(name);
    SplitSpelling(name, run);
    DictionaryKeysAreNames(name);
  }

  // The chord-group pattern with delimiters `\[` and `]`: the content is every character up to
  // the first `]`, and may hold neither `]` nor a line break.

  /** The delimiters of a chord group. */
  const GroupOpen: string := "\\["
  const GroupClose: string := "]"

  /** The first position at or after j holding `]` or a line break, or the end of the text. */
  function ContentEnd(s: string, j: nat): (e: nat)
    requires j <= |s|
    ensures j <= e <= |s|
    ensures forall q | j <= q < e :: s[q] != ']' && s[q] != '\n'
    ensures e < |s| ==> s[e] == ']' || s[e] == '\n'
    decreases |s| - j
  {
    if j == |s| || s[j] == ']' || s[j] == '\n' then j else ContentEnd(s, j + 1)
  }

  /** Length of the chord group starting at p, 0 if none. */
  function GroupLength(s: string, p: nat): (r: nat)
    ensures r > 0 ==> 3 <= r && p + r <= |s|
  {
    if p + 2 <= |s| && s[p] == '\\' && s[p + 1] == '[' then
      var e := ContentEnd(s, p + 2);
      if e < |s| && s[e] == ']' then e + 1 - p else 0
    else 0
  }

  /** `get_chord_group_regex('\\\\\\[', '\\]')` searched over s: its chord groups, left to right. */
  function ChordGroups(s: string): (spans: seq<Span>)
    ensures IsScan(GroupLengths(s), 0, spans)
    ensures Ordered(spans, 0, |s|)
  {
    var spans := Scan(GroupLengths(s), 0);
    ScanIsOrdered(GroupLengths(s), 0, spans);
    spans
  }

  /** The chord-group length at every position of s. */
  function GroupLengths(s: string): (lens: seq<nat>)
    ensures |lens| == |s| && forall p | 0 <= p < |s| :: lens[p] == GroupLength(s, p)
  {
    seq(|s|, p requires 0 <= p < |s| => GroupLength(s, p))
  }

  /** A chord group is its opening delimiter, a content free of `]` and line breaks, and its
      closing delimiter. */
  lemma GroupShape(s: string, p: nat)
    requires GroupLength(s, p) > 0
    ensures var g := s[p..p + GroupLength(s, p)];
      |g| >= 3 && g[..2] == GroupOpen && g[|g| - 1..] == GroupClose &&
      forall q | 2 <= q < |g| - 1 :: g[q] != ']' && g[q] != '\n'
  {
  }

  /** Every chord group found holds its two delimiters. */
  lemma ChordGroupBounds(s: string, k: nat)
    requires k < |ChordGroups(s)|
    ensures ChordGroups(s)[k].start + 3 <= ChordGroups(s)[k].end <= |s|
  {
    var groups := ChordGroups(s);
    assert IsFirstMatch(GroupLengths(s), Before(groups, k, 0), groups[k]);
  }

  /** Every chord token found lies inside the text. */
  lemma ChordBounds(s: string, k: nat)
    requires k < |Chords(s)|
    ensures Chords(s)[k].start < Chords(s)[k].end <= |s|
    ensures TokenLength(s, Chords(s)[k].start) == Chords(s)[k].end - Chords(s)[k].start
  {
    var spans := Chords(s);
    assert IsFirstMatch(TokenLengths(s), Before(spans, k, 0), spans[k]);
  }

  /** The content of a chord group (the regex's second capture group). */
  function GroupContent(s: string, g: Span): (content: string)
    requires g.start + 2 <= g.end - 1 && g.end <= |s|
    ensures |content| == g.end - g.start - 3
  {
    s[g.start + 2..g.end - 1]
  }
}
