/** Replacing matches in a text. `Splice` is what `re.sub` computes from a list of matches and
    their replacements: the text between matches is kept, each match is replaced. `Edited` is
    the same thing stopped at the end of a given match, which is what an in-place loop over the
    matches has built so far. */
module Substitution {
  import opened Results
  import opened Grammar

  /** A prefix of ordered spans is ordered, and its search positions are those of the whole. */
  lemma OrderedPrefix(spans: seq<Span>, from: nat, n: nat, k: nat)
    requires Ordered(spans, from, n) && k <= |spans|
    ensures Ordered(spans[..k], from, n)
    ensures forall j | 0 <= j <= k :: Before(spans[..k], j, from) == Before(spans, j, from)
  {
    forall j | 0 <= j <= k
      ensures Before(spans[..k], j, from) == Before(spans, j, from)
    {
    }
    forall j | 0 <= j < k
      ensures Before(spans[..k], j, from) <= spans[..k][j].start <= spans[..k][j].end <= n
    {
      assert Before(spans, j, from) <= spans[j].start <= spans[j].end <= n;
    }
    if 0 < k {
      OrderedAt(spans, from, n, k - 1);
    }
  }

  /** The last span of ordered spans lies between the previous one and the end. */
  lemma OrderedAt(spans: seq<Span>, from: nat, n: nat, k: nat)
    requires Ordered(spans, from, n) && k < |spans|
    ensures from <= Before(spans, k, from) <= spans[k].start <= spans[k].end == Before(spans, k + 1, from) <= n
  {
    if 0 < k {
      OrderedAt(spans, from, n, k - 1);
    }
  }

  lemma SliceJoin(s: string, a: nat, b: nat, c: nat)
    requires a <= b <= c <= |s|
    ensures s[a..b] + s[b..c] == s[a..c]
  {
  }

  /** The text from `from` up to the end of the last span, every span replaced. */
  function Edited(s: string, spans: seq<Span>, reps: seq<string>, from: nat): (r: string)
    requires |reps| == |spans| && Ordered(spans, from, |s|)
    decreases |spans|
  {
    if spans == [] then []
    else
      var k := |spans| - 1;
      OrderedPrefix(spans, from, |s|, k);
      OrderedAt(spans, from, |s|, k);
      Edited(s, spans[..k], reps[..k], from) + s[Before(spans, k, from)..spans[k].start] + reps[k]
  }

  /** The whole text from `from` on, every span replaced. */
  function Splice(s: string, spans: seq<Span>, reps: seq<string>, from: nat): string
    requires |reps| == |spans| && Ordered(spans, from, |s|)
  {
    Edited(s, spans, reps, from) + s[Before(spans, |spans|, from)..]
  }

  /** The texts the spans cover. */
  function Covered(s: string, spans: seq<Span>, from: nat): (texts: seq<string>)
    requires Ordered(spans, from, |s|)
    ensures |texts| == |spans|
  {
    seq(|spans|, k requires 0 <= k < |spans| => OrderedAt(spans, from, |s|, k); s[spans[k].start..spans[k].end])
  }

  /** The text covered by span k. */
  lemma CoveredAt(s: string, spans: seq<Span>, from: nat, k: nat)
    requires Ordered(spans, from, |s|) && k < |spans|
    ensures spans[k].start <= spans[k].end <= |s|
    ensures Covered(s, spans, from)[k] == s[spans[k].start..spans[k].end]
  {
    OrderedAt(spans, from, |s|, k);
  }

  /** How much longer all replacements together are than the spans they replace. */
  function Growth(spans: seq<Span>, reps: seq<string>): int
    requires |reps| == |spans|
    decreases |spans|
  {
    if spans == [] then 0
    else
      var k := |spans| - 1;
      Growth(spans[..k], reps[..k]) + |reps[k]| - (spans[k].end - spans[k].start)
  }

  /** Adding one more replacement to what is edited so far. */
  lemma EditedStep(s: string, spans: seq<Span>, reps: seq<string>, from: nat, k: nat)
    requires |reps| == |spans| && Ordered(spans, from, |s|) && k < |spans|
    ensures Ordered(spans[..k], from, |s|) && Ordered(spans[..k + 1], from, |s|)
    ensures Before(spans, k, from) <= spans[k].start <= spans[k].end <= |s|
    ensures Edited(s, spans[..k + 1], reps[..k + 1], from) ==
      Edited(s, spans[..k], reps[..k], from) + s[Before(spans, k, from)..spans[k].start] + reps[k]
  {
    OrderedPrefix(spans, from, |s|, k);
    OrderedPrefix(spans, from, |s|, k + 1);
    OrderedAt(spans, from, |s|, k);
    assert spans[..k + 1][..k] == spans[..k];
    assert reps[..k + 1][..k] == reps[..k];
  }

  /** The length of the edited text: the original length up to the end of the last span,
      corrected by how much each replacement is longer than what it replaced. */
  lemma {:induction false} EditedLength(s: string, spans: seq<Span>, reps: seq<string>, from: nat)
    requires |reps| == |spans| && Ordered(spans, from, |s|)
    ensures |Edited(s, spans, reps, from)| == Before(spans, |spans|, from) - from + Growth(spans, reps)
    decreases |spans|
  {
    if spans != [] {
      var k := |spans| - 1;
      EditedStep(s, spans, reps, from, k);
      assert spans[..k + 1] == spans && reps[..k + 1] == reps;
      OrderedPrefix(spans, from, |s|, k);
      EditedLength(s, spans[..k], reps[..k], from);
    }
  }

  /** The texts covered by a prefix of the spans are a prefix of the covered texts. */
  lemma CoveredPrefix(s: string, spans: seq<Span>, from: nat, k: nat)
    requires Ordered(spans, from, |s|) && k <= |spans|
    ensures Ordered(spans[..k], from, |s|)
    ensures Covered(s, spans, from)[..k] == Covered(s, spans[..k], from)
  {
    OrderedPrefix(spans, from, |s|, k);
  }

  /** Replacing every span by the text it covers gives back the text up to the last span. */
  lemma {:induction false} EditedOfOriginal(s: string, spans: seq<Span>, from: nat)
    requires Ordered(spans, from, |s|)
    ensures from <= Before(spans, |spans|, from) <= |s|
    ensures Edited(s, spans, Covered(s, spans, from), from) == s[from..Before(spans, |spans|, from)]
    decreases |spans|
  {
    if spans == [] {
    } else {
      var k := |spans| - 1;
      var reps := Covered(s, spans, from);
      EditedStep(s, spans, reps, from, k);
      assert spans[..k + 1] == spans && reps[..k + 1] == reps;
      CoveredPrefix(s, spans, from, k);
      EditedOfOriginal(s, spans[..k], from);
      OrderedPrefix(spans, from, |s|, k);
      OrderedAt(spans, from, |s|, k);
      SliceJoin(s, from, Before(spans, k, from), spans[k].start);
      SliceJoin(s, from, spans[k].start, spans[k].end);
    }
  }

  /** Replacing every span by the text it covers gives the text back. */
  lemma SpliceOfOriginalIsIdentity(s: string, spans: seq<Span>, from: nat)
    requires Ordered(spans, from, |s|)
    ensures Splice(s, spans, Covered(s, spans, from), from) == s[from..]
  {
    EditedOfOriginal(s, spans, from);
    SliceJoin(s, from, Before(spans, |spans|, from), |s|);
  }

  /** Replacing spans in place, one at a time: the text is an edited prefix `e`, which is
      `shift` longer than the original text up to b, followed by the original text from b.
      The span [start, end) of the original text, at or after b, now lies `shift` further on
      and still holds its original text. */
  lemma ShiftedSpan(s: string, b: nat, e: string, line: string, start: nat, end: nat, shift: int)
    requires b <= start <= end <= |s| && |e| == b + shift && line == e + s[b..]
    ensures 0 <= start + shift <= end + shift <= |line|
    ensures line[start + shift..end + shift] == s[start..end]
  {
    JoinSlices(e, s[b..], start + shift, end + shift, start - b, end - b);
    SuffixSlices(s, b, start - b, end - b);
  }

  /** Replacing that span there extends the edited prefix up to its end. */
  lemma ReplaceStep(s: string, b: nat, e: string, line: string, start: nat, end: nat, shift: int, t: string)
    requires b <= start <= end <= |s| && |e| == b + shift && line == e + s[b..]
    ensures 0 <= start + shift <= end + shift <= |line|
    ensures line[..start + shift] + t + line[end + shift..] == e + s[b..start] + t + s[end..]
  {
    JoinSlices(e, s[b..], start + shift, end + shift, start - b, end - b);
    SuffixSlices(s, b, start - b, end - b);
  }

  /** Cutting a joined text after its first part cuts the second part. */
  lemma JoinSlices(e: string, rest: string, i: int, f: int, x: int, y: int)
    requires 0 <= x <= y <= |rest| && i == |e| + x && f == |e| + y
    ensures (e + rest)[..i] == e + rest[..x]
    ensures (e + rest)[i..f] == rest[x..y]
    ensures (e + rest)[f..] == rest[y..]
  {
  }

  /** Slices of a suffix are slices of the whole. */
  lemma SuffixSlices(s: string, b: nat, x: nat, y: nat)
    requires b + y <= |s| && x <= y
    ensures s[b..][..x] == s[b..b + x]
    ensures s[b..][x..y] == s[b + x..b + y]
    ensures s[b..][y..] == s[b + y..]
  {
  }

  /** The edit over one more span. */
  lemma ExtendEdit(s: string, spans: seq<Span>, done: seq<string>, k: nat, t: string)
    requires Ordered(spans, 0, |s|) && k < |spans| && |done| == k
    ensures Ordered(spans[..k], 0, |s|) && Ordered(spans[..k + 1], 0, |s|)
    ensures Before(spans, k, 0) <= spans[k].start <= spans[k].end == Before(spans, k + 1, 0) <= |s|
    ensures Edited(s, spans[..k + 1], done + [t], 0) ==
      Edited(s, spans[..k], done, 0) + s[Before(spans, k, 0)..spans[k].start] + t
  {
    var head := spans[..k + 1];
    var reps := done + [t];
    OrderedPrefix(spans, 0, |s|, k);
    OrderedPrefix(spans, 0, |s|, k + 1);
    OrderedAt(spans, 0, |s|, k);
    EditedStep(s, head, reps, 0, k);
    assert head[..k + 1] == head && reps[..k + 1] == reps;
    assert head[..k] == spans[..k] && reps[..k] == done;
  }

  /** The growth over one more span. */
  lemma ExtendGrowth(spans: seq<Span>, done: seq<string>, k: nat, t: string)
    requires k < |spans| && |done| == k
    ensures Growth(spans[..k + 1], done + [t]) == Growth(spans[..k], done) + |t| - (spans[k].end - spans[k].start)
  {
    var head := spans[..k + 1];
    var reps := done + [t];
    assert head[..k] == spans[..k] && reps[..k] == done;
  }

  // One pass of the in-place replacement loop over the spans of s. Before pass k the text
  // being edited is the edit of the first k spans followed by the rest of s, and `shift` is how
  // much longer the replacements so far are than what they replaced.

  /** The length of the text edited up to span k. */
  lemma EditedPrefixLength(s: string, spans: seq<Span>, k: nat, done: seq<string>)
    requires Ordered(spans, 0, |s|) && k <= |spans| && |done| == k
    ensures Ordered(spans[..k], 0, |s|)
    ensures |Edited(s, spans[..k], done, 0)| == Before(spans, k, 0) + Growth(spans[..k], done)
  {
    OrderedPrefix(spans, 0, |s|, k);
    EditedLength(s, spans[..k], done, 0);
  }

  /** Pass k finds the text of span k at its position moved by `shift`. */
  lemma PassFinds(s: string, spans: seq<Span>, k: nat, done: seq<string>, edited: string, shift: int)
    requires Ordered(spans, 0, |s|) && k < |spans| && Ordered(spans[..k], 0, |s|) && |done| == k
    requires edited == Edited(s, spans[..k], done, 0) + s[Before(spans, k, 0)..]
    requires shift == Growth(spans[..k], done)
    ensures 0 <= spans[k].start + shift <= spans[k].end + shift <= |edited|
    ensures edited[spans[k].start + shift..spans[k].end + shift] == Covered(s, spans, 0)[k]
  {
    OrderedAt(spans, 0, |s|, k);
    EditedPrefixLength(s, spans, k, done);
    ShiftedSpan(s, Before(spans, k, 0), Edited(s, spans[..k], done, 0), edited, spans[k].start, spans[k].end, shift);
    CoveredAt(s, spans, 0, k);
  }

  /** Replacing the text of span k by t leaves the same description true of k + 1 spans. */
  lemma PassReplaces(s: string, spans: seq<Span>, k: nat, done: seq<string>, edited: string, shift: int, t: string)
    requires Ordered(spans, 0, |s|) && k < |spans| && Ordered(spans[..k], 0, |s|) && |done| == k
    requires edited == Edited(s, spans[..k], done, 0) + s[Before(spans, k, 0)..]
    requires shift == Growth(spans[..k], done)
    ensures Ordered(spans[..k + 1], 0, |s|)
    ensures 0 <= spans[k].start + shift <= spans[k].end + shift <= |edited|
    ensures edited[..spans[k].start + shift] + t + edited[spans[k].end + shift..] ==
      Edited(s, spans[..k + 1], done + [t], 0) + s[Before(spans, k + 1, 0)..]
    ensures shift + |t| - (spans[k].end - spans[k].start) == Growth(spans[..k + 1], done + [t])
  {
    ExtendEdit(s, spans, done, k, t);
    EditedPrefixLength(s, spans, k, done);
    var e := Edited(s, spans[..k], done, 0);
    var e1 := Edited(s, spans[..k + 1], done + [t], 0);
    ReplaceStep(s, Before(spans, k, 0), e, edited, spans[k].start, spans[k].end, shift, t);
    assert e1 + s[Before(spans, k + 1, 0)..] == e + s[Before(spans, k, 0)..spans[k].start] + t + s[spans[k].end..];
    ExtendGrowth(spans, done, k, t);
  }

  /** Every span of s replaced by `replace` of the text it covers, the text between spans kept,
      as a single substitution (`re.sub` with a callback); the first span `replace` fails on is
      the failure. */
  function Replaced(s: string, spans: seq<Span>, replace: string -> Result<string>): Result<string>
    requires Ordered(spans, 0, |s|)
  {
    var replaced :- MapUntilFailure(Covered(s, spans, 0), replace);
    Ok(Splice(s, spans, replaced, 0))
  }

  /** The substitution fails with the error of the first span `replace` fails on. */
  lemma ReplacedFails(s: string, spans: seq<Span>, replace: string -> Result<string>, k: nat, done: seq<string>,
                      chord: string, e: Error)
    requires Ordered(spans, 0, |s|) && k < |spans|
    requires MapUntilFailure(Covered(s, spans, 0)[..k], replace) == Ok(done)
    requires chord == Covered(s, spans, 0)[k] && replace(chord) == Err(e)
    ensures Replaced(s, spans, replace) == Err(e)
  {
    var chords := Covered(s, spans, 0);
    MapStopsAt(chords, k, |chords|, replace, done);
    assert chords[..|chords|] == chords;
  }

  /** When `replace` succeeds on every span, the substitution is the text edited up to the last
      span followed by the rest. */
  lemma ReplacedSucceeds(s: string, spans: seq<Span>, replace: string -> Result<string>, done: seq<string>, edited: string)
    requires Ordered(spans, 0, |s|) && Ordered(spans[..|spans|], 0, |s|) && |done| == |spans|
    requires MapUntilFailure(Covered(s, spans, 0)[..|spans|], replace) == Ok(done)
    requires edited == Edited(s, spans[..|spans|], done, 0) + s[Before(spans, |spans|, 0)..]
    ensures Replaced(s, spans, replace) == Ok(edited)
  {
    var chords := Covered(s, spans, 0);
    assert spans[..|spans|] == spans && chords[..|spans|] == chords;
  }

  /** When `replace` turns the text of each span into the replacement at the same position,
      the substitution splices those replacements in. */
  lemma ReplacedBy(s: string, spans: seq<Span>, replace: string -> Result<string>, reps: seq<string>)
    requires Ordered(spans, 0, |s|) && |reps| == |spans|
    requires forall i | 0 <= i < |spans| :: replace(Covered(s, spans, 0)[i]) == Ok(reps[i])
    ensures Replaced(s, spans, replace) == Ok(Splice(s, spans, reps, 0))
  {
    var texts := Covered(s, spans, 0);
    MapElementwise(texts, replace);
    assert MapUntilFailure(texts, replace).value == reps;
  }

  /** The in-place replacement loop: each span is replaced in the text being edited, at its
      original position shifted by how much longer the replacements so far are than what they
      replaced (`pos_difference`). */
  method ReplaceInPlace(s: string, spans: seq<Span>, replace: string -> Result<string>) returns (r: Result<string>)
    requires Ordered(spans, 0, |s|)
    ensures r == Replaced(s, spans, replace)
  {
    ghost var chords := Covered(s, spans, 0);
    var edited := s;
    var posDifference := 0;
    ghost var done: seq<string> := [];
    OrderedPrefix(spans, 0, |s|, 0);
    assert chords[..0] == [];
    for k := 0 to |spans|
      invariant Ordered(spans[..k], 0, |s|) && |done| == k
      invariant edited == Edited(s, spans[..k], done, 0) + s[Before(spans, k, 0)..]
      invariant posDifference == Growth(spans[..k], done)
      invariant MapUntilFailure(chords[..k], replace) == Ok(done)
    {
      PassFinds(s, spans, k, done, edited, posDifference);
      var initialPos := spans[k].start + posDifference;
      var finalPos := spans[k].end + posDifference;
      var chord := edited[initialPos..finalPos];
      var transposed := replace(chord);
      MapStep(chords, k, replace, done);
      if transposed.Err? {
        ReplacedFails(s, spans, replace, k, done, chord, transposed.error);
        return Err(transposed.error);
      }
      PassReplaces(s, spans, k, done, edited, posDifference, transposed.value);
      posDifference := posDifference + |transposed.value| - |chord|;
      edited := edited[..initialPos] + transposed.value + edited[finalPos..];
      done := done + [transposed.value];
    }
    ReplacedSucceeds(s, spans, replace, done, edited);
    return Ok(edited);
  }
}
