/** The two last-star backtracking glob loops, and the matcher they implement. */
module Glob {
  import opened Wrappers
  import opened Text

  const STAR: byte := 42      // *
  const QUESTION: byte := 63  // ?

  /** The declarative matcher: `*` is any run, `?` any one byte. */
  ghost predicate Matches(pattern: seq<byte>, value: seq<byte>) {
    if pattern == [] then value == []
    else if pattern[0] == STAR then
      exists k :: 0 <= k <= |value| && Matches(pattern[1..], value[k..])
    else
      value != [] && (pattern[0] == QUESTION || pattern[0] == value[0]) && Matches(pattern[1..], value[1..])
  }

  predicate AllStars(pattern: seq<byte>) {
    forall i :: 0 <= i < |pattern| ==> pattern[i] == STAR
  }

  /** The last star seen and where its run ends for now. */
  datatype Star = NoStar | Star(pi: nat, vi: nat)

  /** The loop as a function of its variables. */
  function Greedy(pattern: seq<byte>, value: seq<byte>, pi: nat, vi: nat, star: Star): bool
    requires pi <= |pattern| && vi <= |value|
    requires star.Star? ==> star.pi < pi && star.vi <= vi
    decreases |pattern| - (if star.Star? then star.pi + 1 else 0), |value| - (if star.Star? then star.vi else 0), |value| - vi
  {
    if vi == |value| then AllStars(pattern[pi..])
    else if pi < |pattern| && (pattern[pi] == QUESTION || pattern[pi] == value[vi]) then
      Greedy(pattern, value, pi + 1, vi + 1, star)
    else if pi < |pattern| && pattern[pi] == STAR then
      Greedy(pattern, value, pi + 1, vi, Star(pi, vi))
    else if star.Star? then
      Greedy(pattern, value, star.pi + 1, star.vi + 1, Star(star.pi, star.vi + 1))
    else false
  }

  function GlobMatch(pattern: seq<byte>, value: seq<byte>): bool {
    Greedy(pattern, value, 0, 0, NoStar)
  }

  /** `usize::MAX` on the 64-bit targets; no slice is that long. */
  const USIZE_MAX: nat := 0xFFFF_FFFF_FFFF_FFFF

  function StarAt(pi: nat, vi: nat): Star {
    if pi == USIZE_MAX then NoStar else Star(pi, vi)
  }

  /** `TriggerConfig::glob_match_inner`, with its `usize::MAX` sentinel. */
  method GlobMatchInner(pattern: seq<byte>, value: seq<byte>) returns (matched: bool)
    requires |pattern| < USIZE_MAX
    ensures matched == GlobMatch(pattern, value)
    ensures STAR !in value ==> (matched <==> Matches(pattern, value))
  {
    var pi, vi := 0, 0;
    var starPi: nat, starVi: nat := USIZE_MAX, 0;
    if STAR !in value {
      GreedyIsExact(pattern, value);
    }
    while vi < |value|
      invariant 0 <= pi <= |pattern| && 0 <= vi <= |value|
      invariant starPi != USIZE_MAX ==> starPi < pi && starVi <= vi
      invariant Greedy(pattern, value, pi, vi, StarAt(starPi, starVi)) == GlobMatch(pattern, value)
      decreases |pattern| - (if starPi != USIZE_MAX then starPi + 1 else 0), |value| - (if starPi != USIZE_MAX then starVi else 0), |value| - vi
    {
      if pi < |pattern| && (pattern[pi] == QUESTION || pattern[pi] == value[vi]) {
        pi, vi := pi + 1, vi + 1;
      } else if pi < |pattern| && pattern[pi] == STAR {
        starPi, starVi := pi, vi;
        pi := pi + 1;
      } else if starPi != USIZE_MAX {
        pi := starPi + 1;
        starVi := starVi + 1;
        vi := starVi;
      } else {
        return false;
      }
    }
    matched := SkipStars(pattern, pi);
  }

  /** The loops' shared tail. */
  method SkipStars(pattern: seq<byte>, from: nat) returns (all: bool)
    requires from <= |pattern|
    ensures all == AllStars(pattern[from..])
  {
    var pi := from;
    while pi < |pattern| && pattern[pi] == STAR
      invariant from <= pi <= |pattern|
      invariant forall i :: from <= i < pi ==> pattern[i] == STAR
    {
      pi := pi + 1;
    }
    all := pi == |pattern|;
    if !all {
      assert pattern[from..][pi - from] != STAR;
    }
  }

  /** `segment_matches` in `artifact_pattern_matches`, with an optional star: the same
      answer as the other loop on every input. */
  method SegmentMatches(pattern: seq<byte>, value: seq<byte>) returns (matched: bool)
    ensures matched == GlobMatch(pattern, value)
    ensures STAR !in value ==> (matched <==> Matches(pattern, value))
  {
    var p, v := 0, 0;
    var star: Option<nat>, retry := None, 0;
    if STAR !in value {
      GreedyIsExact(pattern, value);
    }
    while v < |value|
      invariant 0 <= p <= |pattern| && 0 <= v <= |value|
      invariant star.Some? ==> star.value < p && retry <= v
      invariant Greedy(pattern, value, p, v, if star.Some? then Star(star.value, retry) else NoStar) == GlobMatch(pattern, value)
      decreases |pattern| - (if star.Some? then star.value + 1 else 0), |value| - (if star.Some? then retry else 0), |value| - v
    {
      if p < |pattern| && (pattern[p] == QUESTION || pattern[p] == value[v]) {
        p, v := p + 1, v + 1;
      } else if p < |pattern| && pattern[p] == STAR {
        star, retry := Some(p), v;
        p := p + 1;
      } else if star.Some? {
        p := star.value + 1;
        retry := retry + 1;
        v := retry;
      } else {
        return false;
      }
    }
    matched := SkipStars(pattern, p);
  }

  // ── Correctness ─────────────────────────────────────────────────

  /** Part of a pattern without stars takes exactly its own length. */
  lemma {:induction false} StarFree(pattern: seq<byte>, value: seq<byte>, a: nat, b: nat, k: nat)
    requires a <= b <= |pattern| && k <= |value|
    requires forall i :: a <= i < b ==> pattern[i] != STAR
    requires Matches(pattern[a..], value[k..])
    ensures k + (b - a) <= |value| && Matches(pattern[b..], value[k + (b - a)..])
    decreases b - a
  {
    if a < b {
      assert pattern[a..][1..] == pattern[a + 1..] && value[k..][1..] == value[k + 1..];
      StarFree(pattern, value, a + 1, b, k + 1);
    }
  }

  lemma {:induction false} OnlyStarsMatchEmpty(pattern: seq<byte>)
    ensures Matches(pattern, []) <==> AllStars(pattern)
  {
    if pattern != [] {
      OnlyStarsMatchEmpty(pattern[1..]);
      if pattern[0] == STAR {
        var nothing: seq<byte> := [];
        assert nothing[0..] == nothing;
        assert AllStars(pattern) <==> AllStars(pattern[1..]) by {
          assert forall i :: 0 < i < |pattern| ==> pattern[i] == pattern[1..][i - 1];
        }
      }
    }
  }

  lemma StarMatches(pattern: seq<byte>, value: seq<byte>, pi: nat, vi: nat)
    requires pi < |pattern| && vi <= |value| && pattern[pi] == STAR
    ensures Matches(pattern[pi..], value[vi..]) <==> exists k :: vi <= k <= |value| && Matches(pattern[pi + 1..], value[k..])
  {
    assert pattern[pi..][1..] == pattern[pi + 1..];
    forall k | 0 <= k <= |value| - vi
      ensures value[vi..][k..] == value[vi + k..]
    {
    }
    if k :| vi <= k <= |value| && Matches(pattern[pi + 1..], value[k..]) {
      assert value[vi..][k - vi..] == value[k..];
    }
  }

  ghost predicate From(pattern: seq<byte>, value: seq<byte>, pi: nat, vi: nat)
    requires pi <= |pattern| && vi <= |value|
  {
    Matches(pattern[pi..], value[vi..])
  }

  ghost predicate FromLater(pattern: seq<byte>, value: seq<byte>, pi: nat, after: nat)
    requires pi <= |pattern|
  {
    exists k :: after < k <= |value| && From(pattern, value, pi, k)
  }

  /** The last star could end its run later. */
  ghost predicate Retry(pattern: seq<byte>, value: seq<byte>, star: Star)
    requires star.Star? ==> star.pi < |pattern|
  {
    star.Star? && FromLater(pattern, value, star.pi + 1, star.vi)
  }

  /** What the loop keeps: since the last star, pattern and value advance together. */
  ghost predicate InStep(pattern: seq<byte>, pi: nat, vi: nat, star: Star) {
    && pi <= |pattern|
    && (star.Star? ==>
          && star.pi < pi && star.vi <= vi && pattern[star.pi] == STAR
          && vi - star.vi == pi - (star.pi + 1)
          && forall i :: star.pi < i < pi ==> pattern[i] != STAR)
  }

  lemma FromEnd(pattern: seq<byte>, value: seq<byte>, pi: nat)
    requires pi <= |pattern|
    ensures From(pattern, value, pi, |value|) <==> AllStars(pattern[pi..])
  {
    assert value[|value|..] == [];
    OnlyStarsMatchEmpty(pattern[pi..]);
  }

  /** With the value used up, ending the last run later would leave too little. */
  lemma NoRetryAtEnd(pattern: seq<byte>, value: seq<byte>, pi: nat, star: Star)
    requires InStep(pattern, pi, |value|, star)
    ensures !Retry(pattern, value, star)
  {
    if Retry(pattern, value, star) {
      var k :| star.vi < k <= |value| && From(pattern, value, star.pi + 1, k);
      StarFree(pattern, value, star.pi + 1, pi, k);
    }
  }

  /** At a new star, whatever ending the last run later could reach, this star can. */
  lemma NewStarCoversRetry(pattern: seq<byte>, value: seq<byte>, pi: nat, vi: nat, star: Star)
    requires InStep(pattern, pi, vi, star) && pi < |pattern| && vi <= |value| && pattern[pi] == STAR
    requires Retry(pattern, value, star)
    ensures From(pattern, value, pi, vi)
  {
    var k :| star.vi < k <= |value| && From(pattern, value, star.pi + 1, k);
    var end := k + (pi - (star.pi + 1));
    StarFree(pattern, value, star.pi + 1, pi, k);
    StarMatches(pattern, value, pi, end);
    StarMatches(pattern, value, pi, vi);
  }

  lemma OneByte(pattern: seq<byte>, value: seq<byte>, pi: nat, vi: nat)
    requires pi <= |pattern| && vi < |value|
    requires pi < |pattern| ==> pattern[pi] != STAR
    ensures From(pattern, value, pi, vi) <==>
      pi < |pattern| && (pattern[pi] == QUESTION || pattern[pi] == value[vi]) && From(pattern, value, pi + 1, vi + 1)
  {
    if pi < |pattern| {
      assert pattern[pi..][1..] == pattern[pi + 1..];
      assert value[vi..][1..] == value[vi + 1..];
    }
  }

  lemma StarNow(pattern: seq<byte>, value: seq<byte>, pi: nat, vi: nat)
    requires pi < |pattern| && vi <= |value| && pattern[pi] == STAR
    ensures From(pattern, value, pi, vi) <==> From(pattern, value, pi + 1, vi) || Retry(pattern, value, Star(pi, vi))
  {
    StarMatches(pattern, value, pi, vi);
    if From(pattern, value, pi, vi) {
      var k :| vi <= k <= |value| && Matches(pattern[pi + 1..], value[k..]);
      assert From(pattern, value, pi + 1, k);
    }
  }

  lemma RetryNow(pattern: seq<byte>, value: seq<byte>, star: Star)
    requires star.Star? && star.pi < |pattern| && star.vi < |value|
    ensures Retry(pattern, value, star) <==>
      From(pattern, value, star.pi + 1, star.vi + 1) || Retry(pattern, value, Star(star.pi, star.vi + 1))
  {
  }

  /** The loop's answer: the rest matches from here, or from a later end of the last
      star's run. Retrying only the last star loses nothing. */
  lemma {:induction false} GreedyMeaning(pattern: seq<byte>, value: seq<byte>, pi: nat, vi: nat, star: Star)
    requires STAR !in value
    requires vi <= |value| && InStep(pattern, pi, vi, star)
    ensures Greedy(pattern, value, pi, vi, star) <==> From(pattern, value, pi, vi) || Retry(pattern, value, star)
    decreases |pattern| - (if star.Star? then star.pi + 1 else 0), |value| - (if star.Star? then star.vi else 0), |value| - vi
  {
    if vi == |value| {
      FromEnd(pattern, value, pi);
      NoRetryAtEnd(pattern, value, pi, star);
    } else if pi < |pattern| && (pattern[pi] == QUESTION || pattern[pi] == value[vi]) {
      assert value[vi] in value;
      OneByte(pattern, value, pi, vi);
      GreedyMeaning(pattern, value, pi + 1, vi + 1, star);
    } else if pi < |pattern| && pattern[pi] == STAR {
      GreedyMeaning(pattern, value, pi + 1, vi, Star(pi, vi));
      StarNow(pattern, value, pi, vi);
      if Retry(pattern, value, star) {
        NewStarCoversRetry(pattern, value, pi, vi, star);
      }
    } else {
      OneByte(pattern, value, pi, vi);
      if star.Star? {
        GreedyMeaning(pattern, value, star.pi + 1, star.vi + 1, Star(star.pi, star.vi + 1));
        RetryNow(pattern, value, star);
      }
    }
  }

  /** For a value without a literal `*` the loop is the declarative matcher. */
  lemma GreedyIsExact(pattern: seq<byte>, value: seq<byte>)
    requires STAR !in value
    ensures GlobMatch(pattern, value) <==> Matches(pattern, value)
  {
    GreedyMeaning(pattern, value, 0, 0, NoStar);
    assert pattern[0..] == pattern && value[0..] == value;
  }

  // ── Where the loop is not the matcher ───────────────────────────

  function Questions(n: nat): seq<byte> {
    seq(n, _ => QUESTION)
  }

  lemma {:induction false} QuestionsMatch(value: seq<byte>)
    ensures Matches(Questions(|value|), value)
  {
    if value != [] {
      QuestionsMatch(value[1..]);
      assert Questions(|value|)[1..] == Questions(|value[1..]|);
    }
  }

  lemma {:induction false} PrefixMatches(head: seq<byte>, tail: seq<byte>, value: seq<byte>)
    requires STAR !in head
    requires Matches(tail, value)
    ensures Matches(head + tail, head + value)
  {
    if head == [] {
      assert head + tail == tail && head + value == value;
    } else {
      PrefixMatches(head[1..], tail, value);
      assert (head + tail)[1..] == head[1..] + tail && (head + value)[1..] == head[1..] + value;
    }
  }

  /** While the pattern covers the value byte for byte, the loop just walks. */
  lemma {:induction false} Walks(pattern: seq<byte>, value: seq<byte>, i: nat)
    requires i <= |value| < |pattern|
    requires forall t :: i <= t < |value| ==> pattern[t] == QUESTION || pattern[t] == value[t]
    ensures Greedy(pattern, value, i, i, NoStar) == AllStars(pattern[|value|..])
    decreases |value| - i
  {
    if i < |value| {
      Walks(pattern, value, i + 1);
    }
  }

  function Misjudged(value: seq<byte>, k: nat): seq<byte>
    requires k <= |value|
  {
    value[..k] + ([STAR] + Questions(|value| - k))
  }

  lemma EmptyStar(tail: seq<byte>, value: seq<byte>)
    requires Matches(tail, value)
    ensures Matches([STAR] + tail, value)
  {
    assert ([STAR] + tail)[1..] == tail && value[0..] == value;
  }

  lemma MisjudgedMatches(pattern: seq<byte>, value: seq<byte>, head: seq<byte>, tail: seq<byte>)
    requires STAR !in head
    requires pattern == head + ([STAR] + Questions(|tail|)) && value == head + tail
    ensures Matches(pattern, value)
  {
    QuestionsMatch(tail);
    EmptyStar(Questions(|tail|), tail);
    PrefixMatches(head, [STAR] + Questions(|tail|), tail);
  }

  lemma MisjudgedRefused(value: seq<byte>, k: nat)
    requires k < |value| && value[k] == STAR
    ensures !GlobMatch(Misjudged(value, k), value)
  {
    var pattern := Misjudged(value, k);
    assert forall t :: 0 <= t < k ==> pattern[t] == value[t];
    assert forall t :: k < t <= |value| ==> pattern[t] == QUESTION;
    Walks(pattern, value, 0);
    assert pattern[|value|..][0] == QUESTION;
  }

  /** Against a value with a `*` some pattern is misjudged: the pattern's `*`, which
      should stand for nothing, is used up by the value's own `*`. */
  lemma LiteralStarMisjudged(value: seq<byte>) returns (pattern: seq<byte>)
    requires STAR in value
    ensures Matches(pattern, value) && !GlobMatch(pattern, value)
  {
    var k := FirstStar(value);
    pattern := Misjudged(value, k);
    MisjudgedRefused(value, k);
    assert value == value[..k] + value[k..];
    MisjudgedMatches(pattern, value, value[..k], value[k..]);
  }

  lemma {:induction false} FirstStar(value: seq<byte>) returns (k: nat)
    requires STAR in value
    ensures k < |value| && value[k] == STAR && STAR !in value[..k]
  {
    if value[0] == STAR {
      k := 0;
    } else {
      assert value == [value[0]] + value[1..];
      var rest := FirstStar(value[1..]);
      k := rest + 1;
      assert value[..k] == [value[0]] + value[1..][..rest];
    }
  }

  /** Exactly when the loop can be trusted with every pattern: the value has no `*`. */
  lemma ExactIffNoLiteralStar(value: seq<byte>)
    ensures (forall pattern :: GlobMatch(pattern, value) <==> Matches(pattern, value)) <==> STAR !in value
  {
    if STAR in value {
      var pattern := LiteralStarMisjudged(value);
    } else {
      forall pattern
        ensures GlobMatch(pattern, value) <==> Matches(pattern, value)
      {
        GreedyIsExact(pattern, value);
      }
    }
  }
}
