/** Text whose only references are secrets, put together from parts. */
module SecretText {
  import opened Wrappers
  import opened Text
  import opened References

  /** What `parse_secret_references` accepts. */
  predicate SecretsOnly(text: string) {
    SecretsFrom(text, 0).Secrets?
  }

  // ── Occurrences in a concatenation ──────────────────────────────

  lemma OccursBehind(a: string, b: string, needle: string, k: int)
    requires k >= 0
    ensures OccursAt(a + b, needle, |a| + k) <==> OccursAt(b, needle, k)
  {
    if k <= |b| - |needle| {
      assert (a + b)[|a| + k..|a| + k + |needle|] == b[k..k + |needle|];
    }
  }

  lemma OccursInFront(a: string, b: string, needle: string, k: int)
    requires 0 <= k <= |a| - |needle|
    ensures OccursAt(a + b, needle, k) <==> OccursAt(a, needle, k)
  {
    assert (a + b)[k..k + |needle|] == a[k..k + |needle|];
  }

  lemma FindIs(s: string, needle: string, from: nat, k: nat)
    requires from <= k && OccursAt(s, needle, k)
    requires forall j :: from <= j < k ==> !OccursAt(s, needle, j)
    ensures from <= |s| && FindFrom(s, needle, from) == Some(k)
  {
    hide OccursAt;
    assert from <= |s| by {
      Occurs(s, needle, k);
    }
    var found := FindFrom(s, needle, from);
  }

  lemma Occurs(s: string, needle: string, k: nat)
    requires OccursAt(s, needle, k)
    ensures k + |needle| <= |s|
  {
  }

  lemma FindBehind(a: string, b: string, needle: string, k: nat)
    requires k <= |b|
    ensures
      var found := FindFrom(b, needle, k);
      FindFrom(a + b, needle, |a| + k) == if found.None? then None else Some(|a| + found.value)
  {
    hide OccursAt, FindFrom;
    var found := FindFrom(b, needle, k);
    forall j: int | j >= 0
      ensures OccursAt(a + b, needle, |a| + j) <==> OccursAt(b, needle, j)
    {
      OccursBehind(a, b, needle, j);
    }
    var whole := FindFrom(a + b, needle, |a| + k);
    if whole.Some? {
      assert OccursAt(b, needle, whole.value - |a|);
    }
    if found.Some? {
      assert OccursAt(a + b, needle, |a| + found.value);
    }
  }

  /** What is found in the front part is found in the whole. */
  lemma FindInFront(a: string, b: string, needle: string, k: nat)
    requires k <= |a| && FindFrom(a, needle, k).Some?
    ensures FindFrom(a + b, needle, k) == FindFrom(a, needle, k)
  {
    hide FindFrom;
    var found := FindFrom(a, needle, k).value;
    OccursInFront(a, b, needle, found);
    forall j | k <= j < found
      ensures !OccursAt(a + b, needle, j)
    {
      OccursInFront(a, b, needle, j);
    }
    FindIs(a + b, needle, k, found);
  }

  // ── References in a concatenation ───────────────────────────────

  ghost function Shifted(next: Next, shift: nat): Next {
    if next.Found? then Found(next.start + shift, next.to + shift) else next
  }

  lemma NextBehind(a: string, b: string, k: nat)
    requires k <= |b|
    ensures NextReference(a + b, |a| + k) == Shifted(NextReference(b, k), |a|)
  {
    hide FindFrom;
    FindBehind(a, b, OPEN, k);
    var open := FindFrom(b, OPEN, k);
    if open.Some? {
      Occurs(b, OPEN, open.value);
      FindBehind(a, b, CLOSE, open.value + 3);
    }
  }

  lemma NextInFront(a: string, b: string, k: nat)
    requires k <= |a| && NextReference(a, k).Found?
    ensures NextReference(a + b, k) == NextReference(a, k)
  {
    hide FindFrom;
    FindInFront(a, b, OPEN, k);
    var open := FindFrom(a, OPEN, k).value;
    Occurs(a, OPEN, open);
    FindInFront(a, b, CLOSE, open + 3);
  }

  /** With no `${{` left in the front part, and none across the seam, the search goes on
      in the back part. */
  lemma NextAcross(a: string, b: string, k: nat)
    requires k <= |a| && NextReference(a, k).NoMore?
    requires b != [] ==> b[0] != '{'
    ensures NextReference(a + b, k) == NextReference(a + b, |a|)
  {
    hide FindFrom;
    forall j | k <= j < |a|
      ensures !OccursAt(a + b, OPEN, j)
    {
      if j + 3 <= |a| {
        OccursInFront(a, b, OPEN, j);
      } else if j + 3 <= |a + b| {
        assert (a + b)[j..j + 3][|a| - j] == (a + b)[|a|] == b[0];
        assert OPEN[1] == '{' && OPEN[2] == '{';
      }
    }
    SameFind(a + b, OPEN, k, |a|);
  }

  lemma SameFind(s: string, needle: string, k: nat, from: nat)
    requires k <= from <= |s|
    requires forall j :: k <= j < from ==> !OccursAt(s, needle, j)
    ensures FindFrom(s, needle, k) == FindFrom(s, needle, from)
  {
    hide OccursAt, FindFrom;
    var found := FindFrom(s, needle, from);
    var whole := FindFrom(s, needle, k);
    if whole.Some? && whole.value < from {
      assert false;
    }
  }

  lemma BodySame(a: string, b: string, from: nat, to: nat)
    requires from <= to
    ensures to <= |b| ==> Body(a + b, |a| + from, |a| + to) == Body(b, from, to)
    ensures to <= |a| ==> Body(a + b, from, to) == Body(a, from, to)
  {
    hide Trim;
    if to <= |b| {
      assert (a + b)[|a| + from..|a| + to] == b[from..to];
    }
    if to <= |a| {
      assert (a + b)[from..to] == a[from..to];
    }
  }

  lemma {:induction false} SecretsBehind(a: string, b: string, k: nat)
    requires k <= |b|
    ensures SecretsFrom(a + b, |a| + k).Secrets? <==> SecretsFrom(b, k).Secrets?
    decreases |b| - k
  {
    hide NextReference, Body, SecretName;
    NextBehind(a, b, k);
    var next := NextReference(b, k);
    if next.Found? {
      BodySame(a, b, next.start + 3, next.to);
      SecretsBehind(a, b, next.to + 2);
    }
  }

  lemma {:induction false} SecretsAcross(a: string, b: string, k: nat)
    requires k <= |a| && SecretsFrom(a, k).Secrets?
    requires SecretsOnly(b) && (b != [] ==> b[0] != '{')
    ensures SecretsFrom(a + b, k).Secrets?
    decreases |a| - k
  {
    hide NextReference, Body, SecretName;
    var next := NextReference(a, k);
    if next.Found? {
      NextInFront(a, b, k);
      BodySame(a, b, next.start + 3, next.to);
      SecretsAcross(a, b, next.to + 2);
    } else {
      NextAcross(a, b, k);
      SecretsBehind(a, b, 0);
      SameNext(a + b, k, |a|);
    }
  }

  lemma SameNext(s: string, k: nat, from: nat)
    requires k <= |s| && from <= |s| && NextReference(s, k) == NextReference(s, from)
    ensures SecretsFrom(s, k) == SecretsFrom(s, from)
  {
    hide NextReference, Body, SecretName;
  }

  /** Secret text put after secret text is secret text, if no `{` meets the seam. */
  lemma SecretsConcat(a: string, b: string)
    requires SecretsOnly(a) && SecretsOnly(b)
    requires b != [] ==> b[0] != '{'
    ensures SecretsOnly(a + b)
  {
    hide SecretsFrom;
    SecretsAcross(a, b, 0);
  }

  /** Without `${{` there is nothing to refuse. */
  lemma NoReference(text: string)
    requires FindFrom(text, OPEN, 0).None?
    ensures SecretsOnly(text)
  {
    hide FindFrom;
  }

  lemma NoDollar(text: string)
    requires '$' !in text
    ensures SecretsOnly(text)
  {
    hide FindFrom;
    forall k
      ensures !OccursAt(text, OPEN, k)
    {
      if 0 <= k <= |text| - 3 {
        assert text[k..k + 3][0] == text[k];
      }
    }
    NoReference(text);
  }

  // ── Trimming ────────────────────────────────────────────────────

  lemma BlanksInFront(a: string, b: string)
    requires '$' !in a
    ensures SecretsOnly(a + b) <==> SecretsOnly(b)
  {
    hide FindFrom, NextReference, SecretsFrom;
    forall j | 0 <= j < |a|
      ensures !OccursAt(a + b, OPEN, j)
    {
      if j <= |a + b| - 3 {
        assert (a + b)[j..j + 3][0] == a[j];
      }
    }
    SameFind(a + b, OPEN, 0, |a|);
    NextFrom(a + b, 0, |a|);
    SameNext(a + b, 0, |a|);
    SecretsBehind(a, b, 0);
  }

  lemma NextFrom(s: string, k: nat, from: nat)
    requires k <= |s| && from <= |s| && FindFrom(s, OPEN, k) == FindFrom(s, OPEN, from)
    ensures NextReference(s, k) == NextReference(s, from)
  {
    hide FindFrom;
  }

  predicate IsMark(c: char) {
    c == '$' || c == '{' || c == '}'
  }

  /** Nothing found reaches into a back part without marks. */
  lemma FindBeforeBlanks(a: string, b: string, needle: string, k: nat)
    requires k <= |a| && needle != []
    requires forall i :: 0 <= i < |needle| ==> IsMark(needle[i])
    requires forall i :: 0 <= i < |b| ==> !IsMark(b[i])
    ensures FindFrom(a + b, needle, k) == FindFrom(a, needle, k)
  {
    hide FindFrom, IsMark;
    forall j | 0 <= j
      ensures OccursAt(a + b, needle, j) ==> OccursAt(a, needle, j)
    {
      var last := j + |needle| - 1;
      if last < |a| {
        OccursInFront(a, b, needle, j);
      } else if last < |a + b| {
        assert (a + b)[j..j + |needle|][|needle| - 1] == (a + b)[last] == b[last - |a|];
      }
    }
    var found := FindFrom(a, needle, k);
    if found.Some? {
      FindInFront(a, b, needle, k);
    }
  }

  lemma NextBeforeBlanks(a: string, b: string, k: nat)
    requires k <= |a|
    requires forall i :: 0 <= i < |b| ==> !IsMark(b[i])
    ensures NextReference(a + b, k) == NextReference(a, k)
  {
    hide FindFrom, IsMark;
    MarksAreMarks();
    FindBeforeBlanks(a, b, OPEN, k);
    var open := FindFrom(a, OPEN, k);
    if open.Some? {
      Occurs(a, OPEN, open.value);
      FindBeforeBlanks(a, b, CLOSE, open.value + 3);
    }
  }

  lemma {:induction false} BlanksBehind(a: string, b: string, k: nat)
    requires k <= |a| && SecretsFrom(a + b, k).Secrets?
    requires forall i :: 0 <= i < |b| ==> !IsMark(b[i])
    ensures SecretsFrom(a, k).Secrets?
    decreases |a| - k
  {
    hide NextReference, Body, SecretName, IsMark;
    NextBeforeBlanks(a, b, k);
    var next := NextReference(a, k);
    if next.Found? {
      BodySame(a, b, next.start + 3, next.to);
      BlanksBehind(a, b, next.to + 2);
    }
  }

  lemma MarksAreMarks()
    ensures forall i :: 0 <= i < |OPEN| ==> IsMark(OPEN[i])
    ensures forall i :: 0 <= i < |CLOSE| ==> IsMark(CLOSE[i])
  {
  }

  /** Trimming secret text leaves secret text. */
  lemma SecretsTrim(text: string)
    requires SecretsOnly(text)
    ensures SecretsOnly(Trim(text))
  {
    hide SecretsFrom, TrimStart, TrimEnd, IsSpace, SecretsOnly;
    var inner := TrimStart(text);
    TrimStartIs(text);
    TrimEndIs(inner);
    var lead := text[..|text| - |inner|];
    assert text == lead + inner;
    NoDollarInBlanks(lead);
    BlanksInFront(lead, inner);
    var trimmed := TrimEnd(inner);
    var tail := inner[|trimmed|..];
    assert inner == trimmed + tail;
    forall i | 0 <= i < |tail|
      ensures !IsMark(tail[i])
    {
      assert tail[i] == inner[|trimmed| + i];
      MarkIsNoBlank(tail[i]);
    }
    SecretsOnlyIs(inner);
    BlanksBehind(trimmed, tail, 0);
    SecretsOnlyIs(trimmed);
  }

  lemma SecretsOnlyIs(text: string)
    ensures SecretsOnly(text) <==> SecretsFrom(text, 0).Secrets?
  {
  }

  lemma MarkIsNoBlank(c: char)
    requires IsSpace(c)
    ensures !IsMark(c)
  {
  }

  lemma NoDollarInBlanks(text: string)
    requires forall i :: 0 <= i < |text| ==> IsSpace(text[i])
    ensures '$' !in text
  {
  }

  /** Blanks around a text make no reference of it. */
  lemma SecretsUntrim(text: string)
    requires SecretsOnly(Trim(text))
    ensures SecretsOnly(text)
  {
    hide SecretsFrom, TrimStart, TrimEnd, IsSpace, SecretsOnly;
    var inner := TrimStart(text);
    TrimStartIs(text);
    TrimEndIs(inner);
    var trimmed := TrimEnd(inner);
    var lead, tail := text[..|text| - |inner|], inner[|trimmed|..];
    assert text == lead + inner && inner == trimmed + tail;
    NoDollarInBlanks(lead);
    forall i | 0 <= i < |tail|
      ensures IsSpace(tail[i])
    {
      assert tail[i] == inner[|trimmed| + i];
    }
    NoDollarInBlanks(tail);
    NoDollar(tail);
    if tail != [] {
      MarkIsNoBlank(tail[0]);
      assert tail[0] != '{' by {
        BraceIsMark();
      }
    }
    SecretsConcat(trimmed, tail);
    BlanksInFront(lead, inner);
  }

  lemma BraceIsMark()
    ensures IsMark('{')
  {
  }
}
