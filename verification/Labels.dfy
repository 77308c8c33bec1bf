/** Runner labels: normalized, sorted, each once. */
module Labels {
  import opened Wrappers
  import opened Text

  const MAX_RUNNER_LABELS: nat := 32
  const MAX_RUNNER_LABEL_LENGTH: nat := 64

  function LowerAscii(s: string): (r: string)
    ensures |r| == |s|
  {
    seq(|s|, i requires 0 <= i < |s| => if 'A' <= s[i] <= 'Z' then (s[i] as int + 32) as char else s[i])
  }

  predicate IsLabelChar(c: char) {
    'a' <= c <= 'z' || '0' <= c <= '9' || c == '.' || c == '_' || c == '-'
  }

  predicate IsLabel(name: string) {
    name != [] && Size(name) <= MAX_RUNNER_LABEL_LENGTH && forall i :: 0 <= i < |name| ==> IsLabelChar(name[i])
  }

  /** `normalize_runner_label`. */
  function NormalizeLabel(name: string): Option<string> {
    var lower := LowerAscii(Trim(name));
    if IsLabel(lower) then Some(lower) else None
  }

  function NormalizeEach(labels: seq<string>): (r: Option<seq<string>>)
    ensures r.Some? ==> forall i :: 0 <= i < |r.value| ==> IsLabel(r.value[i])
  {
    if labels == [] then Some([])
    else
      var first, rest := NormalizeLabel(labels[0]), NormalizeEach(labels[1..]);
      if first.None? || rest.None? then None else Some([first.value] + rest.value)
  }

  function Insert(x: string, sorted: seq<string>): seq<string> {
    if sorted == [] || !Before(sorted[0], x) then [x] + sorted else [sorted[0]] + Insert(x, sorted[1..])
  }

  function Sort(s: seq<string>): seq<string> {
    if s == [] then [] else Insert(s[0], Sort(s[1..]))
  }

  /** `Vec::dedup`: adjacent repetitions go. */
  function Dedup(s: seq<string>): seq<string> {
    if |s| <= 1 then s
    else if s[0] == s[1] then Dedup(s[1..])
    else [s[0]] + Dedup(s[1..])
  }

  /** `normalize_runner_labels`. */
  function NormalizeLabels(labels: seq<string>): Option<seq<string>> {
    if |labels| > MAX_RUNNER_LABELS then None
    else
      var each := NormalizeEach(labels);
      if each.None? then None else Some(Dedup(Sort(each.value)))
  }

  predicate Ascending(s: seq<string>) {
    |s| <= 1 || (Before(s[0], s[1]) && Ascending(s[1..]))
  }

  predicate Sorted(s: seq<string>) {
    |s| <= 1 || (!Before(s[1], s[0]) && Sorted(s[1..]))
  }

  lemma {:induction false} InsertSorted(x: string, s: seq<string>)
    requires Sorted(s)
    ensures Sorted(Insert(x, s)) && multiset(Insert(x, s)) == multiset(s) + multiset{x}
  {
    hide Before;
    if s == [] || !Before(s[0], x) {
      assert ([x] + s)[1..] == s;
      assert multiset([x] + s) == multiset([x]) + multiset(s);
    } else {
      InsertSorted(x, s[1..]);
      var rest := Insert(x, s[1..]);
      assert ([s[0]] + rest)[1..] == rest;
      BeforeTotal(s[0], x);
      assert s == [s[0]] + s[1..];
      assert multiset([s[0]] + rest) == multiset([s[0]]) + multiset(rest);
    }
  }

  lemma {:induction false} SortSorts(s: seq<string>)
    ensures Sorted(Sort(s)) && multiset(Sort(s)) == multiset(s)
  {
    if s != [] {
      SortSorts(s[1..]);
      InsertSorted(s[0], Sort(s[1..]));
      assert s == [s[0]] + s[1..];
    }
  }

  lemma {:induction false} DedupAscends(s: seq<string>)
    requires Sorted(s)
    ensures Ascending(Dedup(s)) && (s != [] ==> Dedup(s) != [] && Dedup(s)[0] == s[0])
    ensures forall x :: x in Dedup(s) <==> x in s
    ensures |Dedup(s)| <= |s|
  {
    hide Before;
    if |s| > 1 {
      DedupAscends(s[1..]);
      BeforeTotal(s[0], s[1]);
      var rest := Dedup(s[1..]);
      assert ([s[0]] + rest)[1..] == rest;
      assert s == [s[0]] + s[1..];
    }
  }

  lemma {:induction false} AscendingKept(s: seq<string>)
    requires Ascending(s)
    ensures Sort(s) == s && Dedup(s) == s
  {
    hide Before;
    if s != [] {
      AscendingKept(s[1..]);
      assert s == [s[0]] + s[1..];
      if |s| > 1 {
        BeforeTotal(s[0], s[1]);
      }
    }
  }

  lemma LabelKept(name: string)
    requires IsLabel(name)
    ensures NormalizeLabel(name) == Some(name)
  {
    assert IsLabelChar(name[0]) && IsLabelChar(name[|name| - 1]);
    TrimTrimmed(name);
    assert LowerAscii(name) == name;
  }

  lemma {:induction false} LabelsKept(labels: seq<string>)
    requires forall i :: 0 <= i < |labels| ==> IsLabel(labels[i])
    ensures NormalizeEach(labels) == Some(labels)
  {
    hide NormalizeLabel, IsLabel;
    if labels != [] {
      LabelKept(labels[0]);
      LabelsKept(labels[1..]);
      assert labels == [labels[0]] + labels[1..];
    }
  }

  /** Normalized labels ascend strictly, keep exactly the labels given, and normalize to
      themselves. */
  lemma NormalizedLabels(labels: seq<string>)
    requires NormalizeLabels(labels).Some?
    ensures
      var r := NormalizeLabels(labels).value;
      && Ascending(r) && NormalizeLabels(r) == Some(r)
      && forall x :: x in r <==> x in NormalizeEach(labels).value
  {
    hide Before, IsLabel, NormalizeLabel;
    var each := NormalizeEach(labels).value;
    EachSize(labels);
    SortSorts(each);
    DedupAscends(Sort(each));
    var r := NormalizeLabels(labels).value;
    AscendingKept(r);
    SameElements(Sort(each), each);
    forall i | 0 <= i < |r|
      ensures IsLabel(r[i])
    {
      assert r[i] in Sort(each);
      assert r[i] in each;
    }
    LabelsKept(r);
  }

  lemma {:induction false} EachSize(labels: seq<string>)
    requires NormalizeEach(labels).Some?
    ensures |NormalizeEach(labels).value| == |labels|
  {
    hide NormalizeLabel;
    if labels != [] {
      EachSize(labels[1..]);
    }
  }

  lemma SameElements(a: seq<string>, b: seq<string>)
    requires multiset(a) == multiset(b)
    ensures |a| == |b| && forall x :: x in a <==> x in b
  {
    assert |multiset(a)| == |a| && |multiset(b)| == |b|;
    forall x
      ensures x in a <==> x in b
    {
      assert x in multiset(a) <==> x in multiset(b);
    }
  }

  // ── Spellings ───────────────────────────────────────────────────

  lemma LowerTwice(s: string)
    ensures LowerAscii(LowerAscii(s)) == LowerAscii(s)
  {
  }

  lemma LowerIsSpace(c: char)
    requires 'A' <= c <= 'Z'
    ensures !IsSpace(c) && !IsSpace((c as int + 32) as char)
  {
  }

  lemma {:induction false} LowerTrimStart(s: string)
    ensures TrimStart(LowerAscii(s)) == LowerAscii(TrimStart(s))
  {
    hide IsSpace;
    if s != [] {
      if 'A' <= s[0] <= 'Z' {
        LowerIsSpace(s[0]);
      }
      LowerTrimStart(s[1..]);
      assert LowerAscii(s)[1..] == LowerAscii(s[1..]);
    }
  }

  lemma {:induction false} LowerTrimEnd(s: string)
    ensures TrimEnd(LowerAscii(s)) == LowerAscii(TrimEnd(s))
  {
    hide IsSpace;
    if s != [] {
      var n := |s| - 1;
      if 'A' <= s[n] <= 'Z' {
        LowerIsSpace(s[n]);
      }
      LowerTrimEnd(s[..n]);
      assert LowerAscii(s)[..n] == LowerAscii(s[..n]);
    }
  }

  lemma LowerTrim(s: string)
    ensures Trim(LowerAscii(s)) == LowerAscii(Trim(s))
  {
    hide TrimStart, TrimEnd, LowerAscii;
    LowerTrimStart(s);
    LowerTrimEnd(TrimStart(s));
  }

  /** Upper and lower case spellings of a label, with or without blanks around them, are one
      label, and a label has no upper case. */
  lemma SpellingsAgree(a: string, b: string)
    requires LowerAscii(Trim(a)) == LowerAscii(Trim(b))
    ensures NormalizeLabel(a) == NormalizeLabel(b)
    ensures NormalizeLabel(LowerAscii(a)) == NormalizeLabel(a)
    ensures NormalizeLabel(a).Some? ==> NormalizeLabel(a).value == LowerAscii(Trim(a))
  {
    hide Trim, LowerAscii, IsLabel;
    LowerTrim(a);
    LowerTwice(Trim(a));
  }

  /** Each label is normalized on its own; one that cannot be refuses the list. */
  lemma {:induction false} EachIs(labels: seq<string>)
    ensures NormalizeEach(labels).None? <==> exists i :: 0 <= i < |labels| && NormalizeLabel(labels[i]).None?
    ensures NormalizeEach(labels).Some? ==>
      |NormalizeEach(labels).value| == |labels|
      && forall i :: 0 <= i < |labels| ==> NormalizeLabel(labels[i]) == Some(NormalizeEach(labels).value[i])
  {
    hide NormalizeLabel, IsLabel;
    if labels != [] {
      var rest := labels[1..];
      EachIs(rest);
      assert forall i :: 0 <= i < |rest| ==> rest[i] == labels[i + 1];
      if i :| 0 <= i < |labels| && NormalizeLabel(labels[i]).None? {
        assert i > 0 ==> rest[i - 1] == labels[i];
      }
    }
  }

  /** A list is refused exactly when it has more than 32 labels or one that is no label. */
  lemma RefusedLabels(labels: seq<string>)
    ensures NormalizeLabels(labels).None? <==> |labels| > 32 || exists i :: 0 <= i < |labels| && NormalizeLabel(labels[i]).None?
  {
    hide NormalizeLabel, Sort, Dedup, NormalizeEach;
    EachIs(labels);
  }
}
