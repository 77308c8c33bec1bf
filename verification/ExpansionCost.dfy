/** What plain substitution costs, and when a text on the way is too long. */
module ExpansionCost {
  import opened Wrappers
  import opened Text
  import opened References
  import opened Expansion

  const MAX_EXPANDED_BYTES: nat := 64 * 1024

  // ── Expansions and bytes, without a cache ───────────────────────

  /** Vars expanded, and bytes they put in; every reference counts, at every depth. */
  datatype Cost = Cost(expansions: nat, bytes: nat)

  function Plus(a: Cost, b: Cost): Cost {
    Cost(a.expansions + b.expansions, a.bytes + b.bytes)
  }

  predicate AtMost(a: Cost, b: Cost) {
    a.expansions <= b.expansions && a.bytes <= b.bytes
  }

  function CostOf(vars: Table, flavor: Option<string>, text: string, n: nat): Cost
    decreases n, 2, 0
  {
    var template := TemplateOf(text);
    if template.None? then Cost(0, 0)
    else SegmentsCost(vars, flavor, template.value.segments, |template.value.segments|, n)
  }

  function SegmentsCost(vars: Table, flavor: Option<string>, segments: seq<Segment>, k: nat, n: nat): Cost
    requires k <= |segments|
    decreases n, 1, k
  {
    if k == 0 then Cost(0, 0)
    else Plus(SegmentsCost(vars, flavor, segments, k - 1, n), PieceCost(vars, flavor, segments[k - 1].piece, n))
  }

  /** A var costs one expansion, what its own text costs, and the bytes it puts in. */
  function PieceCost(vars: Table, flavor: Option<string>, piece: Piece, n: nat): Cost
    decreases n, 0, 0
  {
    if !piece.VarPiece? || n == 0 || piece.name !in vars then Cost(0, 0)
    else
      var value := Expand(vars, flavor, vars[piece.name], n - 1);
      Plus(CostOf(vars, flavor, vars[piece.name], n - 1), Cost(1, if value.Some? then Size(value.value) else 0))
  }

  lemma {:induction false} CostGrows(vars: Table, flavor: Option<string>, segments: seq<Segment>, i: nat, k: nat, n: nat)
    requires i <= k <= |segments|
    ensures AtMost(SegmentsCost(vars, flavor, segments, i, n), SegmentsCost(vars, flavor, segments, k, n))
    decreases k
  {
    hide PieceCost;
    if i < k {
      CostGrows(vars, flavor, segments, i, k - 1, n);
    }
  }

  // ── Texts that grow too long ────────────────────────────────────

  /** Longer than 64 KiB and than the text it came from. */
  predicate IsLong(out: string, text: string) {
    Size(out) > MAX_EXPANDED_BYTES && Size(out) > Size(text)
  }

  /** Some text on the way, this one or a var's it refers to, is too long as far as it was
      expanded. */
  ghost predicate Overlong(vars: Table, flavor: Option<string>, text: string, n: nat)
    decreases n
  {
    var template := TemplateOf(text);
    template.Some? &&
      var segments := template.value.segments;
      || (exists k :: 0 <= k <= |segments| && ExpandSegments(vars, flavor, segments, k, n).Some?
                      && IsLong(ExpandSegments(vars, flavor, segments, k, n).value, text))
      || (Expand(vars, flavor, text, n).Some? && IsLong(Expand(vars, flavor, text, n).value, text))
      || (n > 0 && exists i :: 0 <= i < |segments| && segments[i].piece.VarPiece? && segments[i].piece.name in vars
                               && Overlong(vars, flavor, vars[segments[i].piece.name], n - 1))
  }

  ghost predicate SomeOverlong(vars: Table, flavor: Option<string>, text: string) {
    exists n: nat :: Overlong(vars, flavor, text, n)
  }

  /** No text on the way comes out too long. */
  ghost predicate AllFit(vars: Table, flavor: Option<string>, text: string, n: nat)
    decreases n
  {
    var value, template := Expand(vars, flavor, text, n), TemplateOf(text);
    && value.Some? && !IsLong(value.value, text)
    && template.Some?
    && forall i :: 0 <= i < |template.value.segments| && template.value.segments[i].piece.VarPiece? ==>
         n > 0 && template.value.segments[i].piece.name in vars
         && AllFit(vars, flavor, vars[template.value.segments[i].piece.name], n - 1)
  }

  lemma SizeConcat(a: string, b: string)
    ensures Size(a + b) == Size(a) + Size(b)
  {
    hide Utf8;
    Utf8Concat(a, b);
  }

  lemma {:induction false} PrefixSize(vars: Table, flavor: Option<string>, segments: seq<Segment>, i: nat, k: nat, n: nat)
    requires i <= k <= |segments| && ExpandSegments(vars, flavor, segments, k, n).Some?
    ensures ExpandSegments(vars, flavor, segments, i, n).Some?
    ensures Size(ExpandSegments(vars, flavor, segments, i, n).value) <= Size(ExpandSegments(vars, flavor, segments, k, n).value)
    decreases k
  {
    hide ExpandPiece, Size;
    if i < k {
      PrefixSize(vars, flavor, segments, i, k - 1, n);
      var before := ExpandSegments(vars, flavor, segments, k - 1, n).value;
      var piece := ExpandPiece(vars, flavor, segments[k - 1].piece, n).value;
      SizeConcat(before + segments[k - 1].literal, piece);
      SizeConcat(before, segments[k - 1].literal);
    }
  }

  /** What is too long halfway is too long in the end. */
  lemma LongStaysLong(vars: Table, flavor: Option<string>, text: string, k: nat, n: nat)
    requires Expand(vars, flavor, text, n).Some?
    requires
      var segments := TemplateOf(text).value.segments;
      k <= |segments| && ExpandSegments(vars, flavor, segments, k, n).Some? && IsLong(ExpandSegments(vars, flavor, segments, k, n).value, text)
    ensures IsLong(Expand(vars, flavor, text, n).value, text)
  {
    hide ExpandSegments, TemplateOf, Size;
    var template := TemplateOf(text).value;
    PrefixSize(vars, flavor, template.segments, k, |template.segments|, n);
    SizeConcat(ExpandSegments(vars, flavor, template.segments, |template.segments|, n).value, template.tail);
  }

  /** At any one depth a text that fits is not overlong. */
  lemma {:induction false} FitIsNotOverlong(vars: Table, flavor: Option<string>, text: string, n: nat)
    requires AllFit(vars, flavor, text, n)
    ensures !Overlong(vars, flavor, text, n)
    decreases n
  {
    hide TemplateOf, Expand, ExpandSegments, IsLong;
    var segments := TemplateOf(text).value.segments;
    forall k | 0 <= k <= |segments| && ExpandSegments(vars, flavor, segments, k, n).Some?
      ensures !IsLong(ExpandSegments(vars, flavor, segments, k, n).value, text)
    {
      if IsLong(ExpandSegments(vars, flavor, segments, k, n).value, text) {
        LongStaysLong(vars, flavor, text, k, n);
      }
    }
    forall i | 0 <= i < |segments| && segments[i].piece.VarPiece? && segments[i].piece.name in vars && n > 0
      ensures !Overlong(vars, flavor, vars[segments[i].piece.name], n - 1)
    {
      FitIsNotOverlong(vars, flavor, vars[segments[i].piece.name], n - 1);
    }
  }

  lemma {:induction false} DeeperFit(vars: Table, flavor: Option<string>, text: string, n: nat, m: nat)
    requires n <= m && AllFit(vars, flavor, text, n)
    ensures AllFit(vars, flavor, text, m)
    decreases n
  {
    hide TemplateOf, Expand, IsLong;
    DeeperExpand(vars, flavor, text, n, m);
    var segments := TemplateOf(text).value.segments;
    forall i | 0 <= i < |segments| && segments[i].piece.VarPiece?
      ensures m > 0 && segments[i].piece.name in vars && AllFit(vars, flavor, vars[segments[i].piece.name], m - 1)
    {
      DeeperFit(vars, flavor, vars[segments[i].piece.name], n - 1, m - 1);
    }
  }

  lemma {:induction false} DeeperOverlong(vars: Table, flavor: Option<string>, text: string, n: nat, m: nat)
    requires n <= m && Overlong(vars, flavor, text, n)
    ensures Overlong(vars, flavor, text, m)
    decreases n
  {
    hide TemplateOf, Expand, ExpandSegments, IsLong;
    var segments := TemplateOf(text).value.segments;
    if k :| 0 <= k <= |segments| && ExpandSegments(vars, flavor, segments, k, n).Some?
            && IsLong(ExpandSegments(vars, flavor, segments, k, n).value, text) {
      DeeperSegments(vars, flavor, segments, k, n, m);
      assert IsLong(ExpandSegments(vars, flavor, segments, k, m).value, text);
    } else if Expand(vars, flavor, text, n).Some? && IsLong(Expand(vars, flavor, text, n).value, text) {
      DeeperExpand(vars, flavor, text, n, m);
    } else {
      var i :| 0 <= i < |segments| && segments[i].piece.VarPiece? && segments[i].piece.name in vars
               && Overlong(vars, flavor, vars[segments[i].piece.name], n - 1);
      DeeperOverlong(vars, flavor, vars[segments[i].piece.name], n - 1, m - 1);
    }
  }

  /** A text all of whose parts fit is not overlong at any depth. */
  lemma FitIsNeverOverlong(vars: Table, flavor: Option<string>, text: string, n: nat)
    requires AllFit(vars, flavor, text, n)
    ensures !SomeOverlong(vars, flavor, text)
  {
    hide AllFit, Overlong;
    forall m: nat
      ensures !Overlong(vars, flavor, text, m)
    {
      if Overlong(vars, flavor, text, m) {
        var most := if n <= m then m else n;
        DeeperFit(vars, flavor, text, n, most);
        DeeperOverlong(vars, flavor, text, m, most);
        FitIsNotOverlong(vars, flavor, text, most);
        assert false;
      }
    }
  }

  // ── Spending ────────────────────────────────────────────────────

  /** At most what the text costs was spent. */
  ghost predicate Bounded(vars: Table, flavor: Option<string>, text: string, was: Cost, now: Cost) {
    forall n: nat :: Expand(vars, flavor, text, n).Some? ==> AtMost(now, Plus(was, CostOf(vars, flavor, text, n)))
  }

  /** At most what the var costs where it is referred to was spent. */
  ghost predicate VarBounded(vars: Table, flavor: Option<string>, name: string, was: Cost, now: Cost) {
    name in vars ==>
      forall n: nat :: Expand(vars, flavor, vars[name], n).Some? ==> AtMost(now, Plus(was, PieceCost(vars, flavor, VarPiece(name), n + 1)))
  }

  /** At most what the first segments of the text cost was spent. */
  ghost predicate SpentOn(vars: Table, flavor: Option<string>, text: string, i: nat, was: Cost, now: Cost)
    requires TemplateOf(text).Some? && i <= |TemplateOf(text).value.segments|
  {
    forall n: nat :: Expand(vars, flavor, text, n).Some? ==>
      AtMost(now, Plus(was, SegmentsCost(vars, flavor, TemplateOf(text).value.segments, i, n)))
  }

  lemma SpentNothing(vars: Table, flavor: Option<string>, text: string, was: Cost)
    ensures Bounded(vars, flavor, text, was, was)
    ensures TemplateOf(text).Some? ==> SpentOn(vars, flavor, text, 0, was, was)
  {
    hide CostOf, Expand, TemplateOf, SegmentsCost;
  }

  lemma SpentVarFirst(vars: Table, flavor: Option<string>, name: string, was: Cost, spent: Cost, now: Cost)
    requires name in vars ==> Bounded(vars, flavor, vars[name], spent, now)
    requires spent == Plus(was, Cost(1, 0)) || spent == was
    ensures VarBounded(vars, flavor, name, was, now)
  {
    hide CostOf, Expand, Size;
  }

  lemma SpentVarBytes(vars: Table, flavor: Option<string>, name: string, was: Cost, now: Cost, value: string, after: Cost)
    requires name in vars && Bounded(vars, flavor, vars[name], Plus(was, Cost(1, 0)), now)
    requires Expands(vars, flavor, vars[name], value) && after == Plus(now, Cost(0, Size(value)))
    ensures VarBounded(vars, flavor, name, was, after)
  {
    hide CostOf, Expand, Size;
    forall n: nat | Expand(vars, flavor, vars[name], n).Some?
      ensures AtMost(after, Plus(was, PieceCost(vars, flavor, VarPiece(name), n + 1)))
    {
      assert Expands(vars, flavor, vars[name], Expand(vars, flavor, vars[name], n).value);
      ExpandsOnce(vars, flavor, vars[name], value, Expand(vars, flavor, vars[name], n).value);
    }
  }

  lemma SegmentExpands(vars: Table, flavor: Option<string>, text: string, i: nat, n: nat)
    requires Expand(vars, flavor, text, n).Some? && i < |TemplateOf(text).value.segments|
    ensures ExpandPiece(vars, flavor, TemplateOf(text).value.segments[i].piece, n).Some?
  {
    hide TemplateOf, ExpandPiece, ExpandSegments;
    var segments := TemplateOf(text).value.segments;
    if ExpandPiece(vars, flavor, segments[i].piece, n).None? {
      FailedSegment(vars, flavor, segments, i, |segments|, n);
      assert false;
    }
  }

  /** One more segment: a var that was paid for, or one that costs nothing. */
  lemma SpentStep(vars: Table, flavor: Option<string>, text: string, i: nat, was: Cost, before: Cost, now: Cost)
    requires TemplateOf(text).Some? && i < |TemplateOf(text).value.segments| && SpentOn(vars, flavor, text, i, was, before)
    requires
      var piece := TemplateOf(text).value.segments[i].piece;
      if piece.VarPiece? then VarBounded(vars, flavor, piece.name, before, now) else now == before
    ensures SpentOn(vars, flavor, text, i + 1, was, now)
  {
    hide TemplateOf, Expand, PieceCost;
    var segments := TemplateOf(text).value.segments;
    var piece := segments[i].piece;
    forall n: nat | Expand(vars, flavor, text, n).Some?
      ensures AtMost(now, Plus(was, SegmentsCost(vars, flavor, segments, i + 1, n)))
    {
      SegmentExpands(vars, flavor, text, i, n);
      if piece.VarPiece? {
        assert Expand(vars, flavor, vars[piece.name], n - 1).Some?;
        assert AtMost(now, Plus(before, PieceCost(vars, flavor, piece, n - 1 + 1)));
      }
    }
  }

  lemma SpentEnd(vars: Table, flavor: Option<string>, text: string, i: nat, was: Cost, now: Cost)
    requires TemplateOf(text).Some? && i <= |TemplateOf(text).value.segments| && SpentOn(vars, flavor, text, i, was, now)
    ensures Bounded(vars, flavor, text, was, now)
  {
    hide TemplateOf, Expand, SegmentsCost;
    var segments := TemplateOf(text).value.segments;
    forall n: nat | Expand(vars, flavor, text, n).Some?
      ensures AtMost(now, Plus(was, CostOf(vars, flavor, text, n)))
    {
      CostGrows(vars, flavor, segments, i, |segments|, n);
    }
  }

  // ── Overlong texts, as they are met ─────────────────────────────

  lemma LongPrefix(vars: Table, flavor: Option<string>, text: string, k: nat, n: nat)
    requires TemplateOf(text).Some? && k <= |TemplateOf(text).value.segments|
    requires
      var out := ExpandSegments(vars, flavor, TemplateOf(text).value.segments, k, n);
      out.Some? && IsLong(out.value, text)
    ensures SomeOverlong(vars, flavor, text)
  {
    hide TemplateOf, Expand, ExpandSegments, IsLong;
    assert Overlong(vars, flavor, text, n);
  }

  lemma LongResult(vars: Table, flavor: Option<string>, text: string, n: nat)
    requires Expand(vars, flavor, text, n).Some? && IsLong(Expand(vars, flavor, text, n).value, text)
    ensures SomeOverlong(vars, flavor, text)
  {
    hide TemplateOf, ExpandSegments, IsLong;
    assert Overlong(vars, flavor, text, n);
  }

  lemma LongVar(vars: Table, flavor: Option<string>, text: string, i: nat, name: string)
    requires TemplateOf(text).Some? && i < |TemplateOf(text).value.segments|
    requires TemplateOf(text).value.segments[i].piece == VarPiece(name) && name in vars && SomeOverlong(vars, flavor, vars[name])
    ensures SomeOverlong(vars, flavor, text)
  {
    hide TemplateOf, Expand, ExpandSegments, IsLong;
    var n: nat :| Overlong(vars, flavor, vars[name], n);
    assert Overlong(vars, flavor, text, n + 1);
  }
}
