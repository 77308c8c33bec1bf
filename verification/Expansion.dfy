/** Plain substitution of vars and the flavor, without a cache, a budget or a chain: what
    the resolver has to agree with. */
module Expansion {
  import opened Wrappers
  import opened Text
  import opened References

  type Table = map<string, string>

  /** What stands in a text besides literal parts. */
  datatype Piece = Verbatim(text: string) | FlavorPiece | VarPiece(name: string)

  datatype Segment = Segment(literal: string, piece: Piece)

  datatype Template = Template(segments: seq<Segment>, tail: string)

  function SegmentAt(text: string, spans: seq<Span>, i: nat): Segment
    requires i < |spans| && GoodSpans(text, spans)
  {
    var span := spans[i];
    SpanBounds(text, span);
    assert GoodSpan(text, span);
    assert i > 0 ==> spans[i - 1].end <= span.start;
    Segment(
      text[Cursor(spans, i)..span.start],
      match span.expression
      case Secret => Verbatim(text[span.start..span.end])
      case Flavor => FlavorPiece
      case Var(start, end) => VarPiece(text[start..end]))
  }

  function TemplateFor(text: string, spans: seq<Span>): (t: Template)
    requires GoodSpans(text, spans)
    ensures |t.segments| == |spans|
  {
    assert |spans| > 0 ==> GoodSpan(text, spans[|spans| - 1]);
    Template(seq(|spans|, i requires 0 <= i < |spans| => SegmentAt(text, spans, i)), text[Cursor(spans, |spans|)..])
  }

  /** The text as literals and references, if its references parse. */
  function TemplateOf(text: string): Option<Template> {
    var parsed := Parse(text);
    if parsed.Bad? then None
    else
      ParseFromSpans(text, 0);
      Some(TemplateFor(text, parsed.spans))
  }

  /** Substitution to depth `n`; secret references stay as written. */
  function Expand(vars: Table, flavor: Option<string>, text: string, n: nat): Option<string>
    decreases n, 2, 0
  {
    var template := TemplateOf(text);
    if template.None? then None
    else
      var expanded := ExpandSegments(vars, flavor, template.value.segments, |template.value.segments|, n);
      if expanded.None? then None else Some(expanded.value + template.value.tail)
  }

  function ExpandSegments(vars: Table, flavor: Option<string>, segments: seq<Segment>, k: nat, n: nat): Option<string>
    requires k <= |segments|
    decreases n, 1, k
  {
    if k == 0 then Some("")
    else
      var before := ExpandSegments(vars, flavor, segments, k - 1, n);
      var piece := ExpandPiece(vars, flavor, segments[k - 1].piece, n);
      if before.None? || piece.None? then None
      else Some(before.value + segments[k - 1].literal + piece.value)
  }

  function ExpandPiece(vars: Table, flavor: Option<string>, piece: Piece, n: nat): Option<string>
    decreases n, 0, 0
  {
    match piece
    case Verbatim(text) => Some(text)
    case FlavorPiece => flavor
    case VarPiece(name) => if n == 0 || name !in vars then None else Expand(vars, flavor, vars[name], n - 1)
  }

  // ── Which flavor does not matter ────────────────────────────────

  /** Whether a text expands does not depend on the flavor, as long as there is one. */
  lemma {:induction false} AnyFlavor(vars: Table, a: string, b: string, text: string, n: nat)
    ensures Expand(vars, Some(a), text, n).Some? <==> Expand(vars, Some(b), text, n).Some?
    decreases n, 2, 0
  {
    hide TemplateOf;
    var template := TemplateOf(text);
    if template.Some? {
      AnyFlavorSegments(vars, a, b, template.value.segments, |template.value.segments|, n);
    }
  }

  lemma {:induction false} AnyFlavorSegments(vars: Table, a: string, b: string, segments: seq<Segment>, k: nat, n: nat)
    requires k <= |segments|
    ensures ExpandSegments(vars, Some(a), segments, k, n).Some? <==> ExpandSegments(vars, Some(b), segments, k, n).Some?
    decreases n, 1, k
  {
    hide Expand;
    if k > 0 {
      AnyFlavorSegments(vars, a, b, segments, k - 1, n);
      var piece := segments[k - 1].piece;
      if piece.VarPiece? && n > 0 && piece.name in vars {
        AnyFlavor(vars, a, b, vars[piece.name], n - 1);
      }
    }
  }

  // ── Depth does not change the answer ────────────────────────────

  lemma {:induction false} DeeperExpand(vars: Table, flavor: Option<string>, text: string, n: nat, m: nat)
    requires n <= m && Expand(vars, flavor, text, n).Some?
    ensures Expand(vars, flavor, text, m) == Expand(vars, flavor, text, n)
    decreases n, 2, 0
  {
    hide TemplateOf;
    var segments := TemplateOf(text).value.segments;
    DeeperSegments(vars, flavor, segments, |segments|, n, m);
  }

  lemma {:induction false} DeeperSegments(vars: Table, flavor: Option<string>, segments: seq<Segment>, k: nat, n: nat, m: nat)
    requires k <= |segments|
    requires n <= m && ExpandSegments(vars, flavor, segments, k, n).Some?
    ensures ExpandSegments(vars, flavor, segments, k, m) == ExpandSegments(vars, flavor, segments, k, n)
    decreases n, 1, k
  {
    hide Expand;
    if k > 0 {
      DeeperSegments(vars, flavor, segments, k - 1, n, m);
      DeeperPiece(vars, flavor, segments[k - 1].piece, n, m);
    }
  }

  lemma {:induction false} DeeperPiece(vars: Table, flavor: Option<string>, piece: Piece, n: nat, m: nat)
    requires n <= m && ExpandPiece(vars, flavor, piece, n).Some?
    ensures ExpandPiece(vars, flavor, piece, m) == ExpandPiece(vars, flavor, piece, n)
    decreases n, 0, 0
  {
    hide Expand;
    if piece.VarPiece? {
      DeeperExpand(vars, flavor, vars[piece.name], n - 1, m - 1);
    }
  }

  ghost predicate Expands(vars: Table, flavor: Option<string>, text: string, result: string) {
    exists n: nat :: Expand(vars, flavor, text, n) == Some(result)
  }

  ghost predicate NeverExpands(vars: Table, flavor: Option<string>, text: string) {
    forall n: nat :: Expand(vars, flavor, text, n) == None
  }

  /** A text has at most one expansion. */
  lemma ExpandsOnce(vars: Table, flavor: Option<string>, text: string, a: string, b: string)
    requires Expands(vars, flavor, text, a) && Expands(vars, flavor, text, b)
    ensures a == b
  {
    hide Expand;
    var n: nat :| Expand(vars, flavor, text, n) == Some(a);
    var m: nat :| Expand(vars, flavor, text, m) == Some(b);
    if n <= m {
      DeeperExpand(vars, flavor, text, n, m);
    } else {
      DeeperExpand(vars, flavor, text, m, n);
    }
  }

  lemma {:induction false} FailedSegment(vars: Table, flavor: Option<string>, segments: seq<Segment>, i: nat, k: nat, n: nat)
    requires i < k <= |segments|
    requires ExpandPiece(vars, flavor, segments[i].piece, n).None?
    ensures ExpandSegments(vars, flavor, segments, k, n).None?
    decreases k
  {
    hide ExpandPiece;
    if i < k - 1 {
      FailedSegment(vars, flavor, segments, i, k - 1, n);
    }
  }

  // ── Cycles ──────────────────────────────────────────────────────

  /** `text` refers to the var `name`. */
  ghost predicate Mentions(text: string, name: string) {
    var template := TemplateOf(text);
    template.Some? && exists i :: 0 <= i < |template.value.segments| && template.value.segments[i].piece == VarPiece(name)
  }

  ghost predicate RefersTo(vars: Table, from: string, to: string) {
    from in vars && Mentions(vars[from], to)
  }

  ghost predicate IsPath(vars: Table, names: seq<string>) {
    forall i :: 0 <= i < |names| - 1 ==> RefersTo(vars, names[i], names[i + 1])
  }

  /** A genuine cycle of var references, first name repeated last. */
  ghost predicate IsCycle(vars: Table, names: seq<string>) {
    |names| >= 2 && names[0] == names[|names| - 1] && IsPath(vars, names)
  }

  lemma MentionedExpands(vars: Table, flavor: Option<string>, text: string, name: string, n: nat)
    requires Mentions(text, name)
    requires Expand(vars, flavor, text, n).Some?
    ensures n > 0 && name in vars && Expand(vars, flavor, vars[name], n - 1).Some?
  {
    hide TemplateOf;
    var segments := TemplateOf(text).value.segments;
    var i :| 0 <= i < |segments| && segments[i].piece == VarPiece(name);
    if ExpandPiece(vars, flavor, segments[i].piece, n).None? {
      FailedSegment(vars, flavor, segments, i, |segments|, n);
    }
  }

  lemma {:induction false} PathExpands(vars: Table, flavor: Option<string>, names: seq<string>, k: nat, n: nat)
    requires k < |names| && IsPath(vars, names)
    requires names[0] in vars && Expand(vars, flavor, vars[names[0]], n).Some?
    ensures k <= n && names[k] in vars && Expand(vars, flavor, vars[names[k]], n - k).Some?
  {
    hide Expand, Mentions;
    if k > 0 {
      PathExpands(vars, flavor, names, k - 1, n);
      assert RefersTo(vars, names[k - 1], names[k]);
      MentionedExpands(vars, flavor, vars[names[k - 1]], names[k], n - (k - 1));
    }
  }

  lemma {:induction false} CycleFails(vars: Table, flavor: Option<string>, names: seq<string>, n: nat)
    requires IsCycle(vars, names)
    ensures names[0] in vars && Expand(vars, flavor, vars[names[0]], n).None?
  {
    hide Expand, Mentions;
    assert RefersTo(vars, names[0], names[1]);
    if Expand(vars, flavor, vars[names[0]], n).Some? {
      PathExpands(vars, flavor, names, |names| - 1, n);
      CycleFails(vars, flavor, names, n - (|names| - 1));
    }
  }

  /** A text that reaches a cycle has no expansion at any depth. */
  lemma ReachingACycleNeverExpands(vars: Table, flavor: Option<string>, text: string, path: seq<string>, cycle: seq<string>)
    requires path != [] && Mentions(text, path[0]) && IsPath(vars, path)
    requires IsCycle(vars, cycle) && path[|path| - 1] == cycle[0]
    ensures NeverExpands(vars, flavor, text)
  {
    hide Expand, Mentions;
    forall n: nat
      ensures Expand(vars, flavor, text, n) == None
    {
      if Expand(vars, flavor, text, n).Some? {
        MentionedExpands(vars, flavor, text, path[0], n);
        PathExpands(vars, flavor, path, |path| - 1, n - 1);
        CycleFails(vars, flavor, cycle, n - 1 - (|path| - 1));
      }
    }
  }

  /** A cycle read from another of its names is the same cycle. */
  lemma RotatedCycle(vars: Table, names: seq<string>, first: nat)
    requires first < |names| && IsCycle(vars, names + [names[0]])
    ensures IsCycle(vars, names[first..] + names[..first] + [names[first]])
  {
    hide RefersTo;
    var whole := names + [names[0]];
    var rotated := names[first..] + names[..first] + [names[first]];
    forall i | 0 <= i < |rotated| - 1
      ensures RefersTo(vars, rotated[i], rotated[i + 1])
    {
      var k := if first + i < |names| then first + i else first + i - |names|;
      assert RefersTo(vars, whole[k], whole[k + 1]);
    }
  }
}
