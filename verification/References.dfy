/** `${{ ... }}` references in pipeline text. */
module References {
  import opened Wrappers
  import opened Text

  const OPEN: string := "${{"
  const CLOSE: string := "}}"
  const VARS: string := "vars."
  const SECRETS: string := "secrets."

  predicate IsKeyStart(c: char) {
    c == '_' || 'a' <= c <= 'z' || 'A' <= c <= 'Z'
  }

  /** `is_valid_pipeline_env_key`: [A-Za-z_][A-Za-z0-9_]*. */
  predicate IsEnvKey(key: string) {
    && key != [] && IsKeyStart(key[0])
    && forall i :: 1 <= i < |key| ==> IsKeyStart(key[i]) || '0' <= key[i] <= '9'
  }

  /** A reference: `Var` holds the name's range in the text. */
  datatype Expression = Secret | Var(start: nat, end: nat) | Flavor

  datatype Span = Span(start: nat, end: nat, expression: Expression)

  datatype ParseError = Unterminated | Unsupported(body: string)

  datatype Parsed = Parsed(spans: seq<Span>) | Bad(error: ParseError)

  datatype Classified = Classified(expression: Expression) | NotSupported(body: string)

  function SecretName(body: string): Option<string> {
    var name := StripPrefix(body, SECRETS);
    if name.Some? && IsEnvKey(name.value) then name else None
  }

  function VarName(body: string): Option<string> {
    var name := StripPrefix(body, VARS);
    if name.Some? && IsEnvKey(name.value) then name else None
  }

  /** What stands between `${{` and `}}`. */
  function Body(text: string, from: nat, to: nat): string
    requires from <= to <= |text|
  {
    Trim(text[from..to])
  }

  function Classify(text: string, from: nat, to: nat): Classified
    requires from <= to <= |text|
  {
    var body := Body(text, from, to);
    if body == "flavor" then Classified(Flavor)
    else if SecretName(body).Some? then Classified(Secret)
    else if VarName(body).Some? then
      var found := FindFrom(text, VARS, from);
      var start := (if found.Some? then found.value else from) + 5;
      Classified(Var(start, start + |VarName(body).value|))
    else NotSupported(body)
  }

  /** The next `${{`, and its `}}` if it has one. */
  datatype Next = NoMore | Open | Found(start: nat, to: nat)

  function NextReference(text: string, cursor: nat): (r: Next)
    requires cursor <= |text|
    ensures r.Found? ==> cursor <= r.start && r.start + 3 <= r.to && r.to + 2 <= |text|
  {
    var open := FindFrom(text, OPEN, cursor);
    if open.None? then NoMore
    else
      var close := FindFrom(text, CLOSE, open.value + 3);
      if close.None? then Open else Found(open.value, close.value)
  }

  /** `parse_expressions` from a cursor on. */
  function ParseFrom(text: string, cursor: nat): Parsed
    requires cursor <= |text|
    decreases |text| - cursor
  {
    match NextReference(text, cursor)
    case NoMore => Parsed([])
    case Open => Bad(Unterminated)
    case Found(start, to) =>
      var expression := Classify(text, start + 3, to);
      if expression.NotSupported? then Bad(Unsupported(expression.body))
      else
        var rest := ParseFrom(text, to + 2);
        if rest.Bad? then rest else Parsed([Span(start, to + 2, expression.expression)] + rest.spans)
  }

  function Parse(text: string): Parsed {
    ParseFrom(text, 0)
  }

  /** Where the text after the first `k` references starts. */
  function Cursor(spans: seq<Span>, k: nat): nat
    requires k <= |spans|
  {
    if k == 0 then 0 else spans[k - 1].end
  }

  /** The references are ordered, disjoint and in bounds, and a var's range names it. */
  ghost predicate GoodSpan(text: string, span: Span) {
    && span.start + 5 <= span.end <= |text|
    && text[span.start..span.start + 3] == OPEN
    && text[span.end - 2..span.end] == CLOSE
    && match span.expression
       case Flavor => Body(text, span.start + 3, span.end - 2) == "flavor"
       case Secret => SecretName(Body(text, span.start + 3, span.end - 2)).Some?
       case Var(start, end) =>
         && span.start + 3 <= start <= end <= span.end - 2
         && VarName(Body(text, span.start + 3, span.end - 2)) == Some(text[start..end])
  }

  ghost predicate GoodSpans(text: string, spans: seq<Span>) {
    && (forall i :: 0 <= i < |spans| ==> GoodSpan(text, spans[i]))
    && (forall i, j :: 0 <= i < j < |spans| ==> spans[i].end <= spans[j].start)
  }

  /** Behind blanks only, a word that starts with no blank is the first of its kind. */
  lemma FirstAfterBlanks(text: string, word: string, from: nat, at: nat)
    requires word != [] && !IsSpace(word[0])
    requires from <= at && OccursAt(text, word, at)
    requires forall i :: from <= i < at ==> IsSpace(text[i])
    ensures FindFrom(text, word, from) == Some(at)
  {
    hide IsSpace;
    forall k | from <= k < at
      ensures !OccursAt(text, word, k)
    {
      if k <= |text| - |word| {
        assert text[k..k + |word|][0] == text[k];
      }
    }
  }

  /** Where the body stands, with only blanks before it. */
  lemma BodyPlace(text: string, from: nat, to: nat) returns (at: nat)
    requires from <= to <= |text|
    ensures
      var body := Body(text, from, to);
      from <= at && at + |body| <= to && text[at..at + |body|] == body
    ensures forall i :: from <= i < at ==> IsSpace(text[i])
  {
    hide Trim, IsSpace;
    var raw, body := text[from..to], Body(text, from, to);
    var lead := TrimLead(raw);
    at := from + lead;
    SliceOfSlice(text, from, to, lead, lead + |body|);
    forall i | from <= i < at
      ensures IsSpace(text[i])
    {
      assert raw[i - from] == text[i];
    }
  }

  lemma StartsWithWord(text: string, at: nat, word: string, name: string)
    requires at + |word + name| <= |text| && text[at..at + |word + name|] == word + name
    ensures OccursAt(text, word, at)
    ensures text[at + |word|..at + |word| + |name|] == name
  {
    var body := word + name;
    SliceOfSlice(text, at, at + |body|, 0, |word|);
    SliceOfSlice(text, at, at + |body|, |word|, |body|);
    assert body[0..|word|] == word && body[|word|..|body|] == name;
  }

  /** Only blanks come before the trimmed body, so the first `word` is the body's. */
  lemma WordRange(text: string, from: nat, to: nat, word: string, name: string)
    requires from <= to <= |text|
    requires word != [] && !IsSpace(word[0])
    requires Body(text, from, to) == word + name
    ensures
      var found := FindFrom(text, word, from);
      && found.Some? && from <= found.value && found.value + |word| + |name| <= to
      && text[found.value + |word|..found.value + |word| + |name|] == name
  {
    hide FindFrom, Body, IsSpace, OccursAt;
    var at := BodyPlace(text, from, to);
    StartsWithWord(text, at, word, name);
    FirstAfterBlanks(text, word, from, at);
  }

  lemma ClassifiedSpan(text: string, start: nat, to: nat)
    requires start + 3 <= to && to + 2 <= |text|
    requires text[start..start + 3] == OPEN && text[to..to + 2] == CLOSE
    requires Classify(text, start + 3, to).Classified?
    ensures GoodSpan(text, Span(start, to + 2, Classify(text, start + 3, to).expression))
  {
    hide FindFrom, Trim, IsEnvKey;
    var body := Body(text, start + 3, to);
    if body != "flavor" && SecretName(body).None? {
      assert !IsSpace(VARS[0]);
      WordRange(text, start + 3, to, VARS, VarName(body).value);
    }
  }

  lemma NextIsReference(text: string, cursor: nat)
    requires cursor <= |text|
    requires NextReference(text, cursor).Found?
    ensures
      var next := NextReference(text, cursor);
      text[next.start..next.start + 3] == OPEN && text[next.to..next.to + 2] == CLOSE
  {
    var next := NextReference(text, cursor);
    assert OccursAt(text, OPEN, next.start);
    assert OccursAt(text, CLOSE, next.to);
  }

  lemma {:induction false} ParseFromSpans(text: string, cursor: nat)
    requires cursor <= |text|
    requires ParseFrom(text, cursor).Parsed?
    ensures GoodSpans(text, ParseFrom(text, cursor).spans)
    ensures forall i :: 0 <= i < |ParseFrom(text, cursor).spans| ==> cursor <= ParseFrom(text, cursor).spans[i].start
    decreases |text| - cursor
  {
    hide NextReference, Classify, GoodSpan;
    var next := NextReference(text, cursor);
    if next.Found? {
      NextIsReference(text, cursor);
      ParseFromSpans(text, next.to + 2);
      ClassifiedSpan(text, next.start, next.to);
      SpanBounds(text, ParseFrom(text, cursor).spans[0]);
    }
  }

  lemma SpanBounds(text: string, span: Span)
    requires GoodSpan(text, span)
    ensures span.start < span.end <= |text|
  {
  }

  /** `parse_expressions`: the cursor loop finds exactly the references of the text, in
      order, disjoint and in bounds, each var range denoting the trimmed name. */
  method ParseExpressions(text: string) returns (r: Parsed)
    ensures r == Parse(text)
    ensures r.Parsed? ==> GoodSpans(text, r.spans)
  {
    hide NextReference, Classify, GoodSpans;
    var found: seq<Span> := [];
    var cursor := 0;
    var next := NextReference(text, cursor);
    while next.Found?
      invariant 0 <= cursor <= |text| && next == NextReference(text, cursor)
      invariant Parse(text) == Prefixed(found, ParseFrom(text, cursor))
      decreases |text| - cursor
    {
      var expression := Classify(text, next.start + 3, next.to);
      if expression.NotSupported? {
        return Bad(Unsupported(expression.body));
      }
      var span := Span(next.start, next.to + 2, expression.expression);
      PrefixedStep(found, span, ParseFrom(text, next.to + 2));
      found := found + [span];
      cursor := next.to + 2;
      next := NextReference(text, cursor);
    }
    r := if next.Open? then Bad(Unterminated) else Parsed(found);
    if r.Parsed? {
      ParseFromSpans(text, 0);
    }
  }

  ghost function Prefixed(found: seq<Span>, rest: Parsed): Parsed {
    if rest.Bad? then rest else Parsed(found + rest.spans)
  }

  lemma PrefixedStep(found: seq<Span>, span: Span, rest: Parsed)
    ensures Prefixed(found, if rest.Bad? then rest else Parsed([span] + rest.spans)) == Prefixed(found + [span], rest)
  {
    if rest.Parsed? {
      assert found + ([span] + rest.spans) == found + [span] + rest.spans;
    }
  }

  // ── Secrets only ────────────────────────────────────────────────

  datatype SecretReference = SecretReference(start: nat, end: nat, name: string)

  datatype SecretsParsed = Secrets(references: seq<SecretReference>) | BadSecrets(error: ParseError)

  function SecretsFrom(text: string, cursor: nat): SecretsParsed
    requires cursor <= |text|
    decreases |text| - cursor
  {
    match NextReference(text, cursor)
    case NoMore => Secrets([])
    case Open => BadSecrets(Unterminated)
    case Found(start, to) =>
      var name := SecretName(Body(text, start + 3, to));
      if name.None? then BadSecrets(Unsupported(Body(text, start + 3, to)))
      else
        var rest := SecretsFrom(text, to + 2);
        if rest.BadSecrets? then rest
        else Secrets([SecretReference(start, to + 2, name.value)] + rest.references)
  }

  ghost function PrefixedSecrets(found: seq<SecretReference>, rest: SecretsParsed): SecretsParsed {
    if rest.BadSecrets? then rest else Secrets(found + rest.references)
  }

  /** `parse_secret_references`: whatever it accepts, the general parser reads as the
      same spans, all secrets. */
  method ParseSecretReferences(text: string) returns (r: SecretsParsed)
    ensures r == SecretsFrom(text, 0)
    ensures r.Secrets? ==> AllSecrets(Parse(text), r.references)
  {
    hide NextReference, SecretName, Body, AllSecrets;
    var references: seq<SecretReference> := [];
    var cursor := 0;
    var next := NextReference(text, cursor);
    while next.Found?
      invariant 0 <= cursor <= |text| && next == NextReference(text, cursor)
      invariant SecretsFrom(text, 0) == PrefixedSecrets(references, SecretsFrom(text, cursor))
      decreases |text| - cursor
    {
      var body := Body(text, next.start + 3, next.to);
      var name := SecretName(body);
      if name.None? {
        return BadSecrets(Unsupported(body));
      }
      var reference := SecretReference(next.start, next.to + 2, name.value);
      ghost var rest := SecretsFrom(text, next.to + 2);
      if rest.Secrets? {
        assert references + ([reference] + rest.references) == references + [reference] + rest.references;
      }
      references := references + [reference];
      cursor := next.to + 2;
      next := NextReference(text, cursor);
    }
    r := if next.Open? then BadSecrets(Unterminated) else Secrets(references);
    if r.Secrets? {
      SecretsAreExpressions(text, 0);
    }
  }

  /** The general parser finds the same references, all secrets. */
  ghost predicate AllSecrets(p: Parsed, references: seq<SecretReference>) {
    && p.Parsed? && |p.spans| == |references|
    && forall i :: 0 <= i < |references| ==> p.spans[i] == Span(references[i].start, references[i].end, Secret)
  }

  lemma SecretIsSecret(text: string, from: nat, to: nat)
    requires from <= to <= |text|
    requires SecretName(Body(text, from, to)).Some?
    ensures Classify(text, from, to) == Classified(Secret)
  {
    hide FindFrom, Trim, IsEnvKey;
    var body := Body(text, from, to);
    assert body[0] == SECRETS[0] != "flavor"[0];
  }

  lemma {:induction false} SecretsAreExpressions(text: string, cursor: nat)
    requires cursor <= |text|
    requires SecretsFrom(text, cursor).Secrets?
    ensures AllSecrets(ParseFrom(text, cursor), SecretsFrom(text, cursor).references)
    decreases |text| - cursor
  {
    hide NextReference, SecretName, Body, Classify;
    var next := NextReference(text, cursor);
    if next.Found? {
      SecretIsSecret(text, next.start + 3, next.to);
      SecretsAreExpressions(text, next.to + 2);
    }
  }

  // ── Which references there are ──────────────────────────────────

  ghost predicate NamesKey(body: string, prefix: string) {
    exists key :: IsEnvKey(key) && body == prefix + key
  }

  lemma StripsKey(body: string, prefix: string)
    ensures NamesKey(body, prefix) <==> StripPrefix(body, prefix).Some? && IsEnvKey(StripPrefix(body, prefix).value)
  {
    hide IsEnvKey;
    if NamesKey(body, prefix) {
      var key :| IsEnvKey(key) && body == prefix + key;
      assert body[|prefix|..] == key;
    }
    if StripPrefix(body, prefix).Some? {
      assert body == prefix + StripPrefix(body, prefix).value;
    }
  }

  /** A reference is `flavor`, `secrets.` and a key, or `vars.` and a key, blanks around it
      aside; anything else is not supported. */
  lemma ReferencesAre(text: string, from: nat, to: nat)
    requires from <= to <= |text|
    ensures
      var body, r := Body(text, from, to), Classify(text, from, to);
      && (r == Classified(Flavor) <==> body == "flavor")
      && (r == Classified(Secret) <==> NamesKey(body, SECRETS))
      && (r.Classified? && r.expression.Var? <==> NamesKey(body, VARS))
      && (r.NotSupported? <==> body != "flavor" && !NamesKey(body, SECRETS) && !NamesKey(body, VARS))
  {
    hide Body, FindFrom, IsEnvKey, NamesKey;
    var body := Body(text, from, to);
    StripsKey(body, SECRETS);
    StripsKey(body, VARS);
    FirstLetters(body);
  }

  lemma FirstLetters(body: string)
    ensures NamesKey(body, SECRETS) ==> body[0] == 's' && |body| > 7
    ensures NamesKey(body, VARS) ==> body[0] == 'v' && |body| > 4
    ensures body == "flavor" ==> body[0] == 'f'
  {
    hide IsEnvKey;
  }
}
