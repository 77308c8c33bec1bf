/** The memoising, budgeted, cycle-detecting resolver of `${{ }}` references. */
module Resolver {
  import opened Wrappers
  import opened Text
  import opened References
  import opened Expansion
  import opened ExpansionCost

  const MAX_VAR_EXPANSIONS: nat := 250_000
  const MAX_TOTAL_EXPANDED_BYTES: nat := 4 * 1024 * 1024

  /** Whether `${{ flavor }}` can be used; a flavor's text lives at an address. */
  datatype Scope = Value(address: nat, flavor: string) | NoFlavors | Outside

  /** The flavor scope part of a cache entry: where the flavor's text lives. */
  datatype ScopeKey = ScopeKey(kind: nat, address: nat, size: nat)

  function CacheKey(scope: Scope): ScopeKey {
    match scope
    case Value(address, flavor) => ScopeKey(0, address, Size(flavor))
    case NoFlavors => ScopeKey(1, 0, 0)
    case Outside => ScopeKey(2, 0, 0)
  }

  function FlavorIn(scope: Scope): Option<string> {
    if scope.Value? then Some(scope.flavor) else None
  }

  /** Memory while a resolver lives: the text at an address, by address and size. */
  type Memory = map<(nat, nat), string>

  ghost predicate InMemory(memory: Memory, scope: Scope) {
    scope.Value? ==>
      (scope.address, Size(scope.flavor)) in memory && memory[(scope.address, Size(scope.flavor))] == scope.flavor
  }

  ghost function KeyFlavor(memory: Memory, key: ScopeKey): Option<string> {
    if key.kind == 0 && (key.address, key.size) in memory then Some(memory[(key.address, key.size)]) else None
  }

  datatype Error =
    | Malformed(error: ParseError)
    | NoFlavorConfigured
    | FlavorOutsideTarget
    | Cycle(names: seq<string>)
    | Undefined(name: string)
    | TooManyExpansions
    | TooManyBytes
    | TooLong

  /** `is_limit_error`. */
  predicate IsLimit(error: Error) {
    error.TooManyExpansions? || error.TooManyBytes? || error.TooLong?
  }

  datatype Resolved = Ok(text: string) | Err(error: Error)

  // ── Names ───────────────────────────────────────────────────────

  /** The `HashMap` of var names: a later entry for a name replaces an earlier one. */
  function IndexOf(vars: seq<(string, string)>, k: nat): (index: map<string, nat>)
    requires k <= |vars|
    ensures forall name :: name in index ==> index[name] < k && vars[index[name]].0 == name
    ensures forall i :: 0 <= i < k ==> vars[i].0 in index
  {
    if k == 0 then map[] else IndexOf(vars, k - 1)[vars[k - 1].0 := k - 1]
  }

  function TableFor(vars: seq<(string, string)>): Table {
    var index := IndexOf(vars, |vars|);
    map name | name in index :: vars[index[name]].1
  }

  /** `min_by_key`: the first least name. */
  function LeastName(names: seq<string>): (k: nat)
    requires names != []
    ensures k < |names|
  {
    if |names| == 1 then 0
    else
      var rest := LeastName(names[1..]) + 1;
      if Before(names[rest], names[0]) then rest else 0
  }

  /** The cycle as reported: from its first name around to it again. */
  function ReportedCycle(names: seq<string>): seq<string>
    requires names != []
  {
    var first := LeastName(names);
    names[first..] + names[..first] + [names[first]]
  }

  /** An error is about this text or a var's, and says what is wrong there. */
  ghost predicate Explains(vars: Table, scope: Scope, text: string, error: Error) {
    match error
    case Malformed(e) => Parse(text) == Bad(e) || exists name :: name in vars && Parse(vars[name]) == Bad(e)
    case NoFlavorConfigured => scope.NoFlavors?
    case FlavorOutsideTarget => scope.Outside?
    case Cycle(names) => IsCycle(vars, names)
    case Undefined(name) => name !in vars && (Mentions(text, name) || exists other :: other in vars && Mentions(vars[other], name))
    case _ => true
  }

  lemma ExplainsHere(vars: Table, scope: Scope, text: string, error: Error)
    requires
      || IsLimit(error)
      || (error.Malformed? && Parse(text) == Bad(error.error))
      || (error.NoFlavorConfigured? && scope.NoFlavors?)
      || (error.FlavorOutsideTarget? && scope.Outside?)
    ensures Explains(vars, scope, text, error)
  {
    hide Mentions, Parse, IsCycle;
  }

  lemma ExplainsText(vars: Table, scope: Scope, name: string, text: string, error: Error)
    requires name in vars && Explains(vars, scope, vars[name], error)
    ensures Explains(vars, scope, text, error)
  {
    hide Mentions, Parse, IsCycle;
  }

  /** The names being expanded: distinct, defined, each mentioned by the one before, and
      the text at hand is the last one's. */
  ghost predicate IsChain(vars: Table, chain: seq<string>, text: string) {
    && (forall i :: 0 <= i < |chain| ==> chain[i] in vars)
    && (forall i, j :: 0 <= i < j < |chain| ==> chain[i] != chain[j])
    && IsPath(vars, chain)
    && (chain != [] ==> vars[chain[|chain| - 1]] == text)
  }

  ghost function NamesLeft(vars: Table, chain: seq<string>): set<string> {
    set name | name in vars && name !in chain
  }

  lemma FewerLeft(vars: Table, chain: seq<string>, name: string)
    requires name in vars && name !in chain
    ensures |NamesLeft(vars, chain + [name])| < |NamesLeft(vars, chain)|
  {
    assert NamesLeft(vars, chain) == NamesLeft(vars, chain + [name]) + {name};
  }

  lemma LongerChain(vars: Table, chain: seq<string>, text: string, name: string)
    requires IsChain(vars, chain, text) && Mentions(text, name)
    requires name in vars && name !in chain
    ensures IsChain(vars, chain + [name], vars[name])
  {
    hide Mentions;
    var longer := chain + [name];
    forall i | 0 <= i < |longer| - 1
      ensures RefersTo(vars, longer[i], longer[i + 1])
    {
      if i < |chain| - 1 {
        assert RefersTo(vars, chain[i], chain[i + 1]);
      }
    }
  }

  /** A name that is already in the chain closes a genuine cycle, however it is reported,
      and has no expansion. */
  lemma ClosedChain(vars: Table, flavor: Option<string>, chain: seq<string>, text: string, position: nat)
    requires IsChain(vars, chain, text) && position < |chain| && Mentions(text, chain[position])
    ensures IsCycle(vars, ReportedCycle(chain[position..]))
    ensures NeverExpands(vars, flavor, vars[chain[position]])
  {
    hide Mentions, LeastName;
    var names := chain[position..];
    var whole := names + [names[0]];
    forall i | 0 <= i < |whole| - 1
      ensures RefersTo(vars, whole[i], whole[i + 1])
    {
      if i < |names| - 1 {
        assert RefersTo(vars, chain[position + i], chain[position + i + 1]);
      }
    }
    RotatedCycle(vars, names, LeastName(names));
    forall n: nat {
      CycleFails(vars, flavor, whole, n);
    }
  }

  lemma Slots(cached: set<(nat, ScopeKey)>, vars: nat, scopes: set<ScopeKey>)
    requires forall entry :: entry in cached ==> entry.0 < vars && entry.1 in scopes
    ensures |cached| <= vars * |scopes|
    decreases vars
  {
    if vars == 0 {
      assert cached == {};
    } else {
      var last := set entry | entry in cached && entry.0 == vars - 1;
      var rest := cached - last;
      Slots(rest, vars - 1, scopes);
      var keys := set entry | entry in last :: entry.1;
      SameSize(last, keys, vars - 1);
      assert keys <= scopes;
      SubsetSize(keys, scopes);
      assert cached == rest + last;
      assert vars * |scopes| == (vars - 1) * |scopes| + |scopes|;
    }
  }

  lemma SubsetSize<T>(a: set<T>, b: set<T>)
    requires a <= b
    ensures |a| <= |b|
  {
    assert b == a + (b - a);
  }

  lemma {:induction false} SameSize(entries: set<(nat, ScopeKey)>, keys: set<ScopeKey>, v: nat)
    requires forall entry :: entry in entries ==> entry.0 == v
    requires keys == set entry | entry in entries :: entry.1
    ensures |entries| == |keys|
  {
    if entries != {} {
      var entry :| entry in entries;
      assert entry.1 in keys;
      var fewer := entries - {entry};
      var keysLeft := set e | e in fewer :: e.1;
      assert keysLeft == keys - {entry.1} by {
        forall k | k in keys - {entry.1}
          ensures k in keysLeft
        {
          var e :| e in entries && e.1 == k;
          assert e in fewer;
        }
      }
      SameSize(fewer, keysLeft, v);
    }
  }

  // ── The resolver ────────────────────────────────────────────────

  /** Expansion work shared by everything resolved for one file. */
  class Budget {
    var expansions: nat
    var bytes: nat

    constructor ()
      ensures expansions == 0 && bytes == 0
    {
      expansions, bytes := 0, 0;
    }
  }

  predicate WithinLimits(expansions: nat, bytes: nat) {
    expansions <= MAX_VAR_EXPANSIONS && bytes <= MAX_TOTAL_EXPANDED_BYTES
  }

  /** A reported limit was reached: the budget is over, or a text on the way is overlong. */
  ghost predicate Genuine(vars: Table, flavor: Option<string>, text: string, spent: Cost, r: Resolved) {
    r.Err? ==>
      && (r.error.TooManyExpansions? ==> spent.expansions > MAX_VAR_EXPANSIONS)
      && (r.error.TooManyBytes? ==> spent.bytes > MAX_TOTAL_EXPANDED_BYTES)
      && (r.error.TooLong? ==> SomeOverlong(vars, flavor, text))
  }

  /** Plain substitution of the text fits what is left: its cost, and every text on the way. */
  ghost predicate Affordable(vars: Table, flavor: Option<string>, text: string, spent: Cost) {
    exists n: nat :: AllFit(vars, flavor, text, n)
      && AtMost(Plus(spent, CostOf(vars, flavor, text, n)), Cost(MAX_VAR_EXPANSIONS, MAX_TOTAL_EXPANDED_BYTES))
  }

  /** What is affordable is answered: no limit can have been reached, and there is an
      expansion to be found. */
  lemma AffordableIsOk(vars: Table, flavor: Option<string>, text: string, was: Cost, now: Cost, r: Resolved)
    requires Affordable(vars, flavor, text, was) && Bounded(vars, flavor, text, was, now) && Genuine(vars, flavor, text, now, r)
    requires r.Err? && !IsLimit(r.error) ==> NeverExpands(vars, flavor, text)
    ensures r.Ok?
  {
    hide CostOf, Expand, SomeOverlong, TemplateOf, IsLong;
    var n: nat :| AllFit(vars, flavor, text, n)
      && AtMost(Plus(was, CostOf(vars, flavor, text, n)), Cost(MAX_VAR_EXPANSIONS, MAX_TOTAL_EXPANDED_BYTES));
    FitIsNeverOverlong(vars, flavor, text, n);
    assert Expand(vars, flavor, text, n).Some?;
  }

  lemma OkIsGenuine(vars: Table, flavor: Option<string>, text: string, spent: Cost, value: string)
    ensures Genuine(vars, flavor, text, spent, Ok(value))
  {
  }

  type Cache = map<(nat, ScopeKey), string>

  /** Every cached value is the plain expansion of its var in its scope. */
  ghost predicate GoodCache(vars: seq<(string, string)>, memory: Memory, scopes: set<ScopeKey>, cache: Cache) {
    forall entry :: entry in cache ==>
      && entry.0 < |vars| && entry.1 in scopes
      && Expands(TableFor(vars), KeyFlavor(memory, entry.1), vars[entry.0].1, cache[entry])
  }

  lemma CachedValue(vars: seq<(string, string)>, memory: Memory, scopes: set<ScopeKey>, cache: Cache, v: nat, scope: Scope) returns (fuel: nat)
    requires GoodCache(vars, memory, scopes, cache) && InMemory(memory, scope)
    requires v < |vars| && (v, CacheKey(scope)) in cache
    ensures Expand(TableFor(vars), FlavorIn(scope), vars[v].1, fuel) == Some(cache[(v, CacheKey(scope))])
  {
    hide Expand, TableFor;
    assert KeyFlavor(memory, CacheKey(scope)) == FlavorIn(scope);
    fuel :| Expand(TableFor(vars), FlavorIn(scope), vars[v].1, fuel) == Some(cache[(v, CacheKey(scope))]);
  }

  lemma CacheWith(vars: seq<(string, string)>, memory: Memory, scopes: set<ScopeKey>, cache: Cache, v: nat, scope: Scope, value: string, fuel: nat)
    requires GoodCache(vars, memory, scopes, cache) && InMemory(memory, scope)
    requires v < |vars| && CacheKey(scope) in scopes
    requires Expand(TableFor(vars), FlavorIn(scope), vars[v].1, fuel) == Some(value)
    ensures GoodCache(vars, memory, scopes, cache[(v, CacheKey(scope)) := value])
  {
    hide Expand, TableFor;
    assert KeyFlavor(memory, CacheKey(scope)) == FlavorIn(scope);
    assert Expands(TableFor(vars), FlavorIn(scope), vars[v].1, value);
  }

  class Resolver {
    const vars: seq<(string, string)>
    const budget: Budget
    /** Resolved vars by var and flavor scope. */
    var cache: Cache
    ghost const memory: Memory
    /** The scopes asked for, and how often a var was not in the cache. */
    ghost var scopes: set<ScopeKey>
    ghost var misses: nat

    ghost function Vars(): Table {
      TableFor(vars)
    }

    ghost predicate Valid()
      reads this
    {
      GoodCache(vars, memory, scopes, cache)
    }

    ghost function Spent(): Cost
      reads this, budget
    {
      Cost(budget.expansions, budget.bytes)
    }

    constructor (vars: seq<(string, string)>, budget: Budget, ghost memory: Memory)
      ensures Valid() && this.vars == vars && this.budget == budget && this.memory == memory
      ensures cache == map[] && misses == 0 && scopes == {}
    {
      this.vars, this.budget, this.memory := vars, budget, memory;
      this.cache, this.scopes, this.misses := map[], {}, 0;
    }

    /** A var's value: from the cache, or resolved and then cached. */
    method Value(v: nat, scope: Scope, chain: seq<string>, ghost text: string) returns (r: Resolved, ghost fuel: nat)
      requires Valid() && InMemory(memory, scope) && CacheKey(scope) in scopes
      requires v < |vars| && vars[v].0 in Vars() && Vars()[vars[v].0] == vars[v].1
      requires IsChain(Vars(), chain, text) && Mentions(text, vars[v].0) && vars[v].0 !in chain
      modifies this`cache, this`misses, budget
      ensures Valid()
      ensures NewEntries(old(cache), cache, chain)
      ensures r.Ok? ==> Expand(Vars(), FlavorIn(scope), vars[v].1, fuel) == Some(r.text)
      ensures r.Ok? && old(WithinLimits(budget.expansions, budget.bytes)) ==> WithinLimits(budget.expansions, budget.bytes)
      ensures r.Ok? ==> misses + |old(cache)| == old(misses) + |cache|
      ensures r.Err? && !IsLimit(r.error) ==> NeverExpands(Vars(), FlavorIn(scope), vars[v].1)
      ensures r.Err? && r.error.Cycle? ==> IsCycle(Vars(), r.error.names)
      ensures r.Err? ==> Explains(Vars(), scope, vars[v].1, r.error)
      ensures AtMost(old(Spent()), Spent())
      ensures Bounded(Vars(), FlavorIn(scope), vars[v].1, old(Spent()), Spent())
      ensures Genuine(Vars(), FlavorIn(scope), vars[v].1, Spent(), r)
      decreases |NamesLeft(Vars(), chain)|, 0
    {
      hide Expand, Mentions, NamesLeft, TableFor, IsChain, IsCycle, CacheKey, NeverExpands, InMemory, GoodCache, Bounded, Genuine;
      SpentNothing(Vars(), FlavorIn(scope), vars[v].1, Spent());
      var entry := (v, CacheKey(scope));
      if entry in cache {
        fuel := CachedValue(vars, memory, scopes, cache, v, scope);
        OkIsGenuine(Vars(), FlavorIn(scope), vars[v].1, Spent(), cache[entry]);
        return Ok(cache[entry]), fuel;
      }
      misses := misses + 1;
      FewerLeft(Vars(), chain, vars[v].0);
      LongerChain(Vars(), chain, text, vars[v].0);
      r, fuel := ResolveInner(vars[v].1, scope, chain + [vars[v].0]);
      if r.Ok? {
        CacheWith(vars, memory, scopes, cache, v, scope, r.text, fuel);
        assert entry !in cache;
        cache := cache[entry := r.text];
      }
    }

    /** Only vars outside the chain are added to the cache. */
    ghost predicate NewEntries(was: Cache, now: Cache, chain: seq<string>) {
      forall entry :: entry in now && entry !in was ==> entry.0 < |vars| && vars[entry.0].0 !in chain
    }

    /** A defined var that is not in the chain: one expansion, its value, and its bytes. */
    method PayFor(v: nat, scope: Scope, chain: seq<string>, ghost text: string) returns (r: Resolved, ghost fuel: nat)
      requires Valid() && InMemory(memory, scope) && CacheKey(scope) in scopes
      requires v < |vars| && vars[v].0 in Vars() && Vars()[vars[v].0] == vars[v].1
      requires IsChain(Vars(), chain, text) && Mentions(text, vars[v].0) && vars[v].0 !in chain
      modifies this`cache, this`misses, budget
      ensures Valid()
      ensures NewEntries(old(cache), cache, chain)
      ensures r.Ok? ==> Expand(Vars(), FlavorIn(scope), vars[v].1, fuel) == Some(r.text)
      ensures r.Ok? && old(WithinLimits(budget.expansions, budget.bytes)) ==> WithinLimits(budget.expansions, budget.bytes)
      ensures r.Ok? ==> misses + |old(cache)| == old(misses) + |cache|
      ensures r.Err? && !IsLimit(r.error) ==> NeverExpands(Vars(), FlavorIn(scope), vars[v].1)
      ensures r.Err? && r.error.Cycle? ==> IsCycle(Vars(), r.error.names)
      ensures r.Err? ==> Explains(Vars(), scope, vars[v].1, r.error)
      ensures AtMost(old(Spent()), Spent())
      ensures VarBounded(Vars(), FlavorIn(scope), vars[v].0, old(Spent()), Spent())
      ensures Genuine(Vars(), FlavorIn(scope), vars[v].1, Spent(), r)
      decreases |NamesLeft(Vars(), chain)|, 1
    {
      hide Expand, Mentions, NamesLeft, TableFor, IsChain, IsCycle, NeverExpands, InMemory, CacheKey, Size, Bounded, VarBounded, SomeOverlong,
        GoodCache, NewEntries;
      fuel := 0;
      ghost var was := Spent();
      SpentNothing(Vars(), FlavorIn(scope), vars[v].1, Plus(was, Cost(1, 0)));
      budget.expansions := budget.expansions + 1;
      SpentVarFirst(Vars(), FlavorIn(scope), vars[v].0, was, Plus(was, Cost(1, 0)), Spent());
      if budget.expansions > MAX_VAR_EXPANSIONS {
        NoNewEntries(cache, chain);
        return Err(TooManyExpansions), fuel;
      }
      r, fuel := Value(v, scope, chain, text);
      SpentVarFirst(Vars(), FlavorIn(scope), vars[v].0, was, Plus(was, Cost(1, 0)), Spent());
      if r.Err? {
        return;
      }
      ghost var paid := Spent();
      budget.bytes := budget.bytes + Size(r.text);
      assert Expands(Vars(), FlavorIn(scope), vars[v].1, r.text);
      SpentVarBytes(Vars(), FlavorIn(scope), vars[v].0, was, paid, r.text, Spent());
      if budget.bytes > MAX_TOTAL_EXPANDED_BYTES {
        r := Err(TooManyBytes);
      }
    }

    lemma NoNewEntries(now: Cache, chain: seq<string>)
      ensures NewEntries(now, now, chain)
    {
    }

    /** The `Var` branch of `resolve_inner`. */
    method ResolveVar(name: string, scope: Scope, chain: seq<string>, ghost text: string) returns (r: Resolved, ghost fuel: nat)
      requires Valid() && InMemory(memory, scope) && CacheKey(scope) in scopes
      requires IsChain(Vars(), chain, text) && Mentions(text, name)
      modifies this`cache, this`misses, budget
      ensures Valid()
      ensures NewEntries(old(cache), cache, chain)
      ensures r.Ok? ==> name in Vars() && Expand(Vars(), FlavorIn(scope), Vars()[name], fuel) == Some(r.text)
      ensures r.Ok? && old(WithinLimits(budget.expansions, budget.bytes)) ==> WithinLimits(budget.expansions, budget.bytes)
      ensures r.Ok? ==> misses + |old(cache)| == old(misses) + |cache|
      ensures r.Err? && !IsLimit(r.error) ==> name !in Vars() || NeverExpands(Vars(), FlavorIn(scope), Vars()[name])
      ensures r.Err? && r.error.Cycle? ==> IsCycle(Vars(), r.error.names)
      ensures r.Err? ==> Explains(Vars(), scope, text, r.error)
      ensures AtMost(old(Spent()), Spent())
      ensures VarBounded(Vars(), FlavorIn(scope), name, old(Spent()), Spent())
      ensures r.Err? && IsLimit(r.error) ==> name in Vars() && Genuine(Vars(), FlavorIn(scope), Vars()[name], Spent(), r)
      decreases |NamesLeft(Vars(), chain)|, 2
    {
      hide Expand, Mentions, ReportedCycle, NamesLeft, TableFor, IsChain, IsCycle, NeverExpands, InMemory, CacheKey, Size, VarBounded, Genuine,
        Bounded, GoodCache, WithinLimits;
      fuel := 0;
      if name in Vars() {
        SpentNothing(Vars(), FlavorIn(scope), Vars()[name], Spent());
      }
      SpentVarFirst(Vars(), FlavorIn(scope), name, Spent(), Spent(), Spent());
      var position := Position(chain, name);
      if position < |chain| {
        ChainNames(Vars(), chain, text, position);
        ClosedChain(Vars(), FlavorIn(scope), chain, text, position);
        return Err(Cycle(ReportedCycle(chain[position..]))), fuel;
      }
      var index := IndexOf(vars, |vars|);
      TableAt(vars, name);
      if name !in index {
        return Err(Undefined(name)), fuel;
      }
      r, fuel := PayFor(index[name], scope, chain, text);
      if r.Err? {
        ExplainsText(Vars(), scope, name, text, r.error);
      }
    }

    /** `resolve_inner`: the expansion of the text, or why it has none, or a limit. */
    method ResolveInner(text: string, scope: Scope, chain: seq<string>) returns (r: Resolved, ghost fuel: nat)
      requires Valid() && InMemory(memory, scope) && CacheKey(scope) in scopes
      requires IsChain(Vars(), chain, text)
      modifies this`cache, this`misses, budget
      ensures Valid()
      ensures NewEntries(old(cache), cache, chain)
      ensures r.Ok? ==> Expand(Vars(), FlavorIn(scope), text, fuel) == Some(r.text)
      ensures r.Ok? ==> Size(r.text) <= MAX_EXPANDED_BYTES || Size(r.text) <= Size(text)
      ensures r.Ok? && old(WithinLimits(budget.expansions, budget.bytes)) ==> WithinLimits(budget.expansions, budget.bytes)
      ensures r.Ok? ==> misses + |old(cache)| == old(misses) + |cache|
      ensures r.Err? && !IsLimit(r.error) ==> NeverExpands(Vars(), FlavorIn(scope), text)
      ensures r.Err? && r.error.Cycle? ==> IsCycle(Vars(), r.error.names)
      ensures r.Err? ==> Explains(Vars(), scope, text, r.error)
      ensures AtMost(old(Spent()), Spent())
      ensures Bounded(Vars(), FlavorIn(scope), text, old(Spent()), Spent())
      ensures Genuine(Vars(), FlavorIn(scope), text, Spent(), r)
      decreases |NamesLeft(Vars(), chain)|, 3
    {
      hide Explains, Bounded, VarBounded, SpentOn, SomeOverlong, Expand, ExpandPiece, Mentions, NamesLeft, TableFor, IsChain, IsCycle,
        NeverExpands, InMemory, CacheKey, Size, GoodSpans, Parse, SegmentAt, Valid;
      fuel := 0;
      ghost var was := Spent();
      SpentNothing(Vars(), FlavorIn(scope), text, was);
      var parsed := ParseExpressions(text);
      if parsed.Bad? {
        BadNeverExpands(Vars(), FlavorIn(scope), text);
        ExplainsHere(Vars(), scope, text, Malformed(parsed.error));
        return Err(Malformed(parsed.error)), fuel;
      }
      var spans := parsed.spans;
      ghost var segments := TemplateOf(text).value.segments;
      var out := "";
      for i := 0 to |spans|
        invariant Valid() && NewEntries(old(cache), cache, chain)
        invariant old(WithinLimits(budget.expansions, budget.bytes)) ==> WithinLimits(budget.expansions, budget.bytes)
        invariant misses + |old(cache)| == old(misses) + |cache|
        invariant ExpandSegments(Vars(), FlavorIn(scope), segments, i, fuel) == Some(out)
        invariant AtMost(was, Spent()) && SpentOn(Vars(), FlavorIn(scope), text, i, was, Spent())
      {
        SegmentText(text, spans, i);
        SpentEnd(Vars(), FlavorIn(scope), text, i, was, Spent());
        ghost var before := Spent();
        out := out + text[Cursor(spans, i)..spans[i].start];
        match spans[i].expression
        case Secret =>
          Step(Vars(), FlavorIn(scope), segments, i, fuel);
          SpentStep(Vars(), FlavorIn(scope), text, i, was, before, Spent());
          out := out + text[spans[i].start..spans[i].end];
        case Flavor =>
          if !scope.Value? {
            FlavorNeverExpands(Vars(), FlavorIn(scope), text, i);
            r := Err(if scope.NoFlavors? then NoFlavorConfigured else FlavorOutsideTarget);
            ExplainsHere(Vars(), scope, text, r.error);
            return;
          }
          Step(Vars(), FlavorIn(scope), segments, i, fuel);
          SpentStep(Vars(), FlavorIn(scope), text, i, was, before, Spent());
          out := out + scope.flavor;
        case Var(start, end) =>
          var name := text[start..end];
          MentionsAt(text, i, name);
          ghost var depth;
          r, depth := ResolveVar(name, scope, chain, text);
          SpentStep(Vars(), FlavorIn(scope), text, i, was, before, Spent());
          SpentEnd(Vars(), FlavorIn(scope), text, i + 1, was, Spent());
          if r.Err? {
            if r.error.TooLong? {
              LongVar(Vars(), FlavorIn(scope), text, i, name);
            }
            if !IsLimit(r.error) {
              VarNeverExpands(Vars(), FlavorIn(scope), text, i, name);
            }
            return;
          }
          fuel := VarStep(Vars(), FlavorIn(scope), segments, i, fuel, depth, name);
          out := out + r.text;
        SpentEnd(Vars(), FlavorIn(scope), text, i + 1, was, Spent());
        if Size(out) > MAX_EXPANDED_BYTES && Size(out) > Size(text) {
          LongPrefix(Vars(), FlavorIn(scope), text, i + 1, fuel);
          ExplainsHere(Vars(), scope, text, TooLong);
          return Err(TooLong), fuel;
        }
      }
      SpentEnd(Vars(), FlavorIn(scope), text, |spans|, was, Spent());
      TailText(text, spans);
      ExpandIs(Vars(), FlavorIn(scope), text, fuel);
      out := out + text[Cursor(spans, |spans|)..];
      if Size(out) > MAX_EXPANDED_BYTES && Size(out) > Size(text) {
        LongResult(Vars(), FlavorIn(scope), text, fuel);
        ExplainsHere(Vars(), scope, text, TooLong);
        return Err(TooLong), fuel;
      }
      r := Ok(out);
    }

    /** `resolve`: an answer is the plain expansion, whatever was resolved before; an
        error that is not a limit means there is no expansion; a reported cycle is real. */
    method Resolve(text: string, scope: Scope) returns (r: Resolved)
      requires Valid() && InMemory(memory, scope)
      modifies this`cache, this`misses, this`scopes, budget
      ensures Valid() && scopes == old(scopes) + {CacheKey(scope)}
      ensures r.Ok? ==> Expands(Vars(), FlavorIn(scope), text, r.text)
      ensures r.Ok? ==> Size(r.text) <= MAX_EXPANDED_BYTES || Size(r.text) <= Size(text)
      ensures r.Ok? && old(WithinLimits(budget.expansions, budget.bytes)) ==> WithinLimits(budget.expansions, budget.bytes)
      ensures r.Ok? ==> misses + |old(cache)| == old(misses) + |cache|
      ensures r.Err? && !IsLimit(r.error) ==> NeverExpands(Vars(), FlavorIn(scope), text)
      ensures r.Err? && r.error.Cycle? ==> IsCycle(Vars(), r.error.names)
      ensures r.Err? ==> Explains(Vars(), scope, text, r.error)
      ensures AtMost(old(Spent()), Spent())
      ensures Bounded(Vars(), FlavorIn(scope), text, old(Spent()), Spent())
      ensures Genuine(Vars(), FlavorIn(scope), text, Spent(), r)
      ensures Affordable(Vars(), FlavorIn(scope), text, old(Spent())) ==> r.Ok?
    {
      hide Explains, Expand, TableFor, IsCycle, NeverExpands, CacheKey, Size, KeyFlavor, Bounded, Genuine, Affordable;
      scopes := scopes + {CacheKey(scope)};
      ghost var fuel;
      r, fuel := ResolveInner(text, scope, []);
      if Affordable(Vars(), FlavorIn(scope), text, old(Spent())) {
        AffordableIsOk(Vars(), FlavorIn(scope), text, old(Spent()), Spent(), r);
      }
    }

    /** `resolve_from` as vars are validated: the chain already names the var. */
    method ResolveVarText(name: string, scope: Scope) returns (r: Resolved)
      requires Valid() && InMemory(memory, scope) && name in Vars()
      modifies this`cache, this`misses, this`scopes, budget
      ensures Valid() && scopes == old(scopes) + {CacheKey(scope)}
      ensures r.Ok? ==> Expands(Vars(), FlavorIn(scope), Vars()[name], r.text)
      ensures r.Ok? && old(WithinLimits(budget.expansions, budget.bytes)) ==> WithinLimits(budget.expansions, budget.bytes)
      ensures r.Err? && !IsLimit(r.error) ==> NeverExpands(Vars(), FlavorIn(scope), Vars()[name])
      ensures r.Err? && r.error.Cycle? ==> IsCycle(Vars(), r.error.names)
      ensures r.Err? ==> Explains(Vars(), scope, Vars()[name], r.error)
      ensures AtMost(old(Spent()), Spent())
      ensures Bounded(Vars(), FlavorIn(scope), Vars()[name], old(Spent()), Spent())
      ensures Genuine(Vars(), FlavorIn(scope), Vars()[name], Spent(), r)
    {
      hide Explains, Expand, TableFor, IsCycle, NeverExpands, CacheKey, Size, KeyFlavor, Bounded, Genuine;
      scopes := scopes + {CacheKey(scope)};
      TableAt(vars, name);
      ghost var fuel;
      r, fuel := ResolveInner(vars[IndexOf(vars, |vars|)[name]].1, scope, [name]);
    }

    /** Any number of resolves sharing the cache and the budget: each answer is the plain
        expansion of its own text, and while all succeed the work stays within the file's
        limits and each var is resolved at most once per scope. A limit that is reported was
        reached, and requests that are affordable together are all answered. */
    method ResolveAll(requests: seq<(string, Scope)>) returns (results: seq<Resolved>)
      requires Valid() && cache == map[] && misses == 0
      requires WithinLimits(budget.expansions, budget.bytes)
      requires forall i :: 0 <= i < |requests| ==> InMemory(memory, requests[i].1)
      modifies this`cache, this`misses, this`scopes, budget
      ensures |results| == |requests|
      ensures forall i :: 0 <= i < |requests| ==> Answers(Vars(), requests[i].0, requests[i].1, results[i])
      ensures forall i :: 0 <= i < |requests| ==> Genuine(Vars(), FlavorIn(requests[i].1), requests[i].0, Spent(), results[i])
      ensures AllOk(results) ==>
        && WithinLimits(budget.expansions, budget.bytes)
        && misses <= |vars| * |scopes|
      ensures forall depths: seq<nat> :: AllAffordable(Vars(), requests, depths, old(Spent())) ==> AllOk(results)
    {
      hide Answers, Explains, AllOk, TableFor, CacheKey, WithinLimits, InMemory, GoodCache, Size, IsCycle, Genuine, Bounded, AtMost, AllAffordable,
        Affordable, FlavorIn;
      results := [];
      assert misses == |cache|;
      ghost var was := Spent();
      NothingSpent(Vars(), requests, was);
      AllOkNothing();
      for i := 0 to |requests|
        invariant Valid() && |results| == i
        invariant AllOk(results) ==> WithinLimits(budget.expansions, budget.bytes) && misses == |cache|
        invariant forall j :: 0 <= j < i ==> Answers(Vars(), requests[j].0, requests[j].1, results[j])
        invariant forall j :: 0 <= j < i ==> Genuine(Vars(), FlavorIn(requests[j].1), requests[j].0, Spent(), results[j])
        invariant TotalSpent(Vars(), requests, i, was, Spent())
        invariant forall depths: seq<nat> :: AllAffordable(Vars(), requests, depths, was) ==> AllOk(results)
      {
        ghost var before := Spent();
        var r := Resolve(requests[i].0, requests[i].1);
        Answered(Vars(), requests[i].0, requests[i].1, r);
        AllOkWith(results, r);
        forall j | 0 <= j < i
          ensures Genuine(Vars(), FlavorIn(requests[j].1), requests[j].0, Spent(), results[j])
        {
          GenuineStays(Vars(), FlavorIn(requests[j].1), requests[j].0, before, Spent(), results[j]);
        }
        TotalWith(Vars(), requests, i, was, before, Spent());
        forall depths: seq<nat> | AllAffordable(Vars(), requests, depths, was)
          ensures r.Ok?
        {
          NextAffordable(Vars(), requests, depths, i, was, before);
        }
        results := results + [r];
      }
      CacheBound(vars, memory, scopes, cache);
    }
  }

  // ── Requests together ───────────────────────────────────────────

  /** What the first requests cost, each at its depth. */
  ghost function TotalCost(vars: Table, requests: seq<(string, Scope)>, depths: seq<nat>, k: nat): Cost
    requires k <= |requests| && k <= |depths|
  {
    if k == 0 then Cost(0, 0)
    else Plus(TotalCost(vars, requests, depths, k - 1), CostOf(vars, FlavorIn(requests[k - 1].1), requests[k - 1].0, depths[k - 1]))
  }

  /** Every text fits, and the total cost fits what is left. */
  ghost predicate AllAffordable(vars: Table, requests: seq<(string, Scope)>, depths: seq<nat>, spent: Cost) {
    && |depths| == |requests|
    && (forall i :: 0 <= i < |requests| ==> AllFit(vars, FlavorIn(requests[i].1), requests[i].0, depths[i]))
    && AtMost(Plus(spent, TotalCost(vars, requests, depths, |requests|)), Cost(MAX_VAR_EXPANSIONS, MAX_TOTAL_EXPANDED_BYTES))
  }

  /** At most what the first requests cost was spent. */
  ghost predicate TotalSpent(vars: Table, requests: seq<(string, Scope)>, k: nat, was: Cost, now: Cost)
    requires k <= |requests|
  {
    forall depths: seq<nat> :: AllAffordable(vars, requests, depths, was) ==> AtMost(now, Plus(was, TotalCost(vars, requests, depths, k)))
  }

  lemma NothingSpent(vars: Table, requests: seq<(string, Scope)>, was: Cost)
    ensures TotalSpent(vars, requests, 0, was, was)
  {
    hide AllFit;
  }

  lemma TotalWith(vars: Table, requests: seq<(string, Scope)>, i: nat, was: Cost, before: Cost, now: Cost)
    requires i < |requests| && TotalSpent(vars, requests, i, was, before)
    requires Bounded(vars, FlavorIn(requests[i].1), requests[i].0, before, now)
    ensures TotalSpent(vars, requests, i + 1, was, now)
  {
    hide CostOf, Expand, FlavorIn;
    forall depths: seq<nat> | AllAffordable(vars, requests, depths, was)
      ensures AtMost(now, Plus(was, TotalCost(vars, requests, depths, i + 1)))
    {
      assert AllFit(vars, FlavorIn(requests[i].1), requests[i].0, depths[i]);
      assert Expand(vars, FlavorIn(requests[i].1), requests[i].0, depths[i]).Some?;
    }
  }

  lemma {:induction false} TotalGrows(vars: Table, requests: seq<(string, Scope)>, depths: seq<nat>, i: nat, k: nat)
    requires i <= k <= |requests| && k <= |depths|
    ensures AtMost(TotalCost(vars, requests, depths, i), TotalCost(vars, requests, depths, k))
    decreases k
  {
    hide CostOf;
    if i < k {
      TotalGrows(vars, requests, depths, i, k - 1);
    }
  }

  lemma NextAffordable(vars: Table, requests: seq<(string, Scope)>, depths: seq<nat>, i: nat, was: Cost, now: Cost)
    requires i < |requests| && AllAffordable(vars, requests, depths, was) && TotalSpent(vars, requests, i, was, now)
    ensures Affordable(vars, FlavorIn(requests[i].1), requests[i].0, now)
  {
    hide CostOf, AllFit, FlavorIn;
    TotalGrows(vars, requests, depths, i + 1, |requests|);
    assert AllFit(vars, FlavorIn(requests[i].1), requests[i].0, depths[i]);
  }

  lemma GenuineStays(vars: Table, flavor: Option<string>, text: string, before: Cost, now: Cost, r: Resolved)
    requires Genuine(vars, flavor, text, before, r) && AtMost(before, now)
    ensures Genuine(vars, flavor, text, now, r)
  {
    hide SomeOverlong;
  }

  lemma AllOkNothing()
    ensures AllOk([])
  {
  }

  ghost predicate AllOk(results: seq<Resolved>) {
    forall i :: 0 <= i < |results| ==> results[i].Ok?
  }

  lemma AllOkWith(results: seq<Resolved>, r: Resolved)
    ensures AllOk(results + [r]) <==> AllOk(results) && r.Ok?
  {
    assert forall i :: 0 <= i < |results| ==> (results + [r])[i] == results[i];
    assert (results + [r])[|results|] == r;
  }

  /** What a result says about its request: the plain expansion, or that there is none,
      or that a limit was reached. */
  ghost predicate Answers(vars: Table, text: string, scope: Scope, r: Resolved) {
    && (r.Ok? ==> Expands(vars, FlavorIn(scope), text, r.text))
    && (r.Err? && !IsLimit(r.error) ==> NeverExpands(vars, FlavorIn(scope), text))
    && (r.Err? ==> Explains(vars, scope, text, r.error))
  }

  lemma Answered(vars: Table, text: string, scope: Scope, r: Resolved)
    requires r.Ok? ==> Expands(vars, FlavorIn(scope), text, r.text)
    requires r.Err? && !IsLimit(r.error) ==> NeverExpands(vars, FlavorIn(scope), text)
    requires r.Err? ==> Explains(vars, scope, text, r.error)
    ensures Answers(vars, text, scope, r)
  {
  }

  /** However vars refer to each other, there is room for each var once per scope. */
  lemma CacheBound(vars: seq<(string, string)>, memory: Memory, scopes: set<ScopeKey>, cache: Cache)
    requires GoodCache(vars, memory, scopes, cache)
    ensures |cache| <= |vars| * |scopes|
  {
    hide Expands, TableFor;
    Slots(cache.Keys, |vars|, scopes);
    assert |cache.Keys| == |cache|;
  }

  lemma SecretSegment(text: string, spans: seq<Span>, i: nat)
    requires GoodSpans(text, spans) && i < |spans| && spans[i].expression == Secret
    ensures Cursor(spans, i) <= spans[i].start <= spans[i].end <= |text|
    ensures TemplateFor(text, spans).segments[i]
      == Segment(text[Cursor(spans, i)..spans[i].start], Verbatim(text[spans[i].start..spans[i].end]))
  {
    assert GoodSpan(text, spans[i]);
    if i > 0 {
      assert spans[i - 1].end <= spans[i].start;
    }
  }

  lemma {:induction false} SecretSegments(vars: Table, flavor: Option<string>, text: string, spans: seq<Span>, k: nat)
    requires GoodSpans(text, spans) && k <= |spans|
    requires forall i :: 0 <= i < |spans| ==> spans[i].expression == Secret
    ensures Cursor(spans, k) <= |text|
    ensures ExpandSegments(vars, flavor, TemplateFor(text, spans).segments, k, 0) == Some(text[..Cursor(spans, k)])
  {
    hide GoodSpans, TemplateFor;
    if k > 0 {
      SecretSegments(vars, flavor, text, spans, k - 1);
      SecretSegment(text, spans, k - 1);
      var from, start, end := Cursor(spans, k - 1), spans[k - 1].start, spans[k - 1].end;
      assert text[..from] + text[from..start] + text[start..end] == text[..end];
    }
  }

  lemma TemplateHere(text: string, spans: seq<Span>)
    requires Parse(text) == Parsed(spans)
    ensures GoodSpans(text, spans) && TemplateOf(text) == Some(TemplateFor(text, spans))
  {
    hide GoodSpans, TemplateFor;
    ParseFromSpans(text, 0);
  }

  lemma AllSecretsUnchanged(vars: Table, flavor: Option<string>, text: string, spans: seq<Span>)
    requires GoodSpans(text, spans) && TemplateOf(text) == Some(TemplateFor(text, spans))
    requires forall i :: 0 <= i < |spans| ==> spans[i].expression == Secret
    ensures Expand(vars, flavor, text, 0) == Some(text)
  {
    hide TemplateOf, ExpandSegments, GoodSpan;
    SecretSegments(vars, flavor, text, spans, |spans|);
    var end := Cursor(spans, |spans|);
    assert text[..end] + text[end..] == text;
  }

  /** Text with only secret references resolves to itself, for any vars and flavor. */
  lemma SecretTextUnchanged(vars: Table, flavor: Option<string>, text: string)
    requires SecretsFrom(text, 0).Secrets?
    ensures Expands(vars, flavor, text, text)
  {
    hide GoodSpans, ParseFrom, TemplateOf, TemplateFor, SecretsFrom, Expand;
    SecretsAreExpressions(text, 0);
    var spans := Parse(text).spans;
    TemplateHere(text, spans);
    AllSecretsUnchanged(vars, flavor, text, spans);
  }

  lemma TableAt(vars: seq<(string, string)>, name: string)
    ensures
      var index := IndexOf(vars, |vars|);
      && (name in TableFor(vars) <==> name in index)
      && (name in index ==> TableFor(vars)[name] == vars[index[name]].1)
  {
  }

  lemma ChainNames(vars: Table, chain: seq<string>, text: string, position: nat)
    requires IsChain(vars, chain, text) && position < |chain|
    ensures chain[position] in vars
  {
  }

  lemma BadNeverExpands(vars: Table, flavor: Option<string>, text: string)
    requires Parse(text).Bad?
    ensures NeverExpands(vars, flavor, text)
  {
    hide Parse;
  }

  /** The parts of a text, as the loop cuts them out of it. */
  lemma SegmentText(text: string, spans: seq<Span>, i: nat)
    requires Parse(text) == Parsed(spans) && GoodSpans(text, spans) && i < |spans|
    ensures Cursor(spans, i) <= spans[i].start <= spans[i].end <= |text|
    ensures
      var segment := TemplateOf(text).value.segments[i];
      && segment.literal == text[Cursor(spans, i)..spans[i].start]
      && match spans[i].expression
         case Secret => segment.piece == Verbatim(text[spans[i].start..spans[i].end])
         case Flavor => segment.piece == FlavorPiece
         case Var(start, end) => start <= end <= |text| && segment.piece == VarPiece(text[start..end])
  {
    hide Parse;
    assert GoodSpan(text, spans[i]);
    if i > 0 {
      assert spans[i - 1].end <= spans[i].start;
    }
  }

  lemma TailText(text: string, spans: seq<Span>)
    requires Parse(text) == Parsed(spans) && GoodSpans(text, spans)
    ensures Cursor(spans, |spans|) <= |text| && TemplateOf(text).value.tail == text[Cursor(spans, |spans|)..]
  {
    hide Parse;
    assert |spans| > 0 ==> GoodSpan(text, spans[|spans| - 1]);
  }

  lemma MentionsAt(text: string, i: nat, name: string)
    requires TemplateOf(text).Some? && i < |TemplateOf(text).value.segments|
    requires TemplateOf(text).value.segments[i].piece == VarPiece(name)
    ensures Mentions(text, name)
  {
    hide TemplateOf;
  }

  /** A segment that needs no var. */
  lemma Step(vars: Table, flavor: Option<string>, segments: seq<Segment>, i: nat, n: nat)
    requires i < |segments| && ExpandSegments(vars, flavor, segments, i, n).Some?
    requires !segments[i].piece.VarPiece?
    requires segments[i].piece.FlavorPiece? ==> flavor.Some?
    ensures
      var piece := if segments[i].piece.FlavorPiece? then flavor.value else segments[i].piece.text;
      ExpandSegments(vars, flavor, segments, i + 1, n)
        == Some(ExpandSegments(vars, flavor, segments, i, n).value + segments[i].literal + piece)
  {
    hide Expand;
  }

  /** A segment with a var, at a depth that serves it and the segments before it. */
  lemma VarStep(vars: Table, flavor: Option<string>, segments: seq<Segment>, i: nat, n: nat, depth: nat, name: string) returns (m: nat)
    requires i < |segments| && ExpandSegments(vars, flavor, segments, i, n).Some?
    requires segments[i].piece == VarPiece(name) && name in vars
    requires Expand(vars, flavor, vars[name], depth).Some?
    ensures
      ExpandSegments(vars, flavor, segments, i + 1, m)
        == Some(ExpandSegments(vars, flavor, segments, i, n).value + segments[i].literal
                + Expand(vars, flavor, vars[name], depth).value)
  {
    hide Expand;
    m := if n <= depth then depth + 1 else n;
    DeeperSegments(vars, flavor, segments, i, n, m);
    DeeperExpand(vars, flavor, vars[name], depth, m - 1);
  }

  lemma ExpandIs(vars: Table, flavor: Option<string>, text: string, n: nat)
    requires TemplateOf(text).Some?
    requires
      var segments := TemplateOf(text).value.segments;
      ExpandSegments(vars, flavor, segments, |segments|, n).Some?
    ensures
      var template := TemplateOf(text).value;
      Expand(vars, flavor, text, n)
        == Some(ExpandSegments(vars, flavor, template.segments, |template.segments|, n).value + template.tail)
  {
    hide TemplateOf, ExpandSegments;
  }

  lemma SegmentNeverExpands(vars: Table, flavor: Option<string>, text: string, i: nat)
    requires TemplateOf(text).Some? && i < |TemplateOf(text).value.segments|
    requires forall n: nat :: ExpandPiece(vars, flavor, TemplateOf(text).value.segments[i].piece, n).None?
    ensures NeverExpands(vars, flavor, text)
  {
    hide TemplateOf, ExpandPiece;
    var segments := TemplateOf(text).value.segments;
    forall n: nat
      ensures Expand(vars, flavor, text, n) == None
    {
      FailedSegment(vars, flavor, segments, i, |segments|, n);
    }
  }

  lemma FlavorNeverExpands(vars: Table, flavor: Option<string>, text: string, i: nat)
    requires TemplateOf(text).Some? && i < |TemplateOf(text).value.segments|
    requires TemplateOf(text).value.segments[i].piece.FlavorPiece? && flavor.None?
    ensures NeverExpands(vars, flavor, text)
  {
    hide TemplateOf, Expand, NeverExpands;
    SegmentNeverExpands(vars, flavor, text, i);
  }

  lemma VarNeverExpands(vars: Table, flavor: Option<string>, text: string, i: nat, name: string)
    requires TemplateOf(text).Some? && i < |TemplateOf(text).value.segments|
    requires TemplateOf(text).value.segments[i].piece == VarPiece(name)
    requires name !in vars || NeverExpands(vars, flavor, vars[name])
    ensures NeverExpands(vars, flavor, text)
  {
    hide TemplateOf, Expand;
    SegmentNeverExpands(vars, flavor, text, i);
  }

  function Position(names: seq<string>, name: string): (k: nat)
    ensures k <= |names|
    ensures k < |names| ==> names[k] == name
    ensures k == |names| <==> name !in names
  {
    if names == [] then 0 else if names[0] == name then 0 else Position(names[1..], name) + 1
  }
}
