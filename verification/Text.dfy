/** The string operations the pipeline code uses. Text is a sequence of characters;
    where the source counts or compares bytes, `Utf8` gives them. */
module Text {
  import opened Wrappers

  newtype byte = x: int | 0 <= x < 256

  // ── Trimming ────────────────────────────────────────────────────

  /** Unicode White_Space, what `str::trim` removes. */
  predicate IsSpace(c: char) {
    || '\t' <= c <= '\r'
    || c == ' '
    || c as int in {0x85, 0xA0, 0x1680, 0x2028, 0x2029, 0x202F, 0x205F, 0x3000}
    || 0x2000 <= c as int <= 0x200A
  }

  function TrimStart(s: string): string {
    if s != [] && IsSpace(s[0]) then TrimStart(s[1..]) else s
  }

  lemma TrimStartStep(s: string)
    ensures TrimStart(s) == if s != [] && IsSpace(s[0]) then TrimStart(s[1..]) else s
  {
    hide IsSpace;
  }

  lemma {:induction false} TrimStartIs(s: string)
    ensures |TrimStart(s)| <= |s| && TrimStart(s) == s[|s| - |TrimStart(s)|..]
    ensures forall i :: 0 <= i < |s| - |TrimStart(s)| ==> IsSpace(s[i])
    ensures TrimStart(s) != [] ==> !IsSpace(TrimStart(s)[0])
  {
    hide IsSpace, TrimStart;
    if s != [] && IsSpace(s[0]) {
      TrimStartStep(s);
      TrimStartIs(s[1..]);
      var r := TrimStart(s[1..]);
      assert s[1..][|s| - 1 - |r|..] == s[|s| - |r|..];
      forall i | 0 <= i < |s| - |r|
        ensures IsSpace(s[i])
      {
        if i > 0 {
          assert s[i] == s[1..][i - 1];
        }
      }
    } else {
      TrimStartStep(s);
    }
  }

  function TrimEnd(s: string): string {
    if s != [] && IsSpace(s[|s| - 1]) then TrimEnd(s[..|s| - 1]) else s
  }

  lemma {:induction false} TrimEndIs(s: string)
    ensures TrimEnd(s) <= s
    ensures forall i :: |TrimEnd(s)| <= i < |s| ==> IsSpace(s[i])
    ensures TrimEnd(s) != [] ==> !IsSpace(TrimEnd(s)[|TrimEnd(s)| - 1])
  {
    hide IsSpace;
    if s != [] && IsSpace(s[|s| - 1]) {
      TrimEndIs(s[..|s| - 1]);
    }
  }

  function Trim(s: string): string {
    TrimEnd(TrimStart(s))
  }

  lemma TrimIs(s: string)
    ensures Trim(s) != [] ==> !IsSpace(Trim(s)[0]) && !IsSpace(Trim(s)[|Trim(s)| - 1])
  {
    hide IsSpace, TrimStart, TrimEnd;
    TrimStartIs(s);
    TrimEndIs(TrimStart(s));
  }

  /** Nothing to trim: empty, or no blank at either end. */
  predicate IsTrimmed(s: string) {
    s == [] || (!IsSpace(s[0]) && !IsSpace(s[|s| - 1]))
  }

  predicate IsBlank(s: string) {
    Trim(s) == []
  }

  lemma TrimTrimmed(s: string)
    ensures Trim(s) == s <==> IsTrimmed(s)
    ensures IsTrimmed(Trim(s))
  {
    hide IsSpace;
    TrimIs(s);
    if IsTrimmed(s) {
      assert TrimStart(s) == s;
      assert TrimEnd(s) == s;
    }
  }

  lemma TrimTwice(s: string)
    ensures Trim(Trim(s)) == Trim(s)
  {
    hide Trim, IsTrimmed;
    TrimTrimmed(s);
    TrimTrimmed(Trim(s));
  }

  /** Trimming only drops blanks: what is left starts where they end. */
  lemma TrimLead(s: string) returns (lead: nat)
    ensures lead + |Trim(s)| <= |s| && s[lead..lead + |Trim(s)|] == Trim(s)
    ensures forall i :: 0 <= i < lead ==> IsSpace(s[i])
  {
    hide TrimStart, TrimEnd, IsSpace;
    var inner := TrimStart(s);
    TrimStartIs(s);
    TrimEndIs(inner);
    lead := |s| - |inner|;
    assert Trim(s) == inner[..|Trim(s)|];
  }

  function TrimAll(texts: seq<string>): (r: seq<string>)
    ensures |r| == |texts|
    ensures forall i :: 0 <= i < |texts| ==> r[i] == Trim(texts[i])
  {
    seq(|texts|, i requires 0 <= i < |texts| => Trim(texts[i]))
  }

  // ── Searching ───────────────────────────────────────────────────

  predicate OccursAt(s: string, needle: string, k: int) {
    0 <= k <= |s| - |needle| && s[k..k + |needle|] == needle
  }

  /** `str::find`: the first occurrence. */
  function Find(s: string, needle: string): (r: Option<nat>)
    ensures r.Some? ==> OccursAt(s, needle, r.value) && forall k :: 0 <= k < r.value ==> !OccursAt(s, needle, k)
    ensures r.None? ==> forall k :: !OccursAt(s, needle, k)
  {
    FindFrom(s, needle, 0)
  }

  function FindFrom(s: string, needle: string, from: nat): (r: Option<nat>)
    requires from <= |s|
    ensures r.Some? ==> from <= r.value && OccursAt(s, needle, r.value) && forall k :: from <= k < r.value ==> !OccursAt(s, needle, k)
    ensures r.None? ==> forall k :: from <= k ==> !OccursAt(s, needle, k)
    decreases |s| - from
  {
    if OccursAt(s, needle, from) then Some(from)
    else if from == |s| then None
    else FindFrom(s, needle, from + 1)
  }

  predicate Contains(s: string, needle: string) {
    Find(s, needle).Some?
  }

  /** `str::strip_prefix`. */
  function StripPrefix(s: string, prefix: string): (r: Option<string>)
    ensures r.Some? <==> prefix <= s
    ensures r.Some? ==> s == prefix + r.value
  {
    if prefix <= s then Some(s[|prefix|..]) else None
  }

  // ── Splitting and joining ───────────────────────────────────────

  /** `str::split` on one character: never empty. */
  function Split(s: string, c: char): (parts: seq<string>)
    ensures parts != []
    ensures forall i :: 0 <= i < |parts| ==> c !in parts[i]
  {
    if s == [] then [[]]
    else if s[0] == c then [[]] + Split(s[1..], c)
    else ToFirst(s[0], Split(s[1..], c))
  }

  /** The parts with one more character at the front of the first. */
  function ToFirst(c: char, parts: seq<string>): seq<string>
    requires parts != []
  {
    [[c] + parts[0]] + parts[1..]
  }

  /** `join`. */
  function Join(parts: seq<string>, separator: string): string {
    if parts == [] then ""
    else if |parts| == 1 then parts[0]
    else parts[0] + separator + Join(parts[1..], separator)
  }

  /** Splitting and joining undo each other. */
  lemma {:induction false} JoinSplit(s: string, c: char)
    ensures Join(Split(s, c), [c]) == s
  {
    if s != [] {
      JoinSplit(s[1..], c);
      var rest := Split(s[1..], c);
      if s[0] == c {
        assert ([[]] + rest)[1..] == rest;
      } else {
        var parts := [[s[0]] + rest[0]] + rest[1..];
        assert parts[1..] == rest[1..];
      }
    }
  }

  lemma {:induction false} SplitNothing(s: string, c: char)
    requires c !in s
    ensures Split(s, c) == [s]
  {
    if s != [] {
      assert s == [s[0]] + s[1..];
      SplitNothing(s[1..], c);
    }
  }

  lemma ToFirstConcat(c: char, left: seq<string>, right: seq<string>)
    requires left != []
    ensures ToFirst(c, left + right) == ToFirst(c, left) + right
  {
    assert (left + right)[1..] == left[1..] + right;
  }

  lemma {:induction false} SplitConcat(a: string, b: string, c: char)
    ensures Split(a + [c] + b, c) == Split(a, c) + Split(b, c)
  {
    hide ToFirst;
    var s := a + [c] + b;
    if a == [] {
      assert s[0] == c && s[1..] == b;
    } else {
      assert s[0] == a[0] && s[1..] == a[1..] + [c] + b;
      SplitConcat(a[1..], b, c);
      ToFirstConcat(a[0], Split(a[1..], c), Split(b, c));
    }
  }

  lemma SliceOfSlice<T>(s: seq<T>, a: nat, b: nat, i: nat, j: nat)
    requires a <= b <= |s| && i <= j <= b - a
    ensures s[a..b][i..j] == s[a + i..a + j]
  {
    var slice := s[a..b];
    assert forall k :: 0 <= k < j - i ==> slice[i..j][k] == slice[i + k] == s[a + i + k] == s[a + i..a + j][k];
  }

  // ── Order ───────────────────────────────────────────────────────

  /** Byte order, which is also character order. */
  predicate Before(a: string, b: string) {
    b != [] && (a == [] || a[0] < b[0] || (a[0] == b[0] && Before(a[1..], b[1..])))
  }

  lemma {:induction false} BeforeTotal(a: string, b: string)
    ensures Before(a, b) || a == b || Before(b, a)
    ensures !(Before(a, b) && Before(b, a)) && !Before(a, a)
  {
    if a != [] && b != [] {
      BeforeTotal(a[1..], b[1..]);
      BeforeTotal(a[1..], a[1..]);
      assert a == [a[0]] + a[1..] && b == [b[0]] + b[1..];
    } else if a != [] {
      BeforeTotal(a[1..], a[1..]);
    }
  }

  lemma {:induction false} BeforeTransitive(a: string, b: string, c: string)
    requires Before(a, b) && Before(b, c)
    ensures Before(a, c)
  {
    if a != [] && a[0] == b[0] && b[0] == c[0] {
      BeforeTransitive(a[1..], b[1..], c[1..]);
    }
  }

  // ── Bytes ───────────────────────────────────────────────────────

  /** UTF-8, RFC 3629 section 3. */
  function EncodeChar(c: char): (bytes: seq<byte>)
    ensures 1 <= |bytes| <= 4
  {
    var n := c as int;
    if n < 0x80 then [n as byte]
    else if n < 0x800 then [(0xC0 + n / 0x40) as byte, Continuation(n)]
    else if n < 0x10000 then [(0xE0 + n / 0x1000) as byte, Continuation(n / 0x40), Continuation(n)]
    else [(0xF0 + n / 0x40000) as byte, Continuation(n / 0x1000), Continuation(n / 0x40), Continuation(n)]
  }

  function Continuation(n: nat): byte {
    (0x80 + n % 0x40) as byte
  }

  function Utf8(s: string): seq<byte> {
    if s == [] then [] else EncodeChar(s[0]) + Utf8(s[1..])
  }

  /** `str::len`. */
  function Size(s: string): nat {
    |Utf8(s)|
  }

  lemma {:induction false} Utf8Concat(a: string, b: string)
    ensures Utf8(a + b) == Utf8(a) + Utf8(b)
  {
    hide EncodeChar;
    if a == [] {
      assert a + b == b;
    } else {
      Utf8Concat(a[1..], b);
      assert (a + b)[1..] == a[1..] + b;
    }
  }

  /** An ASCII byte stands only for its own character. */
  lemma {:induction false} AsciiBytes(s: string, b: byte)
    requires b < 0x80
    ensures b in Utf8(s) <==> b as char in s
  {
    if s != [] {
      AsciiBytes(s[1..], b);
      AsciiByte(s[0], b);
      assert s == [s[0]] + s[1..];
    }
  }

  lemma AsciiByte(c: char, b: byte)
    requires b < 0x80
    ensures b in EncodeChar(c) <==> b as char == c
  {
  }

  function LengthFrom(first: byte): nat {
    if first < 0x80 then 1 else if first < 0xE0 then 2 else if first < 0xF0 then 3 else 4
  }

  lemma FirstByteTells(c: char)
    ensures |EncodeChar(c)| == LengthFrom(EncodeChar(c)[0])
  {
  }

  /** The character that bytes stand for. */
  function CodeOf(bytes: seq<byte>): int
    requires 1 <= |bytes| <= 4
  {
    match |bytes|
    case 1 => bytes[0] as int
    case 2 => (bytes[0] as int - 0xC0) * 0x40 + (bytes[1] as int - 0x80)
    case 3 => (bytes[0] as int - 0xE0) * 0x1000 + (bytes[1] as int - 0x80) * 0x40 + (bytes[2] as int - 0x80)
    case _ =>
      (bytes[0] as int - 0xF0) * 0x40000 + (bytes[1] as int - 0x80) * 0x1000 + (bytes[2] as int - 0x80) * 0x40 + (bytes[3] as int - 0x80)
  }

  lemma SixBits(n: nat)
    ensures n == n / 0x40 * 0x40 + n % 0x40 && n / 0x1000 == n / 0x40 / 0x40 && n / 0x40000 == n / 0x40 / 0x40 / 0x40
  {
  }

  lemma CodeReads(c: char)
    ensures CodeOf(EncodeChar(c)) == c as int
  {
    var n := c as int;
    SixBits(n);
    SixBits(n / 0x40);
    SixBits(n / 0x40 / 0x40);
  }

  /** No character's bytes begin another's. */
  lemma EncodedApart(c: char, d: char)
    requires EncodeChar(c) <= EncodeChar(d)
    ensures c == d
  {
    hide EncodeChar, CodeOf, LengthFrom;
    FirstByteTells(c);
    FirstByteTells(d);
    assert EncodeChar(c)[0] == EncodeChar(d)[0];
    assert EncodeChar(c) == EncodeChar(d);
    CodeReads(c);
    CodeReads(d);
  }

  /** Different texts have different bytes. */
  lemma {:induction false} Utf8Apart(a: string, b: string)
    requires Utf8(a) == Utf8(b)
    ensures a == b
  {
    hide EncodeChar;
    if a != [] && b != [] {
      var x, y := EncodeChar(a[0]), EncodeChar(b[0]);
      var all := Utf8(a);
      assert all[..|x|] == x && all[..|y|] == y;
      if |x| <= |y| {
        assert x == all[..|x|] == all[..|y|][..|x|] == y[..|x|];
        EncodedApart(a[0], b[0]);
      } else {
        assert y == all[..|y|] == all[..|x|][..|y|] == x[..|y|];
        EncodedApart(b[0], a[0]);
      }
      assert all[|x|..] == Utf8(a[1..]) && all[|x|..] == Utf8(b[1..]);
      Utf8Apart(a[1..], b[1..]);
      assert a == [a[0]] + a[1..] && b == [b[0]] + b[1..];
    }
  }
}
