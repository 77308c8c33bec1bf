/** Each cycle reads the same wherever it was found. */
module CycleReports {
  import opened Wrappers
  import opened Text
  import opened Resolver

  /** No name comes before the least one. */
  lemma {:induction false} LeastIsLeast(names: seq<string>, i: nat)
    requires i < |names|
    ensures !Before(names[i], names[LeastName(names)])
  {
    hide Before;
    var least := LeastName(names);
    BeforeTotal(names[i], names[i]);
    if |names| > 1 {
      var rest := names[1..];
      var next := LeastName(rest) + 1;
      if i > 0 {
        LeastIsLeast(rest, i - 1);
      }
      BeforeTotal(names[next], names[0]);
      if least == 0 && i > 0 && Before(names[i], names[0]) {
        BeforeTotal(names[i], names[next]);
        if names[next] != names[0] {
          BeforeTransitive(names[i], names[0], names[next]);
        }
      }
    }
  }

  function Rotated(names: seq<string>, k: nat): seq<string>
    requires k <= |names|
  {
    names[k..] + names[..k]
  }

  /** Where a name stands after rotating. */
  ghost function Moved(n: nat, k: nat, i: nat): nat
    requires k <= n && i < n
  {
    if i >= k then i - k else n - k + i
  }

  lemma RotatedAt(names: seq<string>, k: nat, i: nat)
    requires k <= |names| && i < |names|
    ensures Moved(|names|, k, i) < |names| && Rotated(names, k)[Moved(|names|, k, i)] == names[i]
  {
  }

  lemma SameLeast(names: seq<string>, k: nat)
    requires k < |names| && Distinct(names)
    ensures LeastName(Rotated(names, k)) == Moved(|names|, k, LeastName(names))
  {
    hide Before, LeastName, Distinct, Rotated;
    var turned := Rotated(names, k);
    assert |turned| == |names| by {
      RotatedSize(names, k);
    }
    var m, t := LeastName(names), LeastName(turned);
    var back := if t < |names| - k then t + k else t - (|names| - k);
    RotatedAt(names, k, m);
    RotatedAt(names, k, back);
    LeastIsLeast(turned, Moved(|names|, k, m));
    LeastIsLeast(names, back);
    BeforeTotal(names[m], names[back]);
    SameIndex(names, m, back);
  }

  lemma RotatedSize(names: seq<string>, k: nat)
    requires k <= |names|
    ensures |Rotated(names, k)| == |names|
  {
  }

  lemma SameIndex(names: seq<string>, i: nat, j: nat)
    requires i < |names| && j < |names| && Distinct(names) && names[i] == names[j]
    ensures i == j
  {
  }

  lemma RotatedParts(a: seq<string>, b: seq<string>)
    ensures Rotated(a + b, |a|) == b + a
  {
  }

  lemma TwiceForward(a: seq<string>, b: seq<string>, c: seq<string>)
    ensures Rotated(Rotated(a + (b + c), |a|), |b|) == Rotated(a + b + c, |a + b|)
  {
    hide Rotated;
    RotatedParts(a, b + c);
    Associative(b, c, a);
    RotatedParts(b, c + a);
    RotatedParts(a + b, c);
    Associative(c, a, b);
  }

  lemma TwiceBack(a: seq<string>, b: seq<string>, c: seq<string>)
    ensures Rotated(Rotated(a + b + c, |a + b|), |c + a|) == Rotated(a + (b + c), |a|)
  {
    hide Rotated;
    RotatedParts(a + b, c);
    Associative(c, a, b);
    RotatedParts(c + a, b);
    RotatedParts(a, b + c);
    Associative(b, c, a);
  }

  /** Rotating twice, to the same name, is rotating once. */
  lemma RotatedTwice(names: seq<string>, k: nat, m: nat)
    requires k < |names| && m < |names|
    ensures Moved(|names|, k, m) <= |Rotated(names, k)|
    ensures Rotated(Rotated(names, k), Moved(|names|, k, m)) == Rotated(names, m)
  {
    hide Rotated;
    RotatedSize(names, k);
    var low, high := if m < k then m else k, if m < k then k else m;
    var a, b, c := names[..low], names[low..high], names[high..];
    assert a + b + c == names;
    Associative(a, b, c);
    if m >= k {
      TwiceForward(a, b, c);
    } else {
      TwiceBack(a, b, c);
    }
  }

  /** Whichever of its names a cycle is entered at, the report is the same. */
  lemma ReportedOnce(names: seq<string>, k: nat)
    requires k < |names| && Distinct(names)
    ensures ReportedCycle(Rotated(names, k)) == ReportedCycle(names)
  {
    hide LeastName, Distinct;
    var m := LeastName(names);
    SameLeast(names, k);
    RotatedTwice(names, k, m);
    RotatedAt(names, k, m);
  }
}
