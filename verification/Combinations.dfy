/** The k-element choices from a range, in lexicographic order: what both cross-validation schemes
  * enumerate. */
module Combinations {
  /** A k-element choice from `[lo, n)`: its members in strictly increasing order. */
  predicate Choice(c: seq<nat>, lo: nat, n: nat, k: nat) {
    && |c| == k && (forall i | 0 <= i < |c| :: lo <= c[i] < n)
    && forall i, j | 0 <= i < j < |c| :: c[i] < c[j]
  }

  function Prepend(x: nat, cs: seq<seq<nat>>): (r: seq<seq<nat>>)
    ensures |r| == |cs|
  {
    if |cs| == 0 then [] else [[x] + cs[0]] + Prepend(x, cs[1..])
  }

  lemma {:induction false} PrependAt(x: nat, cs: seq<seq<nat>>, i: nat)
    requires i < |cs|
    ensures Prepend(x, cs)[i] == [x] + cs[i]
  {
    if i > 0 {
      PrependAt(x, cs[1..], i - 1);
    }
  }

  /** Choices holding the smallest element first, then the rest. */
  function Combos(lo: nat, n: nat, k: nat): seq<seq<nat>>
    decreases if lo < n then n - lo else 0
  {
    if k == 0 then [[]]
    else if lo >= n then []
    else Prepend(lo, Combos(lo + 1, n, k - 1)) + Combos(lo + 1, n, k)
  }

  /** Binomial coefficients by Pascal's rule. */
  function Choose(n: nat, k: nat): nat {
    if k == 0 then 1 else if n == 0 then 0 else Choose(n - 1, k - 1) + Choose(n - 1, k)
  }

  lemma {:induction false} CombosCount(lo: nat, n: nat, k: nat)
    requires lo <= n
    ensures |Combos(lo, n, k)| == Choose(n - lo, k)
    decreases n - lo
  {
    if k > 0 && lo < n {
      CombosCount(lo + 1, n, k - 1);
      CombosCount(lo + 1, n, k);
    }
  }

  /** The listing at an index: a choice with the smallest element, or one without it. */
  lemma CombosAt(lo: nat, n: nat, k: nat, i: nat)
    requires k > 0 && lo < n && i < |Combos(lo, n, k)|
    ensures var first, rest := Combos(lo + 1, n, k - 1), Combos(lo + 1, n, k);
            && |Combos(lo, n, k)| == |first| + |rest|
            && Combos(lo, n, k)[i] == if i < |first| then [lo] + first[i] else rest[i - |first|]
  {
    var first := Combos(lo + 1, n, k - 1);
    if i < |first| {
      PrependAt(lo, first, i);
    }
  }

  /** Everything listed is a choice. */
  lemma {:induction false} CombosAreChoices(lo: nat, n: nat, k: nat, i: nat)
    requires i < |Combos(lo, n, k)|
    ensures Choice(Combos(lo, n, k)[i], lo, n, k)
    decreases if lo < n then n - lo else 0
  {
    if k > 0 {
      CombosAt(lo, n, k, i);
      var first := Combos(lo + 1, n, k - 1);
      if i < |first| {
        CombosAreChoices(lo + 1, n, k - 1, i);
      } else {
        CombosAreChoices(lo + 1, n, k, i - |first|);
      }
    }
  }

  /** Every choice is listed. */
  lemma {:induction false} ChoicesAreListed(lo: nat, n: nat, k: nat, c: seq<nat>)
    requires Choice(c, lo, n, k)
    ensures c in Combos(lo, n, k)
    decreases if lo < n then n - lo else 0
  {
    if k > 0 {
      assert lo <= c[0] < n;
      if c[0] == lo {
        TailChoice(lo, n, k, c);
        ChoicesAreListed(lo + 1, n, k - 1, c[1..]);
        PrependHolds(lo, Combos(lo + 1, n, k - 1), c[1..]);
      } else {
        ChoicesAreListed(lo + 1, n, k, c);
      }
    }
  }

  lemma TailChoice(lo: nat, n: nat, k: nat, c: seq<nat>)
    requires k > 0 && Choice(c, lo, n, k) && c[0] == lo
    ensures Choice(c[1..], lo + 1, n, k - 1) && c == [lo] + c[1..]
  {
  }

  lemma PrependHolds(x: nat, cs: seq<seq<nat>>, c: seq<nat>)
    requires c in cs
    ensures [x] + c in Prepend(x, cs)
  {
    var i :| 0 <= i < |cs| && cs[i] == c;
    PrependAt(x, cs, i);
  }

  predicate Before(a: seq<nat>, b: seq<nat>) {
    |a| == |b| > 0 && (a[0] < b[0] || (a[0] == b[0] && Before(a[1..], b[1..])))
  }

  lemma {:induction false} BeforeDiffers(a: seq<nat>, b: seq<nat>)
    requires Before(a, b)
    ensures a != b
  {
    if a[0] == b[0] {
      BeforeDiffers(a[1..], b[1..]);
    }
  }

  predicate Ascending(cs: seq<seq<nat>>) {
    forall i, j | 0 <= i < j < |cs| :: Before(cs[i], cs[j])
  }

  lemma PrependAscends(x: nat, cs: seq<seq<nat>>)
    requires Ascending(cs)
    ensures Ascending(Prepend(x, cs))
  {
    forall i, j | 0 <= i < j < |cs| ensures Before(Prepend(x, cs)[i], Prepend(x, cs)[j]) {
      PrependAt(x, cs, i);
      PrependAt(x, cs, j);
      assert ([x] + cs[i])[1..] == cs[i] && ([x] + cs[j])[1..] == cs[j];
    }
  }

  predicate AllBefore(a: seq<seq<nat>>, b: seq<seq<nat>>) {
    forall i, j | 0 <= i < |a| && 0 <= j < |b| :: Before(a[i], b[j])
  }

  lemma AppendAscends(a: seq<seq<nat>>, b: seq<seq<nat>>)
    requires Ascending(a) && Ascending(b) && AllBefore(a, b)
    ensures Ascending(a + b)
  {
  }

  /** Choices are listed in strictly increasing lexicographic order, so none repeats. */
  lemma {:induction false} CombosAscend(lo: nat, n: nat, k: nat)
    ensures Ascending(Combos(lo, n, k))
    decreases if lo < n then n - lo else 0
  {
    if k > 0 && lo < n {
      CombosAscend(lo + 1, n, k - 1);
      PrependAscends(lo, Combos(lo + 1, n, k - 1));
      CombosAscend(lo + 1, n, k);
      SmallestFirst(lo, n, k);
      AppendAscends(Prepend(lo, Combos(lo + 1, n, k - 1)), Combos(lo + 1, n, k));
    }
  }

  lemma SmallestFirst(lo: nat, n: nat, k: nat)
    requires k > 0
    ensures AllBefore(Prepend(lo, Combos(lo + 1, n, k - 1)), Combos(lo + 1, n, k))
  {
    var first, rest := Combos(lo + 1, n, k - 1), Combos(lo + 1, n, k);
    forall i, j | 0 <= i < |first| && 0 <= j < |rest| ensures Before(Prepend(lo, first)[i], rest[j]) {
      PrependAt(lo, first, i);
      CombosAreChoices(lo + 1, n, k - 1, i);
      CombosAreChoices(lo + 1, n, k, j);
    }
  }

  lemma CombosDiffer(lo: nat, n: nat, k: nat, i: nat, j: nat)
    requires i < j < |Combos(lo, n, k)|
    ensures Combos(lo, n, k)[i] != Combos(lo, n, k)[j]
  {
    CombosAscend(lo, n, k);
    BeforeDiffers(Combos(lo, n, k)[i], Combos(lo, n, k)[j]);
  }

  // ---------------------------------------------------------------------------------------------
  // How often an element is chosen
  // ---------------------------------------------------------------------------------------------

  function CountWith(cs: seq<seq<nat>>, x: nat): nat {
    if |cs| == 0 then 0 else (if x in cs[0] then 1 else 0) + CountWith(cs[1..], x)
  }

  lemma {:induction false} CountWithAppend(a: seq<seq<nat>>, b: seq<seq<nat>>, x: nat)
    ensures CountWith(a + b, x) == CountWith(a, x) + CountWith(b, x)
  {
    if |a| == 0 {
      assert a + b == b;
    } else {
      CountWithAppend(a[1..], b, x);
      assert (a + b)[1..] == a[1..] + b;
    }
  }

  lemma {:induction false} CountWithPrepend(y: nat, cs: seq<seq<nat>>, x: nat)
    ensures CountWith(Prepend(y, cs), x) == if x == y then |cs| else CountWith(cs, x)
  {
    if |cs| > 0 {
      CountWithPrepend(y, cs[1..], x);
      assert x in [y] + cs[0] <==> x == y || x in cs[0];
    }
  }

  lemma {:induction false} CountAbsent(cs: seq<seq<nat>>, x: nat)
    requires forall i | 0 <= i < |cs| :: x !in cs[i]
    ensures CountWith(cs, x) == 0
  {
    if |cs| > 0 {
      CountAbsent(cs[1..], x);
    }
  }

  /** Past the smallest element: with it first, or without it. */
  lemma LaterChosen(lo: nat, n: nat, k: nat, x: nat)
    requires lo < x < n && k > 0
    ensures CountWith(Combos(lo, n, k), x) == CountWith(Combos(lo + 1, n, k - 1), x) + CountWith(Combos(lo + 1, n, k), x)
  {
    CountWithSplit(lo, n, k, x);
  }

  /** How often an element is chosen, split by whether the smallest is. */
  lemma CountWithSplit(lo: nat, n: nat, k: nat, x: nat)
    requires lo <= x < n && k > 0
    ensures var first, rest := Combos(lo + 1, n, k - 1), Combos(lo + 1, n, k);
            CountWith(Combos(lo, n, k), x) == (if x == lo then |first| else CountWith(first, x)) + CountWith(rest, x)
  {
    var first, rest := Combos(lo + 1, n, k - 1), Combos(lo + 1, n, k);
    CountWithAppend(Prepend(lo, first), rest, x);
    CountWithPrepend(lo, first, x);
  }

  lemma NotChosen(lo: nat, n: nat, k: nat, x: nat)
    requires x < lo || k == 0
    ensures CountWith(Combos(lo, n, k), x) == 0
  {
    var cs := Combos(lo, n, k);
    forall i | 0 <= i < |cs| ensures x !in cs[i] {
      CombosAreChoices(lo, n, k, i);
    }
    CountAbsent(cs, x);
  }

  lemma SmallestChosen(lo: nat, n: nat, k: nat)
    requires lo < n && k > 0
    ensures CountWith(Combos(lo, n, k), lo) == Choose(n - lo - 1, k - 1)
  {
    CountWithSplit(lo, n, k, lo);
    CombosCount(lo + 1, n, k - 1);
    NotChosen(lo + 1, n, k, lo);
  }

  /** Choices of `k` from `m` that hold a given element. */
  function OftenChosen(m: nat, k: nat): nat
    requires m > 0
  {
    if k == 0 then 0 else Choose(m - 1, k - 1)
  }

  lemma OftenPascal(m: nat, k: nat)
    requires m > 1 && k > 0
    ensures OftenChosen(m, k) == OftenChosen(m - 1, k - 1) + OftenChosen(m - 1, k)
  {
  }

  /** Each element is in exactly as many choices, `Choose(n - lo - 1, k - 1)` of them. */
  lemma {:induction false} EachChosenEqually(lo: nat, n: nat, k: nat, x: nat)
    requires lo <= x < n
    ensures CountWith(Combos(lo, n, k), x) == OftenChosen(n - lo, k)
    decreases n - lo
  {
    if k == 0 || x == lo {
      EndChosen(lo, n, k, x);
    } else {
      var next := lo + 1;
      EachChosenEqually(next, n, k - 1, x);
      EachChosenEqually(next, n, k, x);
      LaterOften(lo, next, n, k, x);
    }
  }

  lemma EndChosen(lo: nat, n: nat, k: nat, x: nat)
    requires lo <= x < n && (k == 0 || x == lo)
    ensures CountWith(Combos(lo, n, k), x) == OftenChosen(n - lo, k)
  {
    if k == 0 {
      NotChosen(lo, n, 0, x);
    } else {
      SmallestChosen(lo, n, k);
    }
  }

  lemma LaterOften(lo: nat, next: nat, n: nat, k: nat, x: nat)
    requires lo < x < n && k > 0 && next == lo + 1
    requires CountWith(Combos(next, n, k - 1), x) == OftenChosen(n - next, k - 1)
    requires CountWith(Combos(next, n, k), x) == OftenChosen(n - next, k)
    ensures CountWith(Combos(lo, n, k), x) == OftenChosen(n - lo, k)
  {
    LaterChosen(lo, n, k, x);
    OftenPascal(n - lo, k);
  }

  lemma {:induction false} ChooseZero(n: nat, k: nat)
    requires k > n
    ensures Choose(n, k) == 0
  {
    if n > 0 {
      ChooseZero(n - 1, k - 1);
      ChooseZero(n - 1, k);
    }
  }

  lemma {:induction false} ChooseAll(n: nat)
    ensures Choose(n, n) == 1
  {
    if n > 0 {
      ChooseAll(n - 1);
      ChooseZero(n - 1, n);
    }
  }

  lemma {:induction false} ChooseSymmetric(n: nat, k: nat)
    requires k <= n
    ensures Choose(n, k) == Choose(n, n - k)
  {
    if k == 0 || k == n {
      ChooseAll(n);
    } else {
      ChooseSymmetric(n - 1, k - 1);
      ChooseSymmetric(n - 1, k);
    }
  }

  /** Choosing half of an even range puts each element in exactly half of the choices. */
  lemma HalfEach(h: nat)
    requires h > 0
    ensures 2 * Choose(2 * h - 1, h - 1) == Choose(2 * h, h)
  {
    ChooseSymmetric(2 * h - 1, h);
  }
}
