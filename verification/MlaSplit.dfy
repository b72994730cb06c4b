// How many key-value splits a sparse-attention launch uses: the filling rule and the forced setting.
module MlaSplit {
  import opened Arithmetic

  predicate PowerOfTwo(x: int) {
    x == 1 || (x > 1 && x % 2 == 0 && PowerOfTwo(x / 2))
  }

  // The smallest power of two, from s on, whose programs cover the processors.
  function Covering(baseline: nat, processors: int, s: nat): (r: nat)
    requires baseline > 0 && s > 0 && PowerOfTwo(s)
    ensures PowerOfTwo(r) && baseline * r >= processors && r >= s
    decreases processors - s
  {
    CoversEventually(baseline, s);
    if baseline * s >= processors then s else Covering(baseline, processors, 2 * s)
  }

  lemma CoversEventually(baseline: nat, s: nat)
    requires baseline > 0
    ensures baseline * s >= s
  {
  }

  // The smallest power of two that is at least n.
  function NextPowerOfTwo(n: nat): (r: nat)
    ensures PowerOfTwo(r) && r >= n
  {
    Covering(1, n, 1)
  }

  // The largest power of two that divides t.
  function TwoPart(t: nat): (r: nat)
    requires t > 0
    ensures PowerOfTwo(r)
  {
    if t % 2 == 1 then 1 else 2 * TwoPart(t / 2)
  }

  // --- Powers of two -----------------------------------------------------------------------------------

  // Distinct powers of two are at least a factor of two apart.
  lemma {:induction false} PowersApart(p: nat, q: nat)
    requires PowerOfTwo(p) && PowerOfTwo(q) && p < q
    ensures 2 * p <= q
  {
    if p > 1 {
      PowersApart(p / 2, q / 2);
    }
  }

  lemma HalveDivides(t: nat, p: nat)
    requires p > 0
    ensures t % (2 * p) == 0 <==> t % 2 == 0 && (t / 2) % p == 0
  {
    if t % (2 * p) == 0 {
      var k := t / (2 * p);
      assert t == k * (2 * p);
      assert t == 2 * (k * p);
      DivModUnique(t / 2, p, k, 0);
    } else if t % 2 == 0 && (t / 2) % p == 0 {
      var k := t / 2 / p;
      assert t / 2 == k * p;
      assert t == k * (2 * p);
      DivModUnique(t, 2 * p, k, 0);
    }
  }

  // A power of two divides t exactly when it is at most the two-part of t.
  lemma {:induction false} TwoPartExactly(t: nat, p: nat)
    requires t > 0 && PowerOfTwo(p)
    ensures t % p == 0 <==> p <= TwoPart(t)
    decreases t
  {
    if p > 1 {
      HalveDivides(t, p / 2);
      if t % 2 == 0 {
        TwoPartExactly(t / 2, p / 2);
      }
    }
  }

  // Covering really is the smallest: half of it, if it grew at all, does not cover.
  lemma {:induction false} CoveringIsLeast(baseline: nat, processors: int, s: nat, p: nat)
    requires baseline > 0 && PowerOfTwo(s) && PowerOfTwo(p) && p >= s
    ensures baseline * p >= processors <==> p >= Covering(baseline, processors, s)
    decreases processors - s
  {
    CoversEventually(baseline, s);
    if baseline * s >= processors {
      LessCovers(baseline, s, p);
    } else if p > s {
      PowersApart(s, p);
      CoveringIsLeast(baseline, processors, 2 * s, p);
    }
  }

  lemma LessCovers(baseline: nat, a: nat, b: nat)
    requires a <= b
    ensures baseline * a <= baseline * b
  {
    assert baseline * (b - a) >= 0;
  }

  // --- The filling rule ----------------------------------------------------------------------------------

  // Doubling until the processors are covered or the work per split gets too small.
  method Grow(baseline: nat, processors: int, ideal: nat) returns (s: nat)
    requires baseline > 0 && PowerOfTwo(ideal)
    ensures PowerOfTwo(s) && s == Min(Covering(baseline, processors, 1), ideal)
  {
    s := 1;
    while baseline * s < processors && s < ideal
      invariant PowerOfTwo(s) && s <= ideal
      invariant Covering(baseline, processors, s) == Covering(baseline, processors, 1)
      decreases ideal - s
    {
      PowersApart(s, ideal);
      s := s * 2;
    }
    CoveringIsLeast(baseline, processors, s, s);
  }

  // Halving until the selected keys split evenly.
  method Shrink(start: nat, topk: nat) returns (s: nat)
    requires PowerOfTwo(start)
    ensures PowerOfTwo(s) && topk % s == 0
    ensures s == if topk == 0 then start else Min(start, TwoPart(topk))
  {
    s := start;
    while s > 1 && topk % s != 0
      invariant PowerOfTwo(s) && s <= start
      invariant topk == 0 ==> s == start
      invariant topk > 0 ==> Min(s, TwoPart(topk)) == Min(start, TwoPart(topk))
      decreases s
    {
      SelfMultiple(s);
      TwoPartExactly(topk, s);
      PowersApart(TwoPart(topk), s);
      s := s / 2;
    }
    if topk > 0 {
      TwoPartExactly(topk, s);
    }
  }

  // What keeps at least minTopkPerSplit keys in a split, rounded up to a power of two.
  function Ideal(topk: nat, minTopkPerSplit: nat): (r: nat)
    requires minTopkPerSplit > 0
    ensures PowerOfTwo(r)
  {
    NextPowerOfTwo(Max(1, topk / minTopkPerSplit))
  }

  // The count is the smallest of three powers of two: what covers the processors, what keeps enough keys per split,
  // and what divides the keys.
  method FillSplits(baseline: nat, processors: int, topk: nat, minTopkPerSplit: nat) returns (splits: nat)
    requires minTopkPerSplit > 0
    ensures baseline == 0 || topk == 0 ==> splits == 1
    ensures baseline > 0 && topk > 0 ==>
      splits == Min(Min(Covering(baseline, processors, 1), Ideal(topk, minTopkPerSplit)), TwoPart(topk))
    ensures PowerOfTwo(splits) && topk % splits == 0
  {
    if baseline == 0 || baseline >= processors {
      return 1;
    }
    var ideal := Ideal(topk, minTopkPerSplit);
    var s := Grow(baseline, processors, ideal);
    if topk == 0 {
      DivModUnique(0, minTopkPerSplit, 0, 0);
    }
    s := Shrink(s, topk);
    splits := if 1 >= s then 1 else s;
  }

  // What that buys: every doubling was needed, and stopping short of covering the processors has one of two reasons.
  lemma FillMeaning(baseline: nat, processors: int, topk: nat, minTopkPerSplit: nat, splits: nat)
    requires baseline > 0 && topk > 0 && minTopkPerSplit > 0
    requires splits == Min(Min(Covering(baseline, processors, 1), Ideal(topk, minTopkPerSplit)), TwoPart(topk))
    ensures splits > 1 ==> baseline * (splits / 2) < processors
    ensures baseline * splits >= processors || topk % (2 * splits) != 0 || splits >= Max(1, topk / minTopkPerSplit)
  {
    hide Covering, TwoPart, Ideal;
    HalfTooFew(baseline, processors, splits);
    if splits == Covering(baseline, processors, 1) {
    } else if splits == Ideal(topk, minTopkPerSplit) {
      IdealKeepsEnough(topk, minTopkPerSplit);
    } else {
      DoubleDoesNotDivide(topk);
    }
  }

  lemma DoubleDoesNotDivide(topk: nat)
    requires topk > 0
    ensures topk % (2 * TwoPart(topk)) != 0
  {
    assert PowerOfTwo(2 * TwoPart(topk));
    TwoPartExactly(topk, 2 * TwoPart(topk));
  }

  lemma HalfTooFew(baseline: nat, processors: int, splits: nat)
    requires baseline > 0 && PowerOfTwo(splits) && splits <= Covering(baseline, processors, 1)
    ensures splits > 1 ==> baseline * (splits / 2) < processors
  {
    if splits > 1 {
      CoveringIsLeast(baseline, processors, 1, splits / 2);
    }
  }

  lemma IdealKeepsEnough(topk: nat, minTopkPerSplit: nat)
    requires minTopkPerSplit > 0
    ensures Ideal(topk, minTopkPerSplit) >= Max(1, topk / minTopkPerSplit)
  {
  }

  // --- The forced setting -----------------------------------------------------------------------------------

  function Halved(f: nat, k: nat): nat {
    if k == 0 then f else Halved(f, k - 1) / 2
  }

  // The first of force, force/2, force/4, ... that divides the keys, ending at 1.
  method ForcedSplits(force: nat, topk: nat) returns (splits: nat, ghost halvings: nat)
    requires force > 0
    ensures splits >= 1 && topk % splits == 0
    ensures splits == Halved(force, halvings)
    ensures forall k :: 0 <= k < halvings ==> Halved(force, k) > 1 && topk % Halved(force, k) != 0
  {
    var f := force;
    halvings := 0;
    while f > 1 && topk % f != 0
      invariant f >= 1 && f == Halved(force, halvings)
      invariant forall k :: 0 <= k < halvings ==> Halved(force, k) > 1 && topk % Halved(force, k) != 0
      decreases f
    {
      f := f / 2;
      halvings := halvings + 1;
    }
    splits := if 1 >= f then 1 else f;
  }
}
