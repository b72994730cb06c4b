// How many steps of a window can be probes, given the age of the request and how many budgets may be outstanding.
module RollWindows {
  import opened Arithmetic
  import opened SpecRoll
  import opened RollState
  import opened RollProbes

  // A decayed probe is still a multiple of the base period.
  lemma ProbesAtMultiples(cfg: Config, n: nat)
    requires cfg.Valid() && Probes(cfg, n)
    ensures MultipleOf(n, cfg.probe)
  {
    if n >= cfg.probeSettle {
      var m := n / Period(cfg, n);
      assert n == (m * cfg.probeDecay) * cfg.probe by {
        assert n == m * Period(cfg, n);
        assert Period(cfg, n) == cfg.probe * cfg.probeDecay;
      }
      DivModUnique(n, cfg.probe, m * cfg.probeDecay, 0);
    }
  }

  // Steps less than `lag` past a multiple of p, among count consecutive ones.
  function Residues(first: nat, count: nat, p: nat, lag: nat): nat
    requires p > 0
  {
    if count == 0 then 0
    else Residues(first, count - 1, p, lag) + if (first + count - 1) % p < lag then 1 else 0
  }

  lemma {:induction false} ResiduesSplit(first: nat, a: nat, b: nat, p: nat, lag: nat)
    requires p > 0
    ensures Residues(first, a + b, p, lag) == Residues(first, a, p, lag) + Residues(first + a, b, p, lag)
  {
    if b > 0 {
      ResiduesSplit(first, a, b - 1, p, lag);
    }
  }

  // From a multiple on.
  lemma {:induction false} ResiduesFrom(m: nat, count: nat, p: nat, lag: nat)
    requires p > 0 && m % p == 0 && count <= p
    ensures Residues(m, count, p, lag) == Min(lag, count)
  {
    if count > 0 {
      ResiduesFrom(m, count - 1, p, lag);
      DivModUnique(m + (count - 1), p, m / p, count - 1);
    }
  }

  // Any p consecutive steps have the same number of them.
  lemma {:induction false} ResiduesPeriod(first: nat, p: nat, lag: nat)
    requires p > 0
    ensures Residues(first, p, p, lag) == Min(lag, p)
  {
    hide Residues;
    if first == 0 {
      SelfMultiple(p);
      ResiduesFrom(0, p, p, lag);
    } else {
      ResiduesPeriod(first - 1, p, lag);
      ResiduesSplit(first - 1, 1, p, p, lag);
      ResiduesSplit(first - 1, p, 1, p, lag);
      SameResidue(first - 1, p, lag);
    }
  }

  lemma SameResidue(m: nat, p: nat, lag: nat)
    requires p > 0
    ensures Residues(m, 1, p, lag) == Residues(m + p, 1, p, lag)
  {
    DivModUnique(m + p, p, m / p + 1, m % p);
    OneResidue(m, p, lag);
    OneResidue(m + p, p, lag);
  }

  lemma OneResidue(m: nat, p: nat, lag: nat)
    requires p > 0
    ensures Residues(m, 1, p, lag) == if m % p < lag then 1 else 0
  {
    assert Residues(m, 0, p, lag) == 0;
  }

  lemma {:induction false} ResiduesAtMost(first: nat, count: nat, p: nat, lag: nat)
    requires p > 0
    ensures Residues(first, count, p, lag) <= count
  {
    if count > 0 {
      ResiduesAtMost(first, count - 1, p, lag);
    }
  }

  // The most a window can have: it has that many when it begins at a multiple.
  function MostNear(count: nat, p: nat, lag: nat): nat
    requires p > 0
  {
    count / p * Min(lag, p) + Min(lag, count % p)
  }

  lemma {:induction false} ResiduesBound(first: nat, count: nat, p: nat, lag: nat)
    requires p > 0
    ensures Residues(first, count, p, lag) <= MostNear(count, p, lag)
    ensures first % p == 0 ==> Residues(first, count, p, lag) == MostNear(count, p, lag)
  {
    if count < p {
      DivModUnique(count, p, 0, count);
      ResiduesAtMost(first, count, p, lag);
      ResiduesSplit(first, count, p - count, p, lag);
      ResiduesPeriod(first, p, lag);
      if first % p == 0 {
        ResiduesFrom(first, count, p, lag);
      }
    } else {
      ResiduesBound(first, count - p, p, lag);
      ResiduesSplit(first, count - p, p, p, lag);
      ResiduesPeriod(first + (count - p), p, lag);
      OnePeriodMore(count, p, lag);
    }
  }

  lemma OnePeriodMore(count: nat, p: nat, lag: nat)
    requires p > 0 && count >= p
    ensures MostNear(count, p, lag) == MostNear(count - p, p, lag) + Min(lag, p)
  {
    var d := (count - p) / p;
    assert count - p == d * p + (count - p) % p;
    DivModUnique(count, p, d + 1, (count - p) % p);
    assert (d + 1) * Min(lag, p) == d * Min(lag, p) + Min(lag, p);
  }

  // A step near a probe is less than `lag` past a multiple of the base period.
  lemma {:induction false} NearIsResidue(cfg: Config, m: nat, from: nat, lag: nat)
    requires cfg.Valid() && NearProbe(cfg, m, from, lag)
    ensures cfg.probe > 0 && m % cfg.probe < lag
  {
    if Probes(cfg, m) {
      ProbesAtMultiples(cfg, m);
    } else {
      NearIsResidue(cfg, m - 1, from, lag - 1);
      NextResidue(m - 1, cfg.probe);
    }
  }

  lemma NextResidue(m: nat, p: nat)
    requires p > 0
    ensures (m + 1) % p <= m % p + 1
  {
    if m % p + 1 < p {
      DivModUnique(m + 1, p, m / p, m % p + 1);
    } else {
      DivModUnique(m + 1, p, m / p + 1, 0);
    }
  }

  // For a settled request it is so for the decayed period, and exactly so from its first multiple on.
  lemma {:induction false} SettledNear(cfg: Config, m: nat, from: nat, lag: nat)
    requires cfg.Valid() && from >= cfg.probeSettle && from > 0 && cfg.probe > 0
    ensures cfg.probe * cfg.probeDecay > 0
    ensures NearProbe(cfg, m, from, lag) ==> m % (cfg.probe * cfg.probeDecay) < lag
    ensures m % (cfg.probe * cfg.probeDecay) < lag && Floor(m, cfg.probe * cfg.probeDecay) >= from
      ==> NearProbe(cfg, m, from, lag)
  {
    var p := cfg.probe * cfg.probeDecay;
    assert p > 0;
    if NearProbe(cfg, m, from, lag) {
      NearExactly(cfg, m, from, lag);
      var n: nat :| from <= n <= m < n + lag && Probes(cfg, n);
      ResidueSince(n, m, p);
    }
    if m % p < lag && Floor(m, p) >= from {
      FloorIsMultiple(m, p);
      assert Probes(cfg, Floor(m, p));
      NearExactly(cfg, m, from, lag);
    }
  }

  lemma ResidueSince(n: nat, m: nat, p: nat)
    requires p > 0 && n % p == 0 && n <= m
    ensures m % p <= m - n
  {
    FloorIsLargest(n, m, p);
  }

  // Probing is off, or at period p and with `lag` budgets outstanding no window has enough steps near a probe.
  predicate RareAt(cfg: Config, p: nat, lag: nat) {
    p == 0 || MostNear(cfg.window, p, lag) < cfg.minObs
  }

  lemma {:induction false} NearAtMost(cfg: Config, first: nat, count: nat, from: nat, lag: nat)
    requires cfg.Valid() && cfg.probe > 0
    ensures NearCount(cfg, first, count, from, lag) <= Residues(first, count, cfg.probe, lag)
  {
    hide NearProbe;
    if count > 0 {
      NearAtMost(cfg, first, count - 1, from, lag);
      if NearProbe(cfg, first + count - 1, from, lag) {
        NearIsResidue(cfg, first + count - 1, from, lag);
      }
    }
  }

  lemma {:induction false} NoneNear(cfg: Config, first: nat, count: nat, from: nat, lag: nat)
    requires cfg.Valid() && cfg.probe == 0
    ensures NearCount(cfg, first, count, from, lag) == 0
  {
    hide NearProbe;
    if count > 0 {
      NoneNear(cfg, first, count - 1, from, lag);
      if NearProbe(cfg, first + count - 1, from, lag) {
        NearIsResidue(cfg, first + count - 1, from, lag);
      }
    }
  }

  // If that holds at the base period, probes are sparse at every age of a request.
  lemma RareIsSparse(cfg: Config, lag: nat)
    requires cfg.Valid() && RareAt(cfg, cfg.probe, lag)
    ensures Sparse(cfg, 0, lag)
  {
    hide MostNear;
    forall first: nat ensures NearCount(cfg, first, cfg.window, 0, lag) < cfg.minObs {
      if cfg.probe == 0 {
        NoneNear(cfg, first, cfg.window, 0, lag);
      } else {
        NearAtMost(cfg, first, cfg.window, 0, lag);
        ResiduesBound(first, cfg.window, cfg.probe, lag);
      }
    }
  }

  lemma {:induction false} SettledNearCount(cfg: Config, first: nat, count: nat, from: nat, lag: nat, p: nat)
    requires cfg.Valid() && from >= cfg.probeSettle && from > 0 && cfg.probe > 0 && p == cfg.probe * cfg.probeDecay > 0
    ensures NearCount(cfg, first, count, from, lag) <= Residues(first, count, p, lag)
    ensures first % p == 0 && first >= from ==> NearCount(cfg, first, count, from, lag) == Residues(first, count, p, lag)
  {
    hide NearProbe;
    if count > 0 {
      SettledNearCount(cfg, first, count - 1, from, lag, p);
      SettledNear(cfg, first + count - 1, from, lag);
      if first % p == 0 {
        FloorIsLargest(first, first + count - 1, p);
      }
    }
  }

  // At the decayed period: for a settled request that is exactly when they are sparse.
  lemma SettledSparseExactly(cfg: Config, from: nat, lag: nat)
    requires cfg.Valid() && from >= cfg.probeSettle && from > 0
    ensures Sparse(cfg, from, lag) <==> RareAt(cfg, cfg.probe * cfg.probeDecay, lag)
  {
    hide MostNear;
    if cfg.probe == 0 {
      forall first: nat ensures NearCount(cfg, first, cfg.window, from, lag) == 0 {
        NoneNear(cfg, first, cfg.window, from, lag);
      }
    } else {
      var p := cfg.probe * cfg.probeDecay;
      assert p > 0;
      forall first: nat
        ensures NearCount(cfg, first, cfg.window, from, lag) <= MostNear(cfg.window, p, lag)
      {
        SettledNearCount(cfg, first, cfg.window, from, lag, p);
        ResiduesBound(first, cfg.window, p, lag);
      }
      var first := from * p;
      assert first >= from;
      DivModUnique(first, p, from, 0);
      SettledNearCount(cfg, first, cfg.window, from, lag, p);
      ResiduesBound(first, cfg.window, p, lag);
    }
  }

  // While one base period is in force for the whole window.
  lemma {:induction false} YoungNearCount(cfg: Config, first: nat, count: nat, lag: nat)
    requires cfg.Valid() && cfg.probe > 0 && first % cfg.probe == 0 && first > 0 && first + count <= cfg.probeSettle
    ensures NearCount(cfg, first, count, 1, lag) == Residues(first, count, cfg.probe, lag)
  {
    hide NearProbe;
    if count > 0 {
      YoungNearCount(cfg, first, count - 1, lag);
      var m, n := first + count - 1, Floor(first + count - 1, cfg.probe);
      FloorIsLargest(first, m, cfg.probe);
      FloorIsMultiple(m, cfg.probe);
      assert Probes(cfg, n);
      NearExactly(cfg, m, 1, lag);
      if NearProbe(cfg, m, 1, lag) {
        NearIsResidue(cfg, m, 1, lag);
      }
    }
  }

  lemma YoungDense(cfg: Config, lag: nat)
    requires cfg.Valid() && cfg.probe > 0 && cfg.probe + cfg.window <= cfg.probeSettle
    ensures Sparse(cfg, 1, lag) ==> MostNear(cfg.window, cfg.probe, lag) < cfg.minObs
  {
    hide MostNear;
    SelfMultiple(cfg.probe);
    YoungNearCount(cfg, cfg.probe, cfg.window, lag);
    ResiduesBound(cfg.probe, cfg.window, cfg.probe, lag);
  }

  // The window sizes the rule's notes discuss, with four observations, settling at 48 and a decay of 4. In the
  // alternating loop 16/6 (the defaults) and 24/8 are sparse at every age, 32/6 only once the request has settled. With
  // two budgets outstanding 16/6 and 24/8 are sparse only once settled, up to three of them, and 32/6 never.
  lemma DocumentedSizes(cfg: Config)
    requires cfg.Valid() && cfg.minObs == 4 && cfg.probeSettle == 48 && cfg.probeDecay == 4
    ensures cfg.window == 16 && cfg.probe == 6 ==>
      Sparse(cfg, 0, 1) && !Sparse(cfg, 1, 2) && Sparse(cfg, 48, 2) && Sparse(cfg, 48, 3) && !Sparse(cfg, 48, 4)
    ensures cfg.window == 24 && cfg.probe == 8 ==>
      Sparse(cfg, 0, 1) && !Sparse(cfg, 1, 2) && Sparse(cfg, 48, 2) && Sparse(cfg, 48, 3) && !Sparse(cfg, 48, 4)
    ensures cfg.window == 32 && cfg.probe == 6 ==>
      !Sparse(cfg, 1, 1) && Sparse(cfg, 48, 1) && !Sparse(cfg, 48, 2)
  {
    hide Sparse;
    if cfg.window == 16 && cfg.probe == 6 {
      RareIsSparse(cfg, 1);
      YoungDense(cfg, 2);
    } else if cfg.window == 24 && cfg.probe == 8 {
      RareIsSparse(cfg, 1);
      YoungDense(cfg, 2);
    } else if cfg.window == 32 && cfg.probe == 6 {
      YoungDense(cfg, 1);
    }
    SettledSparseExactly(cfg, 48, 1);
    SettledSparseExactly(cfg, 48, 2);
    SettledSparseExactly(cfg, 48, 3);
    SettledSparseExactly(cfg, 48, 4);
  }
}
