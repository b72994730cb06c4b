// The rolling draft-length rule: per-position acceptance over a sliding window, scored against a step-time table,
// with periodic probes one position deeper and a jump to the ceiling on a fully accepted stretch.
module SpecRoll {
  import opened Arithmetic
  import opened Options

  // The environment knobs after their clamps.
  datatype Config = Config(
    window: nat,
    minObs: nat,
    stepTable: seq<real>,
    probe: nat,
    jumpN: nat,
    probeSettle: nat,
    probeDecay: nat,
    kMin: nat,
    start: Option<int>,
    enabled: bool)
  {
    ghost predicate Valid() {
      && window >= 6 && minObs >= 2 && probeDecay >= 1 && kMin >= 1
      && stepTable != [] && forall i :: 0 <= i < |stepTable| ==> stepTable[i] > 0.0
    }

    // Step times never fall with the number of verified tokens.
    ghost predicate Nondecreasing() {
      forall i, j :: 0 <= i < j < |stepTable| ==> stepTable[i] <= stepTable[j]
    }
  }

  // One recorded step: accepted and scheduled drafts.
  datatype Obs = Obs(accepted: int, drafted: int)

  // --- The estimator ------------------------------------------------------------------------------

  // Steps that drafted at least j positions.
  function Observed(hist: seq<Obs>, j: int): nat {
    if hist == [] then 0 else (if hist[0].drafted >= j then 1 else 0) + Observed(hist[1..], j)
  }

  // Steps that accepted at least j positions.
  function Paid(hist: seq<Obs>, j: int): nat {
    if hist == [] then 0 else (if hist[0].accepted >= j then 1 else 0) + Paid(hist[1..], j)
  }

  function Rate(hist: seq<Obs>, j: int): real
    requires Observed(hist, j) > 0
  {
    Paid(hist, j) as real / Observed(hist, j) as real
  }

  // The depths the loop reaches before the first one with too few observations.
  function ScorableFrom(cfg: Config, hist: seq<Obs>, cap: int, j: nat): (m: nat)
    requires 1 <= j
    ensures j - 1 <= m && (m < cap || m == j - 1 || m == cap)
    ensures forall i :: j <= i <= m ==> Observed(hist, i) >= cfg.minObs && i <= cap
    ensures m < cap ==> Observed(hist, m + 1) < cfg.minObs
    decreases cap - j
  {
    if j > cap || Observed(hist, j) < cfg.minObs then j - 1 else ScorableFrom(cfg, hist, cap, j + 1)
  }

  function Scorable(cfg: Config, hist: seq<Obs>, cap: int): nat {
    ScorableFrom(cfg, hist, cap, 1)
  }

  // Deeper positions are never observed more often.
  lemma {:induction false} ObservedAntitone(hist: seq<Obs>, i: int, j: int)
    requires i <= j
    ensures Observed(hist, i) >= Observed(hist, j)
    ensures Observed(hist, i) <= |hist|
  {
    if hist != [] {
      ObservedAntitone(hist[1..], i, j);
    }
  }

  // The scorable depths are exactly those with enough observations: stopping at the first gap loses none.
  lemma ScorableExactly(cfg: Config, hist: seq<Obs>, cap: int, j: int)
    requires 1 <= j
    ensures j <= Scorable(cfg, hist, cap) <==> j <= cap && Observed(hist, j) >= cfg.minObs
  {
    var m := Scorable(cfg, hist, cap);
    if m < j <= cap {
      ObservedAntitone(hist, m + 1, j);
    }
  }

  // --- The score ----------------------------------------------------------------------------------

  function StepMs(cfg: Config, tokens: int): real
    requires cfg.stepTable != []
  {
    var n := |cfg.stepTable|;
    if tokens <= n then cfg.stepTable[Max(tokens, 1) - 1]
    else
      var slope := if n > 1 then cfg.stepTable[n - 1] - cfg.stepTable[n - 2] else 2.0;
      cfg.stepTable[n - 1] + slope * (tokens - n) as real
  }

  // Within the table the time is the table's; beyond it every further token takes as long as the table's last one did.
  lemma StepMsMeans(cfg: Config, tokens: int)
    requires cfg.stepTable != []
    ensures 1 <= tokens <= |cfg.stepTable| ==> StepMs(cfg, tokens) == cfg.stepTable[tokens - 1]
    ensures tokens >= |cfg.stepTable| > 1 ==>
      StepMs(cfg, tokens + 1) - StepMs(cfg, tokens) == StepMs(cfg, |cfg.stepTable|) - StepMs(cfg, |cfg.stepTable| - 1)
    ensures tokens >= |cfg.stepTable| == 1 ==> StepMs(cfg, tokens + 1) - StepMs(cfg, tokens) == 2.0
  {
    var n := |cfg.stepTable|;
    var slope := if n > 1 then cfg.stepTable[n - 1] - cfg.stepTable[n - 2] else 2.0;
    if tokens >= n {
      assert slope * (tokens + 1 - n) as real == slope * (tokens - n) as real + slope;
    }
  }

  // Expected accepted drafts at budget k.
  function Cum(hist: seq<Obs>, k: nat): real
    requires forall j :: 1 <= j <= k ==> Observed(hist, j) > 0
  {
    if k == 0 then 0.0 else Cum(hist, k - 1) + Rate(hist, k)
  }

  // The step times a depth search up to cap divides by.
  ghost predicate Priced(cfg: Config, cap: int) {
    cfg.stepTable != [] && forall n :: 1 <= n <= cap + 1 ==> StepMs(cfg, n) > 0.0
  }

  // A measured table that never falls prices every depth, also the extrapolated ones.
  lemma NondecreasingIsPriced(cfg: Config, cap: int)
    requires cfg.Valid() && cfg.Nondecreasing()
    ensures Priced(cfg, cap)
    ensures forall n :: 1 <= n <= cap ==> StepMs(cfg, n) <= StepMs(cfg, n + 1)
  {
    var size := |cfg.stepTable|;
    var slope := if size > 1 then cfg.stepTable[size - 1] - cfg.stepTable[size - 2] else 2.0;
    assert slope >= 0.0;
    forall n | size < n ensures StepMs(cfg, n) >= cfg.stepTable[size - 1] && StepMs(cfg, n + 1) >= StepMs(cfg, n) {
      assert StepMs(cfg, n + 1) == StepMs(cfg, n) + slope;
      ProductSign(slope, (n - size) as real);
    }
  }

  lemma ProductSign(a: real, b: real)
    requires a >= 0.0 && b >= 0.0
    ensures a * b >= 0.0
  {
  }

  ghost predicate Scores(cfg: Config, hist: seq<Obs>, m: nat) {
    Priced(cfg, m) && forall j :: 1 <= j <= m ==> Observed(hist, j) > 0
  }

  function Score(cfg: Config, hist: seq<Obs>, k: nat): real
    requires Scores(cfg, hist, k)
  {
    (1.0 + Cum(hist, k)) / StepMs(cfg, 1 + k)
  }

  const EPS: real := 0.000000000001

  // (best_k, best_score) after the scoring loop has looked at 1..k.
  function BestUpTo(cfg: Config, hist: seq<Obs>, k: nat): (int, real)
    requires Scores(cfg, hist, k)
  {
    if k == 0 then (cfg.kMin, -1.0)
    else
      var best := BestUpTo(cfg, hist, k - 1);
      if Score(cfg, hist, k) > best.1 + EPS then (k, Score(cfg, hist, k)) else best
  }

  lemma {:induction false} CumNonnegative(hist: seq<Obs>, k: nat)
    requires forall j :: 1 <= j <= k ==> Observed(hist, j) > 0
    ensures Cum(hist, k) >= 0.0
  {
    if k > 0 {
      CumNonnegative(hist, k - 1);
      QuotientSign(Paid(hist, k) as real, Observed(hist, k) as real);
    }
  }

  lemma QuotientSign(a: real, b: real)
    requires a >= 0.0 && b > 0.0
    ensures a / b >= 0.0
  {
  }

  lemma ScoreNonnegative(cfg: Config, hist: seq<Obs>, k: nat)
    requires Scores(cfg, hist, k)
    ensures Score(cfg, hist, k) >= 0.0
  {
    CumNonnegative(hist, k);
    QuotientSign(1.0 + Cum(hist, k), StepMs(cfg, 1 + k));
  }

  // The chosen depth scores within EPS of the best and strictly above every shallower one.
  lemma {:induction false} BestIsBest(cfg: Config, hist: seq<Obs>, m: nat)
    requires Scores(cfg, hist, m) && m >= 1
    ensures var best := BestUpTo(cfg, hist, m).0;
      && 1 <= best <= m && BestUpTo(cfg, hist, m).1 == Score(cfg, hist, best)
      && (forall k :: 1 <= k < best ==> Score(cfg, hist, k) < Score(cfg, hist, best))
      && (forall k :: 1 <= k <= m ==> Score(cfg, hist, k) <= Score(cfg, hist, best) + EPS)
  {
    ScoreNonnegative(cfg, hist, m);
    if m > 1 {
      BestIsBest(cfg, hist, m - 1);
    }
    hide Score;
  }

  // --- The choice, as a value and as the loops that compute it -------------------------------------

  // None until there are enough steps and at least one judged depth.
  function Choose(cfg: Config, hist: seq<Obs>, cap: int): Option<int>
    requires cfg.Valid() && Priced(cfg, cap)
  {
    var m := Scorable(cfg, hist, cap);
    if |hist| < cfg.minObs || m == 0 then None
    else
      assert Scores(cfg, hist, m);
      Some(Max(BestUpTo(cfg, hist, m).0, cfg.kMin))
  }

  method ChooseDepth(cfg: Config, hist: seq<Obs>, cap: int) returns (chosen: Option<int>)
    requires cfg.Valid() && Priced(cfg, cap)
    ensures chosen == Choose(cfg, hist, cap)
  {
    if |hist| < cfg.minObs {
      return None;
    }
    var rates := PositionRates(cfg, hist, cap);
    if rates == [] {
      return None;
    }
    var bestK, bestScore, cum := cfg.kMin, -1.0, 0.0;
    var k := 1;
    while k < |rates| + 1
      invariant 1 <= k <= |rates| + 1
      invariant Scores(cfg, hist, |rates|)
      invariant cum == Cum(hist, k - 1)
      invariant (bestK, bestScore) == BestUpTo(cfg, hist, k - 1)
    {
      cum := cum + rates[k - 1];
      assert cum == Cum(hist, k);
      var score := (1.0 + cum) / StepMs(cfg, 1 + k);
      assert score == Score(cfg, hist, k);
      if score > bestScore + EPS {
        bestScore, bestK := score, k;
      }
      k := k + 1;
    }
    chosen := Some(Max(bestK, cfg.kMin));
  }

  // The acceptance rate of every scorable depth, shallowest first.
  method PositionRates(cfg: Config, hist: seq<Obs>, cap: int) returns (rates: seq<real>)
    requires cfg.Valid()
    ensures |rates| == Scorable(cfg, hist, cap)
    ensures forall i :: 0 <= i < |rates| ==> Observed(hist, i + 1) > 0 && rates[i] == Rate(hist, i + 1)
  {
    rates := [];
    var j := 1;
    while j < cap + 1
      invariant 1 <= j && |rates| == j - 1
      invariant ScorableFrom(cfg, hist, cap, j) == Scorable(cfg, hist, cap)
      invariant forall i :: 0 <= i < |rates| ==> Observed(hist, i + 1) > 0 && rates[i] == Rate(hist, i + 1)
    {
      var obs := Observed(hist, j);
      if obs < cfg.minObs {
        break;
      }
      rates := rates + [Paid(hist, j) as real / obs as real];
      j := j + 1;
    }
  }

  // What the rule promises: nothing while the window is thin, otherwise a depth that is judged (or the floor), within
  // EPS of the best expected throughput of all judged depths and strictly better than every shallower one.
  lemma ChooseMaximises(cfg: Config, hist: seq<Obs>, cap: int)
    requires cfg.Valid() && Priced(cfg, cap)
    ensures Choose(cfg, hist, cap).None?
       <==> |hist| < cfg.minObs || cap < 1 || Observed(hist, 1) < cfg.minObs
    ensures Choose(cfg, hist, cap).Some? ==>
      exists best :: IsBest(cfg, hist, cap, best) && Choose(cfg, hist, cap).value == Max(best, cfg.kMin)
  {
    ScorableExactly(cfg, hist, cap, 1);
    var m := Scorable(cfg, hist, cap);
    if Choose(cfg, hist, cap).Some? {
      assert Scores(cfg, hist, m);
      BestIsBest(cfg, hist, m);
      var best := BestUpTo(cfg, hist, m).0;
      ScorableAll(cfg, hist, cap);
      assert IsBest(cfg, hist, cap, best);
    }
  }

  lemma ScorableAll(cfg: Config, hist: seq<Obs>, cap: int)
    ensures forall j :: Judged(cfg, hist, cap, j) <==> 1 <= j <= Scorable(cfg, hist, cap)
  {
    forall j ensures Judged(cfg, hist, cap, j) <==> 1 <= j <= Scorable(cfg, hist, cap) {
      if 1 <= j {
        ScorableExactly(cfg, hist, cap, j);
      }
    }
  }

  // Depth j lies under the ceiling and has been drafted often enough, by itself.
  predicate Judged(cfg: Config, hist: seq<Obs>, cap: int, j: int) {
    1 <= j <= cap && Observed(hist, j) >= cfg.minObs
  }

  ghost predicate IsBest(cfg: Config, hist: seq<Obs>, cap: int, best: int)
    requires cfg.Valid() && Priced(cfg, cap)
  {
    && Judged(cfg, hist, cap, best) && Scores(cfg, hist, best)
    && forall k :: Judged(cfg, hist, cap, k) ==>
      && Scores(cfg, hist, k)
      && Score(cfg, hist, k) <= Score(cfg, hist, best) + EPS
      && (k < best ==> Score(cfg, hist, k) < Score(cfg, hist, best))
  }

  // --- Break-even: the walk the score replaced --------------------------------------------------------

  // The acceptance a depth must exceed to pay for its own verified token.
  function Tau(cfg: Config, j: int, cum: real): real
    requires cfg.stepTable != [] && StepMs(cfg, j) > 0.0
  {
    var extra := StepMs(cfg, j + 1) - StepMs(cfg, j);
    (if extra > 0.0 then extra else 0.0) * (1.0 + cum) / StepMs(cfg, j)
  }

  // (a + p) / (t + d) against a / t, without the divisions.
  lemma Mediant(a: real, p: real, t: real, d: real)
    requires t > 0.0 && t + d > 0.0
    ensures (a + p) / (t + d) > a / t <==> p * t > a * d
    ensures d * a / t < p <==> a * d < p * t
  {
    var v, w := a / t, d * a / t;
    assert v * t == a && w * t == d * a;
    QuotientAbove(a + p, t + d, v);
    assert v * (t + d) == a + v * d;
    PositiveFactor(p - v * d, t);
    assert (p - v * d) * t == p * t - a * d by {
      assert v * d * t == a * d;
    }
    PositiveFactor(p - w, t);
  }

  lemma QuotientAbove(x: real, s: real, v: real)
    requires s > 0.0
    ensures x / s > v <==> x > v * s
  {
    var u := x / s;
    assert u * s == x;
    PositiveFactor(u - v, s);
  }

  lemma PositiveFactor(x: real, f: real)
    requires f > 0.0
    ensures x * f > 0.0 <==> x > 0.0
  {
  }

  // One more position improves the score exactly when its rate earns the extra time.
  lemma ScoreStep(cfg: Config, hist: seq<Obs>, j: nat)
    requires 1 <= j && Scores(cfg, hist, j)
    ensures Score(cfg, hist, j) > Score(cfg, hist, j - 1)
       <==> Rate(hist, j) * StepMs(cfg, j) > (1.0 + Cum(hist, j - 1)) * (StepMs(cfg, j + 1) - StepMs(cfg, j))
    ensures Rate(hist, j) >= 0.0 && Cum(hist, j - 1) >= 0.0
  {
    hide Rate, StepMs;
    CumNonnegative(hist, j - 1);
    assert Rate(hist, j) >= 0.0 by {
      RateNonnegative(hist, j);
    }
    assert Score(cfg, hist, j) == (1.0 + Cum(hist, j - 1) + Rate(hist, j)) / StepMs(cfg, j + 1);
    Mediant(1.0 + Cum(hist, j - 1), Rate(hist, j), StepMs(cfg, j), StepMs(cfg, j + 1) - StepMs(cfg, j));
  }

  lemma RateNonnegative(hist: seq<Obs>, j: int)
    requires Observed(hist, j) > 0
    ensures Rate(hist, j) >= 0.0
  {
    QuotientSign(Paid(hist, j) as real, Observed(hist, j) as real);
  }

  lemma BreakEvenReal(a: real, p: real, t: real, d: real)
    requires a > 0.0 && p >= 0.0 && t > 0.0
    ensures (p > (if d > 0.0 then d else 0.0) * a / t <==> p * t > a * d) <==> !(d < 0.0 && p == 0.0)
  {
    if d > 0.0 {
      Mediant(a, p, t, d);
    } else {
      assert 0.0 * a / t == 0.0;
      PositiveFactor(p, t);
      PositiveFactor(-d, a);
      assert a * d == -((-d) * a);
    }
  }

  // Beating the break-even is the same as improving the score, except where a free deeper token (a falling table)
  // is never accepted at all: there the score still improves while the rate only equals its break-even of zero.
  lemma BreakEven(cfg: Config, hist: seq<Obs>, j: nat)
    requires 1 <= j && Scores(cfg, hist, j)
    ensures (Rate(hist, j) > Tau(cfg, j, Cum(hist, j - 1)) <==> Score(cfg, hist, j) > Score(cfg, hist, j - 1))
       <==> !(StepMs(cfg, j + 1) < StepMs(cfg, j) && Rate(hist, j) == 0.0)
  {
    hide Rate, StepMs, Score;
    ScoreStep(cfg, hist, j);
    BreakEvenReal(1.0 + Cum(hist, j - 1), Rate(hist, j), StepMs(cfg, j), StepMs(cfg, j + 1) - StepMs(cfg, j));
  }

  // Depths the break-even walk passes before the first that does not pay.
  function Walk(cfg: Config, hist: seq<Obs>, m: nat, j: nat): (g: nat)
    requires Scores(cfg, hist, m) && j <= m
    ensures j <= g <= m
    decreases m - j
  {
    if j < m && Rate(hist, j + 1) > Tau(cfg, j + 1, Cum(hist, j)) then Walk(cfg, hist, m, j + 1) else j
  }

  // Nondecreasing, convex step times and nonincreasing acceptance: the shape under which greed is safe.
  ghost predicate Shaped(cfg: Config, hist: seq<Obs>, m: nat)
    requires Scores(cfg, hist, m)
  {
    && (forall n :: 1 <= n <= m ==> StepMs(cfg, n) <= StepMs(cfg, n + 1))
    && (forall n :: 1 <= n < m ==>
      StepMs(cfg, n + 1) - StepMs(cfg, n) <= StepMs(cfg, n + 2) - StepMs(cfg, n + 1))
    && (forall j :: 1 <= j < m ==> Rate(hist, j + 1) <= Rate(hist, j))
  }

  // p*t <= a*d is handed down one position.
  lemma LossStays(a: real, p: real, t: real, d: real, p': real, d': real)
    requires a > 0.0 && p' <= p && 0.0 <= d <= d' && t > 0.0 && 0.0 <= p
    requires p * t <= a * d
    ensures p' * (t + d) <= (a + p) * d'
  {
    ProductSign(p - p', t + d);
    ProductSign(a + p, d' - d);
    assert (a + p) * d == a * d + p * d && p * (t + d) == p * t + p * d;
  }

  lemma {:induction false} OnceWorseAlwaysWorse(cfg: Config, hist: seq<Obs>, m: nat, j: nat, i: nat)
    requires Scores(cfg, hist, m) && Shaped(cfg, hist, m) && 1 <= j <= i <= m
    requires Score(cfg, hist, j) <= Score(cfg, hist, j - 1)
    ensures Score(cfg, hist, i) <= Score(cfg, hist, i - 1) && Score(cfg, hist, i) <= Score(cfg, hist, j - 1)
    decreases i - j
  {
    hide Score, Shaped;
    if j < i {
      OnceWorseAlwaysWorse(cfg, hist, m, j, i - 1);
      WorseNext(cfg, hist, m, i - 1);
    }
  }

  lemma WorseNext(cfg: Config, hist: seq<Obs>, m: nat, j: nat)
    requires Scores(cfg, hist, m) && Shaped(cfg, hist, m) && 1 <= j < m
    requires Score(cfg, hist, j) <= Score(cfg, hist, j - 1)
    ensures Score(cfg, hist, j + 1) <= Score(cfg, hist, j)
  {
    hide Score, StepMs, Rate;
    var a, p, t := 1.0 + Cum(hist, j - 1), Rate(hist, j), StepMs(cfg, j);
    var d, d' := StepMs(cfg, j + 1) - t, StepMs(cfg, j + 2) - StepMs(cfg, j + 1);
    ScoreStep(cfg, hist, j);
    ScoreStep(cfg, hist, j + 1);
    assert 1.0 + Cum(hist, j) == a + p;
    LossStays(a, p, t, d, Rate(hist, j + 1), d');
  }

  // Under that shape the walk stops at a maximum of the score, and the scored choice agrees with it up to EPS: it is
  // never deeper, scores within EPS of it, and is the same depth when every step of the walk gains more than EPS.
  lemma GreedyAgrees(cfg: Config, hist: seq<Obs>, m: nat)
    requires Scores(cfg, hist, m) && Shaped(cfg, hist, m) && m >= 1
    ensures var g, best := Walk(cfg, hist, m, 0), BestUpTo(cfg, hist, m).0;
      && (forall k :: 0 <= k <= m ==> Score(cfg, hist, k) <= Score(cfg, hist, g))
      && 1 <= best <= Max(g, 1)
      && Score(cfg, hist, Max(g, 1)) <= Score(cfg, hist, best) + EPS
      && (Gains(cfg, hist, Max(g, 1)) ==> best == Max(g, 1))
  {
    hide Score, StepMs, Rate, Shaped, Walk, BestUpTo;
    WalkStops(cfg, hist, m);
    var g := Walk(cfg, hist, m, 0);
    var top, best := Max(g, 1), BestUpTo(cfg, hist, m).0;
    TopIsTop(cfg, hist, m, g);
    BestStays(cfg, hist, top, m);
    BestIsBest(cfg, hist, top);
    if Gains(cfg, hist, top) && best < top {
      Climb(cfg, hist, best, top - 1);
    }
  }

  // Every deeper position up to top adds more than EPS.
  ghost predicate Gains(cfg: Config, hist: seq<Obs>, top: nat)
    requires Scores(cfg, hist, top)
  {
    forall j :: 1 < j <= top ==> Score(cfg, hist, j) > Score(cfg, hist, j - 1) + EPS
  }

  // No depth scores above the one the walk stops at.
  lemma WalkStops(cfg: Config, hist: seq<Obs>, m: nat)
    requires Scores(cfg, hist, m) && Shaped(cfg, hist, m)
    ensures var g := Walk(cfg, hist, m, 0);
      && (forall k :: 0 <= k <= m ==> Score(cfg, hist, k) <= Score(cfg, hist, g))
      && (forall k :: g < k <= m ==> Score(cfg, hist, k) <= Score(cfg, hist, k - 1))
  {
    hide Score, StepMs, Rate, Shaped, Walk;
    var g := Walk(cfg, hist, m, 0);
    WalkClimbs(cfg, hist, m, 0);
    forall k | g < k <= m
      ensures Score(cfg, hist, k) <= Score(cfg, hist, g) && Score(cfg, hist, k) <= Score(cfg, hist, k - 1)
    {
      OnceWorseAlwaysWorse(cfg, hist, m, g + 1, k);
    }
    forall k | 0 <= k <= g ensures Score(cfg, hist, k) <= Score(cfg, hist, g) {
      Climb(cfg, hist, k, g);
    }
  }

  lemma {:induction false} TopIsTop(cfg: Config, hist: seq<Obs>, m: nat, g: nat)
    requires Scores(cfg, hist, m) && 1 <= m && g <= m
    requires forall k :: g < k <= m ==> Score(cfg, hist, k) <= Score(cfg, hist, k - 1)
    ensures forall k :: Max(g, 1) < k <= m ==> Score(cfg, hist, k) <= Score(cfg, hist, Max(g, 1))
    decreases m
  {
    hide Score;
    var top := Max(g, 1);
    if top < m {
      TopIsTop(cfg, hist, m - 1, g);
      assert Score(cfg, hist, m) <= Score(cfg, hist, m - 1);
      assert top < m - 1 ==> Score(cfg, hist, m - 1) <= Score(cfg, hist, top);
    }
  }

  // Along the walk every step improves; past it the next one does not.
  lemma {:induction false} WalkClimbs(cfg: Config, hist: seq<Obs>, m: nat, j: nat)
    requires Scores(cfg, hist, m) && Shaped(cfg, hist, m) && j <= m
    ensures var g := Walk(cfg, hist, m, j);
      && (forall i :: j < i <= g ==> Score(cfg, hist, i) > Score(cfg, hist, i - 1))
      && (g < m ==> Score(cfg, hist, g + 1) <= Score(cfg, hist, g))
    decreases m - j
  {
    hide Score, StepMs, Rate, Tau;
    if j < m {
      assert StepMs(cfg, j + 1) <= StepMs(cfg, j + 2);
      BreakEven(cfg, hist, j + 1);
      if Rate(hist, j + 1) > Tau(cfg, j + 1, Cum(hist, j)) {
        WalkClimbs(cfg, hist, m, j + 1);
      }
    }
  }

  lemma {:induction false} Climb(cfg: Config, hist: seq<Obs>, k: nat, g: nat)
    requires Scores(cfg, hist, g) && k <= g
    requires forall i :: k < i <= g ==> Score(cfg, hist, i) > Score(cfg, hist, i - 1)
    ensures Score(cfg, hist, k) <= Score(cfg, hist, g)
    decreases g - k
  {
    if k < g {
      Climb(cfg, hist, k + 1, g);
    }
  }

  // Depths that score no better than the current best (within EPS) do not change it.
  lemma {:induction false} BestStays(cfg: Config, hist: seq<Obs>, g: nat, m: nat)
    requires Scores(cfg, hist, m) && 1 <= g <= m
    requires forall k :: g < k <= m ==> Score(cfg, hist, k) <= Score(cfg, hist, g)
    ensures BestUpTo(cfg, hist, m) == BestUpTo(cfg, hist, g)
  {
    if g < m {
      BestStays(cfg, hist, g, m - 1);
      BestIsBest(cfg, hist, g);
    }
  }

  // --- Where the documented rule and the choice part ------------------------------------------------------------

  // The deepest position whose rate reaches its break-even, 0 if none does.
  function DeepestPaying(cfg: Config, hist: seq<Obs>, m: nat): nat
    requires Scores(cfg, hist, m)
  {
    if m == 0 then 0
    else if Rate(hist, m) >= Tau(cfg, m, Cum(hist, m - 1)) then m
    else DeepestPaying(cfg, hist, m - 1)
  }

  // Two observations of three accepted drafts each.
  const TWO_FULL := [Obs(3, 3), Obs(3, 3)]

  lemma TwoFull(cfg: Config)
    requires cfg.Valid() && cfg.minObs == 2 && Priced(cfg, 3)
    ensures Scorable(cfg, TWO_FULL, 3) == 3 && Scores(cfg, TWO_FULL, 3)
    ensures forall j :: 1 <= j <= 3 ==> Rate(TWO_FULL, j) == 1.0
    ensures Cum(TWO_FULL, 0) == 0.0 && Cum(TWO_FULL, 1) == 1.0 && Cum(TWO_FULL, 2) == 2.0 && Cum(TWO_FULL, 3) == 3.0
  {
    assert TWO_FULL[1..] == [Obs(3, 3)] && TWO_FULL[1..][1..] == [];
    forall j | 1 <= j <= 3 ensures Observed(TWO_FULL, j) == 2 && Paid(TWO_FULL, j) == 2 {
      assert Observed([Obs(3, 3)], j) == 1 && Paid([Obs(3, 3)], j) == 1;
    }
    ScorableExactly(cfg, TWO_FULL, 3, 1);
    ScorableExactly(cfg, TWO_FULL, 3, 2);
    ScorableExactly(cfg, TWO_FULL, 3, 3);
  }

  // A deeper position that costs nothing pays although the way there does not: the deepest paying position is 3, the
  // choice 1.
  lemma DeepestIsNotChosen(cfg: Config)
    requires cfg.Valid() && cfg.minObs == 2 && cfg.kMin == 1 && cfg.stepTable == [9.0, 10.0, 30.0, 30.0]
    ensures Scores(cfg, TWO_FULL, 3) && DeepestPaying(cfg, TWO_FULL, 3) == 3
    ensures Choose(cfg, TWO_FULL, 3) == Some(1)
  {
    assert StepMs(cfg, 1) == 9.0 && StepMs(cfg, 2) == 10.0 && StepMs(cfg, 3) == 30.0 && StepMs(cfg, 4) == 30.0;
    assert Priced(cfg, 3);
    TwoFull(cfg);
    hide Rate, Cum, StepMs, Scorable;
    assert Score(cfg, TWO_FULL, 1) == 0.2 && Score(cfg, TWO_FULL, 2) == 0.1;
    assert Score(cfg, TWO_FULL, 3) == 4.0 / 30.0;
    assert BestUpTo(cfg, TWO_FULL, 1) == (1, 0.2);
    assert BestUpTo(cfg, TWO_FULL, 2) == (1, 0.2);
  }

  // A cliff the walk does not jump: it stops at 1, the choice is 3.
  lemma WalkIsNotChosen(cfg: Config)
    requires cfg.Valid() && cfg.minObs == 2 && cfg.kMin == 1 && cfg.stepTable == [9.0, 10.0, 16.0, 16.0]
    ensures Scores(cfg, TWO_FULL, 3) && Walk(cfg, TWO_FULL, 3, 0) == 1
    ensures Choose(cfg, TWO_FULL, 3) == Some(3)
  {
    assert StepMs(cfg, 1) == 9.0 && StepMs(cfg, 2) == 10.0 && StepMs(cfg, 3) == 16.0 && StepMs(cfg, 4) == 16.0;
    assert Priced(cfg, 3);
    TwoFull(cfg);
    hide Rate, Cum, StepMs, Scorable;
    assert Score(cfg, TWO_FULL, 1) == 0.2 && Score(cfg, TWO_FULL, 2) == 3.0 / 16.0;
    assert Score(cfg, TWO_FULL, 3) == 0.25;
    assert BestUpTo(cfg, TWO_FULL, 1) == (1, 0.2);
    assert BestUpTo(cfg, TWO_FULL, 2) == (1, 0.2);
    assert Walk(cfg, TWO_FULL, 3, 1) == 1;
  }

  // A cheaper deeper position that is never accepted improves the score without beating its break-even.
  lemma FreeRejection(cfg: Config, hist: seq<Obs>)
    requires cfg.Valid() && cfg.stepTable == [9.0, 10.0, 8.0] && hist == [Obs(1, 2), Obs(1, 2)]
    ensures Scores(cfg, hist, 2) && Rate(hist, 2) == 0.0
    ensures Score(cfg, hist, 2) > Score(cfg, hist, 1) && !(Rate(hist, 2) > Tau(cfg, 2, Cum(hist, 1)))
  {
    assert hist[1..] == [Obs(1, 2)] && hist[1..][1..] == [];
    assert StepMs(cfg, 1) == 9.0 && StepMs(cfg, 2) == 10.0 && StepMs(cfg, 3) == 8.0;
    assert Observed(hist[1..], 1) == 1 && Observed(hist[1..], 2) == 1;
    assert Paid(hist[1..], 1) == 1 && Paid(hist[1..], 2) == 0;
    assert Observed(hist, 1) == 2 && Observed(hist, 2) == 2 && Paid(hist, 1) == 2 && Paid(hist, 2) == 0;
    assert Rate(hist, 1) == 1.0 && Rate(hist, 2) == 0.0;
    assert Cum(hist, 0) == 0.0;
    assert Cum(hist, 1) == Cum(hist, 0) + Rate(hist, 1);
    assert Cum(hist, 2) == Cum(hist, 1) + Rate(hist, 2);
    hide StepMs;
    assert Score(cfg, hist, 1) == 0.2 && Score(cfg, hist, 2) == 0.25;
  }
}
