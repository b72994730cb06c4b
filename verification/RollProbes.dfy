// What probing can and cannot do over whole runs: which recorded steps can have been probes when budgets are asked for
// ahead of the outputs, how many of them a window holds, and when they are too few to ever raise the length.
module RollProbes {
  import opened Arithmetic
  import opened Options
  import opened SpecRoll
  import opened RollState
  import opened RollRuns
  import opened RollFlights

  // --- Counting multiples ------------------------------------------------------------------------------------

  // Multiples of period among count consecutive step numbers.
  function Multiples(first: nat, count: nat, period: nat): nat {
    if count == 0 then 0
    else Multiples(first, count - 1, period) + if MultipleOf(first + count - 1, period) then 1 else 0
  }

  lemma NextCeiling(x: nat, p: nat)
    requires p > 0
    ensures (x + p) / p == (x + p - 1) / p + if MultipleOf(x, p) then 1 else 0
  {
    var q, r := x / p, x % p;
    DivModUnique(x + p, p, q + 1, r);
    if r == 0 {
      DivModUnique(x + p - 1, p, q, p - 1);
    } else {
      DivModUnique(x + p - 1, p, q + 1, r - 1);
    }
  }

  lemma {:induction false} MultiplesExactly(first: nat, count: nat, p: nat)
    requires p > 0
    ensures Multiples(first, count, p) == (first + count + p - 1) / p - (first + p - 1) / p
  {
    if count > 0 {
      MultiplesExactly(first, count - 1, p);
      NextCeiling(first + count - 1, p);
    }
  }

  lemma DifferenceOfQuotients(a: nat, c: nat, p: nat)
    requires p > 0
    ensures c / p <= (a + c) / p - a / p <= (c + p - 1) / p
  {
    var q, r, d, e := a / p, a % p, c / p, c % p;
    if r + e < p {
      DivModUnique(a + c, p, q + d, r + e);
    } else {
      DivModUnique(a + c, p, q + d + 1, r + e - p);
    }
    if e == 0 {
      DivModUnique(c + p - 1, p, d, p - 1);
    } else {
      DivModUnique(c + p - 1, p, d + 1, e - 1);
    }
  }

  // A window of count steps holds between floor(count / p) and ceil(count / p) of them, wherever it starts.
  lemma MultiplesBounds(first: nat, count: nat, p: nat)
    requires p > 0
    ensures count / p <= Multiples(first, count, p) <= (count + p - 1) / p
  {
    MultiplesExactly(first, count, p);
    DifferenceOfQuotients(first + p - 1, count, p);
  }

  lemma {:induction false} ObservedAppend(hist: seq<Obs>, o: Obs, j: int)
    ensures Observed(hist + [o], j) == Observed(hist, j) + if o.drafted >= j then 1 else 0
  {
    if hist != [] {
      ObservedAppend(hist[1..], o, j);
      assert (hist + [o])[1..] == hist[1..] + [o];
    }
  }

  // --- Which recorded steps can be probes --------------------------------------------------------------------

  // A budget asked for at step m or up to lag - 1 steps before it, not earlier than `from`, was a probe. With a lag of
  // one, budgets and outputs alternate, and that is: m itself probes.
  predicate NearProbe(cfg: Config, m: nat, from: nat, lag: nat) {
    lag > 0 && m >= from && (Probes(cfg, m) || (m > 0 && NearProbe(cfg, m - 1, from, lag - 1)))
  }

  lemma {:induction false} NearExactly(cfg: Config, m: nat, from: nat, lag: nat)
    ensures NearProbe(cfg, m, from, lag) <==> exists n: nat :: from <= n <= m < n + lag && Probes(cfg, n)
  {
    hide Probes;
    if lag > 0 && m >= from && m > 0 {
      NearExactly(cfg, m - 1, from, lag - 1);
      if exists n: nat :: from <= n <= m < n + lag && Probes(cfg, n) {
        var n: nat :| from <= n <= m < n + lag && Probes(cfg, n);
        assert n == m || from <= n <= m - 1 < n + (lag - 1);
      }
    }
  }

  lemma NearItself(cfg: Config, m: nat, from: nat)
    ensures NearProbe(cfg, m, from, 1) <==> m >= from && Probes(cfg, m)
  {
    assert m > 0 ==> !NearProbe(cfg, m - 1, from, 0);
  }

  // The steps among count consecutive ones that can be probes.
  function NearCount(cfg: Config, first: nat, count: nat, from: nat, lag: nat): nat {
    if count == 0 then 0
    else NearCount(cfg, first, count - 1, from, lag) + if NearProbe(cfg, first + count - 1, from, lag) then 1 else 0
  }

  lemma {:induction false} NearCountGrows(cfg: Config, first: nat, count: nat, more: nat, from: nat, lag: nat)
    requires count <= more
    ensures NearCount(cfg, first, count, from, lag) <= NearCount(cfg, first, more, from, lag)
  {
    if count < more {
      NearCountGrows(cfg, first, count, more - 1, from, lag);
    }
  }

  // No window holds enough of them for a judgement.
  ghost predicate Sparse(cfg: Config, from: nat, lag: nat) {
    forall first: nat :: NearCount(cfg, first, cfg.window, from, lag) < cfg.minObs
  }

  // --- Without a jump, too few probes never raise the length ---------------------------------------------------

  function QuietDrafts(cfg: Config, m: nat, k: int, from: nat, lag: nat): int {
    if NearProbe(cfg, m, from, lag) then k + 1 else k
  }

  function ProbeDrafts(cfg: Config, n: nat, k: int): int {
    if Probes(cfg, n) then k + 1 else k
  }

  // The i-th outstanding budget is at most k, or a probe asked for at `from` or later, and not older than the lag
  // allows.
  predicate WaitsQuiet(cfg: Config, f: Flight, i: nat, k: int, from: nat, lag: nat)
    requires i < |f.pending|
  {
    var p := f.pending[i];
    p.n <= f.roll.n && f.roll.n + i < p.n + lag && p.budget <= if p.n >= from then ProbeDrafts(cfg, p.n, k) else k
  }

  predicate AllWaitQuiet(cfg: Config, f: Flight, k: int, from: nat, lag: nat) {
    forall i :: 0 <= i < |f.pending| ==> WaitsQuiet(cfg, f, i, k, from, lag)
  }

  // Everything in the window was drafted at k or shallower, except that steps near a probe numbered `from` or later may
  // have gone one deeper; and so it is with everything outstanding.
  predicate Quiet(cfg: Config, f: Flight, k: int, from: nat, lag: nat) {
    var r := f.roll;
    && from <= r.n && |r.hist| <= Min(r.n, cfg.window) && (r.cap.Some? ==> r.cap.value <= k)
    && (forall i :: 0 <= i < |r.hist| ==> r.hist[i].drafted <= QuietDrafts(cfg, r.n - |r.hist| + i, k, from, lag))
    && AllWaitQuiet(cfg, f, k, from, lag)
  }

  lemma {:induction false} QuietObserved(cfg: Config, hist: seq<Obs>, first: nat, k: int, from: nat, lag: nat)
    requires forall i :: 0 <= i < |hist| ==> hist[i].drafted <= QuietDrafts(cfg, first + i, k, from, lag)
    ensures Observed(hist, k + 1) <= NearCount(cfg, first, |hist|, from, lag)
    ensures Observed(hist, k + 2) == 0
  {
    hide NearProbe;
    if hist != [] {
      var front, last := hist[..|hist| - 1], hist[|hist| - 1];
      QuietObserved(cfg, front, first, k, from, lag);
      assert hist == front + [last];
      ObservedAppend(front, last, k + 1);
      ObservedAppend(front, last, k + 2);
    }
  }

  lemma QuietUnscorable(cfg: Config, f: Flight, k: int, from: nat, lag: nat, cap: int)
    requires cfg.Valid() && Quiet(cfg, f, k, from, lag) && Sparse(cfg, from, lag) && k >= 0
    ensures Scorable(cfg, f.roll.hist, cap) <= k
  {
    var r := f.roll;
    hide NearProbe, WaitsQuiet;
    QuietObserved(cfg, r.hist, r.n - |r.hist|, k, from, lag);
    NearCountGrows(cfg, r.n - |r.hist|, |r.hist|, cfg.window, from, lag);
    ScorableExactly(cfg, r.hist, cap, k + 1);
  }

  lemma QuietEstimate(cfg: Config, r: Roll, k: int, cap: int)
    requires cfg.Valid() && Priced(cfg, cap)
    requires Scorable(cfg, r.hist, cap) <= k && k >= cfg.kMin && r.cap.Some? && r.cap.value <= k
    ensures Estimate(cfg, r, cap) <= k
  {
    var m := Scorable(cfg, r.hist, cap);
    if |r.hist| >= cfg.minObs && m > 0 {
      assert Scores(cfg, r.hist, m);
      BestIsBest(cfg, r.hist, m);
    }
  }

  lemma QuietBudget(cfg: Config, q: Terms, f: Flight, kMax: nat, k: int, from: nat, lag: nat)
    requires cfg.Valid() && Priced(cfg, kMax) && Sparse(cfg, from, lag) && Rolling(cfg, q)
    requires Quiet(cfg, f, k, from, lag) && f.roll.cap.Some? && k >= cfg.kMin && !Riding(cfg, f.roll.hist)
    ensures var out := CapFor(cfg, q, f.roll, kMax);
      out.1 <= ProbeDrafts(cfg, f.roll.n, k) && out.0.cap.Some? && out.0.cap.value <= k
  {
    var cap := Gated(cfg, f.roll, Ceiling(q, kMax));
    hide Probes, Riding, StepMs, Sparse, NearProbe, WaitsQuiet;
    if cap > 0 {
      QuietUnscorable(cfg, f, k, from, lag, cap);
      QuietEstimate(cfg, f.roll, k, cap);
    }
  }

  lemma QuietAsk(cfg: Config, q: Terms, f: Flight, kMax: nat, k: int, from: nat, lag: nat)
    requires cfg.Valid() && Priced(cfg, kMax) && Quiet(cfg, f, k, from, lag) && |f.pending| < lag
    requires var out := CapFor(cfg, q, f.roll, kMax);
      out.1 <= ProbeDrafts(cfg, f.roll.n, k) && out.0.cap.Some? && out.0.cap.value <= k
    ensures Quiet(cfg, Step(cfg, q, f, Ask(kMax)), k, from, lag)
  {
    AskKeepsHistory(cfg, q, f.roll, kMax);
    hide CapFor, Probes, NearProbe, Priced;
    var g := Step(cfg, q, f, Ask(kMax));
    forall i | 0 <= i < |g.pending| ensures WaitsQuiet(cfg, g, i, k, from, lag) {
      if i < |f.pending| {
        assert WaitsQuiet(cfg, f, i, k, from, lag);
      }
    }
  }

  lemma QuietArrive(cfg: Config, q: Terms, f: Flight, accepted: int, drafted: int, k: int, from: nat, lag: nat)
    requires cfg.Valid() && Quiet(cfg, f, k, from, lag) && Legal(f, Arrive(accepted, drafted), lag)
    ensures Quiet(cfg, Step(cfg, q, f, Arrive(accepted, drafted)), k, from, lag)
  {
    var g := Step(cfg, q, f, Arrive(accepted, drafted));
    assert WaitsQuiet(cfg, f, 0, k, from, lag);
    NearExactly(cfg, f.roll.n, from, lag);
    hide NearProbe, Probes;
    forall i | 0 <= i < |g.pending| ensures WaitsQuiet(cfg, g, i, k, from, lag) {
      assert WaitsQuiet(cfg, f, i + 1, k, from, lag);
    }
  }

  // Once quiet at k, with sparse probes and no jump, no run ever raises the kept length above k or hands out more than
  // one probe above it, however many budgets up to `lag` it asks for ahead of their outputs.
  lemma {:induction false} NeverClimbs(cfg: Config, q: Terms, f: Flight, es: seq<Event>, k: int, from: nat, lag: nat)
    requires cfg.Valid() && Askable(cfg, es) && Sparse(cfg, from, lag) && Rolling(cfg, q) && k >= cfg.kMin
    requires Quiet(cfg, f, k, from, lag) && f.roll.cap.Some?
    requires LegalRun(cfg, q, f, es, lag) && JumpFree(cfg, q, f, es)
    ensures var g := Fly(cfg, q, f, es); Quiet(cfg, g, k, from, lag) && g.roll.cap.Some? && g.roll.cap.value <= k
    ensures forall p :: p in Fly(cfg, q, f, es).pending ==> p.budget <= k + 1
  {
    hide Step, Sparse, Riding, Priced, Probes, NearProbe;
    if es != [] {
      var front, last := es[..|es| - 1], es[|es| - 1];
      var g := Fly(cfg, q, f, front);
      NeverClimbs(cfg, q, f, front, k, from, lag);
      QuietStep(cfg, q, g, last, k, from, lag);
    }
    var g := Fly(cfg, q, f, es);
    forall p | p in g.pending ensures p.budget <= k + 1 {
      var i :| 0 <= i < |g.pending| && g.pending[i] == p;
      assert WaitsQuiet(cfg, g, i, k, from, lag);
    }
  }

  lemma QuietStep(cfg: Config, q: Terms, f: Flight, e: Event, k: int, from: nat, lag: nat)
    requires cfg.Valid() && (e.Ask? ==> Priced(cfg, e.kMax) && !Riding(cfg, f.roll.hist)) && Legal(f, e, lag)
    requires Quiet(cfg, f, k, from, lag) && f.roll.cap.Some? && k >= cfg.kMin && Sparse(cfg, from, lag) && Rolling(cfg, q)
    ensures Quiet(cfg, Step(cfg, q, f, e), k, from, lag) && Step(cfg, q, f, e).roll.cap.Some?
  {
    hide CapFor, Sparse, Riding, Priced, Probes, NearProbe;
    match e
    case Ask(kMax) =>
      QuietBudget(cfg, q, f, kMax, k, from, lag);
      QuietAsk(cfg, q, f, kMax, k, from, lag);
    case Arrive(accepted, drafted) =>
      QuietArrive(cfg, q, f, accepted, drafted, k, from, lag);
    case Gate(prefix) =>
      var g := Step(cfg, q, f, e);
      forall i | 0 <= i < |g.pending| ensures WaitsQuiet(cfg, g, i, k, from, lag) {
        assert WaitsQuiet(cfg, f, i, k, from, lag);
      }
  }

  // --- Sitting at one depth for a whole window -----------------------------------------------------------------

  // The budget leaves the kept length at k, below its ceiling.
  ghost predicate Sits(cfg: Config, q: Terms, r: Roll, kMax: nat, k: int)
    requires cfg.Valid() && Priced(cfg, kMax)
  {
    var cap := Gated(cfg, r, Ceiling(q, kMax));
    Rolling(cfg, q) && 1 <= k < cap && Min(cfg.kMin, cap) <= k && CapFor(cfg, q, r, kMax).0.cap == Some(k)
  }

  ghost predicate SitsAt(cfg: Config, q: Terms, f: Flight, es: seq<Event>, k: int)
    requires cfg.Valid() && Askable(cfg, es)
  {
    es == [] || (SitsAt(cfg, q, f, es[..|es| - 1], k)
                 && (es[|es| - 1].Ask? ==> Sits(cfg, q, Fly(cfg, q, f, es[..|es| - 1]).roll, es[|es| - 1].kMax, k)))
  }

  // The budgets whose outputs were recorded, in that order.
  function Answered(cfg: Config, q: Terms, f: Flight, es: seq<Event>): seq<Asked>
    requires cfg.Valid() && Askable(cfg, es)
  {
    if es == [] then []
    else
      var g, last := Fly(cfg, q, f, es[..|es| - 1]), es[|es| - 1];
      Answered(cfg, q, f, es[..|es| - 1])
      + if last.Arrive? && last.drafted > 0 && Rolling(cfg, q) && g.pending != [] then [g.pending[0]] else []
  }

  lemma SittingAsk(cfg: Config, q: Terms, f: Flight, kMax: nat, k: int)
    requires cfg.Valid() && Priced(cfg, kMax) && Sits(cfg, q, f.roll, kMax, k)
    ensures Step(cfg, q, f, Ask(kMax)) ==
      Flight(f.roll.(cap := Some(k)), f.pending + [Asked(f.roll.n, ProbeDrafts(cfg, f.roll.n, k))])
  {
    hide Settle, Probes;
  }

  // The j-th of these outputs, recorded as step first + j, still in the window.
  predicate StillThere(hist: seq<Obs>, answered: nat, j: nat) {
    answered <= j + |hist| && j < answered
  }

  ghost predicate SatQuietly(cfg: Config, r: Roll, first: nat, answered: nat, k: int, from: nat, lag: nat) {
    forall j: nat :: StillThere(r.hist, answered, j) ==>
      r.hist[|r.hist| - answered + j].drafted <= QuietDrafts(cfg, first + j, k, from, lag)
  }

  lemma {:induction false} SittingRun(cfg: Config, q: Terms, f: Flight, es: seq<Event>, k: int, from: nat, lag: nat)
    requires cfg.Valid() && Askable(cfg, es) && Rolling(cfg, q) && LegalRun(cfg, q, f, es, lag)
    requires SitsAt(cfg, q, f, es, k) && from <= f.roll.n && AllWaitQuiet(cfg, f, k, from, lag)
    requires f.roll.cap == Some(k) && |f.roll.hist| <= Min(f.roll.n, cfg.window)
    ensures var g, answered := Fly(cfg, q, f, es), |Answered(cfg, q, f, es)|;
      && g.roll.n == f.roll.n + answered && g.roll.cap == Some(k)
      && |g.roll.hist| == Min(|f.roll.hist| + answered, cfg.window)
      && AllWaitQuiet(cfg, g, k, from, lag) && SatQuietly(cfg, g.roll, f.roll.n, answered, k, from, lag)
  {
    hide Step, Sits, QuietDrafts, ProbeDrafts, Priced, WaitsQuiet;
    if es != [] {
      var front, last := es[..|es| - 1], es[|es| - 1];
      SittingRun(cfg, q, f, front, k, from, lag);
      SittingStep(cfg, q, Fly(cfg, q, f, front), last, f.roll.n, |Answered(cfg, q, f, front)|, k, from, lag);
    }
  }

  lemma SittingStep(cfg: Config, q: Terms, f: Flight, e: Event, first: nat, answered: nat, k: int, from: nat, lag: nat)
    requires cfg.Valid() && Rolling(cfg, q) && Legal(f, e, lag)
    requires e.Ask? ==> Priced(cfg, e.kMax) && Sits(cfg, q, f.roll, e.kMax, k)
    requires from <= f.roll.n == first + answered && f.roll.cap == Some(k) && |f.roll.hist| <= Min(f.roll.n, cfg.window)
    requires AllWaitQuiet(cfg, f, k, from, lag) && SatQuietly(cfg, f.roll, first, answered, k, from, lag)
    ensures var g := Step(cfg, q, f, e);
      var recorded := if e.Arrive? && e.drafted > 0 then 1 else 0;
      && g.roll.n == f.roll.n + recorded && g.roll.cap == Some(k)
      && |g.roll.hist| == Min(|f.roll.hist| + recorded, cfg.window)
      && AllWaitQuiet(cfg, g, k, from, lag) && SatQuietly(cfg, g.roll, first, answered + recorded, k, from, lag)
  {
    hide NearProbe, Probes;
    var g := Step(cfg, q, f, e);
    match e
    case Ask(kMax) =>
      SittingAsk(cfg, q, f, kMax, k);
      hide Sits, CapFor, Priced, Step;
      forall i | 0 <= i < |g.pending| ensures WaitsQuiet(cfg, g, i, k, from, lag) {
        assert i < |f.pending| ==> WaitsQuiet(cfg, f, i, k, from, lag);
      }
    case Arrive(accepted, drafted) =>
      hide CapFor, Sits;
      SittingArrives(cfg, q, f, accepted, drafted, first, answered, k, from, lag);
    case Gate(prefix) =>
      hide CapFor, Sits;
      forall i | 0 <= i < |g.pending| ensures WaitsQuiet(cfg, g, i, k, from, lag) {
        assert WaitsQuiet(cfg, f, i, k, from, lag);
      }
  }

  lemma SittingArrives(cfg: Config, q: Terms, f: Flight, accepted: int, drafted: int, first: nat, answered: nat, k: int,
                       from: nat, lag: nat)
    requires cfg.Valid() && Rolling(cfg, q) && Legal(f, Arrive(accepted, drafted), lag)
    requires from <= f.roll.n == first + answered && |f.roll.hist| <= Min(f.roll.n, cfg.window)
    requires AllWaitQuiet(cfg, f, k, from, lag) && SatQuietly(cfg, f.roll, first, answered, k, from, lag)
    ensures var g := Step(cfg, q, f, Arrive(accepted, drafted));
      var recorded := if drafted > 0 then 1 else 0;
      && AllWaitQuiet(cfg, g, k, from, lag) && SatQuietly(cfg, g.roll, first, answered + recorded, k, from, lag)
  {
    hide CapFor, NearProbe, Probes;
    var g := Step(cfg, q, f, Arrive(accepted, drafted));
    assert WaitsQuiet(cfg, f, 0, k, from, lag);
    NearExactly(cfg, f.roll.n, from, lag);
    forall i | 0 <= i < |g.pending| ensures WaitsQuiet(cfg, g, i, k, from, lag) {
      assert WaitsQuiet(cfg, f, i + 1, k, from, lag);
    }
    if drafted > 0 {
      var more := answered + 1;
      forall j: nat | StillThere(g.roll.hist, more, j)
        ensures g.roll.hist[|g.roll.hist| - more + j].drafted <= QuietDrafts(cfg, first + j, k, from, lag)
      {
        assert j < answered ==> StillThere(f.roll.hist, answered, j);
      }
    }
  }

  // A whole window of outputs recorded while sitting at k leaves the flight quiet there.
  lemma SittingIsQuiet(cfg: Config, q: Terms, f: Flight, es: seq<Event>, k: int, from: nat, lag: nat)
    requires cfg.Valid() && Askable(cfg, es) && Rolling(cfg, q) && LegalRun(cfg, q, f, es, lag)
    requires SitsAt(cfg, q, f, es, k) && from <= f.roll.n && AllWaitQuiet(cfg, f, k, from, lag)
    requires f.roll.cap == Some(k) && |f.roll.hist| <= Min(f.roll.n, cfg.window)
    requires |Answered(cfg, q, f, es)| >= cfg.window
    ensures var g := Fly(cfg, q, f, es);
      Quiet(cfg, g, k, from, lag) && |g.roll.hist| == cfg.window && g.roll.cap == Some(k)
  {
    hide Step, SitsAt, QuietDrafts, WaitsQuiet, LegalRun;
    SittingRun(cfg, q, f, es, k, from, lag);
    var r, answered := Fly(cfg, q, f, es).roll, |Answered(cfg, q, f, es)|;
    forall i | 0 <= i < |r.hist|
      ensures r.hist[i].drafted <= QuietDrafts(cfg, r.n - |r.hist| + i, k, from, lag)
    {
      assert StillThere(r.hist, answered, answered - |r.hist| + i);
    }
  }

  // Then depth k + 1 has been observed at most as often as the window has steps near a probe, nothing deeper at all,
  // and depth k + 1 can be scored exactly when its observations reach minObs.
  lemma ProbeSizing(cfg: Config, q: Terms, f: Flight, es: seq<Event>, k: int, from: nat, lag: nat, cap: int)
    requires cfg.Valid() && Askable(cfg, es) && Rolling(cfg, q) && LegalRun(cfg, q, f, es, lag)
    requires SitsAt(cfg, q, f, es, k) && from <= f.roll.n && AllWaitQuiet(cfg, f, k, from, lag)
    requires f.roll.cap == Some(k) && |f.roll.hist| <= Min(f.roll.n, cfg.window)
    requires |Answered(cfg, q, f, es)| >= cfg.window && 1 <= k < cap
    ensures var r := Fly(cfg, q, f, es).roll;
      && cfg.window <= r.n && Observed(r.hist, k + 1) <= NearCount(cfg, r.n - cfg.window, cfg.window, from, lag)
      && Observed(r.hist, k + 2) == 0 && Scorable(cfg, r.hist, cap) <= k + 1
      && (Scorable(cfg, r.hist, cap) >= k + 1 <==> Observed(r.hist, k + 1) >= cfg.minObs)
  {
    hide Step, SitsAt, QuietDrafts, WaitsQuiet, LegalRun, Fly, Answered;
    SittingIsQuiet(cfg, q, f, es, k, from, lag);
    var r := Fly(cfg, q, f, es).roll;
    QuietObserved(cfg, r.hist, r.n - cfg.window, k, from, lag);
    ScorableExactly(cfg, r.hist, cap, k + 1);
    ScorableExactly(cfg, r.hist, cap, k + 2);
  }

  // --- Exactly as often --------------------------------------------------------------------------------------

  // Every step drafts the whole budget it was given.
  ghost predicate DraftsInFull(cfg: Config, q: Terms, f: Flight, es: seq<Event>)
    requires cfg.Valid() && Askable(cfg, es)
  {
    es == [] || (DraftsInFull(cfg, q, f, es[..|es| - 1])
                 && (es[|es| - 1].Arrive? ==> DraftsBudget(Fly(cfg, q, f, es[..|es| - 1]), es[|es| - 1].drafted)))
  }

  predicate DraftsBudget(f: Flight, drafted: int) {
    f.pending != [] && drafted == f.pending[0].budget
  }

  function ProbesAmong(cfg: Config, asked: seq<Asked>): nat {
    if asked == [] then 0
    else ProbesAmong(cfg, asked[..|asked| - 1]) + if Probes(cfg, asked[|asked| - 1].n) then 1 else 0
  }

  // The window holds what these budgets allowed.
  ghost predicate HoldsBudgets(cfg: Config, hist: seq<Obs>, answered: seq<Asked>, k: int) {
    forall j: nat :: StillThere(hist, |answered|, j) ==>
      hist[|hist| - |answered| + j].drafted == ProbeDrafts(cfg, answered[j].n, k)
  }

  ghost predicate AllocatedAt(cfg: Config, asked: seq<Asked>, k: int) {
    forall p :: p in asked ==> p.budget == ProbeDrafts(cfg, p.n, k)
  }

  lemma {:induction false} FullRun(cfg: Config, q: Terms, f: Flight, es: seq<Event>, k: int)
    requires cfg.Valid() && Askable(cfg, es) && Rolling(cfg, q) && SitsAt(cfg, q, f, es, k) && k >= 1
    requires DraftsInFull(cfg, q, f, es) && AllocatedAt(cfg, f.pending, k) && |f.roll.hist| <= cfg.window
    ensures var g, answered := Fly(cfg, q, f, es), Answered(cfg, q, f, es);
      && AllocatedAt(cfg, g.pending, k) && HoldsBudgets(cfg, g.roll.hist, answered, k)
      && |g.roll.hist| == Min(|f.roll.hist| + |answered|, cfg.window)
  {
    hide Step, Sits, ProbeDrafts, Priced;
    if es != [] {
      var front, last := es[..|es| - 1], es[|es| - 1];
      FullRun(cfg, q, f, front, k);
      FullStep(cfg, q, Fly(cfg, q, f, front), last, Answered(cfg, q, f, front), k);
    }
  }

  lemma FullStep(cfg: Config, q: Terms, f: Flight, e: Event, answered: seq<Asked>, k: int)
    requires cfg.Valid() && Rolling(cfg, q) && k >= 1 && (e.Arrive? ==> DraftsBudget(f, e.drafted))
    requires e.Ask? ==> Priced(cfg, e.kMax) && Sits(cfg, q, f.roll, e.kMax, k)
    requires AllocatedAt(cfg, f.pending, k) && HoldsBudgets(cfg, f.roll.hist, answered, k) && |f.roll.hist| <= cfg.window
    ensures var g := Step(cfg, q, f, e);
      var answered' := answered + if e.Arrive? then [f.pending[0]] else [];
      && (e.Arrive? ==> e.drafted > 0)
      && AllocatedAt(cfg, g.pending, k) && HoldsBudgets(cfg, g.roll.hist, answered', k)
      && |g.roll.hist| == Min(|f.roll.hist| + if e.Arrive? then 1 else 0, cfg.window)
  {
    hide Probes;
    match e
    case Ask(kMax) =>
      SittingAsk(cfg, q, f, kMax, k);
      hide Sits, CapFor, Priced, Step;
    case Arrive(accepted, drafted) =>
      hide CapFor, Sits;
      assert f.pending[0] in f.pending;
      var g := Step(cfg, q, f, e);
      var answered' := answered + [f.pending[0]];
      forall j: nat | StillThere(g.roll.hist, |answered'|, j)
        ensures g.roll.hist[|g.roll.hist| - |answered'| + j].drafted == ProbeDrafts(cfg, answered'[j].n, k)
      {
        assert j < |answered| ==> StillThere(f.roll.hist, |answered|, j);
      }
    case Gate(prefix) =>
      hide CapFor, Sits;
  }

  lemma {:induction false} ObservedBudgets(cfg: Config, hist: seq<Obs>, asked: seq<Asked>, k: int)
    requires |hist| == |asked| && forall i :: 0 <= i < |hist| ==> hist[i].drafted == ProbeDrafts(cfg, asked[i].n, k)
    ensures Observed(hist, k + 1) == ProbesAmong(cfg, asked)
  {
    hide Probes;
    if hist != [] {
      var front, last := hist[..|hist| - 1], hist[|hist| - 1];
      ObservedBudgets(cfg, front, asked[..|asked| - 1], k);
      assert hist == front + [last];
      ObservedAppend(front, last, k + 1);
    }
  }

  // When every budget is drafted in full, depth k + 1 has been observed exactly as often as the window answers probes.
  lemma FullSizing(cfg: Config, q: Terms, f: Flight, es: seq<Event>, k: int)
    requires cfg.Valid() && Askable(cfg, es) && Rolling(cfg, q) && SitsAt(cfg, q, f, es, k) && k >= 1
    requires DraftsInFull(cfg, q, f, es) && AllocatedAt(cfg, f.pending, k) && |f.roll.hist| <= cfg.window
    requires |Answered(cfg, q, f, es)| >= cfg.window
    ensures Observed(Fly(cfg, q, f, es).roll.hist, k + 1)
         == ProbesAmong(cfg, LastOf(Answered(cfg, q, f, es), cfg.window))
  {
    hide SitsAt, DraftsInFull, Fly, Answered, Probes;
    FullRun(cfg, q, f, es, k);
    var hist, answered := Fly(cfg, q, f, es).roll.hist, Answered(cfg, q, f, es);
    var last := LastOf(answered, cfg.window);
    forall i | 0 <= i < |hist| ensures hist[i].drafted == ProbeDrafts(cfg, last[i].n, k) {
      assert StillThere(hist, |answered|, |answered| - |hist| + i);
    }
    ObservedBudgets(cfg, hist, last, k);
  }

  // In the alternating loop each output answers the budget asked for right before it, so the bound is met.
  lemma {:induction false} Alternates(cfg: Config, q: Terms, f: Flight, es: seq<Event>)
    requires cfg.Valid() && Askable(cfg, es) && Rolling(cfg, q) && LegalRun(cfg, q, f, es, 1) && f.pending == []
    ensures var g, answered := Fly(cfg, q, f, es), Answered(cfg, q, f, es);
      && g.roll.n == f.roll.n + |answered| && |g.pending| <= 1 && (g.pending != [] ==> g.pending[0].n == g.roll.n)
      && forall j :: 0 <= j < |answered| ==> answered[j].n == f.roll.n + j
  {
    hide CapFor, Priced;
    if es != [] {
      Alternates(cfg, q, f, es[..|es| - 1]);
      var last := es[|es| - 1];
      if last.Ask? {
        AskKeepsHistory(cfg, q, Fly(cfg, q, f, es[..|es| - 1]).roll, last.kMax);
      }
    }
  }

  lemma {:induction false} ProbesInARow(cfg: Config, asked: seq<Asked>, first: nat)
    requires forall i :: 0 <= i < |asked| ==> asked[i].n == first + i
    ensures ProbesAmong(cfg, asked) == NearCount(cfg, first, |asked|, 0, 1)
  {
    hide Probes;
    if asked != [] {
      ProbesInARow(cfg, asked[..|asked| - 1], first);
      NearItself(cfg, first + |asked| - 1, 0);
    }
  }

  lemma AlternatingSizing(cfg: Config, q: Terms, f: Flight, es: seq<Event>, k: int)
    requires cfg.Valid() && Askable(cfg, es) && Rolling(cfg, q) && LegalRun(cfg, q, f, es, 1) && f.pending == []
    requires SitsAt(cfg, q, f, es, k) && k >= 1 && DraftsInFull(cfg, q, f, es) && |f.roll.hist| <= cfg.window
    requires |Answered(cfg, q, f, es)| >= cfg.window
    ensures var r := Fly(cfg, q, f, es).roll;
      cfg.window <= r.n && Observed(r.hist, k + 1) == NearCount(cfg, r.n - cfg.window, cfg.window, 0, 1)
  {
    hide SitsAt, DraftsInFull, Fly, Answered, LegalRun, ProbesAmong;
    FullSizing(cfg, q, f, es, k);
    Alternates(cfg, q, f, es);
    var answered := Answered(cfg, q, f, es);
    ProbesInARow(cfg, LastOf(answered, cfg.window), f.roll.n + |answered| - cfg.window);
  }

  lemma {:induction false} AtOnePeriod(cfg: Config, first: nat, count: nat, p: nat)
    requires p > 0 && first > 0 && forall m: nat :: first <= m < first + count ==> Period(cfg, m) == p
    ensures NearCount(cfg, first, count, 0, 1) == Multiples(first, count, p)
  {
    if count > 0 {
      AtOnePeriod(cfg, first, count - 1, p);
      NearItself(cfg, first + count - 1, 0);
      assert Period(cfg, first + count - 1) == p;
      assert cfg.probe == 0 ==> cfg.probe * cfg.probeDecay == 0;
    }
  }

  // With one period p in force it can be scored exactly when the window holds minObs multiples of p: certainly when
  // floor(window / p) reaches minObs, certainly not when ceil(window / p) does not.
  lemma AlternatingScorable(cfg: Config, q: Terms, f: Flight, es: seq<Event>, k: int, p: nat, cap: int)
    requires cfg.Valid() && Askable(cfg, es) && Rolling(cfg, q) && LegalRun(cfg, q, f, es, 1) && f.pending == []
    requires SitsAt(cfg, q, f, es, k) && DraftsInFull(cfg, q, f, es) && |f.roll.hist| <= cfg.window && 1 <= k < cap
    requires |Answered(cfg, q, f, es)| >= cfg.window && p > 0 && f.roll.n > 0
    requires forall m: nat :: f.roll.n <= m < Fly(cfg, q, f, es).roll.n ==> Period(cfg, m) == p
    ensures var r := Fly(cfg, q, f, es).roll;
      && cfg.window <= r.n
      && (Scorable(cfg, r.hist, cap) >= k + 1 <==> Multiples(r.n - cfg.window, cfg.window, p) >= cfg.minObs)
      && (cfg.window / p >= cfg.minObs ==> Scorable(cfg, r.hist, cap) >= k + 1)
      && ((cfg.window + p - 1) / p < cfg.minObs ==> Scorable(cfg, r.hist, cap) <= k)
  {
    hide SitsAt, DraftsInFull, Fly, Answered, LegalRun, Period;
    AlternatingSizing(cfg, q, f, es, k);
    Alternates(cfg, q, f, es);
    var r := Fly(cfg, q, f, es).roll;
    AtOnePeriod(cfg, r.n - cfg.window, cfg.window, p);
    MultiplesBounds(r.n - cfg.window, cfg.window, p);
    ScorableExactly(cfg, r.hist, cap, k + 1);
  }
}
