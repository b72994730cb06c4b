// One request's rolling draft length over its life: steps recorded as their outputs arrive, and the draft budget asked
// for before every step.
module RollState {
  import opened Arithmetic
  import opened Options
  import opened SpecRoll

  // What a request fixes on arrival: its client hint and its opt-in or opt-out.
  datatype Terms = Terms(hint: Option<int>, rolling: Option<bool>)

  // What the rule keeps on the request.
  datatype Roll = Roll(hist: seq<Obs>, n: nat, cap: Option<int>, confPrefix: Option<int>)

  const START_STATE := Roll([], 0, None, None)

  predicate Rolling(cfg: Config, q: Terms) {
    if q.rolling.None? then cfg.enabled else q.rolling.value
  }

  // --- Recording a step --------------------------------------------------------------------------------

  function LastOf<T>(s: seq<T>, n: nat): seq<T> {
    if |s| > n then s[|s| - n..] else s
  }

  lemma LastOfAppend<T>(s: seq<T>, x: T, n: nat)
    requires n > 0
    ensures LastOf(LastOf(s, n) + [x], n) == LastOf(s + [x], n)
  {
  }

  function Record(cfg: Config, q: Terms, r: Roll, accepted: int, drafted: int): Roll {
    if drafted <= 0 || !Rolling(cfg, q) then r
    else r.(hist := LastOf(r.hist + [Obs(accepted, drafted)], cfg.window), n := r.n + 1)
  }

  // --- The next budget -----------------------------------------------------------------------------------

  function Ceiling(q: Terms, kMax: int): int {
    if q.hint.None? then kMax else Min(kMax, Max(0, q.hint.value))
  }

  // The ceiling after the confidence gate of the latest drafts.
  function Gated(cfg: Config, r: Roll, ceiling: int): int {
    if r.confPrefix.Some? && ceiling > 0
    then Min(ceiling, Max(r.confPrefix.value, Min(cfg.kMin, ceiling)))
    else ceiling
  }

  // The hint can only lower the ceiling, to what it says or to nothing.
  lemma CeilingMeans(q: Terms, kMax: int)
    ensures Ceiling(q, kMax) <= kMax && (q.hint.None? ==> Ceiling(q, kMax) == kMax)
    ensures q.hint.Some? && 0 <= q.hint.value ==> Ceiling(q, kMax) <= q.hint.value
    ensures q.hint.Some? && 0 <= q.hint.value < kMax ==> Ceiling(q, kMax) == q.hint.value
    ensures q.hint.Some? && q.hint.value >= kMax >= 0 ==> Ceiling(q, kMax) == kMax
    ensures q.hint.Some? && q.hint.value < 0 <= kMax ==> Ceiling(q, kMax) == 0
  {
  }

  // A gate that kept p drafts lowers a ceiling above p to p, but not below the floor; any other ceiling stays.
  lemma GateMeans(cfg: Config, r: Roll, ceiling: int)
    requires r.confPrefix.Some? && ceiling > 0
    ensures var p := r.confPrefix.value;
      && (ceiling <= p || ceiling <= cfg.kMin ==> Gated(cfg, r, ceiling) == ceiling)
      && (cfg.kMin <= p < ceiling ==> Gated(cfg, r, ceiling) == p)
      && (p <= cfg.kMin < ceiling ==> Gated(cfg, r, ceiling) == cfg.kMin)
  {
  }

  lemma NoGateMeans(cfg: Config, r: Roll, ceiling: int)
    requires r.confPrefix.None? || ceiling <= 0
    ensures Gated(cfg, r, ceiling) == ceiling
  {
  }

  function StartFor(cfg: Config, cap: int): int {
    if cfg.start.Some? then Min(cap, Max(cfg.kMin, cfg.start.value)) else Max(cfg.kMin, cap)
  }

  function Estimate(cfg: Config, r: Roll, cap: int): int
    requires cfg.Valid() && Priced(cfg, cap)
  {
    var kept := if r.cap.None? then StartFor(cfg, cap) else r.cap.value;
    var chosen := Choose(cfg, r.hist, cap);
    Min(if chosen.Some? then chosen.value else kept, cap)
  }

  // The last jumpN recorded steps accepted every draft.
  predicate Riding(cfg: Config, hist: seq<Obs>) {
    && cfg.jumpN > 0 && |hist| >= cfg.jumpN
    && forall i :: |hist| - cfg.jumpN <= i < |hist| ==> hist[i].accepted >= hist[i].drafted > 0
  }

  function Settle(cfg: Config, r: Roll, cap: int): int
    requires cfg.Valid() && Priced(cfg, cap)
  {
    if Estimate(cfg, r, cap) < cap && Riding(cfg, r.hist) then cap else Estimate(cfg, r, cap)
  }

  function Period(cfg: Config, n: nat): nat {
    if n < cfg.probeSettle then cfg.probe else cfg.probe * cfg.probeDecay
  }

  predicate MultipleOf(n: nat, period: nat) {
    period > 0 && n % period == 0
  }

  predicate Probes(cfg: Config, n: nat) {
    cfg.probe > 0 && n > 0 && MultipleOf(n, Period(cfg, n))
  }

  function CapFor(cfg: Config, q: Terms, r: Roll, kMax: int): (Roll, int)
    requires cfg.Valid() && Priced(cfg, kMax)
  {
    var cap := Gated(cfg, r, Ceiling(q, kMax));
    if cap <= 0 || !Rolling(cfg, q) then (r, cap)
    else
      var rc := Settle(cfg, r, cap);
      var budget := if rc < cap && Probes(cfg, r.n) then Min(cap, rc + 1) else Max(rc, Min(cfg.kMin, cap));
      (r.(cap := Some(rc)), budget)
  }

  // --- The class the scheduler calls -----------------------------------------------------------------------

  class RollingRequest {
    const cfg: Config
    const terms: Terms
    var hist: seq<Obs>
    var n: nat
    var cap: Option<int>
    var confPrefix: Option<int>

    function View(): Roll
      reads this
    {
      Roll(hist, n, cap, confPrefix)
    }

    constructor (cfg: Config, terms: Terms)
      ensures View() == START_STATE && this.cfg == cfg && this.terms == terms
    {
      this.cfg, this.terms := cfg, terms;
      hist, n, cap, confPrefix := [], 0, None, None;
    }

    method RecordStep(accepted: int, drafted: int)
      modifies this
      ensures View() == Record(cfg, terms, old(View()), accepted, drafted)
    {
      if drafted <= 0 || !Rolling(cfg, terms) {
        return;
      }
      hist := hist + [Obs(accepted, drafted)];
      if |hist| > cfg.window {
        hist := hist[|hist| - cfg.window..];
      }
      n := n + 1;
    }

    method NextBudget(kMax: int) returns (budget: int)
      requires cfg.Valid() && Priced(cfg, kMax)
      modifies this
      ensures (View(), budget) == CapFor(cfg, terms, old(View()), kMax)
    {
      hide StepMs, MultipleOf;
      var ceiling := kMax;
      if terms.hint.Some? {
        ceiling := Min(ceiling, Max(0, terms.hint.value));
      }
      if confPrefix.Some? && ceiling > 0 {
        ceiling := Min(ceiling, Max(confPrefix.value, Min(cfg.kMin, ceiling)));
      }
      if ceiling <= 0 || !Rolling(cfg, terms) {
        return ceiling;
      }
      var rc := if cap.None? then StartFor(cfg, ceiling) else cap.value;
      var chosen := ChooseDepth(cfg, hist, ceiling);
      if chosen.Some? {
        rc := chosen.value;
      }
      rc := Min(rc, ceiling);
      if rc < ceiling && Riding(cfg, hist) {
        rc := ceiling;
      }
      cap := Some(rc);
      if rc < ceiling && Probes(cfg, n) {
        return Min(ceiling, rc + 1);
      }
      budget := Max(rc, Min(cfg.kMin, ceiling));
    }

    // The gate's verdict on the latest drafts arrives with a step's output.
    method StorePrefix(prefix: int)
      modifies this
      ensures View() == old(View()).(confPrefix := Some(prefix))
    {
      confPrefix := Some(prefix);
    }
  }
}
