// Whole runs of the rolling rule: what its history and its budgets keep over every interleaving of budget requests,
// arriving outputs and gate verdicts, and when probing can ever raise the length again.
module RollRuns {
  import opened Arithmetic
  import opened Options
  import opened SpecRoll
  import opened RollState

  datatype Event = Ask(kMax: nat) | Arrive(accepted: int, drafted: int) | Gate(prefix: int)

  // The step-time table prices every depth a run asks for. A table that never falls prices all of them
  // (AnythingIsAskable); one that falls may run out of positive times beyond its end.
  ghost predicate Askable(cfg: Config, es: seq<Event>) {
    es == [] || (Askable(cfg, es[..|es| - 1]) && (es[|es| - 1].Ask? ==> Priced(cfg, es[|es| - 1].kMax)))
  }

  lemma {:induction false} AnythingIsAskable(cfg: Config, es: seq<Event>)
    requires cfg.Valid() && cfg.Nondecreasing()
    ensures Askable(cfg, es)
  {
    if es != [] {
      AnythingIsAskable(cfg, es[..|es| - 1]);
      if es[|es| - 1].Ask? {
        NondecreasingIsPriced(cfg, es[|es| - 1].kMax);
      }
    }
  }

  function Next(cfg: Config, q: Terms, r: Roll, e: Event): Roll
    requires cfg.Valid() && (e.Ask? ==> Priced(cfg, e.kMax))
  {
    match e
    case Ask(kMax) => CapFor(cfg, q, r, kMax).0
    case Arrive(a, d) => Record(cfg, q, r, a, d)
    case Gate(p) => r.(confPrefix := Some(p))
  }

  function Run(cfg: Config, q: Terms, es: seq<Event>): Roll
    requires cfg.Valid() && Askable(cfg, es)
  {
    if es == [] then START_STATE else Next(cfg, q, Run(cfg, q, es[..|es| - 1]), es[|es| - 1])
  }

  // The budget handed out if the scheduler asks after this run.
  function Budget(cfg: Config, q: Terms, es: seq<Event>, kMax: nat): int
    requires cfg.Valid() && Askable(cfg, es) && Priced(cfg, kMax)
  {
    CapFor(cfg, q, Run(cfg, q, es), kMax).1
  }

  function CapNow(cfg: Config, q: Terms, es: seq<Event>, kMax: nat): int
    requires cfg.Valid() && Askable(cfg, es)
  {
    Gated(cfg, Run(cfg, q, es), Ceiling(q, kMax))
  }

  // --- The history is the window -------------------------------------------------------------------------

  // Every pair worth recording, oldest first.
  function Recorded(cfg: Config, q: Terms, es: seq<Event>): seq<Obs> {
    if es == [] then []
    else
      var last := es[|es| - 1];
      Recorded(cfg, q, es[..|es| - 1])
      + if last.Arrive? && last.drafted > 0 && Rolling(cfg, q) then [Obs(last.accepted, last.drafted)] else []
  }

  lemma {:induction false} HistoryIsWindow(cfg: Config, q: Terms, es: seq<Event>)
    requires cfg.Valid() && Askable(cfg, es)
    ensures Run(cfg, q, es).hist == LastOf(Recorded(cfg, q, es), cfg.window)
    ensures Run(cfg, q, es).n == |Recorded(cfg, q, es)|
    ensures forall o :: o in Recorded(cfg, q, es) ==> o.drafted > 0
  {
    hide CapFor;
    if es != [] {
      var front, last := es[..|es| - 1], es[|es| - 1];
      HistoryIsWindow(cfg, q, front);
      match last
      case Ask(kMax) =>
        AskKeepsHistory(cfg, q, Run(cfg, q, front), kMax);
      case Arrive(a, d) =>
        LastOfAppend(Recorded(cfg, q, front), Obs(a, d), cfg.window);
      case Gate(_) =>
    }
  }

  lemma AskKeepsHistory(cfg: Config, q: Terms, r: Roll, kMax: nat)
    requires cfg.Valid() && Priced(cfg, kMax)
    ensures CapFor(cfg, q, r, kMax).0 == r.(cap := CapFor(cfg, q, r, kMax).0.cap)
  {
  }

  // Outputs whose accepted count lies within the drafts leave only such pairs in the history.
  lemma HistoryIsPrefixed(cfg: Config, q: Terms, es: seq<Event>)
    requires cfg.Valid() && Askable(cfg, es)
    requires forall e :: e in es && e.Arrive? ==> 0 <= e.accepted <= e.drafted
    ensures forall o :: o in Run(cfg, q, es).hist ==> 0 <= o.accepted <= o.drafted && o.drafted > 0
  {
    HistoryIsWindow(cfg, q, es);
    RecordedArrived(cfg, q, es);
  }

  lemma {:induction false} RecordedArrived(cfg: Config, q: Terms, es: seq<Event>)
    ensures forall o :: o in Recorded(cfg, q, es) ==> Arrive(o.accepted, o.drafted) in es
  {
    if es != [] {
      RecordedArrived(cfg, q, es[..|es| - 1]);
    }
  }

  // --- Bounds on every budget ------------------------------------------------------------------------------

  lemma {:induction false} ObservedAll(hist: seq<Obs>, j: int)
    requires forall o :: o in hist ==> o.drafted >= j
    ensures Observed(hist, j) == |hist|
  {
    if hist != [] {
      ObservedAll(hist[1..], j);
    }
  }

  // With fixed k_max and hint, every budget is at most the gated ceiling and, with the rule on, at least
  // min(kMin, ceiling), whatever the gate said in between; with the rule off it is the gated ceiling.
  lemma BudgetBounds(cfg: Config, q: Terms, es: seq<Event>, kMax: nat)
    requires cfg.Valid() && Askable(cfg, es) && Priced(cfg, kMax)
    requires forall e :: e in es && e.Ask? ==> e.kMax == kMax
    ensures 0 <= Budget(cfg, q, es, kMax) <= CapNow(cfg, q, es, kMax) <= Ceiling(q, kMax) <= kMax
    ensures Rolling(cfg, q) ==> Min(cfg.kMin, Ceiling(q, kMax)) <= Budget(cfg, q, es, kMax)
    ensures !Rolling(cfg, q) ==> Budget(cfg, q, es, kMax) == CapNow(cfg, q, es, kMax)
    ensures q.hint.Some? ==> Budget(cfg, q, es, kMax) <= Max(0, q.hint.value)
    ensures var gate := Run(cfg, q, es).confPrefix;
      gate.Some? ==> Budget(cfg, q, es, kMax) <= Max(gate.value, Min(cfg.kMin, kMax))
  {
    KeptAboveFloor(cfg, q, es, kMax);
    BudgetStep(cfg, q, Run(cfg, q, es), kMax);
  }

  // A request starts at its ceiling, so that every position is observed in the first window, unless a start is set.
  lemma FirstBudget(cfg: Config, q: Terms, kMax: nat)
    requires cfg.Valid() && Priced(cfg, kMax) && Rolling(cfg, q) && Ceiling(q, kMax) > 0
    ensures Budget(cfg, q, [], kMax)
         == if cfg.start.None? then Ceiling(q, kMax) else Min(Ceiling(q, kMax), Max(cfg.kMin, cfg.start.value))
  {
    hide StepMs, MultipleOf;
    ChooseMaximises(cfg, [], Ceiling(q, kMax));
  }

  // Once the window is judged, and outside jumps and probes, the budget is a judged depth with the best expected
  // throughput of all judged ones, lifted to the floor if it lies under it.
  lemma SteadyBudgetIsBest(cfg: Config, q: Terms, r: Roll, kMax: nat) returns (best: int)
    requires cfg.Valid() && Priced(cfg, kMax) && Rolling(cfg, q) && !Riding(cfg, r.hist) && !Probes(cfg, r.n)
    requires |r.hist| >= cfg.minObs && Observed(r.hist, 1) >= cfg.minObs
    requires Gated(cfg, r, Ceiling(q, kMax)) > 0
    ensures Priced(cfg, Gated(cfg, r, Ceiling(q, kMax)))
    ensures IsBest(cfg, r.hist, Gated(cfg, r, Ceiling(q, kMax)), best)
    ensures CapFor(cfg, q, r, kMax).1 == Max(best, Min(cfg.kMin, Gated(cfg, r, Ceiling(q, kMax))))
  {
    hide StepMs, Probes, Riding, BestUpTo, Score;
    var cap := Gated(cfg, r, Ceiling(q, kMax));
    ChooseMaximises(cfg, r.hist, cap);
    best :| IsBest(cfg, r.hist, cap, best) && Choose(cfg, r.hist, cap).value == Max(best, cfg.kMin);
  }

  // The kept length is at least this.
  predicate KeptAtLeast(r: Roll, low: int) {
    r.cap.Some? ==> r.cap.value >= low
  }

  lemma EstimateBounds(cfg: Config, r: Roll, cap: int)
    requires cfg.Valid() && Priced(cfg, cap)
    requires cap > 0 && KeptAtLeast(r, Min(cfg.kMin, cap))
    ensures Min(cfg.kMin, cap) <= Estimate(cfg, r, cap) <= cap
  {
    hide Priced, BestUpTo;
  }

  lemma BudgetStep(cfg: Config, q: Terms, r: Roll, kMax: nat)
    requires cfg.Valid() && Priced(cfg, kMax)
    requires KeptAtLeast(r, Min(cfg.kMin, Ceiling(q, kMax)))
    ensures var cap, out := Gated(cfg, r, Ceiling(q, kMax)), CapFor(cfg, q, r, kMax);
      && 0 <= out.1 <= cap <= Ceiling(q, kMax) <= kMax
      && (Rolling(cfg, q) ==> Min(cfg.kMin, Ceiling(q, kMax)) <= out.1)
      && KeptAtLeast(out.0, Min(cfg.kMin, Ceiling(q, kMax)))
  {
    hide Estimate, Probes, Riding;
    var cap := Gated(cfg, r, Ceiling(q, kMax));
    assert Min(cfg.kMin, cap) == Min(cfg.kMin, Ceiling(q, kMax));
    if cap > 0 {
      EstimateBounds(cfg, r, cap);
    }
  }

  lemma {:induction false} KeptAboveFloor(cfg: Config, q: Terms, es: seq<Event>, kMax: nat)
    requires cfg.Valid() && Askable(cfg, es) && Priced(cfg, kMax)
    requires forall e :: e in es && e.Ask? ==> e.kMax == kMax
    ensures KeptAtLeast(Run(cfg, q, es), Min(cfg.kMin, Ceiling(q, kMax)))
  {
    hide CapFor;
    if es != [] {
      KeptAboveFloor(cfg, q, es[..|es| - 1], kMax);
      BudgetStep(cfg, q, Run(cfg, q, es[..|es| - 1]), kMax);
    }
  }

  // --- The floor when k_max varies from step to step ---------------------------------------------------------

  // The first recorded step that can probe.
  function FirstProbe(cfg: Config): nat {
    if cfg.probe < cfg.probeSettle then cfg.probe else cfg.probe * cfg.probeDecay
  }

  // Probing never precedes the first judgement, or the floor is too low for a probe to undercut.
  predicate FloorSafe(cfg: Config) {
    cfg.kMin <= 2 || cfg.probe == 0 || (FirstProbe(cfg) >= cfg.minObs && cfg.window >= cfg.minObs)
  }

  // A budget under the floor of its own gated ceiling.
  predicate Undercuts(cfg: Config, q: Terms, es: seq<Event>, kMax: nat)
    requires cfg.Valid() && Askable(cfg, es) && Priced(cfg, kMax)
  {
    Rolling(cfg, q) && Budget(cfg, q, es, kMax) < Min(cfg.kMin, CapNow(cfg, q, es, kMax))
  }

  // For one state: a budget falls short exactly when it probes one above a kept length that is itself two or more
  // short of the floor, with nothing judged and no stretch to ride.
  lemma UndercutsExactly(cfg: Config, q: Terms, es: seq<Event>, kMax: nat)
    requires cfg.Valid() && Askable(cfg, es) && Priced(cfg, kMax) && Rolling(cfg, q)
    ensures var r, cap := Run(cfg, q, es), CapNow(cfg, q, es, kMax);
      Undercuts(cfg, q, es, kMax) <==>
        && cap > 0 && |r.hist| < cfg.minObs && !Riding(cfg, r.hist) && Probes(cfg, r.n)
        && r.cap.Some? && r.cap.value + 1 < Min(cfg.kMin, cap)
  {
    hide Probes, Riding, Run, BestUpTo, StepMs;
    var r, cap := Run(cfg, q, es), CapNow(cfg, q, es, kMax);
    HistoryIsWindow(cfg, q, es);
    ObservedAll(r.hist, 1);
    if cap > 0 {
      assert Priced(cfg, cap);
      ChooseMaximises(cfg, r.hist, cap);
      if Choose(cfg, r.hist, cap).Some? {
        assert Estimate(cfg, r, cap) >= Min(cfg.kMin, cap);
      }
    }
  }

  // Whatever k_max, hint and gate do, no run undercuts the floor exactly under FloorSafe.
  lemma FloorSafeSuffices(cfg: Config, q: Terms, es: seq<Event>, kMax: nat)
    requires cfg.Valid() && Askable(cfg, es) && Priced(cfg, kMax) && FloorSafe(cfg)
    ensures !Undercuts(cfg, q, es, kMax)
  {
    if Rolling(cfg, q) {
      hide Budget, CapNow, Riding;
      UndercutsExactly(cfg, q, es, kMax);
      HistoryIsWindow(cfg, q, es);
      KeptPositive(cfg, q, es);
      var r := Run(cfg, q, es);
      if Probes(cfg, r.n) {
        ProbesLate(cfg, r.n);
      }
    }
  }

  lemma ProbesLate(cfg: Config, n: nat)
    requires cfg.Valid() && Probes(cfg, n)
    ensures n >= FirstProbe(cfg)
  {
    MultipleAtLeastBlock(n, Period(cfg, n));
    assert cfg.probe * cfg.probeDecay >= cfg.probe;
  }

  lemma {:induction false} KeptPositive(cfg: Config, q: Terms, es: seq<Event>)
    requires cfg.Valid() && Askable(cfg, es)
    ensures KeptAtLeast(Run(cfg, q, es), 1)
  {
    hide CapFor;
    if es != [] {
      KeptPositive(cfg, q, es[..|es| - 1]);
      var r, last := Run(cfg, q, es[..|es| - 1]), es[|es| - 1];
      if last.Ask? {
        AskKeepsPositive(cfg, q, r, last.kMax);
      }
    }
  }

  lemma AskKeepsPositive(cfg: Config, q: Terms, r: Roll, kMax: nat)
    requires cfg.Valid() && Priced(cfg, kMax) && KeptAtLeast(r, 1)
    ensures KeptAtLeast(CapFor(cfg, q, r, kMax).0, 1)
  {
    hide Priced, BestUpTo, Riding;
  }

  // A loop that drafts its k_max every time and has the same number accepted: n rounds, and one more budget.
  function Steady(kMax: nat, accepted: int, n: nat): seq<Event> {
    if n == 0 then [Ask(kMax)] else Steady(kMax, accepted, n - 1) + [Arrive(accepted, kMax)] + [Ask(kMax)]
  }

  ghost predicate SteadyAt(cfg: Config, r: Roll, kMax: nat, accepted: int, n: nat) {
    && r.n == n && r.cap == Some(kMax) && r.confPrefix.None? && |r.hist| == Min(n, cfg.window)
    && forall o :: o in r.hist ==> o == Obs(accepted, kMax)
  }

  const PLAIN := Terms(None, Some(true))

  // Up to the floor the kept length is the ceiling.
  lemma SteadyAsk(cfg: Config, r: Roll, kMax: nat)
    requires cfg.Valid() && Priced(cfg, kMax) && 1 <= kMax <= cfg.kMin && r.confPrefix.None?
    requires r.cap.Some? ==> r.cap.value == kMax
    ensures CapFor(cfg, PLAIN, r, kMax) == (r.(cap := Some(kMax)), kMax)
  {
    hide Priced, BestUpTo, Riding, Probes;
    ChooseMaximises(cfg, r.hist, kMax);
  }

  lemma SteadyArrive(cfg: Config, r: Roll, kMax: nat, accepted: int, n: nat)
    requires cfg.Valid() && SteadyAt(cfg, r, kMax, accepted, n) && kMax > 0
    ensures SteadyAt(cfg, Record(cfg, PLAIN, r, accepted, kMax), kMax, accepted, n + 1)
  {
    var longer := r.hist + [Obs(accepted, kMax)];
    assert forall o :: o in LastOf(longer, cfg.window) ==> o in longer;
  }

  lemma RunSnoc(cfg: Config, q: Terms, es: seq<Event>, e: Event)
    requires cfg.Valid() && Askable(cfg, es) && (e.Ask? ==> Priced(cfg, e.kMax))
    ensures Askable(cfg, es + [e])
    ensures Run(cfg, q, es + [e]) == Next(cfg, q, Run(cfg, q, es), e)
    ensures Recorded(cfg, q, es + [e]) == Recorded(cfg, q, es)
      + if e.Arrive? && e.drafted > 0 && Rolling(cfg, q) then [Obs(e.accepted, e.drafted)] else []
  {
    assert (es + [e])[..|es + [e]| - 1] == es;
    hide Next;
  }

  ghost predicate SteadyAfter(cfg: Config, es: seq<Event>, kMax: nat, accepted: int, n: nat)
    requires cfg.Valid() && Askable(cfg, es)
  {
    && SteadyAt(cfg, Run(cfg, PLAIN, es), kMax, accepted, n) && |Recorded(cfg, PLAIN, es)| == n
    && forall o :: o in Recorded(cfg, PLAIN, es) ==> o == Obs(accepted, kMax)
  }

  lemma SteadyNext(cfg: Config, es: seq<Event>, kMax: nat, accepted: int, n: nat)
    requires cfg.Valid() && Priced(cfg, kMax) && 1 <= kMax <= cfg.kMin && Askable(cfg, es)
    requires SteadyAfter(cfg, es, kMax, accepted, n)
    ensures Askable(cfg, es + [Arrive(accepted, kMax)] + [Ask(kMax)])
    ensures SteadyAfter(cfg, es + [Arrive(accepted, kMax)] + [Ask(kMax)], kMax, accepted, n + 1)
  {
    hide CapFor, SteadyAt, Run, Askable, Priced, Record, Recorded;
    SteadyArrive(cfg, Run(cfg, PLAIN, es), kMax, accepted, n);
    RunSnoc(cfg, PLAIN, es, Arrive(accepted, kMax));
    var more := es + [Arrive(accepted, kMax)];
    SteadyStays(cfg, Run(cfg, PLAIN, more), kMax, accepted, n + 1);
    RunSnoc(cfg, PLAIN, more, Ask(kMax));
  }

  lemma SteadyFirst(cfg: Config, kMax: nat, accepted: int)
    requires cfg.Valid() && Priced(cfg, kMax) && 1 <= kMax <= cfg.kMin
    ensures Askable(cfg, [Ask(kMax)]) && SteadyAfter(cfg, [Ask(kMax)], kMax, accepted, 0)
  {
    assert Askable(cfg, []) && Run(cfg, PLAIN, []) == START_STATE && Recorded(cfg, PLAIN, []) == [];
    hide CapFor, SteadyAt, Run, Askable, Priced, Record, Recorded;
    SteadyAsk(cfg, START_STATE, kMax);
    RunSnoc(cfg, PLAIN, [], Ask(kMax));
    assert [] + [Ask(kMax)] == [Ask(kMax)];
    SteadyStarts(cfg, kMax, accepted);
  }

  lemma {:induction false} SteadyRun(cfg: Config, kMax: nat, accepted: int, n: nat)
    requires cfg.Valid() && Priced(cfg, kMax) && 1 <= kMax <= cfg.kMin
    ensures Askable(cfg, Steady(kMax, accepted, n)) && SteadyAfter(cfg, Steady(kMax, accepted, n), kMax, accepted, n)
  {
    hide SteadyAfter, Askable, Priced;
    if n == 0 {
      SteadyFirst(cfg, kMax, accepted);
    } else {
      SteadyRun(cfg, kMax, accepted, n - 1);
      SteadyNext(cfg, Steady(kMax, accepted, n - 1), kMax, accepted, n - 1);
    }
  }

  lemma SteadyStarts(cfg: Config, kMax: nat, accepted: int)
    requires cfg.Valid()
    ensures SteadyAt(cfg, START_STATE.(cap := Some(kMax)), kMax, accepted, 0)
  {
  }

  lemma SteadyStays(cfg: Config, r: Roll, kMax: nat, accepted: int, n: nat)
    requires cfg.Valid() && Priced(cfg, kMax) && 1 <= kMax <= cfg.kMin && SteadyAt(cfg, r, kMax, accepted, n)
    ensures CapFor(cfg, PLAIN, r, kMax) == (r, kMax)
  {
    hide Priced, CapFor;
    SteadyAsk(cfg, r, kMax);
  }

  // Otherwise one run does undercut it: under k_max = 1, one-draft rejections until the first probe, then a wider
  // k_max.
  lemma FloorSafeNecessary(cfg: Config)
    requires cfg.Valid() && Priced(cfg, 3) && !FloorSafe(cfg)
    ensures Askable(cfg, Steady(1, 0, FirstProbe(cfg)))
    ensures Undercuts(cfg, PLAIN, Steady(1, 0, FirstProbe(cfg)), 3)
  {
    assert Priced(cfg, 1);
    hide Budget, StepMs, Run, Askable, Priced;
    var n := FirstProbe(cfg);
    SteadyRun(cfg, 1, 0, n);
    UndercutsExactly(cfg, PLAIN, Steady(1, 0, n), 3);
    FirstProbeProbes(cfg);
    RejectedNotRiding(cfg, Run(cfg, PLAIN, Steady(1, 0, n)).hist);
    assert CapNow(cfg, PLAIN, Steady(1, 0, n), 3) == 3;
  }

  // The configurations under which the floor holds on every run are exactly the safe ones, and those whose table
  // prices no ceiling as deep as three.
  lemma FloorExactly(cfg: Config)
    requires cfg.Valid()
    ensures FloorSafe(cfg) || !Priced(cfg, 3) <==>
      forall q: Terms, es: seq<Event>, kMax: nat ::
        Askable(cfg, es) && Priced(cfg, kMax) ==> !Undercuts(cfg, q, es, kMax)
  {
    if FloorSafe(cfg) {
      forall q: Terms, es: seq<Event>, kMax: nat | Askable(cfg, es) && Priced(cfg, kMax)
        ensures !Undercuts(cfg, q, es, kMax)
      {
        FloorSafeSuffices(cfg, q, es, kMax);
      }
    } else if Priced(cfg, 3) {
      FloorSafeNecessary(cfg);
    } else {
      forall q: Terms, es: seq<Event>, kMax: nat | Askable(cfg, es) && Priced(cfg, kMax)
        ensures !Undercuts(cfg, q, es, kMax)
      {
        ShallowNeverUndercuts(cfg, q, es, kMax);
      }
    }
  }

  lemma ShallowNeverUndercuts(cfg: Config, q: Terms, es: seq<Event>, kMax: nat)
    requires cfg.Valid() && Askable(cfg, es) && Priced(cfg, kMax) && !Priced(cfg, 3)
    ensures !Undercuts(cfg, q, es, kMax)
  {
    assert kMax <= 2;
    if Rolling(cfg, q) {
      hide Budget, Riding, Priced, Askable, Run;
      UndercutsExactly(cfg, q, es, kMax);
      KeptPositive(cfg, q, es);
    }
  }

  lemma FirstProbeProbes(cfg: Config)
    requires cfg.Valid() && cfg.probe > 0
    ensures Probes(cfg, FirstProbe(cfg))
  {
    var n := FirstProbe(cfg);
    assert cfg.probe * cfg.probeDecay >= cfg.probe;
    SelfMultiple(n);
  }

  // --- Riding a stretch, and backing off ---------------------------------------------------------------------

  // The last jumpN recorded steps accepted everything they drafted.
  predicate Stretch(cfg: Config, recorded: seq<Obs>) {
    && cfg.jumpN > 0 && |recorded| >= cfg.jumpN
    && forall i :: |recorded| - cfg.jumpN <= i < |recorded| ==> recorded[i].accepted >= recorded[i].drafted
  }

  // A run rides exactly when it ends in such a stretch and the window can hold one.
  lemma RidingExactly(cfg: Config, q: Terms, es: seq<Event>)
    requires cfg.Valid() && Askable(cfg, es)
    ensures Riding(cfg, Run(cfg, q, es).hist) <==> Stretch(cfg, Recorded(cfg, q, es)) && cfg.jumpN <= cfg.window
  {
    hide Run, Recorded, Askable;
    HistoryIsWindow(cfg, q, es);
    var all, hist := Recorded(cfg, q, es), Run(cfg, q, es).hist;
    assert forall i :: 0 <= i < |hist| ==> hist[i] == all[|all| - |hist| + i];
    assert forall o :: o in all ==> o.drafted > 0;
    if Riding(cfg, hist) {
      forall i | |all| - cfg.jumpN <= i < |all| ensures all[i].accepted >= all[i].drafted {
        assert all[i] == hist[i - (|all| - |hist|)];
      }
    } else if Stretch(cfg, all) && cfg.jumpN <= cfg.window {
      assert forall i :: 0 <= i < |hist| ==> hist[i] in all;
    }
  }

  // In every run that does, the next budget and the kept length are the gated ceiling.
  lemma JumpForcesCeiling(cfg: Config, q: Terms, es: seq<Event>, kMax: nat)
    requires cfg.Valid() && Askable(cfg, es) && Priced(cfg, kMax) && Rolling(cfg, q)
    requires Stretch(cfg, Recorded(cfg, q, es)) && cfg.jumpN <= cfg.window && CapNow(cfg, q, es, kMax) > 0
    ensures Budget(cfg, q, es, kMax) == CapNow(cfg, q, es, kMax)
    ensures CapFor(cfg, q, Run(cfg, q, es), kMax).0.cap == Some(CapNow(cfg, q, es, kMax))
  {
    hide Priced, Riding, Choose, Probes, Run, Recorded, Stretch, Askable;
    RidingExactly(cfg, q, es);
  }

  // While nothing deeper than the floor is judged, the estimate is the floor.
  lemma FloorEstimate(cfg: Config, r: Roll, cap: int)
    requires cfg.Valid() && Priced(cfg, cap) && cap >= cfg.kMin
    requires Scorable(cfg, r.hist, cap) <= cfg.kMin
    requires r.cap == Some(cfg.kMin) || (r.cap.None? && cap == cfg.kMin)
    ensures Estimate(cfg, r, cap) == cfg.kMin
  {
    var m := Scorable(cfg, r.hist, cap);
    if |r.hist| >= cfg.minObs && m > 0 {
      assert Scores(cfg, r.hist, m);
      BestIsBest(cfg, r.hist, m);
    }
  }

  lemma {:induction false} ObservedNone(hist: seq<Obs>, j: int)
    requires forall o :: o in hist ==> o.drafted < j
    ensures Observed(hist, j) == 0
  {
    if hist != [] {
      ObservedNone(hist[1..], j);
    }
  }

  // A stretch longer than the window is never seen: the floor accepted whole, jumpN times, moves nothing.
  lemma StretchUnseen(cfg: Config)
    requires cfg.Valid() && Priced(cfg, cfg.kMin + 2) && cfg.jumpN > cfg.window
    ensures var es := Steady(cfg.kMin, cfg.kMin, cfg.jumpN);
      && Askable(cfg, es) && Stretch(cfg, Recorded(cfg, PLAIN, es))
      && CapNow(cfg, PLAIN, es, cfg.kMin + 2) == cfg.kMin + 2 > Budget(cfg, PLAIN, es, cfg.kMin + 2)
  {
    var es, cap := Steady(cfg.kMin, cfg.kMin, cfg.jumpN), cfg.kMin + 2;
    assert Priced(cfg, cfg.kMin);
    hide Run, Recorded, Askable, StepMs, Priced, Estimate, Probes;
    SteadyRun(cfg, cfg.kMin, cfg.kMin, cfg.jumpN);
    var r, all := Run(cfg, PLAIN, es), Recorded(cfg, PLAIN, es);
    assert forall i :: 0 <= i < |all| ==> all[i] in all;
    ObservedNone(r.hist, cfg.kMin + 1);
    ScorableExactly(cfg, r.hist, cap, cfg.kMin + 1);
    FloorEstimate(cfg, r, cap);
  }

  // So a stretch forces the ceiling on every run exactly when jumpN is at most the window.
  lemma JumpExactly(cfg: Config)
    requires cfg.Valid() && Priced(cfg, cfg.kMin + 2) && cfg.jumpN > 0
    ensures cfg.jumpN <= cfg.window <==>
      forall q: Terms, es: seq<Event>, kMax: nat ::
        Askable(cfg, es) && Priced(cfg, kMax) && Rolling(cfg, q) && Stretch(cfg, Recorded(cfg, q, es)) ==>
        CapNow(cfg, q, es, kMax) > 0 ==> Budget(cfg, q, es, kMax) == CapNow(cfg, q, es, kMax)
  {
    hide Budget, CapNow, Stretch, Recorded, Askable, Priced;
    if cfg.jumpN <= cfg.window {
      forall q: Terms, es: seq<Event>, kMax: nat
        | Askable(cfg, es) && Priced(cfg, kMax) && Rolling(cfg, q) && Stretch(cfg, Recorded(cfg, q, es))
          && CapNow(cfg, q, es, kMax) > 0
        ensures Budget(cfg, q, es, kMax) == CapNow(cfg, q, es, kMax)
      {
        JumpForcesCeiling(cfg, q, es, kMax);
      }
    } else {
      StretchUnseen(cfg);
      assert Rolling(cfg, PLAIN);
    }
  }

  lemma RejectedNotRiding(cfg: Config, hist: seq<Obs>)
    requires forall o :: o in hist ==> o.accepted < o.drafted
    ensures !Riding(cfg, hist)
  {
    assert hist != [] ==> hist[|hist| - 1] in hist;
  }

  lemma {:induction false} NothingPaid(hist: seq<Obs>, j: int)
    requires j >= 1 && forall o :: o in hist ==> o.accepted == 0
    ensures Paid(hist, j) == 0
  {
    if hist != [] {
      NothingPaid(hist[1..], j);
    }
  }

  lemma {:induction false} NothingEarned(hist: seq<Obs>, k: nat)
    requires forall o :: o in hist ==> o.accepted == 0
    requires forall j :: 1 <= j <= k ==> Observed(hist, j) > 0
    ensures Cum(hist, k) == 0.0
  {
    if k > 0 {
      NothingEarned(hist, k - 1);
      NothingPaid(hist, k);
    }
  }

  // With nothing accepted, deeper never scores better.
  lemma {:induction false} RejectedScoresFall(cfg: Config, hist: seq<Obs>, m: nat)
    requires cfg.Valid() && cfg.Nondecreasing() && Scores(cfg, hist, m) && m >= 1
    requires forall o :: o in hist ==> o.accepted == 0
    ensures BestUpTo(cfg, hist, m) == (1, Score(cfg, hist, 1))
  {
    NondecreasingIsPriced(cfg, m);
    NothingEarned(hist, m);
    NothingEarned(hist, 1);
    hide Cum, StepMs;
    if m > 1 {
      RejectedScoresFall(cfg, hist, m - 1);
      StepsOrdered(cfg, 2, m + 1);
      ReciprocalFalls(StepMs(cfg, 2), StepMs(cfg, m + 1));
    } else {
      ScoreNonnegative(cfg, hist, 1);
    }
  }

  lemma {:induction false} StepsOrdered(cfg: Config, a: nat, b: nat)
    requires cfg.Valid() && cfg.Nondecreasing() && 1 <= a <= b
    ensures StepMs(cfg, a) <= StepMs(cfg, b)
    decreases b
  {
    if a < b {
      StepsOrdered(cfg, a, b - 1);
      NondecreasingIsPriced(cfg, b - 1);
    }
  }

  lemma ReciprocalFalls(t: real, u: real)
    requires 0.0 < t <= u
    ensures 1.0 / u <= 1.0 / t
  {
    QuotientAbove(1.0, u, 1.0 / t);
    assert 1.0 / t * t == 1.0;
    ProductSign(1.0 / t, u - t);
  }

  lemma RejectedState(cfg: Config, q: Terms, r: Roll, kMax: nat)
    requires cfg.Valid() && cfg.Nondecreasing() && Priced(cfg, kMax) && Rolling(cfg, q)
    requires |r.hist| >= cfg.minObs && forall o :: o in r.hist ==> o.accepted == 0 < o.drafted
    requires Gated(cfg, r, Ceiling(q, kMax)) > 0
    ensures var cap, out := Gated(cfg, r, Ceiling(q, kMax)), CapFor(cfg, q, r, kMax);
      && out.0.cap == Some(Min(cfg.kMin, cap))
      && out.1 == if Min(cfg.kMin, cap) < cap && Probes(cfg, r.n) then Min(cfg.kMin, cap) + 1 else Min(cfg.kMin, cap)
  {
    var cap := Gated(cfg, r, Ceiling(q, kMax));
    ObservedAll(r.hist, 1);
    hide Priced, Probes, BestUpTo, StepMs, Score;
    assert Priced(cfg, cap) by {
      NondecreasingIsPriced(cfg, cap);
    }
    ChooseMaximises(cfg, r.hist, cap);
    var m := Scorable(cfg, r.hist, cap);
    assert Scores(cfg, r.hist, m) by {
      NondecreasingIsPriced(cfg, m);
    }
    RejectedScoresFall(cfg, r.hist, m);
    assert Choose(cfg, r.hist, cap) == Some(cfg.kMin);
    RejectedNotRiding(cfg, r.hist);
  }

  // None of the last `window` recorded steps had a draft accepted.
  predicate AllRejected(cfg: Config, recorded: seq<Obs>) {
    forall o :: o in LastOf(recorded, cfg.window) ==> o.accepted == 0
  }

  // In every run whose window is judged, that forces the floor, or its probe one deeper.
  lemma RejectionForcesFloor(cfg: Config, q: Terms, es: seq<Event>, kMax: nat)
    requires cfg.Valid() && cfg.Nondecreasing() && Askable(cfg, es) && Priced(cfg, kMax) && Rolling(cfg, q)
    requires |Recorded(cfg, q, es)| >= cfg.minObs && cfg.window >= cfg.minObs && AllRejected(cfg, Recorded(cfg, q, es))
    requires CapNow(cfg, q, es, kMax) > 0
    ensures var floor := Min(cfg.kMin, CapNow(cfg, q, es, kMax));
      && CapFor(cfg, q, Run(cfg, q, es), kMax).0.cap == Some(floor)
      && Budget(cfg, q, es, kMax)
         == if floor < CapNow(cfg, q, es, kMax) && Probes(cfg, |Recorded(cfg, q, es)|) then floor + 1 else floor
  {
    hide Run, Recorded, Askable, Priced, CapFor, Probes;
    HistoryIsWindow(cfg, q, es);
    assert forall o :: o in Run(cfg, q, es).hist ==> o in Recorded(cfg, q, es);
    RejectedState(cfg, q, Run(cfg, q, es), kMax);
  }

  // With a window below minObs nothing is ever judged: apart from jumps no run changes the length it started with.
  lemma UnjudgedStays(cfg: Config, q: Terms, es: seq<Event>, kMax: nat)
    requires cfg.Valid() && Askable(cfg, es) && Priced(cfg, kMax) && Rolling(cfg, q) && cfg.window < cfg.minObs
    requires CapNow(cfg, q, es, kMax) > 0 && !Stretch(cfg, Recorded(cfg, q, es))
    ensures var r, cap := Run(cfg, q, es), CapNow(cfg, q, es, kMax);
      CapFor(cfg, q, r, kMax).0.cap == Some(Min(if r.cap.None? then StartFor(cfg, cap) else r.cap.value, cap))
  {
    hide Run, Recorded, Askable, Priced, Probes, Riding, Stretch;
    HistoryIsWindow(cfg, q, es);
    RidingExactly(cfg, q, es);
  }

  // On a table that never falls no run has to be excepted.
  lemma FloorOnRisingTables(cfg: Config)
    requires cfg.Valid() && cfg.Nondecreasing()
    ensures forall es: seq<Event> :: Askable(cfg, es)
    ensures FloorSafe(cfg) <==>
      forall q: Terms, es: seq<Event>, kMax: nat :: Askable(cfg, es) && Priced(cfg, kMax) ==> !Undercuts(cfg, q, es, kMax)
  {
    hide Askable, Priced, Undercuts;
    forall es: seq<Event> ensures Askable(cfg, es) {
      AnythingIsAskable(cfg, es);
    }
    NondecreasingIsPriced(cfg, 3);
    FloorExactly(cfg);
  }
}
