// A run in which accepted probes alone raise the length, for every table on which the depth past the floor pays, as
// soon as one window can hold enough of them; with RollProbes that is exactly when it can happen.
module RollClimbs {
  import opened Arithmetic
  import opened Options
  import opened SpecRoll
  import opened RollState
  import opened RollRuns
  import opened RollFlights
  import opened RollProbes
  import opened RollWindows

  // --- A run that climbs on probes alone --------------------------------------------------------------------

  // A request at the floor, under k_max = kMin until step `from` and one more after that. Every output drafts the floor
  // and is rejected, except that from step `first` on whatever a probe allows is drafted and accepted. As many
  // budgets as may be outstanding always are when an output arrives; at a probing step all of them are replaced, by
  // steps that draft nothing.
  datatype Trail = Trail(first: nat, from: nat, lag: nat)
  {
    ghost predicate Valid() {
      0 < from <= first && lag > 0
    }
  }

  predicate Accepts(cfg: Config, t: Trail, s: nat) {
    s >= t.first && NearProbe(cfg, s, t.from, t.lag)
  }

  function StepAt(cfg: Config, t: Trail, s: nat): Obs {
    if Accepts(cfg, t, s) then Obs(cfg.kMin + 1, cfg.kMin + 1) else Obs(0, cfg.kMin)
  }

  function Steps(cfg: Config, t: Trail, n: nat): (hist: seq<Obs>)
    ensures |hist| == n
  {
    if n == 0 then [] else Steps(cfg, t, n - 1) + [StepAt(cfg, t, n - 1)]
  }

  predicate ProbesWide(cfg: Config, t: Trail, s: nat) {
    s >= t.from && Probes(cfg, s)
  }

  // How many of the outstanding budgets, the oldest first, are probes when step s is about to be answered, and when
  // it is about to ask.
  function Fresh(cfg: Config, t: Trail, s: nat): (count: nat)
    requires t.Valid()
    ensures count <= t.lag
    decreases s, 1
  {
    if ProbesWide(cfg, t, s) then t.lag else Left(cfg, t, s)
  }

  function Left(cfg: Config, t: Trail, s: nat): (count: nat)
    requires t.Valid()
    ensures count < t.lag
    decreases s, 0
  {
    if s == 0 || Fresh(cfg, t, s - 1) == 0 then 0 else Fresh(cfg, t, s - 1) - 1
  }

  lemma {:induction false} NearFresh(cfg: Config, t: Trail, s: nat, j: nat)
    requires t.Valid() && j <= t.lag && NearProbe(cfg, s, t.from, j)
    ensures Fresh(cfg, t, s) >= t.lag - j + 1
  {
    hide Probes;
    if !Probes(cfg, s) {
      NearFresh(cfg, t, s - 1, j - 1);
    }
  }

  function Widest(cfg: Config, t: Trail, s: nat): nat {
    if s < t.from then cfg.kMin else cfg.kMin + 1
  }

  function Asks(kMax: nat, count: nat): seq<Event> {
    if count == 0 then [] else Asks(kMax, count - 1) + [Ask(kMax)]
  }

  // The oldest budget goes to a step that drafts nothing, and another one is asked for.
  function Renewals(kMax: nat, count: nat): seq<Event> {
    if count == 0 then [] else Renewals(kMax, count - 1) + [Arrive(0, 0)] + [Ask(kMax)]
  }

  function AsksAt(cfg: Config, t: Trail, s: nat): seq<Event>
    requires t.Valid()
  {
    [Ask(Widest(cfg, t, s))] + Renewals(Widest(cfg, t, s), if ProbesWide(cfg, t, s) then t.lag - 1 else 0)
  }

  function EventsAt(cfg: Config, t: Trail, s: nat): seq<Event>
    requires t.Valid()
  {
    AsksAt(cfg, t, s) + [Arrive(StepAt(cfg, t, s).accepted, StepAt(cfg, t, s).drafted)]
  }

  function Crawl(cfg: Config, t: Trail, start: nat, s: nat): seq<Event>
    requires t.Valid() && start <= s
  {
    if s == start then [] else Crawl(cfg, t, start, s - 1) + EventsAt(cfg, t, s - 1)
  }

  // --- What the window shows of it ---------------------------------------------------------------------------

  function ProbesSince(cfg: Config, t: Trail, n: nat): nat {
    if n <= t.first then 0 else NearCount(cfg, t.first, n - t.first, t.from, t.lag)
  }

  lemma SinceStep(cfg: Config, t: Trail, n: nat)
    ensures ProbesSince(cfg, t, n + 1) == ProbesSince(cfg, t, n) + if Accepts(cfg, t, n) then 1 else 0
  {
    hide NearProbe;
    if n == t.first {
      assert NearCount(cfg, t.first, 0, t.from, t.lag) == 0;
    }
  }

  lemma {:induction false} ObservedConcat(a: seq<Obs>, b: seq<Obs>, j: int)
    ensures Observed(a + b, j) == Observed(a, j) + Observed(b, j)
    ensures Paid(a + b, j) == Paid(a, j) + Paid(b, j)
  {
    if a == [] {
      assert a + b == b;
    } else {
      ObservedConcat(a[1..], b, j);
      assert (a + b)[1..] == a[1..] + b;
    }
  }

  // What the steps show of each depth.
  lemma {:induction false} StepCounts(cfg: Config, t: Trail, n: nat, j: nat)
    requires cfg.Valid() && 1 <= j <= cfg.kMin + 1
    ensures Paid(Steps(cfg, t, n), j) == ProbesSince(cfg, t, n)
    ensures Observed(Steps(cfg, t, n), j) == if j <= cfg.kMin then n else ProbesSince(cfg, t, n)
  {
    assert ProbesSince(cfg, t, 0) == 0;
    hide Accepts, ProbesSince;
    if n > 0 {
      SinceStep(cfg, t, n - 1);
      StepCounts(cfg, t, n - 1, j);
      ObservedConcat(Steps(cfg, t, n - 1), [StepAt(cfg, t, n - 1)], j);
      assert Observed([StepAt(cfg, t, n - 1)], j) == if StepAt(cfg, t, n - 1).drafted >= j then 1 else 0;
      assert Paid([StepAt(cfg, t, n - 1)], j) == if StepAt(cfg, t, n - 1).accepted >= j then 1 else 0;
    }
  }

  lemma {:induction false} StepsPrefix(cfg: Config, t: Trail, m: nat, n: nat)
    requires m <= n
    ensures Steps(cfg, t, n)[..m] == Steps(cfg, t, m)
    decreases n
  {
    if m < n {
      StepsPrefix(cfg, t, m, n - 1);
      assert Steps(cfg, t, n)[..m] == Steps(cfg, t, n - 1)[..m];
    } else {
      assert Steps(cfg, t, n)[..n] == Steps(cfg, t, n);
    }
  }

  function Window(cfg: Config, t: Trail, n: nat): seq<Obs> {
    LastOf(Steps(cfg, t, n), cfg.window)
  }

  // The window shows the same of the probed depth as the whole run while it reaches back to `first`.
  lemma WindowCounts(cfg: Config, t: Trail, n: nat, j: nat)
    requires cfg.Valid() && 1 <= j <= cfg.kMin + 1
    ensures var hist := Window(cfg, t, n);
      && |hist| == Min(n, cfg.window)
      && Observed(hist, cfg.kMin + 1) <= ProbesSince(cfg, t, n)
      && (n <= t.first + cfg.window ==>
            && Paid(hist, j) == ProbesSince(cfg, t, n)
            && Observed(hist, j) == if j <= cfg.kMin then |hist| else ProbesSince(cfg, t, n))
  {
    var all, hist := Steps(cfg, t, n), Window(cfg, t, n);
    var m := n - |hist|;
    assert all == all[..m] + hist;
    StepsPrefix(cfg, t, m, n);
    StepCounts(cfg, t, n, cfg.kMin + 1);
    StepCounts(cfg, t, n, j);
    StepCounts(cfg, t, m, j);
    hide Steps, LastOf, Observed, Paid;
    ObservedConcat(all[..m], hist, j);
    ObservedConcat(all[..m], hist, cfg.kMin + 1);
  }

  lemma {:induction false} StepsAre(cfg: Config, t: Trail, n: nat, i: nat)
    requires i < n
    ensures Steps(cfg, t, n)[i] == StepAt(cfg, t, i)
  {
    if i < n - 1 {
      StepsAre(cfg, t, n - 1, i);
    }
  }

  // Accepted probes alone never make a jump: it is off, or needs more steps than budgets can be outstanding, and the
  // period is longer than that too.
  predicate ProbesStandAlone(cfg: Config, lag: nat) {
    cfg.jumpN == 0 || (cfg.jumpN > lag && cfg.probe > lag)
  }

  // Then one of any lag + 1 consecutive steps is not near a probe.
  lemma FarStep(cfg: Config, last: nat, from: nat, lag: nat) returns (m: int)
    requires cfg.Valid() && cfg.probe > lag
    ensures last - lag <= m <= last && (m >= 0 ==> !NearProbe(cfg, m, from, lag))
  {
    var r := last % cfg.probe;
    m := if r >= lag then last else last - r - 1;
    if m >= 0 {
      if r < lag {
        assert m == (last / cfg.probe - 1) * cfg.probe + (cfg.probe - 1);
        DivModUnique(m, cfg.probe, last / cfg.probe - 1, cfg.probe - 1);
      }
      if NearProbe(cfg, m, from, lag) {
        NearIsResidue(cfg, m, from, lag);
      }
    }
  }

  lemma CrawlNotRiding(cfg: Config, t: Trail, n: nat)
    requires cfg.Valid() && ProbesStandAlone(cfg, t.lag)
    ensures !Riding(cfg, Window(cfg, t, n))
  {
    var hist := Window(cfg, t, n);
    hide NearProbe;
    if cfg.jumpN > 0 && |hist| >= cfg.jumpN {
      var m := FarStep(cfg, n - 1, t.from, t.lag);
      var i := m - (n - |hist|);
      assert |hist| - cfg.jumpN <= i < |hist|;
      StepsAre(cfg, t, n, m);
      assert hist[i] == StepAt(cfg, t, m);
    }
  }

  // --- The run, step by step ---------------------------------------------------------------------------------

  ghost predicate RollAt(cfg: Config, t: Trail, r: Roll, s: nat) {
    r == Roll(Window(cfg, t, s), s, r.cap, None) && (r.cap == Some(cfg.kMin) || (r.cap.None? && s == 0))
  }

  // `size` budgets are outstanding, all for at least the floor; those from index `start` to `end` are probes.
  ghost predicate Outstanding(cfg: Config, asked: seq<Asked>, size: nat, start: int, end: int) {
    && |asked| == size
    && forall i :: 0 <= i < size ==> asked[i].budget >= cfg.kMin + if start <= i < end then 1 else 0
  }

  // Before step s asks.
  ghost predicate CrawlAt(cfg: Config, t: Trail, f: Flight, s: nat)
    requires t.Valid()
  {
    RollAt(cfg, t, f.roll, s) && Outstanding(cfg, f.pending, t.lag - 1, 0, Left(cfg, t, s))
  }

  // As long as the probed depth is not judged the length stays at the floor.
  lemma CrawlSettles(cfg: Config, t: Trail, r: Roll, s: nat)
    requires cfg.Valid() && Priced(cfg, cfg.kMin + 1) && t.Valid() && ProbesStandAlone(cfg, t.lag)
    requires RollAt(cfg, t, r, s) && ProbesSince(cfg, t, s) < cfg.minObs
    ensures Priced(cfg, Widest(cfg, t, s)) && !Riding(cfg, r.hist)
    ensures Settle(cfg, r, Widest(cfg, t, s)) == cfg.kMin
  {
    assert Priced(cfg, Widest(cfg, t, s));
    WindowCounts(cfg, t, s, 1);
    CrawlNotRiding(cfg, t, s);
    ScorableExactly(cfg, r.hist, Widest(cfg, t, s), cfg.kMin + 1);
    hide Priced, Riding, Probes, ProbesSince, Scorable, Estimate, Window;
    FloorEstimate(cfg, r, Widest(cfg, t, s));
  }

  lemma CrawlAsk(cfg: Config, t: Trail, f: Flight, s: nat)
    requires cfg.Valid() && Priced(cfg, cfg.kMin + 1) && t.Valid() && ProbesStandAlone(cfg, t.lag)
    requires RollAt(cfg, t, f.roll, s) && ProbesSince(cfg, t, s) < cfg.minObs && |f.pending| < t.lag
    ensures Priced(cfg, Widest(cfg, t, s)) && Legal(f, Ask(Widest(cfg, t, s)), t.lag) && !Riding(cfg, f.roll.hist)
    ensures var g := Step(cfg, PLAIN, f, Ask(Widest(cfg, t, s)));
      && RollAt(cfg, t, g.roll, s) && g.roll.cap.Some?
      && g.pending == f.pending + [Asked(s, if ProbesWide(cfg, t, s) then cfg.kMin + 1 else cfg.kMin)]
  {
    CrawlSettles(cfg, t, f.roll, s);
    hide Priced, Settle, Probes, ProbesSince, Window, Riding;
  }

  // The budgets asked for before the first output.
  lemma {:induction false} CrawlStarts(cfg: Config, t: Trail, count: nat, ahead: nat)
    requires cfg.Valid() && Priced(cfg, cfg.kMin + 1) && t.Valid() && ProbesStandAlone(cfg, t.lag) && count < t.lag
    ensures var es := Asks(cfg.kMin, count);
      && Askable(cfg, es) && Smooth(cfg, PLAIN, TAKE_OFF, es, t.lag, ahead)
      && var f := Fly(cfg, PLAIN, TAKE_OFF, es); RollAt(cfg, t, f.roll, 0) && Outstanding(cfg, f.pending, count, 0, 0)
  {
    hide Priced, Step, Legal, Riding, Window, Widest, ProbesSince, ProbesWide;
    AtFirst(cfg, t);
    if count > 0 {
      CrawlStarts(cfg, t, count - 1, ahead);
      var es := Asks(cfg.kMin, count - 1);
      var f := Fly(cfg, PLAIN, TAKE_OFF, es);
      hide Fly, Smooth, Askable, RollAt;
      CrawlAsk(cfg, t, f, 0);
      Onward(cfg, PLAIN, TAKE_OFF, es, Ask(cfg.kMin), t.lag, ahead);
    }
  }

  lemma AtFirst(cfg: Config, t: Trail)
    requires t.Valid()
    ensures Widest(cfg, t, 0) == cfg.kMin && ProbesSince(cfg, t, 0) == 0 && !ProbesWide(cfg, t, 0)
    ensures Window(cfg, t, 0) == []
  {
  }

  lemma TakesOff(cfg: Config, t: Trail, ahead: nat)
    requires cfg.Valid() && Priced(cfg, cfg.kMin + 1) && t.Valid() && ProbesStandAlone(cfg, t.lag)
    ensures ProbesSince(cfg, t, t.from - 1) < cfg.minObs
    ensures var es := Asks(cfg.kMin, t.lag - 1);
      Askable(cfg, es) && Smooth(cfg, PLAIN, TAKE_OFF, es, t.lag, ahead) && CrawlAt(cfg, t, Fly(cfg, PLAIN, TAKE_OFF, es), 0)
  {
    assert ProbesSince(cfg, t, t.from - 1) == 0 && Left(cfg, t, 0) == 0;
    hide Fly, Smooth, Askable, Asks, RollAt, Priced;
    CrawlStarts(cfg, t, t.lag - 1, ahead);
  }

  // While the outstanding budgets are replaced at a probing step.
  lemma {:induction false} CrawlRenews(cfg: Config, t: Trail, f: Flight, s: nat, count: nat, ahead: nat)
    requires cfg.Valid() && Priced(cfg, cfg.kMin + 1) && t.Valid() && ProbesStandAlone(cfg, t.lag) && ahead < t.lag
    requires RollAt(cfg, t, f.roll, s) && f.roll.cap.Some? && ProbesSince(cfg, t, s) < cfg.minObs && ProbesWide(cfg, t, s)
    requires Outstanding(cfg, f.pending, t.lag, t.lag - 1, t.lag)
    ensures var es := Renewals(Widest(cfg, t, s), count);
      && Askable(cfg, es) && Smooth(cfg, PLAIN, f, es, t.lag, ahead)
      && var g := Fly(cfg, PLAIN, f, es);
         RollAt(cfg, t, g.roll, s) && g.roll.cap.Some? && Outstanding(cfg, g.pending, t.lag, t.lag - 1 - count, t.lag)
  {
    hide Priced, Step, Legal, Riding, RollAt, Widest, ProbesSince, ProbesWide;
    if count > 0 {
      CrawlRenews(cfg, t, f, s, count - 1, ahead);
      var es := Renewals(Widest(cfg, t, s), count - 1);
      var g := Fly(cfg, PLAIN, f, es);
      EmptyArrives(cfg, t, g, s, t.lag - 1 - (count - 1));
      Onward(cfg, PLAIN, f, es, Arrive(0, 0), t.lag, ahead);
      CrawlAsk(cfg, t, Step(cfg, PLAIN, g, Arrive(0, 0)), s);
      Onward(cfg, PLAIN, f, es + [Arrive(0, 0)], Ask(Widest(cfg, t, s)), t.lag, ahead);
    }
  }

  lemma EmptyArrives(cfg: Config, t: Trail, f: Flight, s: nat, start: int)
    requires cfg.Valid() && t.Valid() && RollAt(cfg, t, f.roll, s) && Outstanding(cfg, f.pending, t.lag, start, t.lag)
    ensures var g := Step(cfg, PLAIN, f, Arrive(0, 0));
      && Legal(f, Arrive(0, 0), t.lag) && RollAt(cfg, t, g.roll, s) && g.roll.cap == f.roll.cap
      && Outstanding(cfg, g.pending, t.lag - 1, start - 1, t.lag - 1)
  {
    hide Window;
  }

  lemma CrawlArrive(cfg: Config, t: Trail, f: Flight, s: nat)
    requires cfg.Valid() && t.Valid() && RollAt(cfg, t, f.roll, s) && f.roll.cap.Some?
    requires Outstanding(cfg, f.pending, t.lag, 0, Fresh(cfg, t, s))
    ensures var e := Arrive(StepAt(cfg, t, s).accepted, StepAt(cfg, t, s).drafted);
      Legal(f, e, t.lag) && CrawlAt(cfg, t, Step(cfg, PLAIN, f, e), s + 1)
  {
    hide Accepts, RollAt, Fresh, Record, CapFor;
    CrawlRecords(cfg, t, f.roll, s);
    assert Left(cfg, t, s + 1) == Max(Fresh(cfg, t, s) - 1, 0);
    if Accepts(cfg, t, s) {
      AcceptsFresh(cfg, t, s);
    }
  }

  lemma AcceptsFresh(cfg: Config, t: Trail, s: nat)
    requires t.Valid() && Accepts(cfg, t, s)
    ensures Fresh(cfg, t, s) > 0
  {
    NearFresh(cfg, t, s, t.lag);
  }

  lemma CrawlRecords(cfg: Config, t: Trail, r: Roll, s: nat)
    requires cfg.Valid() && RollAt(cfg, t, r, s) && r.cap.Some?
    ensures RollAt(cfg, t, Record(cfg, PLAIN, r, StepAt(cfg, t, s).accepted, StepAt(cfg, t, s).drafted), s + 1)
  {
    hide Accepts, LastOf;
    LastOfAppend(Steps(cfg, t, s), StepAt(cfg, t, s), cfg.window);
  }

  lemma CrawlAsks(cfg: Config, t: Trail, f: Flight, s: nat, ahead: nat)
    requires cfg.Valid() && Priced(cfg, cfg.kMin + 1) && t.Valid() && ProbesStandAlone(cfg, t.lag) && ahead < t.lag
    requires CrawlAt(cfg, t, f, s) && ProbesSince(cfg, t, s) < cfg.minObs
    ensures Askable(cfg, AsksAt(cfg, t, s)) && Smooth(cfg, PLAIN, f, AsksAt(cfg, t, s), t.lag, ahead)
    ensures var g := Fly(cfg, PLAIN, f, AsksAt(cfg, t, s));
      RollAt(cfg, t, g.roll, s) && g.roll.cap.Some? && Outstanding(cfg, g.pending, t.lag, 0, Fresh(cfg, t, s))
  {
    var w := Widest(cfg, t, s);
    assert [] + [Ask(w)] == [Ask(w)] && Renewals(w, 0) == [] && [Ask(w)] + [] == [Ask(w)];
    hide Priced, ProbesSince, Step, Legal, Widest, Riding, ProbesWide, RollAt, Renewals, Window;
    CrawlAsk(cfg, t, f, s);
    Onward(cfg, PLAIN, f, [], Ask(w), t.lag, ahead);
    if ProbesWide(cfg, t, s) {
      CrawlRenews(cfg, t, Step(cfg, PLAIN, f, Ask(w)), s, t.lag - 1, ahead);
      hide Askable, Fly, LegalRun, JumpFree, StaysAhead;
      Joined(cfg, PLAIN, f, [Ask(w)], Renewals(w, t.lag - 1), t.lag, ahead);
    }
  }

  lemma CrawlStep(cfg: Config, t: Trail, f: Flight, s: nat, ahead: nat)
    requires cfg.Valid() && Priced(cfg, cfg.kMin + 1) && t.Valid() && ProbesStandAlone(cfg, t.lag) && ahead < t.lag
    requires CrawlAt(cfg, t, f, s) && ProbesSince(cfg, t, s) < cfg.minObs
    ensures var es := EventsAt(cfg, t, s);
      Askable(cfg, es) && Smooth(cfg, PLAIN, f, es, t.lag, ahead) && CrawlAt(cfg, t, Fly(cfg, PLAIN, f, es), s + 1)
  {
    hide Priced, ProbesSince, Step, Legal, StepAt, RollAt, AsksAt, Askable, Fly, Smooth, CrawlAt, Fresh;
    var es := AsksAt(cfg, t, s);
    CrawlAsks(cfg, t, f, s, ahead);
    CrawlArrive(cfg, t, Fly(cfg, PLAIN, f, es), s);
    Onward(cfg, PLAIN, f, es, Arrive(StepAt(cfg, t, s).accepted, StepAt(cfg, t, s).drafted), t.lag, ahead);
  }

  lemma {:induction false} CrawlRun(cfg: Config, t: Trail, f: Flight, start: nat, s: nat, ahead: nat)
    requires cfg.Valid() && Priced(cfg, cfg.kMin + 1) && t.Valid() && ProbesStandAlone(cfg, t.lag) && ahead < t.lag
    requires CrawlAt(cfg, t, f, start) && start <= s && (s > start ==> ProbesSince(cfg, t, s - 1) < cfg.minObs)
    ensures var es := Crawl(cfg, t, start, s);
      Askable(cfg, es) && Smooth(cfg, PLAIN, f, es, t.lag, ahead) && CrawlAt(cfg, t, Fly(cfg, PLAIN, f, es), s)
    decreases s
  {
    hide Priced, ProbesSince, CrawlAt, EventsAt, Step, Legal, Riding;
    if s > start {
      FewerBefore(cfg, t, s - 1);
      CrawlRun(cfg, t, f, start, s - 1, ahead);
      var es := Crawl(cfg, t, start, s - 1);
      CrawlStep(cfg, t, Fly(cfg, PLAIN, f, es), s - 1, ahead);
      Joined(cfg, PLAIN, f, es, EventsAt(cfg, t, s - 1), t.lag, ahead);
    }
  }

  lemma FewerBefore(cfg: Config, t: Trail, n: nat)
    requires ProbesSince(cfg, t, n) < cfg.minObs
    ensures n > 0 ==> ProbesSince(cfg, t, n - 1) < cfg.minObs
  {
    if n > t.first + 1 {
      NearCountGrows(cfg, t.first, n - 1 - t.first, n - t.first, t.from, t.lag);
    }
  }

  // --- The depth past the floor pays -----------------------------------------------------------------------

  // One past the floor beats depth j by more than EPS when it is always accepted, both if the shallower positions never
  // are and if they always are.
  predicate Overtakes(cfg: Config, j: nat)
    requires cfg.stepTable != [] && StepMs(cfg, 1 + j) > 0.0 && StepMs(cfg, cfg.kMin + 2) > 0.0
  {
    && 1.0 / StepMs(cfg, 1 + j) + EPS < 2.0 / StepMs(cfg, cfg.kMin + 2)
    && (1 + j) as real / StepMs(cfg, 1 + j) + EPS < (2 + cfg.kMin) as real / StepMs(cfg, cfg.kMin + 2)
  }

  ghost predicate Worth(cfg: Config) {
    Priced(cfg, cfg.kMin + 1) && forall j :: 1 <= j <= cfg.kMin ==> Overtakes(cfg, j)
  }

  // Between the two extremes it follows by mixing them.
  lemma Mixed(a: real, b: real, j: real, k: real, share: real)
    requires a > 0.0 && b > 0.0 && 0.0 <= share <= 1.0
    requires 1.0 / a + EPS < 2.0 / b && (1.0 + j) / a + EPS < (2.0 + k) / b
    ensures (1.0 + j * share) / a + EPS < (2.0 + k * share) / b
  {
    var rest := 1.0 - share;
    Mix(1.0, 1.0 + j, a, share, rest);
    Mix(2.0, 2.0 + k, b, share, rest);
    assert rest * 1.0 + share * (1.0 + j) == 1.0 + j * share;
    assert rest * 2.0 + share * (2.0 + k) == 2.0 + k * share;
    MixLess(1.0 / a + EPS, 2.0 / b, (1.0 + j) / a + EPS, (2.0 + k) / b, share, rest);
    assert rest * (1.0 / a + EPS) + share * ((1.0 + j) / a + EPS)
        == rest * (1.0 / a) + share * ((1.0 + j) / a) + EPS by {
      assert rest * EPS + share * EPS == EPS;
    }
  }

  lemma Mix(x: real, y: real, a: real, share: real, rest: real)
    requires a > 0.0
    ensures (rest * x + share * y) / a == rest * (x / a) + share * (y / a)
  {
    var u, v := x / a, y / a;
    assert u * a == x && v * a == y;
    assert (rest * u + share * v) * a == rest * x + share * y;
    Quotient(rest * x + share * y, a, rest * u + share * v);
  }

  lemma Quotient(x: real, a: real, w: real)
    requires a > 0.0 && w * a == x
    ensures x / a == w
  {
  }

  lemma MixLess(a: real, b: real, c: real, d: real, share: real, rest: real)
    requires a < b && c < d && share >= 0.0 && rest >= 0.0 && share + rest > 0.0
    ensures rest * a + share * c < rest * b + share * d
  {
    if share > 0.0 {
      ScaledLess(c, d, share);
    }
    if rest > 0.0 {
      ScaledLess(a, b, rest);
    }
  }

  lemma ScaledLess(a: real, b: real, f: real)
    requires a < b && f > 0.0
    ensures f * a < f * b
  {
    PositiveFactor(b - a, f);
    assert (b - a) * f == f * b - f * a;
  }

  // Expected drafts when every depth up to k pays the same share.
  lemma {:induction false} CumShare(hist: seq<Obs>, k: nat, share: real)
    requires forall j :: 1 <= j <= k ==> Observed(hist, j) > 0 && Rate(hist, j) == share
    ensures Cum(hist, k) == k as real * share
  {
    if k > 0 {
      CumShare(hist, k - 1, share);
      assert k as real * share == (k - 1) as real * share + share;
    }
  }

  // Once the probed depth is judged it is the choice.
  lemma JudgedProbeWins(cfg: Config, t: Trail, n: nat)
    requires cfg.Valid() && Worth(cfg) && n <= t.first + cfg.window && ProbesSince(cfg, t, n) == cfg.minObs
    ensures Choose(cfg, Window(cfg, t, n), cfg.kMin + 1) == Some(cfg.kMin + 1)
  {
    var hist, k := Window(cfg, t, n), cfg.kMin;
    var share := cfg.minObs as real / |hist| as real;
    forall j | 1 <= j <= k + 1
      ensures Observed(hist, j) == (if j <= k then |hist| else cfg.minObs) && Paid(hist, j) == cfg.minObs
    {
      WindowCounts(cfg, t, n, j);
    }
    ObservedAntitone(hist, k, k + 1);
    hide ProbesSince, Window, Observed, Paid, StepMs;
    ScorableExactly(cfg, hist, k + 1, k + 1);
    assert Scorable(cfg, hist, k + 1) == k + 1;
    assert Scores(cfg, hist, k + 1);
    DeepestScoresBest(cfg, hist, share);
    BestIsBest(cfg, hist, k + 1);
  }

  lemma DeepestScoresBest(cfg: Config, hist: seq<Obs>, share: real)
    requires cfg.Valid() && Worth(cfg) && |hist| >= cfg.minObs && share == cfg.minObs as real / |hist| as real
    requires Scores(cfg, hist, cfg.kMin + 1)
    requires forall j :: 1 <= j <= cfg.kMin + 1 ==>
      Observed(hist, j) == (if j <= cfg.kMin then |hist| else cfg.minObs) && Paid(hist, j) == cfg.minObs
    ensures forall j :: 1 <= j <= cfg.kMin ==> Score(cfg, hist, j) + EPS < Score(cfg, hist, cfg.kMin + 1)
  {
    ShareInRange(cfg.minObs, |hist|);
    SharedRates(cfg, hist, share);
    hide StepMs, Rate, Observed, Paid, Score;
    forall j | 1 <= j <= cfg.kMin ensures Score(cfg, hist, j) + EPS < Score(cfg, hist, cfg.kMin + 1) {
      assert Overtakes(cfg, j);
      SharesScore(cfg, hist, j, share);
    }
  }

  lemma SharedRates(cfg: Config, hist: seq<Obs>, share: real)
    requires cfg.Valid() && |hist| >= cfg.minObs && share == cfg.minObs as real / |hist| as real
    requires forall j :: 1 <= j <= cfg.kMin + 1 ==>
      Observed(hist, j) == (if j <= cfg.kMin then |hist| else cfg.minObs) && Paid(hist, j) == cfg.minObs
    ensures forall i :: 1 <= i <= cfg.kMin ==> Observed(hist, i) > 0 && Rate(hist, i) == share
    ensures Observed(hist, cfg.kMin + 1) > 0 && Rate(hist, cfg.kMin + 1) == 1.0
  {
    hide Observed, Paid;
  }

  lemma SharesScore(cfg: Config, hist: seq<Obs>, j: nat, share: real)
    requires cfg.Valid() && Scores(cfg, hist, cfg.kMin + 1) && 1 <= j <= cfg.kMin && Overtakes(cfg, j)
    requires 0.0 <= share <= 1.0
    requires forall i :: 1 <= i <= cfg.kMin ==> Rate(hist, i) == share
    requires Rate(hist, cfg.kMin + 1) == 1.0
    ensures Score(cfg, hist, j) + EPS < Score(cfg, hist, cfg.kMin + 1)
  {
    var k := cfg.kMin;
    hide StepMs, Rate;
    CumShare(hist, k, share);
    CumShare(hist, j, share);
    Mixed(StepMs(cfg, 1 + j), StepMs(cfg, k + 2), j as real, k as real, share);
  }

  lemma ShareInRange(m: nat, n: nat)
    requires 0 < m <= n
    ensures 0.0 <= m as real / n as real <= 1.0
  {
    var x, y := m as real, n as real;
    QuotientSign(x, y);
    QuotientAbove(x, y, 1.0);
  }

  // --- Exactly ------------------------------------------------------------------------------------------------

  // The first step at which enough probes have been recorded.
  lemma {:induction false} ReachedAt(cfg: Config, t: Trail, count: nat) returns (n: nat)
    requires 0 < cfg.minObs <= NearCount(cfg, t.first, count, t.from, t.lag)
    ensures t.first < n <= t.first + count
    ensures ProbesSince(cfg, t, n) == cfg.minObs && ProbesSince(cfg, t, n - 1) < cfg.minObs
  {
    hide NearProbe;
    if NearCount(cfg, t.first, count - 1, t.from, t.lag) < cfg.minObs {
      n := t.first + count;
    } else {
      n := ReachedAt(cfg, t, count - 1);
    }
  }

  // A request brought by `before` to a quiet flight and by `after`, without a jump, to a higher length, with at most
  // `lag` budgets outstanding and at least `ahead` of them after every output.
  ghost predicate Climbs(cfg: Config, q: Terms, before: seq<Event>, after: seq<Event>, k: int, from: nat, lag: nat,
                         ahead: nat)
    requires cfg.Valid() && Askable(cfg, before) && Askable(cfg, after)
  {
    var f := Fly(cfg, q, TAKE_OFF, before);
    && Rolling(cfg, q) && k >= cfg.kMin
    && LegalRun(cfg, q, TAKE_OFF, before, lag) && StaysAhead(cfg, q, TAKE_OFF, before, ahead)
    && Quiet(cfg, f, k, from, lag) && f.roll.cap.Some? && Smooth(cfg, q, f, after, lag, ahead)
    && var g := Fly(cfg, q, f, after); g.roll.cap.Some? && g.roll.cap.value > k
  }

  // Nothing but the floor has been drafted when k_max widens.
  lemma CrawlQuiet(cfg: Config, t: Trail, f: Flight)
    requires cfg.Valid() && t.Valid() && CrawlAt(cfg, t, f, t.from) && AllWaitQuiet(cfg, f, cfg.kMin, t.from, t.lag)
    ensures Quiet(cfg, f, cfg.kMin, t.from, t.lag) && f.roll.cap.Some?
  {
    hide NearProbe, Probes, AllWaitQuiet;
    var r := f.roll;
    forall i | 0 <= i < |r.hist| ensures r.hist[i] == Obs(0, cfg.kMin) {
      StepsAre(cfg, t, t.from, t.from - |r.hist| + i);
    }
  }

  ghost predicate AsksUpTo(es: seq<Event>, m: nat) {
    forall e :: e in es && e.Ask? ==> e.kMax <= m
  }

  lemma {:induction false} SatAsks(cfg: Config, t: Trail, s: nat)
    requires t.Valid() && s <= t.from
    ensures AsksUpTo(Crawl(cfg, t, 0, s), cfg.kMin)
  {
    if s > 0 {
      SatAsks(cfg, t, s - 1);
      RenewalsAsk(cfg.kMin, if ProbesWide(cfg, t, s - 1) then t.lag - 1 else 0);
    }
  }

  lemma {:induction false} RenewalsAsk(kMax: nat, count: nat)
    ensures AsksUpTo(Renewals(kMax, count), kMax)
  {
    if count > 0 {
      RenewalsAsk(kMax, count - 1);
    }
  }

  lemma {:induction false} AsksAsk(kMax: nat, count: nat)
    ensures AsksUpTo(Asks(kMax, count), kMax)
  {
    if count > 0 {
      AsksAsk(kMax, count - 1);
    }
  }

  // Whatever a run that asks under k_max = m has outstanding allows at most m drafts, and is not older than the lag.
  lemma {:induction false} SatWaiting(cfg: Config, q: Terms, es: seq<Event>, m: nat, from: nat, lag: nat)
    requires cfg.Valid() && Askable(cfg, es) && LegalRun(cfg, q, TAKE_OFF, es, lag) && AsksUpTo(es, m)
    ensures AllWaitQuiet(cfg, Fly(cfg, q, TAKE_OFF, es), m, from, lag)
  {
    hide Next, CapFor, Priced, Probes;
    if es != [] {
      var front, last := es[..|es| - 1], es[|es| - 1];
      var f, g := Fly(cfg, q, TAKE_OFF, front), Fly(cfg, q, TAKE_OFF, es);
      SatWaiting(cfg, q, front, m, from, lag);
      assert last in es;
      StepCount(cfg, q, f.roll, last);
      forall i | 0 <= i < |g.pending| ensures WaitsQuiet(cfg, g, i, m, from, lag) {
        if last.Arrive? {
          assert WaitsQuiet(cfg, f, i + 1, m, from, lag);
        } else if i < |f.pending| {
          assert WaitsQuiet(cfg, f, i, m, from, lag);
        } else {
          BudgetWithin(cfg, q, f.roll, last.kMax);
        }
      }
    }
  }

  lemma StepCount(cfg: Config, q: Terms, r: Roll, e: Event)
    requires cfg.Valid() && (e.Ask? ==> Priced(cfg, e.kMax))
    ensures r.n <= Next(cfg, q, r, e).n <= r.n + if e.Arrive? then 1 else 0
  {
    if e.Ask? {
      AskKeepsHistory(cfg, q, r, e.kMax);
    }
  }

  lemma BudgetWithin(cfg: Config, q: Terms, r: Roll, kMax: nat)
    requires cfg.Valid() && Priced(cfg, kMax)
    ensures CapFor(cfg, q, r, kMax).1 <= kMax
  {
    hide Priced, Probes, Riding, Choose;
  }

  // The budget that climbs.
  lemma ClimbingAsk(cfg: Config, t: Trail, f: Flight, n: nat)
    requires cfg.Valid() && Worth(cfg) && t.Valid() && ProbesStandAlone(cfg, t.lag)
    requires CrawlAt(cfg, t, f, n) && t.first < n <= t.first + cfg.window && ProbesSince(cfg, t, n) == cfg.minObs
    ensures Priced(cfg, cfg.kMin + 1) && Legal(f, Ask(cfg.kMin + 1), t.lag) && !Riding(cfg, f.roll.hist)
    ensures Step(cfg, PLAIN, f, Ask(cfg.kMin + 1)).roll.cap == Some(cfg.kMin + 1)
  {
    JudgedProbeWins(cfg, t, n);
    CrawlNotRiding(cfg, t, n);
    hide Priced, Probes, Riding, ProbesSince, Choose, Window, Left;
  }

  function SitAtFloor(cfg: Config, t: Trail): seq<Event>
    requires t.Valid()
  {
    Asks(cfg.kMin, t.lag - 1) + Crawl(cfg, t, 0, t.from)
  }

  lemma SitsDown(cfg: Config, t: Trail, ahead: nat)
    requires cfg.Valid() && Priced(cfg, cfg.kMin + 1) && t.Valid() && ProbesStandAlone(cfg, t.lag) && ahead < t.lag
    ensures var before := SitAtFloor(cfg, t);
      && Askable(cfg, before) && Smooth(cfg, PLAIN, TAKE_OFF, before, t.lag, ahead)
      && CrawlAt(cfg, t, Fly(cfg, PLAIN, TAKE_OFF, before), t.from)
  {
    var asks, sits := Asks(cfg.kMin, t.lag - 1), Crawl(cfg, t, 0, t.from);
    assert t.lag > 0 && SitAtFloor(cfg, t) == asks + sits;
    hide *;
    TakesOff(cfg, t, ahead);
    CrawlRun(cfg, t, Fly(cfg, PLAIN, TAKE_OFF, asks), 0, t.from, ahead);
    Joined(cfg, PLAIN, TAKE_OFF, asks, sits, t.lag, ahead);
  }

  lemma SitsQuietly(cfg: Config, t: Trail, ahead: nat)
    requires cfg.Valid() && t.Valid() && Askable(cfg, SitAtFloor(cfg, t))
    requires Smooth(cfg, PLAIN, TAKE_OFF, SitAtFloor(cfg, t), t.lag, ahead)
    requires CrawlAt(cfg, t, Fly(cfg, PLAIN, TAKE_OFF, SitAtFloor(cfg, t)), t.from)
    ensures var f := Fly(cfg, PLAIN, TAKE_OFF, SitAtFloor(cfg, t));
      Quiet(cfg, f, cfg.kMin, t.from, t.lag) && f.roll.cap.Some?
  {
    var before := SitAtFloor(cfg, t);
    SitsWithin(cfg, t);
    hide *;
    SmoothIsLegal(cfg, PLAIN, TAKE_OFF, before, t.lag, ahead);
    SatWaiting(cfg, PLAIN, before, cfg.kMin, t.from, t.lag);
    CrawlQuiet(cfg, t, Fly(cfg, PLAIN, TAKE_OFF, before));
  }

  lemma SitsWithin(cfg: Config, t: Trail)
    requires t.Valid()
    ensures AsksUpTo(SitAtFloor(cfg, t), cfg.kMin)
  {
    hide Asks, Crawl;
    SatAsks(cfg, t, t.from);
    AsksAsk(cfg.kMin, t.lag - 1);
  }

  // The climb: sit at the floor up to `from`, reject everything but the probes from `first` on, and ask once more when
  // the last needed probe is recorded.
  lemma ProbesClimb(cfg: Config, t: Trail, ahead: nat) returns (before: seq<Event>, after: seq<Event>)
    requires cfg.Valid() && Worth(cfg) && t.Valid() && ProbesStandAlone(cfg, t.lag) && ahead < t.lag
    requires NearCount(cfg, t.first, cfg.window, t.from, t.lag) >= cfg.minObs
    ensures Askable(cfg, before) && Askable(cfg, after)
    ensures Climbs(cfg, PLAIN, before, after, cfg.kMin, t.from, t.lag, ahead)
  {
    var n := ReachedAt(cfg, t, cfg.window);
    after := Crawl(cfg, t, t.from, n) + [Ask(cfg.kMin + 1)];
    WorthIsPriced(cfg);
    before := SitAtFloor(cfg, t);
    hide *;
    SitsDown(cfg, t, ahead);
    SitsQuietly(cfg, t, ahead);
    var f := Fly(cfg, PLAIN, TAKE_OFF, before);
    CrawlRun(cfg, t, f, t.from, n, ahead);
    var g := Fly(cfg, PLAIN, f, Crawl(cfg, t, t.from, n));
    ClimbingAsk(cfg, t, g, n);
    Onward(cfg, PLAIN, f, Crawl(cfg, t, t.from, n), Ask(cfg.kMin + 1), t.lag, ahead);
    ClimbsMeans(cfg, before, after, t, ahead);
  }

  lemma ClimbsMeans(cfg: Config, before: seq<Event>, after: seq<Event>, t: Trail, ahead: nat)
    requires cfg.Valid() && Askable(cfg, before) && Askable(cfg, after)
    requires Smooth(cfg, PLAIN, TAKE_OFF, before, t.lag, ahead)
    requires var f := Fly(cfg, PLAIN, TAKE_OFF, before);
      && Quiet(cfg, f, cfg.kMin, t.from, t.lag) && f.roll.cap.Some? && Smooth(cfg, PLAIN, f, after, t.lag, ahead)
      && Fly(cfg, PLAIN, f, after).roll.cap == Some(cfg.kMin + 1)
    ensures Climbs(cfg, PLAIN, before, after, cfg.kMin, t.from, t.lag, ahead)
  {
    assert Rolling(cfg, PLAIN);
    hide Fly, LegalRun, JumpFree, StaysAhead, Quiet;
  }

  lemma SmoothIsLegal(cfg: Config, q: Terms, f: Flight, es: seq<Event>, lag: nat, ahead: nat)
    requires cfg.Valid() && Askable(cfg, es) && Smooth(cfg, q, f, es, lag, ahead)
    ensures LegalRun(cfg, q, f, es, lag)
  {
  }

  lemma WorthIsPriced(cfg: Config)
    requires Worth(cfg)
    ensures Priced(cfg, cfg.kMin + 1)
  {
  }

  // A window with enough of them begins at `from` or later.
  lemma {:induction false} NoneBefore(cfg: Config, first: nat, count: nat, from: nat, lag: nat)
    requires first <= from
    ensures NearCount(cfg, first, count, from, lag)
         <= if first + count <= from then 0 else NearCount(cfg, from, first + count - from, from, lag)
  {
    if count > 0 {
      NoneBefore(cfg, first, count - 1, from, lag);
    }
  }

  // So for a table on which the depth past the floor pays, with probes and jumps that can be told apart, probes alone
  // can raise a length that is quiet from step `from` on exactly when some window has enough steps near a probe.
  lemma ClimbsExactly(cfg: Config, from: nat, lag: nat, ahead: nat)
    requires cfg.Valid() && Worth(cfg) && ProbesStandAlone(cfg, lag) && from > 0 && ahead < lag
    ensures Sparse(cfg, from, lag) <==>
      forall q: Terms, before: seq<Event>, after: seq<Event>, k: int ::
        Askable(cfg, before) && Askable(cfg, after) ==> !Climbs(cfg, q, before, after, k, from, lag, ahead)
  {
    hide Worth, Quiet, JumpFree, LegalRun, StaysAhead, Priced, NearProbe, Askable, Fly;
    if Sparse(cfg, from, lag) {
      forall q: Terms, before: seq<Event>, after: seq<Event>, k: int | Askable(cfg, before) && Askable(cfg, after)
        ensures !Climbs(cfg, q, before, after, k, from, lag, ahead)
      {
        if Climbs(cfg, q, before, after, k, from, lag, ahead) {
          NeverClimbs(cfg, q, Fly(cfg, q, TAKE_OFF, before), after, k, from, lag);
        }
      }
    } else {
      var first: nat :| NearCount(cfg, first, cfg.window, from, lag) >= cfg.minObs;
      var t := Trail(Max(first, from), from, lag);
      if first < from {
        NoneBefore(cfg, first, cfg.window, from, lag);
        if first + cfg.window > from {
          NearCountGrows(cfg, from, first + cfg.window - from, cfg.window, from, lag);
        }
      }
      var before, after := ProbesClimb(cfg, t, ahead);
      assert Climbs(cfg, PLAIN, before, after, cfg.kMin, from, lag, ahead);
    }
  }

  // A settled request, in particular, can climb on probes alone exactly when a window can hold minObs of them at the
  // decayed period.
  lemma SettledClimbsExactly(cfg: Config, from: nat, lag: nat, ahead: nat)
    requires cfg.Valid() && Worth(cfg) && ProbesStandAlone(cfg, lag)
    requires from >= cfg.probeSettle && from > 0 && ahead < lag
    ensures RareAt(cfg, cfg.probe * cfg.probeDecay, lag) <==>
      forall q: Terms, before: seq<Event>, after: seq<Event>, k: int ::
        Askable(cfg, before) && Askable(cfg, after) ==> !Climbs(cfg, q, before, after, k, from, lag, ahead)
  {
    hide Worth, Climbs, Askable, Sparse, RareAt, ProbesStandAlone;
    SettledSparseExactly(cfg, from, lag);
    ClimbsExactly(cfg, from, lag, ahead);
  }

  // The default table and floor are of that kind.
  lemma DefaultsAreWorth(cfg: Config)
    requires cfg.kMin == 2 && cfg.stepTable == [24.0, 26.4, 28.7, 31.1, 33.5, 35.9, 38.3, 40.6]
    ensures Worth(cfg)
  {
    assert StepMs(cfg, 2) == 26.4 && StepMs(cfg, 3) == 28.7 && StepMs(cfg, 4) == 31.1;
    assert Overtakes(cfg, 1) && Overtakes(cfg, 2);
  }

  // At the defaults no run of the alternating loop climbs on probes alone; with two budgets outstanding one does.
  lemma DefaultsClimbAtTwo(cfg: Config) returns (before: seq<Event>, after: seq<Event>)
    requires cfg.Valid() && cfg.window == 16 && cfg.minObs == 4 && cfg.probe == 6 && cfg.jumpN == 3 && cfg.kMin == 2
    requires cfg.probeSettle == 48 && cfg.probeDecay == 4
    requires cfg.stepTable == [24.0, 26.4, 28.7, 31.1, 33.5, 35.9, 38.3, 40.6]
    ensures Askable(cfg, before) && Askable(cfg, after) && Climbs(cfg, PLAIN, before, after, 2, 1, 2, 1)
    ensures forall q: Terms, es: seq<Event>, es': seq<Event>, k: int ::
      Askable(cfg, es) && Askable(cfg, es') ==> !Climbs(cfg, q, es, es', k, 1, 1, 0)
  {
    DefaultsAreWorth(cfg);
    hide Worth, Climbs, Askable, NearProbe;
    RareIsSparse(cfg, 1);
    EarlierIsSparse(cfg, 0, 1, 1);
    ClimbsExactly(cfg, 1, 1, 0);
    YoungNearCount(cfg, 6, 16, 2);
    ResiduesBound(6, 16, 6, 2);
    before, after := ProbesClimb(cfg, Trail(6, 1, 2), 1);
  }

  lemma EarlierIsSparse(cfg: Config, from: nat, later: nat, lag: nat)
    requires Sparse(cfg, from, lag) && from <= later
    ensures Sparse(cfg, later, lag)
  {
    hide NearProbe;
    forall first: nat ensures NearCount(cfg, first, cfg.window, later, lag) < cfg.minObs {
      EarlierCounts(cfg, first, cfg.window, from, later, lag);
    }
  }

  lemma {:induction false} EarlierCounts(cfg: Config, first: nat, count: nat, from: nat, later: nat, lag: nat)
    requires from <= later
    ensures NearCount(cfg, first, count, later, lag) <= NearCount(cfg, first, count, from, lag)
  {
    hide NearProbe;
    if count > 0 {
      EarlierCounts(cfg, first, count - 1, from, later, lag);
      NearExactly(cfg, first + count - 1, from, lag);
      NearExactly(cfg, first + count - 1, later, lag);
    }
  }
}
