// The rolling rule in the asynchronous loop: budgets are asked for before the outputs of earlier steps have arrived. A
// step drafts at most the budget it was given, and outputs arrive in the order the budgets were asked for.
module RollFlights {
  import opened SpecRoll
  import opened RollState
  import opened RollRuns

  // A budget that was handed out: how many steps were recorded at that time, and how many drafts it allows.
  datatype Asked = Asked(n: nat, budget: int)

  // The rule's state with the budgets whose outputs are still to come. A step that drafts nothing, is preempted, or
  // comes back stale is an arrival with no drafts.
  datatype Flight = Flight(roll: Roll, pending: seq<Asked>)

  const TAKE_OFF := Flight(START_STATE, [])

  function Step(cfg: Config, q: Terms, f: Flight, e: Event): Flight
    requires cfg.Valid() && (e.Ask? ==> Priced(cfg, e.kMax))
  {
    Flight(Next(cfg, q, f.roll, e),
      match e
      case Ask(kMax) => f.pending + [Asked(f.roll.n, CapFor(cfg, q, f.roll, kMax).1)]
      case Arrive(_, _) => if f.pending == [] then [] else f.pending[1..]
      case Gate(_) => f.pending)
  }

  function Fly(cfg: Config, q: Terms, f: Flight, es: seq<Event>): Flight
    requires cfg.Valid() && Askable(cfg, es)
  {
    if es == [] then f else Step(cfg, q, Fly(cfg, q, f, es[..|es| - 1]), es[|es| - 1])
  }

  // At most `lag` budgets are outstanding; an output answers the oldest and drafted no more than it allowed.
  predicate Legal(f: Flight, e: Event, lag: nat) {
    match e
    case Ask(_) => |f.pending| < lag
    case Arrive(_, drafted) => f.pending != [] && drafted <= f.pending[0].budget
    case Gate(_) => true
  }

  ghost predicate LegalRun(cfg: Config, q: Terms, f: Flight, es: seq<Event>, lag: nat)
    requires cfg.Valid() && Askable(cfg, es)
  {
    es == [] || (LegalRun(cfg, q, f, es[..|es| - 1], lag)
                 && Legal(Fly(cfg, q, f, es[..|es| - 1]), es[|es| - 1], lag))
  }

  // No budget is asked for in a state that a fully accepted stretch makes jump.
  ghost predicate JumpFree(cfg: Config, q: Terms, f: Flight, es: seq<Event>)
    requires cfg.Valid() && Askable(cfg, es)
  {
    es == [] || (JumpFree(cfg, q, f, es[..|es| - 1])
                 && (es[|es| - 1].Ask? ==> !Riding(cfg, Fly(cfg, q, f, es[..|es| - 1]).roll.hist)))
  }

  // A flight only adds the outstanding budgets to a run.
  lemma {:induction false} FlyIsRun(cfg: Config, q: Terms, es: seq<Event>)
    requires cfg.Valid() && Askable(cfg, es)
    ensures Fly(cfg, q, TAKE_OFF, es).roll == Run(cfg, q, es)
  {
    hide Next;
    if es != [] {
      FlyIsRun(cfg, q, es[..|es| - 1]);
    }
  }

  // Every output leaves at least `ahead` budgets outstanding: none where a budget is asked for after the output of the
  // step before, one where it is asked for when that step is scheduled.
  ghost predicate StaysAhead(cfg: Config, q: Terms, f: Flight, es: seq<Event>, ahead: nat)
    requires cfg.Valid() && Askable(cfg, es)
  {
    es == [] || (StaysAhead(cfg, q, f, es[..|es| - 1], ahead)
                 && (es[|es| - 1].Arrive? ==> |Fly(cfg, q, f, es[..|es| - 1]).pending| > ahead))
  }

  ghost predicate Smooth(cfg: Config, q: Terms, f: Flight, es: seq<Event>, lag: nat, ahead: nat)
    requires cfg.Valid() && Askable(cfg, es)
  {
    LegalRun(cfg, q, f, es, lag) && JumpFree(cfg, q, f, es) && StaysAhead(cfg, q, f, es, ahead)
  }

  lemma Onward(cfg: Config, q: Terms, f: Flight, es: seq<Event>, e: Event, lag: nat, ahead: nat)
    requires cfg.Valid() && Askable(cfg, es) && Smooth(cfg, q, f, es, lag, ahead)
    requires Legal(Fly(cfg, q, f, es), e, lag) && (e.Arrive? ==> |Fly(cfg, q, f, es).pending| > ahead)
    requires e.Ask? ==> Priced(cfg, e.kMax) && !Riding(cfg, Fly(cfg, q, f, es).roll.hist)
    ensures Askable(cfg, es + [e]) && Smooth(cfg, q, f, es + [e], lag, ahead)
    ensures Fly(cfg, q, f, es + [e]) == Step(cfg, q, Fly(cfg, q, f, es), e)
  {
    hide Step, Legal, Riding, Priced;
    assert (es + [e])[..|es + [e]| - 1] == es;
  }

  lemma {:induction false} Joined(cfg: Config, q: Terms, f: Flight, a: seq<Event>, b: seq<Event>, lag: nat,
                                  ahead: nat)
    requires cfg.Valid() && Askable(cfg, a) && Askable(cfg, b)
    requires Smooth(cfg, q, f, a, lag, ahead) && Smooth(cfg, q, Fly(cfg, q, f, a), b, lag, ahead)
    ensures Askable(cfg, a + b) && Smooth(cfg, q, f, a + b, lag, ahead)
    ensures Fly(cfg, q, f, a + b) == Fly(cfg, q, Fly(cfg, q, f, a), b)
    decreases |b|
  {
    hide Step, Legal, Riding, Priced;
    if b == [] {
      assert a + b == a;
    } else {
      var front, last := b[..|b| - 1], b[|b| - 1];
      Joined(cfg, q, f, a, front, lag, ahead);
      Onward(cfg, q, f, a + front, last, lag, ahead);
      assert a + b == (a + front) + [last];
    }
  }
}
