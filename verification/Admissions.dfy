// The waiting loop, on values: in which order the queues are served, what an admitted request was offered, and why the
// loop ends.
module Admissions {
  import opened Arithmetic
  import opened RequestMachine
  import opened AsyncRequest
  import opened SchedulePlan
  import opened RunningLoop
  import opened Sequences
  import opened WaitingQueues

  // What the prefix cache answered for a request: the tokens it knows and the shared-prefix junction.
  datatype Hit = Hit(computed: nat, junction: nat)

  ghost predicate Suffix<T>(rest: seq<T>, all: seq<T>) {
    |rest| <= |all| && rest == all[|all| - |rest|..]
  }

  // Tokens sampled before the preemption are still to be delivered.
  predicate Pending(s: System) {
    s.request.stale > 0 && !s.request.dropStale
  }

  // The admitted requests have joined the plan in order; what was in it stays.
  ghost predicate Extends(first: Plan<Request>, plan: Plan<Request>, admitted: seq<Request>) {
    && plan.order == first.order + admitted && plan.entries.Keys == first.entries.Keys + Members(admitted)
    && forall r :: r in first.entries ==> r in plan.entries && plan.entries[r] == first.entries[r]
  }

  ghost predicate Follows(e: Event, hit: Hit) {
    match e
    case CacheLookup(boundary) => boundary == hit.junction
    case Resume(computed, sharedPrefix, _, _) => computed == hit.computed && sharedPrefix == hit.junction
    case _ => false
  }

  // The actions follow the cache's answers.
  ghost predicate Answered(events: map<Request, Event>, hits: map<Request, Hit>) {
    forall r :: r in events ==> r in hits && Follows(events[r], hits[r])
  }

  lemma AnsweredToo(events: map<Request, Event>, hits: map<Request, Hit>, r: Request, e: Event)
    requires Answered(events, hits) && r in hits && Follows(e, hits[r])
    ensures Answered(events[r := e], hits)
  {
  }

  // An admitted request is charged what it resumed with, and if prefills are deferred it has a single token to compute.
  ghost predicate AdmittedAs(start: PassStart, plan: Plan<Request>, r: Request, e: Event) {
    && e.Resume? && r in start.was && r in plan.entries && e.budget == plan.entries[r].allowance
    && (start.deferPrefills ==> e.computed >= |start.was[r].request.tokens| - 1)
  }

  ghost predicate InTurn(b: Budgets, start: PassStart, held: seq<Request>, skipped: seq<Request>, waiting: seq<Request>,
                         plan: Plan<Request>, admitted: seq<Request>, events: map<Request, Event>)
  {
    && Extends(start.first, plan, admitted)
    && Offered(plan.order, plan.entries, b.tokenLimit, b.inputLimit, 0, 0, b.draftSlots)
    && Suffix(skipped, start.skipped) && Suffix(waiting, start.waiting)
    && (forall r :: r in held ==> r in start.was && Pending(start.was[r]))
    && (forall r :: r in admitted ==> r in events && AdmittedAs(start, plan, r, events[r]))
  }

  // A head that was not admitted although nothing was pending: its prefill is deferred, what is left of the budgets
  // gives it no token, or it was refused its blocks.
  ghost predicate TurnedAway(b: Budgets, start: PassStart, plan: Plan<Request>, events: map<Request, Event>,
                             hits: map<Request, Hit>, refused: bool, head: Request)
  {
    && head in start.was && head in events && head in hits && events[head].CacheLookup? && !Pending(start.was[head])
    && head.limits.mamba.Valid()
    && var s, hit := start.was[head].request, hits[head];
       || refused
       || (start.deferPrefills && hit.computed < |s.tokens| - 1)
       || NumAdmittedTokens(head.limits, s, hit.computed, hit.junction,
                            Min(plan.tokenBudget, plan.inputBudget - b.draftSlots)) == 0
  }

  // Why nobody else is admitted. Whoever is not in the two queues any more was admitted or must wait.
  ghost predicate AdmissionsEnded(b: Budgets, maxRunning: int, start: PassStart, running: seq<Request>,
                                  skipped: seq<Request>, waiting: seq<Request>, plan: Plan<Request>,
                                  events: map<Request, Event>, hits: map<Request, Hit>, refused: bool)
  {
    || (skipped == [] && waiting == []) || plan.tokenBudget == 0 || plan.inputBudget <= b.draftSlots
    || |running| >= maxRunning
    || (skipped != [] && TurnedAway(b, start, plan, events, hits, refused, skipped[0]))
    || (waiting != [] && TurnedAway(b, start, plan, events, hits, refused, waiting[0]))
  }

  lemma RestSuffix<T>(q: seq<T>, all: seq<T>)
    requires Suffix(q, all) && q != []
    ensures Suffix(q[1..], all)
  {
  }

  lemma BothSuffix(skipped: seq<Request>, waiting: seq<Request>, start: PassStart, fromSkipped: bool)
    requires Suffix(skipped, start.skipped) && Suffix(waiting, start.waiting)
    requires if fromSkipped then skipped != [] else waiting != []
    ensures Suffix(Rest(skipped, fromSkipped), start.skipped) && Suffix(Rest(waiting, !fromSkipped), start.waiting)
  {
    if fromSkipped {
      RestSuffix(skipped, start.skipped);
    } else {
      RestSuffix(waiting, start.waiting);
    }
  }

  lemma InTurnBegins(b: Budgets, start: PassStart)
    requires Offered(start.first.order, start.first.entries, b.tokenLimit, b.inputLimit, 0, 0, b.draftSlots)
    ensures InTurn(b, start, [], start.skipped, start.waiting, start.first, [], map[])
  {
    hide Offered;
    assert start.first.order + [] == start.first.order;
  }

  lemma LookInTurn(b: Budgets, start: PassStart, held: seq<Request>, skipped: seq<Request>, waiting: seq<Request>,
                   plan: Plan<Request>, admitted: seq<Request>, events: map<Request, Event>, r: Request, e: Event)
    requires InTurn(b, start, held, skipped, waiting, plan, admitted, events) && r !in admitted
    ensures InTurn(b, start, held, skipped, waiting, plan, admitted, events[r := e])
  {
    hide Offered, Extends, Suffix;
  }

  lemma HoldInTurn(b: Budgets, start: PassStart, held: seq<Request>, skipped: seq<Request>, waiting: seq<Request>,
                   plan: Plan<Request>, admitted: seq<Request>, events: map<Request, Event>, fromSkipped: bool)
    requires InTurn(b, start, held, skipped, waiting, plan, admitted, events)
    requires if fromSkipped then skipped != [] else waiting != []
    requires var r := if fromSkipped then skipped[0] else waiting[0]; r in start.was && Pending(start.was[r])
    ensures var r := if fromSkipped then skipped[0] else waiting[0];
      InTurn(b, start, [r] + held, Rest(skipped, fromSkipped), Rest(waiting, !fromSkipped), plan, admitted, events)
  {
    BothSuffix(skipped, waiting, start, fromSkipped);
    hide Offered, Extends, Suffix, Rest;
  }

  lemma AdmitExtends(b: Budgets, first: Plan<Request>, plan: Plan<Request>, admitted: seq<Request>, r: Request, e: Entry)
    requires Extends(first, plan, admitted) && r !in plan.entries
    ensures Extends(first, Add(b, plan, r, e), admitted + [r])
  {
    assert Members(admitted + [r]) == Members(admitted) + {r};
    assert first.order + (admitted + [r]) == first.order + admitted + [r];
  }

  lemma AdmitOffers(b: Budgets, plan: Plan<Request>, r: Request, e: Entry)
    requires Balanced(b, plan) && r !in plan.entries
    requires Offered(plan.order, plan.entries, b.tokenLimit, b.inputLimit, 0, 0, b.draftSlots)
    requires e.allowance == Min(plan.tokenBudget, plan.inputBudget - b.draftSlots)
    ensures var plan' := Add(b, plan, r, e);
      Offered(plan'.order, plan'.entries, b.tokenLimit, b.inputLimit, 0, 0, b.draftSlots)
  {
    var plan' := Add(b, plan, r, e);
    assert r !in plan.order;
    TotalFrame(plan.order, plan.entries, plan'.entries, 0);
    TotalFrame(plan.order, plan.entries, plan'.entries, b.draftSlots);
    hide Total, Offered;
    OfferedFrame(plan.order, plan.entries, plan'.entries, b.tokenLimit, b.inputLimit, 0, 0, b.draftSlots);
    OfferedNext(plan.order, r, plan'.entries, b.tokenLimit, b.inputLimit, 0, 0, b.draftSlots);
  }

  lemma AdmitInTurn(b: Budgets, start: PassStart, held: seq<Request>, skipped: seq<Request>, waiting: seq<Request>,
                    plan: Plan<Request>, admitted: seq<Request>, events: map<Request, Event>, fromSkipped: bool,
                    n: int, e: Event)
    requires InTurn(b, start, held, skipped, waiting, plan, admitted, events) && Balanced(b, plan)
    requires if fromSkipped then skipped != [] else waiting != []
    requires var r := if fromSkipped then skipped[0] else waiting[0];
      && r !in plan.entries && r in start.was && e.Resume?
      && e.budget == Min(plan.tokenBudget, plan.inputBudget - b.draftSlots)
      && (start.deferPrefills ==> e.computed >= |start.was[r].request.tokens| - 1)
    ensures var r := if fromSkipped then skipped[0] else waiting[0];
      InTurn(b, start, held, Rest(skipped, fromSkipped), Rest(waiting, !fromSkipped),
             Add(b, plan, r, Entry(n, 0, e.budget)), admitted + [r], events[r := e])
  {
    var r := if fromSkipped then skipped[0] else waiting[0];
    hide Rest, Balanced, Suffix, Offered, Extends, AdmittedAs, Add;
    BothSuffix(skipped, waiting, start, fromSkipped);
    AdmitOffers(b, plan, r, Entry(n, 0, e.budget));
    AdmitExtends(b, start.first, plan, admitted, r, Entry(n, 0, e.budget));
    forall x | x in admitted + [r]
      ensures x in events[r := e] && AdmittedAs(start, Add(b, plan, r, Entry(n, 0, e.budget)), x, events[r := e][x])
    {
      OneAdmitted(b, start, plan, events, r, n, e, x);
    }
  }

  lemma OneAdmitted(b: Budgets, start: PassStart, plan: Plan<Request>, events: map<Request, Event>,
                    r: Request, n: int, e: Event, x: Request)
    requires x == r || (x in events && AdmittedAs(start, plan, x, events[x]))
    requires r !in plan.entries && r in start.was && e.Resume?
    requires start.deferPrefills ==> e.computed >= |start.was[r].request.tokens| - 1
    ensures x in events[r := e] && AdmittedAs(start, Add(b, plan, r, Entry(n, 0, e.budget)), x, events[r := e][x])
  {
  }
}
