// Whose turn it was in the loop over the running requests, on values: a request that was considered is in the plan, or
// there was a reason to pass it over.
module Turns {
  import opened Arithmetic
  import opened RequestMachine
  import opened AsyncRequest
  import opened SchedulePlan
  import opened RunningLoop
  import opened Sequences

  datatype Rules = Rules(budgets: Budgets, priority: bool, maxDecodes: int)

  // The loop between two requests. `undone` holds the entries of victims that had been scheduled, `decodes` is
  // num_decode_in_batch.
  datatype Loop = Loop(running: seq<Request>, index: int, plan: Plan<Request>, preempted: seq<Request>,
                       undone: map<Request, Entry>, decodes: int)

  // What the victims gave back.
  ghost function Refund(preempted: seq<Request>, undone: map<Request, Entry>, extra: int): int {
    if preempted == [] then 0
    else
      var last := preempted[|preempted| - 1];
      Refund(preempted[..|preempted| - 1], undone, extra) + if last in undone then undone[last].tokens + extra else 0
  }

  // No turn so far was offered less.
  ghost function Least(rules: Rules, loop: Loop): int {
    Min(loop.plan.tokenBudget - Refund(loop.preempted, loop.undone, 0),
        loop.plan.inputBudget - Refund(loop.preempted, loop.undone, rules.budgets.draftSlots) - rules.budgets.draftSlots)
  }

  predicate Decodes(l: Limits, r: RequestState) {
    !r.prefillChunk && r.numComputed >= l.numPromptTokens
  }

  ghost function DecodesAmong(start: Start, among: set<Request>): set<Request> {
    set r | r in among && r in start.before && Decodes(r.limits, start.before[r].request)
  }

  // Everything that was ever scheduled in this step. Only PRIORITY preempts what it has scheduled.
  ghost function Charged(rules: Rules, loop: Loop): set<Request> {
    loop.plan.entries.Keys + if rules.priority then Members(loop.preempted) else {}
  }

  // Whatever the other requests do, this one is not scheduled in this step: its pending output is sure to reach
  // max_tokens, its next decode comes too early, or its prefill is deferred.
  ghost predicate Barred(start: Start, r: Request)
    requires r in start.before && r in start.eligible
  {
    var s := start.before[r].request;
    || (s.placeholders > 0 && s.numComputed + 2 - s.placeholders >= r.limits.numPromptTokens + r.limits.maxTokens)
    || start.step < start.eligible[r]
    || (start.deferPrefills && s.prefillChunk)
  }

  // As many decodes as one batch may hold.
  ghost predicate CapReached(rules: Rules, start: Start, loop: Loop, r: Request)
    requires r in start.before
  {
    && Decodes(r.limits, start.before[r].request)
    && 0 < rules.maxDecodes <= |DecodesAmong(start, Charged(rules, loop))|
  }

  // It would get no token from what was left at its turn.
  ghost predicate NothingFits(rules: Rules, start: Start, loop: Loop, r: Request)
    requires r in start.before
  {
    r.limits.mamba.Valid() &&
    exists a: int :: 0 < a && a >= Least(rules, loop) && NumNewTokens(r.limits, start.before[r].request, a) == 0
  }

  ghost predicate PassedOver(rules: Rules, start: Start, loop: Loop, r: Request)
    requires r in start.before && r in start.eligible
  {
    Barred(start, r) || CapReached(rules, start, loop, r) || NothingFits(rules, start, loop, r)
  }

  ghost predicate Settled(rules: Rules, start: Start, loop: Loop, r: Request) {
    r in start.before && r in start.eligible && (r in loop.plan.entries || PassedOver(rules, start, loop, r))
  }

  // Everybody before the cursor is scheduled or was passed over.
  ghost predicate Considered(rules: Rules, start: Start, loop: Loop) {
    forall i :: 0 <= i < loop.index && i < |loop.running| ==> Settled(rules, start, loop, loop.running[i])
  }

  ghost predicate DecodesCounted(rules: Rules, start: Start, loop: Loop) {
    && |DecodesAmong(start, loop.plan.entries.Keys)| <= loop.decodes <= |DecodesAmong(start, Charged(rules, loop))|
    && (0 < rules.maxDecodes ==> loop.decodes <= rules.maxDecodes)
  }

  // What was given back is what the victims had been scheduled with.
  ghost predicate GivenBack(rules: Rules, start: Start, loop: Loop) {
    && (forall r :: r in loop.undone ==> r in loop.preempted && loop.undone[r].tokens > 0)
    && (!rules.priority ==> loop.undone == map[])
    && Offered(loop.plan.order, loop.plan.entries, rules.budgets.tokenLimit, rules.budgets.inputLimit,
               Refund(loop.preempted, loop.undone, 0), Refund(loop.preempted, loop.undone, rules.budgets.draftSlots),
               rules.budgets.draftSlots)
  }

  ghost predicate NotBarred(start: Start, loop: Loop) {
    forall r :: r in loop.plan.entries ==> r in start.before && r in start.eligible && !Barred(start, r)
  }

  ghost predicate Fair(rules: Rules, start: Start, loop: Loop) {
    && NotBarred(start, loop) && DecodesCounted(rules, start, loop) && GivenBack(rules, start, loop)
    && Considered(rules, start, loop)
  }

  // What the request at the cursor is offered: no more than is left, and no less than that.
  ghost predicate Affordable(rules: Rules, loop: Loop, allowance: int) {
    Least(rules, loop) <= allowance <= Min(loop.plan.tokenBudget, loop.plan.inputBudget - rules.budgets.draftSlots)
  }

  // The request gets n tokens out of what it is offered.
  ghost predicate Granted(rules: Rules, start: Start, loop: Loop, r: Request, n: int, allowance: int) {
    && r in start.before && r in start.eligible && r.limits.mamba.Valid() && start.before[r].request.status.Running?
    && 0 < n <= loop.plan.tokenBudget && n <= loop.plan.inputBudget - rules.budgets.draftSlots && 0 < allowance
    && n == NumNewTokens(r.limits, start.before[r].request, allowance) && Affordable(rules, loop, allowance)
    && !Barred(start, r) && (Decodes(r.limits, start.before[r].request) ==> !(0 < rules.maxDecodes <= loop.decodes))
  }

  // What the request adds to the decodes of the batch.
  ghost function DecodeCount(start: Start, r: Request): int {
    if r in start.before && Decodes(r.limits, start.before[r].request) then 1 else 0
  }

  // The cursor stands where the request preempted last was, which was not scheduled and could have been: there was
  // nobody else left to preempt for it.
  ghost predicate PreemptedItself(rules: Rules, start: Start, loop: Loop) {
    loop.preempted != [] &&
    var others, last := loop.preempted[..|loop.preempted| - 1], loop.preempted[|loop.preempted| - 1];
    var queue := Keep(start.running, Members(others));
    && 0 <= loop.index < |queue| && queue[loop.index] == last && last !in loop.undone
    && last in start.before && last in start.eligible && !Barred(start, last)
  }

  // Why the loop was left.
  ghost predicate Ended(rules: Rules, start: Start, loop: Loop, paused: bool) {
    || loop.index == |loop.running| || paused || loop.plan.tokenBudget == 0
    || loop.plan.inputBudget <= rules.budgets.draftSlots || PreemptedItself(rules, start, loop)
  }

  lemma FairBegins(rules: Rules, start: Start, running: seq<Request>)
    ensures Fair(rules, start,
                 Loop(running, 0, Plan([], map[], rules.budgets.tokenLimit, rules.budgets.inputLimit), [], map[], 0))
  {
    var none: set<Request> := {};
    assert DecodesAmong(start, none) == {};
  }

  // --- A reason stays a reason -------------------------------------------------------------------------------

  lemma SetsGrow(start: Start, a: set<Request>, b: set<Request>)
    requires a <= b
    ensures |DecodesAmong(start, a)| <= |DecodesAmong(start, b)|
  {
    SubsetSize(DecodesAmong(start, a), DecodesAmong(start, b));
  }

  lemma {:induction false} SubsetSize<T>(a: set<T>, b: set<T>)
    requires a <= b
    ensures |a| <= |b|
  {
    if a != {} {
      var x :| x in a;
      SubsetSize(a - {x}, b - {x});
    }
  }

  lemma StillPassedOver(rules: Rules, start: Start, loop: Loop, loop': Loop, r: Request)
    requires r in start.before && r in start.eligible && PassedOver(rules, start, loop, r)
    requires Charged(rules, loop) <= Charged(rules, loop') && Least(rules, loop') <= Least(rules, loop)
    ensures PassedOver(rules, start, loop', r)
  {
    SetsGrow(start, Charged(rules, loop), Charged(rules, loop'));
    hide Least, Charged, NumNewTokens, DecodesAmong, Barred;
  }

  lemma StaysSettled(rules: Rules, start: Start, loop: Loop, loop': Loop, r: Request)
    requires Settled(rules, start, loop, r) && (r in loop.plan.entries ==> r in loop'.plan.entries)
    requires Charged(rules, loop) <= Charged(rules, loop') && Least(rules, loop') <= Least(rules, loop)
    ensures Settled(rules, start, loop', r)
  {
    hide PassedOver, Charged, Least;
    if r !in loop.plan.entries {
      StillPassedOver(rules, start, loop, loop', r);
    }
  }

  // --- Skipping ----------------------------------------------------------------------------------------------

  lemma SkipCounts(rules: Rules, start: Start, loop: Loop, loop': Loop)
    requires NotBarred(start, loop) && DecodesCounted(rules, start, loop) && GivenBack(rules, start, loop)
    requires loop' == loop.(index := loop'.index)
    ensures NotBarred(start, loop') && DecodesCounted(rules, start, loop') && GivenBack(rules, start, loop')
    ensures Charged(rules, loop) == Charged(rules, loop') && Least(rules, loop') == Least(rules, loop)
  {
    hide DecodesAmong, Refund, Offered, Barred;
  }

  lemma FairSkip(rules: Rules, start: Start, loop: Loop)
    requires Fair(rules, start, loop) && 0 <= loop.index < |loop.running|
    requires Settled(rules, start, loop, loop.running[loop.index])
    ensures Fair(rules, start, loop.(index := loop.index + 1))
  {
    var loop' := loop.(index := loop.index + 1);
    SkipCounts(rules, start, loop, loop');
    hide NotBarred, DecodesCounted, GivenBack, Settled, Charged, Least;
    forall i | 0 <= i < loop'.index && i < |loop'.running| ensures Settled(rules, start, loop', loop'.running[i]) {
      StaysSettled(rules, start, loop, loop', loop'.running[i]);
    }
  }

  lemma {:induction false} RefundPositive(preempted: seq<Request>, undone: map<Request, Entry>, extra: nat)
    requires forall r :: r in undone ==> undone[r].tokens > 0
    ensures Refund(preempted, undone, extra) >= 0
  {
    if preempted != [] {
      RefundPositive(preempted[..|preempted| - 1], undone, extra);
    }
  }

  // Each of the three reasons settles the request whose turn it is.
  lemma SkipSettles(rules: Rules, start: Start, loop: Loop, r: Request, allowance: int)
    requires Fair(rules, start, loop) && r in start.before && r in start.eligible
    requires r.limits.mamba.Valid() && 0 < allowance && Least(rules, loop) <= allowance
    requires || Barred(start, r)
             || (Decodes(r.limits, start.before[r].request) && 0 < rules.maxDecodes <= loop.decodes)
             || NumNewTokens(r.limits, start.before[r].request, allowance) == 0
    ensures Settled(rules, start, loop, r)
  {
    hide NumNewTokens, Barred, Decodes, Charged, Considered, GivenBack, NotBarred;
  }

  // What the budgets leave now is at least that.
  lemma LeastIsLeast(rules: Rules, start: Start, loop: Loop)
    requires GivenBack(rules, start, loop) && rules.budgets.draftSlots >= 0
    ensures Least(rules, loop) <= Min(loop.plan.tokenBudget, loop.plan.inputBudget - rules.budgets.draftSlots)
  {
    RefundPositive(loop.preempted, loop.undone, 0);
    RefundPositive(loop.preempted, loop.undone, rules.budgets.draftSlots);
  }

  // --- Scheduling --------------------------------------------------------------------------------------------

  ghost function Committed(rules: Rules, start: Start, loop: Loop, e: Entry): Loop
    requires 0 <= loop.index < |loop.running| && loop.running[loop.index] in start.before
  {
    var r := loop.running[loop.index];
    loop.(index := loop.index + 1, plan := Add(rules.budgets, loop.plan, r, e),
          decodes := loop.decodes + DecodeCount(start, r))
  }

  lemma CommitGivesBack(rules: Rules, start: Start, loop: Loop, e: Entry)
    requires GivenBack(rules, start, loop) && Balanced(rules.budgets, loop.plan)
    requires 0 <= loop.index < |loop.running| && loop.running[loop.index] in start.before
    requires loop.running[loop.index] !in loop.plan.entries
    requires Affordable(rules, loop, e.allowance)
    ensures GivenBack(rules, start, Committed(rules, start, loop, e))
  {
    var b, p, r := rules.budgets, loop.plan, loop.running[loop.index];
    var p' := Add(b, p, r, e);
    var slack, inputSlack :=
      Refund(loop.preempted, loop.undone, 0), Refund(loop.preempted, loop.undone, b.draftSlots);
    assert r !in p.order;
    TotalFrame(p.order, p.entries, p'.entries, 0);
    TotalFrame(p.order, p.entries, p'.entries, b.draftSlots);
    hide Refund, Total, Offered;
    OfferedFrame(p.order, p.entries, p'.entries, b.tokenLimit, b.inputLimit, slack, inputSlack, b.draftSlots);
    OfferedNext(p.order, r, p'.entries, b.tokenLimit, b.inputLimit, slack, inputSlack, b.draftSlots);
  }

  lemma CommitCounts(rules: Rules, start: Start, loop: Loop, e: Entry)
    requires DecodesCounted(rules, start, loop)
    requires 0 <= loop.index < |loop.running| && loop.running[loop.index] in start.before
    requires loop.running[loop.index] !in loop.plan.entries && loop.running[loop.index] !in loop.preempted
    requires Decodes(loop.running[loop.index].limits, start.before[loop.running[loop.index]].request) ==>
      !(0 < rules.maxDecodes <= loop.decodes)
    ensures DecodesCounted(rules, start, Committed(rules, start, loop, e))
  {
    var r := loop.running[loop.index];
    OneMore(start, loop.plan.entries.Keys, r);
    OneMore(start, Charged(rules, loop), r);
    CommitCharged(rules, start, loop, e);
    hide DecodesAmong, Decodes, Charged, Add;
  }

  lemma CommitCharged(rules: Rules, start: Start, loop: Loop, e: Entry)
    requires 0 <= loop.index < |loop.running| && loop.running[loop.index] in start.before
    ensures var loop', r := Committed(rules, start, loop, e), loop.running[loop.index];
      && loop'.plan.entries.Keys == loop.plan.entries.Keys + {r} && Charged(rules, loop') == Charged(rules, loop) + {r}
      && loop'.plan.entries == loop.plan.entries[r := e]
  {
    hide Decodes;
  }

  lemma OneMore(start: Start, among: set<Request>, r: Request)
    requires r !in among && r in start.before
    ensures |DecodesAmong(start, among + {r})|
         == |DecodesAmong(start, among)| + if Decodes(r.limits, start.before[r].request) then 1 else 0
  {
    if Decodes(r.limits, start.before[r].request) {
      assert DecodesAmong(start, among + {r}) == DecodesAmong(start, among) + {r};
    } else {
      assert DecodesAmong(start, among + {r}) == DecodesAmong(start, among);
    }
  }

  lemma FairCommit(rules: Rules, start: Start, loop: Loop, e: Entry)
    requires Fair(rules, start, loop) && Balanced(rules.budgets, loop.plan) && rules.budgets.draftSlots >= 0
    requires 0 <= loop.index < |loop.running|
    requires loop.running[loop.index] in start.before && loop.running[loop.index] in start.eligible
    requires loop.running[loop.index] !in loop.plan.entries && loop.running[loop.index] !in loop.preempted
    requires !Barred(start, loop.running[loop.index]) && e.tokens > 0
    requires Decodes(loop.running[loop.index].limits, start.before[loop.running[loop.index]].request) ==>
      !(0 < rules.maxDecodes <= loop.decodes)
    requires Affordable(rules, loop, e.allowance)
    ensures Fair(rules, start, Committed(rules, start, loop, e))
  {
    hide Balanced, GivenBack, DecodesCounted, Barred, Decodes, Least, NotBarred, Considered;
    CommitGivesBack(rules, start, loop, e);
    CommitCounts(rules, start, loop, e);
    CommitNotBarred(rules, start, loop, e);
    CommitConsidered(rules, start, loop, e);
  }

  lemma CommitNotBarred(rules: Rules, start: Start, loop: Loop, e: Entry)
    requires NotBarred(start, loop) && 0 <= loop.index < |loop.running|
    requires loop.running[loop.index] in start.before && loop.running[loop.index] in start.eligible
    requires !Barred(start, loop.running[loop.index])
    ensures NotBarred(start, Committed(rules, start, loop, e))
  {
    CommitCharged(rules, start, loop, e);
    hide Barred, Decodes, Charged, Add;
  }

  lemma CommitConsidered(rules: Rules, start: Start, loop: Loop, e: Entry)
    requires Considered(rules, start, loop) && 0 <= loop.index < |loop.running| && e.tokens > 0
    requires loop.running[loop.index] in start.before && loop.running[loop.index] in start.eligible
    requires rules.budgets.draftSlots >= 0
    ensures Considered(rules, start, Committed(rules, start, loop, e))
  {
    var loop' := Committed(rules, start, loop, e);
    CommitCharged(rules, start, loop, e);
    assert Least(rules, loop') <= Least(rules, loop) by {
      hide Refund;
    }
    hide Decodes, Charged, Settled, Least, Add;
    forall i | 0 <= i < loop'.index && i < |loop'.running| ensures Settled(rules, start, loop', loop'.running[i]) {
      if i == loop.index {
        NowSettled(rules, start, loop', loop.running[i]);
      } else {
        StaysSettled(rules, start, loop, loop', loop'.running[i]);
      }
    }
  }

  lemma NowSettled(rules: Rules, start: Start, loop: Loop, r: Request)
    requires r in start.before && r in start.eligible && r in loop.plan.entries
    ensures Settled(rules, start, loop, r)
  {
    hide PassedOver;
  }

  // --- Preempting --------------------------------------------------------------------------------------------

  ghost function Evicted(rules: Rules, loop: Loop, i: nat): Loop
    requires i < |loop.running|
  {
    var v := loop.running[i];
    Loop(RemoveAt(loop.running, i), if i < loop.index then loop.index - 1 else loop.index,
         if v in loop.plan.entries then Restore(rules.budgets, loop.plan, v) else loop.plan,
         loop.preempted + [v],
         if v in loop.plan.entries then loop.undone[v := loop.plan.entries[v]] else loop.undone, loop.decodes)
  }

  lemma {:induction false} RefundFrame(preempted: seq<Request>, undone: map<Request, Entry>,
                                       undone': map<Request, Entry>, extra: int)
    requires forall r :: r in preempted ==>
      (r in undone <==> r in undone') && (r in undone ==> undone[r] == undone'[r])
    ensures Refund(preempted, undone, extra) == Refund(preempted, undone', extra)
  {
    if preempted != [] {
      RefundFrame(preempted[..|preempted| - 1], undone, undone', extra);
    }
  }

  lemma EvictRefunds(rules: Rules, loop: Loop, i: nat, extra: int)
    requires i < |loop.running| && loop.running[i] !in loop.preempted && loop.running[i] !in loop.undone
    ensures var loop', v := Evicted(rules, loop, i), loop.running[i];
      Refund(loop'.preempted, loop'.undone, extra)
      == Refund(loop.preempted, loop.undone, extra)
         + if v in loop.plan.entries then loop.plan.entries[v].tokens + extra else 0
  {
    var loop' := Evicted(rules, loop, i);
    assert loop'.preempted[..|loop'.preempted| - 1] == loop.preempted;
    RefundFrame(loop.preempted, loop.undone, loop'.undone, extra);
  }

  lemma EvictLeast(rules: Rules, loop: Loop, i: nat)
    requires i < |loop.running| && loop.running[i] !in loop.preempted && loop.running[i] !in loop.undone
    ensures Least(rules, Evicted(rules, loop, i)) == Least(rules, loop)
  {
    EvictRefunds(rules, loop, i, 0);
    EvictRefunds(rules, loop, i, rules.budgets.draftSlots);
    hide Refund;
  }

  lemma EvictOffers(b: Budgets, p: Plan<Request>, v: Request, slack: int, inputSlack: int)
    requires Distinct(p.order) && v in p.order && v in p.entries && p.entries[v].tokens > 0 && b.draftSlots >= 0
    requires forall r :: r in p.order ==> r in p.entries
    requires Offered(p.order, p.entries, b.tokenLimit, b.inputLimit, slack, inputSlack, b.draftSlots)
    ensures var p', gained := Restore(b, p, v), p.entries[v].tokens;
      Offered(p'.order, p'.entries, b.tokenLimit, b.inputLimit,
              slack + gained, inputSlack + (gained + b.draftSlots), b.draftSlots)
  {
    OfferedWithout(p.order, v, p.entries, b.tokenLimit, b.inputLimit, slack, inputSlack, b.draftSlots);
    WithoutRemoves(p.order, v, p.entries, 0);
    var gained := p.entries[v].tokens;
    hide Without, Offered, Total, Distinct;
    OfferedFrame(Without(p.order, v), p.entries, Restore(b, p, v).entries, b.tokenLimit, b.inputLimit,
                 slack + gained, inputSlack + (gained + b.draftSlots), b.draftSlots);
  }

  lemma EvictGivesBack(rules: Rules, start: Start, loop: Loop, i: nat)
    requires GivenBack(rules, start, loop) && Balanced(rules.budgets, loop.plan) && rules.budgets.draftSlots >= 0
    requires i < |loop.running| && loop.running[i] !in loop.preempted
    requires !rules.priority ==> loop.running[i] !in loop.plan.entries
    ensures GivenBack(rules, start, Evicted(rules, loop, i))
  {
    var b, v := rules.budgets, loop.running[i];
    EvictRefunds(rules, loop, i, 0);
    EvictRefunds(rules, loop, i, b.draftSlots);
    if v in loop.plan.entries {
      assert Distinct(loop.plan.order) && v in loop.plan.order && loop.plan.entries[v].tokens > 0;
      assert forall r :: r in loop.plan.order ==> r in loop.plan.entries;
      hide Refund, Offered, Balanced, Restore, Distinct;
      EvictOffers(b, loop.plan, v, Refund(loop.preempted, loop.undone, 0),
                  Refund(loop.preempted, loop.undone, b.draftSlots));
    } else {
      hide Refund, Offered, Balanced;
    }
  }

  lemma EvictCharged(rules: Rules, loop: Loop, i: nat)
    requires i < |loop.running| && (!rules.priority ==> loop.running[i] !in loop.plan.entries)
    ensures var loop' := Evicted(rules, loop, i);
      && Charged(rules, loop) <= Charged(rules, loop') && loop'.plan.entries.Keys <= loop.plan.entries.Keys
      && forall r :: r in loop.plan.entries && r != loop.running[i] ==> r in loop'.plan.entries
  {
    assert Members(loop.preempted + [loop.running[i]]) == Members(loop.preempted) + {loop.running[i]};
  }

  lemma FairEvict(rules: Rules, start: Start, loop: Loop, i: nat)
    requires Fair(rules, start, loop) && Balanced(rules.budgets, loop.plan) && rules.budgets.draftSlots >= 0
    requires Distinct(loop.running) && 0 <= loop.index <= |loop.running|
    requires i < |loop.running| && loop.running[i] !in loop.preempted && loop.running[i] !in loop.undone
    requires !rules.priority ==> loop.running[i] !in loop.plan.entries
    ensures Fair(rules, start, Evicted(rules, loop, i))
    ensures Least(rules, Evicted(rules, loop, i)) == Least(rules, loop)
  {
    hide Balanced, GivenBack, DecodesCounted, Least, NotBarred, Considered, Evicted;
    EvictLeast(rules, loop, i);
    EvictGivesBack(rules, start, loop, i);
    EvictCounts(rules, start, loop, i);
    EvictConsidered(rules, start, loop, i);
  }

  lemma EvictConsidered(rules: Rules, start: Start, loop: Loop, i: nat)
    requires Considered(rules, start, loop) && Distinct(loop.running) && 0 <= loop.index <= |loop.running|
    requires i < |loop.running| && loop.running[i] !in loop.preempted && loop.running[i] !in loop.undone
    requires !rules.priority ==> loop.running[i] !in loop.plan.entries
    ensures Considered(rules, start, Evicted(rules, loop, i))
  {
    hide Least, Charged, Evicted, Settled, Distinct;
    var loop' := Evicted(rules, loop, i);
    EvictLeast(rules, loop, i);
    EvictCharged(rules, loop, i);
    EvictedBefore(rules, loop, i);
    forall j | 0 <= j < loop'.index && j < |loop'.running| ensures Settled(rules, start, loop', loop'.running[j]) {
      StaysSettled(rules, start, loop, loop', loop'.running[j]);
    }
  }

  lemma EvictedBefore(rules: Rules, loop: Loop, i: nat)
    requires Distinct(loop.running) && 0 <= loop.index <= |loop.running| && i < |loop.running|
    ensures var loop' := Evicted(rules, loop, i);
      forall j :: 0 <= j < loop'.index && j < |loop'.running| ==>
        && loop'.running[j] == loop.running[if j < i then j else j + 1] && loop'.running[j] != loop.running[i]
        && (if j < i then j else j + 1) < loop.index
  {
    hide Restore;
  }

  lemma EvictCounts(rules: Rules, start: Start, loop: Loop, i: nat)
    requires NotBarred(start, loop) && DecodesCounted(rules, start, loop)
    requires i < |loop.running| && (!rules.priority ==> loop.running[i] !in loop.plan.entries)
    ensures NotBarred(start, Evicted(rules, loop, i)) && DecodesCounted(rules, start, Evicted(rules, loop, i))
  {
    var loop' := Evicted(rules, loop, i);
    EvictCharged(rules, loop, i);
    SetsGrow(start, loop'.plan.entries.Keys, loop.plan.entries.Keys);
    SetsGrow(start, Charged(rules, loop), Charged(rules, loop'));
    hide Barred, Charged, DecodesAmong, Restore;
  }

  // --- As the methods use it ---------------------------------------------------------------------------------

  lemma EvictAt(rules: Rules, start: Start, loop: Loop, i: nat)
    requires Fair(rules, start, loop) && Balanced(rules.budgets, loop.plan) && rules.budgets.draftSlots >= 0
    requires Distinct(loop.running) && 0 <= loop.index <= |loop.running|
    requires i < |loop.running| && loop.running[i] !in loop.preempted
    requires !rules.priority ==> loop.running[i] !in loop.plan.entries
    ensures Fair(rules, start, Evicted(rules, loop, i)) && Least(rules, Evicted(rules, loop, i)) == Least(rules, loop)
  {
    hide Offered, Refund, NotBarred, DecodesCounted, Considered, Evicted, Balanced, Least;
    assert loop.running[i] !in loop.undone;
    FairEvict(rules, start, loop, i);
  }

  lemma CommitAt(rules: Rules, start: Start, loop: Loop, r: Request, n: int, drafts: int, allowance: int)
    requires Fair(rules, start, loop) && Balanced(rules.budgets, loop.plan) && rules.budgets.draftSlots >= 0
    requires 0 <= loop.index < |loop.running| && loop.running[loop.index] == r
    requires r !in loop.plan.entries && r !in loop.preempted && Granted(rules, start, loop, r, n, allowance)
    ensures Fair(rules, start,
                 Loop(loop.running, loop.index + 1, Add(rules.budgets, loop.plan, r, Entry(n, drafts, allowance)),
                      loop.preempted, loop.undone, loop.decodes + DecodeCount(start, r)))
  {
    hide Fair, Balanced, Affordable, Barred, Decodes, DecodeCount, Add, NumNewTokens;
    FairCommit(rules, start, loop, Entry(n, drafts, allowance));
  }

  lemma StillGranted(rules: Rules, start: Start, loop: Loop, loop': Loop, r: Request, n: int, allowance: int)
    requires Granted(rules, start, loop, r, n, allowance)
    requires loop'.plan.tokenBudget >= loop.plan.tokenBudget && loop'.plan.inputBudget >= loop.plan.inputBudget
    requires Least(rules, loop') == Least(rules, loop) && loop'.decodes == loop.decodes
    ensures Granted(rules, start, loop', r, n, allowance)
  {
    hide Least, Barred, Decodes, NumNewTokens;
  }

  lemma SameAtCursor(running: seq<Request>, index: int, i: nat)
    requires Distinct(running) && 0 <= index < |running| && i < |running|
    ensures running[i] == running[index] ==> i == index
  {
  }

  // The request at the cursor was the last one that could be preempted.
  lemma LastStand(rules: Rules, start: Start, loop: Loop, loop': Loop, r: Request, n: int, allowance: int)
    requires Fair(rules, start, loop) && Behind(loop.running, loop.plan, loop.index) && loop.index < |loop.running|
    requires Partitioned(rules.priority, start.running, loop.running, loop.preempted)
    requires loop.running[loop.index] == r && Granted(rules, start, loop, r, n, allowance)
    requires loop'.index == loop.index && loop'.preempted == loop.preempted + [r]
    requires exists i: nat :: i < |loop.running| && loop.running[i] == r && loop' == Evicted(rules, loop, i)
    ensures PreemptedItself(rules, start, loop')
  {
    assert r !in loop.undone && r !in loop.plan.entries by {
      NotBehind(loop.running, loop.plan, loop.index, loop.index);
      NotPreempted(rules.priority, start.running, loop.running, loop.preempted, loop.index);
    }
    assert loop'.preempted[..|loop'.preempted| - 1] == loop.preempted;
    hide Barred, Fair, Keep, NumNewTokens, Affordable, Decodes;
  }

  // Without a preemption everybody was offered exactly what those before it left.
  lemma NothingGivenBack(rules: Rules, start: Start, loop: Loop)
    requires Fair(rules, start, loop) && loop.preempted == []
    ensures Offered(loop.plan.order, loop.plan.entries, rules.budgets.tokenLimit, rules.budgets.inputLimit, 0, 0,
                    rules.budgets.draftSlots)
  {
    hide Offered, NotBarred, DecodesCounted, Considered;
  }
}
