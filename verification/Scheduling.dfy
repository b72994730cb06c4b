// Scheduler.schedule(): the running loop with its two budgets and its preemptions, the waiting loop, and
// _update_after_schedule. Request by request, the whole call is at most one action of RequestMachine.
module Scheduling {
  import opened Admissions
  import opened Arithmetic
  import opened RequestMachine
  import opened RequestSafety
  import opened AsyncRequest
  import opened SchedulePlan
  import opened RunningLoop
  import opened Sequences
  import opened WaitingQueues
  import opened Deliveries
  import opened Turns

  datatype PauseState = Unpaused | PausedNew | PausedAll

  class Scheduler {
    const budgets: Budgets
    const priorityPolicy: bool
    const requiresKvDelivery: bool
    const maxDecodeReqsPerBatch: int
    const ppSize: int
    const maxNumRunningReqs: int

    var running: seq<Request>
    var waiting: seq<Request>
    var skippedWaiting: seq<Request>
    var currentStep: int

    // How many allocations of blocks have been refused so far.
    ghost var refusals: nat

    // What the prefix cache answered last for each request.
    ghost var cacheHits: map<Request, Hit>

    // A scheduler nobody has asked for anything.
    constructor (budgets: Budgets, priorityPolicy: bool, requiresKvDelivery: bool, maxDecodeReqsPerBatch: int,
                 ppSize: int, maxNumRunningReqs: int)
      requires budgets.draftSlots >= 0 && budgets.tokenLimit >= 0 && budgets.inputLimit >= 0
      ensures Valid() && QueuesValid() && Everyone() == multiset{} && currentStep == 0
      ensures this.budgets == budgets && this.maxNumRunningReqs == maxNumRunningReqs && this.ppSize == ppSize
      ensures this.priorityPolicy == priorityPolicy && this.requiresKvDelivery == requiresKvDelivery
      ensures this.maxDecodeReqsPerBatch == maxDecodeReqsPerBatch
    {
      this.budgets, this.priorityPolicy, this.requiresKvDelivery := budgets, priorityPolicy, requiresKvDelivery;
      this.maxDecodeReqsPerBatch, this.ppSize := maxDecodeReqsPerBatch, ppSize;
      this.maxNumRunningReqs := maxNumRunningReqs;
      running, waiting, skippedWaiting, currentStep := [], [], [], 0;
      refusals, cacheHits := 0, map[];
    }

    // add_request, for an id that is not known yet.
    method AddRequest(request: Request)
      requires Valid() && QueuesValid() && request !in Everyone() && request.Valid() && Waits(request.status)
      modifies this`waiting
      ensures Valid() && QueuesValid() && Everyone() == old(Everyone()) + multiset{request}
      ensures waiting == old(waiting) + [request]
    {
      waiting := waiting + [request];
      assert Everyone() == old(Everyone()) + multiset{request};
    }

    ghost predicate Valid()
      reads this, running
    {
      && budgets.draftSlots >= 0 && budgets.tokenLimit >= 0 && budgets.inputLimit >= 0
      && Distinct(running)
      && forall r :: r in running ==> r.Valid() && r.status == Running
    }

    // What has become of every request that was running when the step began.
    ghost predicate Tracks(before: map<Request, System>, plan: Plan<Request>, preempted: seq<Request>)
      reads before.Keys
    {
      forall r :: r in before ==>
        r.limits.mamba.Valid() &&
        if r in preempted then
          r.Sys() == before[r].(request := Preempt(before[r].request, requiresKvDelivery))
        else if r in plan.entries then
          r.Sys() == before[r].(request := before[r].request.(spec := [])) && Chosen(r.limits, before[r], plan.entries[r])
        else r.Sys() == before[r]
    }

    // kv_cache_manager.allocate_slots: whether the blocks are available is not known to the scheduler.
    method AllocateSlots(request: Request, numTokens: int) returns (ok: bool)
      modifies this`refusals
      ensures refusals == old(refusals) + if ok then 0 else 1
    {
      ok := *;
      if !ok {
        refusals := refusals + 1;
      }
    }

    ghost function Now(index: int, plan: Plan<Request>, preempted: seq<Request>, undone: map<Request, Entry>,
                       decodes: int): Loop
      reads this`running
    {
      Loop(running, index, plan, preempted, undone, decodes)
    }

    ghost function TheRules(): Rules {
      Rules(budgets, priorityPolicy, maxDecodeReqsPerBatch)
    }

    // Nobody's next decode has been moved yet.
    ghost predicate OnTime(start: Start)
      reads start.before.Keys
    {
      forall r :: r in start.before ==> r in start.eligible && r.nextDecodeEligibleStep == start.eligible[r]
    }

    // The PRIORITY victim: the first of the least urgent requests.
    method LeastUrgent() returns (i: nat)
      requires running != []
      ensures i < |running|
      ensures forall j :: 0 <= j < |running| ==> !running[i].Before(running[j])
      ensures forall j :: 0 <= j < i ==> running[j].Before(running[i])
    {
      i := 0;
      for k := 1 to |running|
        invariant i < k
        invariant forall j :: 0 <= j < k ==> !running[i].Before(running[j])
        invariant forall j :: 0 <= j < i ==> running[j].Before(running[i])
      {
        if running[i].Before(running[k]) {
          i := k;
        }
      }
    }

    // The reasons for which the running loop passes over a request without looking at its tokens.
    method Skips(request: Request, numDecodeInBatch: int, deferPrefills: bool) returns (skip: bool)
      ensures skip <==>
        || SkippedByMaxTokens(request.limits, request.View())
        || (0 < maxDecodeReqsPerBatch <= numDecodeInBatch
            && !request.isPrefillChunk && request.numComputedTokens >= request.limits.numPromptTokens)
        || currentStep < request.nextDecodeEligibleStep
        || (deferPrefills && request.isPrefillChunk)
    {
      if maxDecodeReqsPerBatch > 0 && !request.isPrefillChunk
         && request.numComputedTokens >= request.limits.numPromptTokens && numDecodeInBatch >= maxDecodeReqsPerBatch {
        return true;
      }
      if request.numOutputPlaceholders > 0
         && request.numComputedTokens + 2 - request.numOutputPlaceholders
            >= request.limits.numPromptTokens + request.limits.maxTokens {
        return true;
      }
      skip := currentStep < request.nextDecodeEligibleStep || (deferPrefills && request.isPrefillChunk);
    }

    // Which running request to preempt; a victim that was already scheduled gives its budget back, and a victim before
    // the cursor moves the cursor.
    method ChooseVictim(index: int, plan: Plan<Request>) returns (i: nat, index': int, plan': Plan<Request>)
      requires budgets.draftSlots >= 0 && Balanced(budgets, plan)
      requires Distinct(running) && Behind(running, plan, index) && index < |running|
      ensures i < |running|
      ensures if priorityPolicy then forall j :: 0 <= j < |running| ==> !running[i].Before(running[j])
              else i == |running| - 1
      ensures Balanced(budgets, plan') && plan'.entries == plan.entries - {running[i]}
      ensures Behind(running, plan', index)
      ensures index' == if i < index then index - 1 else index
      ensures plan'.tokenBudget >= plan.tokenBudget && plan'.inputBudget >= plan.inputBudget
      ensures !priorityPolicy ==> plan' == plan && running[i] !in plan.entries
      ensures plan' == if running[i] in plan.entries then Restore(budgets, plan, running[i]) else plan
    {
      i, index', plan' := |running| - 1, index, plan;
      if priorityPolicy {
        i := LeastUrgent();
        if i < index {
          index' := index - 1;
        }
        if running[i] in plan.entries {
          RestoreBalanced(budgets, plan, running[i]);
          plan' := Restore(budgets, plan, running[i]);
        }
      } else {
        NotBehind(running, plan, index, i);
      }
    }

    // _preempt_request, for a request that is already out of `running`.
    method PreemptVictim(ghost start: Start, ghost plan: Plan<Request>, ghost plan': Plan<Request>,
                         ghost preempted: seq<Request>, victim: Request)
      requires Tracks(start.before, plan, preempted) && victim in start.before && victim !in preempted
      requires plan'.entries == plan.entries - {victim} && OnTime(start)
      modifies this`waiting, victim
      ensures Tracks(start.before, plan', preempted + [victim]) && OnTime(start)
      ensures waiting == [victim] + old(waiting)
    {
      victim.MarkPreempted(requiresKvDelivery);
      waiting := [victim] + waiting;
    }

    // Take one victim out of `running` and preempt it.
    method PreemptOne(ghost start: Start, index: int, plan: Plan<Request>, ghost preempted: seq<Request>,
                      ghost undone: map<Request, Entry>, ghost decodes: int)
      returns (index': int, plan': Plan<Request>, victim: Request, ghost undone': map<Request, Entry>)
      requires budgets.draftSlots >= 0 && Balanced(budgets, plan)
      requires forall r :: r in running ==> r in start.before
      requires Partitioned(priorityPolicy, start.running, running, preempted)
      requires Behind(running, plan, index) && index < |running|
      requires Tracks(start.before, plan, preempted) && OnTime(start)
      requires Fair(TheRules(), start, Now(index, plan, preempted, undone, decodes))
      modifies this`running, this`waiting, start.before.Keys
      ensures Partitioned(priorityPolicy, start.running, running, preempted + [victim])
      ensures Balanced(budgets, plan') && Behind(running, plan', index')
      ensures Tracks(start.before, plan', preempted + [victim]) && OnTime(start)
      ensures var loop := Loop(old(running), index, plan, preempted, undone, decodes);
        exists i: nat :: i < |old(running)| && old(running)[i] == victim
                    && Loop(running, index', plan', preempted + [victim], undone', decodes) == Evicted(TheRules(), loop, i)
      ensures Fair(TheRules(), start, Loop(running, index', plan', preempted + [victim], undone', decodes))
      ensures Least(TheRules(), Loop(running, index', plan', preempted + [victim], undone', decodes))
           == Least(TheRules(), Loop(old(running), index, plan, preempted, undone, decodes))
      ensures victim in old(running) && |running| == |old(running)| - 1
      ensures waiting == [victim] + old(waiting)
      ensures forall r :: r in running ==> r in old(running)
      ensures victim != old(running)[index] ==> 0 <= index' < |running| && running[index'] == old(running)[index]
      ensures victim == old(running)[index] ==> index' == index
      ensures plan'.tokenBudget >= plan.tokenBudget && plan'.inputBudget >= plan.inputBudget
      ensures !priorityPolicy ==> plan' == plan && index' == index && victim !in plan.entries
      ensures 2 * |running| - index' < 2 * |old(running)| - index
    {
      hide Balanced, Partitioned, Behind, Distinct, Tracks, Fair, Least, Restore;
      var i;
      PartitionDistinct(priorityPolicy, start.running, running, preempted);
      i, index', plan' := ChooseVictim(index, plan);
      victim := running[i];
      undone' := if victim in plan.entries then undone[victim := plan.entries[victim]] else undone;
      RemoveKeepsPartition(priorityPolicy, start.running, running, preempted, i);
      RemoveKeepsCursor(running, plan', index, i);
      RemoveAtMembers(running, i);
      NotPreempted(priorityPolicy, start.running, running, preempted, i);
      EvictAt(TheRules(), start, Now(index, plan, preempted, undone, decodes), i);
      SameAtCursor(running, index, i);
      running := RemoveAt(running, i);
      PreemptVictim(start, plan, plan', preempted, victim);
    }

    // Everything the running loop keeps between two requests.
    ghost predicate LoopState(start: Start, index: int, plan: Plan<Request>, preempted: seq<Request>,
                              undone: map<Request, Entry>, decodes: int)
      reads this, start.before.Keys
    {
      && budgets.draftSlots >= 0 && start.step == currentStep && refusals == start.refusals + |preempted|
      && (forall r :: r in running ==> r in start.before)
      && Partitioned(priorityPolicy, start.running, running, preempted)
      && waiting == Reversed(preempted) + start.waiting
      && Balanced(budgets, plan) && Behind(running, plan, index)
      && Tracks(start.before, plan, preempted) && OnTime(start)
      && Fair(TheRules(), start, Now(index, plan, preempted, undone, decodes))
    }

    // Preempt until the blocks of the current request can be allocated or it is itself the victim.
    method MakeRoom(ghost start: Start, request: Request, numTokens: int, ghost allowance: int, index: int,
                    plan: Plan<Request>, preempted: seq<Request>, ghost undone: map<Request, Entry>, ghost decodes: int)
      returns (ok: bool, index': int, plan': Plan<Request>, preempted': seq<Request>, ghost undone': map<Request, Entry>)
      requires LoopState(start, index, plan, preempted, undone, decodes)
      requires 0 <= index < |running| && running[index] == request
      requires Granted(TheRules(), start, Now(index, plan, preempted, undone, decodes), request, numTokens, allowance)
      modifies this`running, this`waiting, this`refusals, start.before.Keys
      ensures LoopState(start, index', plan', preempted', undone', decodes)
      ensures ok ==> index' < |running| && running[index'] == request
      ensures ok ==>
        Granted(TheRules(), start, Now(index', plan', preempted', undone', decodes), request, numTokens, allowance)
      ensures !ok ==> PreemptedItself(TheRules(), start, Now(index', plan', preempted', undone', decodes))
      ensures 2 * |running| - index' <= 2 * |old(running)| - index
    {
      ok, index', plan', preempted', undone' := false, index, plan, preempted, undone;
      hide Partitioned, Balanced, Behind, Tracks, Reversed, Add, Fair, Least, PreemptedItself, Evicted, Granted;
      while true
        invariant LoopState(start, index', plan', preempted', undone', decodes)
        invariant 0 <= index' < |running| && running[index'] == request
        invariant
          Granted(TheRules(), start, Now(index', plan', preempted', undone', decodes), request, numTokens, allowance)
        invariant 2 * |running| - index' <= 2 * |old(running)| - index
        decreases |running|
      {
        ok := AllocateSlots(request, numTokens);
        if ok {
          return;
        }
        var victim;
        ghost var loop := Now(index', plan', preempted', undone', decodes);
        index', plan', victim, undone' := PreemptOne(start, index', plan', preempted', undone', decodes);
        ReversedAppend(preempted', victim);
        preempted' := preempted' + [victim];
        ghost var loop' := Now(index', plan', preempted', undone', decodes);
        if victim == request {
          LastStand(TheRules(), start, loop, loop', request, numTokens, allowance);
          return;
        }
        StillGranted(TheRules(), start, loop, loop', request, numTokens, allowance);
      }
    }

    // The current request goes into the plan.
    method Commit(ghost start: Start, request: Request, numTokens: int, allowance: int, ghost index: int,
                  plan: Plan<Request>, ghost preempted: seq<Request>, ghost undone: map<Request, Entry>,
                  ghost decodes: int)
      returns (plan': Plan<Request>)
      requires LoopState(start, index, plan, preempted, undone, decodes)
      requires index < |running| && running[index] == request
      requires Granted(TheRules(), start, Now(index, plan, preempted, undone, decodes), request, numTokens, allowance)
      modifies start.before.Keys
      ensures LoopState(start, index + 1, plan', preempted, undone, decodes + DecodeCount(start, request))
      ensures DecodeCount(start, request)
           == if !request.isPrefillChunk && request.numComputedTokens >= request.limits.numPromptTokens then 1 else 0
    {
      hide Partitioned, Reversed, Distinct, Behind, Balanced, Tracks, Fair, Granted, Add, DecodeCount;
      CommitFits(start, request, numTokens, allowance, index, plan, preempted, undone, decodes);
      var drafts := TakeTracked(start, request, numTokens, allowance, plan, preempted);
      plan' := Add(budgets, plan, request, Entry(numTokens, drafts, allowance));
      AddBalanced(budgets, plan, request, Entry(numTokens, drafts, allowance));
      AddKeepsBehind(budgets, running, plan, index, Entry(numTokens, drafts, allowance));
      CommitAt(TheRules(), start, Now(index, plan, preempted, undone, decodes), request, numTokens, drafts, allowance);
    }

    lemma CommitFits(start: Start, request: Request, numTokens: int, allowance: int, index: int, plan: Plan<Request>,
                     preempted: seq<Request>, undone: map<Request, Entry>, decodes: int)
      requires LoopState(start, index, plan, preempted, undone, decodes)
      requires index < |running| && running[index] == request
      requires Granted(TheRules(), start, Now(index, plan, preempted, undone, decodes), request, numTokens, allowance)
      ensures request !in plan.entries && request !in preempted && 0 <= index
      ensures GrantedTokens(start, request, numTokens, allowance)
      ensures numTokens <= plan.tokenBudget && numTokens <= plan.inputBudget - budgets.draftSlots
    {
      NotBehind(running, plan, index, index);
      NotPreempted(priorityPolicy, start.running, running, preempted, index);
      hide Balanced, Partitioned, Tracks, Fair, Affordable, NumNewTokens, Decodes;
    }

    // The part of a grant that the machine asks for.
    ghost predicate GrantedTokens(start: Start, r: Request, n: int, allowance: int) {
      && r in start.before && r.limits.mamba.Valid() && start.before[r].request.status.Running?
      && 0 < n && 0 < allowance && !SkippedByMaxTokens(r.limits, start.before[r].request)
      && n == NumNewTokens(r.limits, start.before[r].request, allowance)
    }

    // The drafts that go with the tokens; the request is then tracked as planned.
    method TakeTracked(ghost start: Start, request: Request, numTokens: int, ghost allowance: int,
                       ghost plan: Plan<Request>, ghost preempted: seq<Request>)
      returns (drafts: int)
      requires Tracks(start.before, plan, preempted) && OnTime(start)
      requires request !in preempted && request !in plan.entries && GrantedTokens(start, request, numTokens, allowance)
      modifies start.before.Keys
      ensures Tracks(start.before, Add(budgets, plan, request, Entry(numTokens, drafts, allowance)), preempted)
      ensures OnTime(start) && DecodeCount(start, request)
           == if !request.isPrefillChunk && request.numComputedTokens >= request.limits.numPromptTokens then 1 else 0
    {
      hide NumNewTokens, ScheduledDrafts, SkippedByMaxTokens;
      assert request.Sys() == start.before[request];
      drafts := request.TakeDrafts(numTokens);
    }

    // What the loop knows of the request at its cursor.
    lemma AtCursor(start: Start, index: int, plan: Plan<Request>, preempted: seq<Request>,
                   undone: map<Request, Entry>, decodes: int)
      requires LoopState(start, index, plan, preempted, undone, decodes) && index < |running|
      ensures 0 <= index && running[index] in start.before && running[index] in start.eligible
      ensures running[index].Sys() == start.before[running[index]]
      ensures running[index].nextDecodeEligibleStep == start.eligible[running[index]] && start.step == currentStep
      ensures Fair(TheRules(), start, Now(index, plan, preempted, undone, decodes))
      ensures Least(TheRules(), Now(index, plan, preempted, undone, decodes))
           <= Min(plan.tokenBudget, plan.inputBudget - budgets.draftSlots)
    {
      NotBehind(running, plan, index, index);
      NotPreempted(priorityPolicy, start.running, running, preempted, index);
      LeastIsLeast(TheRules(), start, Now(index, plan, preempted, undone, decodes));
      hide Partitioned, Balanced, Least;
    }

    // How many tokens the current request gets from what the budgets leave; `skip` when it gets none this step.
    method Decide(ghost start: Start, deferPrefills: bool, request: Request, ghost index: int, plan: Plan<Request>,
                  ghost preempted: seq<Request>, ghost undone: map<Request, Entry>, numDecodeInBatch: int)
      returns (skip: bool, n: int, allowance: int)
      requires LoopState(start, index, plan, preempted, undone, numDecodeInBatch)
      requires index < |running| && running[index] == request && deferPrefills == start.deferPrefills
      requires plan.tokenBudget > 0 && plan.inputBudget > budgets.draftSlots
      requires Inv(request.limits, start.before[request]) && start.before[request].request.status.Running?
      ensures skip ==> Settled(TheRules(), start, Now(index, plan, preempted, undone, numDecodeInBatch), request)
      ensures !skip ==>
        Granted(TheRules(), start, Now(index, plan, preempted, undone, numDecodeInBatch), request, n, allowance)
    {
      ghost var loop := Now(index, plan, preempted, undone, numDecodeInBatch);
      hide Inv, NumNewTokens, LoopState, Fair, Settled, Least;
      AtCursor(start, index, plan, preempted, undone, numDecodeInBatch);
      skip := Skips(request, numDecodeInBatch, deferPrefills);
      allowance := Min(plan.tokenBudget, plan.inputBudget - budgets.draftSlots);
      MambaOf(request.limits, start.before[request]);
      ScheduledShape(request.limits, start.before[request], allowance);
      n := request.NumNewTokensWithin(allowance);
      if n == 0 {
        skip := true;
      }
      if skip {
        SkipSettles(TheRules(), start, loop, request, allowance);
      }
    }

    lemma MambaOf(l: Limits, s: System)
      requires Inv(l, s)
      ensures l.mamba.Valid()
    {
    }

    // Make room for the decided tokens, by preemption if need be, and enter them in the plan.
    method ScheduleCurrent(ghost start: Start, request: Request, n: int, allowance: int, index: int, plan: Plan<Request>,
                           preempted: seq<Request>, ghost undone: map<Request, Entry>, ghost decodes: int)
      returns (ok: bool, index': int, plan': Plan<Request>, preempted': seq<Request>, ghost undone': map<Request, Entry>)
      requires LoopState(start, index, plan, preempted, undone, decodes)
      requires 0 <= index < |running| && running[index] == request
      requires Granted(TheRules(), start, Now(index, plan, preempted, undone, decodes), request, n, allowance)
      modifies this`running, this`waiting, this`refusals, start.before.Keys
      ensures ok ==> 2 * |running| - index' < 2 * |old(running)| - index
      ensures LoopState(start, index', plan', preempted', undone', decodes + if ok then DecodeCount(start, request) else 0)
      ensures ok ==> DecodeCount(start, request) == if !request.isPrefillChunk
        && request.numComputedTokens >= request.limits.numPromptTokens then 1 else 0
      ensures !ok ==> PreemptedItself(TheRules(), start, Now(index', plan', preempted', undone', decodes))
    {
      hide LoopState, Granted, PreemptedItself, DecodeCount;
      ok, index', plan', preempted', undone' :=
        MakeRoom(start, request, n, allowance, index, plan, preempted, undone, decodes);
      if ok {
        plan' := Commit(start, request, n, allowance, index', plan', preempted', undone', decodes);
        index' := index' + 1;
      }
    }

    // The cursor moves over a request that was passed over.
    lemma Skipped(start: Start, index: int, plan: Plan<Request>, preempted: seq<Request>,
                  undone: map<Request, Entry>, decodes: int)
      requires LoopState(start, index, plan, preempted, undone, decodes) && index < |running|
      requires Settled(TheRules(), start, Now(index, plan, preempted, undone, decodes), running[index])
      ensures LoopState(start, index + 1, plan, preempted, undone, decodes)
    {
      hide Balanced, Partitioned, Tracks, OnTime, Reversed, Fair, Settled, Request.Sys;
      BehindNext(running, plan, index);
      assert 0 <= index;
      hide Behind;
      FairSkip(TheRules(), start, Now(index, plan, preempted, undone, decodes));
    }

    // One pass of the running loop; `go` is false when the loop is left.
    method ConsiderNext(ghost start: Start, deferPrefills: bool, index: int, plan: Plan<Request>, preempted: seq<Request>,
                        ghost undone: map<Request, Entry>, numDecodeInBatch: int)
      returns (go: bool, index': int, plan': Plan<Request>, preempted': seq<Request>,
               ghost undone': map<Request, Entry>, numDecodeInBatch': int)
      requires LoopState(start, index, plan, preempted, undone, numDecodeInBatch)
      requires index < |running| && plan.tokenBudget > 0 && deferPrefills == start.deferPrefills
      requires forall r :: r in start.before ==> Inv(r.limits, start.before[r]) && start.before[r].request.status.Running?
      modifies this`running, this`waiting, this`refusals, start.before.Keys
      ensures LoopState(start, index', plan', preempted', undone', numDecodeInBatch')
      ensures go ==> 2 * |running| - index' < 2 * |old(running)| - index
      ensures !go ==>
        || plan'.inputBudget <= budgets.draftSlots
        || PreemptedItself(TheRules(), start, Now(index', plan', preempted', undone', numDecodeInBatch'))
    {
      hide Inv, LoopState, Settled, Granted, PreemptedItself, Fair, Least, DecodeCount;
      go, index', plan', preempted', undone', numDecodeInBatch' := true, index, plan, preempted, undone, numDecodeInBatch;
      AtCursor(start, index, plan, preempted, undone, numDecodeInBatch);
      var request := running[index];
      if plan.inputBudget <= budgets.draftSlots {
        return false, index, plan, preempted, undone, numDecodeInBatch;
      }
      var skip, n, allowance := Decide(start, deferPrefills, request, index, plan, preempted, undone, numDecodeInBatch);
      if skip {
        Skipped(start, index, plan, preempted, undone, numDecodeInBatch);
        index' := index + 1;
        return;
      }
      go, index', plan', preempted', undone' :=
        ScheduleCurrent(start, request, n, allowance, index, plan, preempted, undone, numDecodeInBatch);
      if go && !request.isPrefillChunk && request.numComputedTokens >= request.limits.numPromptTokens {
        numDecodeInBatch' := numDecodeInBatch + 1;
      }
    }

    // `start` is the state of the step's beginning.
    ghost predicate Begins(start: Start)
      reads this`running, this`waiting, this`refusals, running
    {
      && start.running == running && start.waiting == waiting
      && start.refusals == refusals
      && (forall r :: r in start.before ==> r in running)
      && (forall r :: r in running ==> r in start.before && start.before[r] == r.Sys())
      && start.eligible.Keys == start.before.Keys
      && forall r :: r in running ==> start.eligible[r] == r.nextDecodeEligibleStep
    }

    lemma MambaOfAll(start: Start)
      requires Valid() && Begins(start)
      ensures forall r :: r in start.before ==> r.limits.mamba.Valid() && r.Sys() == start.before[r]
    {
      forall r | r in start.before ensures r.limits.mamba.Valid() {
        MambaOf(r.limits, r.Sys());
      }
      hide Inv;
    }

    lemma LoopBegins(start: Start)
      requires Valid() && Begins(start) && start.step == currentStep
      ensures LoopState(start, 0, Plan([], map[], budgets.tokenLimit, budgets.inputLimit), [], map[], 0)
    {
      hide Fair, Partitioned, Inv, Distinct, Balanced;
      FairBegins(TheRules(), start, running);
      PartitionBegins(priorityPolicy, running);
      EmptyBalanced<Request>(budgets);
      MambaOfAll(start);
    }

    // The loop over the running requests.
    method ScheduleRunning(ghost start: Start, paused: bool, deferPrefills: bool)
      returns (plan: Plan<Request>, preempted: seq<Request>, ghost loop: Loop)
      requires Valid() && Begins(start) && start.step == currentStep && deferPrefills == start.deferPrefills
      modifies this`running, this`waiting, this`refusals, start.before.Keys
      ensures loop.running == running && loop.plan == plan && loop.preempted == preempted
      ensures LoopState(start, loop.index, plan, preempted, loop.undone, loop.decodes)
      ensures Ended(TheRules(), start, loop, paused)
      ensures paused ==> plan.entries == map[] && preempted == []
    {
      plan, preempted := Plan([], map[], budgets.tokenLimit, budgets.inputLimit), [];
      var index, numDecodeInBatch, go := 0, 0, !paused;
      ghost var undone: map<Request, Entry> := map[];
      LoopBegins(start);
      AllRunning(start);
      hide Inv, PreemptedItself, Tracks, OnTime, Partitioned, Reversed, Fair;
      while go && index < |running| && plan.tokenBudget > 0
        invariant LoopState(start, index, plan, preempted, undone, numDecodeInBatch)
        invariant go != paused && (paused ==> plan.entries == map[] && preempted == [])
        decreases 2 * |running| - index, go
      {
        go, index, plan, preempted, undone, numDecodeInBatch :=
          ConsiderNext(start, deferPrefills, index, plan, preempted, undone, numDecodeInBatch);
        if !go {
          break;
        }
      }
      loop := Now(index, plan, preempted, undone, numDecodeInBatch);
    }

    // The draft budget of the request's next step (cap_for over the step's placeholder list).
    method NextDraftBudget(request: Request) returns (k: nat) {
      k := *;
    }

    // When the request may decode next: a step that samples moves that on by the pipeline's depth.
    ghost predicate OnPace(r: Request, from: int, scheduled: bool)
      reads this`currentStep, r
    {
      r.nextDecodeEligibleStep == if scheduled && !r.isPrefillChunk then currentStep + ppSize else from
    }

    // The requests in `done` have taken a step.
    ghost predicate Timed(eligible: map<Request, int>, done: set<Request>)
      reads this`currentStep, eligible.Keys
    {
      forall r :: r in eligible ==> OnPace(r, eligible[r], r in done)
    }

    // _update_after_schedule for the i-th scheduled request.
    method AdvanceOne(ghost before: map<Request, System>, plan: Plan<Request>, ghost preempted: seq<Request>,
                      ghost nextK: map<Request, nat>, i: nat)
      returns (ghost nextK': map<Request, nat>)
      requires i < |plan.order| && Distinct(plan.order)
      requires plan.order[i] in plan.entries && plan.order[i] in before && plan.order[i] !in preempted
      requires Applied(before, plan, preempted, nextK, plan.order[..i])
      modifies plan.order[i]
      ensures Applied(before, plan, preempted, nextK', plan.order[..i + 1])
      ensures plan.order[i].nextDecodeEligibleStep
           == if plan.order[i].isPrefillChunk then old(plan.order[i].nextDecodeEligibleStep) else currentStep + ppSize
    {
      var request := plan.order[i];
      var e := plan.entries[request];
      assert request !in plan.order[..i];
      assert forall r :: r in plan.order[..i + 1] <==> r in plan.order[..i] || r == request;
      var k := NextDraftBudget(request);
      hide ScheduledDrafts, NumNewTokens;
      request.AfterSchedule(e.tokens, e.drafts, k, currentStep + ppSize, Resident);
      nextK' := nextK[request := k];
    }

    // The same, seen with the steps at which everybody may decode next.
    method UpdateOne(ghost before: map<Request, System>, ghost eligible: map<Request, int>, plan: Plan<Request>,
                     ghost preempted: seq<Request>, ghost nextK: map<Request, nat>, i: nat)
      returns (ghost nextK': map<Request, nat>)
      requires i < |plan.order| && Distinct(plan.order)
      requires plan.order[i] in plan.entries && plan.order[i] in before && plan.order[i] !in preempted
      requires Applied(before, plan, preempted, nextK, plan.order[..i])
      requires eligible.Keys == before.Keys && Timed(eligible, Members(plan.order[..i]))
      modifies plan.order[i]
      ensures Applied(before, plan, preempted, nextK', plan.order[..i + 1])
      ensures Timed(eligible, Members(plan.order[..i + 1]))
    {
      assert plan.order[i] !in plan.order[..i];
      assert Members(plan.order[..i + 1]) == Members(plan.order[..i]) + {plan.order[i]};
      hide Applied, Distinct, Members;
      nextK' := AdvanceOne(before, plan, preempted, nextK, i);
    }

    // _update_after_schedule over the scheduled requests.
    method UpdateScheduled(ghost before: map<Request, System>, ghost eligible: map<Request, int>, plan: Plan<Request>,
                           ghost preempted: seq<Request>)
      returns (ghost nextK: map<Request, nat>)
      requires Tracks(before, plan, preempted) && Distinct(plan.order)
      requires forall r :: r in plan.order ==> r in plan.entries && r in before && r !in preempted
      requires eligible.Keys == before.Keys && Timed(eligible, {})
      modifies before.Keys
      ensures Applied(before, plan, preempted, nextK, plan.order) && Timed(eligible, Members(plan.order))
    {
      nextK := map[];
      assert Applied(before, plan, preempted, nextK, []);
      assert Members(plan.order[..0]) == {};
      hide Applied, Tracks, Distinct, Timed;
      for i := 0 to |plan.order|
        invariant Applied(before, plan, preempted, nextK, plan.order[..i])
        invariant Timed(eligible, Members(plan.order[..i]))
      {
        nextK := UpdateOne(before, eligible, plan, preempted, nextK, i);
      }
      assert plan.order[..|plan.order|] == plan.order;
    }

    // As Tracks, with the requests in `done` already advanced past their step.
    ghost predicate Applied(before: map<Request, System>, plan: Plan<Request>, preempted: seq<Request>,
                            nextK: map<Request, nat>, done: seq<Request>)
      reads before.Keys
    {
      forall r :: r in before ==>
        r.limits.mamba.Valid() &&
        if r in preempted then
          r.Sys() == before[r].(request := Preempt(before[r].request, requiresKvDelivery))
        else if r in done then
          r in plan.entries && r in nextK && Chosen(r.limits, before[r], plan.entries[r])
          && r.Sys() == Next(r.limits, before[r], ScheduleEvent(plan.entries[r], nextK[r]))
        else if r in plan.entries then
          Chosen(r.limits, before[r], plan.entries[r]) && r.Sys() == before[r].(request := before[r].request.(spec := []))
        else r.Sys() == before[r]
    }

    ghost function EventsOf(before: map<Request, System>, plan: Plan<Request>, preempted: seq<Request>,
                            nextK: map<Request, nat>): map<Request, Event>
    {
      map r | r in before && (r in preempted || (r in plan.entries && r in nextK)) ::
        if r in preempted then PreemptRequest(requiresKvDelivery) else ScheduleEvent(plan.entries[r], nextK[r])
    }

    lemma AllActed(before: map<Request, System>, plan: Plan<Request>, preempted: seq<Request>,
                   nextK: map<Request, nat>, r: Request)
      requires Applied(before, plan, preempted, nextK, plan.order) && r in before
      requires Inv(r.limits, before[r]) && before[r].request.status.Running?
      requires forall x :: x in plan.entries ==> x in plan.order
      ensures Acted(r, before[r], EventsOf(before, plan, preempted, nextK))
      ensures r.Valid() && r.status == if r in preempted then Status.Preempted else Running
      ensures r in plan.entries && r !in preempted ==> Carries(r, plan.entries[r])
    {
      var events := EventsOf(before, plan, preempted, nextK);
      hide NumNewTokens, ScheduledDrafts;
      if r in events {
        NextKeeps(r.limits, before[r], events[r]);
      }
    }

    lemma LoopResult(start: Start, loop: Loop)
      requires loop.running == running
      requires LoopState(start, loop.index, loop.plan, loop.preempted, loop.undone, loop.decodes)
      requires forall r :: r in start.running <==> r in start.before
      requires start.eligible.Keys == start.before.Keys
      ensures Partitioned(priorityPolicy, start.running, running, loop.preempted) && Distinct(running)
      ensures Balanced(budgets, loop.plan) && Distinct(loop.plan.order) && InRunning(loop.plan, running)
      ensures waiting == Reversed(loop.preempted) + start.waiting
      ensures Tracks(start.before, loop.plan, loop.preempted) && Timed(start.eligible, {})
      ensures forall r :: r in loop.plan.order ==> r in loop.plan.entries
      ensures forall r :: r in loop.plan.entries ==> r in loop.plan.order && r in running
      ensures forall r :: r in running ==> r in start.before && r !in loop.preempted
      ensures forall r :: r in loop.preempted ==> r in start.before
      ensures Fair(TheRules(), start, loop) && refusals == start.refusals + |loop.preempted|
    {
      hide Fair;
    }

    lemma EventKinds(before: map<Request, System>, plan: Plan<Request>, preempted: seq<Request>,
                     nextK: map<Request, nat>)
      requires Applied(before, plan, preempted, nextK, plan.order)
      requires forall r :: r in plan.entries ==> r in before && r in plan.order && r !in preempted
      requires forall r :: r in preempted ==> r in before
      ensures var events := EventsOf(before, plan, preempted, nextK);
        && (forall r :: r in events <==> r in plan.entries || r in preempted)
        && (forall r :: r in plan.entries ==> events[r].Schedule?)
        && (forall r :: r in preempted ==> events[r] == PreemptRequest(requiresKvDelivery))
    {
    }

    // What the step has made of every request that was running.
    ghost predicate Outcome(before: map<Request, System>, plan: Plan<Request>, preempted: seq<Request>,
                            events: map<Request, Event>)
      reads before.Keys
    {
      && (forall r :: r in before ==> r.Valid() && Acted(r, before[r], events))
      && (forall r :: r in before ==> r.status == if r in preempted then Status.Preempted else Running)
      && (forall r :: r in preempted ==> r in before)
      && (forall r :: r in plan.entries ==> r in before && r !in preempted && Carries(r, plan.entries[r]))
      && (forall r :: r in events ==> r in plan.entries || r in preempted)
      && (forall r :: r in plan.entries ==> r in events && events[r].Schedule?)
      && (forall r :: r in preempted ==> r in events && events[r] == PreemptRequest(requiresKvDelivery))
    }

    lemma AllActedAlike(before: map<Request, System>, plan: Plan<Request>, preempted: seq<Request>,
                        nextK: map<Request, nat>)
      requires Applied(before, plan, preempted, nextK, plan.order)
      requires forall r :: r in before ==> Inv(r.limits, before[r]) && before[r].request.status.Running?
      requires forall r :: r in plan.entries ==> r in before && r in plan.order && r !in preempted
      requires forall r :: r in preempted ==> r in before
      ensures Outcome(before, plan, preempted, EventsOf(before, plan, preempted, nextK))
    {
      hide Acted, Inv, Carries;
      EventKinds(before, plan, preempted, nextK);
      forall r | r in before
        ensures r.Valid() && Acted(r, before[r], EventsOf(before, plan, preempted, nextK))
        ensures r.status == if r in preempted then Status.Preempted else Running
        ensures r in plan.entries ==> Carries(r, plan.entries[r])
      {
        AllActed(before, plan, preempted, nextK, r);
      }
    }

    lemma AllRunning(start: Start)
      requires Valid() && Begins(start)
      ensures forall r :: r in start.before ==>
        Inv(r.limits, start.before[r]) && start.before[r].request.status.Running?
      ensures forall r :: r in start.running <==> r in start.before
    {
    }

    lemma OutcomeRuns(before: map<Request, System>, plan: Plan<Request>, preempted: seq<Request>,
                      events: map<Request, Event>)
      requires Outcome(before, plan, preempted, events)
      requires forall r :: r in running ==> r in before && r !in preempted
      ensures forall r :: r in running ==> r.Valid() && r.status == Running
    {
      hide Acted, Inv, Carries;
    }

    // _update_after_schedule, and what it amounts to for every request that was running.
    method UpdateAll(ghost before: map<Request, System>, ghost eligible: map<Request, int>, plan: Plan<Request>,
                     ghost preempted: seq<Request>)
      returns (ghost events: map<Request, Event>)
      requires Tracks(before, plan, preempted) && Distinct(plan.order)
      requires forall r :: r in before ==> Inv(r.limits, before[r]) && before[r].request.status.Running?
      requires forall r :: r in plan.order ==> r in plan.entries
      requires forall r :: r in plan.entries ==> r in before && r in plan.order && r !in preempted
      requires forall r :: r in preempted ==> r in before
      requires eligible.Keys == before.Keys && Timed(eligible, {})
      modifies before.Keys
      ensures Outcome(before, plan, preempted, events) && Timed(eligible, plan.entries.Keys)
    {
      assert Members(plan.order) == plan.entries.Keys;
      hide Applied, Tracks, EventsOf, Inv, Outcome, Distinct, Timed;
      ghost var nextK := UpdateScheduled(before, eligible, plan, preempted);
      events := EventsOf(before, plan, preempted, nextK);
      AllActedAlike(before, plan, preempted, nextK);
    }

    // schedule() for the running requests. `events` says which action of RequestMachine each request took; a request
    // without an event is unchanged, and `loop` says why it was passed over or why its turn did not come.
    method ScheduleRunningStep(ghost start: Start, paused: bool, deferPrefills: bool)
      returns (plan: Plan<Request>, preempted: seq<Request>, ghost events: map<Request, Event>, ghost loop: Loop)
      requires Valid() && Begins(start) && start.step == currentStep + 1 && deferPrefills == start.deferPrefills
      modifies this`running, this`waiting, this`currentStep, this`refusals, start.before.Keys
      ensures Valid() && Balanced(budgets, plan) && InRunning(plan, running)
      ensures Outcome(start.before, plan, preempted, events)
      ensures Partitioned(priorityPolicy, start.running, running, preempted)
      ensures waiting == Reversed(preempted) + start.waiting
      ensures loop.running == running && loop.plan == plan && loop.preempted == preempted
      ensures Fair(TheRules(), start, loop) && Ended(TheRules(), start, loop, paused)
      ensures paused ==> plan.entries == map[] && preempted == []
      ensures refusals == old(refusals) + |preempted| && currentStep == old(currentStep) + 1
      ensures Timed(start.eligible, plan.entries.Keys)
    {
      hide Reversed, Tracks, Inv, Balanced, Partitioned, LoopState, Outcome, InRunning, Fair, Ended, Timed;
      currentStep := currentStep + 1;
      AllRunning(start);
      plan, preempted, loop := ScheduleRunning(start, paused, deferPrefills);
      LoopResult(start, loop);
      events := UpdateAll(start.before, start.eligible, plan, preempted);
      OutcomeRuns(start.before, plan, preempted, events);
    }

    // --- The waiting loop -----------------------------------------------------------------------------------

    // Every request is in one queue, and those that wait are waiting or preempted.
    ghost predicate QueuesValid()
      reads this, waiting, skippedWaiting
    {
      && Once(multiset(running) + multiset(skippedWaiting) + multiset(waiting))
      && AllWait(waiting) && AllWait(skippedWaiting)
    }

    // Where everybody is during the waiting loop, and what they have done. `held` is step_skipped_waiting, `admitted` what
    // it has moved to `running` so far.
    ghost predicate PassQueues(start: PassStart, held: seq<Request>, plan: Plan<Request>, admitted: seq<Request>,
                               events: map<Request, Event>)
      reads this`running, this`waiting, this`skippedWaiting, start.was.Keys, plan.entries.Keys
    {
      && budgets.draftSlots >= 0 && Balanced(budgets, plan) && InRunning(plan, running) && Planned(plan.entries)
      && Queued(start, maxNumRunningReqs, running, held, skippedWaiting, waiting, admitted)
      && Progress(start.was, admitted, events)
    }

    // What the waiting loop keeps.
    ghost predicate PassState(start: PassStart, held: seq<Request>, plan: Plan<Request>, admitted: seq<Request>,
                              events: map<Request, Event>)
      reads this`running, this`waiting, this`skippedWaiting, this`cacheHits, this`currentStep
      reads start.was.Keys, plan.entries.Keys, start.eligible.Keys
    {
      && PassQueues(start, held, plan, admitted, events)
      && InTurn(budgets, start, held, skippedWaiting, waiting, plan, admitted, events) && Answered(events, cacheHits)
      && start.eligible.Keys == start.was.Keys && Timed(start.eligible, Members(admitted))
    }

    // `start` is the state in which the waiting loop begins.
    ghost predicate PassFrom(start: PassStart, plan: Plan<Request>)
      reads this`running, this`waiting, this`skippedWaiting, waiting, skippedWaiting
    {
      && start.running == running && start.waiting == waiting && start.skipped == skippedWaiting && start.first == plan
      && start.all == multiset(running) + multiset(skippedWaiting) + multiset(waiting)
      && start.was.Keys == start.eligible.Keys == Members(waiting + skippedWaiting)
      && (forall r :: r in waiting ==> start.was[r] == r.Sys() && start.eligible[r] == r.nextDecodeEligibleStep)
      && forall r :: r in skippedWaiting ==> start.was[r] == r.Sys() && start.eligible[r] == r.nextDecodeEligibleStep
    }

    // _select_waiting_queue_for_scheduling; equal heads are told apart by request id.
    method SelectsSkipped() returns (fromSkipped: bool)
      requires waiting != [] || skippedWaiting != []
      ensures if fromSkipped then skippedWaiting != [] else waiting != []
      ensures !priorityPolicy && skippedWaiting != [] ==> fromSkipped
      ensures priorityPolicy && waiting != [] && skippedWaiting != [] ==>
        if fromSkipped then !waiting[0].Before(skippedWaiting[0]) else !skippedWaiting[0].Before(waiting[0])
    {
      if !priorityPolicy || waiting == [] || skippedWaiting == [] {
        return skippedWaiting != [];
      }
      if waiting[0].Before(skippedWaiting[0]) {
        return false;
      }
      if skippedWaiting[0].Before(waiting[0]) {
        return true;
      }
      fromSkipped := *;
    }

    method PopHead(fromSkipped: bool)
      requires if fromSkipped then skippedWaiting != [] else waiting != []
      modifies this`waiting, this`skippedWaiting
      ensures skippedWaiting == Rest(old(skippedWaiting), fromSkipped) && waiting == Rest(old(waiting), !fromSkipped)
    {
      if fromSkipped {
        skippedWaiting := skippedWaiting[1..];
      } else {
        waiting := waiting[1..];
      }
    }

    // The prefix cache: any number of the request's tokens but the last, and any shared-prefix junction.
    method LookUpCache(request: Request) returns (computed: nat, junction: nat)
      requires request.allTokenIds != []
      modifies this`cacheHits
      ensures computed < |request.allTokenIds| && cacheHits == old(cacheHits)[request := Hit(computed, junction)]
    {
      junction, computed := *, *;
      if computed >= |request.allTokenIds| {
        computed := 0;
      }
      cacheHits := cacheHits[request := Hit(computed, junction)];
    }

    // A request whose turn it is, with the prefix cache already asked: admit it if a chunk fits the budgets and blocks
    // are available.
    method TryAdmit(request: Request, computed: nat, deferPrefills: bool, plan: Plan<Request>)
      returns (n: int, allowance: int)
      requires budgets.draftSlots >= 0 && plan.tokenBudget > 0 && plan.inputBudget > budgets.draftSlots
      requires request.limits.mamba.Valid() && computed < |request.allTokenIds|
      modifies this`refusals
      ensures allowance == Min(plan.tokenBudget, plan.inputBudget - budgets.draftSlots)
      ensures n != 0 ==> 0 < n <= plan.tokenBudget && n <= plan.inputBudget - budgets.draftSlots && 0 < allowance
      ensures n != 0 ==>
        n == NumAdmittedTokens(request.limits, request.View(), computed, request.sharedPrefixBoundary, allowance)
      ensures n != 0 ==> refusals == old(refusals) && (deferPrefills ==> computed >= |request.allTokenIds| - 1)
      ensures n == 0 ==>
        || (refusals == old(refusals) + 1)
        || (refusals == old(refusals) && deferPrefills && computed < |request.allTokenIds| - 1)
        || (refusals == old(refusals)
            && NumAdmittedTokens(request.limits, request.View(), computed, request.sharedPrefixBoundary, allowance) == 0)
    {
      n, allowance := 0, Min(plan.tokenBudget, plan.inputBudget - budgets.draftSlots);
      if deferPrefills && computed < |request.allTokenIds| - 1 {
        return;
      }
      n := request.NumAdmittedWithin(computed, allowance);
      AdmittedAtMost(request.limits, request.View(), computed, request.sharedPrefixBoundary, allowance);
      if n != 0 {
        var ok := AllocateSlots(request, n);
        if !ok {
          n := 0;
        }
      }
    }

    // Ask the prefix cache; the junction it reports is recorded at once.
    method LookUpRequest(ghost was: System, request: Request) returns (computed: nat)
      requires Did(request, was, false, Nothing)
      modifies request, this`cacheHits
      ensures Did(request, was, false, Took(CacheLookup(request.sharedPrefixBoundary)))
      ensures computed < |request.allTokenIds| && request.limits.mamba.Valid()
      ensures request.View() == old(request.View()).(junction := request.sharedPrefixBoundary)
      ensures request.nextDecodeEligibleStep == old(request.nextDecodeEligibleStep)
      ensures cacheHits == old(cacheHits)[request := Hit(computed, request.sharedPrefixBoundary)]
    {
      var junction;
      computed, junction := LookUpCache(request);
      hide Inv;
      request.LookUp(junction);
    }

    // The request starts running.
    method AdmitRequest(ghost was: System, request: Request, computed: nat, n: int, allowance: int)
      returns (ghost e: Event)
      requires Did(request, was, false, Took(CacheLookup(request.sharedPrefixBoundary))) && !request.MustWait()
      requires request.limits.mamba.Valid() && computed < |request.allTokenIds| && 0 < allowance && n != 0
      requires n == NumAdmittedTokens(request.limits, request.View(), computed, request.sharedPrefixBoundary, allowance)
      modifies request
      ensures Did(request, was, true, Took(e)) && Carries(request, Entry(n, 0, allowance))
      ensures e.Resume? && e.budget == allowance && Follows(e, Hit(computed, old(request.sharedPrefixBoundary)))
           && e.computed == computed
      ensures request.nextDecodeEligibleStep
           == if request.isPrefillChunk then old(request.nextDecodeEligibleStep) else currentStep + ppSize
    {
      hide NumAdmittedTokens, Inv;
      var k := NextDraftBudget(request);
      e := Resume(computed, request.sharedPrefixBoundary, allowance, k);
      LookupThenResume(request.limits, was, request.sharedPrefixBoundary, computed, allowance, k);
      request.Resume(computed, allowance, n, k, currentStep + ppSize);
    }

    // The head of a queue.
    ghost predicate Heads(request: Request, fromSkipped: bool)
      reads this`waiting, this`skippedWaiting
    {
      if fromSkipped then skippedWaiting != [] && request == skippedWaiting[0]
      else waiting != [] && request == waiting[0]
    }

    // The head of a queue starts running with n tokens.
    method StartHead(ghost start: PassStart, ghost held: seq<Request>, plan: Plan<Request>, ghost admitted: seq<Request>,
                     ghost events: map<Request, Event>, request: Request, fromSkipped: bool,
                     computed: nat, n: int, allowance: int)
      returns (plan': Plan<Request>, ghost e: Event)
      requires PassQueues(start, held, plan, admitted, events) && Heads(request, fromSkipped)
      requires |running| < maxNumRunningReqs && !request.MustWait() && 0 < allowance
      requires request in events && request in start.was && events[request] == CacheLookup(request.sharedPrefixBoundary)
      requires request.limits.mamba.Valid() && computed < |request.allTokenIds|
      requires 0 < n <= plan.tokenBudget && n <= plan.inputBudget - budgets.draftSlots
      requires n == NumAdmittedTokens(request.limits, request.View(), computed, request.sharedPrefixBoundary, allowance)
      modifies this`running, this`waiting, this`skippedWaiting, request
      ensures PassQueues(start, held, plan', admitted + [request], events[request := e])
      ensures plan' == Add(budgets, plan, request, Entry(n, 0, allowance)) && request !in plan.entries
      ensures request !in admitted && e.Resume? && e.budget == allowance && e.computed == computed
      ensures e.sharedPrefix == old(request.sharedPrefixBoundary)
      ensures request.nextDecodeEligibleStep
           == if request.isPrefillChunk then old(request.nextDecodeEligibleStep) else currentStep + ppSize
      ensures skippedWaiting == Rest(old(skippedWaiting), fromSkipped) && waiting == Rest(old(waiting), !fromSkipped)
    {
      hide Queued, Did, Balanced, NumAdmittedTokens, Inv, InRunning, Add, Carries;
      HeadIsFree(start, maxNumRunningReqs, running, held, skippedWaiting, waiting, admitted, fromSkipped);
      HeadToRunning(start, maxNumRunningReqs, running, held, skippedWaiting, waiting, admitted, fromSkipped);
      AddInRunning(budgets, plan, running, request, Entry(n, 0, allowance));
      plan' := Add(budgets, plan, request, Entry(n, 0, allowance));
      PopHead(fromSkipped);
      running := running + [request];
      e := AdmitRequest(start.was[request], request, computed, n, allowance);
      OneMoved(start.was, admitted, admitted + [request], events, request, e);
      OnePlanned(budgets, plan, request, Entry(n, 0, allowance));
    }

    // Its turn had come.
    method AdmitHead(ghost start: PassStart, ghost held: seq<Request>, plan: Plan<Request>, ghost admitted: seq<Request>,
                     ghost events: map<Request, Event>, request: Request, fromSkipped: bool,
                     computed: nat, n: int, allowance: int)
      returns (plan': Plan<Request>, ghost events': map<Request, Event>)
      requires PassState(start, held, plan, admitted, events) && Heads(request, fromSkipped)
      requires |running| < maxNumRunningReqs && LookedUp(start, events, request, computed) && !request.MustWait()
      requires request.limits.mamba.Valid() && computed < |request.allTokenIds|
      requires allowance == Min(plan.tokenBudget, plan.inputBudget - budgets.draftSlots) && 0 < allowance
      requires 0 < n <= plan.tokenBudget && n <= plan.inputBudget - budgets.draftSlots
      requires n == NumAdmittedTokens(request.limits, request.View(), computed, request.sharedPrefixBoundary, allowance)
      requires start.deferPrefills ==> computed >= |request.allTokenIds| - 1
      modifies this`running, this`waiting, this`skippedWaiting, request
      ensures PassState(start, held, plan', admitted + [request], events')
      ensures forall r :: r in events' <==> r in events
      ensures skippedWaiting == Rest(old(skippedWaiting), fromSkipped) && waiting == Rest(old(waiting), !fromSkipped)
    {
      hide PassQueues, Balanced, NumAdmittedTokens, Add, InTurn, Timed, Answered;
      BudgetsHold(start, held, plan, admitted, events);
      ghost var skipped0, waiting0 := skippedWaiting, waiting;
      TimedOne(start.eligible, Members(admitted), request);
      ghost var e;
      plan', e := StartHead(start, held, plan, admitted, events, request, fromSkipped, computed, n, allowance);
      events' := events[request := e];
      AdmitInTurn(budgets, start, held, skipped0, waiting0, plan, admitted, events, fromSkipped, n, e);
      AnsweredToo(events, cacheHits, request, e);
      TimedMore(start.eligible, admitted, request);
    }

    lemma BudgetsHold(start: PassStart, held: seq<Request>, plan: Plan<Request>, admitted: seq<Request>,
                      events: map<Request, Event>)
      requires PassQueues(start, held, plan, admitted, events)
      ensures Balanced(budgets, plan) && budgets.draftSlots >= 0 && plan.tokenBudget >= 0
    {
    }

    lemma TimedOne(eligible: map<Request, int>, done: set<Request>, request: Request)
      requires Timed(eligible, done) && request in eligible
      ensures request !in done ==> request.nextDecodeEligibleStep == eligible[request]
      ensures forall r :: r in eligible && r != request ==> OnPace(r, eligible[r], r in done)
    {
    }

    lemma TimedMore(eligible: map<Request, int>, admitted: seq<Request>, request: Request)
      requires forall r :: r in eligible && r != request ==> OnPace(r, eligible[r], r in Members(admitted))
      requires request in eligible ==> OnPace(request, eligible[request], true)
      ensures Timed(eligible, Members(admitted + [request]))
    {
    }

    // The cache has answered for the request, which is otherwise what it was.
    ghost predicate LookedUp(start: PassStart, events: map<Request, Event>, request: Request, computed: nat)
      reads this`cacheHits, request
    {
      && request in start.was && request in events && events[request] == CacheLookup(request.sharedPrefixBoundary)
      && request in cacheHits && cacheHits[request] == Hit(computed, request.sharedPrefixBoundary)
      && request.View() == start.was[request].request.(junction := request.sharedPrefixBoundary)
    }

    // The cache lookup of a head, seen with everybody else.
    method AskForHead(ghost start: PassStart, ghost held: seq<Request>, ghost plan: Plan<Request>,
                      ghost admitted: seq<Request>, ghost events: map<Request, Event>, request: Request)
      returns (computed: nat)
      requires PassQueues(start, held, plan, admitted, events) && (request in skippedWaiting || request in waiting)
      requires request !in running && request !in admitted && request in start.was && request !in events
      modifies request, this`cacheHits
      ensures PassQueues(start, held, plan, admitted, events[request := CacheLookup(request.sharedPrefixBoundary)])
      ensures computed < |request.allTokenIds| && request.limits.mamba.Valid()
      ensures request.View() == start.was[request].request.(junction := request.sharedPrefixBoundary)
      ensures request.nextDecodeEligibleStep == old(request.nextDecodeEligibleStep)
      ensures request.isPrefillChunk == old(request.isPrefillChunk) && request.MustWait() == old(request.MustWait())
      ensures cacheHits == old(cacheHits)[request := Hit(computed, request.sharedPrefixBoundary)]
    {
      NotPlanned(plan, running);
      assert Did(request, start.was[request], false, Nothing) && request.Sys() == start.was[request];
      hide Queued, Did, Balanced, Inv, InRunning, Carries;
      computed := LookUpRequest(start.was[request], request);
      OneMoved(start.was, admitted, admitted, events, request, CacheLookup(request.sharedPrefixBoundary));
    }

    method LookUpHead(ghost start: PassStart, ghost held: seq<Request>, ghost plan: Plan<Request>,
                      ghost admitted: seq<Request>, ghost events: map<Request, Event>, request: Request)
      returns (computed: nat, ghost events': map<Request, Event>)
      requires PassState(start, held, plan, admitted, events) && (request in skippedWaiting || request in waiting)
      requires request !in running && request !in admitted && request in start.was && request !in events
      modifies request, this`cacheHits
      ensures PassState(start, held, plan, admitted, events')
      ensures events' == events[request := CacheLookup(request.sharedPrefixBoundary)]
      ensures LookedUp(start, events', request, computed) && request.MustWait() == old(request.MustWait())
      ensures computed < |request.allTokenIds| && request.limits.mamba.Valid()
    {
      hide PassQueues, InTurn;
      computed := AskForHead(start, held, plan, admitted, events, request);
      events' := events[request := CacheLookup(request.sharedPrefixBoundary)];
      LookInTurn(budgets, start, held, skippedWaiting, waiting, plan, admitted, events, request,
                 CacheLookup(request.sharedPrefixBoundary));
    }

    // A head that need not wait: look it up and admit it if it fits.
    method Examine(ghost start: PassStart, deferPrefills: bool, held: seq<Request>, plan: Plan<Request>,
                   ghost admitted: seq<Request>, ghost events: map<Request, Event>, request: Request, fromSkipped: bool)
      returns (go: bool, plan': Plan<Request>, ghost admitted': seq<Request>, ghost events': map<Request, Event>)
      requires PassState(start, held, plan, admitted, events) && Heads(request, fromSkipped)
      requires |running| < maxNumRunningReqs && plan.tokenBudget > 0 && plan.inputBudget > budgets.draftSlots
      requires request !in events && !request.MustWait() && deferPrefills == start.deferPrefills
      modifies this`running, this`waiting, this`skippedWaiting, this`refusals, this`cacheHits, request
      ensures PassState(start, held, plan', admitted', events')
      ensures forall r :: r in events' <==> r in events || r == request
      ensures go ==>
        skippedWaiting == Rest(old(skippedWaiting), fromSkipped) && waiting == Rest(old(waiting), !fromSkipped)
      ensures refusals == old(refusals) || (!go && refusals == old(refusals) + 1)
      ensures !go ==> skippedWaiting == old(skippedWaiting) && waiting == old(waiting) && running == old(running)
      ensures !go ==> TurnedAway(budgets, start, plan', events', cacheHits, refusals == old(refusals) + 1, request)
    {
      hide PassState, NumAdmittedTokens, LookedUp, TurnedAway;
      HeadToExamine(start, held, plan, admitted, events, request, fromSkipped);
      go, plan', admitted' := false, plan, admitted;
      var computed;
      computed, events' := LookUpHead(start, held, plan, admitted, events, request);
      var n, allowance := TryAdmit(request, computed, deferPrefills, plan);
      if n != 0 {
        go, admitted' := true, admitted + [request];
        plan', events' := AdmitHead(start, held, plan, admitted, events', request, fromSkipped, computed, n, allowance);
      } else {
        NotAdmitted(start, plan, events', request, computed, refusals == old(refusals) + 1);
      }
    }

    lemma HeadToExamine(start: PassStart, held: seq<Request>, plan: Plan<Request>, admitted: seq<Request>,
                        events: map<Request, Event>, request: Request, fromSkipped: bool)
      requires PassState(start, held, plan, admitted, events) && Heads(request, fromSkipped) && request !in events
      ensures request in start.was && request !in running && request !in admitted && budgets.draftSlots >= 0
      ensures request in skippedWaiting || request in waiting
      ensures request.Sys() == start.was[request]
    {
      hide Queued, Balanced, InTurn, Inv;
      HeadIsFree(start, maxNumRunningReqs, running, held, skippedWaiting, waiting, admitted, fromSkipped);
    }

    lemma NotAdmitted(start: PassStart, plan: Plan<Request>, events: map<Request, Event>, request: Request,
                      computed: nat, refused: bool)
      requires LookedUp(start, events, request, computed) && request.limits.mamba.Valid() && !request.MustWait()
      requires refused || (start.deferPrefills && computed < |request.allTokenIds| - 1)
            || NumAdmittedTokens(request.limits, request.View(), computed, request.sharedPrefixBoundary,
                                 Min(plan.tokenBudget, plan.inputBudget - budgets.draftSlots)) == 0
      ensures TurnedAway(budgets, start, plan, events, cacheHits, refused, request)
    {
      JunctionGiven(request.limits, start.was[request].request, computed, request.sharedPrefixBoundary,
                    Min(plan.tokenBudget, plan.inputBudget - budgets.draftSlots));
      hide NumAdmittedTokens;
    }

    // One turn of the waiting loop; `go` is false when the loop is left.
    method ConsiderWaiting(ghost start: PassStart, deferPrefills: bool, held: seq<Request>, plan: Plan<Request>,
                           ghost admitted: seq<Request>, ghost events: map<Request, Event>)
      returns (go: bool, held': seq<Request>, plan': Plan<Request>, ghost admitted': seq<Request>,
               ghost events': map<Request, Event>)
      requires PassState(start, held, plan, admitted, events) && Untouched(events, skippedWaiting, waiting)
      requires (waiting != [] || skippedWaiting != []) && plan.tokenBudget > 0 && deferPrefills == start.deferPrefills
      modifies this`running, this`waiting, this`skippedWaiting, this`refusals, this`cacheHits, start.was.Keys
      ensures PassState(start, held', plan', admitted', events')
      ensures go ==> Untouched(events', skippedWaiting, waiting)
      ensures go ==> |skippedWaiting| + |waiting| < old(|skippedWaiting| + |waiting|)
      ensures refusals == old(refusals) || (!go && refusals == old(refusals) + 1)
      ensures !go ==> AdmissionsEnded(budgets, maxNumRunningReqs, start, running, skippedWaiting, waiting, plan', events',
                                      cacheHits, refusals == old(refusals) + 1)
    {
      hide PassState, Untouched, TurnedAway;
      go, held', plan', admitted', events' := false, held, plan, admitted, events;
      if plan.inputBudget <= budgets.draftSlots || |running| >= maxNumRunningReqs {
        return;
      }
      var fromSkipped := SelectsSkipped();
      var request := if fromSkipped then skippedWaiting[0] else waiting[0];
      HeadUntouched(events, skippedWaiting, waiting, request);
      HeadToExamine(start, held, plan, admitted, events, request, fromSkipped);
      ghost var skipped0, waiting0 := skippedWaiting, waiting;
      HeadGone(start, held, plan, admitted, events, fromSkipped);
      if request.MustWait() {
        HoldHead(start, held, plan, admitted, events, request, fromSkipped);
        held' := [request] + held;
        go := true;
      } else {
        go, plan', admitted', events' :=
          Examine(start, deferPrefills, held, plan, admitted, events, request, fromSkipped);
      }
      StillUntouched(events, events', request, skipped0, waiting0, fromSkipped);
    }

    lemma HeadGone(start: PassStart, held: seq<Request>, plan: Plan<Request>, admitted: seq<Request>,
                   events: map<Request, Event>, fromSkipped: bool)
      requires PassState(start, held, plan, admitted, events)
      requires if fromSkipped then skippedWaiting != [] else waiting != []
      ensures var r := if fromSkipped then skippedWaiting[0] else waiting[0];
        r !in Rest(skippedWaiting, fromSkipped) && r !in Rest(waiting, !fromSkipped)
    {
      hide Queued, Balanced, InTurn, Inv, Did;
      HeadIsFree(start, maxNumRunningReqs, running, held, skippedWaiting, waiting, admitted, fromSkipped);
    }

    // A head with output still to be delivered is set aside.
    method HoldHead(ghost start: PassStart, ghost held: seq<Request>, ghost plan: Plan<Request>,
                    ghost admitted: seq<Request>, ghost events: map<Request, Event>, request: Request, fromSkipped: bool)
      requires PassState(start, held, plan, admitted, events) && Heads(request, fromSkipped) && request.MustWait()
      requires request in start.was && request.Sys() == start.was[request]
      modifies this`waiting, this`skippedWaiting
      ensures PassState(start, [request] + held, plan, admitted, events)
      ensures skippedWaiting == Rest(old(skippedWaiting), fromSkipped) && waiting == Rest(old(waiting), !fromSkipped)
    {
      hide Queued, Balanced, InTurn, Inv, Did, InRunning, Planned;
      HeadToHeld(start, maxNumRunningReqs, running, held, skippedWaiting, waiting, admitted, fromSkipped);
      HoldInTurn(budgets, start, held, skippedWaiting, waiting, plan, admitted, events, fromSkipped);
      PopHead(fromSkipped);
    }

    lemma QueuesBegin(start: PassStart, plan: Plan<Request>)
      requires budgets.draftSlots >= 0 && Balanced(budgets, plan) && InRunning(plan, running) && QueuesValid()
      requires Planned(plan.entries) && PassFrom(start, plan)
      ensures PassQueues(start, [], plan, [], map[])
    {
      hide Balanced, Inv, Carries, InRunning, Planned;
    }

    lemma PassBegins(start: PassStart, plan: Plan<Request>)
      requires budgets.draftSlots >= 0 && Balanced(budgets, plan) && InRunning(plan, running) && QueuesValid()
      requires Planned(plan.entries) && PassFrom(start, plan)
      requires Offered(plan.order, plan.entries, budgets.tokenLimit, budgets.inputLimit, 0, 0, budgets.draftSlots)
      ensures PassState(start, [], plan, [], map[]) && Untouched(map[], skippedWaiting, waiting)
    {
      hide Balanced, Inv, InTurn, Offered, Carries, PassQueues, QueuesValid, InRunning, Planned;
      QueuesBegin(start, plan);
      InTurnBegins(budgets, start);
    }

    lemma PassEnds(start: PassStart, plan: Plan<Request>, admitted: seq<Request>, events: map<Request, Event>)
      requires PassQueues(start, [], plan, admitted, events)
      ensures QueuesValid() && Balanced(budgets, plan) && InRunning(plan, running) && Planned(plan.entries)
      ensures running == start.running + admitted && Everyone() == start.all
      ensures |running| <= maxNumRunningReqs || |running| <= |start.running|
      ensures forall r :: r in admitted ==> r in start.was
      ensures forall r :: r in start.was ==> Did(r, start.was[r], r in admitted, TakenBy(events, r))
      ensures forall r :: r in events ==> r in start.was
    {
      hide Balanced, Inv;
      assert start.all == Everyone();
      forall r | r in waiting || r in skippedWaiting
        ensures r.Valid() && Waits(r.status)
      {
        InOneQueue(running, [], skippedWaiting, waiting, r);
      }
    }

    // How the waiting loop has served its queues: the held requests are back ahead of the rest of the skipped ones.
    ghost predicate Served(start: PassStart, held: seq<Request>, plan: Plan<Request>, admitted: seq<Request>,
                           events: map<Request, Event>, refused: bool)
      reads this`running, this`waiting, this`skippedWaiting, this`cacheHits
    {
      && held <= skippedWaiting
      && var rest := skippedWaiting[|held|..];
         && InTurn(budgets, start, held, rest, waiting, plan, admitted, events) && Answered(events, cacheHits)
         && AdmissionsEnded(budgets, maxNumRunningReqs, start, running, rest, waiting, plan, events, cacheHits, refused)
    }

    // The waiting loop. Requests it passed over are put back ahead of the older skipped ones.
    method WaitingPass(ghost start: PassStart, deferPrefills: bool, plan: Plan<Request>)
      returns (plan': Plan<Request>, ghost admitted: seq<Request>, ghost events: map<Request, Event>,
               ghost held: seq<Request>)
      requires PassState(start, [], plan, [], map[]) && Untouched(map[], skippedWaiting, waiting)
      requires deferPrefills == start.deferPrefills
      modifies this`running, this`waiting, this`skippedWaiting, this`refusals, this`cacheHits, start.was.Keys
      ensures PassQueues(start, [], plan', admitted, events)
      ensures Served(start, held, plan', admitted, events, refusals == old(refusals) + 1)
      ensures refusals <= old(refusals) + 1 && refusals >= old(refusals)
      ensures start.eligible.Keys == start.was.Keys && Timed(start.eligible, Members(admitted))
    {
      hide PassState, PassQueues, Untouched, TurnedAway, InTurn, Answered, Timed;
      var stepSkipped, go := [], true;
      plan', admitted, events := plan, [], map[];
      while go && (waiting != [] || skippedWaiting != []) && plan'.tokenBudget > 0
        invariant PassState(start, stepSkipped, plan', admitted, events)
        invariant go && Untouched(events, skippedWaiting, waiting) && refusals == old(refusals)
        decreases |skippedWaiting| + |waiting|, go
      {
        go, stepSkipped, plan', admitted, events :=
          ConsiderWaiting(start, deferPrefills, stepSkipped, plan', admitted, events);
        if !go {
          break;
        }
      }
      StillBalanced(start, stepSkipped, plan', admitted, events);
      PutBack(start, stepSkipped, plan', admitted, events);
      held := stepSkipped;
    }

    lemma StillBalanced(start: PassStart, held: seq<Request>, plan: Plan<Request>, admitted: seq<Request>,
                        events: map<Request, Event>)
      requires PassState(start, held, plan, admitted, events)
      ensures plan.tokenBudget >= 0
    {
      BudgetsHold(start, held, plan, admitted, events);
    }

    // Requests set aside in this pass are put back ahead of older skipped ones.
    method PutBack(ghost start: PassStart, held: seq<Request>, ghost plan: Plan<Request>, ghost admitted: seq<Request>,
                   ghost events: map<Request, Event>)
      requires PassState(start, held, plan, admitted, events)
      modifies this`skippedWaiting
      ensures skippedWaiting == held + old(skippedWaiting)
      ensures PassQueues(start, [], plan, admitted, events)
      ensures InTurn(budgets, start, held, old(skippedWaiting), waiting, plan, admitted, events)
      ensures Answered(events, cacheHits) && start.eligible.Keys == start.was.Keys
      ensures Timed(start.eligible, Members(admitted))
    {
      hide Queued, Balanced, InTurn, InRunning, Inv, Did, Answered;
      HeldBack(start, maxNumRunningReqs, running, held, skippedWaiting, waiting, admitted);
      skippedWaiting := held + skippedWaiting;
    }

    // schedule() for the waiting requests.
    method ScheduleWaiting(ghost start: PassStart, deferPrefills: bool, plan: Plan<Request>)
      returns (plan': Plan<Request>, ghost admitted: seq<Request>, ghost events: map<Request, Event>,
               ghost held: seq<Request>)
      requires budgets.draftSlots >= 0 && Balanced(budgets, plan) && InRunning(plan, running) && QueuesValid()
      requires Planned(plan.entries) && PassFrom(start, plan) && deferPrefills == start.deferPrefills
      requires Offered(plan.order, plan.entries, budgets.tokenLimit, budgets.inputLimit, 0, 0, budgets.draftSlots)
      modifies this`running, this`waiting, this`skippedWaiting, this`refusals, this`cacheHits, start.was.Keys
      ensures Balanced(budgets, plan') && InRunning(plan', running) && QueuesValid() && Planned(plan'.entries)
      ensures running == old(running) + admitted && (|running| <= maxNumRunningReqs || |running| <= |old(running)|)
      ensures Everyone() == start.all
      ensures forall r :: r in admitted ==> r in start.was
      ensures forall r :: r in start.was ==> Did(r, start.was[r], r in admitted, TakenBy(events, r))
      ensures forall r :: r in events ==> r in start.was
      ensures Served(start, held, plan', admitted, events, refusals == old(refusals) + 1)
      ensures old(refusals) <= refusals <= old(refusals) + 1
      ensures Timed(start.eligible, Members(admitted))
    {
      hide PassState, PassQueues, Balanced, InRunning, Once, Inv, Did, QueuesValid, Planned, Offered, Served, Timed;
      PassBegins(start, plan);
      plan', admitted, events, held := WaitingPass(start, deferPrefills, plan);
      PassEnds(start, plan', admitted, events);
    }

    // Everybody in the three queues.
    ghost function Everyone(): multiset<Request>
      reads this
    {
      multiset(running) + multiset(skippedWaiting) + multiset(waiting)
    }

    // `was` holds what every request of the three queues is now, `eligible` when it may decode next.
    ghost predicate Snapshot(was: map<Request, System>, eligible: map<Request, int>)
      reads this, running, skippedWaiting, waiting
    {
      && was.Keys == eligible.Keys == Members(running) + Members(skippedWaiting) + Members(waiting)
      && (forall r :: r in running ==> r.Sys() == was[r] && r.nextDecodeEligibleStep == eligible[r])
      && (forall r :: r in skippedWaiting ==> r.Sys() == was[r] && r.nextDecodeEligibleStep == eligible[r])
      && (forall r :: r in waiting ==> r.Sys() == was[r] && r.nextDecodeEligibleStep == eligible[r])
    }

    lemma QueuesApart()
      requires QueuesValid()
      ensures forall r :: r in waiting ==> r !in running
      ensures forall r :: r in skippedWaiting ==> r !in running
    {
      var none: seq<Request> := [];
      assert multiset(running) + multiset(none) + multiset(skippedWaiting) + multiset(waiting)
          == multiset(running) + multiset(skippedWaiting) + multiset(waiting);
      forall r | r in waiting ensures r !in running { InOneQueue(running, none, skippedWaiting, waiting, r); }
      forall r | r in skippedWaiting ensures r !in running { InOneQueue(running, none, skippedWaiting, waiting, r); }
    }

    // Requests that are what they were.
    ghost predicate Unmoved(q: seq<Request>, was: map<Request, System>, eligible: map<Request, int>)
      reads q
    {
      && (forall r :: r in q ==> r in was && r.limits.mamba.Valid() && r.Sys() == was[r])
      && (forall r :: r in q ==> r in eligible && r.nextDecodeEligibleStep == eligible[r])
    }

    lemma SnapshotStart(was: map<Request, System>, eligible: map<Request, int>, deferPrefills: bool)
      requires Snapshot(was, eligible)
      ensures was.Keys == eligible.Keys == Members(running) + Members(skippedWaiting) + Members(waiting)
      ensures Begins(StartOf(running, waiting, was, eligible, currentStep + 1, deferPrefills, refusals))
    {
    }

    lemma SnapshotWaits(was: map<Request, System>, eligible: map<Request, int>)
      requires Snapshot(was, eligible) && AllWait(waiting) && AllWait(skippedWaiting)
      ensures Unmoved(waiting, was, eligible) && Unmoved(skippedWaiting, was, eligible)
    {
      hide Inv, AllWait, Request.Sys;
      MambaValid(waiting);
      MambaValid(skippedWaiting);
    }

    // What the running loop starts from, and what it leaves alone.
    lemma SnapshotBegins(was: map<Request, System>, eligible: map<Request, int>, deferPrefills: bool)
      requires QueuesValid() && Snapshot(was, eligible)
      ensures was.Keys == eligible.Keys == Members(running) + Members(skippedWaiting) + Members(waiting)
      ensures Begins(StartOf(running, waiting, was, eligible, currentStep + 1, deferPrefills, refusals))
      ensures Unmoved(waiting, was, eligible) && Unmoved(skippedWaiting, was, eligible)
      ensures forall r :: r in waiting || r in skippedWaiting ==> r !in running
      ensures Once(multiset(running) + multiset(skippedWaiting) + multiset(waiting))
      ensures AllWait(waiting) && AllWait(skippedWaiting)
    {
      hide Once, Begins, Unmoved, AllWait, Snapshot, StartOf;
      QueuesApart();
      SnapshotStart(was, eligible, deferPrefills);
      SnapshotWaits(was, eligible);
    }

    lemma QueuesAfter(start: Start, plan: Plan<Request>, preempted: seq<Request>, events: map<Request, Event>)
      requires Outcome(start.before, plan, preempted, events) && waiting == Reversed(preempted) + start.waiting
      requires Partitioned(priorityPolicy, start.running, running, preempted)
      requires Once(multiset(start.running) + multiset(skippedWaiting) + multiset(start.waiting))
      requires AllWait(start.waiting) && AllWait(skippedWaiting)
      ensures QueuesValid() && (preempted == [] ==> waiting == start.waiting)
      ensures Everyone() == multiset(start.running) + multiset(skippedWaiting) + multiset(start.waiting)
    {
      PartitionCounts(priorityPolicy, start.running, running, preempted);
      hide Partitioned, Acted, Inv, Once, Reversed, Carries;
      StillQueued(start.running, running, skippedWaiting, start.waiting, waiting, preempted);
      BothWait(preempted, start.waiting, waiting);
    }

    lemma EveryoneAfter(was: map<Request, System>, eligible: map<Request, int>, start: Start, plan: Plan<Request>,
                        preempted: seq<Request>, events: map<Request, Event>)
      requires Outcome(start.before, plan, preempted, events) && Members(start.running) == start.before.Keys
      requires forall r :: r in start.before && r in was ==> was[r] == start.before[r]
      requires Unmoved(start.waiting, was, eligible) && Unmoved(skippedWaiting, was, eligible)
      requires was.Keys == eligible.Keys == Members(start.running) + Members(skippedWaiting) + Members(start.waiting)
      ensures EveryoneActed(was, events)
    {
      hide Inv, Carries, Enabled, Next;
      forall r | r in was ensures Acted(r, was[r], events) {
        if r in start.before {
          hide Acted;
        } else {
          assert r in start.waiting || r in skippedWaiting;
        }
      }
    }

    lemma KindsAfter(start: Start, plan: Plan<Request>, preempted: seq<Request>, events: map<Request, Event>)
      requires Outcome(start.before, plan, preempted, events) && Members(start.running) == start.before.Keys
      ensures Planned(plan.entries) && RunningKinds(start.running, plan, preempted, events, requiresKvDelivery)
      ensures forall r :: r in plan.entries ==> r in start.running
    {
      hide Acted, Inv, Carries;
      assert forall r :: r in start.before <==> r in Members(start.running);
    }

    lemma TimedAfter(was: map<Request, System>, eligible: map<Request, int>, start: Start, plan: Plan<Request>)
      requires Timed(start.eligible, plan.entries.Keys) && start.eligible.Keys == Members(start.running)
      requires forall r :: r in start.eligible && r in eligible ==> start.eligible[r] == eligible[r]
      requires forall r :: r in plan.entries ==> r in start.running
      requires Unmoved(start.waiting, was, eligible) && Unmoved(skippedWaiting, was, eligible)
      requires eligible.Keys == Members(start.running) + Members(skippedWaiting) + Members(start.waiting)
      ensures Timed(eligible, plan.entries.Keys)
    {
    }

    // The running part of schedule(), seen with the queues: preempted requests are waiting, nobody else moved.
    method ScheduleRunningPart(ghost was: map<Request, System>, ghost eligible: map<Request, int>, ghost start: Start,
                               paused: bool, deferPrefills: bool)
      returns (plan: Plan<Request>, preempted: seq<Request>, ghost events: map<Request, Event>, ghost loop: Loop)
      requires Valid() && QueuesValid() && Snapshot(was, eligible)
      requires start == StartOf(running, waiting, was, eligible, currentStep + 1, deferPrefills, refusals)
      modifies this`running, this`waiting, this`currentStep, this`refusals, running
      ensures Valid() && QueuesValid() && skippedWaiting == old(skippedWaiting)
      ensures Balanced(budgets, plan) && InRunning(plan, running) && Planned(plan.entries)
      ensures Everyone() == old(Everyone())
      ensures Partitioned(priorityPolicy, old(running), running, preempted)
      ensures EveryoneActed(was, events) && RunningKinds(old(running), plan, preempted, events, requiresKvDelivery)
      ensures preempted == [] ==> waiting == old(waiting)
      ensures loop.running == running && loop.plan == plan && loop.preempted == preempted
      ensures Fair(TheRules(), start, loop) && Ended(TheRules(), start, loop, paused)
      ensures paused ==> plan.entries == map[] && preempted == []
      ensures refusals == old(refusals) + |preempted| && currentStep == old(currentStep) + 1
      ensures Timed(eligible, plan.entries.Keys)
      ensures Unmoved(old(waiting), was, eligible) && Unmoved(skippedWaiting, was, eligible)
    {
      hide Inv, Valid, QueuesValid, Balanced, Partitioned, Reversed, Once, Fair, Ended, Timed, Snapshot, Begins, Outcome;
      hide EveryoneActed, RunningKinds, Planned, InRunning, Unmoved, AllWait;
      SnapshotBegins(was, eligible, deferPrefills);
      plan, preempted, events, loop := ScheduleRunningStep(start, paused, deferPrefills);
      QueuesAfter(start, plan, preempted, events);
      EveryoneAfter(was, eligible, start, plan, preempted, events);
      KindsAfter(start, plan, preempted, events);
      TimedAfter(was, eligible, start, plan);
    }

    // The waiting part of schedule(), after a running part that preempted nobody.
    method AdmitAfter(ghost was: map<Request, System>, ghost eligible: map<Request, int>, ghost pass: PassStart,
                      deferPrefills: bool, plan: Plan<Request>, ghost events: map<Request, Event>)
      returns (plan': Plan<Request>, ghost admitted: seq<Request>, ghost events': map<Request, Event>,
               ghost lookups: map<Request, Event>, ghost held: seq<Request>)
      requires Valid() && QueuesValid() && Balanced(budgets, plan) && InRunning(plan, running) && Planned(plan.entries)
      requires PassFrom(pass, plan) && deferPrefills == pass.deferPrefills && PassKnown(pass, was, eligible, running)
      requires EveryoneActed(was, events) && RunningKinds(running, plan, [], events, requiresKvDelivery)
      requires Offered(plan.order, plan.entries, budgets.tokenLimit, budgets.inputLimit, 0, 0, budgets.draftSlots)
      requires Timed(eligible, plan.entries.Keys)
      modifies this`running, this`waiting, this`skippedWaiting, this`refusals, this`cacheHits, waiting, skippedWaiting
      ensures Valid() && QueuesValid() && Everyone() == old(Everyone())
      ensures Balanced(budgets, plan') && InRunning(plan', running) && Planned(plan'.entries)
      ensures running == old(running) + admitted && (|running| <= maxNumRunningReqs || |running| <= |old(running)|)
      ensures EveryoneActed(was, events') && StepKinds(plan', [], admitted, events', requiresKvDelivery)
      ensures events' == events + lookups && Served(pass, held, plan', admitted, lookups, refusals == old(refusals) + 1)
      ensures old(refusals) <= refusals <= old(refusals) + 1 && Timed(eligible, plan'.entries.Keys)
    {
      hide *;
      ghost var running0 := running;
      BeforeAdmitting(was, eligible, pass, plan, events);
      plan', admitted, lookups, held := ScheduleWaiting(pass, deferPrefills, plan);
      events' := events + lookups;
      PlanKeys(pass, held, plan', admitted, lookups, refusals == old(refusals) + 1);
      ValidAfter(running0, pass, admitted, lookups);
      ActedAfter(was, running0, pass, plan, plan', admitted, events, lookups);
      TimedJoin(eligible, running0, pass, plan, plan', admitted);
    }

    lemma TimedJoin(eligible: map<Request, int>, running0: seq<Request>, pass: PassStart, plan: Plan<Request>,
                    plan': Plan<Request>, admitted: seq<Request>)
      requires Timed(pass.eligible, Members(admitted)) && pass.was.Keys == pass.eligible.Keys
      requires forall r :: r in running0 ==> r !in pass.was
      requires forall r :: r in pass.was ==> r !in plan.entries
      requires forall r :: r in eligible ==> r in running0 || r in pass.eligible
      requires forall r :: r in pass.eligible ==> r in eligible && pass.eligible[r] == eligible[r]
      requires forall r :: r in eligible && r in running0 ==> OnPace(r, eligible[r], r in plan.entries)
      requires forall r :: r in admitted ==> r in pass.was
      requires plan'.entries.Keys == plan.entries.Keys + Members(admitted)
      ensures Timed(eligible, plan'.entries.Keys)
    {
      hide OnPace;
      assert forall r :: r in plan'.entries <==> r in plan'.entries.Keys;
    }

    lemma BeforeAdmitting(was: map<Request, System>, eligible: map<Request, int>, pass: PassStart, plan: Plan<Request>,
                          events: map<Request, Event>)
      requires Valid() && QueuesValid() && PassFrom(pass, plan) && PassKnown(pass, was, eligible, running)
      requires EveryoneActed(was, events) && RunningKinds(running, plan, [], events, requiresKvDelivery)
      requires Timed(eligible, plan.entries.Keys) && InRunning(plan, running)
      ensures budgets.draftSlots >= 0 && budgets.tokenLimit >= 0 && budgets.inputLimit >= 0
      ensures forall r :: r in running ==> r !in pass.was && r.Valid() && r.status == Running
      ensures forall r :: r in running && r in was ==> Acted(r, was[r], events)
      ensures forall r :: r in pass.was ==> r !in plan.entries
      ensures forall r :: r in was ==> r in running || r in pass.was
      ensures forall r :: r in pass.was ==> r in was && pass.was[r] == was[r]
      ensures forall r :: r in eligible ==> r in running || r in pass.eligible
      ensures forall r :: r in pass.eligible ==> r in eligible && pass.eligible[r] == eligible[r]
      ensures pass.was.Keys == pass.eligible.Keys
      ensures forall r :: r in pass.was ==> r in waiting || r in skippedWaiting
      ensures pass.running == running && pass.first == plan && pass.all == Everyone()
      ensures forall r :: r in eligible && r in running ==> OnPace(r, eligible[r], r in plan.entries)
    {
      QueuesApart();
      hide Inv, Once, Acted;
    }

    // What the waiting part adds up to.
    lemma ActedAfter(was: map<Request, System>, running0: seq<Request>, pass: PassStart, plan: Plan<Request>,
                     plan': Plan<Request>, admitted: seq<Request>, events: map<Request, Event>,
                     lookups: map<Request, Event>)
      requires forall r :: r in running0 ==> r !in pass.was
      requires forall r :: r in running0 && r in was ==> Acted(r, was[r], events)
      requires forall r :: r in was ==> r in running0 || r in pass.was
      requires forall r :: r in pass.was ==> r in was && pass.was[r] == was[r]
      requires forall r :: r in pass.was ==> Did(r, pass.was[r], r in admitted, TakenBy(lookups, r))
      requires (forall r :: r in admitted ==> r in pass.was) && (forall r :: r in lookups ==> r in pass.was)
      requires RunningKinds(running0, plan, [], events, requiresKvDelivery)
      requires plan'.entries.Keys == plan.entries.Keys + Members(admitted)
      ensures EveryoneActed(was, events + lookups)
      ensures StepKinds(plan', [], admitted, events + lookups, requiresKvDelivery)
    {
      hide Did, Acted;
      JoinActed(was, running0, pass.was.Keys, admitted, events, lookups);
      JoinKinds(was, running0, pass.was.Keys, admitted, events, lookups, plan.entries.Keys);
    }

    lemma ValidAfter(running0: seq<Request>, pass: PassStart, admitted: seq<Request>, lookups: map<Request, Event>)
      requires QueuesValid() && running == running0 + admitted
      requires budgets.draftSlots >= 0 && budgets.tokenLimit >= 0 && budgets.inputLimit >= 0
      requires forall r :: r in running0 ==> r.Valid() && r.status == Running
      requires forall r :: r in pass.was ==> Did(r, pass.was[r], r in admitted, TakenBy(lookups, r))
      requires forall r :: r in admitted ==> r in pass.was
      ensures Valid()
    {
      OnceDistinct(running, multiset(skippedWaiting), multiset(waiting));
      hide Inv, Once, Distinct;
      AdmittedRun(pass.was, pass.was.Keys, admitted, lookups);
    }

    lemma PlanKeys(start: PassStart, held: seq<Request>, plan: Plan<Request>, admitted: seq<Request>,
                   events: map<Request, Event>, refused: bool)
      requires Served(start, held, plan, admitted, events, refused)
      ensures plan.entries.Keys == start.first.entries.Keys + Members(admitted)
    {
      hide Offered, AdmissionsEnded, Answered;
    }

    // schedule(): the running requests, then, unless one of them was preempted or admissions are paused, the waiting
    // ones. Whatever happens, every request takes at most one action of RequestMachine. `loop` says why each running
    // request that is not in the plan is not, Served why nobody else was admitted.
    method Schedule(ghost was: map<Request, System>, ghost eligible: map<Request, int>,
                    pause: PauseState, deferPrefills: bool)
      returns (plan: Plan<Request>, preempted: seq<Request>, ghost admitted: seq<Request>,
               ghost events: map<Request, Event>, ghost loop: Loop, ghost lookups: map<Request, Event>,
               ghost held: seq<Request>)
      requires Valid() && QueuesValid() && Snapshot(was, eligible)
      modifies this`running, this`waiting, this`skippedWaiting, this`currentStep, this`refusals, this`cacheHits
      modifies running, waiting, skippedWaiting
      ensures Valid() && QueuesValid() && Everyone() == old(Everyone())
      ensures Balanced(budgets, plan) && InRunning(plan, running)
      ensures Planned(plan.entries) && EveryoneActed(was, events)
      ensures StepKinds(plan, preempted, admitted, events, requiresKvDelivery)
      ensures preempted != [] || !pause.Unpaused? ==> admitted == []
      ensures running == loop.running + admitted && (|running| <= maxNumRunningReqs || |running| <= |old(running)|)
      ensures Partitioned(priorityPolicy, old(running), loop.running, preempted) && loop.preempted == preempted
      ensures var start :=
        StartOf(old(running), old(waiting), was, eligible, old(currentStep) + 1, deferPrefills, old(refusals));
        Fair(TheRules(), start, loop) && Ended(TheRules(), start, loop, pause.PausedAll?)
      ensures pause.PausedAll? ==> plan.entries == map[] && preempted == []
      ensures if preempted != [] || !pause.Unpaused? then plan == loop.plan && refusals == old(refusals) + |preempted|
              else old(refusals) <= refusals <= old(refusals) + 1
      ensures preempted == [] && pause.Unpaused? ==>
        Served(PassOf(old(running), old(skippedWaiting), old(waiting), was, eligible, loop.plan, deferPrefills),
               held, plan, admitted, lookups, refusals == old(refusals) + 1)
      ensures lookups.Keys <= events.Keys && forall r :: r in lookups ==> events[r] == lookups[r]
      ensures currentStep == old(currentStep) + 1 && Timed(eligible, plan.entries.Keys)
    {
      hide *;
      SnapshotBegins(was, eligible, deferPrefills);
      BothMembers(waiting, skippedWaiting);
      ghost var start := StartOf(running, waiting, was, eligible, currentStep + 1, deferPrefills, refusals);
      ghost var running0, skipped0, waiting0 := running, skippedWaiting, waiting;
      plan, preempted, events, loop := ScheduleRunningPart(was, eligible, start, pause.PausedAll?, deferPrefills);
      admitted, lookups, held := [], map[], [];
      PartitionCounts(priorityPolicy, running0, running, preempted);
      KindsAlone(running0, plan, preempted, events, requiresKvDelivery);
      if preempted == [] && pause.Unpaused? {
        OfferedExactlyNow(start, loop);
        NobodyLeft(priorityPolicy, running0, running);
        ghost var pass := PassOf(running0, skipped0, waiting0, was, eligible, plan, deferPrefills);
        PassStarts(was, eligible, pass, plan, deferPrefills);
        plan, admitted, events, lookups, held := AdmitAfter(was, eligible, pass, deferPrefills, plan, events);
      }
    }

    lemma OfferedExactlyNow(start: Start, loop: Loop)
      requires Fair(TheRules(), start, loop) && loop.preempted == []
      ensures Offered(loop.plan.order, loop.plan.entries, budgets.tokenLimit, budgets.inputLimit, 0, 0, budgets.draftSlots)
    {
      NothingGivenBack(TheRules(), start, loop);
      hide Fair, Offered;
    }

    lemma PassStarts(was: map<Request, System>, eligible: map<Request, int>, pass: PassStart, plan: Plan<Request>,
                     deferPrefills: bool)
      requires Unmoved(waiting, was, eligible) && Unmoved(skippedWaiting, was, eligible)
      requires Members(waiting + skippedWaiting) <= was.Keys && Members(waiting + skippedWaiting) <= eligible.Keys
      requires pass == PassOf(running, skippedWaiting, waiting, was, eligible, plan, deferPrefills)
      requires was.Keys == eligible.Keys == Members(running) + Members(skippedWaiting) + Members(waiting)
      ensures PassFrom(pass, plan) && PassKnown(pass, was, eligible, running) && pass.deferPrefills == deferPrefills
    {
    }

    // --- Outputs --------------------------------------------------------------------------------------------

    // What update_from_output relies on: `was` is what every request it may touch is now.
    ghost predicate KnownAs(was: map<Request, System>)
      reads this, was.Keys
    {
      && (forall r :: r in was ==> r.Valid() && r.limits.mamba.Valid() && r.Sys() == was[r])
      && (forall r :: r in running ==> r in was) && (forall r :: r in skippedWaiting ==> r in was)
      && (forall r :: r in waiting ==> r in was)
    }

    lemma QueuesDiffer(was: map<Request, System>)
      requires Valid() && QueuesValid() && KnownAs(was)
      ensures EveryoneActed(was, map[]) && Sorted(was, {}, {})
      ensures forall r :: r in was ==> Inv(r.limits, was[r])
      ensures forall r :: r in running ==> r in was && was[r].request.status.Running?
      ensures forall r :: r in waiting || r in skippedWaiting ==> r in was && Waits(was[r].request.status)
      ensures Once(multiset(running) + multiset(skippedWaiting) + multiset(waiting))
    {
      hide Inv, Once;
    }

    // The loop over the batch.
    method DeliverBatch(ghost was: map<Request, System>, batch: seq<Delivery>)
      returns (ran: set<Request>, waited: set<Request>, outputs: seq<seq<int>>)
      requires AllAnswer(batch, was) && EveryoneActed(was, map[]) && Sorted(was, {}, {})
      modifies was.Keys
      ensures EveryoneActed(was, DeliveryEvents(batch)) && Sorted(was, ran, waited)
      ensures |outputs| == |batch| && forall i :: 0 <= i < |batch| ==> Emits(batch[i], was, outputs[i])
    {
      ran, waited, outputs := {}, {}, [];
      hide EveryoneActed, Answers, DeliveryEvents, Emits;
      assert DeliveryEvents(batch[..0]) == map[] by {
        OnlyDeliveries([]);
      }
      for i := 0 to |batch|
        invariant EveryoneActed(was, DeliveryEvents(batch[..i])) && Sorted(was, ran, waited)
        invariant |outputs| == i && forall j :: 0 <= j < i ==> Emits(batch[j], was, outputs[j])
      {
        NotServed(batch, was, i);
        assert batch[i] in batch;
        ghost var finished := batch[i].request.status.Finished?;
        var stopped, wasRunning, delivered := DeliverOne(was, DeliveryEvents(batch[..i]), batch[i]);
        if stopped && wasRunning {
          ran := ran + {batch[i].request};
        } else if stopped {
          waited := waited + {batch[i].request};
        }
        outputs := outputs + [delivered];
      }
      assert batch[..|batch|] == batch;
    }

    // Everybody that was delivered to or not is still valid and either where it was or finished.
    lemma StillFine(was: map<Request, System>, events: map<Request, Event>)
      requires EveryoneActed(was, events) && forall r :: r in was ==> Inv(r.limits, was[r])
      requires forall r :: r in events ==> events[r].Deliver?
      ensures forall r :: r in was ==> r.Valid() && (r.status == was[r].request.status || r.status.Finished?)
    {
      hide Inv, Acted;
      forall r | r in was ensures r.Valid() && (r.status == was[r].request.status || r.status.Finished?) {
        DeliveredStatus(r, was[r], events);
      }
    }

    // The queues without those that stopped.
    lemma Removed(was: map<Request, System>, running0: seq<Request>, skipped0: seq<Request>, waiting0: seq<Request>,
                  ran: set<Request>, waited: set<Request>)
      requires running == Keep(running0, ran)
      requires waiting == Keep(waiting0, waited) && skippedWaiting == Keep(skipped0, waited)
      requires Once(multiset(running0) + multiset(skipped0) + multiset(waiting0)) && Sorted(was, ran, waited)
      requires forall r :: r in running0 ==> r in was && was[r].request.status.Running?
      requires forall r :: r in waiting0 || r in skipped0 ==> r in was && Waits(was[r].request.status)
      requires forall r :: r in was ==> r.Valid() && (r.status == was[r].request.status || r.status.Finished?)
      requires budgets.draftSlots >= 0 && budgets.tokenLimit >= 0 && budgets.inputLimit >= 0
      ensures Valid() && QueuesValid()
      ensures running == NotFinished(running0) && waiting == NotFinished(waiting0)
      ensures skippedWaiting == NotFinished(skipped0)
    {
      hide Inv, Once;
      KeptAreNotFinished(running0, ran);
      KeptAreNotFinished(waiting0, waited);
      KeptAreNotFinished(skipped0, waited);
      KeepMembers(running0, ran);
      KeepMembers(waiting0, waited);
      KeepMembers(skipped0, waited);
      KeepOnce(running0, skipped0, waiting0, ran, waited);
      OnceDistinct(running, multiset(skippedWaiting), multiset(waiting));
    }

    // update_from_output: every request of the batch takes the delivery of its oldest step, and those that stop leave
    // their queues.
    method UpdateFromOutput(ghost was: map<Request, System>, batch: seq<Delivery>) returns (outputs: seq<seq<int>>)
      requires Valid() && QueuesValid() && KnownAs(was) && AllAnswer(batch, was)
      modifies this`running, this`waiting, this`skippedWaiting, was.Keys
      ensures Valid() && QueuesValid()
      ensures EveryoneActed(was, DeliveryEvents(batch))
      ensures |outputs| == |batch| && forall i :: 0 <= i < |batch| ==> Emits(batch[i], was, outputs[i])
      ensures running == NotFinished(old(running)) && waiting == NotFinished(old(waiting))
      ensures skippedWaiting == NotFinished(old(skippedWaiting))
    {
      ghost var running0, skipped0, waiting0 := running, skippedWaiting, waiting;
      var ran, waited;
      hide Inv, AllAnswer, DeliveryEvents, Emits, Once, EveryoneActed, Sorted, QueuesValid, KnownAs, NotFinished, Keep;
      assert budgets.draftSlots >= 0 && budgets.tokenLimit >= 0 && budgets.inputLimit >= 0;
      QueuesDiffer(was);
      OnlyDeliveries(batch);
      hide Valid;
      ran, waited, outputs := DeliverBatch(was, batch);
      StillFine(was, DeliveryEvents(batch));
      running := Keep(running, ran);
      waiting, skippedWaiting := Keep(waiting, waited), Keep(skippedWaiting, waited);
      Removed(was, running0, skipped0, waiting0, ran, waited);
    }
  }
}
