// A request as the scheduler keeps it: an object whose counters are updated in place. Each method is one piece of a
// scheduler method, restricted to this request, and is proved to do what RequestMachine says.
module AsyncRequest {
  import opened Arithmetic
  import opened RequestMachine
  import opened RequestSafety

  class Request {
    const limits: Limits
    const priority: int
    const arrivalTime: int

    var status: Status
    var allTokenIds: seq<int>
    var numComputedTokens: int
    var numOutputPlaceholders: int
    var numInFlightTokens: int
    var numStaleOutputTokens: int
    var dropStaleOutput: bool
    var specTokenIds: seq<int>
    var isPrefillChunk: bool
    var numPreemptions: int
    var sharedPrefixBoundary: nat
    var nextDecodeEligibleStep: int

    // The steps scheduled and not yet processed, and the worker's row when it starts on the first of them.
    ghost var steps: seq<Step>
    ghost var worker: Worker

    constructor (limits: Limits, prompt: seq<int>, priority: int, arrivalTime: int)
      requires limits.Valid() && |prompt| == limits.numPromptTokens
      ensures Sys() == Initial(prompt) && Valid() && this.limits == limits
    {
      this.limits, this.priority, this.arrivalTime := limits, priority, arrivalTime;
      status, allTokenIds, numComputedTokens, numOutputPlaceholders := Waiting, prompt, 0, 0;
      numInFlightTokens, numStaleOutputTokens, dropStaleOutput, specTokenIds := 0, 0, false, [];
      isPrefillChunk, numPreemptions, sharedPrefixBoundary, nextDecodeEligibleStep := false, 0, 0, 0;
      steps, worker := [], Worker(0, 0, 0);
      new;
      InitialInv(limits, prompt);
    }

    function View(): RequestState
      reads this
    {
      RequestState(status, allTokenIds, numComputedTokens, numOutputPlaceholders, numInFlightTokens,
                   numStaleOutputTokens, dropStaleOutput, specTokenIds, isPrefillChunk, numPreemptions,
                   sharedPrefixBoundary)
    }

    ghost function Sys(): System
      reads this
    {
      System(View(), steps, worker)
    }

    ghost predicate Valid()
      reads this
    {
      Inv(limits, Sys())
    }

    // Lexicographic on (priority, arrival_time).
    predicate Before(other: Request) {
      priority < other.priority || (priority == other.priority && arrivalTime < other.arrivalTime)
    }

    // The running loop's num_new_tokens; `allowance` is min(token_budget, input_budget - draft_slots).
    method NumNewTokensWithin(allowance: int) returns (n: int)
      requires limits.mamba.Valid()
      ensures n == NumNewTokens(limits, View(), allowance)
    {
      n := |allTokenIds| + |specTokenIds| + numOutputPlaceholders - numComputedTokens;
      if 0 < limits.mamba.longPrefillTokenThreshold < n {
        n := limits.mamba.longPrefillTokenThreshold;
      }
      n := Min(n, allowance);
      n := Min(n, limits.maxModelLen - numComputedTokens - 1);
      n := AlignChunk(limits, View(), numComputedTokens, n);
    }

    // Takes the drafts that fit the scheduled tokens and clears the list.
    method TakeDrafts(n: int) returns (drafts: int)
      modifies this`specTokenIds
      ensures drafts == old(ScheduledDrafts(View(), n))
      ensures View() == old(View()).(spec := [])
    {
      drafts := 0;
      if specTokenIds != [] {
        var scheduledSpecTokens := n + numComputedTokens - |allTokenIds| - numOutputPlaceholders;
        if scheduledSpecTokens > 0 {
          drafts := Min(|specTokenIds|, scheduledSpecTokens);
        }
        specTokenIds := [];
      }
    }

    // Both _update_after_schedule methods for this request. The new step joins the FIFO.
    method AfterSchedule(n: int, drafts: int, k: nat, eligibleStep: int, ghost admission: Admission)
      modifies this
      ensures View() == UpdateAfterSchedule(old(View()), n, drafts, k)
      ensures steps == old(steps) + [Step(n, drafts, !isPrefillChunk, numPreemptions, admission)]
      ensures worker == old(worker)
      ensures nextDecodeEligibleStep == if isPrefillChunk then old(nextDecodeEligibleStep) else eligibleStep
    {
      numComputedTokens := numComputedTokens + n;
      numInFlightTokens := numInFlightTokens + n;
      isPrefillChunk := numComputedTokens < |allTokenIds| + numOutputPlaceholders;
      if !isPrefillChunk {
        numOutputPlaceholders := numOutputPlaceholders + 1 + drafts;
        specTokenIds := Placeholders(k);
        nextDecodeEligibleStep := eligibleStep;
      }
      steps := steps + [Step(n, drafts, !isPrefillChunk, numPreemptions, admission)];
    }

    method MarkPreempted(drop: bool)
      modifies this
      ensures View() == Preempt(old(View()), drop)
      ensures steps == old(steps) && worker == old(worker) && nextDecodeEligibleStep == old(nextDecodeEligibleStep)
    {
      status := Status.Preempted;
      numComputedTokens := 0;
      if specTokenIds != [] {
        specTokenIds := [];
      }
      dropStaleOutput := drop || (dropStaleOutput && numStaleOutputTokens > 0);
      numStaleOutputTokens := numInFlightTokens;
      numOutputPlaceholders := 0;
      numPreemptions := numPreemptions + 1;
    }

    // The waiting loop's num_new_tokens.
    method NumAdmittedWithin(computed: nat, allowance: int) returns (n: int)
      requires limits.mamba.Valid()
      ensures n == NumAdmittedTokens(limits, View(), computed, sharedPrefixBoundary, allowance)
    {
      n := |allTokenIds| - computed;
      if 0 < limits.mamba.longPrefillTokenThreshold < n {
        n := limits.mamba.longPrefillTokenThreshold;
      }
      n := Min(n, allowance);
      n := AlignChunk(limits, View(), computed, n);
    }

    // Tokens sampled before the preemption are still to be delivered, so the token list is not final yet.
    predicate MustWait()
      reads this
    {
      numStaleOutputTokens > 0 && !dropStaleOutput
    }

    // The prefix cache lookup records a shared-prefix junction whether or not the request is then admitted.
    method LookUp(junction: nat)
      requires Valid() && (status.Waiting? || status.Preempted?)
      modifies this`sharedPrefixBoundary
      ensures Valid() && Sys() == Next(limits, old(Sys()), CacheLookup(junction))
    {
      LookupKeeps(limits, Sys(), junction);
      sharedPrefixBoundary := junction;
    }

    // The admission of a request that the prefix cache knows `computed` tokens of, with the update that follows it.
    method Resume(computed: nat, allowance: int, n: int, k: nat, eligibleStep: int)
      requires Valid() && (status.Waiting? || status.Preempted?) && !MustWait()
      requires computed < |allTokenIds| && 0 < allowance
      requires n == NumAdmittedTokens(limits, View(), computed, sharedPrefixBoundary, allowance) && n != 0
      modifies this
      ensures Valid() && status.Running?
      ensures Enabled(limits, old(Sys()), RequestMachine.Resume(computed, old(sharedPrefixBoundary), allowance, k))
      ensures Sys() == Next(limits, old(Sys()), RequestMachine.Resume(computed, old(sharedPrefixBoundary), allowance, k))
      ensures nextDecodeEligibleStep == if isPrefillChunk then old(nextDecodeEligibleStep) else eligibleStep
    {
      ResumeKeeps(limits, Sys(), computed, sharedPrefixBoundary, allowance, k);
      hide Inv, NumAdmittedTokens;
      ghost var known := |allTokenIds|;
      status := Running;
      numComputedTokens := computed;
      AfterSchedule(n, 0, k, eligibleStep, Admitted(known, computed));
    }

    // _update_request_with_output: append token by token, stop at the first that ends the request.
    method UpdateRequestWithOutput(generated: seq<int>, isStale: bool) returns (kept: seq<int>, stopped: bool)
      modifies this`allTokenIds, this`numOutputPlaceholders
      ensures (kept, stopped) == AppendUntilStop(limits, old(allTokenIds), generated)
      ensures View() == old(View()).(tokens := old(allTokenIds) + kept,
                placeholders := if isStale then old(numOutputPlaceholders) else old(numOutputPlaceholders) - |kept|)
    {
      kept, stopped := [], false;
      ghost var start := allTokenIds;
      AppendStart(limits, start, generated);
      hide AppendUntilStop, AppendAfter;
      while |kept| < |generated| && !stopped
        invariant |kept| <= |generated| && kept == generated[..|kept|]
        invariant allTokenIds == start + kept
        invariant AppendUntilStop(limits, start, generated)
               == if stopped then (kept, true) else AppendAfter(limits, start, generated, |kept|)
        decreases |generated| - |kept|
        modifies this`allTokenIds
      {
        AppendStep(limits, start, generated, |kept|);
        allTokenIds := allTokenIds + [generated[|kept|]];
        kept := kept + [generated[|kept|]];
        stopped := CheckStop(limits, allTokenIds);
      }
      AppendEnd(limits, start, generated);
      assert generated[..|generated|] == generated;
      if !isStale {
        numOutputPlaceholders := numOutputPlaceholders - |kept|;
      }
    }

    // The step's tokens leave the in-flight count, and the stale share in lockstep.
    method DrainStep(numTokens: int) returns (isStale: bool)
      requires numStaleOutputTokens > 0 ==> numStaleOutputTokens >= numTokens
      modifies this`numInFlightTokens, this`numStaleOutputTokens
      ensures isStale == (old(numStaleOutputTokens) > 0)
      ensures View() == old(View()).(inFlight := old(numInFlightTokens) - numTokens,
                stale := if isStale then old(numStaleOutputTokens) - numTokens else old(numStaleOutputTokens))
    {
      numInFlightTokens := numInFlightTokens - numTokens;
      isStale := false;
      if numStaleOutputTokens > 0 {
        isStale := true;
        numStaleOutputTokens := numStaleOutputTokens - numTokens;
        assert numStaleOutputTokens >= 0;
      }
    }

    method RollBackRejected(rejected: int)
      modifies this`numComputedTokens, this`numOutputPlaceholders
      ensures View() == RollBack(old(View()), rejected)
    {
      if numComputedTokens > 0 {
        numComputedTokens := numComputedTokens - rejected;
      }
      if numOutputPlaceholders > 0 {
        numOutputPlaceholders := numOutputPlaceholders - rejected;
      }
    }

    // The request's part of update_from_output on the counters.
    method ApplyOutput(numTokens: int, drafts: int, generated: seq<int>) returns (delivered: seq<int>)
      requires !status.Finished?
      requires numStaleOutputTokens > 0 ==> numStaleOutputTokens >= numTokens
      requires numStaleOutputTokens <= 0 ==>
        RequestMachine.UpdateFromOutput(limits, View(), numTokens, drafts, generated).placeholders >= 0
      modifies this`status, this`allTokenIds, this`numComputedTokens, this`numOutputPlaceholders
      modifies this`numInFlightTokens, this`numStaleOutputTokens
      ensures View() == RequestMachine.UpdateFromOutput(limits, old(View()), numTokens, drafts, generated)
      ensures delivered == if old(Dropped(View())) then [] else AppendUntilStop(limits, old(allTokenIds), generated).0
    {
      hide AppendUntilStop;
      delivered := [];
      var isStale := DrainStep(numTokens);
      if isStale && dropStaleOutput {
        return;
      }
      if drafts > 0 && generated != [] && !isStale {
        RollBackRejected(drafts - Max(|generated| - 1, 0));
      }
      if generated != [] {
        var stopped;
        delivered, stopped := UpdateRequestWithOutput(generated, isStale);
        assert !isStale ==> numOutputPlaceholders >= 0;
        if stopped {
          status := Finished;
        }
      }
    }

    // update_from_output for this request's step at the head of the FIFO, with what the scheduler output recorded for
    // it.
    method UpdateFromOutput(numTokens: int, drafts: int, generated: seq<int>) returns (delivered: seq<int>)
      requires Valid() && Enabled(limits, Sys(), Deliver(generated))
      requires numTokens == steps[0].numTokens && drafts == steps[0].drafts
      modifies this`status, this`allTokenIds, this`numComputedTokens, this`numOutputPlaceholders
      modifies this`numInFlightTokens, this`numStaleOutputTokens, this`steps, this`worker
      ensures Valid() && Sys() == Next(limits, old(Sys()), Deliver(generated))
      ensures var out := Output(limits, old(Sys()), Deliver(generated));
        delivered == if out == [] then [] else out[0].tokens
    {
      NextKeeps(limits, Sys(), Deliver(generated));
      delivered := [];
      if status != Finished {
        CountersSuffice(limits, Sys(), generated);
        hide Inv, RequestMachine.UpdateFromOutput;
        delivered := ApplyOutput(numTokens, drafts, generated);
      }
      worker := Execute(worker, steps[0], |generated|);
      steps := steps[1..];
    }
  }

  // AppendUntilStop after the first i tokens were appended without a stop.
  ghost function AppendAfter(l: Limits, start: seq<int>, generated: seq<int>, i: nat): (seq<int>, bool)
    requires i <= |generated|
  {
    var rest := AppendUntilStop(l, start + generated[..i], generated[i..]);
    (generated[..i] + rest.0, rest.1)
  }

  lemma AppendStart(l: Limits, start: seq<int>, generated: seq<int>)
    ensures AppendUntilStop(l, start, generated) == AppendAfter(l, start, generated, 0)
  {
    assert start + generated[..0] == start && generated[0..] == generated;
    var rest := AppendUntilStop(l, start, generated);
    assert generated[..0] + rest.0 == rest.0;
  }

  lemma AppendStep(l: Limits, start: seq<int>, generated: seq<int>, i: nat)
    requires i < |generated|
    ensures generated[..i] + [generated[i]] == generated[..i + 1]
    ensures start + generated[..i] + [generated[i]] == start + generated[..i + 1]
    ensures AppendAfter(l, start, generated, i)
         == if CheckStop(l, start + generated[..i + 1]) then (generated[..i + 1], true)
            else AppendAfter(l, start, generated, i + 1)
  {
    assert start + generated[..i] + [generated[i]] == start + generated[..i + 1];
    assert generated[i..][1..] == generated[i + 1..];
    var rest := AppendUntilStop(l, start + generated[..i + 1], generated[i + 1..]);
    assert generated[..i] + ([generated[i]] + rest.0) == generated[..i + 1] + rest.0;
  }

  lemma AppendEnd(l: Limits, start: seq<int>, generated: seq<int>)
    ensures AppendAfter(l, start, generated, |generated|) == (generated, false)
  {
    assert generated[|generated|..] == [] && generated[..|generated|] == generated;
    assert generated + [] == generated;
  }
}
