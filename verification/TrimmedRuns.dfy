// The scheduler cannot tell that a worker verified fewer drafts than it was given: whole runs in which the workers trim
// their steps at will are runs of the machine without trimming.
module TrimmedRuns {
  import opened RequestMachine
  import opened RequestSafety

  // The step the workers run when only `verified` of its drafts are kept.
  function Trimmed(s: Step, verified: nat): Step {
    s.(numTokens := s.numTokens - (s.drafts - verified), drafts := verified)
  }

  // An action of the trimmed system; `verified` matters to deliveries only.
  datatype Action = Action(event: Event, verified: nat)

  predicate EnabledTrimmed(l: Limits, s: System, a: Action)
    requires l.mamba.Valid()
  {
    if a.event.Deliver?
    then s.steps != [] && a.verified <= s.steps[0].drafts
         && WorkerReturns(s.worker, Trimmed(s.steps[0], a.verified), a.event.generated)
    else Enabled(l, s, a.event)
  }

  // The scheduler books the whole step, the worker has run the trimmed one.
  function NextTrimmed(l: Limits, s: System, a: Action): System
    requires l.mamba.Valid() && EnabledTrimmed(l, s, a)
  {
    if a.event.Deliver?
    then
      var step := s.steps[0];
      System(UpdateFromOutput(l, s.request, step.numTokens, step.drafts, a.event.generated), s.steps[1..],
             Execute(s.worker, Trimmed(step, a.verified), |a.event.generated|))
    else Next(l, s, a.event)
  }

  function OutputTrimmed(l: Limits, s: System, a: Action): seq<Block>
    requires l.mamba.Valid() && EnabledTrimmed(l, s, a)
  {
    if a.event.Deliver? && !Dropped(s.request) && a.event.generated != []
    then [Block(Row(s.worker, Trimmed(s.steps[0], a.verified)).known,
                AppendUntilStop(l, s.request.tokens, a.event.generated).0)]
    else []
  }

  predicate EnabledTrimmedRun(l: Limits, s: System, run: seq<Action>)
    requires l.mamba.Valid()
    decreases |run|
  {
    run == [] || (EnabledTrimmed(l, s, run[0]) && EnabledTrimmedRun(l, NextTrimmed(l, s, run[0]), run[1..]))
  }

  function RunTrimmed(l: Limits, s: System, run: seq<Action>): System
    requires l.mamba.Valid() && EnabledTrimmedRun(l, s, run)
    decreases |run|
  {
    if run == [] then s else RunTrimmed(l, NextTrimmed(l, s, run[0]), run[1..])
  }

  function OutputsTrimmed(l: Limits, s: System, run: seq<Action>): seq<Block>
    requires l.mamba.Valid() && EnabledTrimmedRun(l, s, run)
    decreases |run|
  {
    if run == [] then [] else OutputTrimmed(l, s, run[0]) + OutputsTrimmed(l, NextTrimmed(l, s, run[0]), run[1..])
  }

  // --- One delivery ---------------------------------------------------------------------------------------

  lemma TrimmedSamples(w: Worker, s: Step, verified: nat)
    requires Fits(Row(w, s), s) && verified <= s.drafts
    ensures Samples(w, Trimmed(s, verified)) <==> Samples(w, s)
    ensures Trimmed(s, verified).numTokens - verified == s.numTokens - s.drafts
  {
  }

  // A delivery that is not dropped: an output of the trimmed step is an output the full step could have produced, and
  // it leaves the worker's row the same, since an unverified draft looks like a rejected one.
  lemma TrimmedDelivery(l: Limits, s: System, verified: nat, generated: seq<int>)
    requires Inv(l, s) && s.steps != [] && !Dropped(s.request)
    requires 0 <= verified <= s.steps[0].drafts
    requires WorkerReturns(s.worker, Trimmed(s.steps[0], verified), generated)
    ensures Enabled(l, s, Deliver(generated))
    ensures Execute(s.worker, Trimmed(s.steps[0], verified), |generated|) == Execute(s.worker, s.steps[0], |generated|)
    ensures Inv(l, Next(l, s, Deliver(generated)))
    ensures |Next(l, s, Deliver(generated)).request.tokens| <= |s.request.tokens| + 1 + verified
  {
    StaleAtHead(s.steps, s.request.preemptions);
    assert Chain(s.worker, s.steps);
    TrimmedSamples(s.worker, s.steps[0], verified);
    NextKeeps(l, s, Deliver(generated));
  }

  // --- Whole runs -----------------------------------------------------------------------------------------

  // Nothing the worker's row holds is looked at again: output is dropped until the next admission creates a new row.
  ghost predicate RowForgotten(s: System) {
    var r := s.request;
    var live := Live(s.steps, r.preemptions);
    || r.status.Finished?
    || (if r.status.Running? then live != [] && live[0].admission.Admitted?
        else r.dropStale || (s.steps != [] && s.steps[0].admission.Admitted?))
  }

  // The trimmed system beside the one without trimming. After dropped deliveries their rows may differ.
  ghost predicate Alike(t: System, s: System) {
    t.request == s.request && t.steps == s.steps && (t.worker == s.worker || RowForgotten(s))
  }

  // What happens in the system without trimming: the same, except that a dropped output may be another one.
  function FullEvent(s: System, a: Action): Event {
    if a.event.Deliver? && s.steps != [] && Dropped(s.request)
    then Deliver(if Samples(s.worker, s.steps[0]) then [0] else [])
    else a.event
  }

  // Both systems side by side: at every step the scheduler is in the same state and hands out the same block.
  ghost predicate Lockstep(l: Limits, t: System, s: System, run: seq<Action>, es: seq<Event>)
    requires l.mamba.Valid()
    decreases |run|
  {
    && |run| == |es| && t.request == s.request && t.steps == s.steps
    && (run == [] ||
        (&& EnabledTrimmed(l, t, run[0]) && Enabled(l, s, es[0])
         && (es[0] == run[0].event || (es[0].Deliver? && run[0].event.Deliver? && Dropped(s.request)))
         && OutputTrimmed(l, t, run[0]) == Output(l, s, es[0])
         && Lockstep(l, NextTrimmed(l, t, run[0]), Next(l, s, es[0]), run[1..], es[1..])))
  }

  lemma StepAlike(l: Limits, t: System, s: System, a: Action)
    requires Inv(l, s) && Alike(t, s) && EnabledTrimmed(l, t, a)
    ensures Enabled(l, s, FullEvent(s, a))
    ensures OutputTrimmed(l, t, a) == Output(l, s, FullEvent(s, a))
    ensures Alike(NextTrimmed(l, t, a), Next(l, s, FullEvent(s, a)))
  {
    if !a.event.Deliver? {
      OtherAlike(l, t, s, a.event);
    } else if Dropped(s.request) {
      DroppedAlike(l, t, s, a);
    } else {
      KeptAlike(l, t, s, a);
    }
  }

  lemma OtherAlike(l: Limits, t: System, s: System, e: Event)
    requires Inv(l, s) && Alike(t, s) && !e.Deliver? && Enabled(l, t, e)
    ensures Enabled(l, s, e)
    ensures Alike(Next(l, t, e), Next(l, s, e))
  {
    var r := s.request;
    var steps' := Next(l, s, e).steps;
    if !r.status.Finished? {
      StaleAtHead(s.steps, r.preemptions);
      if |steps'| > |s.steps| {
        SumsAppend(s.steps, steps'[|s.steps|], r.preemptions);
        assert s.steps + [steps'[|s.steps|]] == steps';
      }
    }
  }

  lemma DroppedAlike(l: Limits, t: System, s: System, a: Action)
    requires Inv(l, s) && Alike(t, s) && a.event.Deliver? && EnabledTrimmed(l, t, a) && Dropped(s.request)
    ensures Enabled(l, s, FullEvent(s, a))
    ensures Alike(NextTrimmed(l, t, a), Next(l, s, FullEvent(s, a)))
  {
  }

  lemma KeptAlike(l: Limits, t: System, s: System, a: Action)
    requires Inv(l, s) && Alike(t, s) && a.event.Deliver? && EnabledTrimmed(l, t, a) && !Dropped(s.request)
    ensures Enabled(l, s, a.event)
    ensures OutputTrimmed(l, t, a) == Output(l, s, a.event)
    ensures NextTrimmed(l, t, a) == Next(l, s, a.event)
  {
    StaleAtHead(s.steps, s.request.preemptions);
    TrimmedDelivery(l, s, a.verified, a.event.generated);
  }

  lemma {:induction false} RunsAlike(l: Limits, t: System, s: System, run: seq<Action>)
    requires Inv(l, s) && Alike(t, s) && EnabledTrimmedRun(l, t, run)
    ensures exists es :: Lockstep(l, t, s, run, es)
    decreases |run|
  {
    assert l.mamba.Valid();
    hide Inv, Enabled, EnabledTrimmed, Next, NextTrimmed, Output, OutputTrimmed, RowForgotten, Dropped;
    if run == [] {
      assert Lockstep(l, t, s, run, []);
    } else {
      var e := FullEvent(s, run[0]);
      StepAlike(l, t, s, run[0]);
      NextKeeps(l, s, e);
      RunsAlike(l, NextTrimmed(l, t, run[0]), Next(l, s, e), run[1..]);
      var es :| Lockstep(l, NextTrimmed(l, t, run[0]), Next(l, s, e), run[1..], es);
      assert ([e] + es)[1..] == es;
      assert Lockstep(l, t, s, run, [e] + es);
    }
  }

  lemma {:induction false} LockstepMeans(l: Limits, t: System, s: System, run: seq<Action>, es: seq<Event>)
    requires l.mamba.Valid() && Lockstep(l, t, s, run, es)
    ensures EnabledTrimmedRun(l, t, run) && EnabledRun(l, s, es)
    ensures RunTrimmed(l, t, run).request == Run(l, s, es).request
    ensures RunTrimmed(l, t, run).steps == Run(l, s, es).steps
    ensures OutputsTrimmed(l, t, run) == Outputs(l, s, es)
    decreases |run|
  {
    hide Enabled, EnabledTrimmed, Next, NextTrimmed, Output, OutputTrimmed, Dropped;
    if run != [] {
      LockstepMeans(l, NextTrimmed(l, t, run[0]), Next(l, s, es[0]), run[1..], es[1..]);
    }
  }

  // Every run in which the workers trim their steps, each by any amount, is in lockstep with a run without trimming;
  // they differ only in outputs that are dropped.
  lemma TrimmingIsInvisible(l: Limits, prompt: seq<int>, run: seq<Action>)
    requires l.Valid() && |prompt| == l.numPromptTokens && EnabledTrimmedRun(l, Initial(prompt), run)
    ensures exists es :: Lockstep(l, Initial(prompt), Initial(prompt), run, es)
  {
    InitialInv(l, prompt);
    RunsAlike(l, Initial(prompt), Initial(prompt), run);
  }

  // So the client still gets every token once and in order.
  lemma TrimmedExactlyOnce(l: Limits, prompt: seq<int>, run: seq<Action>)
    requires l.Valid() && |prompt| == l.numPromptTokens && EnabledTrimmedRun(l, Initial(prompt), run)
    ensures Contiguous(OutputsTrimmed(l, Initial(prompt), run), |prompt|)
    ensures RunTrimmed(l, Initial(prompt), run).request.tokens
         == prompt + Flatten(OutputsTrimmed(l, Initial(prompt), run))
  {
    InitialInv(l, prompt);
    TrimmingIsInvisible(l, prompt, run);
    var es :| Lockstep(l, Initial(prompt), Initial(prompt), run, es);
    LockstepMeans(l, Initial(prompt), Initial(prompt), run, es);
    ExactlyOnce(l, Initial(prompt), es);
  }
}
