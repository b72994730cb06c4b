// The invariant of RequestMachine and what it gives over every run: exact optimistic accounting, exact stale
// classification, exactly-once in-order delivery, and progress.
module RequestSafety {
  import opened Arithmetic
  import opened MambaSplit
  import opened RequestMachine

  // --- Sums over the in-flight queue --------------------------------------------------------------

  function TokensIn(q: seq<Step>): int {
    if q == [] then 0 else q[0].numTokens + TokensIn(q[1..])
  }

  // Tokens of the steps scheduled before the last preemption.
  function StaleIn(q: seq<Step>, epoch: int): int {
    if q == [] then 0
    else (if q[0].epoch != epoch then q[0].numTokens else 0) + StaleIn(q[1..], epoch)
  }

  // One token and the drafts of every sampling step scheduled since the last preemption.
  function PromisedIn(q: seq<Step>, epoch: int): int {
    if q == [] then 0
    else (if q[0].epoch == epoch && q[0].samples then 1 + q[0].drafts else 0) + PromisedIn(q[1..], epoch)
  }

  // The steps scheduled since the last preemption; the others are a prefix (Ordered).
  function Live(q: seq<Step>, epoch: int): seq<Step> {
    if q == [] || q[0].epoch == epoch then q else Live(q[1..], epoch)
  }

  ghost predicate Ordered(q: seq<Step>, epoch: int) {
    && (forall i :: 0 <= i < |q| ==> q[i].epoch <= epoch && q[i].numTokens >= 1 && q[i].drafts >= 0)
    && (forall i, j :: 0 <= i < j < |q| ==> q[i].epoch <= q[j].epoch)
  }

  // --- Optimistic execution: every draft of every step in flight is accepted ----------------------

  function Ahead(w: Worker, s: Step): Worker {
    Execute(w, s, 1 + s.drafts)
  }

  function End(w: Worker, q: seq<Step>): Worker
    decreases |q|
  {
    if q == [] then w else End(Ahead(w, q[0]), q[1..])
  }

  // The tokens the worker knows when it starts on the queue.
  function KnownAtHead(w: Worker, q: seq<Step>): int {
    if q == [] then w.known else Row(w, q[0]).known
  }

  // A prefill chunk of a fresh row, or a decode step that starts at the last known token.
  predicate Fits(row: Worker, s: Step) {
    && s.numTokens >= 1 && s.drafts >= 0
    && if row.known == row.prefillLen
       then row.computed + s.numTokens <= row.prefillLen && s.drafts == 0
            && s.samples == (row.computed + s.numTokens == row.prefillLen)
       else row.known > row.prefillLen && row.computed == row.known - 1 && s.numTokens == 1 + s.drafts && s.samples
  }

  // The queue is what the worker expects: only its first step may create the row.
  predicate Chain(w: Worker, q: seq<Step>)
    decreases |q|
  {
    q == [] ||
    (Fits(Row(w, q[0]), q[0]) && (|q| > 1 ==> q[1].admission.Resident?) && Chain(Ahead(w, q[0]), q[1..]))
  }

  ghost predicate Inv(l: Limits, s: System) {
    l.Valid() && WithinLimits(l, s.request.tokens) &&
    (s.request.status.Finished? || (Unfinished(l, s.request) && Counted(s) && Matched(l, s)))
  }

  ghost predicate Unfinished(l: Limits, r: RequestState) {
    && l.numPromptTokens <= |r.tokens| < l.maxModelLen
    && |r.tokens| - l.numPromptTokens < l.maxTokens
    && 0 <= r.numComputed < l.maxModelLen
  }

  // The counters are exact sums over the queue.
  ghost predicate Counted(s: System) {
    var r := s.request;
    && Ordered(s.steps, r.preemptions)
    && r.inFlight == TokensIn(s.steps)
    && r.stale == StaleIn(s.steps, r.preemptions)
    && r.placeholders == PromisedIn(s.steps, r.preemptions)
  }

  // The counters agree with what the worker will do.
  ghost predicate Matched(l: Limits, s: System) {
    if s.request.status.Running? then MatchedRunning(l, s) else MatchedIdle(s)
  }

  ghost predicate MatchedRunning(l: Limits, s: System) {
    var r := s.request;
    var live := Live(s.steps, r.preemptions);
    var end := End(s.worker, live);
    && (r.stale > 0 ==> r.dropStale && live != [] && live[0].admission.Admitted?)
    && Chain(s.worker, live)
    && KnownAtHead(s.worker, live) == |r.tokens|
    && end.computed == r.numComputed && end.known == |r.tokens| + r.placeholders
    && if r.prefillChunk
       then r.spec == [] && r.placeholders == 0 && end.known == end.prefillLen && r.numComputed < |r.tokens|
       else end.known > end.prefillLen >= l.numPromptTokens && r.numComputed == |r.tokens| + r.placeholders - 1
  }

  ghost predicate MatchedIdle(s: System) {
    var r := s.request;
    && r.numComputed == 0 && r.spec == [] && r.stale == r.inFlight
    && (!r.dropStale ==> Chain(s.worker, s.steps) && (s.steps != [] ==> KnownAtHead(s.worker, s.steps) == |r.tokens|))
  }

  // --- Queue lemmas -------------------------------------------------------------------------------

  lemma {:induction false} SumsAppend(q: seq<Step>, s: Step, epoch: int)
    ensures TokensIn(q + [s]) == TokensIn(q) + s.numTokens
    ensures StaleIn(q + [s], epoch) == StaleIn(q, epoch) + if s.epoch != epoch then s.numTokens else 0
    ensures PromisedIn(q + [s], epoch)
         == PromisedIn(q, epoch) + if s.epoch == epoch && s.samples then 1 + s.drafts else 0
    ensures s.epoch == epoch ==> Live(q + [s], epoch) == Live(q, epoch) + [s]
  {
    if q == [] {
      assert q + [s] == [s];
    } else {
      assert (q + [s])[1..] == q[1..] + [s];
      SumsAppend(q[1..], s, epoch);
    }
  }

  lemma {:induction false} ChainAppend(w: Worker, q: seq<Step>, s: Step)
    requires Chain(w, q) && Fits(Row(End(w, q), s), s)
    requires q != [] ==> s.admission.Resident?
    decreases |q|
    ensures Chain(w, q + [s])
    ensures End(w, q + [s]) == Ahead(End(w, q), s)
  {
    if q == [] {
      assert q + [s] == [s];
    } else {
      assert (q + [s])[1..] == q[1..] + [s];
      ChainAppend(Ahead(w, q[0]), q[1..], s);
    }
  }

  // After a preemption everything in flight is stale.
  lemma {:induction false} AllStale(q: seq<Step>, epoch: int)
    requires forall i :: 0 <= i < |q| ==> q[i].epoch < epoch
    ensures StaleIn(q, epoch) == TokensIn(q) && PromisedIn(q, epoch) == 0 && Live(q, epoch) == []
  {
    if q != [] {
      AllStale(q[1..], epoch);
    }
  }

  // The stale counter is positive exactly when the step at the head predates the last preemption.
  lemma {:induction false} StaleAtHead(q: seq<Step>, epoch: int)
    requires Ordered(q, epoch)
    ensures 0 <= StaleIn(q, epoch) <= TokensIn(q)
    ensures StaleIn(q, epoch) > 0 <==> q != [] && q[0].epoch < epoch
    ensures StaleIn(q, epoch) == 0 ==> Live(q, epoch) == q
    ensures StaleIn(q, epoch) == TokensIn(q) <==> Live(q, epoch) == []
    ensures TokensIn(q) == 0 <==> q == []
  {
    if q != [] {
      StaleAtHead(q[1..], epoch);
    }
  }

  // The stale steps are a FIFO prefix of the queue, the live ones the rest of it.
  lemma {:induction false} StalePrefix(q: seq<Step>, epoch: int)
    requires Ordered(q, epoch)
    ensures |Live(q, epoch)| <= |q|
    ensures var k := |q| - |Live(q, epoch)|;
      && Live(q, epoch) == q[k..] && StaleIn(q, epoch) == TokensIn(q[..k])
      && (forall i :: 0 <= i < k ==> q[i].epoch < epoch) && (forall i :: k <= i < |q| ==> q[i].epoch == epoch)
  {
    if q != [] && q[0].epoch < epoch {
      var rest := q[1..];
      StalePrefix(rest, epoch);
      var k := |rest| - |Live(rest, epoch)|;
      assert q[..k + 1][1..] == rest[..k];
      assert forall i :: 1 <= i < |q| ==> q[i] == rest[i - 1];
    } else {
      StaleAtHead(q, epoch);
      assert q[..0] == [];
    }
  }

  // A rejection shifts the whole optimistic execution down and changes no decision in it.
  lemma {:induction false} Shift(w: Worker, less: int, q: seq<Step>)
    requires Chain(w, q) && (q != [] ==> q[0].admission.Resident?)
    requires w.known - less > w.prefillLen && less >= 0 && w.computed == w.known - 1
    decreases |q|
    ensures var w' := w.(known := w.known - less, computed := w.computed - less);
      && Chain(w', q)
      && End(w', q) == End(w, q).(known := End(w, q).known - less, computed := End(w, q).computed - less)
  {
    if q != [] {
      var w' := w.(known := w.known - less, computed := w.computed - less);
      assert Ahead(w', q[0]) == Ahead(w, q[0]).(known := Ahead(w, q[0]).known - less,
                                                computed := Ahead(w, q[0]).computed - less);
      Shift(Ahead(w, q[0]), less, q[1..]);
    }
  }

  lemma {:induction false} SameLength(w: Worker, q: seq<Step>)
    requires Chain(w, q) && (q != [] ==> q[0].admission.Resident?)
    ensures End(w, q).prefillLen == w.prefillLen
    decreases |q|
  {
    if q != [] {
      SameLength(Ahead(w, q[0]), q[1..]);
    }
  }

  // Executing the head of an expected queue leaves an expected queue, lower by the rejected drafts.
  lemma {:induction false} ExecuteHead(w: Worker, q: seq<Step>, generated: seq<int>)
    requires q != [] && Chain(w, q) && WorkerReturns(w, q[0], generated)
    ensures Samples(w, q[0]) == q[0].samples
    ensures q[0].samples ==> Execute(w, q[0], |generated|).known > End(w, q).prefillLen
    ensures KnownAtHead(Execute(w, q[0], |generated|), q[1..]) == Execute(w, q[0], |generated|).known
    ensures var w' := Execute(w, q[0], |generated|);
      var rejected := if q[0].samples then 1 + q[0].drafts - |generated| else 0;
      && Chain(w', q[1..])
      && KnownAtHead(w', q[1..]) == KnownAtHead(w, q) + |generated|
      && End(w', q[1..]) == End(w, q).(known := End(w, q).known - rejected, computed := End(w, q).computed - rejected)
  {
    SameLength(Ahead(w, q[0]), q[1..]);
    if Samples(w, q[0]) {
      Shift(Ahead(w, q[0]), 1 + q[0].drafts - |generated|, q[1..]);
    }
  }

  lemma {:induction false} PromisedNonnegative(q: seq<Step>, epoch: int)
    requires Ordered(q, epoch)
    ensures PromisedIn(q, epoch) >= 0
  {
    if q != [] {
      PromisedNonnegative(q[1..], epoch);
    }
  }

  // --- Every action keeps the invariant -----------------------------------------------------------

  // What the running loop schedules for a request that is not prefilling is one token and its drafts.
  lemma ScheduledShape(l: Limits, s: System, allowance: int)
    requires Inv(l, s) && s.request.status.Running? && 0 < allowance
    ensures var r := s.request;
      var n := NumNewTokens(l, r, allowance);
      && 0 <= n <= allowance && r.numComputed + n < l.maxModelLen
      && (r.prefillChunk ==> r.numComputed + n <= |r.tokens| && ScheduledDrafts(r, n) == 0)
      && (!r.prefillChunk ==> n <= 1 + |r.spec| && (n > 0 ==> ScheduledDrafts(r, n) == n - 1))
  {
    PromisedNonnegative(s.steps, s.request.preemptions);
  }

  // Before it is aligned, the count is the least of four: what the request still wants, the chunk limit if there is one,
  // what it is offered, and what the model length leaves.
  lemma LeastOfFour(l: Limits, r: RequestState, allowance: int) returns (n: int)
    requires l.mamba.Valid()
    ensures var wanted, limit, room :=
        |r.tokens| + |r.spec| + r.placeholders - r.numComputed, l.mamba.longPrefillTokenThreshold,
        l.maxModelLen - r.numComputed - 1;
      && n <= wanted && (0 < limit ==> n <= limit) && n <= allowance && n <= room
      && (n == wanted || n == allowance || n == room || (0 < limit && n == limit))
    ensures NumNewTokens(l, r, allowance) <= n
    ensures !l.mambaAligned || r.numComputed >= Max(l.numPromptTokens, |r.tokens| - 1) ==>
      NumNewTokens(l, r, allowance) == n
    ensures l.mambaAligned && r.numComputed >= 0 && n >= 0 ==>
      NumNewTokens(l, r, allowance)
      == Split(l.mamba, Prefill(l.numPromptTokens, |r.tokens|, r.junction), r.numComputed, n)
  {
    var wanted := |r.tokens| + |r.spec| + r.placeholders - r.numComputed;
    var capped := if 0 < l.mamba.longPrefillTokenThreshold < wanted then l.mamba.longPrefillTokenThreshold else wanted;
    n := Min(Min(capped, allowance), l.maxModelLen - r.numComputed - 1);
  }

  // The same for a request that resumes; the model length needs no mention.
  lemma LeastOfThree(l: Limits, r: RequestState, computed: nat, junction: nat, allowance: int) returns (n: int)
    requires l.mamba.Valid()
    ensures var wanted, limit := |r.tokens| - computed, l.mamba.longPrefillTokenThreshold;
      && n <= wanted && (0 < limit ==> n <= limit) && n <= allowance
      && (n == wanted || n == allowance || (0 < limit && n == limit))
    ensures !l.mambaAligned ==> NumAdmittedTokens(l, r, computed, junction, allowance) == n
    ensures l.mambaAligned && n >= 0 ==>
      NumAdmittedTokens(l, r, computed, junction, allowance)
      == Split(l.mamba, Prefill(l.numPromptTokens, |r.tokens|, junction), computed, n)
  {
    var wanted := |r.tokens| - computed;
    var capped := if 0 < l.mamba.longPrefillTokenThreshold < wanted then l.mamba.longPrefillTokenThreshold else wanted;
    n := Min(capped, allowance);
  }

  // A request that sampled with a draft budget of k asks for 1 + k tokens next, the last k of them drafts, whatever was
  // delivered in between, and is given them all when nothing limits it.
  lemma BudgetIsVerified(l: Limits, s: System, e: Event, between: seq<Event>, allowance: int)
    requires Inv(l, s) && Enabled(l, s, e) && (e.Schedule? || e.Resume?) && !Next(l, s, e).request.prefillChunk
    requires EnabledRun(l, Next(l, s, e), between) && forall d :: d in between ==> d.Deliver?
    requires var k, r := if e.Schedule? then e.k else e.nextK, Run(l, Next(l, s, e), between).request;
      && !r.status.Finished? && allowance >= 1 + k && r.numComputed + 1 + k < l.maxModelLen
      && (0 < l.mamba.longPrefillTokenThreshold ==> l.mamba.longPrefillTokenThreshold >= 1 + k)
    ensures var k, r := if e.Schedule? then e.k else e.nextK, Run(l, Next(l, s, e), between).request;
      NumNewTokens(l, r, allowance) == 1 + k && ScheduledDrafts(r, 1 + k) == k
  {
    var s' := Next(l, s, e);
    NextKeeps(l, s, e);
    SpecStays(l, s', between);
    RunKeeps(l, s', between);
    hide Inv, Next, Enabled;
    AllWanted(l, Run(l, s', between), allowance);
  }

  lemma AllWanted(l: Limits, s: System, allowance: int)
    requires Inv(l, s) && s.request.status.Running? && !s.request.prefillChunk
    requires var k := |s.request.spec|;
      && allowance >= 1 + k && s.request.numComputed + 1 + k < l.maxModelLen
      && (0 < l.mamba.longPrefillTokenThreshold ==> l.mamba.longPrefillTokenThreshold >= 1 + k)
    ensures var k := |s.request.spec|;
      NumNewTokens(l, s.request, allowance) == 1 + k && ScheduledDrafts(s.request, 1 + k) == k
  {
    PromisedNonnegative(s.steps, s.request.preemptions);
  }

  // Deliveries leave the budget alone.
  lemma {:induction false} SpecStays(l: Limits, s: System, es: seq<Event>)
    requires l.mamba.Valid() && EnabledRun(l, s, es) && forall d :: d in es ==> d.Deliver?
    ensures var r := Run(l, s, es).request;
      && r.spec == s.request.spec && r.prefillChunk == s.request.prefillChunk
      && (r.status == s.request.status || r.status.Finished?)
    decreases |es|
  {
    if es != [] {
      assert es[0] in es;
      SpecStays(l, Next(l, s, es[0]), es[1..]);
    }
  }

  lemma ScheduleKeeps(l: Limits, s: System, allowance: int, k: nat)
    requires Inv(l, s) && Enabled(l, s, Schedule(allowance, k))
    ensures Inv(l, Next(l, s, Schedule(allowance, k)))
  {
    var r := s.request;
    var n, s' := NumNewTokens(l, r, allowance), Next(l, s, Schedule(allowance, k));
    ScheduledShape(l, s, allowance);
    PromisedNonnegative(s.steps, r.preemptions);
    hide NumNewTokens, Inv, Counted, MatchedRunning, Matched, AppendUntilStop;
    assert s'.steps == s.steps + [Step(n, ScheduledDrafts(r, n), !s'.request.prefillChunk, r.preemptions, Resident)];
    OneMoreStep(l, s, s', s'.steps[|s.steps|]);
  }

  // A prefill chunk or a decode step at the end of the queue keeps the counters exact.
  lemma OneMoreStep(l: Limits, s: System, s': System, step: Step)
    requires Inv(l, s) && s.request.status.Running?
    requires s'.steps == s.steps + [step] && s'.worker == s.worker
    requires var r, r' := s.request, s'.request;
      var samples := r.numComputed + step.numTokens >= |r.tokens| + r.placeholders;
      && step == Step(step.numTokens, step.drafts, samples, r.preemptions, Resident)
      && step.numTokens > 0 && step.drafts >= 0
      && (if r.prefillChunk then r.numComputed + step.numTokens <= |r.tokens| && step.drafts == 0
          else step.numTokens == 1 + step.drafts)
      && r' == r.(numComputed := r.numComputed + step.numTokens, inFlight := r.inFlight + step.numTokens,
                  prefillChunk := !samples, spec := r'.spec,
                  placeholders := if samples then r.placeholders + 1 + step.drafts else r.placeholders)
      && r'.numComputed < l.maxModelLen && (!samples ==> r'.spec == [])
    ensures Inv(l, s')
  {
    hide CheckStop, Chain;
    var epoch := s.request.preemptions;
    var live := Live(s.steps, epoch);
    SumsAppend(s.steps, step, epoch);
    ChainAppend(s.worker, live, step);
    assert Live(s'.steps, epoch) == live + [step];
    assert KnownAtHead(s.worker, live + [step]) == |s.request.tokens|;
    assert Counted(s');
    assert MatchedRunning(l, s');
  }

  // A resumed request starts over on a fresh row, behind nothing but stale steps.
  lemma ResumedShape(l: Limits, s: System, computed: int, junction: nat, allowance: int, k: nat)
    requires Inv(l, s) && Enabled(l, s, Resume(computed, junction, allowance, k))
    ensures var r := s.request;
      var s' := Next(l, s, Resume(computed, junction, allowance, k));
      var n := NumAdmittedTokens(l, r, computed, junction, allowance);
      var chunk := computed + n < |r.tokens|;
      var step := Step(n, 0, !chunk, r.preemptions, Admitted(|r.tokens|, computed));
      && 0 < n <= |r.tokens| - computed
      && (r.status.Waiting? || r.status.Preempted?) && (r.stale > 0 ==> r.dropStale) && r.placeholders == 0
      && s'.steps == s.steps + [step] && s'.worker == s.worker
      && s'.request == r.(status := Running, junction := junction, numComputed := computed + n,
                          inFlight := r.inFlight + n, prefillChunk := chunk,
                          placeholders := if chunk then 0 else 1, spec := if chunk then [] else Placeholders(k))
  {
    hide NumAdmittedTokens, AppendUntilStop, UpdateFromOutput;
    assert 0 < NumAdmittedTokens(l, s.request, computed, junction, allowance) <= |s.request.tokens| - computed by {
      AdmittedWithin(l, s.request, computed, junction, allowance);
    }
    AllStaleNone(s.steps, s.request.preemptions);
  }

  lemma AdmittedWithin(l: Limits, r: RequestState, computed: int, junction: nat, allowance: int)
    requires l.mamba.Valid() && 0 <= computed < |r.tokens| && 0 < allowance
    requires NumAdmittedTokens(l, r, computed, junction, allowance) != 0
    ensures 0 < NumAdmittedTokens(l, r, computed, junction, allowance) <= |r.tokens| - computed
  {
  }

  lemma ResumeKeeps(l: Limits, s: System, computed: int, junction: nat, allowance: int, k: nat)
    requires Inv(l, s) && Enabled(l, s, Resume(computed, junction, allowance, k))
    ensures Inv(l, Next(l, s, Resume(computed, junction, allowance, k)))
  {
    var s' := Next(l, s, Resume(computed, junction, allowance, k));
    ResumedShape(l, s, computed, junction, allowance, k);
    hide NumAdmittedTokens, AppendUntilStop, UpdateFromOutput, Next, Enabled;
    StaleAtHead(s.steps, s.request.preemptions);
    FreshRow(l, s, s', s'.steps[|s.steps|]);
  }

  // One admission step behind a stale queue matches the counters it leaves.
  lemma FreshRow(l: Limits, s: System, s': System, step: Step)
    requires l.Valid() && WithinLimits(l, s.request.tokens) && Unfinished(l, s.request) && Counted(s)
    requires Live(s.steps, s.request.preemptions) == [] && (s.request.stale > 0 ==> s.request.dropStale)
    requires s'.steps == s.steps + [step] && s'.worker == s.worker && s'.request.status.Running?
    requires var r, r' := s.request, s'.request;
      && r.placeholders == 0
      && r' == r.(status := Running, junction := r'.junction, numComputed := r'.numComputed, spec := r'.spec,
                  inFlight := r.inFlight + step.numTokens, prefillChunk := r'.numComputed < |r.tokens|,
                  placeholders := if r'.numComputed < |r.tokens| then 0 else 1)
      && step == Step(step.numTokens, 0, !r'.prefillChunk, r.preemptions,
                      Admitted(|r.tokens|, r'.numComputed - step.numTokens))
      && step.numTokens > 0 && 0 < r'.numComputed <= |r.tokens| && (r'.prefillChunk ==> r'.spec == [])
    ensures Inv(l, s')
  {
    hide CheckStop, Chain, End, Live, StaleIn, PromisedIn, TokensIn;
    SumsAppend(s.steps, step, s.request.preemptions);
    OneStepQueue(s.worker, step);
    assert Counted(s');
    assert Live(s'.steps, s.request.preemptions) == [step];
    assert MatchedRunning(l, s');
  }

  lemma OneStepQueue(w: Worker, step: Step)
    requires Fits(Row(w, step), step)
    ensures Chain(w, [step]) && End(w, [step]) == Ahead(w, step)
  {
    assert [step][1..] == [];
  }

  lemma {:induction false} AllStaleNone(q: seq<Step>, epoch: int)
    requires Ordered(q, epoch) && StaleIn(q, epoch) == TokensIn(q)
    ensures PromisedIn(q, epoch) == 0
  {
    StaleAtHead(q, epoch);
    if q != [] {
      AllStaleNone(q[1..], epoch);
    }
  }

  lemma PreemptKeeps(l: Limits, s: System, drop: bool)
    requires Inv(l, s) && Enabled(l, s, PreemptRequest(drop))
    ensures Inv(l, Next(l, s, PreemptRequest(drop)))
  {
    StaleAtHead(s.steps, s.request.preemptions);
    AllStale(s.steps, s.request.preemptions + 1);
  }

  lemma DropKeeps(l: Limits, s: System, generated: seq<int>)
    requires Inv(l, s) && Enabled(l, s, Deliver(generated)) && Dropped(s.request)
    ensures Inv(l, Next(l, s, Deliver(generated)))
  {
    if !s.request.status.Finished? {
      StaleAtHead(s.steps, s.request.preemptions);
      StaleAtHead(s.steps[1..], s.request.preemptions);
    }
  }

  // A delivery that is not dropped starts where the scheduler's token list ends, and the worker sampled exactly
  // when the scheduler reserved placeholders.
  lemma DeliveryInOrder(l: Limits, s: System, generated: seq<int>)
    requires Inv(l, s) && Enabled(l, s, Deliver(generated)) && !Dropped(s.request)
    ensures Chain(s.worker, s.steps)
    ensures Row(s.worker, s.steps[0]).known == |s.request.tokens|
    ensures Samples(s.worker, s.steps[0]) == s.steps[0].samples
    ensures s.request.stale == 0 <==> s.request.status.Running?
  {
    StaleAtHead(s.steps, s.request.preemptions);
    ExecuteHead(s.worker, s.steps, generated);
  }

  // The placeholder count never underflows: a delivered block and the rejected drafts fit what the step reserved.
  lemma PlaceholdersSuffice(l: Limits, s: System, generated: seq<int>)
    requires Inv(l, s) && Enabled(l, s, Deliver(generated)) && !Dropped(s.request) && s.request.stale == 0
    ensures var r := s.request;
      var step := s.steps[0];
      var r' := UpdateFromOutput(l, r, step.numTokens, step.drafts, generated);
      && r'.placeholders >= PromisedIn(s.steps[1..], r.preemptions) >= 0
      && (!r'.status.Finished? ==>
            r'.placeholders == PromisedIn(s.steps[1..], r.preemptions)
            && r'.numComputed == r.numComputed - if step.samples then 1 + step.drafts - |generated| else 0)
  {
    DeliveryInOrder(l, s, generated);
    StaleAtHead(s.steps, s.request.preemptions);
    PromisedNonnegative(s.steps[1..], s.request.preemptions);
  }

  // The whole effect of a delivery that does not stop the request.
  lemma DeliveredFields(l: Limits, s: System, generated: seq<int>)
    requires Inv(l, s) && Enabled(l, s, Deliver(generated)) && !Dropped(s.request)
    ensures var r := s.request;
      var step := s.steps[0];
      var isStale := r.stale > 0;
      var rejected := if step.samples && !isStale then 1 + step.drafts - |generated| else 0;
      var r' := Next(l, s, Deliver(generated)).request;
      r'.status.Finished? ||
      (r' == r.(tokens := r.tokens + generated, inFlight := r.inFlight - step.numTokens,
                stale := if isStale then r.stale - step.numTokens else r.stale,
                numComputed := r.numComputed - rejected,
                placeholders := if isStale then r.placeholders else r.placeholders - rejected - |generated|)
       && Unfinished(l, r'.(numComputed := r.numComputed)))
  {
    DeliveryInOrder(l, s, generated);
    StaleAtHead(s.steps, s.request.preemptions);
    PromisedNonnegative(s.steps[1..], s.request.preemptions);
  }

  // The assertions update_from_output makes about its own counters hold in every delivery.
  lemma CountersSuffice(l: Limits, s: System, generated: seq<int>)
    requires Inv(l, s) && Enabled(l, s, Deliver(generated)) && !s.request.status.Finished?
    ensures s.request.stale > 0 ==> s.request.stale - s.steps[0].numTokens >= 0
    ensures !Dropped(s.request) && s.request.stale <= 0 ==> Next(l, s, Deliver(generated)).request.placeholders >= 0
  {
    StaleAtHead(s.steps, s.request.preemptions);
    StaleAtHead(s.steps[1..], s.request.preemptions);
    if !Dropped(s.request) && s.request.stale <= 0 {
      PlaceholdersSuffice(l, s, generated);
    }
  }

  lemma DeliverLiveKeeps(l: Limits, s: System, generated: seq<int>)
    requires Inv(l, s) && Enabled(l, s, Deliver(generated)) && !Dropped(s.request) && s.request.stale == 0
    ensures Inv(l, Next(l, s, Deliver(generated)))
  {
    var s' := Next(l, s, Deliver(generated));
    DeliveryInOrder(l, s, generated);
    DeliveredFields(l, s, generated);
    PlaceholdersSuffice(l, s, generated);
    hide UpdateFromOutput, Counted, MatchedRunning;
    if !s'.request.status.Finished? {
      HeadDelivered(l, s, s', generated);
    } else {
      assert WithinLimits(l, s'.request.tokens) by {
        DeliveredWithin(l, s, generated);
      }
    }
  }

  lemma DeliveredWithin(l: Limits, s: System, generated: seq<int>)
    requires Inv(l, s) && Enabled(l, s, Deliver(generated))
    ensures WithinLimits(l, Next(l, s, Deliver(generated)).request.tokens)
  {
    hide Counted, Matched;
  }

  // Taking the head off the queue, with its rejected drafts taken off the counters, keeps them exact.
  lemma HeadDelivered(l: Limits, s: System, s': System, generated: seq<int>)
    requires Inv(l, s) && s.request.status.Running? && s.request.stale == 0 && s.steps != []
    requires Chain(s.worker, s.steps) && WorkerReturns(s.worker, s.steps[0], generated)
    requires s' == System(s'.request, s.steps[1..], Execute(s.worker, s.steps[0], |generated|))
    requires var r, step := s.request, s.steps[0];
      var rejected := if step.samples then 1 + step.drafts - |generated| else 0;
      && s'.request == r.(tokens := r.tokens + generated, inFlight := r.inFlight - step.numTokens,
                          numComputed := r.numComputed - rejected,
                          placeholders := r.placeholders - rejected - |generated|)
      && Unfinished(l, s'.request.(numComputed := r.numComputed)) && WithinLimits(l, s'.request.tokens)
      && s'.request.placeholders >= 0
    ensures Inv(l, s')
  {
    hide CheckStop, Chain, Execute, Samples;
    var epoch := s.request.preemptions;
    ExecuteHead(s.worker, s.steps, generated);
    StaleAtHead(s.steps, epoch);
    StaleAtHead(s.steps[1..], epoch);
    assert Counted(s');
    assert Live(s'.steps, epoch) == s.steps[1..];
    assert MatchedRunning(l, s');
  }

  lemma DeliverStaleKeeps(l: Limits, s: System, generated: seq<int>)
    requires Inv(l, s) && Enabled(l, s, Deliver(generated)) && !Dropped(s.request) && s.request.stale > 0
    ensures Inv(l, Next(l, s, Deliver(generated)))
  {
    var r := s.request;
    var s' := Next(l, s, Deliver(generated));
    DeliveryInOrder(l, s, generated);
    DeliveredFields(l, s, generated);
    hide UpdateFromOutput;
    ExecuteHead(s.worker, s.steps, generated);
    StaleAtHead(s.steps, r.preemptions);
    AllStaleNone(s.steps, r.preemptions);
  }

  lemma NextKeeps(l: Limits, s: System, e: Event)
    requires Inv(l, s) && Enabled(l, s, e)
    ensures Inv(l, Next(l, s, e))
  {
    hide Inv, Enabled, Next;
    match e
    case Schedule(allowance, k) => ScheduleKeeps(l, s, allowance, k);
    case Resume(computed, junction, allowance, k) => ResumeKeeps(l, s, computed, junction, allowance, k);
    case CacheLookup(boundary) => LookupKeeps(l, s, boundary);
    case PreemptRequest(drop) => PreemptKeeps(l, s, drop);
    case Deliver(generated) =>
      if Dropped(s.request) {
        DropKeeps(l, s, generated);
      } else if s.request.stale == 0 {
        DeliverLiveKeeps(l, s, generated);
      } else {
        StaleNonnegative(l, s);
        DeliverStaleKeeps(l, s, generated);
      }
    case Abort => AbortKeeps(l, s);
  }

  lemma StaleNonnegative(l: Limits, s: System)
    requires Inv(l, s) && !s.request.status.Finished?
    ensures s.request.stale >= 0
  {
    StaleAtHead(s.steps, s.request.preemptions);
  }

  lemma LookupKeeps(l: Limits, s: System, boundary: nat)
    requires Inv(l, s) && Enabled(l, s, CacheLookup(boundary))
    ensures Inv(l, Next(l, s, CacheLookup(boundary)))
  {
  }

  lemma AbortKeeps(l: Limits, s: System)
    requires Inv(l, s) && Enabled(l, s, Abort)
    ensures Inv(l, Next(l, s, Abort))
  {
  }

  // --- Main results -------------------------------------------------------------------------------

  lemma {:induction false} RunKeeps(l: Limits, s: System, es: seq<Event>)
    requires Inv(l, s) && EnabledRun(l, s, es)
    ensures Inv(l, Run(l, s, es))
    decreases |es|
  {
    assert l.mamba.Valid();
    hide Inv, Enabled, Next;
    if es != [] {
      NextKeeps(l, s, es[0]);
      RunKeeps(l, Next(l, s, es[0]), es[1..]);
    }
  }

  lemma InitialInv(l: Limits, prompt: seq<int>)
    requires l.Valid() && |prompt| == l.numPromptTokens
    ensures Inv(l, Initial(prompt))
  {
  }

  function Flatten(blocks: seq<Block>): seq<int> {
    if blocks == [] then [] else blocks[0].tokens + Flatten(blocks[1..])
  }

  // Every block starts where the one before it ended.
  predicate Contiguous(blocks: seq<Block>, start: int) {
    blocks == [] ||
    (blocks[0].position == start && blocks[0].tokens != [] && Contiguous(blocks[1..], start + |blocks[0].tokens|))
  }

  // Exactly-once, in-order delivery: over every run, the blocks handed out, at the positions where the worker produced
  // them, tile the output; and the scheduler's tokens are the initial ones followed by exactly those blocks.
  lemma {:induction false} ExactlyOnce(l: Limits, s: System, es: seq<Event>)
    requires Inv(l, s) && EnabledRun(l, s, es)
    ensures Contiguous(Outputs(l, s, es), |s.request.tokens|)
    ensures Run(l, s, es).request.tokens == s.request.tokens + Flatten(Outputs(l, s, es))
    decreases |es|
  {
    assert l.mamba.Valid();
    hide Inv, Enabled, Next, Output;
    if es != [] {
      hide Flatten, Contiguous;
      var s' := Next(l, s, es[0]);
      OutputExtends(l, s, es[0]);
      NextKeeps(l, s, es[0]);
      ExactlyOnce(l, s', es[1..]);
      Tiles(Output(l, s, es[0]), Outputs(l, s', es[1..]), s.request.tokens, s'.request.tokens);
    }
  }

  // One more block in front of the blocks that tile the rest of the output.
  lemma {:induction false} Tiles(first: seq<Block>, rest: seq<Block>, tokens: seq<int>, extended: seq<int>)
    requires Contiguous(rest, |extended|)
    requires if first == [] then extended == tokens
             else |first| == 1 && first[0].position == |tokens| && first[0].tokens != []
                  && extended == tokens + first[0].tokens
    ensures Contiguous(first + rest, |tokens|)
    ensures tokens + Flatten(first + rest) == extended + Flatten(rest)
  {
    if first == [] {
      assert first + rest == rest;
    } else {
      var all, block := first + rest, first[0].tokens;
      assert all[0] == first[0] && all[1..] == rest;
      assert Flatten(all) == block + Flatten(rest);
      assert tokens + (block + Flatten(rest)) == (tokens + block) + Flatten(rest);
    }
  }

  // One action emits at most one block; it starts at the end of the token list and is what the list grows by.
  lemma OutputExtends(l: Limits, s: System, e: Event)
    requires Inv(l, s) && Enabled(l, s, e)
    ensures var out := Output(l, s, e);
      var tokens' := Next(l, s, e).request.tokens;
      if out == [] then tokens' == s.request.tokens
      else |out| == 1 && out[0].position == |s.request.tokens| && out[0].tokens != []
           && tokens' == s.request.tokens + out[0].tokens
  {
    if e.Deliver? && !Dropped(s.request) && e.generated != [] {
      DeliveryInOrder(l, s, e.generated);
    }
  }

  // The optimistic counters in every state of every run: they are exact sums over the steps in flight, and once
  // those drain they agree with the worker's row.
  lemma OptimisticAccounting(l: Limits, prompt: seq<int>, es: seq<Event>)
    requires l.Valid() && |prompt| == l.numPromptTokens && EnabledRun(l, Initial(prompt), es)
    ensures var s := Run(l, Initial(prompt), es);
      var r := s.request;
      && WithinLimits(l, r.tokens)
      && (!r.status.Finished? ==>
            && r.inFlight == TokensIn(s.steps) && r.placeholders == PromisedIn(s.steps, r.preemptions) >= 0
            && 0 <= r.numComputed <= l.maxModelLen - 1)
      && (r.status.Running? && !r.prefillChunk ==> r.numComputed == |r.tokens| + r.placeholders - 1)
      && (r.status.Running? && r.prefillChunk ==> r.placeholders == 0 && r.numComputed < |r.tokens|)
      && (r.status.Running? && s.steps == [] ==>
            s.worker.known == |r.tokens| && s.worker.computed == r.numComputed)
  {
    InitialInv(l, prompt);
    RunKeeps(l, Initial(prompt), es);
    var s := Run(l, Initial(prompt), es);
    if !s.request.status.Finished? {
      PromisedNonnegative(s.steps, s.request.preemptions);
    }
  }

  // Stale output is classified exactly in every state of every run: the counter covers precisely the steps scheduled
  // before the last preemption, which are the next to be delivered, and it is positive iff one of them is next.
  lemma StaleClassification(l: Limits, prompt: seq<int>, es: seq<Event>)
    requires l.Valid() && |prompt| == l.numPromptTokens && EnabledRun(l, Initial(prompt), es)
    requires !Run(l, Initial(prompt), es).request.status.Finished?
    ensures var s := Run(l, Initial(prompt), es);
      var r := s.request;
      exists k :: 0 <= k <= |s.steps| && r.stale == TokensIn(s.steps[..k])
        && (forall i :: 0 <= i < |s.steps| ==> (s.steps[i].epoch < r.preemptions <==> i < k))
        && (r.stale > 0 <==> k > 0)
  {
    InitialInv(l, prompt);
    RunKeeps(l, Initial(prompt), es);
    hide Inv, Run, EnabledRun;
    StaleState(l, Run(l, Initial(prompt), es));
  }

  lemma StaleState(l: Limits, s: System)
    requires Inv(l, s) && !s.request.status.Finished?
    ensures
      var r := s.request;
      exists k :: 0 <= k <= |s.steps| && r.stale == TokensIn(s.steps[..k])
        && (forall i :: 0 <= i < |s.steps| ==> (s.steps[i].epoch < r.preemptions <==> i < k))
        && (r.stale > 0 <==> k > 0)
  {
    hide Matched, WithinLimits;
    StaleAtHead(s.steps, s.request.preemptions);
    StalePrefix(s.steps, s.request.preemptions);
    var k := |s.steps| - |Live(s.steps, s.request.preemptions)|;
    assert s.request.stale == TokensIn(s.steps[..k]);
  }

  // A request with nothing in flight can always be scheduled. One token of budget is enough, except for a prefilling
  // request whose Mamba block fits the chunk limit: that needs a block, or a budget that reaches the end of its
  // prefill.
  lemma NeverStuck(l: Limits, s: System, allowance: int, k: nat)
    requires Inv(l, s) && s.request.status.Running? && s.steps == []
    requires 0 < allowance
    requires var r := s.request;
      l.mambaAligned && r.prefillChunk && l.mamba.blockSize <= MaxPrefillTokens(l.mamba) ==>
        Ample(l.mamba, Prefill(l.numPromptTokens, |r.tokens|, r.junction), r.numComputed, allowance)
    ensures Enabled(l, s, Schedule(allowance, k))
  {
    var r := s.request;
    if l.mambaAligned && r.prefillChunk {
      var wanted := |r.tokens| - r.numComputed;
      var capped := if 0 < l.mamba.longPrefillTokenThreshold < wanted then l.mamba.longPrefillTokenThreshold else wanted;
      var n := Min(Min(capped, allowance), l.maxModelLen - r.numComputed - 1);
      StallsExactly(l.mamba, Prefill(l.numPromptTokens, |r.tokens|, r.junction), r.numComputed, n);
    }
  }

  lemma {:induction false} PromiseInFlight(q: seq<Step>, epoch: int)
    requires PromisedIn(q, epoch) > 0
    ensures exists s :: s in q && s.epoch == epoch && s.samples
  {
    if q[0].epoch == epoch && q[0].samples {
      assert q[0] in q;
    } else {
      PromiseInFlight(q[1..], epoch);
      var s :| s in q[1..] && s.epoch == epoch && s.samples;
      assert s in q;
    }
  }

  // The max-tokens guard fires exactly when output is pending and one more token reaches max_tokens; a live sampling
  // step is then in flight.
  lemma SkippedExactly(l: Limits, s: System)
    requires Inv(l, s) && s.request.status.Running?
    ensures SkippedByMaxTokens(l, s.request) <==>
      s.request.placeholders > 0 && |s.request.tokens| - l.numPromptTokens + 1 == l.maxTokens
    ensures s.request.placeholders > 0 ==>
      exists step :: step in s.steps && step.epoch == s.request.preemptions && step.samples
  {
    if s.request.placeholders > 0 {
      PromiseInFlight(s.steps, s.request.preemptions);
    }
  }

  // Then the next live sampling output to be delivered finishes the request at exactly max_tokens.
  lemma SkippedFinishes(l: Limits, s: System, generated: seq<int>)
    requires Inv(l, s) && s.request.status.Running? && SkippedByMaxTokens(l, s.request)
    requires Enabled(l, s, Deliver(generated)) && s.request.stale == 0 && s.steps[0].samples
    ensures Next(l, s, Deliver(generated)).request.status.Finished?
    ensures |Next(l, s, Deliver(generated)).request.tokens| == l.numPromptTokens + l.maxTokens
  {
    SkippedExactly(l, s);
    DeliveryInOrder(l, s, generated);
    assert |AppendUntilStop(l, s.request.tokens, generated).0| >= 1;
  }
}
