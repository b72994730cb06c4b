// One request under asynchronous speculative scheduling, as a state machine on values.
//
// The scheduler runs ahead of the workers: several steps of a request are in flight, in FIFO order, while its counters
// already include them. `RequestState` holds what the scheduler knows; beside it, `Worker` is an independent account of
// what the workers have computed, which no scheduler function reads.
module RequestMachine {
  import opened Arithmetic
  import opened MambaSplit

  datatype Status = Waiting | Running | Preempted | Finished

  datatype Limits = Limits(
    numPromptTokens: nat,
    maxTokens: nat,
    maxModelLen: nat,
    stopTokens: set<int>,
    mambaAligned: bool,
    mamba: MambaConfig)
  {
    ghost predicate Valid() {
      0 < numPromptTokens < maxModelLen && 0 < maxTokens && mamba.Valid()
    }
  }

  // The counters of a request. `preemptions` is num_preemptions, `junction` shared_prefix_boundary.
  datatype RequestState = RequestState(
    status: Status,
    tokens: seq<int>,
    numComputed: int,
    placeholders: int,
    inFlight: int,
    stale: int,
    dropStale: bool,
    spec: seq<int>,
    prefillChunk: bool,
    preemptions: int,
    junction: nat)

  // --- What the scheduler does to the counters ----------------------------------------------------

  // How many tokens the running loop would schedule; `allowance` is what the two budgets leave.
  function NumNewTokens(l: Limits, r: RequestState, allowance: int): int
    requires l.mamba.Valid()
  {
    var wanted := |r.tokens| + |r.spec| + r.placeholders - r.numComputed;
    var capped := if 0 < l.mamba.longPrefillTokenThreshold < wanted then l.mamba.longPrefillTokenThreshold else wanted;
    AlignChunk(l, r, r.numComputed, Min(Min(capped, allowance), l.maxModelLen - r.numComputed - 1))
  }

  // The first chunk of a waiting or preempted request that resumes with `computed` cached tokens.
  function NumAdmittedTokens(l: Limits, r: RequestState, computed: int, junction: nat, allowance: int): int
    requires l.mamba.Valid()
  {
    var wanted := |r.tokens| - computed;
    var capped := if 0 < l.mamba.longPrefillTokenThreshold < wanted then l.mamba.longPrefillTokenThreshold else wanted;
    AlignChunk(l, r.(junction := junction), computed, Min(capped, allowance))
  }

  function AlignChunk(l: Limits, r: RequestState, start: int, n: int): (m: int)
    requires l.mamba.Valid()
    ensures m <= n
    ensures n > 0 && start >= 0 ==> m >= 0
    ensures start >= Max(l.numPromptTokens, |r.tokens| - 1) ==> m == n
  {
    if l.mambaAligned && start >= 0 && n >= 0
    then Split(l.mamba, Prefill(l.numPromptTokens, |r.tokens|, r.junction), start, n)
    else n
  }

  // The running loop skips a request whose pending output is sure to reach max_tokens.
  predicate SkippedByMaxTokens(l: Limits, r: RequestState) {
    r.placeholders > 0 && r.numComputed + 2 - r.placeholders >= l.numPromptTokens + l.maxTokens
  }

  function ScheduledDrafts(r: RequestState, n: int): int {
    if r.spec == [] then 0
    else Max(0, Min(|r.spec|, n + r.numComputed - |r.tokens| - r.placeholders))
  }

  function Placeholders(k: nat): (s: seq<int>)
    ensures |s| == k
  {
    seq(k, i => -1)
  }

  // Both _update_after_schedule methods: the step's tokens count as computed at once, and a step that completes the
  // known tokens gets placeholders for everything it may produce; `k` is the request's next draft budget.
  function UpdateAfterSchedule(r: RequestState, n: int, drafts: int, k: nat): RequestState {
    var r' := r.(numComputed := r.numComputed + n, inFlight := r.inFlight + n,
                 prefillChunk := r.numComputed + n < |r.tokens| + r.placeholders);
    if r'.prefillChunk then r'
    else r'.(placeholders := r.placeholders + 1 + drafts, spec := Placeholders(k))
  }

  function ScheduleRunning(l: Limits, r: RequestState, allowance: int, k: nat): RequestState
    requires l.mamba.Valid()
  {
    var n := NumNewTokens(l, r, allowance);
    UpdateAfterSchedule(r.(spec := []), n, ScheduledDrafts(r, n), k)
  }

  function Admit(l: Limits, r: RequestState, computed: int, junction: nat, allowance: int, k: nat): RequestState
    requires l.mamba.Valid()
  {
    UpdateAfterSchedule(r.(status := Running, numComputed := computed, junction := junction),
                        NumAdmittedTokens(l, r, computed, junction, allowance), 0, k)
  }

  function Preempt(r: RequestState, dropStaleOutput: bool): RequestState {
    r.(status := Preempted, numComputed := 0, spec := [],
       dropStale := dropStaleOutput || (r.dropStale && r.stale > 0),
       stale := r.inFlight, placeholders := 0, preemptions := r.preemptions + 1)
  }

  predicate CheckStop(l: Limits, tokens: seq<int>) {
    tokens != [] &&
    (|tokens| >= l.maxModelLen || |tokens| - l.numPromptTokens >= l.maxTokens || tokens[|tokens| - 1] in l.stopTokens)
  }

  predicate WithinLimits(l: Limits, tokens: seq<int>) {
    |tokens| <= l.maxModelLen && |tokens| - l.numPromptTokens <= l.maxTokens
  }

  // The prefix of `generated` that is appended before a stop, and whether there was one.
  function AppendUntilStop(l: Limits, tokens: seq<int>, generated: seq<int>): (r: (seq<int>, bool))
    ensures r.0 <= generated
    ensures !r.1 ==> r.0 == generated
    ensures generated != [] ==> r.0 != [] && r.1 == CheckStop(l, tokens + r.0)
    ensures |tokens| < l.maxModelLen && |tokens| - l.numPromptTokens < l.maxTokens ==> WithinLimits(l, tokens + r.0)
    decreases |generated|
  {
    if generated == [] then ([], false)
    else if CheckStop(l, tokens + [generated[0]]) then ([generated[0]], true)
    else
      var rest := AppendUntilStop(l, tokens + [generated[0]], generated[1..]);
      assert tokens + [generated[0]] + rest.0 == tokens + ([generated[0]] + rest.0);
      ([generated[0]] + rest.0, rest.1)
  }

  predicate Dropped(r: RequestState) {
    r.status.Finished? || (r.stale > 0 && r.dropStale)
  }

  // update_from_output for one request: `numTokens` and `drafts` are what the step had scheduled.
  function UpdateFromOutput(l: Limits, r: RequestState, numTokens: int, drafts: int, generated: seq<int>): RequestState
  {
    if r.status.Finished? then r
    else
      var isStale := r.stale > 0;
      var r1 := r.(inFlight := r.inFlight - numTokens, stale := if isStale then r.stale - numTokens else r.stale);
      if isStale && r.dropStale then r1
      else
        var r2 := if drafts > 0 && generated != [] && !isStale then
                    RollBack(r1, drafts - Max(|generated| - 1, 0))
                  else r1;
        if generated == [] then r2
        else
          var (kept, stopped) := AppendUntilStop(l, r.tokens, generated);
          r2.(tokens := r.tokens + kept,
              placeholders := if isStale then r2.placeholders else r2.placeholders - |kept|,
              status := if stopped then Finished else r.status)
  }

  function RollBack(r: RequestState, rejected: int): RequestState {
    r.(numComputed := if r.numComputed > 0 then r.numComputed - rejected else r.numComputed,
       placeholders := if r.placeholders > 0 then r.placeholders - rejected else r.placeholders)
  }

  // --- What the workers do ------------------------------------------------------------------------

  // A worker row: the length the request was admitted with, the tokens it knows, the tokens that have KV.
  datatype Worker = Worker(prefillLen: int, known: int, computed: int)

  // A step that carries an admission (re)creates the row; any other step continues it.
  datatype Admission = Resident | Admitted(known: int, computed: int)

  // One in-flight step of the request. `samples` is what the scheduler believed when it scheduled the step, `epoch`
  // the number of preemptions at that time; the worker reads neither.
  datatype Step = Step(numTokens: int, drafts: int, samples: bool, epoch: int, admission: Admission)

  function Row(w: Worker, s: Step): Worker {
    if s.admission.Admitted? then Worker(s.admission.known, s.admission.known, s.admission.computed) else w
  }

  // The worker samples when the step reaches the end of the tokens it was admitted with.
  predicate Samples(w: Worker, s: Step) {
    Row(w, s).computed + s.numTokens >= Row(w, s).prefillLen
  }

  // The row after the step produced `count` tokens; draft positions that were not accepted lose their KV.
  function Execute(w: Worker, s: Step, count: int): Worker {
    var row := Row(w, s);
    if !Samples(w, s) then row.(computed := row.computed + s.numTokens)
    else row.(known := row.known + count, computed := row.computed + s.numTokens - (1 + s.drafts - count))
  }

  // A prefill chunk returns nothing; a sampling step one token and at most all its drafts.
  predicate WorkerReturns(w: Worker, s: Step, generated: seq<int>) {
    if Samples(w, s) then 1 <= |generated| <= 1 + s.drafts else generated == []
  }

  // --- The system ---------------------------------------------------------------------------------

  datatype System = System(request: RequestState, steps: seq<Step>, worker: Worker)

  datatype Event =
    | Schedule(allowance: int, k: nat)
    | CacheLookup(boundary: nat)
    | Resume(computed: int, sharedPrefix: nat, budget: int, nextK: nat)
    | PreemptRequest(dropStaleOutput: bool)
    | Deliver(generated: seq<int>)
    | Abort

  // A block of output handed to the client; `position` is where the worker placed its first token.
  datatype Block = Block(position: int, tokens: seq<int>)

  predicate Enabled(l: Limits, s: System, e: Event)
    requires l.mamba.Valid()
  {
    var r := s.request;
    match e
    case Schedule(allowance, k) =>
      r.status.Running? && 0 < allowance && !SkippedByMaxTokens(l, r) && NumNewTokens(l, r, allowance) != 0
    case CacheLookup(_) => r.status.Waiting? || r.status.Preempted?
    case Resume(computed, sharedPrefix, budget, nextK) =>
      && (r.status.Waiting? || r.status.Preempted?)
      && (r.stale > 0 ==> r.dropStale)
      && 0 <= computed < |r.tokens| && 0 < budget
      && NumAdmittedTokens(l, r, computed, sharedPrefix, budget) != 0
    case PreemptRequest(_) => r.status.Running?
    case Deliver(generated) => s.steps != [] && WorkerReturns(s.worker, s.steps[0], generated)
    case Abort => !r.status.Finished?
  }

  function Next(l: Limits, s: System, e: Event): System
    requires l.mamba.Valid() && Enabled(l, s, e)
  {
    var r := s.request;
    match e
    case Schedule(allowance, k) =>
      var n := NumNewTokens(l, r, allowance);
      var r' := ScheduleRunning(l, r, allowance, k);
      s.(request := r',
         steps := s.steps + [Step(n, ScheduledDrafts(r, n), !r'.prefillChunk, r.preemptions, Resident)])
    case CacheLookup(boundary) => s.(request := r.(junction := boundary))
    case Resume(computed, sharedPrefix, budget, nextK) =>
      var r' := Admit(l, r, computed, sharedPrefix, budget, nextK);
      s.(request := r',
         steps := s.steps + [Step(NumAdmittedTokens(l, r, computed, sharedPrefix, budget), 0, !r'.prefillChunk,
                                  r.preemptions, Admitted(|r.tokens|, computed))])
    case PreemptRequest(drop) => s.(request := Preempt(r, drop))
    case Deliver(generated) =>
      var step := s.steps[0];
      System(UpdateFromOutput(l, r, step.numTokens, step.drafts, generated), s.steps[1..],
             Execute(s.worker, step, |generated|))
    case Abort => s.(request := r.(status := Finished))
  }

  function Output(l: Limits, s: System, e: Event): seq<Block>
    requires l.mamba.Valid() && Enabled(l, s, e)
  {
    if e.Deliver? && !Dropped(s.request) && e.generated != []
    then [Block(Row(s.worker, s.steps[0]).known, AppendUntilStop(l, s.request.tokens, e.generated).0)]
    else []
  }

  predicate EnabledRun(l: Limits, s: System, es: seq<Event>)
    requires l.mamba.Valid()
    decreases |es|
  {
    es == [] || (Enabled(l, s, es[0]) && EnabledRun(l, Next(l, s, es[0]), es[1..]))
  }

  function Run(l: Limits, s: System, es: seq<Event>): System
    requires l.mamba.Valid() && EnabledRun(l, s, es)
    decreases |es|
  {
    if es == [] then s else Run(l, Next(l, s, es[0]), es[1..])
  }

  function Outputs(l: Limits, s: System, es: seq<Event>): seq<Block>
    requires l.mamba.Valid() && EnabledRun(l, s, es)
    decreases |es|
  {
    if es == [] then [] else Output(l, s, es[0]) + Outputs(l, Next(l, s, es[0]), es[1..])
  }

  function Initial(prompt: seq<int>): System {
    System(RequestState(Waiting, prompt, 0, 0, 0, 0, false, [], false, 0, 0), [], Worker(0, 0, 0))
  }
}
