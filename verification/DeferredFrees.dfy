// Deferred freeing of KV blocks behind sequence fences: blocks of a preempted or finished request go back to the pool
// only after every step that may still write them has been processed.
module DeferredFrees {
  import opened Sequences

  // A block reference: one owner's hold on a block. A shared block has one reference per holder.
  type Ref = nat
  type ReqId = nat

  datatype Entry = Entry(fence: nat, blocks: seq<Ref>)

  datatype State = State(
    schedSeq: nat,
    processedSeq: nat,
    deferred: seq<Entry>,
    owner: map<Ref, ReqId>,
    lastSched: map<ReqId, nat>,
    pool: seq<Ref>)

  // The references each non-empty step may write: history, read by no operation.
  type Writes = map<nat, set<Ref>>

  datatype System = System(s: State, writes: Writes)

  function Flat(deferred: seq<Entry>): seq<Ref> {
    if deferred == [] then [] else deferred[0].blocks + Flat(deferred[1..])
  }

  // --- The operations -----------------------------------------------------------------------------

  // _drain_deferred_frees: stop at the first pending fence.
  function Drain(s: State): State
    decreases |s.deferred|
  {
    if s.deferred == [] || s.deferred[0].fence > s.processedSeq then s
    else Drain(s.(deferred := s.deferred[1..], pool := s.pool + Reversed(s.deferred[0].blocks)))
  }

  predicate Owns(s: State, r: ReqId, b: Ref) {
    b in s.owner && s.owner[b] == r
  }

  // The blocks of a request, each reference listed once.
  ghost predicate Lists(s: State, r: ReqId, blocks: seq<Ref>) {
    forall b :: multiset(blocks)[b] == if Owns(s, r, b) then 1 else 0
  }

  function LastSched(s: State, r: ReqId): nat {
    if r in s.lastSched then s.lastSched[r] else 0
  }

  // _free_request_blocks; `blocks` lists the request's references.
  function FreeRequest(s: State, r: ReqId, blocks: seq<Ref>): State {
    var s' := s.(owner := map b | b in s.owner && s.owner[b] != r :: s.owner[b]);
    if LastSched(s, r) <= s.processedSeq then s'.(pool := s.pool + blocks)
    else if blocks == [] then s'
    else s'.(deferred := s.deferred + [Entry(s.schedSeq, blocks)])
  }

  // _free_cow_retained_blocks, called with the fence of the next non-empty step.
  function FreeRetained(s: State, blocks: seq<Ref>, fence: nat): State {
    if fence <= s.processedSeq then s.(pool := s.pool + blocks)
    else s.(deferred := s.deferred + [Entry(fence, Reversed(blocks))])
  }

  // The end of schedule(): a non-empty step takes the next sequence number and stamps its requests.
  function Stamp(s: State, scheduled: set<ReqId>): State {
    if scheduled == {} then s
    else s.(schedSeq := s.schedSeq + 1,
            lastSched := map r | r in s.lastSched.Keys + scheduled ::
                           if r in scheduled then s.schedSeq + 1 else s.lastSched[r])
  }

  function Process(s: State): State {
    Drain(s.(processedSeq := s.processedSeq + 1))
  }

  datatype Event =
    | Allocate(req: ReqId, block: Ref)
    | Free(r: ReqId, blocks: seq<Ref>)
    | Step(scheduled: set<ReqId>, retained: seq<Ref>)
    | Complete

  ghost predicate Enabled(sys: System, e: Event) {
    var s := sys.s;
    match e
    case Allocate(r, b) => Fresh(s, b)
    case Free(r, blocks) => Lists(s, r, blocks)
    case Step(scheduled, retained) =>
      Distinct(retained) && forall b :: b in retained ==> Fresh(s, b)
    case Complete => s.processedSeq < s.schedSeq
  }

  // Not held by anyone and never returned: a new reference.
  ghost predicate Fresh(s: State, b: Ref) {
    b !in s.owner && b !in Flat(s.deferred) && b !in s.pool
  }

  function CopiesAt(deferred: seq<Entry>, fence: nat): set<Ref> {
    if deferred == [] then {}
    else (if deferred[0].fence == fence then (set b | b in deferred[0].blocks) else {}) + CopiesAt(deferred[1..], fence)
  }

  // A step may write every reference of its requests; the copies of copy-on-write run with the first non-empty step
  // at or after the one that retained their blocks.
  function StepWrites(s: State, scheduled: set<ReqId>): set<Ref> {
    (set b | b in s.owner && s.owner[b] in scheduled) + CopiesAt(s.deferred, s.schedSeq + 1)
  }

  lemma {:induction false} CopiesMean(deferred: seq<Entry>, fence: nat, b: Ref)
    ensures b in CopiesAt(deferred, fence) <==> exists e :: e in deferred && e.fence == fence && b in e.blocks
  {
    if deferred != [] {
      CopiesMean(deferred[1..], fence, b);
      assert deferred == [deferred[0]] + deferred[1..];
    }
  }

  // What the step to come may write: what its requests hold and what was retained for it.
  lemma WritesMean(s: State, scheduled: set<ReqId>, b: Ref)
    ensures b in StepWrites(s, scheduled) <==>
      || (b in s.owner && s.owner[b] in scheduled)
      || exists e :: e in s.deferred && e.fence == s.schedSeq + 1 && b in e.blocks
  {
    CopiesMean(s.deferred, s.schedSeq + 1, b);
  }

  function Retain(s: State, retained: seq<Ref>): State {
    if retained == [] then s else FreeRetained(s, retained, s.schedSeq + 1)
  }

  function Next(sys: System, e: Event): System {
    var s := sys.s;
    match e
    case Allocate(r, b) => sys.(s := s.(owner := s.owner[b := r]))
    case Free(r, blocks) => sys.(s := FreeRequest(s, r, blocks))
    case Step(scheduled, retained) =>
      var s1 := Retain(s, retained);
      if scheduled == {} then sys.(s := s1)
      else System(Stamp(s1, scheduled), sys.writes[s.schedSeq + 1 := StepWrites(s1, scheduled)])
    case Complete => sys.(s := Process(s))
  }

  // --- The invariant ------------------------------------------------------------------------------

  // In how many places a reference is: the pool, the deferred entries, a request's hands.
  function Places(s: State, b: Ref): nat {
    multiset(s.pool)[b] + multiset(Flat(s.deferred))[b] + if b in s.owner then 1 else 0
  }

  ghost predicate Unique(s: State) {
    forall b :: Places(s, b) <= 1
  }

  ghost predicate SamePlaces(s: State, s': State) {
    forall b :: Places(s', b) == Places(s, b)
  }

  // A reference behind a fence at or after q.
  ghost predicate Fenced(deferred: seq<Entry>, b: Ref, q: nat) {
    exists i :: 0 <= i < |deferred| && b in deferred[i].blocks && deferred[i].fence >= q
  }

  ghost predicate Held(s: State, b: Ref, q: nat) {
    (b in s.owner && LastSched(s, s.owner[b]) >= q) || Fenced(s.deferred, b, q)
  }

  // A copy-on-write fence can lead the request fences behind it by one step, no more.
  ghost predicate NearlyOrdered(s: State) {
    && (forall i, j :: 0 <= i < j < |s.deferred| ==> s.deferred[i].fence <= s.deferred[j].fence + 1)
    && (forall i :: 0 <= i < |s.deferred| ==> s.deferred[i].fence <= s.schedSeq + 1)
    && (s.deferred != [] ==> s.deferred[0].fence > s.processedSeq)
  }

  ghost predicate Inv(sys: System) {
    var s := sys.s;
    && s.processedSeq <= s.schedSeq && NearlyOrdered(s) && Unique(s)
    && (forall r :: r in s.lastSched ==> s.lastSched[r] <= s.schedSeq)
    && (forall q :: q in sys.writes ==> q <= s.schedSeq)
    && AllHeld(s, sys.writes)
  }

  // What an unprocessed step may write is still held.
  ghost predicate AllHeld(s: State, writes: Writes) {
    forall q, b :: q in writes && b in writes[q] && q > s.processedSeq ==> Held(s, b, q)
  }

  // No reference in the pool can still be written by a step that is not processed.
  ghost predicate Safe(sys: System) {
    forall q, b :: q in sys.writes && q > sys.s.processedSeq && b in sys.writes[q] ==> b !in sys.s.pool
  }

  // Every entry is freed once the step after its fence is processed.
  ghost predicate Prompt(s: State) {
    forall e :: e in s.deferred ==> s.processedSeq < e.fence + 1
  }

  lemma {:induction false} FlatAppend(d: seq<Entry>, e: Entry)
    ensures Flat(d + [e]) == Flat(d) + e.blocks
  {
    if d == [] {
      assert d + [e] == [e];
    } else {
      assert (d + [e])[1..] == d[1..] + [e];
      FlatAppend(d[1..], e);
    }
  }

  lemma {:induction false} FlatMember(d: seq<Entry>, i: nat, b: Ref)
    requires i < |d| && b in d[i].blocks
    ensures b in Flat(d)
  {
    if i > 0 {
      FlatMember(d[1..], i - 1, b);
    }
  }

  lemma HeldIsNotFree(s: State, b: Ref, q: nat)
    requires Unique(s) && Held(s, b, q)
    ensures b !in s.pool
  {
    if Fenced(s.deferred, b, q) {
      var i :| 0 <= i < |s.deferred| && b in s.deferred[i].blocks;
      FlatMember(s.deferred, i, b);
      assert multiset(Flat(s.deferred))[b] > 0;
    }
    assert b in s.pool ==> multiset(s.pool)[b] > 0;
    assert Places(s, b) <= 1;
  }

  lemma InvImpliesSafe(sys: System)
    requires Inv(sys)
    ensures Safe(sys) && Prompt(sys.s)
  {
    forall q, b | q in sys.writes && q > sys.s.processedSeq && b in sys.writes[q]
      ensures b !in sys.s.pool
    {
      HeldIsNotFree(sys.s, b, q);
    }
  }

  // --- Draining -----------------------------------------------------------------------------------

  // Exactly which entries a drain leaves: from the first pending one on, satisfied or not.
  lemma {:induction false} DrainStopsAtFirstPending(s: State)
    ensures |Drain(s).deferred| <= |s.deferred|
    ensures var k := |s.deferred| - |Drain(s).deferred|;
      && Drain(s).deferred == s.deferred[k..]
      && (forall i :: 0 <= i < k ==> s.deferred[i].fence <= s.processedSeq)
      && (k < |s.deferred| ==> s.deferred[k].fence > s.processedSeq)
    decreases |s.deferred|
  {
    if s.deferred != [] && s.deferred[0].fence <= s.processedSeq {
      var s1 := s.(deferred := s.deferred[1..], pool := s.pool + Reversed(s.deferred[0].blocks));
      DrainStopsAtFirstPending(s1);
      hide Reversed;
      var k := |s1.deferred| - |Drain(s1).deferred|;
      assert s.deferred[1..][k..] == s.deferred[k + 1..];
      assert forall i :: 1 <= i < |s.deferred| ==> s.deferred[i] == s1.deferred[i - 1];
    }
  }

  lemma {:induction false} DrainConserves(s: State)
    ensures SamePlaces(s, Drain(s))
    ensures Drain(s) == s.(deferred := Drain(s).deferred, pool := Drain(s).pool)
    decreases |s.deferred|
  {
    if s.deferred != [] && s.deferred[0].fence <= s.processedSeq {
      var s1 := s.(deferred := s.deferred[1..], pool := s.pool + Reversed(s.deferred[0].blocks));
      ReversedMultiset(s.deferred[0].blocks);
      assert SamePlaces(s, s1);
      DrainConserves(s1);
    }
  }

  lemma FencedTail(d: seq<Entry>, k: nat, b: Ref, q: nat)
    requires k <= |d| && Fenced(d, b, q) && forall i :: 0 <= i < k ==> d[i].fence < q
    ensures Fenced(d[k..], b, q)
  {
    var i :| 0 <= i < |d| && b in d[i].blocks && d[i].fence >= q;
    assert d[k..][i - k] == d[i];
  }

  lemma HeldAfterProcess(s: State, b: Ref, q: nat)
    requires Held(s, b, q) && q > s.processedSeq + 1
    ensures Held(Process(s), b, q)
  {
    hide Drain, Places, Reversed, Fenced;
    var s1 := s.(processedSeq := s.processedSeq + 1);
    DrainConserves(s1);
    DrainStopsAtFirstPending(s1);
    if Fenced(s.deferred, b, q) {
      FencedTail(s.deferred, |s.deferred| - |Drain(s1).deferred|, b, q);
    }
  }

  lemma DrainNearlyOrdered(s: State)
    requires forall i, j :: 0 <= i < j < |s.deferred| ==> s.deferred[i].fence <= s.deferred[j].fence + 1
    requires forall i :: 0 <= i < |s.deferred| ==> s.deferred[i].fence <= s.schedSeq + 1
    ensures NearlyOrdered(Drain(s))
  {
    DrainConserves(s);
    DrainStopsAtFirstPending(s);
    hide Drain, Places;
    var k := |s.deferred| - |Drain(s).deferred|;
    assert forall i :: 0 <= i < |Drain(s).deferred| ==> Drain(s).deferred[i] == s.deferred[k + i];
  }

  lemma AllHeldAfterProcess(s: State, writes: Writes)
    requires AllHeld(s, writes)
    ensures AllHeld(Process(s), writes)
  {
    DrainConserves(s.(processedSeq := s.processedSeq + 1));
    hide Drain, Places, Held;
    forall q, b | q in writes && b in writes[q] && q > s.processedSeq + 1
      ensures Held(Process(s), b, q)
    {
      HeldAfterProcess(s, b, q);
    }
  }

  lemma ProcessConserves(s: State)
    ensures SamePlaces(s, Process(s))
    ensures Process(s) == s.(processedSeq := s.processedSeq + 1, deferred := Process(s).deferred, pool := Process(s).pool)
  {
    var s1 := s.(processedSeq := s.processedSeq + 1);
    SameListsSamePlaces(s, s1);
    DrainConserves(s1);
    hide Places, Drain;
  }

  lemma SameListsSamePlaces(s: State, s': State)
    requires s.pool == s'.pool && s.deferred == s'.deferred && s.owner == s'.owner
    ensures SamePlaces(s, s')
  {
  }

  lemma CompleteKeeps(sys: System)
    requires Inv(sys) && Enabled(sys, Complete)
    ensures Inv(Next(sys, Complete)) && SamePlaces(sys.s, Next(sys, Complete).s)
  {
    ProcessConserves(sys.s);
    DrainNearlyOrdered(sys.s.(processedSeq := sys.s.processedSeq + 1));
    AllHeldAfterProcess(sys.s, sys.writes);
    assert NearlyOrdered(Process(sys.s));
    hide Process, Places, NearlyOrdered, AllHeld;
  }

  // --- Freeing ------------------------------------------------------------------------------------

  lemma FencedAppend(d: seq<Entry>, e: Entry, b: Ref, q: nat)
    requires Fenced(d, b, q) || (b in e.blocks && e.fence >= q)
    ensures Fenced(d + [e], b, q)
  {
    if Fenced(d, b, q) {
      var i :| 0 <= i < |d| && b in d[i].blocks && d[i].fence >= q;
      assert (d + [e])[i] == d[i];
    } else {
      assert (d + [e])[|d|] == e;
    }
  }

  lemma AppendNearlyOrdered(s: State, e: Entry)
    requires NearlyOrdered(s) && s.processedSeq < e.fence && s.schedSeq <= e.fence <= s.schedSeq + 1
    ensures NearlyOrdered(s.(deferred := s.deferred + [e]))
  {
  }

  lemma FreeConserves(s: State, r: ReqId, blocks: seq<Ref>)
    requires Lists(s, r, blocks)
    ensures SamePlaces(s, FreeRequest(s, r, blocks))
  {
    FlatAppend(s.deferred, Entry(s.schedSeq, blocks));
    var s' := FreeRequest(s, r, blocks);
    forall b
      ensures Places(s', b) == Places(s, b)
    {
      assert multiset(blocks)[b] == if Owns(s, r, b) then 1 else 0;
    }
  }

  // A request whose last step is processed may be freed at once; otherwise the fence covers all its steps.
  lemma HeldAfterFree(s: State, r: ReqId, blocks: seq<Ref>, b: Ref, q: nat)
    requires Lists(s, r, blocks) && Held(s, b, q) && s.processedSeq < q <= s.schedSeq
    ensures Held(FreeRequest(s, r, blocks), b, q)
  {
    var e := Entry(s.schedSeq, blocks);
    if Owns(s, r, b) && LastSched(s, r) >= q {
      assert multiset(blocks)[b] == 1;
      assert b in blocks;
      FencedAppend(s.deferred, e, b, q);
    } else if Fenced(s.deferred, b, q) {
      FencedAppend(s.deferred, e, b, q);
    }
  }

  lemma FreeKeeps(sys: System, r: ReqId, blocks: seq<Ref>)
    requires Inv(sys) && Enabled(sys, Free(r, blocks))
    ensures Inv(Next(sys, Free(r, blocks))) && SamePlaces(sys.s, Next(sys, Free(r, blocks)).s)
  {
    var s := sys.s;
    FreeConserves(s, r, blocks);
    hide Places, Held, Lists;
    forall q, b | q in sys.writes && b in sys.writes[q] && q > s.processedSeq
      ensures Held(FreeRequest(s, r, blocks), b, q)
    {
      HeldAfterFree(s, r, blocks, b, q);
    }
  }

  // --- Scheduling ---------------------------------------------------------------------------------

  // The fence of a retention is still to come, so the immediate branch is never taken.
  lemma RetentionIsDeferred(s: State, retained: seq<Ref>)
    requires s.processedSeq <= s.schedSeq && retained != []
    ensures Retain(s, retained) == s.(deferred := s.deferred + [Entry(s.schedSeq + 1, Reversed(retained))])
  {
  }

  lemma RetainPlaces(s: State, retained: seq<Ref>)
    requires s.processedSeq <= s.schedSeq
    requires Distinct(retained)
    ensures forall b :: Places(Retain(s, retained), b) == Places(s, b) + if b in retained then 1 else 0
  {
    if retained != [] {
      var e := Entry(s.schedSeq + 1, Reversed(retained));
      RetentionIsDeferred(s, retained);
      FlatAppend(s.deferred, e);
      forall b
        ensures Places(Retain(s, retained), b) == Places(s, b) + if b in retained then 1 else 0
      {
        DistinctCount(retained, b);
        ReversedMultiset(retained);
      }
    }
  }

  lemma FreshIsNowhere(s: State, b: Ref)
    requires Fresh(s, b)
    ensures Places(s, b) == 0
  {
  }

  lemma HeldAfterRetain(s: State, retained: seq<Ref>, b: Ref, q: nat)
    requires s.processedSeq <= s.schedSeq && Held(s, b, q)
    ensures Held(Retain(s, retained), b, q)
  {
    if retained != [] {
      RetentionIsDeferred(s, retained);
      if Fenced(s.deferred, b, q) {
        FencedAppend(s.deferred, Entry(s.schedSeq + 1, Reversed(retained)), b, q);
      }
    }
  }

  lemma RetainKeeps(sys: System, retained: seq<Ref>)
    requires Inv(sys) && Enabled(sys, Step({}, retained))
    ensures Inv(Next(sys, Step({}, retained)))
    ensures forall b :: Places(Retain(sys.s, retained), b) == Places(sys.s, b) + if b in retained then 1 else 0
  {
    var s := sys.s;
    RetainPlaces(s, retained);
    forall b | b in retained
      ensures Places(s, b) == 0
    {
      FreshIsNowhere(s, b);
    }
    hide Places, Held, Fresh;
    forall q, b | q in sys.writes && b in sys.writes[q] && q > s.processedSeq
      ensures Held(Retain(s, retained), b, q)
    {
      HeldAfterRetain(s, retained, b, q);
    }
    if retained != [] {
      RetentionIsDeferred(s, retained);
      hide Retain, Reversed;
      AppendNearlyOrdered(s, Entry(s.schedSeq + 1, Reversed(retained)));
      hide NearlyOrdered;
    }
  }

  lemma {:induction false} DistinctCount(blocks: seq<Ref>, b: Ref)
    requires Distinct(blocks)
    ensures multiset(blocks)[b] == if b in blocks then 1 else 0
  {
    if blocks != [] {
      assert blocks == [blocks[0]] + blocks[1..];
      DistinctCount(blocks[1..], b);
    }
  }

  lemma {:induction false} CopiesAreFenced(d: seq<Entry>, fence: nat, b: Ref)
    requires b in CopiesAt(d, fence)
    ensures Fenced(d, b, fence)
  {
    if d[0].fence != fence || b !in d[0].blocks {
      CopiesAreFenced(d[1..], fence, b);
      FencedPrepend(d[0], d[1..], b, fence);
      assert d == [d[0]] + d[1..];
    }
  }

  lemma FencedPrepend(e: Entry, d: seq<Entry>, b: Ref, q: nat)
    requires Fenced(d, b, q)
    ensures Fenced([e] + d, b, q)
  {
    var i :| 0 <= i < |d| && b in d[i].blocks && d[i].fence >= q;
    assert ([e] + d)[i + 1] == d[i];
  }

  lemma StampKeeps(sys: System, scheduled: set<ReqId>)
    requires Inv(sys) && scheduled != {}
    ensures var s' := Stamp(sys.s, scheduled);
      Inv(System(s', sys.writes[sys.s.schedSeq + 1 := StepWrites(sys.s, scheduled)])) && SamePlaces(sys.s, s')
  {
    var s := sys.s;
    var s' := Stamp(s, scheduled);
    var writes := sys.writes[s.schedSeq + 1 := StepWrites(s, scheduled)];
    assert SamePlaces(s, s');
    hide Places;
    forall q, b | q in writes && b in writes[q] && q > s.processedSeq
      ensures Held(s', b, q)
    {
      if q <= s.schedSeq {
        assert Held(s, b, q);
      } else if b in CopiesAt(s.deferred, q) {
        CopiesAreFenced(s.deferred, q, b);
      }
    }
  }

  // --- The scheduler's methods --------------------------------------------------------------------

  class BlockFreeing {
    var schedStepSeq: nat
    var processedStepSeq: nat
    var deferredFrees: seq<Entry>

    // What the requests carry (last_sched_seq) and what the cache manager and its pool hold.
    var owner: map<Ref, ReqId>
    var lastSchedSeq: map<ReqId, nat>
    var pool: seq<Ref>

    constructor ()
      ensures View() == Empty.s
    {
      schedStepSeq, processedStepSeq, deferredFrees := 0, 0, [];
      owner, lastSchedSeq, pool := map[], map[], [];
    }

    function View(): State
      reads this
    {
      State(schedStepSeq, processedStepSeq, deferredFrees, owner, lastSchedSeq, pool)
    }

    method DrainDeferredFrees()
      modifies this
      ensures View() == Drain(old(View()))
    {
      while deferredFrees != []
        invariant Drain(View()) == Drain(old(View()))
        decreases |deferredFrees|
      {
        var head := deferredFrees[0];
        if head.fence > processedStepSeq {
          break;
        }
        deferredFrees := deferredFrees[1..];
        pool := pool + Reversed(head.blocks);
      }
    }

    method FreeRequestBlocks(r: ReqId, blocks: seq<Ref>)
      modifies this
      ensures View() == FreeRequest(old(View()), r, blocks)
    {
      owner := map b | b in owner && owner[b] != r :: owner[b];
      var last := if r in lastSchedSeq then lastSchedSeq[r] else 0;
      if last <= processedStepSeq {
        pool := pool + blocks;
      } else if blocks != [] {
        deferredFrees := deferredFrees + [Entry(schedStepSeq, blocks)];
      }
    }

    method FreeCowRetainedBlocks(blocks: seq<Ref>, fence: nat)
      modifies this
      ensures View() == FreeRetained(old(View()), blocks, fence)
    {
      if fence <= processedStepSeq {
        pool := pool + blocks;
      } else {
        deferredFrees := deferredFrees + [Entry(fence, Reversed(blocks))];
      }
    }

    // The fencing part of schedule(): retentions first, then the sequence number of a non-empty step.
    method EndOfSchedule(scheduled: set<ReqId>, retained: seq<Ref>)
      modifies this
      ensures View() == if scheduled == {} then Retain(old(View()), retained)
                        else Stamp(Retain(old(View()), retained), scheduled)
    {
      if retained != [] {
        FreeCowRetainedBlocks(retained, schedStepSeq + 1);
      }
      if scheduled != {} {
        schedStepSeq := schedStepSeq + 1;
        lastSchedSeq := map r | r in lastSchedSeq.Keys + scheduled ::
          if r in scheduled then schedStepSeq else lastSchedSeq[r];
      }
    }

    // The fencing part of update_from_output for a non-empty step.
    method StepProcessed()
      modifies this
      ensures View() == Process(old(View()))
    {
      processedStepSeq := processedStepSeq + 1;
      DrainDeferredFrees();
    }
  }

  // --- Every run ----------------------------------------------------------------------------------

  // What an action adds to the references in circulation.
  function Introduced(e: Event): seq<Ref> {
    match e
    case Allocate(_, b) => [b]
    case Step(_, retained) => retained
    case _ => []
  }

  // Every action keeps the invariant, and moves references about without losing or duplicating one.
  lemma NextKeeps(sys: System, e: Event)
    requires Inv(sys) && Enabled(sys, e)
    ensures Inv(Next(sys, e))
    ensures forall b :: Places(Next(sys, e).s, b) == Places(sys.s, b) + if b in Introduced(e) then 1 else 0
  {
    match e
    case Allocate(r, b) => AllocateKeeps(sys, r, b);
    case Free(r, blocks) => FreeKeeps(sys, r, blocks);
    case Step(scheduled, retained) => StepKeeps(sys, scheduled, retained);
    case Complete => CompleteKeeps(sys);
  }

  lemma StepKeeps(sys: System, scheduled: set<ReqId>, retained: seq<Ref>)
    requires Inv(sys) && Enabled(sys, Step(scheduled, retained))
    ensures Inv(Next(sys, Step(scheduled, retained)))
    ensures forall b :: Places(Next(sys, Step(scheduled, retained)).s, b)
                     == Places(sys.s, b) + if b in retained then 1 else 0
  {
    RetainKeeps(sys, retained);
    hide Inv, Places;
    if scheduled != {} {
      assert Retain(sys.s, retained).schedSeq == sys.s.schedSeq;
      StampKeeps(sys.(s := Retain(sys.s, retained)), scheduled);
    }
  }

  lemma AllocateKeeps(sys: System, r: ReqId, b: Ref)
    requires Inv(sys) && Enabled(sys, Allocate(r, b))
    ensures Inv(Next(sys, Allocate(r, b)))
    ensures forall x :: Places(Next(sys, Allocate(r, b)).s, x) == Places(sys.s, x) + if x == b then 1 else 0
  {
    var s' := Next(sys, Allocate(r, b)).s;
    FreshIsNowhere(sys.s, b);
    assert b !in sys.s.owner;
    assert forall x :: Places(s', x) == Places(sys.s, x) + if x == b then 1 else 0;
    hide Places, Fresh, NearlyOrdered;
    forall q, x | q in sys.writes && x in sys.writes[q] && q > sys.s.processedSeq
      ensures Held(s', x, q)
    {
      assert Held(sys.s, x, q);
    }
  }

  ghost predicate EnabledRun(sys: System, es: seq<Event>)
    decreases |es|
  {
    es == [] || (Enabled(sys, es[0]) && EnabledRun(Next(sys, es[0]), es[1..]))
  }

  function Run(sys: System, es: seq<Event>): System
    decreases |es|
  {
    if es == [] then sys else Run(Next(sys, es[0]), es[1..])
  }

  function AllIntroduced(es: seq<Event>): seq<Ref> {
    if es == [] then [] else Introduced(es[0]) + AllIntroduced(es[1..])
  }

  const Empty := System(State(0, 0, [], map[], map[], []), map[])

  lemma {:induction false} RunKeeps(sys: System, es: seq<Event>)
    requires Inv(sys) && EnabledRun(sys, es)
    ensures Inv(Run(sys, es))
    ensures forall b :: Places(Run(sys, es).s, b) > 0 <==> Places(sys.s, b) > 0 || b in AllIntroduced(es)
    decreases |es|
  {
    if es != [] {
      NextKeeps(sys, es[0]);
      hide Inv, Places, Next, Enabled;
      RunKeeps(Next(sys, es[0]), es[1..]);
    }
  }

  // Over every run: no reference returns to the pool while a step that may write it is unprocessed; every deferred
  // entry is back one step after its fence at the latest; and every reference ever handed out is in exactly one place.
  lemma DeferredFreeing(es: seq<Event>)
    requires EnabledRun(Empty, es)
    ensures var sys := Run(Empty, es);
      Safe(sys) && Prompt(sys.s) && forall b :: Places(sys.s, b) == if b in AllIntroduced(es) then 1 else 0
  {
    assert Inv(Empty);
    RunKeeps(Empty, es);
    var sys := Run(Empty, es);
    InvImpliesSafe(sys);
    assert forall b :: Places(Empty.s, b) == 0;
  }

  // The one-step delay does happen: after an empty step retained a block, a request freed behind it keeps its block
  // although its own fence is reached.
  lemma DelayHappens() returns (es: seq<Event>)
    ensures EnabledRun(Empty, es)
    ensures var s := Run(Empty, es).s; s.processedSeq == s.schedSeq && Entry(s.processedSeq, [1]) in s.deferred
  {
    var rest := [Free(7, [1]), Complete];
    es := [Allocate(7, 1), Step({7}, []), Step({}, [2])] + rest;
    var s3 := DelayStart();
    var s1 := Next(Empty, es[0]);
    var s2 := Next(s1, es[1]);
    assert es[1..][1..][1..] == rest;
    DelayTail(s3);
    hide Next, Enabled;
    assert EnabledRun(s2, es[1..][1..]);
    assert EnabledRun(s1, es[1..]);
    assert Run(Empty, es) == Run(s1, es[1..]) == Run(s2, es[1..][1..]) == Run(s3, rest);
    assert Run(s3, rest).s.deferred[1] == Entry(1, [1]);
  }

  lemma DelayStart() returns (s3: System)
    ensures var s1 := Next(Empty, Allocate(7, 1));
      var s2 := Next(s1, Step({7}, []));
      && Enabled(Empty, Allocate(7, 1)) && Enabled(s1, Step({7}, [])) && Enabled(s2, Step({}, [2]))
      && s3 == Next(s2, Step({}, [2]))
    ensures s3.s == State(1, 0, [Entry(2, [2])], map[1 := 7], map[7 := 1], [])
  {
    var s1 := Next(Empty, Allocate(7, 1));
    assert s1.s == State(0, 0, [], map[1 := 7], map[], []);
    var s2 := Next(s1, Step({7}, []));
    assert s2.s == State(1, 0, [], map[1 := 7], map[7 := 1], []);
    s3 := Next(s2, Step({}, [2]));
    assert Reversed([2]) == [2];
  }

  lemma DelayTail(sys: System)
    requires sys.s == State(1, 0, [Entry(2, [2])], map[1 := 7], map[7 := 1], [])
    ensures EnabledRun(sys, [Free(7, [1]), Complete])
    ensures var s := Run(sys, [Free(7, [1]), Complete]).s;
      s.processedSeq == 1 == s.schedSeq && s.deferred == [Entry(2, [2]), Entry(1, [1])]
  {
    var es := [Free(7, [1]), Complete];
    var s1 := Next(sys, es[0]);
    assert Lists(sys.s, 7, [1]);
    assert s1.s.deferred == [Entry(2, [2]), Entry(1, [1])];
    var s2 := Next(s1, es[1]);
    assert es[1..] == [Complete];
    assert EnabledRun(s2, []);
    assert EnabledRun(s1, [Complete]);
    assert Run(s1, [Complete]) == Run(s2, []);
  }

  // --- When a request's blocks come back ------------------------------------------------------------------------

  // Read off the actions: how many non-empty steps were scheduled, how many processed, and which was the last to
  // schedule r.
  function Scheduled(es: seq<Event>): nat {
    if es == [] then 0
    else Scheduled(es[..|es| - 1]) + if es[|es| - 1].Step? && es[|es| - 1].scheduled != {} then 1 else 0
  }

  function Processed(es: seq<Event>): nat {
    if es == [] then 0 else Processed(es[..|es| - 1]) + if es[|es| - 1].Complete? then 1 else 0
  }

  function LastStepOf(es: seq<Event>, r: ReqId): nat {
    if es == [] then 0
    else if es[|es| - 1].Step? && r in es[|es| - 1].scheduled then Scheduled(es)
    else LastStepOf(es[..|es| - 1], r)
  }

  lemma {:induction false} RunSnoc(sys: System, es: seq<Event>, e: Event)
    ensures Run(sys, es + [e]) == Next(Run(sys, es), e)
    decreases |es|
  {
    hide Next;
    if es == [] {
      assert es + [e] == [e] && [e][1..] == [];
    } else {
      assert (es + [e])[1..] == es[1..] + [e] && (es + [e])[0] == es[0];
      RunSnoc(Next(sys, es[0]), es[1..], e);
    }
  }

  // The counters are these numbers.
  lemma {:induction false} CountersMean(es: seq<Event>, r: ReqId)
    ensures var s := Run(Empty, es).s;
      s.schedSeq == Scheduled(es) && s.processedSeq == Processed(es) && LastSched(s, r) == LastStepOf(es, r)
  {
    if es != [] {
      var front, last := es[..|es| - 1], es[|es| - 1];
      CountersMean(front, r);
      RunSnoc(Empty, front, last);
      assert es == front + [last];
      OneCounted(Run(Empty, front), last, r);
    }
  }

  lemma OneCounted(sys: System, e: Event, r: ReqId)
    ensures var s, s' := sys.s, Next(sys, e).s;
      && s'.schedSeq == s.schedSeq + (if e.Step? && e.scheduled != {} then 1 else 0)
      && s'.processedSeq == s.processedSeq + (if e.Complete? then 1 else 0)
      && LastSched(s', r) == if e.Step? && r in e.scheduled then s.schedSeq + 1 else LastSched(s, r)
  {
    if e.Complete? {
      DrainConserves(sys.s.(processedSeq := sys.s.processedSeq + 1));
    }
  }

  // Over every run: a request whose last step has been processed gets all its blocks back at once; otherwise they wait,
  // all of them, behind the last step scheduled so far.
  lemma FreedAtOnceExactly(es: seq<Event>, r: ReqId, blocks: seq<Ref>)
    requires EnabledRun(Empty, es) && Enabled(Run(Empty, es), Free(r, blocks))
    ensures var s, s' := Run(Empty, es).s, Next(Run(Empty, es), Free(r, blocks)).s;
      && (forall b :: b in blocks <==> Owns(s, r, b)) && (forall b :: b in s'.owner <==> b in s.owner && b !in blocks)
      && if LastStepOf(es, r) <= Processed(es)
         then s'.deferred == s.deferred && s'.pool == s.pool + blocks
         else s'.pool == s.pool
              && s'.deferred == s.deferred + if blocks == [] then [] else [Entry(Scheduled(es), blocks)]
  {
    CountersMean(es, r);
    hide Run, EnabledRun;
    forall b ensures b in blocks <==> Owns(Run(Empty, es).s, r, b) {
      assert b in blocks <==> multiset(blocks)[b] > 0;
    }
  }

  // In particular at once if the last step to schedule r could write a block of r, and every step that can write one has
  // been processed.
  lemma FreedWhenWritesAreDone(sys: System, r: ReqId, blocks: seq<Ref>)
    requires Inv(sys) && Enabled(sys, Free(r, blocks))
    requires forall q :: q in sys.writes && (exists b :: b in blocks && b in sys.writes[q]) ==> q <= sys.s.processedSeq
    requires LastSched(sys.s, r) > 0 ==>
      LastSched(sys.s, r) in sys.writes && exists b :: b in blocks && b in sys.writes[LastSched(sys.s, r)]
    ensures Next(sys, Free(r, blocks)).s.deferred == sys.s.deferred
    ensures Next(sys, Free(r, blocks)).s.pool == sys.s.pool + blocks
  {
  }

  // Without the former they may wait: scheduled while it holds nothing, given a block, and freed.
  lemma WaitsUnwritten() returns (es: seq<Event>)
    ensures EnabledRun(Empty, es) && Enabled(Run(Empty, es), Free(7, [4]))
    ensures forall q :: q in Run(Empty, es).writes ==> 4 !in Run(Empty, es).writes[q]
    ensures Next(Run(Empty, es), Free(7, [4])).s.deferred == [Entry(1, [4])]
  {
    es := [Step({7}, []), Allocate(7, 4)];
    var s1 := Next(Empty, es[0]);
    assert s1.s == State(1, 0, [], map[], map[7 := 1], []) && s1.writes == map[1 := s1.writes[1]];
    assert 4 !in s1.writes[1];
    var s2 := Next(s1, es[1]);
    assert s2.s == State(1, 0, [], map[4 := 7], map[7 := 1], []);
    assert es[1..] == [es[1]] && es[1..][1..] == [];
    assert EnabledRun(s2, []);
    assert EnabledRun(s1, es[1..]) && Run(s1, es[1..]) == Run(s2, []);
    assert Lists(s2.s, 7, [4]);
  }

  // Freed, or waiting behind the fence f.
  ghost predicate Waits(s: State, b: Ref, f: nat) {
    b in s.pool || exists i :: 0 <= i < |s.deferred| && b in s.deferred[i].blocks && s.deferred[i].fence == f
  }

  lemma {:induction false} DrainWaits(s: State, b: Ref, f: nat)
    requires Waits(s, b, f)
    ensures Waits(Drain(s), b, f)
    decreases |s.deferred|
  {
    if s.deferred != [] && s.deferred[0].fence <= s.processedSeq {
      var head := s.deferred[0];
      var s1 := s.(deferred := s.deferred[1..], pool := s.pool + Reversed(head.blocks));
      if b !in s.pool {
        var i :| 0 <= i < |s.deferred| && b in s.deferred[i].blocks && s.deferred[i].fence == f;
        if i == 0 {
          ReversedMultiset(head.blocks);
          assert b in multiset(Reversed(head.blocks));
        } else {
          assert s1.deferred[i - 1] == s.deferred[i];
        }
      }
      DrainWaits(s1, b, f);
    }
  }

  lemma StepWaits(sys: System, e: Event, b: Ref, f: nat)
    requires Inv(sys) && Enabled(sys, e) && Waits(sys.s, b, f)
    ensures Waits(Next(sys, e).s, b, f)
  {
    var s, s' := sys.s, Next(sys, e).s;
    hide Reversed, Inv, Enabled;
    if e.Complete? {
      DrainWaits(s.(processedSeq := s.processedSeq + 1), b, f);
    } else if b !in s.pool {
      var i :| 0 <= i < |s.deferred| && b in s.deferred[i].blocks && s.deferred[i].fence == f;
      assert i < |s'.deferred| && s'.deferred[i] == s.deferred[i];
    }
  }

  lemma {:induction false} RunWaits(sys: System, es: seq<Event>, b: Ref, f: nat)
    requires Inv(sys) && EnabledRun(sys, es) && Waits(sys.s, b, f)
    ensures Waits(Run(sys, es).s, b, f)
    decreases |es|
  {
    hide Inv, Enabled, Next, Waits;
    if es != [] {
      StepWaits(sys, es[0], b, f);
      NextKeeps(sys, es[0]);
      RunWaits(Next(sys, es[0]), es[1..], b, f);
    }
  }

  // A block that waits behind the fence f comes back: at the latest with the step after f, and with f itself unless an
  // entry ahead of it has a later fence.
  lemma ComesBack(sys: System, es: seq<Event>, b: Ref, f: nat)
    requires Inv(sys) && EnabledRun(sys, es) && Waits(sys.s, b, f)
    ensures var s := Run(sys, es).s;
      && (s.processedSeq > f ==> b in s.pool)
      && (s.processedSeq == f ==> b in s.pool || exists i, j ::
            0 <= j < i < |s.deferred| && b in s.deferred[i].blocks && s.deferred[i].fence == f < s.deferred[j].fence)
  {
    RunWaits(sys, es, b, f);
    RunKeeps(sys, es);
    hide Run, EnabledRun, AllHeld, Unique;
    var s := Run(sys, es).s;
    if b !in s.pool && s.processedSeq >= f {
      var i :| 0 <= i < |s.deferred| && b in s.deferred[i].blocks && s.deferred[i].fence == f;
      assert s.deferred[0].fence > s.processedSeq;
      assert 0 < i;
    }
  }

  // So do the blocks of a freed request, once every step scheduled before the free and the next one are processed.
  lemma FreedComesBack(es: seq<Event>, r: ReqId, blocks: seq<Ref>, after: seq<Event>, b: Ref)
    requires EnabledRun(Empty, es) && Enabled(Run(Empty, es), Free(r, blocks)) && b in blocks
    requires EnabledRun(Next(Run(Empty, es), Free(r, blocks)), after)
    ensures var s := Run(Next(Run(Empty, es), Free(r, blocks)), after).s;
      && (s.processedSeq > Scheduled(es) ==> b in s.pool)
      && (s.processedSeq == Scheduled(es) ==> b in s.pool || exists i, j ::
            0 <= j < i < |s.deferred| && b in s.deferred[i].blocks && s.deferred[i].fence < s.deferred[j].fence)
  {
    assert Inv(Empty);
    RunKeeps(Empty, es);
    FreedAtOnceExactly(es, r, blocks);
    var sys := Run(Empty, es);
    NextKeeps(sys, Free(r, blocks));
    var sys' := Next(sys, Free(r, blocks));
    if b !in sys'.s.pool {
      assert sys'.s.deferred[|sys.s.deferred|] == Entry(Scheduled(es), blocks);
    }
    hide Inv, Next, Run, EnabledRun, Enabled;
    ComesBack(sys', after, b, Scheduled(es));
  }
}
