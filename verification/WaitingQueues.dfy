// The three queues during the waiting loop, on values: everybody is in exactly one of them, and has taken at most one
// action of RequestMachine.
module WaitingQueues {
  import opened Arithmetic
  import opened RequestMachine
  import opened AsyncRequest
  import opened RunningLoop
  import opened SchedulePlan
  import opened Sequences

  ghost predicate Once(all: multiset<Request>) {
    forall r :: r in all ==> all[r] == 1
  }

  lemma InOneQueue(running: seq<Request>, held: seq<Request>, skipped: seq<Request>, waiting: seq<Request>, r: Request)
    requires Once(multiset(running) + multiset(held) + multiset(skipped) + multiset(waiting))
    requires r in skipped || r in waiting
    ensures r !in running && r !in held
  {
    var all := multiset(running) + multiset(held) + multiset(skipped) + multiset(waiting);
    assert r in all;
    assert all[r] == multiset(running)[r] + multiset(held)[r] + multiset(skipped)[r] + multiset(waiting)[r];
  }

  lemma TwoPlaces(q: seq<Request>, i: nat, j: nat)
    requires i < j < |q|
    ensures q[i] == q[j] ==> multiset(q)[q[i]] >= 2
  {
    assert q == q[..j] + [q[j]] + q[j + 1..];
    assert multiset(q) == multiset(q[..j]) + multiset{q[j]} + multiset(q[j + 1..]);
    assert q[..j][i] in q[..j];
  }

  lemma OnceDistinct(q: seq<Request>, a: multiset<Request>, b: multiset<Request>)
    requires Once(multiset(q) + a + b)
    ensures Distinct(q)
  {
    forall i, j | 0 <= i < j < |q| ensures q[i] != q[j] {
      TwoPlaces(q, i, j);
      assert (multiset(q) + a + b)[q[i]] == multiset(q)[q[i]] + a[q[i]] + b[q[i]];
      assert q[i] in q;
    }
  }

  // Preempted requests move from the running ones to the head of the waiting ones.
  lemma StillQueued(running0: seq<Request>, running: seq<Request>, skipped: seq<Request>, waiting0: seq<Request>,
                    waiting: seq<Request>, preempted: seq<Request>)
    requires multiset(running0) == multiset(running) + multiset(preempted) && waiting == Reversed(preempted) + waiting0
    ensures multiset(running) + multiset(skipped) + multiset(waiting)
         == multiset(running0) + multiset(skipped) + multiset(waiting0)
    ensures forall r :: r in waiting <==> r in preempted || r in waiting0
    ensures preempted == [] ==> waiting == waiting0
  {
    ReversedMultiset(preempted);
    assert multiset(waiting) == multiset(preempted) + multiset(waiting0);
    forall r ensures r in waiting <==> r in preempted || r in waiting0 {
      assert r in waiting <==> r in multiset(waiting);
      assert r in preempted <==> r in multiset(preempted);
      assert r in waiting0 <==> r in multiset(waiting0);
    }
  }

  predicate Waits(status: Status) {
    status.Waiting? || status.Preempted?
  }

  ghost predicate AllWait(q: seq<Request>)
    reads q
  {
    forall r :: r in q ==> r.Valid() && Waits(r.status)
  }

  lemma MambaValid(q: seq<Request>)
    requires AllWait(q)
    ensures forall r :: r in q ==> r.limits.mamba.Valid()
  {
  }

  lemma BothWait(p: seq<Request>, q: seq<Request>, all: seq<Request>)
    requires AllWait(p) && AllWait(q) && forall r :: r in all ==> r in p || r in q
    ensures AllWait(all)
  {
  }

  // The state when the waiting loop began: who ran, everybody, what the waiting requests were and when they may decode
  // next, the two queues, and the plan so far.
  datatype PassStart = PassStart(
    running: seq<Request>,
    all: multiset<Request>,
    was: map<Request, System>,
    eligible: map<Request, int>,
    skipped: seq<Request>,
    waiting: seq<Request>,
    first: Plan<Request>,
    deferPrefills: bool)

  ghost function PassOf(running: seq<Request>, skipped: seq<Request>, waiting: seq<Request>, was: map<Request, System>,
                        eligible: map<Request, int>, first: Plan<Request>, deferPrefills: bool): PassStart
    requires Members(waiting + skipped) <= was.Keys && Members(waiting + skipped) <= eligible.Keys
  {
    PassStart(running, multiset(running) + multiset(skipped) + multiset(waiting),
              map r | r in waiting + skipped :: was[r], map r | r in waiting + skipped :: eligible[r],
              skipped, waiting, first, deferPrefills)
  }

  // The pass starts from what the step knew of the requests that do not run.
  ghost predicate PassKnown(pass: PassStart, was: map<Request, System>, eligible: map<Request, int>,
                            running: seq<Request>)
  {
    && (forall r :: r in was ==> r in running || r in pass.was)
    && (forall r :: r in pass.was ==> r in was && pass.was[r] == was[r])
    && (forall r :: r in eligible ==> r in running || r in pass.eligible)
    && (forall r :: r in pass.eligible ==> r in eligible && pass.eligible[r] == eligible[r])
  }

  // Nobody is lost, nobody is in two queues.
  ghost predicate Queued(start: PassStart, maxRunning: int, running: seq<Request>, held: seq<Request>,
                         skipped: seq<Request>, waiting: seq<Request>, admitted: seq<Request>)
  {
    && Once(start.all)
    && start.all == multiset(running) + multiset(held) + multiset(skipped) + multiset(waiting)
    && running == start.running + admitted && |running| <= Max(maxRunning, |start.running|)
    && Known(admitted, start.was) && Known(held, start.was) && Known(skipped, start.was) && Known(waiting, start.was)
  }

  ghost predicate Known(q: seq<Request>, was: map<Request, System>) {
    forall r :: r in q ==> r in was
  }

  // What remains of a queue when its head is taken.
  function Rest(q: seq<Request>, taken: bool): seq<Request>
    requires taken ==> q != []
  {
    if taken then q[1..] else q
  }

  lemma TakeHead(skipped: seq<Request>, waiting: seq<Request>, fromSkipped: bool)
    requires if fromSkipped then skipped != [] else waiting != []
    ensures var r := if fromSkipped then skipped[0] else waiting[0];
      && multiset(skipped) + multiset(waiting)
         == multiset{r} + multiset(Rest(skipped, fromSkipped)) + multiset(Rest(waiting, !fromSkipped))
      && (forall x :: x in Rest(skipped, fromSkipped) ==> x in skipped)
      && (forall x :: x in Rest(waiting, !fromSkipped) ==> x in waiting)
  {
    if fromSkipped {
      assert skipped == [skipped[0]] + skipped[1..];
    } else {
      assert waiting == [waiting[0]] + waiting[1..];
    }
  }

  lemma KnownHead(skipped: seq<Request>, waiting: seq<Request>, held: seq<Request>, admitted: seq<Request>,
                  was: map<Request, System>, fromSkipped: bool)
    requires Known(skipped, was) && Known(waiting, was) && Known(held, was) && Known(admitted, was)
    requires if fromSkipped then skipped != [] else waiting != []
    ensures var r := if fromSkipped then skipped[0] else waiting[0];
      && Known([r] + held, was) && Known(admitted + [r], was)
      && Known(Rest(skipped, fromSkipped), was) && Known(Rest(waiting, !fromSkipped), was)
  {
    TakeHead(skipped, waiting, fromSkipped);
  }

  // The head of a queue is nowhere else.
  lemma HeadIsFree(start: PassStart, maxRunning: int, running: seq<Request>, held: seq<Request>, skipped: seq<Request>,
                   waiting: seq<Request>, admitted: seq<Request>, fromSkipped: bool)
    requires Queued(start, maxRunning, running, held, skipped, waiting, admitted)
    requires if fromSkipped then skipped != [] else waiting != []
    ensures var r := if fromSkipped then skipped[0] else waiting[0];
      r in start.was && r !in running && r !in admitted
      && r !in Rest(skipped, fromSkipped) && r !in Rest(waiting, !fromSkipped)
  {
    var r := if fromSkipped then skipped[0] else waiting[0];
    InOneQueue(running, held, skipped, waiting, r);
    TakeHead(skipped, waiting, fromSkipped);
    hide Rest;
    var before := multiset(skipped) + multiset(waiting);
    var after := multiset(Rest(skipped, fromSkipped)) + multiset(Rest(waiting, !fromSkipped));
    assert start.all == multiset(running) + multiset(held) + before;
    assert before == multiset{r} + after;
    assert start.all[r] == 1;
    assert after[r] == 0;
  }

  lemma Regroup(a: multiset<Request>, b: multiset<Request>, c: multiset<Request>, d: multiset<Request>)
    ensures a + b + c + d == a + b + (c + d)
  {
  }

  lemma MoveOne(a: multiset<Request>, b: multiset<Request>, before: multiset<Request>, r: Request,
                c: multiset<Request>, d: multiset<Request>)
    requires before == multiset{r} + c + d
    ensures a + b + before == a + (multiset{r} + b) + c + d
    ensures a + b + before == (a + multiset{r}) + b + c + d
  {
  }

  lemma MovedCounts(running: seq<Request>, held: seq<Request>, skipped: seq<Request>, waiting: seq<Request>,
                    fromSkipped: bool)
    requires if fromSkipped then skipped != [] else waiting != []
    ensures var r := if fromSkipped then skipped[0] else waiting[0];
      var all := multiset(running) + multiset(held) + multiset(skipped) + multiset(waiting);
      var s', w' := multiset(Rest(skipped, fromSkipped)), multiset(Rest(waiting, !fromSkipped));
      all == multiset(running) + multiset([r] + held) + s' + w' == multiset(running + [r]) + multiset(held) + s' + w'
  {
    var r := if fromSkipped then skipped[0] else waiting[0];
    TakeHead(skipped, waiting, fromSkipped);
    hide Rest;
    assert multiset([r] + held) == multiset{r} + multiset(held);
    assert multiset(running + [r]) == multiset(running) + multiset{r};
    MoveOne(multiset(running), multiset(held), multiset(skipped) + multiset(waiting), r,
            multiset(Rest(skipped, fromSkipped)), multiset(Rest(waiting, !fromSkipped)));
    Regroup(multiset(running), multiset(held), multiset(skipped), multiset(waiting));
  }

  // It may be moved to the held requests.
  lemma HeadToHeld(start: PassStart, maxRunning: int, running: seq<Request>, held: seq<Request>, skipped: seq<Request>,
                   waiting: seq<Request>, admitted: seq<Request>, fromSkipped: bool)
    requires Queued(start, maxRunning, running, held, skipped, waiting, admitted)
    requires if fromSkipped then skipped != [] else waiting != []
    ensures var r := if fromSkipped then skipped[0] else waiting[0];
      Queued(start, maxRunning, running, [r] + held, Rest(skipped, fromSkipped), Rest(waiting, !fromSkipped), admitted)
  {
    KnownHead(skipped, waiting, held, admitted, start.was, fromSkipped);
    MovedCounts(running, held, skipped, waiting, fromSkipped);
    hide Rest, Once, Known;
  }

  // It may be moved to the running requests while there is room.
  lemma HeadToRunning(start: PassStart, maxRunning: int, running: seq<Request>, held: seq<Request>, skipped: seq<Request>,
                      waiting: seq<Request>, admitted: seq<Request>, fromSkipped: bool)
    requires Queued(start, maxRunning, running, held, skipped, waiting, admitted)
    requires (if fromSkipped then skipped != [] else waiting != []) && |running| < maxRunning
    ensures var r := if fromSkipped then skipped[0] else waiting[0];
      Queued(start, maxRunning, running + [r], held, Rest(skipped, fromSkipped), Rest(waiting, !fromSkipped),
             admitted + [r])
  {
    KnownHead(skipped, waiting, held, admitted, start.was, fromSkipped);
    MovedCounts(running, held, skipped, waiting, fromSkipped);
    hide Rest, Once, Known;
  }

  // Putting the held requests back.
  lemma HeldBack(start: PassStart, maxRunning: int, running: seq<Request>, held: seq<Request>, skipped: seq<Request>,
                 waiting: seq<Request>, admitted: seq<Request>)
    requires Queued(start, maxRunning, running, held, skipped, waiting, admitted)
    ensures Queued(start, maxRunning, running, [], held + skipped, waiting, admitted)
  {
    hide Once;
    assert multiset(held + skipped) == multiset(held) + multiset(skipped);
    assert start.all == multiset(running) + multiset([]) + multiset(held + skipped) + multiset(waiting);
  }

  // Nothing that is still in a queue has been looked up.
  ghost predicate Untouched(events: map<Request, Event>, skipped: seq<Request>, waiting: seq<Request>) {
    forall r :: r in events ==> r !in skipped && r !in waiting
  }

  lemma HeadUntouched(events: map<Request, Event>, skipped: seq<Request>, waiting: seq<Request>, r: Request)
    requires Untouched(events, skipped, waiting) && (r in skipped || r in waiting)
    ensures r !in events
  {
  }

  // The head leaves its queue; what it does then is no concern of the others.
  lemma StillUntouched(events: map<Request, Event>, events': map<Request, Event>, r: Request, skipped: seq<Request>,
                       waiting: seq<Request>, fromSkipped: bool)
    requires Untouched(events, skipped, waiting) && if fromSkipped then skipped != [] else waiting != []
    requires r !in Rest(skipped, fromSkipped) && r !in Rest(waiting, !fromSkipped)
    requires forall x :: x in events' ==> x in events || x == r
    ensures Untouched(events', Rest(skipped, fromSkipped), Rest(waiting, !fromSkipped))
  {
    TakeHead(skipped, waiting, fromSkipped);
  }

  datatype Taken = Nothing | Took(event: Event)

  function TakenBy(events: map<Request, Event>, r: Request): Taken {
    if r in events then Took(events[r]) else Nothing
  }

  // An admitted request has resumed; any other was at most looked up.
  ghost predicate Did(r: Request, was: System, admitted: bool, taken: Taken)
    reads r
  {
    && r.Valid()
    && (if taken.Took? then Enabled(r.limits, was, taken.event) && r.Sys() == Next(r.limits, was, taken.event)
        else r.Sys() == was)
    && if admitted then taken.Took? && taken.event.Resume? && r.status.Running?
       else Waits(r.status) && (taken.Took? ==> taken.event.CacheLookup?)
  }

  // Each request has taken at most one action.
  ghost predicate Progress(was: map<Request, System>, admitted: seq<Request>, events: map<Request, Event>)
    reads was.Keys
  {
    && (forall r :: r in was ==> Did(r, was[r], r in admitted, TakenBy(events, r)))
    && (forall r :: r in events ==> r in was)
  }

  // One request moves on, the others are where they were.
  lemma OneMoved(was: map<Request, System>, admitted: seq<Request>, admitted': seq<Request>, events: map<Request, Event>,
                 request: Request, e: Event)
    requires request in was && Did(request, was[request], request in admitted', Took(e))
    requires forall r :: r in was && r != request ==> Did(r, was[r], r in admitted, TakenBy(events, r))
    requires forall r :: r in was && r != request ==> (r in admitted <==> r in admitted')
    requires forall r :: r in events ==> r in was
    ensures Progress(was, admitted', events[request := e])
  {
    hide Did;
    forall r | r in was ensures Did(r, was[r], r in admitted', TakenBy(events[request := e], r)) {
      if r != request {
        assert TakenBy(events[request := e], r) == TakenBy(events, r);
      }
    }
  }

  // An admission right after the lookup is the admission with that junction.
  lemma LookupThenResume(l: Limits, s: System, junction: nat, computed: int, allowance: int, k: nat)
    requires l.mamba.Valid() && Enabled(l, s, CacheLookup(junction))
    ensures var e, s1 := Resume(computed, junction, allowance, k), Next(l, s, CacheLookup(junction));
      Enabled(l, s1, e) ==> Enabled(l, s, e) && Next(l, s1, e) == Next(l, s, e)
  {
  }

  // The count is asked for with the junction in force.
  lemma JunctionGiven(l: Limits, r: RequestState, computed: int, junction: nat, allowance: int)
    requires l.mamba.Valid()
    ensures NumAdmittedTokens(l, r.(junction := junction), computed, junction, allowance)
         == NumAdmittedTokens(l, r, computed, junction, allowance)
  {
  }

  lemma AdmittedAtMost(l: Limits, r: RequestState, computed: nat, junction: nat, allowance: int)
    requires l.mamba.Valid() && computed < |r.tokens| && 0 < allowance
    ensures 0 <= NumAdmittedTokens(l, r, computed, junction, allowance) <= allowance
  {
  }

  // What has been scheduled or resumed is what had an entry or was admitted.
  lemma JoinKinds(was: map<Request, System>, running: seq<Request>, queued: set<Request>, admitted: seq<Request>,
                  events: map<Request, Event>, more: map<Request, Event>, planned: set<Request>)
    requires forall r :: r in running ==> r !in queued
    requires forall r :: r in queued ==> r in was && Did(r, was[r], r in admitted, TakenBy(more, r))
    requires (forall r :: r in events ==> r in running) && (forall r :: r in more ==> r in queued)
    requires forall r :: r in admitted ==> r in queued
    requires forall r :: r in planned <==> r in events && events[r].Schedule?
    requires forall r :: r in events ==> !events[r].Resume?
    ensures forall r :: r in admitted <==> r in events + more && (events + more)[r].Resume?
    ensures forall r :: r in planned + Members(admitted) <==>
      r in events + more && ((events + more)[r].Schedule? || (events + more)[r].Resume?)
  {
    forall r | r in more ensures more[r].Resume? <==> r in admitted
    {
      assert Did(r, was[r], r in admitted, TakenBy(more, r));
    }
  }

  lemma AdmittedRun(was: map<Request, System>, queued: set<Request>, admitted: seq<Request>, events: map<Request, Event>)
    requires forall r :: r in queued ==> r in was && Did(r, was[r], r in admitted, TakenBy(events, r))
    requires forall r :: r in admitted ==> r in queued
    ensures forall r :: r in admitted ==> r.Valid() && r.status.Running? && r in events && events[r].Resume?
  {
  }

  // The running part and the waiting part act on different requests.
  lemma JoinActed(was: map<Request, System>, running: seq<Request>, queued: set<Request>, admitted: seq<Request>,
                  events: map<Request, Event>, more: map<Request, Event>)
    requires forall r :: r in was ==> r in running || r in queued
    requires forall r :: r in running ==> r !in queued && (r in was ==> Acted(r, was[r], events))
    requires forall r :: r in queued ==> r in was && Did(r, was[r], r in admitted, TakenBy(more, r))
    requires (forall r :: r in events ==> r in running) && (forall r :: r in more ==> r in queued)
    ensures EveryoneActed(was, events + more)
  {
  }
}
