// A batch of outputs, on values: which requests it stops, what the queues keep, and what any sequence of calls that
// takes at most one action per request means for each of them.
module Deliveries {
  import opened RequestMachine
  import opened RequestSafety
  import opened AsyncRequest
  import opened RunningLoop
  import opened Sequences
  import opened WaitingQueues

  // One request's entry in a scheduler output, and what the workers returned for it.
  datatype Delivery = Delivery(request: Request, numTokens: int, drafts: int, generated: seq<int>)

  // The entry is the request's oldest step in flight, and the workers ran it.
  ghost predicate Answers(d: Delivery, was: System) {
    && Inv(d.request.limits, was) && d.request.limits.mamba.Valid()
    && Enabled(d.request.limits, was, Deliver(d.generated))
    && d.numTokens == was.steps[0].numTokens && d.drafts == was.steps[0].drafts
  }

  ghost predicate AllAnswer(batch: seq<Delivery>, was: map<Request, System>) {
    && (forall i, j :: 0 <= i < j < |batch| ==> batch[i].request != batch[j].request)
    && forall d :: d in batch ==> d.request in was && Answers(d, was[d.request])
  }

  function DeliveryEvents(batch: seq<Delivery>): map<Request, Event> {
    if batch == [] then map[]
    else
      var last := batch[|batch| - 1];
      DeliveryEvents(batch[..|batch| - 1])[last.request := Deliver(last.generated)]
  }

  lemma {:induction false} OnlyDeliveries(batch: seq<Delivery>)
    ensures forall r :: r in DeliveryEvents(batch) ==>
      DeliveryEvents(batch)[r].Deliver? && exists i :: 0 <= i < |batch| && batch[i].request == r
    ensures forall d :: d in batch ==> d.request in DeliveryEvents(batch)
  {
    if batch != [] {
      var front := batch[..|batch| - 1];
      OnlyDeliveries(front);
      forall r | r in DeliveryEvents(batch)
        ensures DeliveryEvents(batch)[r].Deliver? && exists i :: 0 <= i < |batch| && batch[i].request == r
      {
        if r == batch[|batch| - 1].request {
          assert batch[|batch| - 1].request == r;
        } else {
          assert r in DeliveryEvents(front);
          var i :| 0 <= i < |front| && front[i].request == r;
          assert batch[i].request == r;
        }
      }
      assert batch == front + [batch[|batch| - 1]];
    }
  }

  // The i-th entry is for a request that has not been served yet.
  lemma NotServed(batch: seq<Delivery>, was: map<Request, System>, i: nat)
    requires AllAnswer(batch, was) && i < |batch|
    ensures batch[i].request !in DeliveryEvents(batch[..i])
    ensures DeliveryEvents(batch[..i + 1]) == DeliveryEvents(batch[..i])[batch[i].request := Deliver(batch[i].generated)]
  {
    OnlyDeliveries(batch[..i]);
    assert batch[..i + 1][..i] == batch[..i];
  }

  // update_from_output for one request of the batch, seen with everybody else.
  method DeliverOne(ghost was: map<Request, System>, ghost done: map<Request, Event>, d: Delivery)
    returns (stopped: bool, ran: bool, delivered: seq<int>)
    requires EveryoneActed(was, done) && d.request in was && d.request !in done && Answers(d, was[d.request])
    modifies d.request
    ensures EveryoneActed(was, done[d.request := Deliver(d.generated)])
    ensures old(d.request.status) == was[d.request].request.status
    ensures stopped == (!was[d.request].request.status.Finished? && d.request.status.Finished?)
    ensures ran == was[d.request].request.status.Running?
    ensures Emits(d, was, delivered) && d.request.nextDecodeEligibleStep == old(d.request.nextDecodeEligibleStep)
  {
    hide Inv, Enabled, Next, Output;
    var request := d.request;
    ran := request.status.Running?;
    var finished := request.status.Finished?;
    delivered := request.UpdateFromOutput(d.numTokens, d.drafts, d.generated);
    stopped := request.status.Finished? && !finished;
  }

  // What the call hands out for one request is the block the machine emits.
  ghost predicate Emits(d: Delivery, was: map<Request, System>, delivered: seq<int>) {
    && d.request in was && d.request.limits.mamba.Valid()
    && Enabled(d.request.limits, was[d.request], Deliver(d.generated))
    && var out := Output(d.request.limits, was[d.request], Deliver(d.generated));
       delivered == if out == [] then [] else out[0].tokens
  }

  // --- The queues without the stopped requests -----------------------------------------------------------------

  // What is not finished, in order; remove_all and remove_requests are Keep.
  function NotFinished(q: seq<Request>): seq<Request>
    reads q
  {
    if q == [] then [] else (if q[0].status.Finished? then [] else [q[0]]) + NotFinished(q[1..])
  }

  lemma {:induction false} KeptAreNotFinished(q: seq<Request>, gone: set<Request>)
    requires forall r :: r in q ==> (r in gone <==> r.status.Finished?)
    ensures Keep(q, gone) == NotFinished(q)
  {
    if q != [] {
      KeptAreNotFinished(q[1..], gone);
    }
  }

  lemma KeepOnce(running: seq<Request>, skipped: seq<Request>, waiting: seq<Request>, a: set<Request>, b: set<Request>)
    requires Once(multiset(running) + multiset(skipped) + multiset(waiting))
    ensures Once(multiset(Keep(running, a)) + multiset(Keep(skipped, b)) + multiset(Keep(waiting, b)))
  {
    hide Once, Keep;
    KeepFewer(running, a);
    KeepFewer(skipped, b);
    KeepFewer(waiting, b);
    SumFewer(multiset(running), multiset(skipped), multiset(waiting),
             multiset(Keep(running, a)), multiset(Keep(skipped, b)), multiset(Keep(waiting, b)));
    FewerOnce(multiset(running) + multiset(skipped) + multiset(waiting),
              multiset(Keep(running, a)) + multiset(Keep(skipped, b)) + multiset(Keep(waiting, b)));
  }

  lemma {:induction false} KeepFewer(q: seq<Request>, gone: set<Request>)
    ensures multiset(Keep(q, gone)) <= multiset(q)
  {
    if q != [] {
      KeepFewer(q[1..], gone);
      assert q == [q[0]] + q[1..];
      var first := if q[0] in gone then [] else [q[0]];
      assert multiset(Keep(q, gone)) == multiset(first) + multiset(Keep(q[1..], gone));
      assert multiset(q) == multiset{q[0]} + multiset(q[1..]);
    }
  }

  lemma SumFewer(a: multiset<Request>, b: multiset<Request>, c: multiset<Request>,
                 x: multiset<Request>, y: multiset<Request>, z: multiset<Request>)
    requires x <= a && y <= b && z <= c
    ensures x + y + z <= a + b + c
  {
  }

  lemma FewerOnce(all: multiset<Request>, kept: multiset<Request>)
    requires Once(all) && kept <= all
    ensures Once(kept)
  {
    forall r | r in kept ensures kept[r] == 1 {
      assert 0 < kept[r] <= all[r];
      assert r in all;
    }
  }

  lemma DeliveredStatus(r: Request, was: System, events: map<Request, Event>)
    requires Acted(r, was, events) && Inv(r.limits, was) && (r in events ==> events[r].Deliver?)
    ensures r.Valid() && (r.status == was.request.status || r.status.Finished?)
  {
    if r in events {
      NextKeeps(r.limits, was, events[r]);
    }
  }

  // Who has stopped, by where it was.
  ghost predicate Sorted(was: map<Request, System>, ran: set<Request>, waited: set<Request>)
    reads was.Keys
  {
    && ran <= was.Keys && waited <= was.Keys
    && forall r :: r in was ==>
         && (r in ran <==> was[r].request.status.Running? && r.status.Finished?)
         && (r in waited <==> Waits(was[r].request.status) && r.status.Finished?)
  }

  // --- Any sequence of calls ---------------------------------------------------------------------------------

  // What one call does: every request in `events` takes its action, the others stay.
  ghost predicate CallEnabled<R>(limits: map<R, Limits>, fleet: map<R, System>, events: map<R, Event>) {
    && fleet.Keys <= limits.Keys && events.Keys <= fleet.Keys
    && forall r :: r in fleet ==>
         limits[r].mamba.Valid() && (r in events ==> Enabled(limits[r], fleet[r], events[r]))
  }

  ghost function AfterCall<R>(limits: map<R, Limits>, fleet: map<R, System>, events: map<R, Event>): map<R, System>
    requires CallEnabled(limits, fleet, events)
  {
    map r | r in fleet :: if r in events then Next(limits[r], fleet[r], events[r]) else fleet[r]
  }

  ghost predicate CallsEnabled<R>(limits: map<R, Limits>, fleet: map<R, System>, calls: seq<map<R, Event>>)
    decreases |calls|
  {
    calls == [] ||
    (CallEnabled(limits, fleet, calls[0]) && CallsEnabled(limits, AfterCall(limits, fleet, calls[0]), calls[1..]))
  }

  ghost function AfterCalls<R>(limits: map<R, Limits>, fleet: map<R, System>, calls: seq<map<R, Event>>): map<R, System>
    requires CallsEnabled(limits, fleet, calls)
    decreases |calls|
  {
    if calls == [] then fleet else AfterCalls(limits, AfterCall(limits, fleet, calls[0]), calls[1..])
  }

  // The actions one request takes, in order.
  function Story<R>(calls: seq<map<R, Event>>, r: R): seq<Event> {
    if calls == [] then [] else (if r in calls[0] then [calls[0][r]] else []) + Story(calls[1..], r)
  }

  // For each request a sequence of calls is a run of the machine.
  lemma {:induction false} CallsAreRuns<R>(limits: map<R, Limits>, fleet: map<R, System>, calls: seq<map<R, Event>>,
                                                 r: R)
    requires CallsEnabled(limits, fleet, calls) && r in fleet && r in limits && limits[r].mamba.Valid()
    ensures r in AfterCalls(limits, fleet, calls) && EnabledRun(limits[r], fleet[r], Story(calls, r))
    ensures AfterCalls(limits, fleet, calls)[r] == Run(limits[r], fleet[r], Story(calls, r))
    decreases |calls|
  {
    hide Enabled, Next;
    if calls != [] {
      CallsAreRuns(limits, AfterCall(limits, fleet, calls[0]), calls[1..], r);
      var rest := Story(calls[1..], r);
      if r in calls[0] {
        assert Story(calls, r)[0] == calls[0][r] && Story(calls, r)[1..] == rest;
      } else {
        assert Story(calls, r) == rest;
      }
    }
  }

  // So over every sequence of calls every request keeps its invariant, and its client gets every token once, in order.
  lemma FleetExactlyOnce<R>(limits: map<R, Limits>, fleet: map<R, System>, calls: seq<map<R, Event>>, r: R)
    requires CallsEnabled(limits, fleet, calls) && r in fleet && r in limits && Inv(limits[r], fleet[r])
    ensures r in AfterCalls(limits, fleet, calls) && Inv(limits[r], AfterCalls(limits, fleet, calls)[r])
    ensures EnabledRun(limits[r], fleet[r], Story(calls, r))
    ensures var out := Outputs(limits[r], fleet[r], Story(calls, r));
      && Contiguous(out, |fleet[r].request.tokens|)
      && AfterCalls(limits, fleet, calls)[r].request.tokens == fleet[r].request.tokens + Flatten(out)
  {
    assert limits[r].mamba.Valid();
    hide Inv;
    CallsAreRuns(limits, fleet, calls, r);
    RunKeeps(limits[r], fleet[r], Story(calls, r));
    ExactlyOnce(limits[r], fleet[r], Story(calls, r));
  }

  // A call of the scheduler after which everyone has acted is such a call.
  lemma ActedIsCall(limits: map<Request, Limits>, was: map<Request, System>, events: map<Request, Event>,
                    now: map<Request, System>)
    requires EveryoneActed(was, events) && events.Keys <= was.Keys && was.Keys <= limits.Keys
    requires forall r :: r in was ==> limits[r] == r.limits
    requires now.Keys == was.Keys && forall r :: r in now ==> now[r] == r.Sys()
    ensures CallEnabled(limits, was, events) && AfterCall(limits, was, events) == now
  {
    hide Enabled, Next;
    assert forall r :: r in was ==> Acted(r, was[r], events);
  }
}
