// The loop over the running requests, on values: what its lists, its cursor and its plan keep while requests are
// preempted and scheduled.
module RunningLoop {
  import opened RequestMachine
  import opened AsyncRequest
  import opened SchedulePlan
  import opened Sequences

  // The action that `schedule()` is for a request, given the entry made for it and its next draft budget.
  function ScheduleEvent(e: Entry, k: nat): Event {
    Schedule(e.allowance, k)
  }

  // The running loop decided on this entry in this state.
  ghost predicate Chosen(l: Limits, s: System, e: Entry)
    requires l.mamba.Valid()
  {
    && Enabled(l, s, Schedule(e.allowance, 0))
    && e.tokens == NumNewTokens(l, s.request, e.allowance)
    && e.drafts == ScheduledDrafts(s.request, e.tokens)
  }

  // The lists during the loop: no request is lost and those left keep their order; FCFS preempts from the tail, PRIORITY
  // the least urgent first.
  ghost predicate Partitioned(priorityPolicy: bool, initial: seq<Request>, running: seq<Request>, preempted: seq<Request>)
  {
    && Distinct(running)
    && (forall r :: r in initial ==> r in running || r in preempted)
    && (forall r :: r in running ==> r in initial && r !in preempted)
    && (forall r :: r in preempted ==> r in initial)
    && multiset(initial) == multiset(running) + multiset(preempted)
    && running == Keep(initial, Members(preempted))
    && if priorityPolicy then (forall v, r :: v in preempted && r in running ==> !v.Before(r))
       else initial == running + Reversed(preempted)
  }

  lemma PartitionDistinct(
    priorityPolicy: bool, initial: seq<Request>, running: seq<Request>, preempted: seq<Request>)
    requires Partitioned(priorityPolicy, initial, running, preempted)
    ensures Distinct(running)
  {
  }

  lemma PartitionBegins(priorityPolicy: bool, running: seq<Request>)
    requires Distinct(running)
    ensures Partitioned(priorityPolicy, running, running, [])
  {
    KeepAll(running);
    var none: seq<Request> := [];
    assert Members(none) == {};
  }

  // Scheduled requests lie before the cursor.
  ghost predicate Behind(running: seq<Request>, plan: Plan<Request>, index: int) {
    0 <= index <= |running| && forall r :: r in plan.entries ==> r in running[..index]
  }

  function RemoveAt<T>(s: seq<T>, i: nat): seq<T>
    requires i < |s|
  {
    s[..i] + s[i + 1..]
  }

  lemma RemoveAtMembers<T>(s: seq<T>, i: nat)
    requires i < |s| && Distinct(s)
    ensures Distinct(RemoveAt(s, i))
    ensures forall x :: x in s && x != s[i] ==> x in RemoveAt(s, i)
    ensures forall x :: x in RemoveAt(s, i) ==> x in s && x != s[i]
  {
    var t := RemoveAt(s, i);
    forall x | x in s && x != s[i]
      ensures x in t
    {
      var k :| 0 <= k < |s| && s[k] == x;
      assert t[if k < i then k else k - 1] == x;
    }
    assert forall k :: 0 <= k < |t| ==> t[k] == s[if k < i then k else k + 1];
  }

  lemma RemovedOne<T>(s: seq<T>, i: nat, out: seq<T>)
    requires i < |s|
    ensures multiset(RemoveAt(s, i)) + multiset(out + [s[i]]) == multiset(s) + multiset(out)
  {
    assert s == s[..i] + [s[i]] + s[i + 1..];
    assert multiset(s) == multiset(s[..i]) + multiset{s[i]} + multiset(s[i + 1..]);
    assert multiset(RemoveAt(s, i)) == multiset(s[..i]) + multiset(s[i + 1..]);
    assert multiset(out + [s[i]]) == multiset(out) + multiset{s[i]};
  }

  lemma RemoveLater<T>(first: T, rest: seq<T>, i: nat)
    requires 0 < i <= |rest|
    ensures RemoveAt([first] + rest, i) == [first] + RemoveAt(rest, i - 1)
  {
  }

  lemma {:induction false} KeepOneLess<T>(s: seq<T>, gone: set<T>, i: nat)
    requires i < |Keep(s, gone)| && Distinct(Keep(s, gone))
    ensures RemoveAt(Keep(s, gone), i) == Keep(s, gone + {Keep(s, gone)[i]})
  {
    var kept, rest := Keep(s, gone), Keep(s[1..], gone);
    var left := Keep(s[1..], gone + {kept[i]});
    if s[0] in gone {
      assert kept == rest && Keep(s, gone + {kept[i]}) == left;
      KeepOneLess(s[1..], gone, i);
    } else {
      assert kept == [s[0]] + rest && forall j :: 0 <= j < |rest| ==> rest[j] == kept[j + 1];
      if i == 0 {
        assert RemoveAt(kept, 0) == rest && kept[0] !in rest && Keep(s, gone + {kept[0]}) == left;
        KeepWithout(s[1..], gone, s[0]);
      } else {
        assert Distinct(rest) && kept[0] != kept[i] && Keep(s, gone + {kept[i]}) == [s[0]] + left;
        hide Distinct, RemoveAt, Keep;
        KeepOneLess(s[1..], gone, i - 1);
        RemoveLater(s[0], rest, i);
      }
    }
  }

  lemma RemoveKeepsPartition(
    priorityPolicy: bool, initial: seq<Request>, running: seq<Request>, preempted: seq<Request>, i: nat)
    requires Partitioned(priorityPolicy, initial, running, preempted) && i < |running|
    requires if priorityPolicy then forall j :: 0 <= j < |running| ==> !running[i].Before(running[j])
             else i == |running| - 1
    ensures Partitioned(priorityPolicy, initial, RemoveAt(running, i), preempted + [running[i]])
  {
    hide Distinct, Reversed, Keep;
    RemoveAtMembers(running, i);
    RemovedOne(running, i, preempted);
    KeepOneLess(initial, Members(preempted), i);
    assert Members(preempted + [running[i]]) == Members(preempted) + {running[i]};
    if !priorityPolicy {
      ReversedAppend(preempted, running[i]);
      assert RemoveAt(running, i) + [running[i]] == running;
      assert RemoveAt(running, i) + ([running[i]] + Reversed(preempted)) == initial;
    }
  }

  // The cursor stays on the current request unless that request is the victim.
  lemma RemoveKeepsCursor(running: seq<Request>, plan: Plan<Request>, index: int, i: nat)
    requires Distinct(running) && Behind(running, plan, index) && index < |running| && i < |running|
    requires running[i] !in plan.entries
    ensures var index' := if i < index then index - 1 else index;
      && Behind(RemoveAt(running, i), plan, index')
      && (i != index ==> index' < |running| - 1 && RemoveAt(running, i)[index'] == running[index])
  {
    var index' := if i < index then index - 1 else index;
    var rest := RemoveAt(running, i);
    forall r | r in plan.entries
      ensures r in rest[..index']
    {
      var k :| 0 <= k < index && running[k] == r;
      assert rest[..index'][if k < i then k else k - 1] == r;
    }
  }

  // The scheduler's state when the step began; `eligible` holds next_decode_eligible_step, `step` is current_step.
  datatype Start = Start(
    running: seq<Request>,
    waiting: seq<Request>,
    before: map<Request, System>,
    eligible: map<Request, int>,
    step: int,
    deferPrefills: bool,
    refusals: int)

  function StartOf(running: seq<Request>, waiting: seq<Request>, was: map<Request, System>, eligible: map<Request, int>,
                   step: int, deferPrefills: bool, refusals: int): Start
    requires Members(running) <= was.Keys && Members(running) <= eligible.Keys
  {
    Start(running, waiting, map r | r in running :: was[r], map r | r in running :: eligible[r], step, deferPrefills,
          refusals)
  }

  lemma NobodyLeft(priorityPolicy: bool, initial: seq<Request>, running: seq<Request>)
    requires Partitioned(priorityPolicy, initial, running, [])
    ensures running == initial
  {
    KeepAll(initial);
    var none: seq<Request> := [];
    assert Members(none) == {};
  }

  lemma AddKeepsBehind(b: Budgets, running: seq<Request>, plan: Plan<Request>, index: int, e: Entry)
    requires Behind(running, plan, index) && index < |running|
    ensures Behind(running, Add(b, plan, running[index], e), index + 1)
  {
    assert running[..index + 1] == running[..index] + [running[index]];
  }

  // Skipping a request moves the cursor over it.
  lemma BehindNext(running: seq<Request>, plan: Plan<Request>, index: int)
    requires Behind(running, plan, index) && index < |running|
    ensures Behind(running, plan, index + 1)
  {
    assert running[..index + 1] == running[..index] + [running[index]];
  }

  // A request at or after the cursor is not scheduled yet; so FCFS, which preempts from the tail, never gives back one.
  lemma NotBehind(running: seq<Request>, plan: Plan<Request>, index: int, i: nat)
    requires Distinct(running) && Behind(running, plan, index) && index <= i < |running|
    ensures running[i] !in plan.entries
  {
  }

  // What still runs was not preempted in this step.
  lemma NotPreempted(priority: bool, before: seq<Request>, running: seq<Request>, preempted: seq<Request>, i: nat)
    requires Partitioned(priority, before, running, preempted) && i < |running|
    ensures running[i] !in preempted
  {
  }

  lemma PartitionCounts(priority: bool, before: seq<Request>, running: seq<Request>, preempted: seq<Request>)
    requires Partitioned(priority, before, running, preempted)
    ensures multiset(before) == multiset(running) + multiset(preempted)
    ensures forall r :: r in running ==> r in before
    ensures preempted == [] ==> forall r :: r in before ==> r in running
    ensures |running| <= |before|
  {
    assert |multiset(before)| == |multiset(running)| + |multiset(preempted)|;
  }

  ghost predicate InRunning(plan: Plan<Request>, running: seq<Request>) {
    forall r :: r in plan.entries ==> r in running
  }

  lemma NotPlanned(plan: Plan<Request>, running: seq<Request>)
    requires InRunning(plan, running)
    ensures forall r :: r in plan.entries ==> r in running
  {
  }

  lemma AddInRunning(b: Budgets, plan: Plan<Request>, running: seq<Request>, r: Request, e: Entry)
    requires Balanced(b, plan) && InRunning(plan, running) && r !in running && b.draftSlots >= 0
    requires 0 < e.tokens <= plan.tokenBudget && e.tokens <= plan.inputBudget - b.draftSlots
    ensures Balanced(b, Add(b, plan, r, e)) && InRunning(Add(b, plan, r, e), running + [r])
    ensures Add(b, plan, r, e).entries == plan.entries[r := e] && r !in plan.entries
  {
    AddBalanced(b, plan, r, e);
  }

  // The last step in flight of the request is the planned one.
  ghost predicate Carries(r: Request, e: Entry)
    reads r
  {
    r.steps != [] && var last := r.steps[|r.steps| - 1]; last.numTokens == e.tokens && last.drafts == e.drafts
  }

  // What the workers will be sent is what the budgets were charged for.
  ghost predicate Planned(entries: map<Request, Entry>)
    reads entries.Keys
  {
    forall r :: r in entries ==> Carries(r, entries[r])
  }

  lemma OnePlanned(b: Budgets, plan: Plan<Request>, r: Request, e: Entry)
    requires forall x :: x in plan.entries && x != r ==> Carries(x, plan.entries[x])
    requires Carries(r, e)
    ensures Planned(Add(b, plan, r, e).entries)
  {
    hide Carries;
  }

  // The request has taken the action recorded for it, if any, since it was in state `was`.
  ghost predicate Acted(r: Request, was: System, events: map<Request, Event>)
    reads r
  {
    && r.limits.mamba.Valid()
    && if r in events then Enabled(r.limits, was, events[r]) && r.Sys() == Next(r.limits, was, events[r])
       else r.Sys() == was
  }

  // Each request has taken the action recorded for it, or none.
  ghost predicate EveryoneActed(was: map<Request, System>, events: map<Request, Event>)
    reads was.Keys
  {
    forall r :: r in was ==> Acted(r, was[r], events)
  }

  // Requests in the plan are scheduled, victims preempted, and nobody else acts.
  ghost predicate RunningKinds(running: seq<Request>, plan: Plan<Request>, preempted: seq<Request>,
                               events: map<Request, Event>, drop: bool)
  {
    && (forall r :: r in events ==> r in running && (events[r].Schedule? || events[r].PreemptRequest?))
    && (forall r :: r in preempted ==> r in events && events[r] == PreemptRequest(drop))
    && (forall r :: r in plan.entries ==> r in events && events[r].Schedule?)
    && (forall r :: r in events && events[r].Schedule? ==> r in plan.entries)
  }

  // The same with the admitted requests, which are resumed.
  ghost predicate StepKinds(plan: Plan<Request>, preempted: seq<Request>, admitted: seq<Request>,
                            events: map<Request, Event>, drop: bool)
  {
    && (forall r :: r in preempted ==> r in events && events[r] == PreemptRequest(drop))
    && (forall r :: r in plan.entries ==> r in events && (events[r].Schedule? || events[r].Resume?))
    && (forall r :: r in events && (events[r].Schedule? || events[r].Resume?) ==> r in plan.entries)
    && (forall r :: r in admitted ==> r in events && events[r].Resume?)
    && (forall r :: r in events && events[r].Resume? ==> r in admitted)
  }

  lemma KindsAlone(running: seq<Request>, plan: Plan<Request>, preempted: seq<Request>, events: map<Request, Event>,
                   drop: bool)
    requires RunningKinds(running, plan, preempted, events, drop)
    ensures StepKinds(plan, preempted, [], events, drop)
  {
  }

  // Requests without an event that are what they were.
  lemma NoneActed(was: map<Request, System>, q: seq<Request>, events: map<Request, Event>)
    requires forall r :: r in q ==> r in was && r !in events && r.limits.mamba.Valid() && r.Sys() == was[r]
    ensures forall r :: r in q ==> Acted(r, was[r], events)
  {
  }
}
