// What becomes of every output: exactly when it finishes the request, and, from the history of the actions alone, exactly
// when it reaches the client.
module RequestOutcomes {
  import opened MambaSplit
  import opened RequestMachine
  import opened RequestSafety

  // --- Finishing ---------------------------------------------------------------------------------------------

  // The end of a request, read off its tokens: full length, enough output, or a token that ends it.
  predicate HasEnded(l: Limits, tokens: seq<int>) {
    || |tokens| >= l.maxModelLen
    || |tokens| - l.numPromptTokens >= l.maxTokens
    || (tokens != [] && tokens[|tokens| - 1] in l.stopTokens)
  }

  // What is kept of an output is its shortest prefix that ends the request, or all of it if none does.
  ghost predicate KeepsUpToEnd(l: Limits, tokens: seq<int>, generated: seq<int>, m: nat) {
    && 1 <= m <= |generated|
    && (forall i :: 1 <= i < m ==> !HasEnded(l, tokens + generated[..i]))
    && (m < |generated| ==> HasEnded(l, tokens + generated[..m]))
  }

  lemma OneKept(l: Limits, tokens: seq<int>, first: int, rest: seq<int>, m: nat)
    requires !HasEnded(l, tokens + [first]) && KeepsUpToEnd(l, tokens + [first], rest, m)
    ensures KeepsUpToEnd(l, tokens, [first] + rest, m + 1)
    ensures ([first] + rest)[..m + 1] == [first] + rest[..m]
    ensures tokens + ([first] + rest)[..m + 1] == tokens + [first] + rest[..m]
  {
    hide HasEnded;
    var generated := [first] + rest;
    forall i | 1 <= i <= |generated| ensures tokens + generated[..i] == tokens + [first] + rest[..i - 1] {
      assert generated[..i] == [first] + rest[..i - 1];
    }
    assert tokens + [first] + rest[..0] == tokens + [first];
  }

  lemma {:induction false} AppendsUpToEnd(l: Limits, tokens: seq<int>, generated: seq<int>)
    requires generated != []
    ensures var (kept, stopped) := AppendUntilStop(l, tokens, generated);
      && kept == generated[..|kept|] && KeepsUpToEnd(l, tokens, generated, |kept|)
      && (stopped <==> HasEnded(l, tokens + kept))
    decreases |generated|
  {
    var first, rest := generated[0], generated[1..];
    assert generated == [first] + rest && generated[..1] == [first];
    assert CheckStop(l, tokens + [first]) == HasEnded(l, tokens + [first]);
    if !CheckStop(l, tokens + [first]) {
      if rest == [] {
        assert AppendUntilStop(l, tokens + [first], rest) == ([], false) && [first] + rest == [first];
      } else {
        AppendsUpToEnd(l, tokens + [first], rest);
        var (kept, stopped) := AppendUntilStop(l, tokens + [first], rest);
        hide CheckStop, HasEnded, KeepsUpToEnd;
        OneKept(l, tokens, first, rest, |kept|);
        assert AppendUntilStop(l, tokens, generated) == ([first] + kept, stopped);
      }
    }
  }

  // A delivery that is not dropped appends the output up to its end, and finishes the request exactly when the new token
  // list is at full length, has max_tokens output tokens, or ends in a stop token.
  lemma FinishesExactly(l: Limits, s: System, generated: seq<int>)
    requires Inv(l, s) && Enabled(l, s, Deliver(generated)) && !Dropped(s.request) && generated != []
    ensures var r, r' := s.request, Next(l, s, Deliver(generated)).request;
      && r'.tokens != []
      && (r'.status.Finished? <==>
            || |r'.tokens| >= l.maxModelLen
            || |r'.tokens| - l.numPromptTokens >= l.maxTokens
            || r'.tokens[|r'.tokens| - 1] in l.stopTokens)
      && exists m: nat :: KeepsUpToEnd(l, r.tokens, generated, m) && r'.tokens == r.tokens + generated[..m]
  {
    AppendsUpToEnd(l, s.request.tokens, generated);
    var m := |AppendUntilStop(l, s.request.tokens, generated).0|;
    hide AppendUntilStop;
    assert KeepsUpToEnd(l, s.request.tokens, generated, m);
  }

  // The output of a request has ended.
  predicate OutputEnded(l: Limits, r: RequestState) {
    |r.tokens| > l.numPromptTokens && HasEnded(l, r.tokens)
  }

  lemma StepEnds(l: Limits, s: System, e: Event)
    requires Inv(l, s) && Enabled(l, s, e)
    requires !s.request.status.Finished? ==> !OutputEnded(l, s.request)
    ensures !Next(l, s, e).request.status.Finished? ==> !OutputEnded(l, Next(l, s, e).request)
    ensures (s.request.status.Finished? ==> OutputEnded(l, s.request)) && !e.Abort? ==>
      Next(l, s, e).request.status.Finished? ==> OutputEnded(l, Next(l, s, e).request)
  {
    if e.Deliver? && !Dropped(s.request) && e.generated != [] {
      FinishesExactly(l, s, e.generated);
      hide AppendUntilStop, Matched, Counted;
      assert |s.request.tokens| >= l.numPromptTokens;
    } else {
      hide HasEnded, NumNewTokens, NumAdmittedTokens, ScheduledDrafts, Matched, Counted;
    }
  }

  // Over every run: a request whose output has ended is finished, and one that was not aborted is finished only then.
  lemma {:induction false} EndsExactly(l: Limits, s: System, es: seq<Event>)
    requires Inv(l, s) && EnabledRun(l, s, es)
    requires !s.request.status.Finished? ==> !OutputEnded(l, s.request)
    ensures OutputEnded(l, Run(l, s, es).request) ==> Run(l, s, es).request.status.Finished?
    ensures (s.request.status.Finished? ==> OutputEnded(l, s.request)) && (forall e :: e in es ==> !e.Abort?) ==>
      Run(l, s, es).request.status.Finished? ==> OutputEnded(l, Run(l, s, es).request)
    decreases |es|
  {
    assert l.mamba.Valid();
    hide Inv, Enabled, Next, OutputEnded;
    if es != [] {
      NextKeeps(l, s, es[0]);
      StepEnds(l, s, es[0]);
      EndsExactly(l, Next(l, s, es[0]), es[1..]);
    }
  }

  lemma FinishedExactly(l: Limits, prompt: seq<int>, es: seq<Event>)
    requires l.Valid() && |prompt| == l.numPromptTokens && EnabledRun(l, Initial(prompt), es)
    ensures var r := Run(l, Initial(prompt), es).request;
      var ended := |r.tokens| > l.numPromptTokens &&
        (|r.tokens| >= l.maxModelLen || |r.tokens| - l.numPromptTokens >= l.maxTokens
         || r.tokens[|r.tokens| - 1] in l.stopTokens);
      && (ended ==> r.status.Finished?)
      && ((forall e :: e in es ==> !e.Abort?) ==> (r.status.Finished? <==> ended))
      && |r.tokens| <= l.maxModelLen && |r.tokens| <= l.numPromptTokens + l.maxTokens
  {
    InitialInv(l, prompt);
    RunKeeps(l, Initial(prompt), es);
    EndsExactly(l, Initial(prompt), es);
  }

  // --- Reaching the client, by the history of the actions -----------------------------------------------------

  // For every step in flight, oldest first, whether its output is lost: a preemption loses everything in flight if it
  // asks for that, or if something lost is still in flight.
  function Lose(lost: seq<bool>, e: Event): seq<bool> {
    match e
    case Schedule(_, _) => lost + [false]
    case Resume(_, _, _, _) => lost + [false]
    case PreemptRequest(drop) => if drop || true in lost then seq(|lost|, i => true) else lost
    case Deliver(_) => if lost == [] then [] else lost[1..]
    case CacheLookup(_) => lost
    case Abort => lost
  }

  function Losses(lost: seq<bool>, es: seq<Event>): seq<bool>
    decreases |es|
  {
    if es == [] then lost else Losses(Lose(lost, es[0]), es[1..])
  }

  ghost predicate Tallies(s: System, lost: seq<bool>) {
    && |lost| == |s.steps|
    && (!s.request.status.Finished? ==> forall i :: 0 <= i < |lost| ==>
          (lost[i] <==> s.steps[i].epoch < s.request.preemptions && s.request.dropStale))
  }

  lemma PreemptTallies(l: Limits, s: System, drop: bool, lost: seq<bool>)
    requires Inv(l, s) && Enabled(l, s, PreemptRequest(drop)) && Tallies(s, lost)
    ensures Tallies(Next(l, s, PreemptRequest(drop)), Lose(lost, PreemptRequest(drop)))
  {
    StaleAtHead(s.steps, s.request.preemptions);
    if true in lost {
      var i :| 0 <= i < |lost| && lost[i];
      assert s.steps[0].epoch <= s.steps[i].epoch;
    }
    hide Matched;
  }

  lemma StepTallies(l: Limits, s: System, e: Event, lost: seq<bool>)
    requires Inv(l, s) && Enabled(l, s, e) && Tallies(s, lost)
    ensures Tallies(Next(l, s, e), Lose(lost, e))
  {
    if e.PreemptRequest? {
      PreemptTallies(l, s, e.dropStaleOutput, lost);
    } else {
      hide AppendUntilStop, Matched, NumNewTokens, NumAdmittedTokens, ScheduledDrafts;
    }
  }

  lemma {:induction false} RunTallies(l: Limits, s: System, es: seq<Event>, lost: seq<bool>)
    requires Inv(l, s) && EnabledRun(l, s, es) && Tallies(s, lost)
    ensures Tallies(Run(l, s, es), Losses(lost, es))
    decreases |es|
  {
    assert l.mamba.Valid();
    hide Inv, Enabled, Next, Tallies, Lose;
    if es != [] {
      NextKeeps(l, s, es[0]);
      StepTallies(l, s, es[0], lost);
      RunTallies(l, Next(l, s, es[0]), es[1..], Lose(lost, es[0]));
    }
  }

  // Over every run, the next output, if it is not empty, is handed out at the end of the token list exactly when the
  // request is unfinished and the output is not lost; otherwise the list stays as it is.
  lemma HandedOutExactly(l: Limits, prompt: seq<int>, es: seq<Event>, generated: seq<int>)
    requires l.Valid() && |prompt| == l.numPromptTokens && EnabledRun(l, Initial(prompt), es)
    requires Enabled(l, Run(l, Initial(prompt), es), Deliver(generated)) && generated != []
    ensures var s, lost := Run(l, Initial(prompt), es), Losses([], es);
      var tokens := s.request.tokens;
      var out, tokens' := Output(l, s, Deliver(generated)), Next(l, s, Deliver(generated)).request.tokens;
      && |lost| == |s.steps|
      && if !s.request.status.Finished? && !lost[0]
         then exists m: nat :: KeepsUpToEnd(l, tokens, generated, m)
                && out == [Block(|tokens|, generated[..m])] && tokens' == tokens + generated[..m]
         else out == [] && tokens' == tokens
  {
    var s, lost := Run(l, Initial(prompt), es), Losses([], es);
    InitialInv(l, prompt);
    RunKeeps(l, Initial(prompt), es);
    RunTallies(l, Initial(prompt), es, []);
    hide Run, EnabledRun, Losses;
    OneHandedOut(l, s, generated, lost);
  }

  lemma OneHandedOut(l: Limits, s: System, generated: seq<int>, lost: seq<bool>)
    requires Inv(l, s) && Enabled(l, s, Deliver(generated)) && generated != [] && Tallies(s, lost)
    ensures var tokens := s.request.tokens;
      var out, tokens' := Output(l, s, Deliver(generated)), Next(l, s, Deliver(generated)).request.tokens;
      if !s.request.status.Finished? && !lost[0]
      then exists m: nat :: KeepsUpToEnd(l, tokens, generated, m)
             && out == [Block(|tokens|, generated[..m])] && tokens' == tokens + generated[..m]
      else out == [] && tokens' == tokens
  {
    if !s.request.status.Finished? {
      StaleAtHead(s.steps, s.request.preemptions);
      if !lost[0] {
        DeliveryInOrder(l, s, generated);
        AppendsUpToEnd(l, s.request.tokens, generated);
        var m := |AppendUntilStop(l, s.request.tokens, generated).0|;
        hide AppendUntilStop, Matched, Counted;
        assert KeepsUpToEnd(l, s.request.tokens, generated, m);
      }
    }
  }

  // Only a preemption that drops can begin a loss: with nothing lost in flight, preempting in the other mode, any number
  // of times, loses nothing.
  lemma {:induction false} DeliverModeLosesNothing(lost: seq<bool>, es: seq<Event>)
    requires true !in lost && forall e :: e in es && e.PreemptRequest? ==> !e.dropStaleOutput
    ensures true !in Losses(lost, es)
    decreases |es|
  {
    if es != [] {
      assert es[0] in es;
      DeliverModeLosesNothing(Lose(lost, es[0]), es[1..]);
    }
  }

  // So every output of a request that is never preempted in drop mode, or not since nothing lost was in flight, is handed
  // out at the end of its token list.
  lemma DeliverModeDelivers(l: Limits, prompt: seq<int>, before: seq<Event>, after: seq<Event>, generated: seq<int>)
    requires l.Valid() && |prompt| == l.numPromptTokens && EnabledRun(l, Initial(prompt), before + after)
    requires true !in Losses([], before) && forall e :: e in after && e.PreemptRequest? ==> !e.dropStaleOutput
    requires Enabled(l, Run(l, Initial(prompt), before + after), Deliver(generated)) && generated != []
    requires !Run(l, Initial(prompt), before + after).request.status.Finished?
    ensures var s := Run(l, Initial(prompt), before + after);
      exists m: nat :: KeepsUpToEnd(l, s.request.tokens, generated, m)
        && Output(l, s, Deliver(generated)) == [Block(|s.request.tokens|, generated[..m])]
  {
    LossesJoin([], before, after);
    DeliverModeLosesNothing(Losses([], before), after);
    hide Run, EnabledRun, Losses, KeepsUpToEnd, Enabled;
    HandedOutExactly(l, prompt, before + after, generated);
  }

  lemma {:induction false} LossesJoin(lost: seq<bool>, a: seq<Event>, b: seq<Event>)
    ensures Losses(lost, a + b) == Losses(Losses(lost, a), b)
    decreases |a|
  {
    if a == [] {
      assert a + b == b;
    } else {
      assert (a + b)[1..] == a[1..] + b;
      LossesJoin(Lose(lost, a[0]), a[1..], b);
    }
  }

  function Deliveries(es: seq<Event>): nat {
    if es == [] then 0 else (if es[0].Deliver? then 1 else 0) + Deliveries(es[1..])
  }

  // What is lost stays so until it is delivered,
  lemma {:induction false} LostStaysLost(lost: seq<bool>, es: seq<Event>, i: nat)
    requires i < |lost| && lost[i] && Deliveries(es) <= i
    ensures i - Deliveries(es) < |Losses(lost, es)| && Losses(lost, es)[i - Deliveries(es)]
    decreases |es|
  {
    if es != [] {
      LostStaysLost(Lose(lost, es[0]), es[1..], if es[0].Deliver? then i - 1 else i);
    }
  }

  // and a preemption that drops loses every step in flight.
  lemma DroppingLoses(lost: seq<bool>, es: seq<Event>, i: nat)
    requires i < |lost| && Deliveries(es) <= i
    ensures var after := Losses(Lose(lost, PreemptRequest(true)), es);
      i - Deliveries(es) < |after| && after[i - Deliveries(es)]
  {
    LostStaysLost(Lose(lost, PreemptRequest(true)), es, i);
  }

  // A step can also be lost to a preemption in the other mode: it was scheduled after the one that dropped, and the
  // second preemption found dropped output still in flight.
  lemma LostWithoutDropping(l: Limits) returns (es: seq<Event>)
    requires l == Limits(1, 100, 1000, {}, false, MambaConfig(16, 16, false, false, 64, 0))
    ensures EnabledRun(l, Initial([5]), es) && Losses([], es) == [true]
    ensures |es| > 2 && es[2].Resume? && forall e :: e in es[2..] && e.PreemptRequest? ==> !e.dropStaleOutput
    ensures var s := Run(l, Initial([5]), es);
      && |s.steps| == 1 && s.steps[0].epoch == 1 && !s.request.status.Finished?
      && Enabled(l, s, Deliver([9])) && Output(l, s, Deliver([9])) == []
  {
    hide Next, Enabled, Output, EnabledRun, Run, Losses, Initial;
    es := [START, PreemptRequest(true), START, PreemptRequest(false), Deliver([9])];
    CountLosses(es);
    assert es[2..] == [START, PreemptRequest(false), Deliver([9])];
    var s0 := Initial([5]);
    var s1, s2 := FirstLoss(l);
    var s3, s4 := SecondLoss(l, s2);
    DropsOne(l, s4);
    var s5 := Next(l, s4, Deliver([9]));
    DropsOne(l, s5);
    RunOfFive(l, s0, es, s1, s2, s3, s4);
  }

  // Scheduled and preempted in drop mode,
  lemma FirstLoss(l: Limits) returns (s1: System, s2: System)
    requires l.mamba.Valid() && !l.mambaAligned && l.mamba.longPrefillTokenThreshold == 0
    ensures Enabled(l, Initial([5]), START) && s1 == Next(l, Initial([5]), START)
    ensures Enabled(l, s1, PreemptRequest(true)) && s2 == Next(l, s1, PreemptRequest(true))
    ensures s2.request == RequestState(Preempted, [5], 0, 0, 1, 1, true, [], false, 1, 0)
    ensures s2.steps == [Step(1, 0, true, 0, Admitted(1, 0))]
  {
    hide Next, Enabled;
    var s0 := Initial([5]);
    Starts(l, s0);
    s1 := Next(l, s0, START);
    Stops(l, s1, true);
    s2 := Next(l, s1, PreemptRequest(true));
  }

  // then scheduled and preempted in the other mode.
  lemma SecondLoss(l: Limits, s2: System) returns (s3: System, s4: System)
    requires l.mamba.Valid() && !l.mambaAligned && l.mamba.longPrefillTokenThreshold == 0
    requires s2.request == RequestState(Preempted, [5], 0, 0, 1, 1, true, [], false, 1, 0)
    requires s2.steps == [Step(1, 0, true, 0, Admitted(1, 0))]
    ensures Enabled(l, s2, START) && s3 == Next(l, s2, START)
    ensures Enabled(l, s3, PreemptRequest(false)) && s4 == Next(l, s3, PreemptRequest(false))
    ensures s4.request == RequestState(Preempted, [5], 0, 0, 2, 2, true, [], false, 2, 0)
    ensures |s4.steps| == 2 && s4.steps[0] == Step(1, 0, true, 0, Admitted(1, 0))
    ensures s4.steps[1] == Step(1, 0, true, 1, Admitted(1, 0))
  {
    hide Next, Enabled;
    Starts(l, s2);
    s3 := Next(l, s2, START);
    Stops(l, s3, false);
    s4 := Next(l, s3, PreemptRequest(false));
  }

  const START := Resume(0, 0, 1, 0)

  lemma CountLosses(es: seq<Event>)
    requires es == [START, PreemptRequest(true), START, PreemptRequest(false), Deliver([9])]
    ensures Losses([], es) == [true]
  {
    var e1, e2, e3, e4 := es[1..], es[2..], es[3..], es[4..];
    assert e1[1..] == e2 && e2[1..] == e3 && e3[1..] == e4 && e4[1..] == [];
    assert Lose([], START) == [false] && Lose([false], PreemptRequest(true)) == [true];
    assert Lose([true], START) == [true, false];
    assert true in [true, false] by {
      assert [true, false][0];
    }
    assert Lose([true, false], PreemptRequest(false)) == [true, true] && Lose([true, true], Deliver([9])) == [true];
    hide Lose;
    assert Losses([true, true], e4) == Losses([true], []);
    assert Losses([true, false], e3) == Losses([true, true], e4);
    assert Losses([true], e2) == Losses([true, false], e3);
    assert Losses([false], e1) == Losses([true], e2);
  }

  // One more step of a fresh row.
  lemma Starts(l: Limits, s: System)
    requires l.mamba.Valid() && !l.mambaAligned && l.mamba.longPrefillTokenThreshold == 0
    requires |s.request.tokens| == 1 && (s.request.status.Waiting? || s.request.status.Preempted?)
    requires (s.request.stale > 0 ==> s.request.dropStale) && s.request.placeholders == 0
    ensures Enabled(l, s, START)
    ensures var r := s.request;
      Next(l, s, START) == System(
        r.(status := Running, junction := 0, numComputed := 1, inFlight := r.inFlight + 1, prefillChunk := false,
           spec := [], placeholders := 1),
        s.steps + [Step(1, 0, true, r.preemptions, Admitted(1, 0))], s.worker)
  {
    assert NumAdmittedTokens(l, s.request, 0, 0, 1) == 1;
  }

  lemma Stops(l: Limits, s: System, drop: bool)
    requires l.mamba.Valid() && s.request.status.Running?
    ensures Enabled(l, s, PreemptRequest(drop))
    ensures var r := s.request;
      Next(l, s, PreemptRequest(drop)) == s.(request := r.(status := Preempted, numComputed := 0, spec := [],
        dropStale := drop || (r.dropStale && r.stale > 0), stale := r.inFlight, placeholders := 0,
        preemptions := r.preemptions + 1))
  {
  }

  lemma DropsOne(l: Limits, s: System)
    requires l.mamba.Valid() && Dropped(s.request) && !s.request.status.Finished?
    requires s.steps != [] && s.steps[0].numTokens == 1 && s.steps[0].admission == Admitted(1, 0)
    requires s.steps[0].drafts == 0
    ensures Enabled(l, s, Deliver([9])) && Output(l, s, Deliver([9])) == []
    ensures var s' := Next(l, s, Deliver([9]));
      && s'.steps == s.steps[1..]
      && s'.request == s.request.(inFlight := s.request.inFlight - 1, stale := s.request.stale - 1)
  {
  }

  lemma RunOfFive(l: Limits, s: System, es: seq<Event>, s1: System, s2: System, s3: System, s4: System)
    requires l.mamba.Valid() && |es| == 5
    requires Enabled(l, s, es[0]) && s1 == Next(l, s, es[0])
    requires Enabled(l, s1, es[1]) && s2 == Next(l, s1, es[1])
    requires Enabled(l, s2, es[2]) && s3 == Next(l, s2, es[2])
    requires Enabled(l, s3, es[3]) && s4 == Next(l, s3, es[3])
    requires Enabled(l, s4, es[4])
    ensures EnabledRun(l, s, es) && Run(l, s, es) == Next(l, s4, es[4])
  {
    hide Next, Enabled;
    var e1, e2, e3, e4 := es[1..], es[2..], es[3..], es[4..];
    assert e1[1..] == e2 && e2[1..] == e3 && e3[1..] == e4 && e4[1..] == [];
    assert EnabledRun(l, s4, e4) && Run(l, s4, e4) == Next(l, s4, es[4]);
    assert EnabledRun(l, s3, e3) && Run(l, s3, e3) == Run(l, s4, e4);
    assert EnabledRun(l, s2, e2) && Run(l, s2, e2) == Run(l, s3, e3);
    assert EnabledRun(l, s1, e1) && Run(l, s1, e1) == Run(l, s2, e2);
  }
}
