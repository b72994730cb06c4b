// The scheduler output under construction: which requests are scheduled, with how many tokens, and what is left of
// the two budgets.
module SchedulePlan {
  import opened Arithmetic
  import opened Sequences

  // What was decided for one request; `allowance` is what the budgets left when it was its turn.
  datatype Entry = Entry(tokens: int, drafts: int, allowance: int)

  datatype Plan<R> = Plan(order: seq<R>, entries: map<R, Entry>, tokenBudget: int, inputBudget: int)

  datatype Budgets = Budgets(tokenLimit: int, inputLimit: int, draftSlots: int)

  // The scheduled tokens plus `extra` for each scheduled request.
  function Total<R>(order: seq<R>, entries: map<R, Entry>, extra: int): int
    requires forall r :: r in order ==> r in entries
  {
    if order == [] then 0 else entries[order[0]].tokens + extra + Total(order[1..], entries, extra)
  }

  // Both budgets are the limits minus everything scheduled; the input budget also pays the draft slots.
  ghost predicate Balanced<R>(b: Budgets, p: Plan<R>) {
    && Distinct(p.order)
    && (forall r :: r in p.entries ==> r in p.order) && (forall r :: r in p.order ==> r in p.entries)
    && (forall r :: r in p.entries ==> p.entries[r].tokens > 0)
    && p.tokenBudget == b.tokenLimit - Total(p.order, p.entries, 0) >= 0
    && p.inputBudget == b.inputLimit - Total(p.order, p.entries, b.draftSlots) >= 0
  }

  lemma EmptyBalanced<R>(b: Budgets)
    requires b.tokenLimit >= 0 && b.inputLimit >= 0
    ensures Balanced<R>(b, Plan([], map[], b.tokenLimit, b.inputLimit))
  {
  }

  function Add<R>(b: Budgets, p: Plan<R>, r: R, e: Entry): Plan<R> {
    Plan(p.order + [r], p.entries[r := e], p.tokenBudget - e.tokens, p.inputBudget - (e.tokens + b.draftSlots))
  }

  function Without<R(==)>(s: seq<R>, x: R): seq<R> {
    if s == [] then [] else if s[0] == x then s[1..] else [s[0]] + Without(s[1..], x)
  }

  // A victim that was already scheduled gives its tokens and its draft slots back.
  function Restore<R>(b: Budgets, p: Plan<R>, victim: R): Plan<R>
    requires victim in p.entries
  {
    var restored := p.entries[victim].tokens;
    Plan(Without(p.order, victim), p.entries - {victim}, p.tokenBudget + restored,
         p.inputBudget + (restored + b.draftSlots))
  }

  lemma {:induction false} TotalFrame<R>(order: seq<R>, m: map<R, Entry>, m': map<R, Entry>, extra: int)
    requires forall r :: r in order ==> r in m && r in m' && m[r] == m'[r]
    ensures Total(order, m, extra) == Total(order, m', extra)
  {
    if order != [] {
      TotalFrame(order[1..], m, m', extra);
    }
  }

  lemma {:induction false} TotalAppend<R>(order: seq<R>, r: R, m: map<R, Entry>, extra: int)
    requires r in m && forall x :: x in order ==> x in m
    ensures Total(order + [r], m, extra) == Total(order, m, extra) + m[r].tokens + extra
  {
    if order == [] {
      assert order + [r] == [r];
    } else {
      assert (order + [r])[1..] == order[1..] + [r];
      TotalAppend(order[1..], r, m, extra);
    }
  }

  lemma {:induction false} WithoutRemoves<R>(order: seq<R>, v: R, m: map<R, Entry>, extra: int)
    requires Distinct(order) && v in order && forall x :: x in order ==> x in m
    ensures var rest := Without(order, v);
      && |rest| == |order| - 1 && Distinct(rest)
      && (forall x :: x in rest ==> x in order && x != v) && (forall x :: x in order && x != v ==> x in rest)
      && Total(order, m, extra) == m[v].tokens + extra + Total(rest, m, extra)
  {
    assert order == [order[0]] + order[1..];
    if order[0] != v {
      WithoutRemoves(order[1..], v, m, extra);
      assert order[0] !in order[1..];
      var rest := Without(order[1..], v);
      assert ([order[0]] + rest)[1..] == rest;
    }
  }

  lemma AddBalanced<R>(b: Budgets, p: Plan<R>, r: R, e: Entry)
    requires Balanced(b, p) && r !in p.entries
    requires 0 < e.tokens <= p.tokenBudget && e.tokens <= p.inputBudget - b.draftSlots
    ensures Balanced(b, Add(b, p, r, e))
  {
    var p' := Add(b, p, r, e);
    TotalFrame(p.order, p.entries, p'.entries, 0);
    TotalFrame(p.order, p.entries, p'.entries, b.draftSlots);
    TotalAppend(p.order, r, p'.entries, 0);
    TotalAppend(p.order, r, p'.entries, b.draftSlots);
  }

  lemma RestoreBalanced<R>(b: Budgets, p: Plan<R>, victim: R)
    requires Balanced(b, p) && victim in p.entries && b.draftSlots >= 0
    ensures Balanced(b, Restore(b, p, victim))
    ensures forall r :: r in Restore(b, p, victim).order ==> r in p.order && r != victim
  {
    var p' := Restore(b, p, victim);
    WithoutRemoves(p.order, victim, p.entries, 0);
    WithoutRemoves(p.order, victim, p.entries, b.draftSlots);
    hide Without, Total;
    TotalFrame(p'.order, p.entries, p'.entries, 0);
    TotalFrame(p'.order, p.entries, p'.entries, b.draftSlots);
  }

  // --- What each request was offered -------------------------------------------------------------------------

  // Down the plan, each request was offered what those before it left of the budgets: no more, and less by no more than
  // what victims have given back since.
  ghost predicate Offered<R>(order: seq<R>, entries: map<R, Entry>, tokens: int, input: int,
                             slack: int, inputSlack: int, draftSlots: int)
  {
    order == [] ||
    (order[0] in entries && var e := entries[order[0]];
      && Min(tokens - slack, input - inputSlack - draftSlots) <= e.allowance <= Min(tokens, input - draftSlots)
      && Offered(order[1..], entries, tokens - e.tokens, input - (e.tokens + draftSlots), slack, inputSlack, draftSlots))
  }

  lemma {:induction false} OfferedFrame<R>(order: seq<R>, entries: map<R, Entry>, entries': map<R, Entry>, tokens: int,
                                           input: int, slack: int, inputSlack: int, draftSlots: int)
    requires Offered(order, entries, tokens, input, slack, inputSlack, draftSlots)
    requires forall r :: r in order ==> r in entries && r in entries' && entries[r] == entries'[r]
    ensures Offered(order, entries', tokens, input, slack, inputSlack, draftSlots)
  {
    if order != [] {
      var e := entries[order[0]];
      OfferedFrame(order[1..], entries, entries', tokens - e.tokens, input - (e.tokens + draftSlots), slack, inputSlack,
                   draftSlots);
    }
  }

  lemma {:induction false} OfferedNext<R>(order: seq<R>, r: R, entries: map<R, Entry>, tokens: int, input: int,
                                          slack: int, inputSlack: int, draftSlots: int)
    requires Offered(order, entries, tokens, input, slack, inputSlack, draftSlots)
    requires r in entries && forall x :: x in order ==> x in entries
    requires var left, leftInput := tokens - Total(order, entries, 0), input - Total(order, entries, draftSlots);
      Min(left - slack, leftInput - inputSlack - draftSlots) <= entries[r].allowance <= Min(left, leftInput - draftSlots)
    ensures Offered(order + [r], entries, tokens, input, slack, inputSlack, draftSlots)
  {
    if order == [] {
      assert order + [r] == [r];
    } else {
      var e := entries[order[0]];
      assert (order + [r])[1..] == order[1..] + [r];
      OfferedNext(order[1..], r, entries, tokens - e.tokens, input - (e.tokens + draftSlots), slack, inputSlack,
                  draftSlots);
    }
  }

  // More to begin with and as much more slack.
  lemma {:induction false} OfferedMore<R>(order: seq<R>, entries: map<R, Entry>, tokens: int, input: int,
                                          slack: int, inputSlack: int, draftSlots: int, more: nat, moreInput: nat)
    requires Offered(order, entries, tokens, input, slack, inputSlack, draftSlots)
    ensures Offered(order, entries, tokens + more, input + moreInput, slack + more, inputSlack + moreInput, draftSlots)
    ensures Offered(order, entries, tokens, input, slack + more, inputSlack + moreInput, draftSlots)
  {
    if order != [] {
      var e := entries[order[0]];
      OfferedMore(order[1..], entries, tokens - e.tokens, input - (e.tokens + draftSlots), slack, inputSlack, draftSlots,
                  more, moreInput);
    }
  }

  lemma {:induction false} OfferedWithout<R>(order: seq<R>, v: R, entries: map<R, Entry>, tokens: int, input: int,
                                             slack: int, inputSlack: int, draftSlots: nat)
    requires Offered(order, entries, tokens, input, slack, inputSlack, draftSlots)
    requires v in order && v in entries && entries[v].tokens > 0
    ensures Offered(Without(order, v), entries, tokens, input,
                    slack + entries[v].tokens, inputSlack + (entries[v].tokens + draftSlots), draftSlots)
  {
    var e := entries[order[0]];
    var gained := entries[v].tokens;
    if order[0] == v {
      OfferedMore(order[1..], entries, tokens - e.tokens, input - (e.tokens + draftSlots), slack, inputSlack, draftSlots,
                  gained, gained + draftSlots);
    } else {
      OfferedWithout(order[1..], v, entries, tokens - e.tokens, input - (e.tokens + draftSlots), slack, inputSlack,
                     draftSlots);
      var rest := Without(order, v);
      assert rest[0] == order[0] && rest[1..] == Without(order[1..], v);
    }
  }

  // Without preemption of scheduled requests this is exact.
  lemma {:induction false} OfferedExactly<R>(order: seq<R>, entries: map<R, Entry>, tokens: int, input: int,
                                             draftSlots: int, i: nat)
    requires Offered(order, entries, tokens, input, 0, 0, draftSlots) && i < |order|
    requires forall r :: r in order ==> r in entries
    ensures forall r :: r in order[..i] ==> r in entries
    ensures entries[order[i]].allowance
         == Min(tokens - Total(order[..i], entries, 0), input - Total(order[..i], entries, draftSlots) - draftSlots)
  {
    if i > 0 {
      var e := entries[order[0]];
      OfferedExactly(order[1..], entries, tokens - e.tokens, input - (e.tokens + draftSlots), draftSlots, i - 1);
      assert order[..i][1..] == order[1..][..i - 1];
    }
  }
}
