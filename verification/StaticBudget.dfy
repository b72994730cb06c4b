// The runner-side draft budget: one pass in scheduler order decides how many tokens the batch keeps, a second pass in
// batch order cuts the per-request arrays, and the scheduler is told nothing.
module StaticBudget {
  import opened Arithmetic
  import opened Sequences

  type RequestId = string

  // What the first pass sees: the draft list lengths of the step, and the runner's rows with their caps.
  datatype Drafting = Drafting(drafts: map<RequestId, nat>, rows: map<RequestId, nat>, caps: seq<int>)
  {
    ghost predicate Valid() {
      forall id :: id in rows ==> rows[id] < |caps|
    }

    function Drafts(id: RequestId): nat {
      if id in drafts then drafts[id] else 0
    }

    // The drafts of a request that are verified.
    function Verified(id: RequestId): (n: nat)
      requires Valid()
      ensures n <= Drafts(id)
    {
      if id in rows then Min(Drafts(id), Max(caps[rows[id]], 0)) else Drafts(id)
    }

    function Cut(id: RequestId): nat
      requires Valid()
    {
      Drafts(id) - Verified(id)
    }
  }

  // A request with a row keeps as many drafts as its cap allows, any other keeps them all.
  lemma VerifiedMeans(d: Drafting, id: RequestId)
    requires d.Valid()
    ensures id !in d.rows || d.Drafts(id) <= d.caps[d.rows[id]] ==> d.Verified(id) == d.Drafts(id)
    ensures id in d.rows && 0 <= d.caps[d.rows[id]] < d.Drafts(id) ==> d.Verified(id) == d.caps[d.rows[id]]
    ensures id in d.rows && d.caps[d.rows[id]] < 0 ==> d.Verified(id) == 0
  {
  }

  function TotalCut(d: Drafting, order: seq<RequestId>): nat
    requires d.Valid()
  {
    if order == [] then 0 else TotalCut(d, order[..|order| - 1]) + d.Cut(order[|order| - 1])
  }

  // What the second pass keeps of a request's drafts, given what the first pass remembered.
  function KeptOf(kept: map<RequestId, nat>, id: RequestId, drafts: int): int {
    if id in kept then Min(drafts, kept[id]) else drafts
  }

  // The first pass remembers exactly the requests it cut.
  ghost predicate Remembers(d: Drafting, order: seq<RequestId>, kept: map<RequestId, nat>)
    requires d.Valid()
  {
    && (forall id :: id in kept <==> id in order && d.Cut(id) > 0)
    && (forall id :: id in kept ==> kept[id] == d.Verified(id))
  }

  class StaticDraftBudget {
    const numBonus: nat
    var pending: bool
    var kept: map<RequestId, nat>

    constructor (numBonus: nat)
      ensures !pending && kept == map[] && this.numBonus == numBonus
    {
      this.numBonus := numBonus;
      pending, kept := false, map[];
    }

    method GetNumTokens(d: Drafting, order: seq<RequestId>, numToks: int) returns (n: int)
      requires d.Valid() && Distinct(order)
      modifies this
      ensures n == numToks - TotalCut(d, order)
      ensures pending <==> n < numToks
      ensures Remembers(d, order, kept)
    {
      pending, kept := false, map[];
      var totalCut: nat := 0;
      for i := 0 to |order|
        invariant !pending
        invariant totalCut == TotalCut(d, order[..i])
        invariant Remembers(d, order[..i], kept)
      {
        var id := order[i];
        assert order[..i + 1][..i] == order[..i];
        assert id !in order[..i];
        var drafts := d.Drafts(id);
        if drafts != 0 && id in d.rows {
          var verified := Min(drafts, Max(d.caps[d.rows[id]], 0));
          if verified < drafts {
            kept := kept[id := verified];
            totalCut := totalCut + (drafts - verified);
          }
        }
      }
      assert order[..|order|] == order;
      if totalCut == 0 {
        return numToks;
      }
      pending := true;
      n := numToks - totalCut;
    }

    method Compact(numDrafts: seq<int>, numScheduled: seq<int>, ids: seq<RequestId>)
      returns (compacted: seq<int>, cuLogits: seq<int>, total: int)
      requires |numDrafts| == |numScheduled| == |ids|
      modifies this
      ensures !pending && kept == old(kept)
      ensures |compacted| == |ids| && |cuLogits| == |ids| + 1 && cuLogits[0] == 0
      ensures forall i :: 0 <= i < |ids| ==>
        && compacted[i] == numScheduled[i] - (numDrafts[i] - KeptOf(kept, ids[i], numDrafts[i]))
        && cuLogits[i + 1] - cuLogits[i] == KeptOf(kept, ids[i], numDrafts[i]) + numBonus
      ensures total + |ids| * numBonus == cuLogits[|ids|]
    {
      pending := false;
      var verified := new int[|ids|](i requires 0 <= i < |numDrafts| => numDrafts[i]);
      for i := 0 to |ids|
        modifies verified
        invariant forall j :: 0 <= j < i ==> verified[j] == KeptOf(kept, ids[j], numDrafts[j])
        invariant forall j :: i <= j < |ids| ==> verified[j] == numDrafts[j]
      {
        if ids[i] in kept {
          verified[i] := Min(verified[i], kept[ids[i]]);
        }
      }
      compacted, cuLogits, total := [], [0], 0;
      for i := 0 to |ids|
        modifies {}
        invariant |compacted| == i && |cuLogits| == i + 1 && cuLogits[0] == 0
        invariant forall j :: 0 <= j < i ==>
          && compacted[j] == numScheduled[j] - (numDrafts[j] - KeptOf(kept, ids[j], numDrafts[j]))
          && cuLogits[j + 1] - cuLogits[j] == KeptOf(kept, ids[j], numDrafts[j]) + numBonus
        invariant total + i * numBonus == cuLogits[i]
      {
        compacted := compacted + [numScheduled[i] - (numDrafts[i] - verified[i])];
        cuLogits := cuLogits + [cuLogits[i] + verified[i] + numBonus];
        total := total + verified[i];
      }
    }

    // The runner's two passes over one batch. `ids` is the batch order, any rearrangement of the scheduler's.
    method TwoPasses(d: Drafting, order: seq<RequestId>, ids: seq<RequestId>, tokens: map<RequestId, int>)
      returns (numTokens: int, counts: seq<int>, cuLogits: seq<int>)
      requires Batch(d, order, ids, tokens) && d.drafts != map[]
      modifies this
      ensures numTokens == Scheduled(tokens, order) - TotalCut(d, order)
      ensures Counts(d, ids, tokens, counts)
      ensures Logits(d, ids, numBonus, cuLogits)
    {
      numTokens := GetNumTokens(d, order, Scheduled(tokens, order));
      SameMembers(order, ids);
      var numDrafts := seq(|ids|, i requires 0 <= i < |ids| => d.Drafts(ids[i]));
      counts := seq(|ids|, i requires 0 <= i < |ids| => tokens[ids[i]]);
      BatchFacts(d, order, ids, tokens, kept);
      if pending {
        var total;
        counts, cuLogits, total := Compact(numDrafts, counts, ids);
      } else {
        NothingCut(d, order, ids, tokens);
        cuLogits := Cumulative(numDrafts, numBonus);
      }
    }

    // With the padded query offsets built from them.
    method PrepareInputs(d: Drafting, order: seq<RequestId>, ids: seq<RequestId>, tokens: map<RequestId, int>,
                         maxRequests: nat)
      returns (numTokens: int, queryStart: array<int>, cuLogits: seq<int>)
      requires Batch(d, order, ids, tokens) && |ids| <= maxRequests && d.drafts != map[]
      modifies this
      ensures numTokens == Scheduled(tokens, order) - TotalCut(d, order)
      ensures fresh(queryStart) && queryStart.Length == maxRequests + 1
      ensures Offsets(d, ids, tokens, numTokens, queryStart[..])
      ensures Logits(d, ids, numBonus, cuLogits)
    {
      var counts;
      numTokens, counts, cuLogits := TwoPasses(d, order, ids, tokens);
      hide Batch, Logits, Offsets;
      queryStart := FillOffsets(counts, numTokens, maxRequests);
      OffsetsMeet(d, order, ids, tokens, counts, numTokens, queryStart[..]);
    }
  }

  method Cumulative(counts: seq<int>, extra: nat) returns (cu: seq<int>)
    ensures |cu| == |counts| + 1 && cu[0] == 0
    ensures forall i :: 0 <= i < |counts| ==> cu[i + 1] - cu[i] == counts[i] + extra
  {
    cu := [0];
    for i := 0 to |counts|
      invariant |cu| == i + 1 && cu[0] == 0
      invariant forall j :: 0 <= j < i ==> cu[j + 1] - cu[j] == counts[j] + extra
    {
      cu := cu + [cu[i] + counts[i] + extra];
    }
  }

  // The cumulative sum of the per-request counts, padded to the graph's size with the batch's token count.
  method FillOffsets(counts: seq<int>, numTokens: int, maxRequests: nat) returns (queryStart: array<int>)
    requires |counts| <= maxRequests
    ensures fresh(queryStart) && queryStart.Length == maxRequests + 1 && queryStart[0] == 0
    ensures forall j :: 0 <= j < |counts| ==> queryStart[j + 1] - queryStart[j] == counts[j]
    ensures forall j :: |counts| < j <= maxRequests ==> queryStart[j] == numTokens
  {
    queryStart := new int[maxRequests + 1];
    queryStart[0] := 0;
    for i := 0 to |counts|
      invariant queryStart[0] == 0
      invariant forall j :: 0 <= j < i ==> queryStart[j + 1] - queryStart[j] == counts[j]
    {
      queryStart[i + 1] := queryStart[i] + counts[i];
    }
    for i := |counts| + 1 to maxRequests + 1
      invariant queryStart[0] == 0
      invariant forall j :: 0 <= j < |counts| ==> queryStart[j + 1] - queryStart[j] == counts[j]
      invariant forall j :: |counts| < j < i ==> queryStart[j] == numTokens
    {
      queryStart[i] := numTokens;
    }
  }

  // --- The two orders agree ------------------------------------------------------------------------------

  // A scheduled batch: distinct requests, each with more tokens than drafts, rearranged for the workers.
  ghost predicate Batch(d: Drafting, order: seq<RequestId>, ids: seq<RequestId>, tokens: map<RequestId, int>) {
    && d.Valid() && Distinct(order) && multiset(order) == multiset(ids)
    && forall id :: id in order ==> id in tokens && tokens[id] > d.Drafts(id)
  }

  function Scheduled(tokens: map<RequestId, int>, order: seq<RequestId>): int
    requires forall id :: id in order ==> id in tokens
  {
    if order == [] then 0 else Scheduled(tokens, order[..|order| - 1]) + tokens[order[|order| - 1]]
  }

  // The query offsets grow by exactly the kept tokens, end at the batch's token count, and stay there.
  ghost predicate Offsets(d: Drafting, ids: seq<RequestId>, tokens: map<RequestId, int>, numTokens: int, q: seq<int>)
    requires d.Valid()
  {
    && (forall id :: id in ids ==> id in tokens)
    && |q| > |ids| && q[0] == 0
    && (forall i :: 0 <= i < |ids| ==> q[i + 1] - q[i] == tokens[ids[i]] - d.Cut(ids[i]))
    && (forall i :: |ids| <= i < |q| ==> q[i] == numTokens)
    && (forall i, j :: 0 <= i <= j < |q| ==> q[i] <= q[j])
  }

  // What the cut leaves of each request.
  ghost predicate Counts(d: Drafting, ids: seq<RequestId>, tokens: map<RequestId, int>, counts: seq<int>)
    requires d.Valid()
  {
    && |counts| == |ids|
    && forall i :: 0 <= i < |ids| ==> ids[i] in tokens && counts[i] == tokens[ids[i]] - d.Cut(ids[i])
  }

  // The logits offsets grow by the verified drafts and the bonus tokens.
  ghost predicate Logits(d: Drafting, ids: seq<RequestId>, numBonus: nat, cu: seq<int>)
    requires d.Valid()
  {
    && |cu| == |ids| + 1 && cu[0] == 0
    && forall i :: 0 <= i < |ids| ==> cu[i + 1] - cu[i] == d.Verified(ids[i]) + numBonus
  }

  function TotalDrafts(d: Drafting, ids: seq<RequestId>): nat {
    if ids == [] then 0 else TotalDrafts(d, ids[..|ids| - 1]) + d.Drafts(ids[|ids| - 1])
  }

  // So the batch has as many logits as bonus tokens and uncut drafts.
  lemma {:induction false} LogitsTotal(d: Drafting, ids: seq<RequestId>, numBonus: nat, cu: seq<int>, n: nat)
    requires d.Valid() && Logits(d, ids, numBonus, cu) && n <= |ids|
    ensures cu[n] == n * numBonus + TotalDrafts(d, ids[..n]) - TotalCut(d, ids[..n])
  {
    if n > 0 {
      LogitsTotal(d, ids, numBonus, cu, n - 1);
      assert cu[n - 1 + 1] - cu[n - 1] == d.Verified(ids[n - 1]) + numBonus;
      hide Logits;
      assert ids[..n][..n - 1] == ids[..n - 1];
      assert n * numBonus == (n - 1) * numBonus + numBonus;
    }
  }

  lemma SameMembers(order: seq<RequestId>, ids: seq<RequestId>)
    requires multiset(order) == multiset(ids)
    ensures forall id :: id in ids <==> id in order
  {
    forall id ensures id in ids <==> id in order {
      assert id in ids <==> id in multiset(ids);
      assert id in order <==> id in multiset(order);
    }
  }

  // The second pass, reading what the first remembered, keeps exactly the verified drafts.
  lemma BatchFacts(d: Drafting, order: seq<RequestId>, ids: seq<RequestId>, tokens: map<RequestId, int>,
                   kept: map<RequestId, nat>)
    requires Batch(d, order, ids, tokens) && Remembers(d, order, kept)
    ensures forall id :: id in ids ==> id in order && id in tokens && KeptOf(kept, id, d.Drafts(id)) == d.Verified(id)
  {
    SameMembers(order, ids);
  }

  lemma {:induction false} NoneCut(d: Drafting, order: seq<RequestId>)
    requires d.Valid() && TotalCut(d, order) == 0
    ensures forall id :: id in order ==> d.Cut(id) == 0
  {
    if order != [] {
      NoneCut(d, order[..|order| - 1]);
      assert order == order[..|order| - 1] + [order[|order| - 1]];
    }
  }

  lemma NothingCut(d: Drafting, order: seq<RequestId>, ids: seq<RequestId>, tokens: map<RequestId, int>)
    requires Batch(d, order, ids, tokens) && TotalCut(d, order) == 0
    ensures forall id :: id in ids ==> d.Cut(id) == 0
  {
    SameMembers(order, ids);
    NoneCut(d, order);
  }

  // What is left of the batch, summed in one order.
  function Remaining(d: Drafting, tokens: map<RequestId, int>, order: seq<RequestId>): int
    requires d.Valid() && forall id :: id in order ==> id in tokens
  {
    if order == [] then 0
    else Remaining(d, tokens, order[..|order| - 1]) + tokens[order[|order| - 1]] - d.Cut(order[|order| - 1])
  }

  lemma {:induction false} RemainingIsDifference(d: Drafting, tokens: map<RequestId, int>, order: seq<RequestId>)
    requires d.Valid() && forall id :: id in order ==> id in tokens
    ensures Remaining(d, tokens, order) == Scheduled(tokens, order) - TotalCut(d, order)
  {
    if order != [] {
      RemainingIsDifference(d, tokens, order[..|order| - 1]);
    }
  }

  lemma RemainingAppend(d: Drafting, tokens: map<RequestId, int>, a: seq<RequestId>, x: RequestId)
    requires d.Valid() && x in tokens && forall id :: id in a ==> id in tokens
    ensures Remaining(d, tokens, a + [x]) == Remaining(d, tokens, a) + tokens[x] - d.Cut(x)
  {
    assert (a + [x])[..|a|] == a;
  }

  lemma {:induction false} RemainingSplit(d: Drafting, tokens: map<RequestId, int>, a: seq<RequestId>, x: RequestId,
                                          b: seq<RequestId>)
    requires d.Valid() && x in tokens && forall id :: id in a || id in b ==> id in tokens
    ensures Remaining(d, tokens, a + [x] + b) == Remaining(d, tokens, a + b) + tokens[x] - d.Cut(x)
  {
    hide Remaining;
    if b == [] {
      assert a + [x] + b == a + [x] && a + b == a;
      RemainingAppend(d, tokens, a, x);
    } else {
      var front, last := b[..|b| - 1], b[|b| - 1];
      assert last in b && forall id :: id in front ==> id in b;
      RemainingSplit(d, tokens, a, x, front);
      assert a + [x] + b == (a + [x] + front) + [last] && a + b == (a + front) + [last];
      RemainingAppend(d, tokens, a + [x] + front, last);
      RemainingAppend(d, tokens, a + front, last);
    }
  }

  lemma DropFromBoth(front: seq<RequestId>, x: RequestId, a: seq<RequestId>, b: seq<RequestId>)
    requires multiset(front + [x]) == multiset(a + [x] + b)
    ensures multiset(front) == multiset(a + b)
  {
    assert multiset(front) == multiset(front + [x]) - multiset{x};
    assert multiset(a + b) == multiset(a + [x] + b) - multiset{x};
  }

  // Any rearrangement of the batch leaves the same number of tokens.
  lemma {:induction false} AnyOrderAgrees(d: Drafting, tokens: map<RequestId, int>, order: seq<RequestId>,
                                          ids: seq<RequestId>)
    requires d.Valid() && multiset(order) == multiset(ids) && forall id :: id in order ==> id in tokens
    ensures forall id :: id in ids ==> id in tokens
    ensures Remaining(d, tokens, order) == Remaining(d, tokens, ids)
    decreases |order|
  {
    SameMembers(order, ids);
    assert |multiset(order)| == |order| && |multiset(ids)| == |ids|;
    if order != [] {
      var front, last := order[..|order| - 1], order[|order| - 1];
      assert order == front + [last];
      assert last in ids;
      var k :| 0 <= k < |ids| && ids[k] == last;
      var a, b := ids[..k], ids[k + 1..];
      assert ids == a + [last] + b;
      DropFromBoth(front, last, a, b);
      AnyOrderAgrees(d, tokens, front, a + b);
      RemainingSplit(d, tokens, a, last, b);
    }
  }

  lemma {:induction false} OffsetIsRemaining(d: Drafting, tokens: map<RequestId, int>, ids: seq<RequestId>, q: seq<int>,
                                             k: nat)
    requires d.Valid() && (forall id :: id in ids ==> id in tokens)
    requires k <= |ids| < |q| && q[0] == 0
    requires forall i :: 0 <= i < |ids| ==> q[i + 1] - q[i] == tokens[ids[i]] - d.Cut(ids[i])
    ensures q[k] == Remaining(d, tokens, ids[..k])
  {
    if k > 0 {
      OffsetIsRemaining(d, tokens, ids, q, k - 1);
      assert ids[..k][..k - 1] == ids[..k - 1];
    }
  }

  lemma {:induction false} StepsUp(q: seq<int>, i: nat, j: nat)
    requires i <= j < |q| && forall m :: 0 <= m < |q| - 1 ==> q[m] <= q[m + 1]
    ensures q[i] <= q[j]
    decreases j
  {
    if i < j {
      StepsUp(q, i, j - 1);
      assert q[j - 1] <= q[j - 1 + 1];
    }
  }

  // Offsets summed in batch order meet the count computed in scheduler order, so the padding never steps down.
  lemma OffsetsMeet(d: Drafting, order: seq<RequestId>, ids: seq<RequestId>, tokens: map<RequestId, int>,
                    counts: seq<int>, numTokens: int, q: seq<int>)
    requires Batch(d, order, ids, tokens) && numTokens == Scheduled(tokens, order) - TotalCut(d, order)
    requires Counts(d, ids, tokens, counts) && |ids| < |q| && q[0] == 0
    requires forall i :: 0 <= i < |counts| ==> q[i + 1] - q[i] == counts[i]
    requires forall i :: |counts| < i < |q| ==> q[i] == numTokens
    ensures Offsets(d, ids, tokens, numTokens, q)
  {
    RemainingIsDifference(d, tokens, order);
    AnyOrderAgrees(d, tokens, order, ids);
    OffsetIsRemaining(d, tokens, ids, q, |ids|);
    assert ids[..|ids|] == ids;
    SameMembers(order, ids);
    forall m | 0 <= m < |q| - 1 ensures q[m] <= q[m + 1] {
      if m < |ids| {
        assert ids[m] in order;
        assert d.Cut(ids[m]) <= d.Drafts(ids[m]);
      }
    }
    forall i, j | 0 <= i <= j < |q| ensures q[i] <= q[j] {
      StepsUp(q, i, j);
    }
  }
}
