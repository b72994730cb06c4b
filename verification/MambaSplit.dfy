// The chunk splitter for hybrid models whose recurrent state is cached at block boundaries
// (Scheduler._mamba_block_aligned_split), and what it guarantees over a whole prefill.
module MambaSplit {
  import opened Arithmetic

  datatype MambaConfig = MambaConfig(
    blockSize: nat,
    hashBlockSize: nat,
    useEagle: bool,
    partialCacheHit: bool,
    maxNumScheduledTokens: nat,
    longPrefillTokenThreshold: int)
  {
    ghost predicate Valid() {
      blockSize > 0 && hashBlockSize > 0
    }
  }

  // The request fields the splitter reads; none of them changes while the request is prefilling.
  datatype Prefill = Prefill(numPromptTokens: nat, numTokens: nat, sharedPrefixBoundary: nat)
  {
    function End(): int {
      Max(numPromptTokens, numTokens - 1)
    }
  }

  function LastCachePosition(cfg: MambaConfig, p: Prefill): int
    requires cfg.Valid()
  {
    var last := Floor(p.numTokens, cfg.blockSize);
    if cfg.useEagle then Max(last - cfg.blockSize, 0) else last
  }

  // 0 when fine-grained hits are off.
  function TailBoundary(cfg: MambaConfig, p: Prefill): int
    requires cfg.Valid()
  {
    if cfg.partialCacheHit then Floor(p.numPromptTokens, cfg.hashBlockSize) else 0
  }

  predicate TailActive(cfg: MambaConfig, p: Prefill)
    requires cfg.Valid()
  {
    LastCachePosition(cfg, p) < TailBoundary(cfg, p) < p.numPromptTokens
  }

  function MaxPrefillTokens(cfg: MambaConfig): int {
    if 0 < cfg.longPrefillTokenThreshold < cfg.maxNumScheduledTokens
    then cfg.longPrefillTokenThreshold
    else cfg.maxNumScheduledTokens
  }

  // The chunk end before the mandatory stops are applied.
  function AlignedEnd(cfg: MambaConfig, p: Prefill, start: nat, numNewTokens: nat): int
    requires cfg.Valid()
  {
    var end := start + numNewTokens;
    var aligned := Floor(end, cfg.blockSize);
    if end < p.End() && (aligned > start || cfg.blockSize <= MaxPrefillTokens(cfg)) then aligned else end
  }

  // The mandatory stops in source order; an inactive one is 0.
  function Stops(cfg: MambaConfig, p: Prefill, start: nat, end: int): (stops: seq<int>)
    requires cfg.Valid()
    ensures |stops| == 4
  {
    [ if start % cfg.blockSize != 0 then Floor(start, cfg.blockSize) + cfg.blockSize else 0,
      LastCachePosition(cfg, p),
      if TailActive(cfg, p) then TailBoundary(cfg, p) else 0,
      if start < p.sharedPrefixBoundary < end
      then start + Floor(p.sharedPrefixBoundary - start, cfg.blockSize) else 0 ]
  }

  // The least stop strictly inside the chunk, its end when there is none.
  function EarliestStop(stops: seq<int>, start: int, end: int): (r: int)
    ensures r <= end
    ensures r == end || (r in stops && start < r)
    ensures forall s :: s in stops && start < s < end ==> r <= s
  {
    if stops == [] then end
    else
      var r := EarliestStop(stops[1..], start, end);
      assert stops == [stops[0]] + stops[1..];
      if start < stops[0] < r then stops[0] else r
  }

  function Split(cfg: MambaConfig, p: Prefill, start: nat, numNewTokens: nat): (r: nat)
    requires cfg.Valid()
    ensures r <= numNewTokens
    ensures start >= p.End() ==> r == numNewTokens
  {
    if start >= p.End() then numNewTokens
    else
      var end := AlignedEnd(cfg, p, start, numNewTokens);
      var stop := EarliestStop(Stops(cfg, p, start, end), start, end);
      if stop > start then stop - start else 0
  }

  lemma LastCachePositionAligned(cfg: MambaConfig, p: Prefill)
    requires cfg.Valid()
    ensures LastCachePosition(cfg, p) % cfg.blockSize == 0
  {
    var b := cfg.blockSize;
    FloorIsMultiple(p.numTokens, b);
    SelfMultiple(b);
    SumOfMultiples(Floor(p.numTokens, b), b, b);
  }

  // A chunk never runs past the last cacheable boundary, the active tail boundary, or (when it starts
  // mid-block) the next block boundary.
  lemma NeverPastStop(cfg: MambaConfig, p: Prefill, start: nat, numNewTokens: nat)
    requires cfg.Valid() && start < p.End()
    ensures var end := start + Split(cfg, p, start, numNewTokens);
      && (start < LastCachePosition(cfg, p) ==> end <= LastCachePosition(cfg, p))
      && (TailActive(cfg, p) && start < TailBoundary(cfg, p) ==> end <= TailBoundary(cfg, p))
      && (start % cfg.blockSize != 0 ==> end <= Floor(start, cfg.blockSize) + cfg.blockSize)
  {
    var end := AlignedEnd(cfg, p, start, numNewTokens);
    var stops := Stops(cfg, p, start, end);
    assert stops[0] in stops && stops[1] in stops && stops[2] in stops;
  }

  // The last cacheable boundary is the last block boundary within the tokens, one block earlier with the drafter that
  // needs it.
  lemma LastCacheMeans(cfg: MambaConfig, p: Prefill)
    requires cfg.Valid()
    ensures LastCachePosition(cfg, p) % cfg.blockSize == 0
    ensures var last, room := LastCachePosition(cfg, p), if cfg.useEagle then p.numTokens - cfg.blockSize else p.numTokens;
      if room < 0 then last == 0 else 0 <= last <= room < last + cfg.blockSize
  {
    var b := cfg.blockSize;
    LastCachePositionAligned(cfg, p);
    if cfg.useEagle && p.numTokens < b {
      DivModUnique(p.numTokens, b, 0, p.numTokens);
    } else if cfg.useEagle {
      SelfMultiple(b);
      FloorIsLargest(b, p.numTokens, b);
    }
  }

  // The tail boundary is the last hash boundary within the prompt; it is active between the last cacheable one and the
  // end of the prompt.
  lemma TailMeans(cfg: MambaConfig, p: Prefill)
    requires cfg.Valid()
    ensures var tail := TailBoundary(cfg, p);
      cfg.partialCacheHit ==> tail % cfg.hashBlockSize == 0 && tail <= p.numPromptTokens < tail + cfg.hashBlockSize
    ensures TailActive(cfg, p) <==>
      && cfg.partialCacheHit && p.numPromptTokens % cfg.hashBlockSize != 0
      && LastCachePosition(cfg, p) < p.numPromptTokens - p.numPromptTokens % cfg.hashBlockSize
  {
    LastCachePositionAligned(cfg, p);
    FloorIsMultiple(p.numPromptTokens, cfg.hashBlockSize);
    FloorIsMultiple(p.numTokens, cfg.blockSize);
  }

  // A chunk of n tokens fits the limits on a step and on a prefill chunk.
  lemma ChunkLimitMeans(cfg: MambaConfig, n: nat)
    ensures n <= MaxPrefillTokens(cfg) <==>
      n <= cfg.maxNumScheduledTokens && (0 < cfg.longPrefillTokenThreshold ==> n <= cfg.longPrefillTokenThreshold)
  {
  }

  // Before the stops are applied, a chunk may reach every position within its allowance, unless that ends before the
  // prefill does: then it may reach only as far as the allowance holds a block boundary, if it holds one at all or a
  // block fits the chunk limit.
  lemma AlignedEndMeans(cfg: MambaConfig, p: Prefill, start: nat, numNewTokens: nat, m: nat)
    requires cfg.Valid() && start < m
    ensures var reach, b := start + numNewTokens, cfg.blockSize;
      m <= AlignedEnd(cfg, p, start, numNewTokens) <==>
        && m <= reach
        && (|| reach >= Max(p.numPromptTokens, p.numTokens - 1)
            || m <= reach - reach % b
            || (reach - reach % b <= start && b > MaxPrefillTokens(cfg)))
  {
  }

  // And exactly these hold it back: the next block boundary of a start inside a block, the last cacheable boundary, the
  // active tail boundary, and a junction the chunk would otherwise pass, floored to blocks from the start.
  lemma ReachesExactly(cfg: MambaConfig, p: Prefill, start: nat, numNewTokens: nat, m: nat)
    requires cfg.Valid() && start < m && start < Max(p.numPromptTokens, p.numTokens - 1)
    ensures var b, end, junction := cfg.blockSize, AlignedEnd(cfg, p, start, numNewTokens), p.sharedPrefixBoundary;
      start + Split(cfg, p, start, numNewTokens) >= m <==>
        && m <= end
        && (start % b != 0 ==> m <= start - start % b + b)
        && !(start < LastCachePosition(cfg, p) < m)
        && !(TailActive(cfg, p) && start < TailBoundary(cfg, p) < m)
        && !(start < junction < end && start < junction - (junction - start) % b < m)
  {
    var end := AlignedEnd(cfg, p, start, numNewTokens);
    var stops := Stops(cfg, p, start, end);
    assert stops[0] in stops && stops[1] in stops && stops[2] in stops && stops[3] in stops;
    forall s | s in stops ensures s == stops[0] || s == stops[1] || s == stops[2] || s == stops[3] {
    }
    hide AlignedEnd, LastCachePosition, TailBoundary, TailActive;
  }

  // Nothing to be had from a chunk that starts past the prefill but its allowance.
  lemma PastPrefill(cfg: MambaConfig, p: Prefill, start: nat, numNewTokens: nat)
    requires cfg.Valid() && start >= Max(p.numPromptTokens, p.numTokens - 1)
    ensures Split(cfg, p, start, numNewTokens) == numNewTokens
  {
  }

  // When a block fits the chunk limit, a chunk that ends before the end of the prefill ends on a block
  // boundary or on the active tail boundary: the state it leaves is always cacheable.
  lemma EndIsCacheable(cfg: MambaConfig, p: Prefill, start: nat, numNewTokens: nat)
    requires cfg.Valid() && start < p.End()
    requires cfg.blockSize <= MaxPrefillTokens(cfg)
    ensures var r := Split(cfg, p, start, numNewTokens);
      0 < r && start + r < p.End() ==>
        (start + r) % cfg.blockSize == 0 || (TailActive(cfg, p) && start + r == TailBoundary(cfg, p))
  {
    var b := cfg.blockSize;
    var r := Split(cfg, p, start, numNewTokens);
    var end := AlignedEnd(cfg, p, start, numNewTokens);
    var stops := Stops(cfg, p, start, end);
    var stop := EarliestStop(stops, start, end);
    FloorIsMultiple(start, b);
    FloorIsMultiple(start + numNewTokens, b);
    SelfMultiple(b);
    SumOfMultiples(Floor(start, b), b, b);
    LastCachePositionAligned(cfg, p);
    if 0 < r && start + r < p.End() && stop < end {
      assert stop == stops[0] || stop == stops[1] || stop == stops[2] || stop == stops[3];
      if stop == stops[3] {
        JunctionStopAligned(cfg, p, start, end);
      }
    }
  }

  // The shared-prefix stop is floored relative to the chunk start, so it is a block boundary only when the
  // start is one; a chunk that starts mid-block has an earlier stop at the next boundary.
  lemma JunctionStopAligned(cfg: MambaConfig, p: Prefill, start: nat, end: int)
    requires cfg.Valid()
    ensures var stops := Stops(cfg, p, start, end);
      start < stops[3] && EarliestStop(stops, start, end) == stops[3] ==> stops[3] % cfg.blockSize == 0
  {
    var b := cfg.blockSize;
    var stops := Stops(cfg, p, start, end);
    if start < stops[3] && start < p.sharedPrefixBoundary {
      var gap := Floor(p.sharedPrefixBoundary - start, b);
      FloorIsMultiple(p.sharedPrefixBoundary - start, b);
      MultipleAtLeastBlock(gap, b);
      assert stops[0] in stops;
      if start % b == 0 {
        SumOfMultiples(start, gap, b);
      }
    }
  }

  // Exactly when a chunk makes no progress: the allowance ends inside the block it starts in, before the
  // end of the prefill, although a whole block would fit the chunk limit.
  lemma StallsExactly(cfg: MambaConfig, p: Prefill, start: nat, numNewTokens: nat)
    requires cfg.Valid()
    ensures Split(cfg, p, start, numNewTokens) == 0 <==>
      numNewTokens == 0 ||
      (start + numNewTokens < p.End() && Floor(start + numNewTokens, cfg.blockSize) <= start
       && cfg.blockSize <= MaxPrefillTokens(cfg))
  {
  }

  // An allowance of a block, or one that reaches the end of the prefill.
  predicate Ample(cfg: MambaConfig, p: Prefill, start: nat, numNewTokens: nat) {
    numNewTokens >= cfg.blockSize || (numNewTokens > 0 && start + numNewTokens >= p.End())
  }

  lemma ProgressWithABlock(cfg: MambaConfig, p: Prefill, start: nat, numNewTokens: nat)
    requires cfg.Valid() && Ample(cfg, p, start, numNewTokens)
    ensures Split(cfg, p, start, numNewTokens) > 0
  {
    StallsExactly(cfg, p, start, numNewTokens);
  }

  // Such a chunk reaches the next block boundary or the end of the prefill, unless the active tail boundary stops it.
  lemma ReachesNextBlock(cfg: MambaConfig, p: Prefill, start: nat, numNewTokens: nat)
    requires cfg.Valid() && start < p.End() && Ample(cfg, p, start, numNewTokens)
    ensures var next := start + Split(cfg, p, start, numNewTokens);
      || next >= p.End()
      || next >= Floor(start, cfg.blockSize) + cfg.blockSize
      || (TailActive(cfg, p) && start < TailBoundary(cfg, p) == next)
  {
    var b := cfg.blockSize;
    var end := AlignedEnd(cfg, p, start, numNewTokens);
    var stops := Stops(cfg, p, start, end);
    var stop := EarliestStop(stops, start, end);
    if numNewTokens >= b {
      FloorMonotone(start, start + numNewTokens, b);
    }
    if stop < end {
      assert stop == stops[0] || stop == stops[1] || stop == stops[2] || stop == stops[3];
      if stop == stops[1] || stop == stops[3] {
        LastCachePositionAligned(cfg, p);
        JunctionStopAligned(cfg, p, start, end);
        FloorIsLargest(stop, start, b);
      }
    }
  }

  // --- Whole prefills ---------------------------------------------------------------------------

  // The positions a prefill passes through, chunk after chunk, one allowance per scheduling step.
  function Positions(cfg: MambaConfig, p: Prefill, start: nat, allowances: seq<nat>): (ps: seq<nat>)
    requires cfg.Valid()
    ensures |ps| == |allowances| + 1 && ps[0] == start
    decreases |allowances|
  {
    if allowances == [] then [start]
    else [start] + Positions(cfg, p, start + Split(cfg, p, start, allowances[0]), allowances[1..])
  }

  // The shared-prefix junction, floored to a block boundary.
  function Junction(cfg: MambaConfig, p: Prefill): int
    requires cfg.Valid()
  {
    Floor(p.sharedPrefixBoundary, cfg.blockSize)
  }

  // No chunk can run past the junction's boundary: it lies in the prefill, and so does the junction, or the junction
  // is on the boundary, or another stop is there or in the block before it.
  predicate JunctionHolds(cfg: MambaConfig, p: Prefill)
    requires cfg.Valid()
  {
    && Junction(cfg, p) <= p.End()
    && (|| p.sharedPrefixBoundary < p.End() || p.sharedPrefixBoundary == Junction(cfg, p) || Junction(cfg, p) == 0
        || LastCachePosition(cfg, p) == Junction(cfg, p)
        || (TailActive(cfg, p) && Junction(cfg, p) - cfg.blockSize < TailBoundary(cfg, p) <= Junction(cfg, p)))
  }

  // The positions every prefill has to stop at: the last cacheable boundary, when the prefill reaches that
  // far, the prompt's last hash boundary, when fine-grained hits make it active, and the junction's block boundary.
  predicate MandatoryStop(cfg: MambaConfig, p: Prefill, stop: int)
    requires cfg.Valid()
  {
    || (stop == LastCachePosition(cfg, p) && stop <= p.End())
    || (TailActive(cfg, p) && stop == TailBoundary(cfg, p))
    || (stop == Junction(cfg, p) && JunctionHolds(cfg, p))
  }

  // A chunk that starts before such a boundary ends there or before.
  lemma NeverPastJunction(cfg: MambaConfig, p: Prefill, start: nat, numNewTokens: nat)
    requires cfg.Valid() && start < Junction(cfg, p) && JunctionHolds(cfg, p)
    ensures start + Split(cfg, p, start, numNewTokens) <= Junction(cfg, p)
  {
    var b, junction := cfg.blockSize, Junction(cfg, p);
    FloorIsMultiple(p.sharedPrefixBoundary, b);
    FloorIsLargest(junction, start, b);
    NeverPastStop(cfg, p, start, numNewTokens);
    if start % b == 0 && (p.sharedPrefixBoundary < p.End() || p.sharedPrefixBoundary == junction) {
      AtJunction(cfg, p, start, numNewTokens);
    }
  }

  lemma AtJunction(cfg: MambaConfig, p: Prefill, start: nat, numNewTokens: nat)
    requires cfg.Valid() && start < Junction(cfg, p) <= p.End() && start % cfg.blockSize == 0
    requires p.sharedPrefixBoundary < p.End() || p.sharedPrefixBoundary == Junction(cfg, p)
    ensures start + Split(cfg, p, start, numNewTokens) <= Junction(cfg, p)
  {
    var b, junction, end := cfg.blockSize, Junction(cfg, p), AlignedEnd(cfg, p, start, numNewTokens);
    var stops := Stops(cfg, p, start, end);
    FloorIsMultiple(p.sharedPrefixBoundary, b);
    if p.sharedPrefixBoundary < end {
      SumOfMultiples(junction, start, b);
      FloorShift(p.sharedPrefixBoundary, start, b);
      assert stops[3] == junction && stops[3] in stops;
    } else if end > junction {
      FloorIsMultiple(start + numNewTokens, b);
      FloorIsLargest(junction, start + numNewTokens, b);
      FloorIsLargest(end, p.sharedPrefixBoundary, b);
    }
  }

  // Every prefill that starts at or below a mandatory stop and gets at least that far has a chunk that ends
  // exactly there, whatever the allowances were.
  lemma {:induction false} VisitsMandatoryStops(
    cfg: MambaConfig, p: Prefill, start: nat, allowances: seq<nat>, stop: int)
    requires cfg.Valid()
    ensures MandatoryStop(cfg, p, stop) && start <= stop <= Positions(cfg, p, start, allowances)[|allowances|]
        ==> stop in Positions(cfg, p, start, allowances)
    decreases |allowances|
  {
    hide Split;
    if !MandatoryStop(cfg, p, stop) || stop > Positions(cfg, p, start, allowances)[|allowances|] {
    } else if start < stop {
      NeverPastStop(cfg, p, start, allowances[0]);
      if stop == Junction(cfg, p) && JunctionHolds(cfg, p) {
        NeverPastJunction(cfg, p, start, allowances[0]);
      }
      VisitsMandatoryStops(cfg, p, start + Split(cfg, p, start, allowances[0]), allowances[1..], stop);
    } else if start == stop {
      assert Positions(cfg, p, start, allowances)[0] == stop;
    }
  }

  // Otherwise one chunk can run past it: from the block before the boundary to the junction, which ends the prefill, or
  // from the end of the prefill on.
  lemma JunctionMissed(cfg: MambaConfig, p: Prefill) returns (start: nat, allowance: nat)
    requires cfg.Valid() && !JunctionHolds(cfg, p)
    ensures start <= Junction(cfg, p) <= Positions(cfg, p, start, [allowance])[1]
    ensures Junction(cfg, p) !in Positions(cfg, p, start, [allowance])
  {
    hide Split, Floor, LastCachePosition, TailBoundary, TailActive, Junction;
    var junction := Junction(cfg, p);
    JunctionAligned(cfg, p);
    if junction > p.End() {
      start, allowance := p.End(), junction - p.End() + 1;
    } else {
      MultipleAtLeastBlock(junction, cfg.blockSize);
      start, allowance := junction - cfg.blockSize, p.sharedPrefixBoundary - (junction - cfg.blockSize);
      RunsPastJunction(cfg, p, start, allowance);
    }
    assert [allowance][1..] == [];
    assert Positions(cfg, p, start, [allowance]) == [start, start + Split(cfg, p, start, allowance)];
  }

  lemma JunctionAligned(cfg: MambaConfig, p: Prefill)
    requires cfg.Valid()
    ensures 0 <= Junction(cfg, p) <= p.sharedPrefixBoundary && Junction(cfg, p) % cfg.blockSize == 0
  {
    FloorIsMultiple(p.sharedPrefixBoundary, cfg.blockSize);
  }

  lemma RunsPastJunction(cfg: MambaConfig, p: Prefill, start: nat, numNewTokens: nat)
    requires cfg.Valid() && !JunctionHolds(cfg, p) && Junction(cfg, p) <= p.End()
    requires start + cfg.blockSize == Junction(cfg, p) && start + numNewTokens == p.sharedPrefixBoundary
    ensures start + Split(cfg, p, start, numNewTokens) > Junction(cfg, p)
  {
    var b, junction, last := cfg.blockSize, Junction(cfg, p), LastCachePosition(cfg, p);
    FloorIsMultiple(p.sharedPrefixBoundary, b);
    SelfMultiple(b);
    SumOfMultiples(junction, b, b);
    LastCachePositionAligned(cfg, p);
    FloorIsLargest(last, start, b);
    assert last <= start || last > junction;
    var end := AlignedEnd(cfg, p, start, numNewTokens);
    var stops := Stops(cfg, p, start, end);
    hide LastCachePosition, TailBoundary, Floor;
    assert end == p.sharedPrefixBoundary > junction;
    assert stops[0] == 0 && stops[3] == 0;
    assert forall s :: s in stops && start < s ==> s > junction;
  }

  // So exactly then every prefill that passes the junction's boundary stops there.
  lemma JunctionVisitedExactly(cfg: MambaConfig, p: Prefill)
    requires cfg.Valid()
    ensures JunctionHolds(cfg, p) <==>
      forall start: nat, allowances: seq<nat> ::
        start <= Junction(cfg, p) <= Positions(cfg, p, start, allowances)[|allowances|] ==>
        Junction(cfg, p) in Positions(cfg, p, start, allowances)
  {
    hide Positions, Junction, JunctionHolds;
    if JunctionHolds(cfg, p) {
      forall start: nat, allowances: seq<nat>
        | start <= Junction(cfg, p) <= Positions(cfg, p, start, allowances)[|allowances|]
        ensures Junction(cfg, p) in Positions(cfg, p, start, allowances)
      {
        VisitsMandatoryStops(cfg, p, start, allowances, Junction(cfg, p));
      }
    } else {
      var start, allowance := JunctionMissed(cfg, p);
      assert |[allowance]| == 1;
    }
  }

  predicate Cacheable(cfg: MambaConfig, p: Prefill, position: nat)
    requires cfg.Valid()
  {
    || position % cfg.blockSize == 0
    || (TailActive(cfg, p) && position == TailBoundary(cfg, p))
  }

  // When a block fits the chunk limit, every chunk of every prefill that makes progress leaves a cacheable
  // state until the prefill is over.
  lemma {:induction false} EveryChunkEndCacheable(
    cfg: MambaConfig, p: Prefill, start: nat, allowances: seq<nat>, i: nat)
    requires cfg.Valid() && cfg.blockSize <= MaxPrefillTokens(cfg) && i <= |allowances|
    ensures start < Positions(cfg, p, start, allowances)[i] < p.End()
        ==> Cacheable(cfg, p, Positions(cfg, p, start, allowances)[i])
    decreases i
  {
    hide Split;
    if !(start < Positions(cfg, p, start, allowances)[i] < p.End()) {
      return;
    }
    var next := start + Split(cfg, p, start, allowances[0]);
    PositionsGrow(cfg, p, next, allowances[1..], i - 1);
    if next < Positions(cfg, p, next, allowances[1..])[i - 1] {
      EveryChunkEndCacheable(cfg, p, next, allowances[1..], i - 1);
    } else {
      EndIsCacheable(cfg, p, start, allowances[0]);
    }
  }

  lemma {:induction false} PositionsGrow(cfg: MambaConfig, p: Prefill, start: nat, allowances: seq<nat>, i: nat)
    requires cfg.Valid() && i <= |allowances|
    ensures start <= Positions(cfg, p, start, allowances)[i]
    decreases i
  {
    hide Split;
    if i > 0 {
      PositionsGrow(cfg, p, start + Split(cfg, p, start, allowances[0]), allowances[1..], i - 1);
    }
  }

  // Every step is allowed a block, or the rest of the prefill.
  predicate AllAmple(cfg: MambaConfig, p: Prefill, start: nat, allowances: seq<nat>)
    requires cfg.Valid()
    decreases |allowances|
  {
    allowances == [] ||
    (Ample(cfg, p, start, allowances[0])
     && AllAmple(cfg, p, start + Split(cfg, p, start, allowances[0]), allowances[1..]))
  }

  function TailAhead(cfg: MambaConfig, p: Prefill, start: nat): nat
    requires cfg.Valid()
  {
    if TailActive(cfg, p) && start < TailBoundary(cfg, p) then 1 else 0
  }

  // With such allowances a prefill gains a block in every step, but for the one step that the active tail boundary may
  // cut short: it is over after one step per block it touches, plus one if that boundary is still ahead. No step is
  // empty.
  lemma {:induction false} PrefillFinishes(cfg: MambaConfig, p: Prefill, start: nat, allowances: seq<nat>)
    requires cfg.Valid() && AllAmple(cfg, p, start, allowances)
    ensures var last := Positions(cfg, p, start, allowances)[|allowances|];
      && last >= start + |allowances|
      && (last >= p.End() ||
          last >= Floor(start, cfg.blockSize) + (|allowances| - TailAhead(cfg, p, start)) * cfg.blockSize)
    ensures Floor(start, cfg.blockSize) + (|allowances| - TailAhead(cfg, p, start)) * cfg.blockSize >= p.End()
      ==> Positions(cfg, p, start, allowances)[|allowances|] >= p.End()
    decreases |allowances|
  {
    hide Split, LastCachePosition, TailBoundary;
    if allowances != [] {
      var next := start + Split(cfg, p, start, allowances[0]);
      var last := Positions(cfg, p, start, allowances)[|allowances|];
      ProgressWithABlock(cfg, p, start, allowances[0]);
      PrefillFinishes(cfg, p, next, allowances[1..]);
      if last < p.End() {
        ReachesNextBlock(cfg, p, start, allowances[0]);
        OneMoreBlock(start, next, |allowances| - 1 - TailAhead(cfg, p, next), cfg.blockSize);
        OneMoreBlock(start, next, |allowances| - 1, cfg.blockSize);
      }
    }
  }

  // Steps counted from a later start.
  lemma OneMoreBlock(start: nat, next: nat, steps: int, b: nat)
    requires b > 0 && start <= next
    ensures Floor(next, b) + steps * b >= Floor(start, b) + steps * b
    ensures next >= Floor(start, b) + b ==> Floor(next, b) + steps * b >= Floor(start, b) + (steps + 1) * b
    ensures steps * b == (steps + 1) * b - b
  {
    FloorMonotone(start, next, b);
  }
}
