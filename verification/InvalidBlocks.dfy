// Recovery from KV blocks that failed to load (_update_requests_with_invalid_blocks): every request is cut back to its
// longest usable prefix, where a block shared by several requests is recomputed by the first of them only.
module InvalidBlocks {
  import opened Arithmetic
  import opened Sequences

  type BlockId = nat

  // A request to scan: its blocks, its num_computed_tokens and how many of those this step had scheduled.
  datatype Loaded = Loaded(blocks: seq<BlockId>, numComputed: int, scheduled: int)

  ghost predicate Valid(r: Loaded, blockSize: int) {
    0 < blockSize && 0 <= r.scheduled <= r.numComputed
  }

  function CeilDiv(x: int, d: int): int
    requires d > 0
  {
    (x + d - 1) / d
  }

  // The blocks a transfer can have filled: those of the tokens computed before this step.
  function Scanned(r: Loaded, blockSize: int): seq<BlockId>
    requires blockSize > 0
  {
    r.blocks[..Max(0, Min(CeilDiv(r.numComputed - r.scheduled, blockSize), |r.blocks|))]
  }

  // The first index at or after i of an invalid block that no earlier request has marked; |blocks| if there is none.
  function FirstNew(blocks: seq<BlockId>, invalid: set<BlockId>, marked: set<BlockId>, i: nat): (k: nat)
    requires i <= |blocks|
    ensures i <= k <= |blocks|
    ensures forall j :: i <= j < k ==> blocks[j] !in invalid || blocks[j] in marked
    ensures k < |blocks| ==> blocks[k] in invalid && blocks[k] !in marked
    decreases |blocks| - i
  {
    if i == |blocks| || (blocks[i] in invalid && blocks[i] !in marked) then i
    else FirstNew(blocks, invalid, marked, i + 1)
  }

  predicate Affected(blocks: seq<BlockId>, invalid: set<BlockId>) {
    exists b :: b in blocks && b in invalid
  }

  function InvalidIn(blocks: seq<BlockId>, invalid: set<BlockId>): set<BlockId> {
    set b | b in blocks && b in invalid
  }

  // The new num_computed_tokens of a request, given the blocks that earlier requests marked.
  function NewComputed(r: Loaded, blockSize: int, invalid: set<BlockId>, marked: set<BlockId>): int
    requires blockSize > 0
  {
    var blocks := Scanned(r, blockSize);
    var k := FirstNew(blocks, invalid, marked, 0);
    if k < |blocks| then k * blockSize
    else if Affected(blocks, invalid) then r.numComputed - r.scheduled
    else r.numComputed
  }

  // The tokens the source reports as affected for one request.
  function AffectedTokens(r: Loaded, blockSize: int, invalid: set<BlockId>, marked: set<BlockId>): int
    requires blockSize > 0
  {
    var blocks := Scanned(r, blockSize);
    var k := FirstNew(blocks, invalid, marked, 0);
    if k < |blocks| then r.numComputed - r.scheduled - k * blockSize
    else if Affected(blocks, invalid) then r.scheduled
    else 0
  }

  function Downstream(r: Loaded, blockSize: int, invalid: set<BlockId>, marked: set<BlockId>): set<BlockId>
    requires blockSize > 0
  {
    var k := FirstNew(Scanned(r, blockSize), invalid, marked, 0);
    if k < |Scanned(r, blockSize)| then set b | b in r.blocks[k..] else {}
  }

  // What is marked before the i-th request is scanned.
  function MarkedBefore(rs: seq<Loaded>, blockSize: int, invalid: set<BlockId>, i: nat): set<BlockId>
    requires i <= |rs| && blockSize > 0
  {
    if i == 0 then {}
    else MarkedBefore(rs, blockSize, invalid, i - 1) + InvalidIn(Scanned(rs[i - 1], blockSize), invalid)
  }

  // The marks are the invalid blocks that some earlier request holds.
  lemma {:induction false} MarkedBeforeMeans(rs: seq<Loaded>, blockSize: int, invalid: set<BlockId>, i: nat, b: BlockId)
    requires i <= |rs| && blockSize > 0
    ensures b in MarkedBefore(rs, blockSize, invalid, i) <==>
      b in invalid && exists j :: 0 <= j < i && b in Scanned(rs[j], blockSize)
  {
    if i > 0 {
      MarkedBeforeMeans(rs, blockSize, invalid, i - 1, b);
    }
  }

  function NewComputedOf(rs: seq<Loaded>, blockSize: int, invalid: set<BlockId>, i: nat): int
    requires i < |rs| && blockSize > 0
  {
    NewComputed(rs[i], blockSize, invalid, MarkedBefore(rs, blockSize, invalid, i))
  }

  lemma ScannedIsComputed(x: int, d: int, i: int)
    requires d > 0 && 0 <= i < CeilDiv(x, d)
    ensures i * d < x
  {
    var q := CeilDiv(x, d);
    FloorIsMultiple(x + d - 1, d);
    assert q * d == (q - 1) * d + d;
    if i < q - 1 {
      BlockOrder(i, q - 1, d);
    }
  }

  lemma BlockOrder(p: int, k: int, d: int)
    requires d > 0
    ensures p * d < k * d <==> p < k
  {
    assert k * d - p * d == (k - p) * d;
    MultipleSign(k - p, d);
  }

  lemma MultipleSign(m: int, d: int)
    requires d > 0
    ensures m * d > 0 <==> m > 0
  {
    if m > 0 {
      assert (m - 1) * d >= 0;
    }
  }

  // --- What the recovery guarantees ---------------------------------------------------------------

  // The recovery never adds computed tokens; it takes this step's from every request with an invalid block and none
  // from any other.
  lemma NeverGrows(rs: seq<Loaded>, blockSize: int, invalid: set<BlockId>, i: nat)
    requires i < |rs| && Valid(rs[i], blockSize)
    ensures 0 <= NewComputedOf(rs, blockSize, invalid, i) <= rs[i].numComputed
    ensures Affected(Scanned(rs[i], blockSize), invalid)
            ==> NewComputedOf(rs, blockSize, invalid, i) <= rs[i].numComputed - rs[i].scheduled
    ensures !Affected(Scanned(rs[i], blockSize), invalid)
            ==> NewComputedOf(rs, blockSize, invalid, i) == rs[i].numComputed
  {
    var k := FirstNew(Scanned(rs[i], blockSize), invalid, MarkedBefore(rs, blockSize, invalid, i), 0);
    if k < |Scanned(rs[i], blockSize)| {
      ScannedIsComputed(rs[i].numComputed - rs[i].scheduled, blockSize, k);
      assert k * blockSize >= 0;
    }
  }

  // A block of the transferred prefix that failed and that nobody before has marked.
  predicate IsNew(r: Loaded, blockSize: int, invalid: set<BlockId>, marked: set<BlockId>, p: nat)
    requires blockSize > 0
  {
    p < |Scanned(r, blockSize)| && r.blocks[p] in invalid && r.blocks[p] !in marked
  }

  ghost predicate HasNew(r: Loaded, blockSize: int, invalid: set<BlockId>, marked: set<BlockId>)
    requires blockSize > 0
  {
    exists p: nat :: IsNew(r, blockSize, invalid, marked, p)
  }

  // With a new block the request keeps exactly the blocks before the first of them, with marked ones alone it loses the
  // tokens of this step, otherwise nothing; the reported tokens are what is lost, but for the step's own when blocks are.
  lemma RecoveryMeans(r: Loaded, blockSize: int, invalid: set<BlockId>, marked: set<BlockId>, p: nat)
    requires Valid(r, blockSize)
    ensures var computed, lost := NewComputed(r, blockSize, invalid, marked), AffectedTokens(r, blockSize, invalid, marked);
      if HasNew(r, blockSize, invalid, marked) then
        && computed + lost == r.numComputed - r.scheduled
        && (IsNew(r, blockSize, invalid, marked, p) && (forall q: nat :: q < p ==> !IsNew(r, blockSize, invalid, marked, q))
            ==> computed == p * blockSize)
      else
        && computed + lost == r.numComputed
        && lost == if exists q :: 0 <= q < |Scanned(r, blockSize)| && r.blocks[q] in invalid then r.scheduled else 0
  {
    var blocks := Scanned(r, blockSize);
    var k := FirstNew(blocks, invalid, marked, 0);
    assert forall q :: 0 <= q < |blocks| ==> blocks[q] == r.blocks[q];
    if k < |blocks| {
      assert IsNew(r, blockSize, invalid, marked, k);
    }
  }

  // What is evicted is every block at or behind a new one.
  lemma DownstreamMeans(r: Loaded, blockSize: int, invalid: set<BlockId>, marked: set<BlockId>, b: BlockId)
    requires blockSize > 0
    ensures b in Downstream(r, blockSize, invalid, marked) <==>
      exists p: nat, j :: p <= j < |r.blocks| && IsNew(r, blockSize, invalid, marked, p) && r.blocks[j] == b
  {
    var blocks := Scanned(r, blockSize);
    var k := FirstNew(blocks, invalid, marked, 0);
    assert forall p :: 0 <= p < |blocks| ==> blocks[p] == r.blocks[p];
    if k < |blocks| {
      assert IsNew(r, blockSize, invalid, marked, k);
      if b in r.blocks[k..] {
        var i :| 0 <= i < |r.blocks[k..]| && r.blocks[k..][i] == b;
        assert r.blocks[k + i] == b;
      }
      if p: nat, j :| p <= j < |r.blocks| && IsNew(r, blockSize, invalid, marked, p) && r.blocks[j] == b {
        assert k <= p && r.blocks[k..][j - k] == b;
      }
    }
  }

  // The transferred prefix ends with the block that holds the last token computed before this step.
  lemma ScannedMeans(r: Loaded, blockSize: int)
    requires Valid(r, blockSize)
    ensures Scanned(r, blockSize) <= r.blocks
    ensures forall p: nat :: p < |r.blocks| ==>
      (p < |Scanned(r, blockSize)| <==> p * blockSize < r.numComputed - r.scheduled)
  {
    var x := r.numComputed - r.scheduled;
    forall p: nat | p < |r.blocks| ensures p < |Scanned(r, blockSize)| <==> p * blockSize < x {
      if p < CeilDiv(x, blockSize) {
        ScannedIsComputed(x, blockSize, p);
      } else {
        NotScanned(x, blockSize, p);
      }
    }
  }

  lemma NotScanned(x: int, d: int, i: int)
    requires d > 0 && i >= CeilDiv(x, d)
    ensures i * d >= x
  {
    var q := CeilDiv(x, d);
    FloorIsMultiple(x + d - 1, d);
    if i > q {
      BlockOrder(q, i, d);
    }
  }

  // The first request that holds an invalid block is cut back to it or further.
  lemma FirstHolderRecomputes(rs: seq<Loaded>, blockSize: int, invalid: set<BlockId>, i: nat, p: nat)
    requires i < |rs| && Valid(rs[i], blockSize) && p < |Scanned(rs[i], blockSize)|
    requires Scanned(rs[i], blockSize)[p] in invalid
    requires forall j :: 0 <= j < i ==> Scanned(rs[i], blockSize)[p] !in Scanned(rs[j], blockSize)
    ensures NewComputedOf(rs, blockSize, invalid, i) <= p * blockSize
  {
    var k := FirstNew(Scanned(rs[i], blockSize), invalid, MarkedBefore(rs, blockSize, invalid, i), 0);
    MarkedBeforeMeans(rs, blockSize, invalid, i, Scanned(rs[i], blockSize)[p]);
    assert k <= p;
    BlockOrder(p, k, blockSize);
  }

  // An invalid block that a request keeps is recomputed by an earlier one.
  lemma {:induction false} KeptBlocksAreRecomputed(rs: seq<Loaded>, blockSize: int, invalid: set<BlockId>, i: nat, p: nat)
    requires i < |rs| && (forall r :: r in rs ==> Valid(r, blockSize)) && 0 < blockSize
    requires p < |Scanned(rs[i], blockSize)| && Scanned(rs[i], blockSize)[p] in invalid
    requires p * blockSize < NewComputedOf(rs, blockSize, invalid, i)
    ensures exists j, q :: 0 <= j < i && 0 <= q < |Scanned(rs[j], blockSize)|
              && Scanned(rs[j], blockSize)[q] == Scanned(rs[i], blockSize)[p]
              && NewComputedOf(rs, blockSize, invalid, j) <= q * blockSize
  {
    var b := Scanned(rs[i], blockSize)[p];
    var marked := MarkedBefore(rs, blockSize, invalid, i);
    var k := FirstNew(Scanned(rs[i], blockSize), invalid, marked, 0);
    BlockOrder(p, k, blockSize);
    MarkedBeforeMeans(rs, blockSize, invalid, i, b);
    var j :| 0 <= j < i && b in Scanned(rs[j], blockSize);
    j := FirstHolder(rs, blockSize, b, j);
    var q :| 0 <= q < |Scanned(rs[j], blockSize)| && Scanned(rs[j], blockSize)[q] == b;
    FirstHolderRecomputes(rs, blockSize, invalid, j, q);
  }

  lemma {:induction false} FirstHolder(rs: seq<Loaded>, blockSize: int, b: BlockId, j: nat) returns (first: nat)
    requires j < |rs| && blockSize > 0 && b in Scanned(rs[j], blockSize)
    ensures first <= j && b in Scanned(rs[first], blockSize)
    ensures forall i :: 0 <= i < first ==> b !in Scanned(rs[i], blockSize)
  {
    if i :| 0 <= i < j && b in Scanned(rs[i], blockSize) {
      first := FirstHolder(rs, blockSize, b, i);
    } else {
      first := j;
    }
  }

  // --- The nested loop ----------------------------------------------------------------------------

  class LoadedRequest {
    const blockIds: seq<BlockId>
    const numScheduled: int
    var numComputedTokens: int

    constructor (blockIds: seq<BlockId>, numScheduled: int, numComputedTokens: int)
      ensures View() == Loaded(blockIds, numComputedTokens, numScheduled)
    {
      this.blockIds, this.numScheduled, this.numComputedTokens := blockIds, numScheduled, numComputedTokens;
    }

    function View(): Loaded
      reads this
    {
      Loaded(blockIds, numComputedTokens, numScheduled)
    }

    // The request's turn of the outer loop.
    method Scan(blockSize: int, invalid: set<BlockId>, marked: set<BlockId>)
      returns (isAffected: bool, marked': set<BlockId>, affectedTokens: int, evict: set<BlockId>)
      requires Valid(View(), blockSize)
      modifies this
      ensures numComputedTokens == NewComputed(old(View()), blockSize, invalid, marked)
      ensures affectedTokens == AffectedTokens(old(View()), blockSize, invalid, marked)
      ensures isAffected == Affected(Scanned(old(View()), blockSize), invalid)
      ensures marked' == marked + InvalidIn(Scanned(old(View()), blockSize), invalid)
      ensures evict == Downstream(old(View()), blockSize, invalid, marked)
    {
      var reqNumComputed := numComputedTokens - numScheduled;
      var numBlocks := Max(0, Min(CeilDiv(reqNumComputed, blockSize), |blockIds|));
      var truncateAt;
      isAffected, marked', truncateAt := ScanBlocks(blockIds[..numBlocks], invalid, marked);
      affectedTokens, evict := 0, {};
      if truncateAt < numBlocks {
        // Cut back to the first block this request newly marks.
        numComputedTokens := truncateAt * blockSize;
        affectedTokens := reqNumComputed - numComputedTokens;
        evict := set b | b in blockIds[truncateAt..];
      } else if isAffected {
        // Every failed block of this request is recomputed by an earlier one: only the scheduled tokens go.
        affectedTokens := numComputedTokens - reqNumComputed;
        numComputedTokens := reqNumComputed;
      }
    }
  }

  // The inner loop over a request's blocks; `truncateAt` is the first block the request newly marks.
  method ScanBlocks(blocks: seq<BlockId>, invalid: set<BlockId>, marked: set<BlockId>)
    returns (isAffected: bool, marked': set<BlockId>, truncateAt: nat)
    ensures isAffected == Affected(blocks, invalid)
    ensures marked' == marked + InvalidIn(blocks, invalid)
    ensures truncateAt == FirstNew(blocks, invalid, marked, 0)
  {
    isAffected, marked', truncateAt := false, marked, |blocks|;
    var markedInvalidBlock := false;
    assert !Affected(blocks[..0], invalid) && InvalidIn(blocks[..0], invalid) == {};
    ghost var k := FirstNew(blocks, invalid, marked, 0);
    hide FirstNew, Affected, InvalidIn;
    for idx := 0 to |blocks|
      invariant isAffected == Affected(blocks[..idx], invalid)
      invariant marked' == marked + InvalidIn(blocks[..idx], invalid)
      invariant markedInvalidBlock == (k < idx)
      invariant truncateAt == if markedInvalidBlock then k else |blocks|
    {
      var blockId := blocks[idx];
      InvalidInAppend(blocks, invalid, idx);
      if blockId !in invalid {
        continue;
      }
      isAffected := true;
      if blockId in marked' {
        FirstNewSkips(blocks, invalid, marked, idx);
        continue;
      }
      marked' := marked' + {blockId};
      if markedInvalidBlock {
        continue;
      }
      markedInvalidBlock := true;
      truncateAt := idx;
    }
    assert blocks[..|blocks|] == blocks;
  }

  lemma InvalidInAppend(blocks: seq<BlockId>, invalid: set<BlockId>, idx: nat)
    requires idx < |blocks|
    ensures InvalidIn(blocks[..idx + 1], invalid)
         == InvalidIn(blocks[..idx], invalid) + if blocks[idx] in invalid then {blocks[idx]} else {}
    ensures Affected(blocks[..idx + 1], invalid) == (Affected(blocks[..idx], invalid) || blocks[idx] in invalid)
  {
    assert blocks[..idx + 1] == blocks[..idx] + [blocks[idx]];
  }

  // A block of this request that is already marked was marked before or lies behind the first new one.
  lemma FirstNewSkips(blocks: seq<BlockId>, invalid: set<BlockId>, marked: set<BlockId>, idx: nat)
    requires idx < |blocks| && blocks[idx] in marked + InvalidIn(blocks[..idx], invalid)
    ensures FirstNew(blocks, invalid, marked, 0) != idx
  {
    if blocks[idx] !in marked {
      var i :| 0 <= i < idx && blocks[..idx][i] == blocks[idx];
      assert blocks[i] in invalid && blocks[i] !in marked;
    }
  }

  function Views(requests: seq<LoadedRequest>): (rs: seq<Loaded>)
    reads requests
    ensures |rs| == |requests|
    ensures forall i :: 0 <= i < |rs| ==> rs[i] == requests[i].View()
  {
    if requests == [] then [] else [requests[0].View()] + Views(requests[1..])
  }

  // What the scan of the i-th request adds to the three results.
  predicate AffectedAt(rs: seq<Loaded>, blockSize: int, invalid: set<BlockId>, i: nat)
    requires i < |rs| && blockSize > 0
  {
    Affected(Scanned(rs[i], blockSize), invalid)
  }

  function TokensAt(rs: seq<Loaded>, blockSize: int, invalid: set<BlockId>, i: nat): int
    requires i < |rs| && blockSize > 0
  {
    AffectedTokens(rs[i], blockSize, invalid, MarkedBefore(rs, blockSize, invalid, i))
  }

  // The first newly marked block and everything downstream of it.
  function EvictedAt(rs: seq<Loaded>, blockSize: int, invalid: set<BlockId>, i: nat): set<BlockId>
    requires i < |rs| && blockSize > 0
  {
    Downstream(rs[i], blockSize, invalid, MarkedBefore(rs, blockSize, invalid, i))
  }

  function TotalTokens(rs: seq<Loaded>, blockSize: int, invalid: set<BlockId>, n: nat): int
    requires n <= |rs| && blockSize > 0
  {
    if n == 0 then 0 else TotalTokens(rs, blockSize, invalid, n - 1) + TokensAt(rs, blockSize, invalid, n - 1)
  }

  function AllEvicted(rs: seq<Loaded>, blockSize: int, invalid: set<BlockId>, n: nat): set<BlockId>
    requires n <= |rs| && blockSize > 0
  {
    if n == 0 then {} else AllEvicted(rs, blockSize, invalid, n - 1) + EvictedAt(rs, blockSize, invalid, n - 1)
  }

  // The total grows, request by request, by what the request loses, but for the step's own tokens when it loses blocks.
  lemma TotalMeans(rs: seq<Loaded>, blockSize: int, invalid: set<BlockId>, n: nat)
    requires n < |rs| && Valid(rs[n], blockSize)
    ensures TotalTokens(rs, blockSize, invalid, 0) == 0
    ensures var marked, lost := MarkedBefore(rs, blockSize, invalid, n),
        TotalTokens(rs, blockSize, invalid, n + 1) - TotalTokens(rs, blockSize, invalid, n);
      NewComputedOf(rs, blockSize, invalid, n) + lost
      == rs[n].numComputed - if HasNew(rs[n], blockSize, invalid, marked) then rs[n].scheduled else 0
  {
    hide NewComputed, AffectedTokens, HasNew;
    var marked := MarkedBefore(rs, blockSize, invalid, n);
    RecoveryMeans(rs[n], blockSize, invalid, marked, 0);
  }

  ghost predicate EvictedBy(rs: seq<Loaded>, blockSize: int, invalid: set<BlockId>, i: nat, b: BlockId)
    requires i < |rs| && blockSize > 0
  {
    exists p: nat, j :: p <= j < |rs[i].blocks| && rs[i].blocks[j] == b
                     && IsNew(rs[i], blockSize, invalid, MarkedBefore(rs, blockSize, invalid, i), p)
  }

  // What is evicted lies, in some request, at or behind a block that its scan newly marked.
  lemma {:induction false} EvictedMeans(rs: seq<Loaded>, blockSize: int, invalid: set<BlockId>, n: nat, b: BlockId)
    requires n <= |rs| && blockSize > 0
    ensures b in AllEvicted(rs, blockSize, invalid, n) <==>
      exists i :: 0 <= i < n && EvictedBy(rs, blockSize, invalid, i, b)
  {
    hide EvictedBy, EvictedAt;
    if n > 0 {
      EvictedMeans(rs, blockSize, invalid, n - 1, b);
      EvictedHere(rs, blockSize, invalid, n - 1, b);
      if i :| 0 <= i < n && EvictedBy(rs, blockSize, invalid, i, b) {
        assert i < n - 1 ==> b in AllEvicted(rs, blockSize, invalid, n - 1);
      }
    }
  }

  lemma EvictedHere(rs: seq<Loaded>, blockSize: int, invalid: set<BlockId>, i: nat, b: BlockId)
    requires i < |rs| && blockSize > 0
    ensures b in EvictedAt(rs, blockSize, invalid, i) <==> EvictedBy(rs, blockSize, invalid, i, b)
  {
    DownstreamMeans(rs[i], blockSize, invalid, MarkedBefore(rs, blockSize, invalid, i), b);
    hide IsNew, Downstream, MarkedBefore;
  }

  // The first n requests are recovered, the others untouched.
  ghost predicate Recovered(requests: seq<LoadedRequest>, rs: seq<Loaded>, blockSize: int, invalid: set<BlockId>,
                            affected: set<LoadedRequest>, n: nat)
    requires |rs| == |requests| && blockSize > 0
    reads requests
  {
    && (forall j :: 0 <= j < n && j < |requests| ==>
          requests[j].numComputedTokens == NewComputedOf(rs, blockSize, invalid, j)
          && (requests[j] in affected <==> AffectedAt(rs, blockSize, invalid, j)))
    && (forall j :: n <= j < |requests| ==> requests[j].View() == rs[j] && requests[j] !in affected)
  }

  lemma AllRecovered(requests: seq<LoadedRequest>, rs: seq<Loaded>, blockSize: int, invalid: set<BlockId>,
                     affected: set<LoadedRequest>)
    requires |rs| == |requests| && blockSize > 0
    requires Recovered(requests, rs, blockSize, invalid, affected, |requests|)
    ensures forall j :: 0 <= j < |requests| ==> requests[j].numComputedTokens == NewComputedOf(rs, blockSize, invalid, j)
    ensures forall j :: 0 <= j < |requests| ==> (requests[j] in affected <==> AffectedAt(rs, blockSize, invalid, j))
  {
  }

  lemma NoneRecovered(requests: seq<LoadedRequest>, blockSize: int, invalid: set<BlockId>)
    requires blockSize > 0
    ensures |Views(requests)| == |requests|
    ensures Recovered(requests, Views(requests), blockSize, invalid, {}, 0)
  {
  }

  // The outer loop.
  method UpdateRequestsWithInvalidBlocks(
    requests: seq<LoadedRequest>, blockSize: int, invalid: set<BlockId>, evictBlocks: bool)
    returns (affected: set<LoadedRequest>, totalAffectedTokens: int, blocksToEvict: set<BlockId>)
    requires blockSize > 0
    requires Distinct(requests)
    requires forall r :: r in requests ==> Valid(r.View(), blockSize)
    modifies requests
    ensures Recovered(requests, old(Views(requests)), blockSize, invalid, affected, |requests|)
    ensures forall j :: 0 <= j < |requests| ==>
      requests[j].numComputedTokens == NewComputedOf(old(Views(requests)), blockSize, invalid, j)
    ensures forall j :: 0 <= j < |requests| ==>
      (requests[j] in affected <==> AffectedAt(old(Views(requests)), blockSize, invalid, j))
    ensures totalAffectedTokens == TotalTokens(old(Views(requests)), blockSize, invalid, |requests|)
    ensures blocksToEvict == if evictBlocks then AllEvicted(old(Views(requests)), blockSize, invalid, |requests|) else {}
  {
    ghost var rs := Views(requests);
    affected, totalAffectedTokens, blocksToEvict := {}, 0, {};
    var marked: set<BlockId> := {};
    hide Views, NewComputedOf, AffectedAt, TokensAt, EvictedAt, Recovered;
    NoneRecovered(requests, blockSize, invalid);
    for i := 0 to |requests|
      invariant marked == MarkedBefore(rs, blockSize, invalid, i)
      invariant Recovered(requests, rs, blockSize, invalid, affected, i)
      invariant totalAffectedTokens == TotalTokens(rs, blockSize, invalid, i)
      invariant blocksToEvict == if evictBlocks then AllEvicted(rs, blockSize, invalid, i) else {}
    {
      var tokens, evict;
      affected, marked, tokens, evict := ScanNth(requests, rs, i, blockSize, invalid, affected, marked);
      totalAffectedTokens := totalAffectedTokens + tokens;
      if evictBlocks {
        blocksToEvict := blocksToEvict + evict;
      }
    }
    AllRecovered(requests, rs, blockSize, invalid, affected);
  }

  // One turn of the outer loop.
  method ScanNth(requests: seq<LoadedRequest>, ghost rs: seq<Loaded>, i: nat, blockSize: int, invalid: set<BlockId>,
                 affected: set<LoadedRequest>, marked: set<BlockId>)
    returns (affected': set<LoadedRequest>, marked': set<BlockId>, affectedTokens: int, evict: set<BlockId>)
    requires i < |rs| == |requests| && Valid(rs[i], blockSize)
    requires Distinct(requests)
    requires Recovered(requests, rs, blockSize, invalid, affected, i)
    requires marked == MarkedBefore(rs, blockSize, invalid, i)
    modifies requests[i]
    ensures Recovered(requests, rs, blockSize, invalid, affected', i + 1)
    ensures marked' == MarkedBefore(rs, blockSize, invalid, i + 1)
    ensures affectedTokens == TokensAt(rs, blockSize, invalid, i)
    ensures evict == EvictedAt(rs, blockSize, invalid, i)
  {
    var isAffected;
    isAffected, marked', affectedTokens, evict := requests[i].Scan(blockSize, invalid, marked);
    assert requests[i].numComputedTokens == NewComputedOf(rs, blockSize, invalid, i);
    assert isAffected == AffectedAt(rs, blockSize, invalid, i);
    hide NewComputedOf, AffectedAt;
    affected' := if isAffected then affected + {requests[i]} else affected;
  }
}
