// Patch 0022: the first pipeline rank consumes a broadcast slot in two halves. The early half records the slot, the
// late half scatters its draft tokens right before the forward. Rows may be freed and reused in between; generation
// counters tell. The split machine is proved to refine the upstream one, which scatters at once.
module DraftScatter {
  import opened Options
  import opened Sequences

  // A received slot: row indices, their generations when it was received, the drafts, and an optional exclude mask.
  datatype Slot = Slot(rows: seq<nat>, gens: seq<int>, drafts: seq<seq<int>>, excluded: Option<seq<bool>>)

  datatype Pending = Pending(slot: Slot, mapping: seq<int>)

  // The runner: draft-token rows, generation counters, rows owned by a request, the input buffer, the pending slot.
  datatype State = State(
    draftTokens: seq<seq<int>>,
    gen: seq<int>,
    live: set<nat>,
    inputIds: seq<int>,
    pending: Option<Pending>)

  // One request of a batch: its row, where its last sampled token goes, its drafts; `prefilling` requests are skipped.
  datatype Item = Item(row: nat, at: nat, numDrafts: nat, lastSampled: int, prefilling: bool)

  // --- Scatter ------------------------------------------------------------------------------------

  // The row changed hands since the slot was received, or the consumer masked the entry.
  predicate Freed(slot: Slot, gen: seq<int>, i: nat)
    requires i < |slot.rows| == |slot.gens|
  {
    || slot.rows[i] >= |gen| || gen[slot.rows[i]] != slot.gens[i] || IsExcluded(slot, i)
  }

  predicate IsExcluded(slot: Slot, i: nat) {
    slot.excluded.Some? && i < |slot.excluded.value| && slot.excluded.value[i]
  }

  // The rows to scatter into, -1 where the entry is to be skipped.
  function Mapping(slot: Slot, gen: seq<int>): (m: seq<int>)
    requires |slot.rows| == |slot.gens|
    ensures |m| == |slot.rows|
  {
    seq(|slot.rows|, i requires 0 <= i < |slot.rows| => if Freed(slot, gen, i) then -1 else slot.rows[i] as int)
  }

  // The last slot entry that is scattered into row x, -1 if there is none.
  function Source(mapping: seq<int>, x: nat): (r: int)
    ensures -1 <= r < |mapping|
    ensures r >= 0 ==> mapping[r] == x
    ensures r == -1 ==> forall i :: 0 <= i < |mapping| ==> mapping[i] != x
  {
    if mapping == [] then -1
    else if mapping[|mapping| - 1] == x then |mapping| - 1
    else Source(mapping[..|mapping| - 1], x)
  }

  // One program of the row scatter kernel writes the first K entries of its row. (A row is at least K wide.)
  function Overwrite(row: seq<int>, drafts: seq<int>): (r: seq<int>)
    ensures |r| == if |drafts| <= |row| then |row| else |drafts|
    ensures forall j :: 0 <= j < |r| ==> r[j] == if j < |drafts| then drafts[j] else row[j]
  {
    if |drafts| <= |row| then drafts + row[|drafts|..] else drafts
  }

  // The drafts of a slot are the rows of one tensor.
  predicate Rectangular(drafts: seq<seq<int>>) {
    forall i, j :: 0 <= i < |drafts| && 0 <= j < |drafts| ==> |drafts[i]| == |drafts[j]|
  }

  function ScatteredRow(rows: seq<seq<int>>, mapping: seq<int>, drafts: seq<seq<int>>, x: nat): seq<int>
    requires x < |rows| && |drafts| == |mapping|
  {
    if Source(mapping, x) >= 0 then Overwrite(rows[x], drafts[Source(mapping, x)]) else rows[x]
  }

  function Scatter(rows: seq<seq<int>>, mapping: seq<int>, drafts: seq<seq<int>>): (rows': seq<seq<int>>)
    requires |drafts| == |mapping|
    ensures |rows'| == |rows|
    ensures forall x :: 0 <= x < |rows| ==> rows'[x] == ScatteredRow(rows, mapping, drafts, x)
  {
    seq(|rows|, x requires 0 <= x < |rows| => ScatteredRow(rows, mapping, drafts, x))
  }

  // --- input_ids ----------------------------------------------------------------------------------

  predicate Covers(item: Item, x: nat) {
    !item.prefilling && item.at <= x <= item.at + item.numDrafts
  }

  function Draft(rows: seq<seq<int>>, row: nat, j: nat): int {
    if row < |rows| && j < |rows[row]| then rows[row][j] else 0
  }

  function ItemValue(item: Item, rows: seq<seq<int>>, x: nat): int
    requires Covers(item, x)
  {
    if x == item.at then item.lastSampled else Draft(rows, item.row, x - item.at - 1)
  }

  function CombinedAt(old_: int, batch: seq<Item>, rows: seq<seq<int>>, x: nat): int {
    if batch == [] then old_
    else
      var last := batch[|batch| - 1];
      if Covers(last, x) then ItemValue(last, rows, x) else CombinedAt(old_, batch[..|batch| - 1], rows, x)
  }

  // combine_sampled_and_draft_tokens: for every request past its prefill, the last sampled token and its drafts.
  function Combine(ids: seq<int>, batch: seq<Item>, rows: seq<seq<int>>): (ids': seq<int>)
    ensures |ids'| == |ids|
    ensures forall x :: 0 <= x < |ids| ==> ids'[x] == CombinedAt(ids[x], batch, rows, x)
  {
    seq(|ids|, x requires 0 <= x < |ids| => CombinedAt(ids[x], batch, rows, x))
  }

  function NumDraftTokens(batch: seq<Item>): nat {
    if batch == [] then 0 else NumDraftTokens(batch[..|batch| - 1]) + batch[|batch| - 1].numDrafts
  }

  // --- The two machines ---------------------------------------------------------------------------

  predicate AllFreed(slot: Slot, gen: seq<int>)
    requires |slot.rows| == |slot.gens|
  {
    forall i :: 0 <= i < |slot.rows| ==> Freed(slot, gen, i)
  }

  predicate AnyFreed(slot: Slot, gen: seq<int>)
    requires |slot.rows| == |slot.gens|
  {
    exists i :: 0 <= i < |slot.rows| && Freed(slot, gen, i)
  }

  predicate FreedIsExcluded(slot: Slot, gen: seq<int>)
    requires |slot.rows| == |slot.gens|
  {
    slot.excluded.Some? && forall i :: 0 <= i < |slot.rows| ==> (Freed(slot, gen, i) <==> IsExcluded(slot, i))
  }

  // The mapping choice of _p0022_flush.
  function FlushMapping(p: Pending, gen: seq<int>): seq<int>
    requires |p.slot.rows| == |p.slot.gens|
  {
    if AnyFreed(p.slot, gen) && !FreedIsExcluded(p.slot, gen) then Mapping(p.slot, gen) else p.mapping
  }

  // _p0022_flush; `batch` is the step's batch, None when there is none.
  function Flush(s: State, batch: Option<seq<Item>>): State
    requires s.pending.Some? ==> WellFormed(s.pending.value)
  {
    if s.pending.None? then s
    else
      var p := s.pending.value;
      if AllFreed(p.slot, s.gen) then s.(pending := None)
      else
        var rows := Scatter(s.draftTokens, FlushMapping(p, s.gen), p.slot.drafts);
        s.(pending := None, draftTokens := rows,
           inputIds := if batch.Some? && NumDraftTokens(batch.value) > 0 then Combine(s.inputIds, batch.value, rows)
                       else s.inputIds)
  }

  predicate WellFormed(p: Pending) {
    |p.slot.rows| == |p.slot.gens| == |p.slot.drafts| == |p.mapping| && Rectangular(p.slot.drafts)
  }

  datatype Event =
    | Consume(slot: Option<Slot>)
    | Free(row: nat)
    | Add(row: nat, width: nat)
    | Forward(ids: seq<int>, batch: seq<Item>)
    | DummyForward
    | EarlyReturn

  // A slot was received from live rows; a row is freed only when live and given out only when not. A batch holds live
  // requests. `ids` is the input buffer as the preparation before combine_sampled_and_draft_tokens left it.
  ghost predicate Enabled(s: State, e: Event) {
    match e
    case Consume(slot) => slot.Some? ==> Receivable(s, slot.value)
    case Free(row) => row in s.live && row < |s.gen|
    case Add(row, _) => row !in s.live && row < |s.draftTokens|
    case Forward(_, batch) => forall i :: 0 <= i < |batch| ==> batch[i].row in s.live
    case DummyForward => true
    case EarlyReturn => true
  }

  ghost predicate Receivable(s: State, slot: Slot) {
    && |slot.rows| == |slot.gens| == |slot.drafts| && Rectangular(slot.drafts)
    && Distinct(slot.rows)
    && (forall i :: 0 <= i < |slot.rows| ==> slot.rows[i] < |s.gen| && slot.gens[i] <= s.gen[slot.rows[i]])
    && (forall i :: 0 <= i < |slot.rows| && s.gen[slot.rows[i]] == slot.gens[i] ==> slot.rows[i] in s.live)
  }

  function Zeros(width: nat): seq<int> {
    seq(width, i => 0)
  }

  // What is the same in both machines.
  function Common(s: State, e: Event): State
    requires e.Free? ==> e.row < |s.gen|
    requires e.Add? ==> e.row < |s.draftTokens|
  {
    match e
    case Free(row) => s.(gen := s.gen[row := s.gen[row] + 1], live := s.live - {row})
    case Add(row, width) => s.(live := s.live + {row}, draftTokens := s.draftTokens[row := Zeros(width)])
    case Forward(ids, batch) => s.(inputIds := Combine(ids, batch, s.draftTokens))
    case _ => s
  }

  // Upstream: the slot is scattered when it is consumed.
  function Immediate(s: State, e: Event): State
    requires e.Free? ==> e.row < |s.gen|
    requires e.Add? ==> e.row < |s.draftTokens|
    requires e.Consume? && e.slot.Some? ==> |e.slot.value.rows| == |e.slot.value.gens| == |e.slot.value.drafts|
  {
    if e.Consume? && e.slot.Some?
    then s.(draftTokens := Scatter(s.draftTokens, Mapping(e.slot.value, s.gen), e.slot.value.drafts))
    else Common(s, e)
  }

  // Patch 0022: update_pp_decode_requests first flushes what an early return left, then records the new slot.
  function Split(s: State, e: Event): State
    requires e.Free? ==> e.row < |s.gen|
    requires e.Add? ==> e.row < |s.draftTokens|
    requires e.Consume? && e.slot.Some? ==> |e.slot.value.rows| == |e.slot.value.gens| == |e.slot.value.drafts|
    requires s.pending.Some? ==> WellFormed(s.pending.value)
  {
    match e
    case Consume(slot) =>
      var s1 := Flush(s, None);
      if slot.Some? then s1.(pending := Some(Pending(slot.value, Mapping(slot.value, s.gen)))) else s1
    case Forward(ids, batch) => Flush(Common(s, e), Some(batch))
    case DummyForward => Flush(s, None)
    case _ => Common(s, e)
  }

  // --- Refinement ---------------------------------------------------------------------------------

  // Generations only grow, so what was freed at the consume is freed at the flush; what is not freed is live.
  ghost predicate PendingOk(s: State, p: Pending) {
    && WellFormed(p)
    && Distinct(p.slot.rows)
    && (forall i :: 0 <= i < |p.slot.rows| ==>
          && p.slot.rows[i] < |s.gen| && p.slot.gens[i] <= s.gen[p.slot.rows[i]]
          && (p.mapping[i] == -1 || p.mapping[i] == p.slot.rows[i])
          && (p.mapping[i] == -1 ==> Freed(p.slot, s.gen, i))
          && (IsExcluded(p.slot, i) ==> p.mapping[i] == -1)
          && (!Freed(p.slot, s.gen, i) ==> p.slot.rows[i] in s.live))
  }

  // The draft row a reader would see if the pending slot were scattered now.
  function EffectiveRow(s: State, x: nat): seq<int>
    requires x < |s.draftTokens|
    requires s.pending.Some? ==> WellFormed(s.pending.value)
  {
    if s.pending.None? then s.draftTokens[x]
    else ScatteredRow(s.draftTokens, Mapping(s.pending.value.slot, s.gen), s.pending.value.slot.drafts, x)
  }

  ghost predicate Refines(imm: State, split: State) {
    && imm.gen == split.gen && imm.live == split.live && imm.inputIds == split.inputIds
    && |imm.draftTokens| == |split.draftTokens| && (forall x :: x in imm.live ==> x < |imm.draftTokens|)
    && (split.pending.Some? ==> PendingOk(split, split.pending.value))
    && forall x :: x in imm.live ==> imm.draftTokens[x] == EffectiveRow(split, x)
  }

  // Both machines start out alike: with nothing pending and live rows in range a state refines itself.
  lemma StartsAlike(s: State)
    requires s.pending.None? && forall x :: x in s.live ==> x < |s.draftTokens|
    ensures Refines(s, s)
  {
  }

  // Whatever branch chooses it, the mapping of a flush is the one upstream would compute now.
  lemma FlushMappingIsMapping(s: State, p: Pending)
    requires PendingOk(s, p)
    ensures FlushMapping(p, s.gen) == Mapping(p.slot, s.gen)
  {
    if !AnyFreed(p.slot, s.gen) || FreedIsExcluded(p.slot, s.gen) {
      forall i | 0 <= i < |p.mapping|
        ensures p.mapping[i] == Mapping(p.slot, s.gen)[i]
      {
        assert p.mapping[i] == -1 ==> Freed(p.slot, s.gen, i);
      }
    }
  }

  // After a flush every row, live or not, is what the reader would have seen before it.
  lemma FlushedRows(s: State, batch: Option<seq<Item>>, x: nat)
    requires x < |s.draftTokens| && (s.pending.Some? ==> PendingOk(s, s.pending.value))
    ensures |Flush(s, batch).draftTokens| == |s.draftTokens| && Flush(s, batch).draftTokens[x] == EffectiveRow(s, x)
  {
    if s.pending.Some? {
      FlushMappingIsMapping(s, s.pending.value);
    }
  }

  lemma {:induction false} CombinedTwice(old_: int, batch: seq<Item>, rows: seq<seq<int>>, rows': seq<seq<int>>, x: nat)
    ensures CombinedAt(CombinedAt(old_, batch, rows, x), batch, rows', x) == CombinedAt(old_, batch, rows', x)
  {
    if batch != [] && !Covers(batch[|batch| - 1], x) {
      CombinedTwice(old_, batch[..|batch| - 1], rows, rows', x);
    }
  }

  // The second call overwrites every slot the first one wrote.
  lemma CombineAgain(ids: seq<int>, batch: seq<Item>, rows: seq<seq<int>>, rows': seq<seq<int>>)
    ensures Combine(Combine(ids, batch, rows), batch, rows') == Combine(ids, batch, rows')
  {
    forall x: nat | x < |ids|
      ensures Combine(Combine(ids, batch, rows), batch, rows')[x] == Combine(ids, batch, rows')[x]
    {
      CombinedTwice(ids[x], batch, rows, rows', x);
    }
  }

  lemma {:induction false} CombinedAgrees(old_: int, batch: seq<Item>, rows: seq<seq<int>>, rows': seq<seq<int>>, x: nat)
    requires |rows| == |rows'|
    requires NumDraftTokens(batch) == 0 ||
      forall i :: 0 <= i < |batch| ==> batch[i].row < |rows| && rows[batch[i].row] == rows'[batch[i].row]
    ensures CombinedAt(old_, batch, rows, x) == CombinedAt(old_, batch, rows', x)
  {
    if batch != [] && !Covers(batch[|batch| - 1], x) {
      CombinedAgrees(old_, batch[..|batch| - 1], rows, rows', x);
    }
  }

  // input_ids depend on the batch's draft rows only, and not at all when nothing is verified.
  lemma CombineAgrees(ids: seq<int>, batch: seq<Item>, rows: seq<seq<int>>, rows': seq<seq<int>>)
    requires |rows| == |rows'|
    requires NumDraftTokens(batch) == 0 ||
      forall i :: 0 <= i < |batch| ==> batch[i].row < |rows| && rows[batch[i].row] == rows'[batch[i].row]
    ensures Combine(ids, batch, rows) == Combine(ids, batch, rows')
  {
    forall x: nat | x < |ids|
      ensures Combine(ids, batch, rows)[x] == Combine(ids, batch, rows')[x]
    {
      CombinedAgrees(ids[x], batch, rows, rows', x);
    }
  }

  lemma FlushRefines(imm: State, split: State)
    requires Refines(imm, split)
    ensures Refines(imm, Flush(split, None)) && Flush(split, None).pending.None?
  {
    forall x | x in imm.live
      ensures imm.draftTokens[x] == Flush(split, None).draftTokens[x]
    {
      FlushedRows(split, None, x);
    }
  }

  lemma ConsumeRefines(imm: State, split: State, slot: Slot)
    requires Refines(imm, split) && Receivable(imm, slot)
    ensures Refines(Immediate(imm, Consume(Some(slot))), Split(split, Consume(Some(slot))))
  {
    FlushRefines(imm, split);
    hide Flush, Source;
  }

  lemma ForwardRefines(imm: State, split: State, ids: seq<int>, batch: seq<Item>)
    requires Refines(imm, split) && Enabled(imm, Forward(ids, batch))
    ensures Refines(Immediate(imm, Forward(ids, batch)), Split(split, Forward(ids, batch)))
    ensures Split(split, Forward(ids, batch)).pending.None?
  {
    var prepared := Common(split, Forward(ids, batch));
    var flushed := Flush(prepared, Some(batch));
    forall x: nat | x < |split.draftTokens|
      ensures |flushed.draftTokens| == |split.draftTokens| && flushed.draftTokens[x] == EffectiveRow(split, x)
    {
      FlushedRows(prepared, Some(batch), x);
      assert EffectiveRow(prepared, x) == EffectiveRow(split, x);
    }
    CombineAgain(ids, batch, split.draftTokens, flushed.draftTokens);
    CombineAgrees(ids, batch, imm.draftTokens, flushed.draftTokens);
    if flushed.draftTokens == split.draftTokens || NumDraftTokens(batch) == 0 {
      CombineAgrees(ids, batch, split.draftTokens, flushed.draftTokens);
    }
  }

  lemma FreeRefines(imm: State, split: State, row: nat)
    requires Refines(imm, split) && Enabled(imm, Free(row))
    ensures Refines(Immediate(imm, Free(row)), Split(split, Free(row)))
  {
    var split' := Split(split, Free(row));
    if split.pending.Some? {
      var p := split.pending.value;
      forall x | x in split'.live
        ensures EffectiveRow(split', x) == EffectiveRow(split, x)
      {
        SourceElsewhere(Mapping(p.slot, split.gen), Mapping(p.slot, split'.gen), row, x);
      }
    }
  }

  // A mapping that changes only for `row` maps every other row as before.
  lemma {:induction false} SourceElsewhere(m: seq<int>, m': seq<int>, row: nat, x: nat)
    requires |m| == |m'| && x != row
    requires forall i :: 0 <= i < |m| ==> m'[i] == m[i] || (m[i] == row && m'[i] == -1)
    ensures Source(m', x) == Source(m, x)
  {
    if m != [] && m[|m| - 1] != x {
      SourceElsewhere(m[..|m| - 1], m'[..|m| - 1], row, x);
    }
  }

  // A row given to a new request keeps the zeros it starts with: the pending slot no longer maps to it.
  lemma AddRefines(imm: State, split: State, row: nat, width: nat)
    requires Refines(imm, split) && Enabled(imm, Add(row, width))
    ensures Refines(Immediate(imm, Add(row, width)), Split(split, Add(row, width)))
    ensures EffectiveRow(Split(split, Add(row, width)), row) == Zeros(width)
  {
  }

  lemma StepRefines(imm: State, split: State, e: Event)
    requires Refines(imm, split) && Enabled(imm, e)
    ensures Refines(Immediate(imm, e), Split(split, e))
    ensures e.Forward? ==> Split(split, e).pending.None?
  {
    match e
    case Consume(slot) =>
      if slot.Some? {
        ConsumeRefines(imm, split, slot.value);
      } else {
        FlushRefines(imm, split);
      }
    case Free(row) => FreeRefines(imm, split, row);
    case Add(row, width) => AddRefines(imm, split, row, width);
    case Forward(ids, batch) => ForwardRefines(imm, split, ids, batch);
    case DummyForward => FlushRefines(imm, split);
    case EarlyReturn =>
  }

  ghost predicate EnabledRun(s: State, es: seq<Event>)
    decreases |es|
  {
    es == [] || (Enabled(s, es[0]) && EnabledRun(Immediate(s, es[0]), es[1..]))
  }

  // The input buffers the forwards of a run read, in order.
  ghost function ImmediateInputs(s: State, es: seq<Event>): seq<seq<int>>
    requires EnabledRun(s, es)
    decreases |es|
  {
    if es == [] then []
    else
      var s' := Immediate(s, es[0]);
      (if es[0].Forward? then [s'.inputIds] else []) + ImmediateInputs(s', es[1..])
  }

  // The same for the split machine, which takes the same events.
  ghost predicate SplitRun(s: State, es: seq<Event>, inputs: seq<seq<int>>, last: State)
    decreases |es|
  {
    if es == [] then inputs == [] && last == s
    else
      && (es[0].Free? ==> es[0].row < |s.gen|) && (es[0].Add? ==> es[0].row < |s.draftTokens|)
      && (es[0].Consume? && es[0].slot.Some? ==>
            |es[0].slot.value.rows| == |es[0].slot.value.gens| == |es[0].slot.value.drafts|)
      && (s.pending.Some? ==> WellFormed(s.pending.value))
      && var s' := Split(s, es[0]);
         if es[0].Forward? then inputs != [] && inputs[0] == s'.inputIds && SplitRun(s', es[1..], inputs[1..], last)
         else SplitRun(s', es[1..], inputs, last)
  }

  function ImmediateEnd(s: State, es: seq<Event>): State
    requires EnabledRun(s, es)
    decreases |es|
  {
    if es == [] then s else ImmediateEnd(Immediate(s, es[0]), es[1..])
  }

  // Over every run of consumes, freed rows, reused rows, early returns and forwards, both machines feed their forwards
  // the same input_ids, and at the end a reader of any live row sees the same drafts.
  lemma {:induction false} SplitRefinesImmediate(imm: State, split: State, es: seq<Event>) returns (last: State)
    requires Refines(imm, split) && EnabledRun(imm, es)
    ensures SplitRun(split, es, ImmediateInputs(imm, es), last)
    ensures Refines(ImmediateEnd(imm, es), last)
    decreases |es|
  {
    if es == [] {
      last := split;
    } else {
      StepRefines(imm, split, es[0]);
      last := SplitRefinesImmediate(Immediate(imm, es[0]), Split(split, es[0]), es[1..]);
      var rest := ImmediateInputs(Immediate(imm, es[0]), es[1..]);
      assert ([Immediate(imm, es[0]).inputIds] + rest)[1..] == rest;
      assert [] + rest == rest;
    }
  }

  // --- The runner's methods -----------------------------------------------------------------------

  class DraftRelay {
    const draftTokens: array<seq<int>>
    const reqIdxGen: array<int>
    const inputIds: array<int>
    var p0022Pending: Option<Pending>

    // The rows that belong to a request.
    ghost var live: set<nat>

    constructor (maxNumReqs: nat, maxNumTokens: nat)
      ensures fresh(draftTokens) && fresh(reqIdxGen) && fresh(inputIds) && Valid()
      ensures View().pending.None? && live == {} && Refines(View(), View())
    {
      draftTokens := new seq<int>[maxNumReqs](i => []);
      reqIdxGen := new int[maxNumReqs](i => 0);
      inputIds := new int[maxNumTokens](i => 0);
      p0022Pending, live := None, {};
    }

    ghost predicate Valid()
      reads this
    {
      reqIdxGen != inputIds && (p0022Pending.Some? ==> WellFormed(p0022Pending.value))
    }

    ghost function View(): State
      reads this, draftTokens, reqIdxGen, inputIds
    {
      State(draftTokens[..], reqIdxGen[..], live, inputIds[..], p0022Pending)
    }

    // _p0022_scatter: the row scatter kernel, which skips indices below 0.
    method ScatterDraftTokens(mapping: seq<int>, drafts: seq<seq<int>>)
      requires |mapping| == |drafts| && Rectangular(drafts)
      requires forall i :: 0 <= i < |mapping| ==> mapping[i] < draftTokens.Length
      modifies draftTokens
      ensures draftTokens[..] == Scatter(old(draftTokens[..]), mapping, drafts)
    {
      for r := 0 to |mapping|
        invariant forall x :: 0 <= x < draftTokens.Length ==>
          draftTokens[x] == ScatteredRow(old(draftTokens[..]), mapping[..r], drafts[..r], x)
      {
        assert mapping[..r + 1][..r] == mapping[..r] && drafts[..r + 1][..r] == drafts[..r];
        if mapping[r] >= 0 {
          draftTokens[mapping[r]] := Overwrite(draftTokens[mapping[r]], drafts[r]);
        }
      }
      assert mapping[..|mapping|] == mapping && drafts[..|mapping|] == drafts;
    }

    // combine_sampled_and_draft_tokens for one request.
    method CombineItem(item: Item)
      requires item.at + item.numDrafts < inputIds.Length && reqIdxGen != inputIds
      modifies inputIds
      ensures forall x :: 0 <= x < inputIds.Length ==>
        inputIds[x] == if Covers(item, x) then ItemValue(item, draftTokens[..], x) else old(inputIds[x])
    {
      if item.prefilling {
        return;
      }
      inputIds[item.at] := item.lastSampled;
      for j := 0 to item.numDrafts
        invariant forall x :: 0 <= x < inputIds.Length ==>
          inputIds[x] == if item.at <= x <= item.at + j then ItemValue(item, draftTokens[..], x) else old(inputIds[x])
      {
        inputIds[item.at + 1 + j] := Draft(draftTokens[..], item.row, j);
      }
    }

    method CombineSampledAndDraftTokens(batch: seq<Item>)
      requires reqIdxGen != inputIds
      requires forall i :: 0 <= i < |batch| ==> batch[i].at + batch[i].numDrafts < inputIds.Length
      modifies inputIds
      ensures inputIds[..] == Combine(old(inputIds[..]), batch, draftTokens[..])
    {
      for i := 0 to |batch|
        invariant forall x :: 0 <= x < inputIds.Length ==>
          inputIds[x] == CombinedAt(old(inputIds[..])[x], batch[..i], draftTokens[..], x)
      {
        assert batch[..i + 1][..i] == batch[..i];
        CombineItem(batch[i]);
      }
      assert batch[..|batch|] == batch;
    }

    // _p0022_flush.
    method FlushPending(batch: Option<seq<Item>>)
      requires Valid() && (p0022Pending.Some? ==> PendingOk(View(), p0022Pending.value))
      requires |draftTokens[..]| == |reqIdxGen[..]|
      requires batch.Some? ==>
        forall i :: 0 <= i < |batch.value| ==> batch.value[i].at + batch.value[i].numDrafts < inputIds.Length
      modifies this`p0022Pending, draftTokens, inputIds
      ensures Valid() && View() == Flush(old(View()), batch)
    {
      if p0022Pending.None? {
        return;
      }
      var p := p0022Pending.value;
      p0022Pending := None;
      if AllFreed(p.slot, reqIdxGen[..]) {
        return;
      }
      var mapping := p.mapping;
      if AnyFreed(p.slot, reqIdxGen[..]) && !FreedIsExcluded(p.slot, reqIdxGen[..]) {
        mapping := Mapping(p.slot, reqIdxGen[..]);
      }
      ScatterDraftTokens(mapping, p.slot.drafts);
      if batch.Some? && NumDraftTokens(batch.value) > 0 {
        CombineSampledAndDraftTokens(batch.value);
      }
    }

    // update_pp_decode_requests: flush what an early return left, then record the newly consumed slot.
    method UpdatePpDecodeRequests(slot: Option<Slot>)
      requires Valid() && (p0022Pending.Some? ==> PendingOk(View(), p0022Pending.value))
      requires |draftTokens[..]| == |reqIdxGen[..]|
      requires slot.Some? ==>
        |slot.value.rows| == |slot.value.gens| == |slot.value.drafts| && Rectangular(slot.value.drafts)
      modifies this`p0022Pending, draftTokens, inputIds
      ensures Valid() && View() == Split(old(View()), Consume(slot))
    {
      FlushPending(None);
      if slot.Some? {
        p0022Pending := Some(Pending(slot.value, Mapping(slot.value, reqIdxGen[..])));
      }
    }

    // _remove_request: the handler learns that the row is free.
    method OnReqIdxFreed(row: nat)
      requires Valid() && row < reqIdxGen.Length && row < draftTokens.Length
      modifies this`live, reqIdxGen
      ensures Valid() && View() == Split(old(View()), Free(row))
    {
      reqIdxGen[row] := reqIdxGen[row] + 1;
      live := live - {row};
      assert reqIdxGen[..] == old(reqIdxGen[..])[row := old(reqIdxGen[row]) + 1];
    }

    // add_request: a new request's row starts with zeros.
    method AddRequest(row: nat, width: nat)
      requires Valid() && row < draftTokens.Length
      modifies this`live, draftTokens
      ensures Valid() && View() == Split(old(View()), Add(row, width))
    {
      draftTokens[row] := Zeros(width);
      live := live + {row};
      assert draftTokens[..] == old(draftTokens[..])[row := Zeros(width)];
    }

    // The part of execute_model between prepare_inputs and the forward.
    method PrepareForward(batch: seq<Item>)
      requires Valid() && (p0022Pending.Some? ==> PendingOk(View(), p0022Pending.value))
      requires |draftTokens[..]| == |reqIdxGen[..]|
      requires forall i :: 0 <= i < |batch| ==> batch[i].at + batch[i].numDrafts < inputIds.Length
      modifies this`p0022Pending, draftTokens, inputIds
      ensures Valid() && View() == Split(old(View()), Forward(old(inputIds[..]), batch))
    {
      CombineSampledAndDraftTokens(batch);
      FlushPending(Some(batch));
    }
  }
}
