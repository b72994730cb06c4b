// Where the drafts of a slot end up: exactly which rows they are written to, in both machines, and which positions of
// input_ids they reach.
module DraftArrival {
  import opened DraftScatter
  import opened Options
  import opened Sequences

  // The i-th entry is still for the request it was received for, and nobody masked it.
  predicate Arrives(slot: Slot, gen: seq<int>, i: nat)
    requires i < |slot.rows| == |slot.gens|
  {
    && slot.rows[i] < |gen| && gen[slot.rows[i]] == slot.gens[i]
    && !(slot.excluded.Some? && i < |slot.excluded.value| && slot.excluded.value[i])
  }

  // `row` with its first entries replaced by the drafts.
  ghost predicate WrittenOver(row': seq<int>, row: seq<int>, drafts: seq<int>) {
    && |row'| == (if |drafts| <= |row| then |row| else |drafts|)
    && (forall j :: 0 <= j < |drafts| ==> row'[j] == drafts[j])
    && (forall j :: |drafts| <= j < |row| ==> row'[j] == row[j])
  }

  // Every entry that arrives is written over its row, and nothing else changes.
  ghost predicate Arrived(rows': seq<seq<int>>, rows: seq<seq<int>>, slot: Slot, gen: seq<int>)
    requires |slot.rows| == |slot.gens| == |slot.drafts|
  {
    && |rows'| == |rows|
    && (forall i :: 0 <= i < |slot.rows| && slot.rows[i] < |rows| ==>
          if Arrives(slot, gen, i) then WrittenOver(rows'[slot.rows[i]], rows[slot.rows[i]], slot.drafts[i])
          else rows'[slot.rows[i]] == rows[slot.rows[i]])
    && (forall x :: 0 <= x < |rows| && x !in slot.rows ==> rows'[x] == rows[x])
  }

  lemma ScatterArrives(rows: seq<seq<int>>, slot: Slot, gen: seq<int>)
    requires |slot.rows| == |slot.gens| == |slot.drafts| && Distinct(slot.rows)
    ensures Arrived(Scatter(rows, Mapping(slot, gen), slot.drafts), rows, slot, gen)
  {
    var m := Mapping(slot, gen);
    var rows' := Scatter(rows, m, slot.drafts);
    forall i | 0 <= i < |slot.rows| && slot.rows[i] < |rows|
      ensures if Arrives(slot, gen, i) then WrittenOver(rows'[slot.rows[i]], rows[slot.rows[i]], slot.drafts[i])
              else rows'[slot.rows[i]] == rows[slot.rows[i]]
    {
      var source := Source(m, slot.rows[i]);
      assert source >= 0 ==> slot.rows[source] == slot.rows[i];
      assert Arrives(slot, gen, i) ==> m[i] == slot.rows[i];
      hide Source;
      assert source >= 0 ==> source == i;
    }
    forall x | 0 <= x < |rows| && x !in slot.rows ensures rows'[x] == rows[x] {
      assert Source(m, x) < 0;
    }
  }

  // Upstream, as the slot is consumed.
  lemma ImmediateArrives(s: State, slot: Slot)
    requires Receivable(s, slot)
    ensures Arrived(Immediate(s, Consume(Some(slot))).draftTokens, s.draftTokens, slot, s.gen)
  {
    ScatterArrives(s.draftTokens, slot, s.gen);
  }

  // In the split machine, with the flush, judged by the generations at that time.
  lemma FlushArrives(s: State, batch: Option<seq<Item>>)
    requires s.pending.Some? && PendingOk(s, s.pending.value)
    ensures Arrived(Flush(s, batch).draftTokens, s.draftTokens, s.pending.value.slot, s.gen)
  {
    var p := s.pending.value;
    FlushMappingIsMapping(s, p);
    ScatterArrives(s.draftTokens, p.slot, s.gen);
    hide Scatter, Mapping, FlushMapping;
    if AllFreed(p.slot, s.gen) {
      forall i | 0 <= i < |p.slot.rows| ensures !Arrives(p.slot, s.gen, i) {
        assert Freed(p.slot, s.gen, i);
      }
    }
  }

  // What can happen between the two halves.
  predicate Between(e: Event) {
    e.Free? || e.Add? || e.EarlyReturn?
  }

  ghost predicate SplitEnabledRun(s: State, es: seq<Event>)
    decreases |es|
  {
    es == [] || (Enabled(s, es[0]) && (s.pending.Some? ==> WellFormed(s.pending.value))
                 && (es[0].Consume? && es[0].slot.Some? ==> Receivable(s, es[0].slot.value))
                 && SplitEnabledRun(Split(s, es[0]), es[1..]))
  }

  ghost function SplitEnd(s: State, es: seq<Event>): State
    requires SplitEnabledRun(s, es)
    decreases |es|
  {
    if es == [] then s else SplitEnd(Split(s, es[0]), es[1..])
  }

  lemma KeepsPending(s: State, e: Event, p: Pending)
    requires s.pending == Some(p) && PendingOk(s, p) && Between(e) && Enabled(s, e)
    ensures Split(s, e).pending == Some(p) && PendingOk(Split(s, e), p)
  {
  }

  lemma {:induction false} StaysPending(s: State, es: seq<Event>, p: Pending)
    requires s.pending == Some(p) && PendingOk(s, p) && SplitEnabledRun(s, es) && forall e :: e in es ==> Between(e)
    ensures SplitEnd(s, es).pending == Some(p) && PendingOk(SplitEnd(s, es), p)
    decreases |es|
  {
    hide PendingOk, WellFormed;
    if es != [] {
      assert es[0] in es;
      KeepsPending(s, es[0], p);
      StaysPending(Split(s, es[0]), es[1..], p);
    }
  }

  // A slot that was consumed, whatever rows were freed and given out since, is written at the next flush to exactly the
  // rows whose requests are still the ones it was received for.
  lemma ConsumedArrives(s: State, slot: Slot, es: seq<Event>, batch: Option<seq<Item>>)
    requires (s.pending.Some? ==> PendingOk(s, s.pending.value)) && Receivable(s, slot)
    requires SplitEnabledRun(Split(s, Consume(Some(slot))), es) && forall e :: e in es ==> Between(e)
    ensures var before := SplitEnd(Split(s, Consume(Some(slot))), es);
      && before.pending.Some? && WellFormed(before.pending.value) && before.pending.value.slot == slot
      && Flush(before, batch).pending.None?
      && Arrived(Flush(before, batch).draftTokens, before.draftTokens, slot, before.gen)
  {
    Records(s, slot);
    var p := Pending(slot, Mapping(slot, s.gen));
    hide Split, PendingOk, Mapping, Flush, Arrived;
    StaysPending(Split(s, Consume(Some(slot))), es, p);
    var before := SplitEnd(Split(s, Consume(Some(slot))), es);
    FlushArrives(before, batch);
    FlushEmpties(before, batch);
  }

  lemma Records(s: State, slot: Slot)
    requires (s.pending.Some? ==> PendingOk(s, s.pending.value)) && Receivable(s, slot)
    ensures var p := Pending(slot, Mapping(slot, s.gen));
      Split(s, Consume(Some(slot))).pending == Some(p) && PendingOk(Split(s, Consume(Some(slot))), p)
  {
    hide Scatter;
  }

  lemma FlushEmpties(s: State, batch: Option<seq<Item>>)
    requires s.pending.Some? ==> PendingOk(s, s.pending.value)
    ensures Flush(s, batch).pending.None?
    ensures s.pending.Some? ==> WellFormed(s.pending.value)
  {
  }

  // --- Rows that change hands ----------------------------------------------------------------------------------

  // Generations never fall.
  lemma {:induction false} GenGrows(s: State, es: seq<Event>, x: nat)
    requires SplitEnabledRun(s, es) && x < |s.gen|
    ensures |SplitEnd(s, es).gen| == |s.gen| && SplitEnd(s, es).gen[x] >= s.gen[x]
    decreases |es|
  {
    if es != [] {
      GenStep(s, es[0], x);
      hide Split;
      GenGrows(Split(s, es[0]), es[1..], x);
    }
  }

  lemma GenStep(s: State, e: Event, x: nat)
    requires Enabled(s, e) && (s.pending.Some? ==> WellFormed(s.pending.value)) && x < |s.gen|
    requires e.Consume? && e.slot.Some? ==> Receivable(s, e.slot.value)
    ensures |Split(s, e).gen| == |s.gen| && Split(s, e).gen[x] >= s.gen[x]
  {
    hide Scatter, Combine, Mapping, FlushMapping;
  }

  // An entry received before its row was freed never arrives again, whatever happens to the row afterwards.
  lemma FreedNeverArrives(s: State, row: nat, slot: Slot, i: nat, es: seq<Event>)
    requires Enabled(s, Free(row)) && (s.pending.Some? ==> WellFormed(s.pending.value))
    requires Receivable(s, slot) && i < |slot.rows| && slot.rows[i] == row
    requires SplitEnabledRun(Split(s, Free(row)), es)
    ensures row !in Split(s, Free(row)).live && !Arrives(slot, SplitEnd(Split(s, Free(row)), es).gen, i)
  {
    GenGrows(Split(s, Free(row)), es, row);
  }

  // A row that is given out is live and reads as zeros, also behind a pending slot; every other live row reads as before.
  lemma AddedReadsZero(s: State, row: nat, width: nat, x: nat)
    requires Enabled(s, Add(row, width)) && (s.pending.Some? ==> PendingOk(s, s.pending.value))
    requires x < |s.draftTokens|
    ensures var s' := Split(s, Add(row, width));
      && s'.live == s.live + {row} && |s'.draftTokens| == |s.draftTokens|
      && (s'.pending.Some? ==> WellFormed(s'.pending.value))
      && EffectiveRow(s', x) == if x == row then seq(width, _ => 0) else EffectiveRow(s, x)
  {
    if s.pending.Some? {
      var p := s.pending.value;
      var source := Source(Mapping(p.slot, s.gen), row);
      assert source < 0;
    }
    hide Mapping, Source;
    assert Zeros(width) == seq(width, _ => 0);
  }

  // --- Down to input_ids ---------------------------------------------------------------------------------------

  // Position x is the k-th request's, and no later one's.
  predicate Owned(batch: seq<Item>, k: nat, x: nat)
    requires k < |batch|
  {
    && !batch[k].prefilling && batch[k].at <= x <= batch[k].at + batch[k].numDrafts
    && forall later :: k < later < |batch| ==>
         batch[later].prefilling || x < batch[later].at || batch[later].at + batch[later].numDrafts < x
  }

  lemma {:induction false} CombinedAtOwner(value: int, batch: seq<Item>, rows: seq<seq<int>>, k: nat, x: nat)
    requires k < |batch| && Owned(batch, k, x)
    ensures CombinedAt(value, batch, rows, x)
         == if x == batch[k].at then batch[k].lastSampled else Draft(rows, batch[k].row, x - batch[k].at - 1)
  {
    if k < |batch| - 1 {
      var front := batch[..|batch| - 1];
      assert Owned(front, k, x) && front[k] == batch[k];
      CombinedAtOwner(value, front, rows, k, x);
    }
  }

  // A position no request covers keeps what the preparation put there.
  lemma {:induction false} CombinedNowhere(value: int, batch: seq<Item>, rows: seq<seq<int>>, x: nat)
    requires forall k :: 0 <= k < |batch| ==>
      batch[k].prefilling || x < batch[k].at || batch[k].at + batch[k].numDrafts < x
    ensures CombinedAt(value, batch, rows, x) == value
  {
    if batch != [] {
      CombinedNowhere(value, batch[..|batch| - 1], rows, x);
    }
  }

  // What the forward of the split machine reads is combined from the rows as the flush leaves them.
  lemma ForwardCombines(s: State, ids: seq<int>, batch: seq<Item>)
    requires s.pending.Some? ==> PendingOk(s, s.pending.value)
    ensures var s' := Split(s, Forward(ids, batch)); s'.inputIds == Combine(ids, batch, s'.draftTokens)
    ensures Split(s, Forward(ids, batch)).draftTokens == Flush(s, Some(batch)).draftTokens
  {
    var prepared := Common(s, Forward(ids, batch));
    var s' := Flush(prepared, Some(batch));
    if s.pending.Some? {
      FlushMappingIsMapping(prepared, s.pending.value);
    }
    hide Combine, Scatter, Mapping, FlushMapping;
    CombineAgain(ids, batch, s.draftTokens, s'.draftTokens);
    if NumDraftTokens(batch) == 0 && |s'.draftTokens| == |s.draftTokens| {
      CombineAgrees(ids, batch, s.draftTokens, s'.draftTokens);
    }
  }

  // Consume a slot, free and give out rows, then run a batch: at its own positions a request whose entry arrives is fed
  // its last sampled token and then the slot's drafts.
  lemma DraftsReachInput(s: State, slot: Slot, es: seq<Event>, ids: seq<int>, batch: seq<Item>, i: nat, k: nat, j: nat)
    requires (s.pending.Some? ==> PendingOk(s, s.pending.value)) && Receivable(s, slot)
    requires SplitEnabledRun(Split(s, Consume(Some(slot))), es) && forall e :: e in es ==> Between(e)
    requires var before := SplitEnd(Split(s, Consume(Some(slot))), es);
      && i < |slot.rows| && slot.rows[i] < |before.draftTokens| && Arrives(slot, before.gen, i)
      && k < |batch| && batch[k].row == slot.rows[i] && j < batch[k].numDrafts && j < |slot.drafts[i]|
      && batch[k].at + 1 + j < |ids| && Owned(batch, k, batch[k].at + 1 + j)
    ensures var before := SplitEnd(Split(s, Consume(Some(slot))), es);
      && (before.pending.Some? ==> WellFormed(before.pending.value))
      && |Split(before, Forward(ids, batch)).inputIds| == |ids|
      && Split(before, Forward(ids, batch)).inputIds[batch[k].at + 1 + j] == slot.drafts[i][j]
  {
    var before := SplitEnd(Split(s, Consume(Some(slot))), es);
    Settled(s, slot, es);
    hide Split, SplitEnd, PendingOk, Flush;
    FlushArrives(before, Some(batch));
    ForwardCombines(before, ids, batch);
    var rows := Flush(before, Some(batch)).draftTokens;
    CombinedAtOwner(ids[batch[k].at + 1 + j], batch, rows, k, batch[k].at + 1 + j);
    assert WrittenOver(rows[slot.rows[i]], before.draftTokens[slot.rows[i]], slot.drafts[i]);
  }

  lemma Settled(s: State, slot: Slot, es: seq<Event>)
    requires (s.pending.Some? ==> PendingOk(s, s.pending.value)) && Receivable(s, slot)
    requires SplitEnabledRun(Split(s, Consume(Some(slot))), es) && forall e :: e in es ==> Between(e)
    ensures var before := SplitEnd(Split(s, Consume(Some(slot))), es);
      before.pending.Some? && before.pending.value.slot == slot && PendingOk(before, before.pending.value)
  {
    Records(s, slot);
    hide Split, PendingOk, Mapping;
    StaysPending(Split(s, Consume(Some(slot))), es, Pending(slot, Mapping(slot, s.gen)));
  }
}
