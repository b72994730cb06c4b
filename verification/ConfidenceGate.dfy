// The confidence gate: how many leading drafts of a row are confident enough to verify, in the four forms the code has.
module ConfidenceGate {
  import opened Arithmetic
  import opened Options

  // --- Element-wise operations on a row -------------------------------------------------------------

  function CumulativeProduct(bits: seq<int>): seq<int> {
    if bits == [] then []
    else
      var front := CumulativeProduct(bits[..|bits| - 1]);
      front + [bits[|bits| - 1] * if front == [] then 1 else front[|front| - 1]]
  }

  function Total(s: seq<int>): int {
    if s == [] then 0 else Total(s[..|s| - 1]) + s[|s| - 1]
  }

  function Bits(ok: seq<bool>): (bits: seq<int>)
    ensures |bits| == |ok|
  {
    seq(|ok|, i requires 0 <= i < |ok| => if ok[i] then 1 else 0)
  }

  // The sum over the running product: how many factors come before the product drops to 0.
  function PrefixCount(ok: seq<bool>): int {
    Total(CumulativeProduct(Bits(ok)))
  }

  // --- The four forms ----------------------------------------------------------------------------------

  function Passing(conf: seq<real>, tau: real): (ok: seq<bool>)
    ensures |ok| == |conf|
  {
    seq(|conf|, i requires 0 <= i < |conf| => conf[i] >= tau)
  }

  function PassingOrOff(conf: seq<real>, tau: real): (ok: seq<bool>)
    ensures |ok| == |conf|
  {
    seq(|conf|, i requires 0 <= i < |conf| => conf[i] >= tau || tau <= 0.0)
  }

  // The tensor form: no special case for a threshold that disables the gate.
  function TensorGate(conf: seq<real>, tau: real): int {
    PrefixCount(Passing(conf, tau))
  }

  // Its array twin: a threshold <= 0 passes every position.
  function ArrayGate(conf: seq<real>, tau: real): int {
    PrefixCount(PassingOrOff(conf, tau))
  }

  // The twin with a floor under an active gate.
  function FlooredGate(conf: seq<real>, tau: real, floor: nat): int {
    var count := ArrayGate(conf, tau);
    if floor > 0 && |conf| > 0 && tau > 0.0 then Max(count, Min(floor, |conf|)) else count
  }

  // The form computed beside the model: the same gate, floored, with the whole block where the gate is off.
  function DeviceGate(conf: seq<real>, tau: real, floor: int): int {
    var least := Min(floor, |conf|);
    if tau > 0.0 then Max(TensorGate(conf, tau), least) else |conf|
  }

  // --- What they all compute ---------------------------------------------------------------------------

  // The length of the longest leading run that passes, by itself.
  ghost predicate IsLeadingRun(ok: seq<bool>, n: int) {
    && 0 <= n <= |ok|
    && (forall i :: 0 <= i < n ==> ok[i])
    && (n < |ok| ==> !ok[n])
  }

  ghost predicate PassesUpTo(ok: seq<bool>, i: nat)
    requires i < |ok|
  {
    forall j :: 0 <= j <= i ==> ok[j]
  }

  lemma {:induction false} ProductIsRun(ok: seq<bool>)
    ensures var p := CumulativeProduct(Bits(ok));
      && |p| == |ok|
      && (forall i :: 0 <= i < |p| ==> p[i] == if PassesUpTo(ok, i) then 1 else 0)
  {
    if ok != [] {
      var n := |ok| - 1;
      var front := ok[..n];
      ProductIsRun(front);
      assert Bits(ok)[..n] == Bits(front);
      var p, q := CumulativeProduct(Bits(ok)), CumulativeProduct(Bits(front));
      assert p == q + [Bits(ok)[n] * if n == 0 then 1 else q[n - 1]];
      hide Bits, CumulativeProduct;
      assert PassesUpTo(ok, n) == (ok[n] && (n > 0 ==> PassesUpTo(front, n - 1)));
      assert forall i :: 0 <= i < n ==> PassesUpTo(ok, i) == PassesUpTo(front, i);
    }
  }

  lemma {:induction false} TotalOfRun(p: seq<int>, n: nat)
    requires n <= |p| && (forall i :: 0 <= i < n ==> p[i] == 1) && (forall i :: n <= i < |p| ==> p[i] == 0)
    ensures Total(p) == n
  {
    if p != [] {
      TotalOfRun(p[..|p| - 1], if n == |p| then n - 1 else n);
    }
  }

  lemma {:induction false} RunExists(ok: seq<bool>) returns (n: nat)
    ensures IsLeadingRun(ok, n)
  {
    if ok == [] || !ok[0] {
      n := 0;
    } else {
      var m := RunExists(ok[1..]);
      n := m + 1;
      assert forall i :: 0 < i < n ==> ok[i] == ok[1..][i - 1];
    }
  }

  lemma RunMonotone(ok: seq<bool>, ok': seq<bool>, n: int, n': int)
    requires IsLeadingRun(ok, n) && IsLeadingRun(ok', n') && |ok| == |ok'|
    requires forall i :: 0 <= i < |ok| ==> ok'[i] ==> ok[i]
    ensures n' <= n
  {
  }

  // The sum of the running product is the longest leading run, and nothing else is.
  lemma PrefixCountIsLeadingRun(ok: seq<bool>, n: int)
    ensures IsLeadingRun(ok, n) <==> n == PrefixCount(ok)
  {
    var run := RunExists(ok);
    ProductIsRun(ok);
    TotalOfRun(CumulativeProduct(Bits(ok)), run);
    if IsLeadingRun(ok, n) {
      RunMonotone(ok, ok, n, run);
      RunMonotone(ok, ok, run, n);
    }
  }

  // The two twins agree exactly when the gate is on, or off with every confidence at or above the threshold; for
  // probabilities that is always, since a disabling threshold is at most zero.
  lemma TwinsAgreeExactly(conf: seq<real>, tau: real)
    ensures TensorGate(conf, tau) == ArrayGate(conf, tau)
       <==> tau > 0.0 || forall i :: 0 <= i < |conf| ==> conf[i] >= tau
    ensures (forall i :: 0 <= i < |conf| ==> conf[i] >= 0.0) ==> TensorGate(conf, tau) == ArrayGate(conf, tau)
  {
    var ok, ok' := Passing(conf, tau), PassingOrOff(conf, tau);
    PrefixCountIsLeadingRun(ok, TensorGate(conf, tau));
    PrefixCountIsLeadingRun(ok', ArrayGate(conf, tau));
    if tau > 0.0 {
      assert ok == ok';
    } else {
      PrefixCountIsLeadingRun(ok', |conf|);
      PrefixCountIsLeadingRun(ok, |conf|);
      assert IsLeadingRun(ok', |conf|);
      if forall i :: 0 <= i < |conf| ==> conf[i] >= tau {
        assert IsLeadingRun(ok, |conf|);
      } else {
        var i :| 0 <= i < |conf| && !(conf[i] >= tau);
        assert !ok[i];
      }
    }
  }

  // The floored array form and the device form agree on every row, threshold and configured floor; only the former
  // clamps a negative floor first.
  lemma FlooredFormsAgree(conf: seq<real>, tau: real, floor: int)
    ensures FlooredGate(conf, tau, Max(0, floor)) == DeviceGate(conf, tau, floor)
  {
    PrefixCountIsLeadingRun(PassingOrOff(conf, tau), ArrayGate(conf, tau));
    if tau > 0.0 {
      TwinsAgreeExactly(conf, tau);
    } else {
      PrefixCountIsLeadingRun(PassingOrOff(conf, tau), |conf|);
    }
  }

  // What the floored gate means: at least the floor (or the block), otherwise the confident run.
  lemma FlooredGateMeaning(conf: seq<real>, tau: real, floor: nat)
    ensures var n := FlooredGate(conf, tau, floor);
      && 0 <= n <= |conf|
      && (tau <= 0.0 ==> n == |conf|)
      && (tau > 0.0 ==> n >= Min(floor, |conf|))
      && (tau > 0.0 && n > Min(floor, |conf|) ==> IsLeadingRun(Passing(conf, tau), n))
  {
    FlooredFormsAgree(conf, tau, floor);
    PrefixCountIsLeadingRun(Passing(conf, tau), TensorGate(conf, tau));
  }

  // A stricter threshold never keeps more.
  lemma StricterKeepsLess(conf: seq<real>, tau: real, tau': real, floor: nat)
    requires tau <= tau'
    ensures FlooredGate(conf, tau', floor) <= FlooredGate(conf, tau, floor)
  {
    FlooredFormsAgree(conf, tau, floor);
    FlooredFormsAgree(conf, tau', floor);
    FlooredGateMeaning(conf, tau', floor);
    if tau > 0.0 {
      var n, n' := TensorGate(conf, tau), TensorGate(conf, tau');
      PrefixCountIsLeadingRun(Passing(conf, tau), n);
      PrefixCountIsLeadingRun(Passing(conf, tau'), n');
      RunMonotone(Passing(conf, tau), Passing(conf, tau'), n, n');
    }
  }

  // --- The host-side cut ---------------------------------------------------------------------------------

  type Token = int

  // Python's ids[:n] for a list and any integer n.
  function Take<T>(ids: seq<T>, n: int): seq<T> {
    if n >= |ids| then ids
    else if n >= 0 then ids[..n]
    else ids[..Max(0, |ids| + n)]
  }

  // One row's verdict: the gate (when confidences and thresholds are known) and the static cap (when there is one).
  function NumValid(gate: Option<int>, cap: Option<int>): Option<int> {
    if cap.None? then gate
    else if gate.None? then cap
    else Some(Min(gate.value, cap.value))
  }

  function GateRow(ids: seq<Token>, gate: Option<int>, cap: Option<int>): seq<Token> {
    var n := NumValid(gate, cap);
    if n.None? then ids else Take(ids, n.value)
  }

  method TruncateDraftLists(drafts: seq<seq<Token>>, numValid: seq<int>) returns (out: seq<seq<Token>>)
    ensures |out| == Min(|drafts|, |numValid|)
    ensures forall r :: 0 <= r < |out| ==> out[r] == Take(drafts[r], numValid[r])
  {
    out := [];
    var r := 0;
    while r < |drafts| && r < |numValid|
      invariant 0 <= r <= Min(|drafts|, |numValid|) && |out| == r
      invariant forall i :: 0 <= i < r ==> out[i] == Take(drafts[i], numValid[i])
    {
      var ids, n := drafts[r], numValid[r];
      out := out + [if n >= |ids| then ids else Take(ids, n)];
      r := r + 1;
    }
  }

  // The whole decision, for a batch whose arrays have one entry per row; either array may be absent.
  method GateDraftLists(drafts: seq<seq<Token>>, conf: Option<seq<seq<real>>>, taus: Option<seq<real>>,
                        caps: Option<seq<int>>, floor: nat) returns (out: seq<seq<Token>>)
    requires conf.Some? && taus.Some? ==> |conf.value| == |taus.value| == |drafts|
    requires caps.Some? ==> |caps.value| == |drafts|
    ensures |out| == |drafts|
    ensures forall r :: 0 <= r < |drafts| ==> out[r] == GateRow(drafts[r],
      if conf.Some? && taus.Some? then Some(FlooredGate(conf.value[r], taus.value[r], floor)) else None,
      if caps.Some? then Some(caps.value[r]) else None)
  {
    var numValid: Option<seq<int>> := None;
    if conf.Some? && taus.Some? {
      var c, t := conf.value, taus.value;
      numValid := Some(seq(|drafts|, r requires 0 <= r < |drafts| && |c| == |t| == |drafts| =>
        FlooredGate(c[r], t[r], floor)));
    }
    if caps.Some? {
      if numValid.None? {
        numValid := caps;
      } else {
        var n, c := numValid.value, caps.value;
        numValid := Some(seq(|drafts|, r requires 0 <= r < |drafts| && |n| == |c| == |drafts| => Min(n[r], c[r])));
      }
    }
    if numValid.None? {
      return drafts;
    }
    out := TruncateDraftLists(drafts, numValid.value);
  }

  // A row keeps exactly the prefix as long as the list, the gate and the cap all allow.
  lemma RowIsPrefix(ids: seq<Token>, conf: seq<real>, tau: real, floor: nat, cap: Option<int>)
    requires cap.Some? ==> cap.value >= 0
    ensures var n := Min(|ids|, Min(FlooredGate(conf, tau, floor), if cap.None? then |ids| else cap.value));
      0 <= n <= |ids| && GateRow(ids, Some(FlooredGate(conf, tau, floor)), cap) == ids[..n]
  {
    FlooredGateMeaning(conf, tau, floor);
  }

  // So raising the threshold only ever shortens it.
  lemma RowAntitone(ids: seq<Token>, conf: seq<real>, tau: real, tau': real, floor: nat, cap: Option<int>)
    requires tau <= tau' && (cap.Some? ==> cap.value >= 0)
    ensures GateRow(ids, Some(FlooredGate(conf, tau', floor)), cap)
         <= GateRow(ids, Some(FlooredGate(conf, tau, floor)), cap)
  {
    StricterKeepsLess(conf, tau, tau', floor);
    RowIsPrefix(ids, conf, tau, floor, cap);
    RowIsPrefix(ids, conf, tau', floor, cap);
  }
}
