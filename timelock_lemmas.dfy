/** What the contract's logic guarantees: the shape of the payout, that no
    tranche pays before it unlocks or more than once, that a repeated
    disbursement is a no-op, that the invariant is kept, and that the sum
    ever sent never exceeds the cumulative deposit. */
module TimelockLemmas {
  import opened TimelockLogic

  // ---------------------------------------------------------------------------
  // Arithmetic helpers
  // ---------------------------------------------------------------------------

  lemma MulMonotone(a: nat, b: nat, c: nat)
    requires a <= b
    ensures a * c <= b * c
  {}

  lemma MulStrictCancel(x: nat, y: nat, d: nat)
    requires d > 0 && x * d < y * d
    ensures x < y
  {
    if x >= y { MulMonotone(y, x, d); }
  }

  lemma DivMonotone(a: nat, b: nat, d: nat)
    requires a <= b && d > 0
    ensures a / d <= b / d
  {
    var qa, qb := a / d, b / d;
    assert qa * d <= a;
    assert b < (qb + 1) * d;
    MulStrictCancel(qa, qb + 1, d);
  }

  lemma PerRecipientMonotone(d: u128, e: u128, n: nat)
    requires d <= e
    ensures PerRecipient(d, n) <= PerRecipient(e, n)
  {
    if n > 0 {
      DivMonotone(d, e, RECIPIENT_SLOTS);
      DivMonotone(d / RECIPIENT_SLOTS, e / RECIPIENT_SLOTS, n);
    }
  }

  /** Paying every one of the `n` tranches never exceeds the deposit. */
  lemma AllTranchesWithinDeposit(d: u128, n: nat)
    ensures n * (RECIPIENT_SLOTS * PerRecipient(d, n)) <= d
  {
    if n > 0 {
      var q := d / RECIPIENT_SLOTS;
      var p := q / n;
      assert n * p <= q;
      assert RECIPIENT_SLOTS * q <= d;
      calc {
        n * (RECIPIENT_SLOTS * p);
        RECIPIENT_SLOTS * (n * p);
      <= { MulMonotone(n * p, q, RECIPIENT_SLOTS); }
        RECIPIENT_SLOTS * q;
      }
    }
  }

  lemma Distribute(a: nat, b: nat, c: nat)
    ensures (a + b) * c == a * c + b * c
  {}

  /** A set of unlock times drawn from `s` has at most `|s|` elements. */
  lemma {:induction false} CardAtMostLength(keys: set<u64>, s: seq<u64>)
    requires forall t :: t in keys ==> t in s
    ensures |keys| <= |s|
    decreases |s|
  {
    if |s| == 0 {
      assert forall t :: t !in keys;
    } else {
      var x := s[|s| - 1];
      var init := s[..|s| - 1];
      assert s == init + [x];
      forall t | t in keys - {x} ensures t in init {
        assert t in s;
      }
      CardAtMostLength(keys - {x}, init);
    }
  }

  // ---------------------------------------------------------------------------
  // Sums of sends
  // ---------------------------------------------------------------------------

  lemma {:induction false} TotalAppend(a: seq<Send>, b: seq<Send>)
    ensures Total(a + b) == Total(a) + Total(b)
    decreases |b|
  {
    if b == [] {
      assert a + b == a;
    } else {
      var b' := b[..|b| - 1];
      assert (a + b)[..|a + b| - 1] == a + b';
      TotalAppend(a, b');
    }
  }

  lemma {:induction false} TotalPayouts(recipients: seq<string>, amount: u128)
    ensures Total(Payouts(recipients, amount)) == |recipients| * amount
    decreases |recipients|
  {
    if recipients != [] {
      var r' := recipients[..|recipients| - 1];
      assert Payouts(recipients, amount)[..|recipients| - 1] == Payouts(r', amount);
      TotalPayouts(r', amount);
    }
  }

  lemma {:induction false} TotalRepeat(block: seq<Send>, n: nat)
    ensures Total(Repeat(block, n)) == n * Total(block)
  {
    if n > 0 {
      TotalAppend(Repeat(block, n - 1), block);
      TotalRepeat(block, n - 1);
    }
  }

  lemma {:induction false} RepeatLength(block: seq<Send>, n: nat)
    ensures |Repeat(block, n)| == n * |block|
  {
    if n > 0 {
      RepeatLength(block, n - 1);
    }
  }

  /** Element `k` of `n` repeated blocks is element `k % |block|` of the block. */
  lemma {:induction false} RepeatAt(block: seq<Send>, n: nat, k: nat)
    requires k < n * |block|
    ensures |block| > 0 && k < |Repeat(block, n)| && Repeat(block, n)[k] == block[k % |block|]
  {
    var m := |block|;
    RepeatLength(block, n);
    RepeatLength(block, n - 1);
    if k < (n - 1) * m {
      RepeatAt(block, n - 1, k);
    } else {
      var j := k - (n - 1) * m;
      assert j < m;
      assert k == (n - 1) * m + j;
      assert k % m == j by { ModOfMultiplePlus(n - 1, m, j); }
    }
  }

  lemma ModOfMultiplePlus(q: nat, m: nat, j: nat)
    requires j < m
    ensures (q * m + j) % m == j
  {
    var x := q * m + j;
    var q' := x / m;
    assert q' * m <= x < (q' + 1) * m;
    MulStrictCancel(q, q' + 1, m);
    MulStrictCancel(q', q + 1, m);
    assert q == q';
  }

  // ---------------------------------------------------------------------------
  // The tranche walk
  // ---------------------------------------------------------------------------

  /** The walk only adds `true` entries, exactly for the tranches it settles,
      and settles only unlocked, unsettled tranches of the schedule later than
      `last`. */
  lemma {:induction false} WalkGrows(ts: seq<u64>, recipients: seq<string>, amount: u128, last: u64, now: u64, tracker: Tracker)
    ensures var w := Walk(ts, recipients, amount, last, now, tracker);
      && (forall t :: t in tracker ==> t in w.tracker && w.tracker[t] == tracker[t])
      && (forall t :: t in w.tracker && t !in tracker ==> t in w.settled && w.tracker[t])
      && (forall t :: t in w.settled ==> t in w.tracker && t !in tracker && t in ts && now >= t && last < t)
    decreases |ts|
  {
    if |ts| > 0 {
      var init := ts[..|ts| - 1];
      WalkGrows(init, recipients, amount, last, now, tracker);
      assert ts == init + [ts[|ts| - 1]];
    }
  }

  /** The sends are one block of payouts per settled tranche, in order. */
  lemma {:induction false} WalkSends(ts: seq<u64>, recipients: seq<string>, amount: u128, last: u64, now: u64, tracker: Tracker)
    ensures var w := Walk(ts, recipients, amount, last, now, tracker);
      w.sends == Repeat(Payouts(recipients, amount), |w.settled|)
    decreases |ts|
  {
    if |ts| > 0 {
      WalkSends(ts[..|ts| - 1], recipients, amount, last, now, tracker);
    }
  }

  /** The last unlock time of a strictly increasing schedule is larger than
      every earlier one. */
  lemma LastIsLargest(init: seq<u64>, t: u64)
    requires StrictlyIncreasing(init + [t])
    ensures StrictlyIncreasing(init)
    ensures forall x :: x in init ==> x < t
  {
    var ts := init + [t];
    assert forall i :: 0 <= i < |init| ==> ts[i] == init[i];
    forall x | x in init ensures x < t {
      var i :| 0 <= i < |init| && init[i] == x;
      assert ts[i] < ts[|init|];
    }
  }

  /** When no unlock time is both reached and later than `last`, the walk
      sends nothing and leaves the tracker as it is. */
  lemma {:induction false} WalkNothingDue(ts: seq<u64>, recipients: seq<string>, amount: u128, last: u64, now: u64, tracker: Tracker)
    requires forall k :: 0 <= k < |ts| ==> !(now >= ts[k] && last < ts[k])
    ensures Walk(ts, recipients, amount, last, now, tracker) == Walked([], tracker, [])
    decreases |ts|
  {
    if |ts| > 0 {
      WalkNothingDue(ts[..|ts| - 1], recipients, amount, last, now, tracker);
    }
  }

  /** On a strictly increasing schedule the walk settles exactly the due
      tranches, each adding one tracker entry. */
  lemma {:induction false} WalkExact(ts: seq<u64>, recipients: seq<string>, amount: u128, last: u64, now: u64, tracker: Tracker)
    requires StrictlyIncreasing(ts)
    ensures var w := Walk(ts, recipients, amount, last, now, tracker);
      && (forall t :: t in w.settled <==> t in ts && Due(t, now, last, tracker))
      && |w.tracker| == |tracker| + |w.settled|
    decreases |ts|
  {
    if |ts| > 0 {
      var init := ts[..|ts| - 1];
      var t := ts[|ts| - 1];
      assert ts == init + [t];
      LastIsLargest(init, t);
      WalkExact(init, recipients, amount, last, now, tracker);
      WalkGrows(init, recipients, amount, last, now, tracker);
      var w := Walk(init, recipients, amount, last, now, tracker);
      assert t !in w.settled;
      assert Due(t, now, last, w.tracker) == Due(t, now, last, tracker);
    }
  }

  /** On a strictly increasing schedule the settled tranches come in
      ascending order. */
  lemma {:induction false} WalkOrdered(ts: seq<u64>, recipients: seq<string>, amount: u128, last: u64, now: u64, tracker: Tracker)
    requires StrictlyIncreasing(ts)
    ensures StrictlyIncreasing(Walk(ts, recipients, amount, last, now, tracker).settled)
    decreases |ts|
  {
    if |ts| > 0 {
      var init := ts[..|ts| - 1];
      assert ts == init + [ts[|ts| - 1]];
      LastIsLargest(init, ts[|ts| - 1]);
      WalkOrdered(init, recipients, amount, last, now, tracker);
      WalkGrows(init, recipients, amount, last, now, tracker);
      var w := Walk(init, recipients, amount, last, now, tracker);
      assert forall x :: x in w.settled ==> x in init;
      AppendLarger(w.settled, ts[|ts| - 1]);
    }
  }

  lemma AppendLarger(s: seq<u64>, t: u64)
    requires StrictlyIncreasing(s) && forall x :: x in s ==> x < t
    ensures StrictlyIncreasing(s + [t])
  {
    forall i | 0 <= i < |s| ensures (s + [t])[i] < t {
      assert s[i] in s;
    }
  }

  // ---------------------------------------------------------------------------
  // One disbursement
  // ---------------------------------------------------------------------------

  /** Every send pays `deposit / 4 / |unlock_times|` of the token; the sends
      come in blocks of one per recipient in declared order, one block per
      settled tranche. */
  lemma DisbursementSends(st: State, tracker: Tracker, now: u64)
    requires |st.unlockTimes| > 0 && |st.recipients| > 0
    ensures var o := Disbursement(st, tracker, now);
      && |o.sends| == |o.settled| * |st.recipients|
      && (forall k :: 0 <= k < |o.sends| ==>
            o.sends[k] == Send(st.recipients[k % |st.recipients|],
                               st.deposit / 4 / |st.unlockTimes|, DENOM))
  {
    var amount := PerRecipient(st.deposit, |st.unlockTimes|);
    var w := Walk(st.unlockTimes, st.recipients, amount, st.lastDisburse, now, tracker);
    var block := Payouts(st.recipients, amount);
    WalkSends(st.unlockTimes, st.recipients, amount, st.lastDisburse, now, tracker);
    RepeatLength(block, |w.settled|);
    forall k | 0 <= k < |w.sends|
      ensures w.sends[k] == Send(st.recipients[k % |st.recipients|], st.deposit / 4 / |st.unlockTimes|, DENOM)
    {
      RepeatAt(block, |w.settled|, k);
    }
  }

  /** The settled tranches are exactly the schedule's unlock times that are
      reached, later than `last_disburse` and not yet in the tracker, listed
      in ascending order of position. */
  lemma DisbursementSettles(st: State, tracker: Tracker, now: u64)
    requires StrictlyIncreasing(st.unlockTimes)
    ensures var o := Disbursement(st, tracker, now);
      && (forall t :: t in o.settled <==>
            t in st.unlockTimes && now >= t && st.lastDisburse < t && t !in tracker)
      && StrictlyIncreasing(o.settled)
  {
    WalkExact(st.unlockTimes, st.recipients, PerRecipient(st.deposit, |st.unlockTimes|),
              st.lastDisburse, now, tracker);
    WalkOrdered(st.unlockTimes, st.recipients, PerRecipient(st.deposit, |st.unlockTimes|),
                st.lastDisburse, now, tracker);
  }

  /** An unlock time already in the tracker never produces sends again. */
  lemma SettledNeverRepaid(st: State, tracker: Tracker, now: u64)
    ensures forall t :: t in tracker ==> t !in Disbursement(st, tracker, now).settled
  {
    WalkGrows(st.unlockTimes, st.recipients, PerRecipient(st.deposit, |st.unlockTimes|),
              st.lastDisburse, now, tracker);
  }

  /** The tracker only grows, by a `true` entry for each settled tranche. */
  lemma DisbursementTracker(st: State, tracker: Tracker, now: u64)
    ensures var o := Disbursement(st, tracker, now);
      && (forall t :: t in tracker ==> t in o.tracker && o.tracker[t] == tracker[t])
      && (forall t :: t in o.tracker <==> t in tracker || t in o.settled)
      && (forall t :: t in o.settled ==> o.tracker[t])
  {
    WalkGrows(st.unlockTimes, st.recipients, PerRecipient(st.deposit, |st.unlockTimes|),
              st.lastDisburse, now, tracker);
  }

  /** `last_disburse` becomes `now` iff a send was emitted; no other field of
      the state ever changes. */
  lemma DisbursementState(st: State, tracker: Tracker, now: u64)
    requires |st.recipients| > 0
    ensures var o := Disbursement(st, tracker, now);
      && (|o.sends| > 0 <==> |o.settled| > 0)
      && o.state == (if |o.settled| > 0 then st.(lastDisburse := now) else st)
  {
    WalkSends(st.unlockTimes, st.recipients, PerRecipient(st.deposit, |st.unlockTimes|),
              st.lastDisburse, now, tracker);
    var o := Disbursement(st, tracker, now);
    RepeatLength(Payouts(st.recipients, PerRecipient(st.deposit, |st.unlockTimes|)), |o.settled|);
    if |o.settled| > 0 {
      MulMonotone(1, |o.settled|, |st.recipients|);
    }
  }

  /** Before the first unlock time nothing is sent and nothing changes. */
  lemma NoEarlyPayout(st: State, tracker: Tracker, now: u64)
    requires StrictlyIncreasing(st.unlockTimes)
    requires |st.unlockTimes| > 0 && now < st.unlockTimes[0]
    ensures Disbursement(st, tracker, now) == Disbursed(st, tracker, [], [])
  {
    var ts := st.unlockTimes;
    forall k | 0 <= k < |ts| ensures now < ts[k] {
      assert k == 0 || ts[0] < ts[k];
    }
    WalkNothingDue(ts, st.recipients, PerRecipient(st.deposit, |ts|), st.lastDisburse, now, tracker);
  }

  /** A second disbursement at the same time sends nothing and changes nothing. */
  lemma DisburseIdempotent(st: State, tracker: Tracker, now: u64)
    requires |st.recipients| > 0
    ensures var o := Disbursement(st, tracker, now);
      var o2 := Disbursement(o.state, o.tracker, now);
      o2 == Disbursed(o.state, o.tracker, [], [])
  {
    var o := Disbursement(st, tracker, now);
    DisbursementState(st, tracker, now);
    if |o.settled| > 0 {
      // last_disburse is now `now`: no unlock time is both reached and later
      var s1 := o.state;
      WalkNothingDue(s1.unlockTimes, s1.recipients, PerRecipient(s1.deposit, |s1.unlockTimes|),
                     s1.lastDisburse, now, o.tracker);
    } else {
      // the first call settled nothing, so it changed nothing
      DisbursementTracker(st, tracker, now);
      assert o.tracker == tracker;
    }
  }

  /** A disbursement keeps the invariant and leaves every unlock time that has
      been reached settled. */
  lemma DisbursementKeepsInv(st: State, tracker: Tracker, now: u64)
    requires Inv(st, tracker)
    ensures var o := Disbursement(st, tracker, now);
      && Inv(o.state, o.tracker)
      && (forall k :: 0 <= k < |st.unlockTimes| && st.unlockTimes[k] <= now ==>
            st.unlockTimes[k] in o.tracker)
  {
    var o := Disbursement(st, tracker, now);
    DisbursementSettles(st, tracker, now);
    DisbursementTracker(st, tracker, now);
    DisbursementState(st, tracker, now);
    forall k | 0 <= k < |st.unlockTimes| && st.unlockTimes[k] <= now
      ensures st.unlockTimes[k] in o.tracker
    {
      var t := st.unlockTimes[k];
      if t !in tracker && st.lastDisburse < t {
        assert t in o.settled;
      }
    }
  }

  /** The sum one disbursement sends: one tranche payout per settled tranche. */
  lemma DisbursementTotal(st: State, tracker: Tracker, now: u64)
    ensures var o := Disbursement(st, tracker, now);
      Total(o.sends) == |o.settled| * TranchePayout(st)
  {
    var amount := PerRecipient(st.deposit, |st.unlockTimes|);
    var o := Disbursement(st, tracker, now);
    WalkSends(st.unlockTimes, st.recipients, amount, st.lastDisburse, now, tracker);
    TotalRepeat(Payouts(st.recipients, amount), |o.settled|);
    TotalPayouts(st.recipients, amount);
  }

  // ---------------------------------------------------------------------------
  // Solvency: what has been sent never exceeds the deposit
  // ---------------------------------------------------------------------------

  /** `paid` is at most one tranche payout per tracker entry. */
  predicate Covered(paid: nat, st: State, tracker: Tracker) {
    paid <= |tracker| * TranchePayout(st)
  }

  lemma DisbursementCovered(st: State, tracker: Tracker, now: u64, paid: nat)
    requires Inv(st, tracker) && Covered(paid, st, tracker)
    ensures var o := Disbursement(st, tracker, now);
      Covered(paid + Total(o.sends), o.state, o.tracker)
  {
    var o := Disbursement(st, tracker, now);
    DisbursementTotal(st, tracker, now);
    DisbursementState(st, tracker, now);
    WalkExact(st.unlockTimes, st.recipients, PerRecipient(st.deposit, |st.unlockTimes|),
              st.lastDisburse, now, tracker);
    assert TranchePayout(o.state) == TranchePayout(st);
    Distribute(|tracker|, |o.settled|, TranchePayout(st));
  }

  /** A deposit keeps the invariant and raises every future payout. */
  lemma DepositKeepsInv(st: State, tracker: Tracker, sender: string, amount: u128, paid: nat)
    requires Inv(st, tracker) && Covered(paid, st, tracker)
    requires Deposit(st, sender, amount).Ok?
    ensures var st' := Deposit(st, sender, amount).value;
      && Inv(st', tracker)
      && TranchePayout(st) <= TranchePayout(st')
      && Covered(paid, st', tracker)
  {
    var st' := Deposit(st, sender, amount).value;
    PerRecipientMonotone(st.deposit, st'.deposit, |st.unlockTimes|);
    MulMonotone(PerRecipient(st.deposit, |st.unlockTimes|), PerRecipient(st'.deposit, |st.unlockTimes|), |st.recipients|);
    assert TranchePayout(st) <= TranchePayout(st');
    MulMonotone(TranchePayout(st), TranchePayout(st'), |tracker|);
  }

  /** Under the invariant, whatever is covered by the tracker fits in the deposit. */
  lemma NoOverspend(st: State, tracker: Tracker, paid: nat)
    requires Inv(st, tracker) && Covered(paid, st, tracker)
    ensures paid <= st.deposit
  {
    CardAtMostLength(tracker.Keys, st.unlockTimes);
    var n := |st.unlockTimes|;
    MulMonotone(|tracker|, n, TranchePayout(st));
    AllTranchesWithinDeposit(st.deposit, n);
  }

  // ---------------------------------------------------------------------------
  // Sequences of calls
  // ---------------------------------------------------------------------------

  /** One `execute` call keeps the invariant, only grows the tracker, adds
      exactly the settled tranches, never lowers the deposit and keeps what
      has been sent covered. */
  lemma StepFacts(st: State, tracker: Tracker, c: Call, paid: nat)
    requires Inv(st, tracker) && Covered(paid, st, tracker)
    ensures var s := Step(st, tracker, c);
      && Inv(s.state, s.tracker)
      && (forall t :: t in tracker ==> t in s.tracker)
      && (forall t :: t in s.settled ==> t in s.tracker && t !in tracker)
      && st.deposit <= s.state.deposit
      && Covered(paid + (if s.result.Ok? then Total(s.result.value) else 0), s.state, s.tracker)
  {
    match c.msg
    case Receive(m) =>
      if Deposit(st, c.sender, m.amount).Ok? {
        DepositKeepsInv(st, tracker, c.sender, m.amount, paid);
      }
    case Disburse =>
      DisbursementKeepsInv(st, tracker, c.now);
      DisbursementTracker(st, tracker, c.now);
      SettledNeverRepaid(st, tracker, c.now);
      DisbursementCovered(st, tracker, c.now, paid);
  }

  /** A settled tranche is never settled again by any later call. */
  lemma {:induction false} SettledStaysSettled(calls: seq<Call>, st: State, tracker: Tracker, t: u64)
    requires Inv(st, tracker) && t in tracker
    ensures forall k :: 0 <= k < |Settlements(calls, st, tracker)| ==> t !in Settlements(calls, st, tracker)[k]
    decreases |calls|
  {
    if calls != [] {
      var s := Step(st, tracker, calls[0]);
      StepFacts(st, tracker, calls[0], 0);
      SettledStaysSettled(calls[1..], s.state, s.tracker, t);
      var rest := Settlements(calls[1..], s.state, s.tracker);
      assert Settlements(calls, st, tracker) == [s.settled] + rest;
    }
  }

  /** Exactly-once settlement: across any sequence of calls, each unlock time
      is settled (and paid) in at most one call. */
  lemma {:induction false} ExactlyOnce(calls: seq<Call>, st: State, tracker: Tracker, i: nat, j: nat, t: u64)
    requires Inv(st, tracker)
    requires i < j < |Settlements(calls, st, tracker)|
    requires t in Settlements(calls, st, tracker)[i]
    ensures t !in Settlements(calls, st, tracker)[j]
    decreases |calls|
  {
    var s := Step(st, tracker, calls[0]);
    StepFacts(st, tracker, calls[0], 0);
    var rest := Settlements(calls[1..], s.state, s.tracker);
    assert Settlements(calls, st, tracker) == [s.settled] + rest;
    if i == 0 {
      SettledStaysSettled(calls[1..], s.state, s.tracker, t);
      assert rest[j - 1] == Settlements(calls, st, tracker)[j];
    } else {
      ExactlyOnce(calls[1..], s.state, s.tracker, i - 1, j - 1, t);
    }
  }

  /** Across any sequence of calls the cumulative deposit never decreases. */
  lemma {:induction false} DepositNeverDecreases(calls: seq<Call>, st: State, tracker: Tracker)
    requires Inv(st, tracker)
    ensures FinalState(calls, st, tracker).deposit >= st.deposit
    decreases |calls|
  {
    if calls != [] {
      var s := Step(st, tracker, calls[0]);
      StepFacts(st, tracker, calls[0], 0);
      DepositNeverDecreases(calls[1..], s.state, s.tracker);
    }
  }

  /** Across any sequence of calls the final deposit is the initial one plus
      the amounts of the deposits that succeeded. */
  lemma {:induction false} DepositAccumulates(calls: seq<Call>, st: State, tracker: Tracker)
    ensures FinalState(calls, st, tracker).deposit == st.deposit + Deposited(calls, st, tracker)
    decreases |calls|
  {
    if calls != [] {
      var s := Step(st, tracker, calls[0]);
      DepositAccumulates(calls[1..], s.state, s.tracker);
    }
  }

  /** Solvency over any history: what has been paid so far plus everything
      later calls send stays within the final cumulative deposit. */
  lemma {:induction false} RunWithinDeposit(calls: seq<Call>, st: State, tracker: Tracker, paid: nat)
    requires Inv(st, tracker) && Covered(paid, st, tracker)
    ensures paid + Sent(calls, st, tracker) <= FinalState(calls, st, tracker).deposit
    decreases |calls|
  {
    if calls == [] {
      NoOverspend(st, tracker, paid);
    } else {
      var s := Step(st, tracker, calls[0]);
      StepFacts(st, tracker, calls[0], paid);
      var sent := if s.result.Ok? then Total(s.result.value) else 0;
      RunWithinDeposit(calls[1..], s.state, s.tracker, paid + sent);
    }
  }

  /** A freshly instantiated contract satisfies the invariant with an empty
      tracker, so over its whole life it never sends more than was deposited
      and never settles a tranche twice. */
  lemma InstantiateSafe(now: u64, calls: seq<Call>)
    requires Instantiate(now).Ok?
    ensures Inv(Instantiate(now).value, map[])
    ensures Sent(calls, Instantiate(now).value, map[]) <= FinalState(calls, Instantiate(now).value, map[]).deposit
  {
    var st := Instantiate(now).value;
    assert Inv(st, map[]);
    RunWithinDeposit(calls, st, map[], 0);
  }

  // ---------------------------------------------------------------------------
  // A worked example: instantiate, deposit 400, disburse six months later
  // ---------------------------------------------------------------------------

  /** Instantiate at `t0`, deposit 400 as owner, disburse six months later:
      four sends of 25 in recipient order, the first tranche settled and
      `last_disburse` set. Repeating the disbursement does nothing, and a
      deposit from anyone else is refused. */
  lemma Scenario(t0: u64, intruder: string)
    requires t0 + 4 * SIX_MONTHS <= U64_MAX
    requires intruder != OWNER
    ensures var st0 := Instantiate(t0).value;
      var st1 := Deposit(st0, OWNER, 400).value;
      var now := t0 + SIX_MONTHS;
      var o := Disbursement(st1, map[], now);
      && st1.deposit == 400
      && o.sends == [Send("recipient1", 25, "token"), Send("recipient2", 25, "token"),
                     Send("recipient3", 25, "token"), Send("recipient4", 25, "token")]
      && o.tracker == map[now := true]
      && o.state == st1.(lastDisburse := now)
      && Disbursement(o.state, o.tracker, now) == Disbursed(o.state, o.tracker, [], [])
      && Deposit(o.state, intruder, 400) == Err(Unauthorized)
  {
    var st0 := Instantiate(t0).value;
    var st1 := Deposit(st0, OWNER, 400).value;
    var now := t0 + SIX_MONTHS;
    var o := Disbursement(st1, map[], now);
    DisburseIdempotent(st1, map[], now);
    var ut := st1.unlockTimes;
    var block := Payouts(RECIPIENTS, 25);
    assert PerRecipient(400, 4) == 25;
    var w := Walked(block, map[now := true], [now]);
    assert ut[..1][..0] == [];
    assert Walk(ut[..1], RECIPIENTS, 25, 0, now, map[]) == w;
    assert ut[..2][..1] == ut[..1];
    assert Walk(ut[..2], RECIPIENTS, 25, 0, now, map[]) == w;
    assert ut[..3][..2] == ut[..2];
    assert Walk(ut[..3], RECIPIENTS, 25, 0, now, map[]) == w;
    assert ut[..4][..3] == ut[..3] && ut[..4] == ut;
    assert Walk(ut, RECIPIENTS, 25, 0, now, map[]) == w;
  }
}
