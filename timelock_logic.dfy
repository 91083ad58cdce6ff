/** The values and the pure logic of the time-locked disbursement contract
    (src/contract.rs): the persisted `State` record, the settlement tracker,
    the schedule built at instantiation, the deposit rule and the tranche walk
    performed by a disbursement. The class in TimelockContract runs these
    steps in place; the lemmas in TimelockLemmas state what they guarantee. */
module TimelockLogic {

  // ---------------------------------------------------------------------------
  // Machine integers of the source
  // ---------------------------------------------------------------------------

  const U64_MAX: int := 0xFFFF_FFFF_FFFF_FFFF
  const U128_MAX: int := 0xFFFF_FFFF_FFFF_FFFF_FFFF_FFFF_FFFF_FFFF

  /** Block times and unlock times are `u64` seconds. */
  type u64 = x: int | 0 <= x <= U64_MAX
  /** Deposits and payout amounts are cosmwasm `Uint128`. */
  type u128 = x: int | 0 <= x <= U128_MAX

  // ---------------------------------------------------------------------------
  // Constants of the contract
  // ---------------------------------------------------------------------------

  /** A month is approximated as 30 days of seconds. */
  const MONTH: nat := 30 * 24 * 60 * 60
  /** Distance between two consecutive unlock times (6 months). */
  const SIX_MONTHS: nat := 6 * MONTH

  const OWNER: string := "owner_address"
  const RECIPIENTS: seq<string> := ["recipient1", "recipient2", "recipient3", "recipient4"]
  /** The denomination of every payout coin. */
  const DENOM: string := "token"
  /** The divisor hard-coded in the payout formula (the size of the recipients array). */
  const RECIPIENT_SLOTS: nat := 4

  // ---------------------------------------------------------------------------
  // Data model
  // ---------------------------------------------------------------------------

  /** The persisted `State` item. `allocation` is stored but never read. */
  datatype State = State(
    owner: string,
    deposit: u128,
    unlockTimes: seq<u64>,
    recipients: seq<string>,
    allocation: seq<u128>,
    lastDisburse: u64
  )

  /** `DISBURSEMENT_TRACKER`: unlock time -> settled flag. */
  type Tracker = map<u64, bool>

  /** One `BankMsg::Send` of a single coin. */
  datatype Send = Send(toAddress: string, amount: u128, denom: string)

  datatype Error = Unauthorized | Overflow

  datatype Result<T> = Ok(value: T) | Err(error: Error)

  /** The cw20 receive hook message; only `amount` is read by the contract. */
  datatype Cw20ReceiveMsg = Cw20ReceiveMsg(sender: string, amount: u128)

  datatype ExecuteMsg = Receive(receive: Cw20ReceiveMsg) | Disburse

  /** One call of `execute`: the block time, `info.sender` and the message. */
  datatype Call = Call(now: u64, sender: string, msg: ExecuteMsg)

  predicate StrictlyIncreasing(s: seq<u64>) {
    forall i, j :: 0 <= i < j < |s| ==> s[i] < s[j]
  }

  // ---------------------------------------------------------------------------
  // instantiate
  // ---------------------------------------------------------------------------

  /** The state `instantiate` saves when called at block time `now`. The four
      unlock times are `u64` sums; if the largest one does not fit, the
      addition overflows and instantiation fails. */
  function Instantiate(now: u64): (r: Result<State>)
    ensures r.Ok? <==> now + 4 * SIX_MONTHS <= U64_MAX
    ensures r.Err? ==> r.error == Overflow
    ensures r.Ok? ==>
      && r.value.owner == OWNER
      && r.value.deposit == 0
      && r.value.lastDisburse == 0
      && r.value.recipients == RECIPIENTS
      && r.value.allocation == [0, 0, 0, 0]
      && |r.value.unlockTimes| == 4
      && (forall k :: 0 <= k < 4 ==> r.value.unlockTimes[k] == now + (k + 1) * SIX_MONTHS)
      && StrictlyIncreasing(r.value.unlockTimes)
      && now < r.value.unlockTimes[0]
  {
    if now + 24 * MONTH > U64_MAX then Err(Overflow)
    else
      Ok(State(
        OWNER,
        0,
        [now + 6 * MONTH, now + 12 * MONTH, now + 18 * MONTH, now + 24 * MONTH],
        RECIPIENTS,
        [0, 0, 0, 0],
        0))
  }

  // ---------------------------------------------------------------------------
  // try_receive
  // ---------------------------------------------------------------------------

  /** The state `try_receive` saves: only the owner may deposit, and the
      `Uint128` addition, which panics on overflow and so aborts the call,
      yields `Overflow` and saves nothing. */
  function Deposit(st: State, sender: string, amount: u128): (r: Result<State>)
    ensures r == Err(Unauthorized) <==> sender != st.owner
    ensures r == Err(Overflow) <==> sender == st.owner && st.deposit + amount > U128_MAX
    ensures r.Ok? ==> r.value == st.(deposit := st.deposit + amount)
  {
    if sender != st.owner then Err(Unauthorized)
    else if st.deposit + amount > U128_MAX then Err(Overflow)
    else Ok(st.(deposit := st.deposit + amount))
  }

  // ---------------------------------------------------------------------------
  // try_disburse
  // ---------------------------------------------------------------------------

  /** What each recipient receives per settled tranche: the whole cumulative
      deposit floor-divided by 4 and by the number of unlock times. With no
      unlock time the walk settles nothing, so the value is then irrelevant. */
  function PerRecipient(deposit: u128, tranches: nat): u128 {
    if tranches == 0 then 0 else deposit / RECIPIENT_SLOTS / tranches
  }

  /** A tranche is paid when it is unlocked, later than the last disbursement
      and has no tracker entry. */
  predicate Due(t: u64, now: u64, last: u64, tracker: Tracker) {
    now >= t && last < t && t !in tracker
  }

  /** The block of sends for one tranche: one per recipient, in declared order. */
  function Payouts(recipients: seq<string>, amount: u128): (r: seq<Send>)
    ensures |r| == |recipients|
    ensures forall j :: 0 <= j < |r| ==> r[j] == Send(recipients[j], amount, DENOM)
  {
    seq(|recipients|, j requires 0 <= j < |recipients| => Send(recipients[j], amount, DENOM))
  }

  /** `n` copies of `block`, one after the other. */
  function Repeat(block: seq<Send>, n: nat): seq<Send> {
    if n == 0 then [] else Repeat(block, n - 1) + block
  }

  /** The sum of the amounts of `sends`. */
  function Total(sends: seq<Send>): nat {
    if sends == [] then 0 else Total(sends[..|sends| - 1]) + sends[|sends| - 1].amount
  }

  /** The progress of the tranche walk: sends so far, tracker so far and the
      tranches settled so far, in walk order. */
  datatype Walked = Walked(sends: seq<Send>, tracker: Tracker, settled: seq<u64>)

  /** The loop of `try_disburse` over the unlock times `ts`, in order; `last`
      is `last_disburse` as loaded before the loop. */
  function Walk(ts: seq<u64>, recipients: seq<string>, amount: u128, last: u64, now: u64, tracker: Tracker): Walked
    decreases |ts|
  {
    if |ts| == 0 then Walked([], tracker, [])
    else
      var w := Walk(ts[..|ts| - 1], recipients, amount, last, now, tracker);
      var t := ts[|ts| - 1];
      if Due(t, now, last, w.tracker) then
        Walked(w.sends + Payouts(recipients, amount), w.tracker[t := true], w.settled + [t])
      else w
  }

  /** The outcome of one `try_disburse`: new state, new tracker, the ordered
      sends of the response and the tranches settled. */
  datatype Disbursed = Disbursed(state: State, tracker: Tracker, sends: seq<Send>, settled: seq<u64>)

  function Disbursement(st: State, tracker: Tracker, now: u64): Disbursed {
    var w := Walk(st.unlockTimes, st.recipients, PerRecipient(st.deposit, |st.unlockTimes|),
                  st.lastDisburse, now, tracker);
    var st' := if |w.sends| > 0 then st.(lastDisburse := now) else st;
    Disbursed(st', w.tracker, w.sends, w.settled)
  }

  // ---------------------------------------------------------------------------
  // execute
  // ---------------------------------------------------------------------------

  /** The outcome of one `execute` call; a failed call leaves the storage as it
      was. `result` holds the response's messages. */
  datatype Stepped = Stepped(state: State, tracker: Tracker, result: Result<seq<Send>>, settled: seq<u64>)

  function Step(st: State, tracker: Tracker, c: Call): Stepped {
    match c.msg
    case Receive(m) =>
      var d := Deposit(st, c.sender, m.amount);
      if d.Ok? then Stepped(d.value, tracker, Ok([]), [])
      else Stepped(st, tracker, Err(d.error), [])
    case Disburse =>
      var o := Disbursement(st, tracker, c.now);
      Stepped(o.state, o.tracker, Ok(o.sends), o.settled)
  }

  /** The tranches settled by each call of a sequence of `execute` calls. */
  function Settlements(calls: seq<Call>, st: State, tracker: Tracker): (r: seq<seq<u64>>)
    decreases |calls|
  {
    if calls == [] then []
    else
      var s := Step(st, tracker, calls[0]);
      [s.settled] + Settlements(calls[1..], s.state, s.tracker)
  }

  /** The state after a sequence of `execute` calls. */
  function FinalState(calls: seq<Call>, st: State, tracker: Tracker): State
    decreases |calls|
  {
    if calls == [] then st
    else
      var s := Step(st, tracker, calls[0]);
      FinalState(calls[1..], s.state, s.tracker)
  }

  /** The sum of the amounts of the deposits that succeed in a sequence of
      `execute` calls. */
  function Deposited(calls: seq<Call>, st: State, tracker: Tracker): nat
    decreases |calls|
  {
    if calls == [] then 0
    else
      var s := Step(st, tracker, calls[0]);
      (if calls[0].msg.Receive? && s.result.Ok? then calls[0].msg.receive.amount else 0)
        + Deposited(calls[1..], s.state, s.tracker)
  }

  /** The sum of the amounts sent by a sequence of `execute` calls. */
  function Sent(calls: seq<Call>, st: State, tracker: Tracker): nat
    decreases |calls|
  {
    if calls == [] then 0
    else
      var s := Step(st, tracker, calls[0]);
      (if s.result.Ok? then Total(s.result.value) else 0) + Sent(calls[1..], s.state, s.tracker)
  }

  // ---------------------------------------------------------------------------
  // The invariant the contract keeps
  // ---------------------------------------------------------------------------

  /** Recipients fill the fixed array, the schedule is strictly increasing,
      every tracker entry is a settled (`true`) unlock time, and every unlock
      time not later than `last_disburse` is settled. */
  predicate Inv(st: State, tracker: Tracker) {
    && |st.recipients| == RECIPIENT_SLOTS
    && StrictlyIncreasing(st.unlockTimes)
    && (forall t :: t in tracker ==> t in st.unlockTimes && tracker[t])
    && (forall k :: 0 <= k < |st.unlockTimes| && st.unlockTimes[k] <= st.lastDisburse ==>
          st.unlockTimes[k] in tracker)
  }

  /** The sum one settled tranche pays out at the current deposit. */
  function TranchePayout(st: State): nat {
    |st.recipients| * PerRecipient(st.deposit, |st.unlockTimes|)
  }
}
