/** The contract's storage and entry points (src/contract.rs): the `STATE`
    item and the `DISBURSEMENT_TRACKER` map as fields of one object, updated
    in place by `try_receive` and `try_disburse`, with `execute` choosing
    between them. Each method is proved against the pure step of
    TimelockLogic that specifies it. */
module TimelockContract {
  import opened TimelockLogic
  import opened TimelockLemmas

  class Contract {
    /** The `STATE` item. */
    var state: State
    /** The `DISBURSEMENT_TRACKER` map. */
    var tracker: Tracker
    /** The sum of the amounts of every send emitted so far (not stored by
        the contract; kept to state solvency). */
    ghost var disbursed: nat

    ghost predicate Valid()
      reads this
    {
      Inv(state, tracker) && Covered(disbursed, state, tracker)
    }

    /** `instantiate` at block time `now`, saving the schedule it builds. */
    constructor (now: u64)
      requires Instantiate(now).Ok?
      ensures Valid()
      ensures state == Instantiate(now).value && tracker == map[] && disbursed == 0
    {
      state := Instantiate(now).value;
      tracker := map[];
      disbursed := 0;
    }

    /** `try_receive`: the owner's deposit of `amount`, announced with
        `info.sender` equal to `sender`. */
    method TryReceive(sender: string, amount: u128) returns (r: Result<()>)
      requires Valid()
      modifies this
      ensures Valid()
      ensures var d := Deposit(old(state), sender, amount);
        && r == (if d.Ok? then Ok(()) else Err(d.error))
        && state == (if d.Ok? then d.value else old(state))
      ensures tracker == old(tracker) && disbursed == old(disbursed)
      ensures disbursed <= state.deposit
    {
      var st := state;
      if sender != st.owner {
        NoOverspend(state, tracker, disbursed);
        return Err(Unauthorized);
      }
      if st.deposit + amount > U128_MAX {
        NoOverspend(state, tracker, disbursed);
        return Err(Overflow);
      }
      DepositKeepsInv(st, tracker, sender, amount, disbursed);
      st := st.(deposit := st.deposit + amount);
      state := st;
      NoOverspend(state, tracker, disbursed);
      r := Ok(());
    }

    /** `try_disburse` at block time `now`: returns the messages of the
        response, in emission order. */
    method TryDisburse(now: u64) returns (messages: seq<Send>)
      requires Valid()
      modifies this
      ensures Valid()
      ensures var o := Disbursement(old(state), old(tracker), now);
        && messages == o.sends
        && state == o.state
        && tracker == o.tracker
      ensures disbursed == old(disbursed) + Total(messages)
      ensures disbursed <= state.deposit
    {
      var st := state;
      ghost var tracker0 := tracker;
      ghost var amount := PerRecipient(st.deposit, |st.unlockTimes|);
      messages := [];
      var i := 0;
      while i < |st.unlockTimes|
        invariant 0 <= i <= |st.unlockTimes|
        invariant st == state == old(state) && tracker0 == old(tracker) && disbursed == old(disbursed)
        invariant var w := Walk(st.unlockTimes[..i], st.recipients, amount, st.lastDisburse, now, tracker0);
          messages == w.sends && tracker == w.tracker
      {
        var unlockTime := st.unlockTimes[i];
        assert st.unlockTimes[..i + 1][..i] == st.unlockTimes[..i];
        if now >= unlockTime && st.lastDisburse < unlockTime {
          if unlockTime !in tracker {
            var amountPerRecipient := st.deposit / 4 / |st.unlockTimes|;
            ghost var before := messages;
            var j := 0;
            while j < |st.recipients|
              invariant 0 <= j <= |st.recipients|
              invariant messages == before + Payouts(st.recipients[..j], amountPerRecipient)
            {
              assert Payouts(st.recipients[..j + 1], amountPerRecipient)
                  == Payouts(st.recipients[..j], amountPerRecipient) + [Send(st.recipients[j], amountPerRecipient, DENOM)];
              messages := messages + [Send(st.recipients[j], amountPerRecipient, DENOM)];
              j := j + 1;
            }
            assert st.recipients[..j] == st.recipients;
            tracker := tracker[unlockTime := true];
          }
        }
        i := i + 1;
      }
      assert st.unlockTimes[..i] == st.unlockTimes;
      if messages != [] {
        state := state.(lastDisburse := now);
      }
      DisbursementKeepsInv(st, tracker0, now);
      DisbursementCovered(st, tracker0, now, disbursed);
      disbursed := disbursed + Total(messages);
      NoOverspend(state, tracker, disbursed);
    }

    /** `execute`: dispatches a message to `try_receive` or `try_disburse`. */
    method Execute(now: u64, sender: string, msg: ExecuteMsg) returns (r: Result<seq<Send>>)
      requires Valid()
      modifies this
      ensures Valid()
      ensures var s := Step(old(state), old(tracker), Call(now, sender, msg));
        && r == s.result
        && state == s.state
        && tracker == s.tracker
      ensures disbursed == old(disbursed) + (if r.Ok? then Total(r.value) else 0)
      ensures disbursed <= state.deposit
    {
      match msg
      case Receive(m) =>
        var x := TryReceive(sender, m.amount);
        r := if x.Ok? then Ok([]) else Err(x.error);
      case Disburse =>
        var sends := TryDisburse(now);
        r := Ok(sends);
    }
  }
}
