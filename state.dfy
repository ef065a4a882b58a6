/** The persisted stream record and its release schedule (src/state.rs).

    Every u64 of the record is an unbounded `nat` here. Where the program would abort on
    u64 arithmetic (an underflowing subtraction, an overflowing addition, a division by
    zero), the functions below carry a precondition that excludes exactly those inputs,
    and the handlers test that precondition and return `Panic` when it fails.

    `available` computes with f64 intermediates; this model uses exact rational arithmetic
    and takes the floor, which is what the final `as u64` conversion does when no rounding
    occurs. Float rounding and the saturation of that conversion are not modelled. */
module State {
  import opened Arith

  type Pubkey = nat

  const PROGRAM_VERSION: nat := 2
  const U64_MAX: nat := 0xFFFF_FFFF_FFFF_FFFF

  predicate IsU64(x: int) { 0 <= x <= U64_MAX }

  /** An octet of instruction or account data. */
  newtype byte = x: int | 0 <= x < 256

  /** The terms of a stream, as the create instruction carries them. The name is kept as
      its UTF-8 bytes, since its byte length is what the program limits and stores. */
  datatype StreamInstruction = StreamInstruction(
    startTime: nat,
    endTime: nat,
    depositedAmount: nat,
    totalAmount: nat,
    period: nat,
    cliff: nat,
    cliffAmount: nat,
    cancelableBySender: bool,
    cancelableByRecipient: bool,
    withdrawalPublic: bool,
    transferableBySender: bool,
    transferableByRecipient: bool,
    releaseRate: nat,
    streamName: seq<byte>)

  /** The default terms: one-second period, cancelable by the sender only, transferable by the
      recipient only, named "Stream". */
  const DEFAULT_INSTRUCTION := StreamInstruction(
    0, 0, 0, 0, 1, 0, 0,
    true, false, false, false, true,
    0, [0x53, 0x74, 0x72, 0x65, 0x61, 0x6d])

  /** The default terms: a one-second period and no release rate; only the sender may cancel
      and only the recipient may transfer; the name is the UTF-8 text "Stream". Their schedule
      starts and ends at 0, so they are never a valid schedule on their own. */
  lemma DefaultTerms()
    ensures DEFAULT_INSTRUCTION.period == 1 && DEFAULT_INSTRUCTION.releaseRate == 0
    ensures DEFAULT_INSTRUCTION.cancelableBySender && !DEFAULT_INSTRUCTION.cancelableByRecipient
    ensures !DEFAULT_INSTRUCTION.withdrawalPublic
    ensures !DEFAULT_INSTRUCTION.transferableBySender && DEFAULT_INSTRUCTION.transferableByRecipient
    ensures |DEFAULT_INSTRUCTION.streamName| == |"Stream"|
    ensures forall i :: 0 <= i < |"Stream"| ==> DEFAULT_INSTRUCTION.streamName[i] as int == "Stream"[i] as int
    ensures !ScheduleValid(DEFAULT_INSTRUCTION)
  {
  }

  /** The stream record stored in the metadata account. */
  datatype TokenStreamData = TokenStreamData(
    magic: nat,
    createdAt: nat,
    withdrawnAmount: nat,
    canceledAt: nat,
    closableAt: nat,
    lastWithdrawnAt: nat,
    sender: Pubkey,
    senderTokens: Pubkey,
    recipient: Pubkey,
    recipientTokens: Pubkey,
    mint: Pubkey,
    escrowTokens: Pubkey,
    ix: StreamInstruction)

  /** The accounts of each instruction, by the role the program gives them. */
  datatype InitializeAccounts = InitializeAccounts(
    sender: Pubkey, senderTokens: Pubkey, recipient: Pubkey, recipientTokens: Pubkey,
    metadata: Pubkey, escrowTokens: Pubkey, mint: Pubkey, rent: Pubkey,
    tokenProgram: Pubkey, associatedTokenProgram: Pubkey, systemProgram: Pubkey)

  datatype WithdrawAccounts = WithdrawAccounts(
    withdrawAuthority: Pubkey, sender: Pubkey, recipient: Pubkey, recipientTokens: Pubkey,
    metadata: Pubkey, escrowTokens: Pubkey, mint: Pubkey, tokenProgram: Pubkey)

  datatype CancelAccounts = CancelAccounts(
    cancelAuthority: Pubkey, sender: Pubkey, senderTokens: Pubkey, recipient: Pubkey,
    recipientTokens: Pubkey, metadata: Pubkey, escrowTokens: Pubkey, mint: Pubkey,
    tokenProgram: Pubkey)

  datatype TransferAccounts = TransferAccounts(
    authorizedWallet: Pubkey, newRecipient: Pubkey, newRecipientTokens: Pubkey,
    metadata: Pubkey, escrowTokens: Pubkey, mint: Pubkey, rent: Pubkey,
    tokenProgram: Pubkey, associatedTokenProgram: Pubkey, systemProgram: Pubkey)

  datatype TopUpAccounts = TopUpAccounts(
    sender: Pubkey, senderTokens: Pubkey, metadata: Pubkey, escrowTokens: Pubkey,
    mint: Pubkey, tokenProgram: Pubkey)

  /** A fresh record: version 2, nothing withdrawn, not canceled, closable at the end time,
      every other field copied from the arguments. */
  function New(
    createdAt: nat,
    sender: Pubkey,
    senderTokens: Pubkey,
    recipient: Pubkey,
    recipientTokens: Pubkey,
    mint: Pubkey,
    escrowTokens: Pubkey,
    startTime: nat,
    endTime: nat,
    depositedAmount: nat,
    totalAmount: nat,
    period: nat,
    cliff: nat,
    cliffAmount: nat,
    cancelableBySender: bool,
    cancelableByRecipient: bool,
    withdrawalPublic: bool,
    transferableBySender: bool,
    transferableByRecipient: bool,
    releaseRate: nat,
    streamName: seq<byte>): (r: TokenStreamData)
    ensures r.magic == PROGRAM_VERSION && r.createdAt == createdAt
    ensures r.withdrawnAmount == 0 && r.canceledAt == 0 && r.lastWithdrawnAt == 0
    ensures r.closableAt == endTime
    ensures r.sender == sender && r.senderTokens == senderTokens
    ensures r.recipient == recipient && r.recipientTokens == recipientTokens
    ensures r.mint == mint && r.escrowTokens == escrowTokens
    ensures r.ix.startTime == startTime && r.ix.endTime == endTime
    ensures r.ix.depositedAmount == depositedAmount && r.ix.totalAmount == totalAmount
    ensures r.ix.period == period && r.ix.cliff == cliff && r.ix.cliffAmount == cliffAmount
    ensures r.ix.cancelableBySender == cancelableBySender
    ensures r.ix.cancelableByRecipient == cancelableByRecipient
    ensures r.ix.withdrawalPublic == withdrawalPublic
    ensures r.ix.transferableBySender == transferableBySender
    ensures r.ix.transferableByRecipient == transferableByRecipient
    ensures r.ix.releaseRate == releaseRate && r.ix.streamName == streamName
  {
    var ix := StreamInstruction(
      startTime, endTime, depositedAmount, totalAmount, period, cliff, cliffAmount,
      cancelableBySender, cancelableByRecipient, withdrawalPublic,
      transferableBySender, transferableByRecipient, releaseRate, streamName);
    TokenStreamData(PROGRAM_VERSION, createdAt, 0, 0, endTime, 0,
                    sender, senderTokens, recipient, recipientTokens, mint, escrowTokens, ix)
  }

  /** The time releases count from: the cliff when there is one, else the start. */
  function EffectiveCliff(d: TokenStreamData): nat {
    if d.ix.cliff > 0 then d.ix.cliff else d.ix.startTime
  }

  /** Whole periods elapsed since the effective cliff (integer division). */
  function PeriodsPassed(d: TokenStreamData, now: nat): nat
    requires d.ix.period > 0 && EffectiveCliff(d) <= now
  {
    (now - EffectiveCliff(d)) / d.ix.period
  }

  /** `floor(periods_passed * period_amount)`, computed exactly. With a release rate each
      period releases that rate; without one, the amount beyond the cliff is spread evenly
      over the seconds from the effective cliff to the end, so each whole period releases
      `(total - cliff_amount) * period / (end - effective_cliff)`. */
  function Released(d: TokenStreamData, now: nat): nat
    requires d.ix.period > 0 && EffectiveCliff(d) <= now
    requires d.ix.releaseRate == 0 ==>
               EffectiveCliff(d) < d.ix.endTime && d.ix.cliffAmount <= d.ix.totalAmount
  {
    if d.ix.releaseRate > 0 then
      PeriodsPassed(d, now) * d.ix.releaseRate
    else
      var elapsed: nat := PeriodsPassed(d, now) * d.ix.period;
      var beyondCliff: nat := d.ix.totalAmount - d.ix.cliffAmount;
      var span: nat := d.ix.endTime - EffectiveCliff(d);
      elapsed * beyondCliff / span
  }

  /** The inputs on which `available` runs to completion without a u64 fault. */
  predicate AvailableDefined(d: TokenStreamData, now: nat) {
    if d.ix.startTime > now || d.ix.cliff > now then true
    else if now >= d.ix.endTime && d.ix.releaseRate == 0 then
      d.withdrawnAmount <= d.ix.depositedAmount
    else
      d.ix.period > 0 && EffectiveCliff(d) <= d.ix.endTime &&
      (d.ix.releaseRate == 0 ==> d.ix.cliffAmount <= d.ix.totalAmount) &&
      IsU64(Released(d, now) + d.ix.cliffAmount) &&
      d.withdrawnAmount <= Released(d, now) + d.ix.cliffAmount
  }

  /** The amount the recipient may withdraw at time `now`. */
  function Available(d: TokenStreamData, now: nat): (r: nat)
    requires AvailableDefined(d, now)
    ensures now < d.ix.startTime || now < d.ix.cliff ==> r == 0
  {
    if d.ix.startTime > now || d.ix.cliff > now then
      0
    else if now >= d.ix.endTime && d.ix.releaseRate == 0 then
      d.ix.depositedAmount - d.withdrawnAmount
    else
      Released(d, now) + d.ix.cliffAmount - d.withdrawnAmount
  }

  /** Tokens per second the schedule releases, in integer arithmetic. */
  function AmountPerSecond(d: TokenStreamData): nat
    requires d.ix.releaseRate > 0 ==> d.ix.period > 0
    requires d.ix.releaseRate == 0 ==>
               EffectiveCliff(d) < d.ix.endTime && d.ix.cliffAmount <= d.ix.totalAmount
  {
    if d.ix.releaseRate > 0 then d.ix.releaseRate / d.ix.period
    else (d.ix.totalAmount - d.ix.cliffAmount) / (d.ix.endTime - EffectiveCliff(d))
  }

  /** The inputs on which `closable` runs to completion without a u64 fault; in particular
      the amount per second must not round down to zero. */
  predicate ClosableDefined(d: TokenStreamData) {
    d.ix.depositedAmount < d.ix.cliffAmount ||
    (EffectiveCliff(d) <= d.ix.endTime &&
     (if d.ix.releaseRate > 0 then d.ix.period > 0
      else EffectiveCliff(d) < d.ix.endTime && d.ix.cliffAmount <= d.ix.totalAmount) &&
     AmountPerSecond(d) > 0 &&
     IsU64(EffectiveCliff(d) + (d.ix.depositedAmount - d.ix.cliffAmount) / AmountPerSecond(d) + 1))
  }

  /** The time from which the whole deposit is meant to be unlockable. */
  function Closable(d: TokenStreamData): (r: nat)
    requires ClosableDefined(d)
    ensures d.ix.depositedAmount < d.ix.cliffAmount ==> r == EffectiveCliff(d)
    ensures d.ix.depositedAmount >= d.ix.cliffAmount ==> r > EffectiveCliff(d)
    ensures d.ix.depositedAmount >= d.ix.cliffAmount && d.ix.releaseRate == 0 ==> r <= d.ix.endTime
  {
    var cliffTime := EffectiveCliff(d);
    if d.ix.depositedAmount < d.ix.cliffAmount then
      cliffTime
    else
      var secondsLeft := (d.ix.depositedAmount - d.ix.cliffAmount) / AmountPerSecond(d) + 1;
      if cliffTime + secondsLeft > d.ix.endTime && d.ix.releaseRate == 0 then d.ix.endTime
      else cliffTime + secondsLeft
  }

  /** The record with a different deposited amount and nothing else changed. */
  function WithDeposit(d: TokenStreamData, deposited: nat): TokenStreamData {
    d.(ix := d.ix.(depositedAmount := deposited))
  }

  /** The schedule shape that `duration_sanity` admits at creation. */
  predicate ScheduleValid(ix: StreamInstruction) {
    ix.startTime < ix.endTime && (ix.cliff == 0 || (ix.startTime <= ix.cliff <= ix.endTime))
  }

  // ----- Properties of `available` -----

  lemma AvailableAtEnd(d: TokenStreamData, now: nat)
    requires AvailableDefined(d, now)
    requires d.ix.startTime <= now && d.ix.cliff <= now
    requires now >= d.ix.endTime && d.ix.releaseRate == 0
    ensures Available(d, now) == d.ix.depositedAmount - d.withdrawnAmount
  {
  }

  /** Before the end (or with a release rate), what is available is the release so far plus
      the cliff amount, less what was already withdrawn. */
  lemma AvailableInSchedule(d: TokenStreamData, now: nat)
    requires AvailableDefined(d, now)
    requires d.ix.startTime <= now && d.ix.cliff <= now
    requires now < d.ix.endTime || d.ix.releaseRate > 0
    ensures Available(d, now) + d.withdrawnAmount == Released(d, now) + d.ix.cliffAmount
  {
  }

  /** At the effective cliff no period has passed, so only the cliff amount is available. */
  lemma AvailableAtCliff(d: TokenStreamData)
    requires AvailableDefined(d, EffectiveCliff(d))
    requires d.ix.startTime <= EffectiveCliff(d) && d.ix.cliff <= EffectiveCliff(d)
    requires EffectiveCliff(d) < d.ix.endTime || d.ix.releaseRate > 0
    ensures Available(d, EffectiveCliff(d)) == d.ix.cliffAmount - d.withdrawnAmount
  {
    assert PeriodsPassed(d, EffectiveCliff(d)) == 0;
  }

  lemma ReleasedMonotone(d: TokenStreamData, now1: nat, now2: nat)
    requires d.ix.period > 0 && EffectiveCliff(d) <= now1 <= now2
    requires d.ix.releaseRate == 0 ==>
               EffectiveCliff(d) < d.ix.endTime && d.ix.cliffAmount <= d.ix.totalAmount
    ensures Released(d, now1) <= Released(d, now2)
  {
    var ec := EffectiveCliff(d);
    DivMonotone(now1 - ec, now2 - ec, d.ix.period);
    var p1, p2 := PeriodsPassed(d, now1), PeriodsPassed(d, now2);
    if d.ix.releaseRate > 0 {
      MulMonotone(p1, p2, d.ix.releaseRate);
    } else {
      var t := d.ix.totalAmount - d.ix.cliffAmount;
      MulMonotone(p1, p2, d.ix.period);
      MulMonotone(p1 * d.ix.period, p2 * d.ix.period, t);
      DivMonotone(p1 * d.ix.period * t, p2 * d.ix.period * t, d.ix.endTime - ec);
    }
  }

  /** Without a release rate, the release before the end never exceeds the total beyond
      the cliff amount. */
  lemma ReleasedWithinTotal(d: TokenStreamData, now: nat)
    requires d.ix.period > 0 && EffectiveCliff(d) <= now < d.ix.endTime
    requires d.ix.releaseRate == 0 && d.ix.cliffAmount <= d.ix.totalAmount
    ensures Released(d, now) <= d.ix.totalAmount - d.ix.cliffAmount
  {
    var ec := EffectiveCliff(d);
    var p := PeriodsPassed(d, now);
    assert p * d.ix.period <= now - ec;
    ScaledAtMost(p * d.ix.period, d.ix.totalAmount - d.ix.cliffAmount, d.ix.endTime - ec);
  }

  /** The available amount never decreases as time goes on, except when a partly funded
      stream without a release rate reaches its end: there it drops to what is deposited. */
  lemma AvailableMonotone(d: TokenStreamData, now1: nat, now2: nat)
    requires AvailableDefined(d, now1) && AvailableDefined(d, now2)
    requires now1 <= now2
    requires now2 < d.ix.endTime || d.ix.releaseRate > 0 || d.ix.totalAmount <= d.ix.depositedAmount
    ensures Available(d, now1) <= Available(d, now2)
  {
    if d.ix.startTime > now1 || d.ix.cliff > now1 {
    } else if now1 >= d.ix.endTime && d.ix.releaseRate == 0 {
    } else if now2 >= d.ix.endTime && d.ix.releaseRate == 0 {
      ReleasedWithinTotal(d, now1);
    } else {
      ReleasedMonotone(d, now1, now2);
    }
  }

  /** A fully funded stream without a release rate never offers more than its escrow holds. */
  lemma AvailableWithinDeposit(d: TokenStreamData, now: nat)
    requires AvailableDefined(d, now)
    requires d.ix.releaseRate == 0 && d.ix.totalAmount <= d.ix.depositedAmount
    requires d.withdrawnAmount <= d.ix.depositedAmount
    ensures Available(d, now) <= d.ix.depositedAmount - d.withdrawnAmount
  {
    if d.ix.startTime > now || d.ix.cliff > now {
    } else if now >= d.ix.endTime {
    } else {
      ReleasedWithinTotal(d, now);
    }
  }

  /** `available` is not capped by the deposit: a stream funded with 100 of its 1000 tokens
      offers 500 halfway through. */
  lemma AvailableNotCappedWhenPartlyFunded()
    ensures var d := TokenStreamData(2, 0, 0, 0, 200, 0, 1, 2, 3, 4, 5, 6,
                                     StreamInstruction(100, 200, 100, 1000, 10, 0, 0,
                                                       true, false, false, false, true, 0, []));
            AvailableDefined(d, 150) && Available(d, 150) == 500 &&
            Available(d, 150) > d.ix.depositedAmount - d.withdrawnAmount
  {
    var d := TokenStreamData(2, 0, 0, 0, 200, 0, 1, 2, 3, 4, 5, 6,
                             StreamInstruction(100, 200, 100, 1000, 10, 0, 0,
                                               true, false, false, false, true, 0, []));
    assert Released(d, 150) == 500;
  }

  /** A linear stream from 100 to 200 over 1000 tokens, with an optional cliff. */
  function LinearStream(cliff: nat, cliffAmount: nat): TokenStreamData {
    TokenStreamData(2, 0, 0, 0, 200, 0, 1, 2, 3, 4, 5, 6,
                    StreamInstruction(100, 200, 1000, 1000, 10, cliff, cliffAmount,
                                      true, false, false, false, true, 0, []))
  }

  /** Half-way through a linear stream half is available; at the end all of it. */
  lemma LinearStreamExample()
    ensures AvailableDefined(LinearStream(0, 0), 150) && Available(LinearStream(0, 0), 150) == 500
    ensures AvailableDefined(LinearStream(0, 0), 200) && Available(LinearStream(0, 0), 200) == 1000
  {
    assert Released(LinearStream(0, 0), 150) == 500;
  }

  /** With a cliff at 120 worth 200 tokens: nothing before it, the cliff amount just after. */
  lemma CliffStreamExample()
    ensures AvailableDefined(LinearStream(120, 200), 119) && Available(LinearStream(120, 200), 119) == 0
    ensures AvailableDefined(LinearStream(120, 200), 121) && Available(LinearStream(120, 200), 121) == 200
  {
    assert Released(LinearStream(120, 200), 121) == 0;
  }

  // ----- Properties of `closable` -----

  /** More deposit never makes a stream closable earlier. */
  lemma ClosableMonotone(d: TokenStreamData, deposited: nat)
    requires d.ix.depositedAmount <= deposited
    requires ClosableDefined(d) && ClosableDefined(WithDeposit(d, deposited))
    ensures Closable(d) <= Closable(WithDeposit(d, deposited))
  {
    var e := WithDeposit(d, deposited);
    if d.ix.depositedAmount >= d.ix.cliffAmount {
      assert AmountPerSecond(e) == AmountPerSecond(d);
      DivMonotone(d.ix.depositedAmount - d.ix.cliffAmount, deposited - d.ix.cliffAmount,
                  AmountPerSecond(d));
    }
  }

  /** A fully funded stream without a release rate is closable exactly at its end. */
  lemma ClosableWhenFullyFunded(d: TokenStreamData)
    requires ClosableDefined(d)
    requires d.ix.releaseRate == 0
    requires d.ix.cliffAmount <= d.ix.totalAmount <= d.ix.depositedAmount
    ensures Closable(d) == d.ix.endTime
  {
    var span := d.ix.endTime - EffectiveCliff(d);
    var rate := AmountPerSecond(d);
    assert rate * span <= d.ix.totalAmount - d.ix.cliffAmount;
    DivAtLeast(d.ix.depositedAmount - d.ix.cliffAmount, rate, span);
  }

  /** For such a stream, at its closable time the whole remaining deposit is available. */
  lemma AvailableAtClosable(d: TokenStreamData)
    requires ScheduleValid(d.ix) && ClosableDefined(d)
    requires d.ix.releaseRate == 0
    requires d.ix.cliffAmount <= d.ix.totalAmount <= d.ix.depositedAmount
    requires d.withdrawnAmount <= d.ix.depositedAmount
    ensures AvailableDefined(d, Closable(d))
    ensures Available(d, Closable(d)) == d.ix.depositedAmount - d.withdrawnAmount
  {
    ClosableWhenFullyFunded(d);
  }

  /** With a release rate the closable time can come before the last tokens are released:
      105 tokens at 10 per 10-second period are closable at 206, when only 100 are out. */
  lemma ClosableMayPrecedeFullRelease()
    ensures var d := TokenStreamData(2, 0, 0, 0, 0, 0, 1, 2, 3, 4, 5, 6,
                                     StreamInstruction(100, 1000, 105, 105, 10, 0, 0,
                                                       true, false, false, false, true, 10, []));
            ClosableDefined(d) && Closable(d) == 206 &&
            AvailableDefined(d, 206) && Available(d, 206) == 100 < d.ix.depositedAmount
  {
    var d := TokenStreamData(2, 0, 0, 0, 0, 0, 1, 2, 3, 4, 5, 6,
                             StreamInstruction(100, 1000, 105, 105, 10, 0, 0,
                                               true, false, false, false, true, 10, []));
    assert AmountPerSecond(d) == 1;
    assert Released(d, 206) == 100;
  }

  /** For such a stream with something to release after the cliff, closable is the earliest
      such time: before it, less than the remaining deposit is available. */
  lemma ClosableIsEarliest(d: TokenStreamData, now: nat)
    requires ScheduleValid(d.ix) && ClosableDefined(d)
    requires d.ix.releaseRate == 0
    requires d.ix.cliffAmount < d.ix.totalAmount <= d.ix.depositedAmount
    requires d.withdrawnAmount < d.ix.depositedAmount
    requires AvailableDefined(d, now) && now < Closable(d)
    ensures Available(d, now) < d.ix.depositedAmount - d.withdrawnAmount
  {
    ClosableWhenFullyFunded(d);
    if d.ix.startTime <= now && d.ix.cliff <= now {
      var ec := EffectiveCliff(d);
      var p := PeriodsPassed(d, now);
      assert p * d.ix.period <= now - ec;
      ScaledBelow(p * d.ix.period, d.ix.totalAmount - d.ix.cliffAmount, d.ix.endTime - ec);
    }
  }

  /** A partly funded stream without a release rate closes before its deposit is out:
      105 of 1000 tokens over 100..200 are closable at 111, when only 100 are available. */
  lemma ClosableEarlyWhenPartlyFunded()
    ensures var d := TokenStreamData(2, 0, 0, 0, 0, 0, 1, 2, 3, 4, 5, 6,
                                     StreamInstruction(100, 200, 105, 1000, 10, 0, 0,
                                                       true, false, false, false, true, 0, []));
            ClosableDefined(d) && Closable(d) == 111 &&
            AvailableDefined(d, 111) && Available(d, 111) == 100 < d.ix.depositedAmount
  {
    var d := TokenStreamData(2, 0, 0, 0, 0, 0, 1, 2, 3, 4, 5, 6,
                             StreamInstruction(100, 200, 105, 1000, 10, 0, 0,
                                               true, false, false, false, true, 0, []));
    assert AmountPerSecond(d) == 10;
    assert Released(d, 111) == 100;
  }
}
