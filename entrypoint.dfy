/** The program's entrypoint (src/entrypoint.rs): the first instruction byte selects the
    handler, the accounts are bound to the handler's roles in the order given, and the rest of
    the instruction is its payload. */
module Entrypoint {
  import opened Errors
  import opened Arith
  import opened State
  import opened Ledger
  import Token

  // ----- little-endian u64 -----

  function Pow256(n: nat): (r: nat)
    ensures r >= 1
  {
    if n == 0 then 1 else 256 * Pow256(n - 1)
  }

  /** The number the bytes denote, least significant byte first, as `u64::from_le_bytes`
      reads eight of them. */
  function LeValue(b: seq<byte>): (x: nat)
    ensures x < Pow256(|b|)
  {
    if b == [] then 0 else b[0] as nat + 256 * LeValue(b[1..])
  }

  /** The `n` least significant bytes of `x`, least significant first. */
  function LeBytes(x: nat, n: nat): (b: seq<byte>)
    ensures |b| == n
  {
    if n == 0 then [] else [(x % 256) as byte] + LeBytes(x / 256, n - 1)
  }

  lemma {:induction false} LeValueOfBytes(x: nat, n: nat)
    requires x < Pow256(n)
    ensures LeValue(LeBytes(x, n)) == x
  {
    if n > 0 {
      var q, r := x / 256, x % 256;
      assert x == r + 256 * q;
      DivAtMost(x, 256, Pow256(n - 1) - 1);
      var b := LeBytes(x, n);
      assert b[1..] == LeBytes(q, n - 1);
      LeValueOfBytes(q, n - 1);
    }
  }

  lemma ByteSplit(lo: nat, hi: nat)
    requires lo < 256
    ensures (lo + 256 * hi) % 256 == lo && (lo + 256 * hi) / 256 == hi
  {
  }

  lemma {:induction false} LeBytesOfValue(b: seq<byte>)
    ensures LeBytes(LeValue(b), |b|) == b
  {
    if b != [] {
      var rest := LeValue(b[1..]);
      ByteSplit(b[0] as nat, rest);
      LeBytesOfValue(b[1..]);
      assert LeBytes(LeValue(b), |b|) == [b[0]] + LeBytes(rest, |b| - 1);
    }
  }

  /** Eight bytes read as a u64 are within the u64 range. */
  lemma LeValueIsU64(b: seq<byte>)
    requires |b| == 8
    ensures IsU64(LeValue(b))
  {
    assert Pow256(8) == U64_MAX + 1;
  }

  // ----- instruction routing -----

  /** A decoded instruction: the handler, its accounts and its arguments. */
  datatype Instruction =
    | Create(createAccounts: InitializeAccounts, terms: StreamInstruction)
    | Withdraw(withdrawAccounts: WithdrawAccounts, amount: nat)
    | Cancel(cancelAccounts: CancelAccounts)
    | TransferRecipient(transferAccounts: TransferAccounts)
    | TopUp(topUpAccounts: TopUpAccounts, amount: nat)

  /** How many accounts each handler takes, by instruction byte. */
  function AccountCount(opcode: byte): nat
    requires opcode <= 4
  {
    [11, 8, 9, 10, 6][opcode as nat]
  }

  /** The accounts of an instruction, in the order the entrypoint binds them. */
  function AccountsOf(i: Instruction): (keys: seq<Pubkey>)
    ensures |keys| == AccountCount(OpcodeOf(i))
  {
    match i
    case Create(a, _) =>
      [a.sender, a.senderTokens, a.recipient, a.recipientTokens, a.metadata, a.escrowTokens,
       a.mint, a.rent, a.tokenProgram, a.associatedTokenProgram, a.systemProgram]
    case Withdraw(a, _) =>
      [a.withdrawAuthority, a.sender, a.recipient, a.recipientTokens, a.metadata, a.escrowTokens,
       a.mint, a.tokenProgram]
    case Cancel(a) =>
      [a.cancelAuthority, a.sender, a.senderTokens, a.recipient, a.recipientTokens, a.metadata,
       a.escrowTokens, a.mint, a.tokenProgram]
    case TransferRecipient(a) =>
      [a.authorizedWallet, a.newRecipient, a.newRecipientTokens, a.metadata, a.escrowTokens,
       a.mint, a.rent, a.tokenProgram, a.associatedTokenProgram, a.systemProgram]
    case TopUp(a, _) =>
      [a.sender, a.senderTokens, a.metadata, a.escrowTokens, a.mint, a.tokenProgram]
  }

  function OpcodeOf(i: Instruction): (op: byte)
    ensures op <= 4
  {
    match i
    case Create(_, _) => 0
    case Withdraw(_, _) => 1
    case Cancel(_) => 2
    case TransferRecipient(_) => 3
    case TopUp(_, _) => 4
  }

  /** The stream record an instruction works on. */
  function MetadataOf(i: Instruction): Pubkey {
    match i
    case Create(a, _) => a.metadata
    case Withdraw(a, _) => a.metadata
    case Cancel(a) => a.metadata
    case TransferRecipient(a) => a.metadata
    case TopUp(a, _) => a.metadata
  }

  /** What the entrypoint makes of the accounts and the instruction data: an empty instruction
      aborts on the index, an unknown byte is refused, too few accounts are refused before the
      payload is read, the create payload must decode, and the withdraw and top-up payloads
      must be exactly eight bytes; extra accounts and extra cancel or transfer bytes are
      ignored. */
  function Decode(env: Env, accounts: seq<Pubkey>, ix: seq<byte>): (r: Result<Instruction>)
    ensures ix == [] ==> r == Err(Panic)
    ensures ix != [] && ix[0] > 4 ==> r == Err(InvalidInstructionData)
    ensures ix != [] && ix[0] <= 4 && |accounts| < AccountCount(ix[0]) ==>
              r == Err(NotEnoughAccountKeys)
    ensures r.Ok? ==> ix != [] && ix[0] == OpcodeOf(r.value) &&
                      AccountsOf(r.value) == accounts[..AccountCount(ix[0])]
    ensures r.Ok? && r.value.Create? ==> env.decodeStreamInstruction(ix[1..]) == Ok(r.value.terms)
    ensures r.Ok? && (r.value.Withdraw? || r.value.TopUp?) ==>
              |ix| == 9 && r.value.amount == LeValue(ix[1..]) && IsU64(r.value.amount)
  {
    if ix == [] then Err(Panic)
    else if ix[0] > 4 then Err(InvalidInstructionData)
    else if |accounts| < AccountCount(ix[0]) then Err(NotEnoughAccountKeys)
    else
      var k := accounts;
      if ix[0] == 0 then
        match env.decodeStreamInstruction(ix[1..])
        case Err(_) => Err(BorshIoError)
        case Ok(terms) =>
          Ok(Create(InitializeAccounts(k[0], k[1], k[2], k[3], k[4], k[5], k[6], k[7], k[8], k[9],
                                       k[10]), terms))
      else if ix[0] == 1 then
        if |ix| != 9 then Err(Panic)
        else
          LeValueIsU64(ix[1..]);
          Ok(Withdraw(WithdrawAccounts(k[0], k[1], k[2], k[3], k[4], k[5], k[6], k[7]),
                      LeValue(ix[1..])))
      else if ix[0] == 2 then
        Ok(Cancel(CancelAccounts(k[0], k[1], k[2], k[3], k[4], k[5], k[6], k[7], k[8])))
      else if ix[0] == 3 then
        Ok(TransferRecipient(TransferAccounts(k[0], k[1], k[2], k[3], k[4], k[5], k[6], k[7],
                                              k[8], k[9])))
      else
        if |ix| != 9 then Err(Panic)
        else
          LeValueIsU64(ix[1..]);
          Ok(TopUp(TopUpAccounts(k[0], k[1], k[2], k[3], k[4], k[5]), LeValue(ix[1..])))
  }

  /** The instruction data a client sends for an instruction without terms to decode. */
  function Encode(i: Instruction): (ix: seq<byte>)
    requires !i.Create?
  {
    match i
    case Withdraw(_, amount) => [1] + LeBytes(amount, 8)
    case Cancel(_) => [2]
    case TransferRecipient(_) => [3]
    case TopUp(_, amount) => [4] + LeBytes(amount, 8)
  }

  /** Encoding an instruction and passing its accounts, with any accounts after them, gives
      back the instruction. */
  lemma DecodeEncode(env: Env, i: Instruction, extra: seq<Pubkey>)
    requires !i.Create?
    requires (i.Withdraw? || i.TopUp?) ==> IsU64(i.amount)
    ensures Decode(env, AccountsOf(i) + extra, Encode(i)) == Ok(i)
  {
    var ix := Encode(i);
    var k := AccountsOf(i) + extra;
    assert ix[0] == OpcodeOf(i);
    if i.Withdraw? || i.TopUp? {
      assert ix[1..] == LeBytes(i.amount, 8);
      assert Pow256(8) == U64_MAX + 1;
      LeValueOfBytes(i.amount, 8);
    }
    assert k[..|AccountsOf(i)|] == AccountsOf(i);
  }

  /** A create instruction is decoded from its accounts and any payload the terms decoder
      accepts. */
  lemma DecodeCreate(env: Env, acc: InitializeAccounts, payload: seq<byte>, extra: seq<Pubkey>)
    requires env.decodeStreamInstruction(payload).Ok?
    ensures var i := Create(acc, env.decodeStreamInstruction(payload).value);
            Decode(env, AccountsOf(i) + extra, [0] + payload) == Ok(i)
  {
    var i := Create(acc, env.decodeStreamInstruction(payload).value);
    assert ([0] + payload)[1..] == payload;
    assert (AccountsOf(i) + extra)[..11] == AccountsOf(i);
  }

  /** Cancel and transfer_recipient read nothing after the instruction byte: whatever
      follows it, the instruction decodes the same. */
  lemma DecodeIgnoresTrailingBytes(env: Env, accounts: seq<Pubkey>, ix: seq<byte>, ix': seq<byte>)
    requires ix != [] && ix' != [] && ix[0] == ix'[0] && (ix[0] == 2 || ix[0] == 3)
    ensures Decode(env, accounts, ix) == Decode(env, accounts, ix')
  {
  }

  /** The iterator over the instruction's accounts that the entrypoint binds roles from. */
  class AccountIter {
    const accounts: seq<Pubkey>
    var position: nat

    constructor(accounts: seq<Pubkey>)
      ensures this.accounts == accounts && position == 0
    {
      this.accounts := accounts;
      position := 0;
    }

    /** next_account_info: the next account, or NotEnoughAccountKeys when none is left. */
    method Next() returns (r: Result<Pubkey>)
      modifies this
      ensures old(position) >= |accounts| ==> r == Err(NotEnoughAccountKeys) && position == old(position)
      ensures old(position) < |accounts| ==> r == Ok(accounts[old(position)]) && position == old(position) + 1
    {
      if position >= |accounts| {
        return Err(NotEnoughAccountKeys);
      }
      r := Ok(accounts[position]);
      position := position + 1;
    }
  }

  /** Binds the create accounts and decodes the stream terms. */
  method RouteCreate(env: Env, ai: AccountIter, ix: seq<byte>) returns (r: Result<Instruction>)
    requires ix != [] && ix[0] == 0 && ai.position == 0
    modifies ai
    ensures r == Decode(env, ai.accounts, ix)
  {
    var sender :- ai.Next();
    var senderTokens :- ai.Next();
    var recipient :- ai.Next();
    var recipientTokens :- ai.Next();
    var metadata :- ai.Next();
    var escrowTokens :- ai.Next();
    var mint :- ai.Next();
    var rent :- ai.Next();
    var tokenProgram :- ai.Next();
    var associatedTokenProgram :- ai.Next();
    var systemProgram :- ai.Next();
    var ia := InitializeAccounts(sender, senderTokens, recipient, recipientTokens, metadata,
                                 escrowTokens, mint, rent, tokenProgram, associatedTokenProgram,
                                 systemProgram);
    match env.decodeStreamInstruction(ix[1..]) {
      case Err(_) => return Err(BorshIoError);
      case Ok(si) => return Ok(Create(ia, si));
    }
  }

  /** Binds the withdraw accounts and reads the amount. */
  method RouteWithdraw(env: Env, ai: AccountIter, ix: seq<byte>) returns (r: Result<Instruction>)
    requires ix != [] && ix[0] == 1 && ai.position == 0
    modifies ai
    ensures r == Decode(env, ai.accounts, ix)
  {
    var withdrawAuthority :- ai.Next();
    var sender :- ai.Next();
    var recipient :- ai.Next();
    var recipientTokens :- ai.Next();
    var metadata :- ai.Next();
    var escrowTokens :- ai.Next();
    var mint :- ai.Next();
    var tokenProgram :- ai.Next();
    var wa := WithdrawAccounts(withdrawAuthority, sender, recipient, recipientTokens, metadata,
                               escrowTokens, mint, tokenProgram);
    if |ix| != 9 {
      return Err(Panic);
    }
    return Ok(Withdraw(wa, LeValue(ix[1..])));
  }

  /** Binds the cancel accounts. */
  method RouteCancel(env: Env, ai: AccountIter, ix: seq<byte>) returns (r: Result<Instruction>)
    requires ix != [] && ix[0] == 2 && ai.position == 0
    modifies ai
    ensures r == Decode(env, ai.accounts, ix)
  {
    var cancelAuthority :- ai.Next();
    var sender :- ai.Next();
    var senderTokens :- ai.Next();
    var recipient :- ai.Next();
    var recipientTokens :- ai.Next();
    var metadata :- ai.Next();
    var escrowTokens :- ai.Next();
    var mint :- ai.Next();
    var tokenProgram :- ai.Next();
    return Ok(Cancel(CancelAccounts(cancelAuthority, sender, senderTokens, recipient,
                                    recipientTokens, metadata, escrowTokens, mint, tokenProgram)));
  }

  /** Binds the transfer_recipient accounts. */
  method RouteTransfer(env: Env, ai: AccountIter, ix: seq<byte>) returns (r: Result<Instruction>)
    requires ix != [] && ix[0] == 3 && ai.position == 0
    modifies ai
    ensures r == Decode(env, ai.accounts, ix)
  {
    var authorizedWallet :- ai.Next();
    var newRecipient :- ai.Next();
    var newRecipientTokens :- ai.Next();
    var metadata :- ai.Next();
    var escrowTokens :- ai.Next();
    var mint :- ai.Next();
    var rent :- ai.Next();
    var tokenProgram :- ai.Next();
    var associatedTokenProgram :- ai.Next();
    var systemProgram :- ai.Next();
    return Ok(TransferRecipient(TransferAccounts(authorizedWallet, newRecipient,
                                                 newRecipientTokens, metadata, escrowTokens,
                                                 mint, rent, tokenProgram,
                                                 associatedTokenProgram, systemProgram)));
  }

  /** Binds the top-up accounts and reads the amount. */
  method RouteTopUp(env: Env, ai: AccountIter, ix: seq<byte>) returns (r: Result<Instruction>)
    requires ix != [] && ix[0] == 4 && ai.position == 0
    modifies ai
    ensures r == Decode(env, ai.accounts, ix)
  {
    var sender :- ai.Next();
    var senderTokens :- ai.Next();
    var metadata :- ai.Next();
    var escrowTokens :- ai.Next();
    var mint :- ai.Next();
    var tokenProgram :- ai.Next();
    var ta := TopUpAccounts(sender, senderTokens, metadata, escrowTokens, mint, tokenProgram);
    if |ix| != 9 {
      return Err(Panic);
    }
    return Ok(TopUp(ta, LeValue(ix[1..])));
  }

  /** process_instruction's decoding half: selects the handler by the first byte, binding
      the accounts from one iterator. */
  method Route(env: Env, accounts: seq<Pubkey>, ix: seq<byte>) returns (r: Result<Instruction>)
    ensures r == Decode(env, accounts, ix)
  {
    if ix == [] {
      return Err(Panic);
    }
    var ai := new AccountIter(accounts);
    var opcode := ix[0];
    if opcode == 0 {
      r := RouteCreate(env, ai, ix);
    } else if opcode == 1 {
      r := RouteWithdraw(env, ai, ix);
    } else if opcode == 2 {
      r := RouteCancel(env, ai, ix);
    } else if opcode == 3 {
      r := RouteTransfer(env, ai, ix);
    } else if opcode == 4 {
      r := RouteTopUp(env, ai, ix);
    } else {
      r := Err(InvalidInstructionData);
    }
  }

  /** What any successful instruction may change: only the record of the stream it names.
      Accounts are neither added nor removed, mints are untouched, and decoded token data
      stays in accounts that hold data. */
  predicate Confined(w: World, w': World, m: Pubkey) {
    w'.accounts.Keys == w.accounts.Keys && w'.mints == w.mints &&
    m in w'.streams && w'.streams - {m} == w.streams - {m} &&
    (WellFormed(w) ==> WellFormed(w'))
  }

  lemma RecordUpdateConfined(s: map<Pubkey, TokenStreamData>, m: Pubkey, v: TokenStreamData)
    ensures m in s[m := v] && s[m := v] - {m} == s - {m}
  {
  }

  /** `r` is exactly what the handler an instruction names gives: create, withdraw, cancel,
      transfer_recipient or topup_stream for instruction bytes 0 to 4. In particular a
      refusal by that handler's checks comes back unchanged, and a success leaves that
      handler's record. */
  predicate RunsHandler(env: Env, w: World, call: Instruction, now: nat, r: Result<World>)
    requires forall k :: k in AccountsOf(call) ==> k in w.accounts
  {
    match call
    case Create(a, terms) =>
      var c := Token.CheckCreate(env, w, a, terms, now);
      r == Token.CreateOutcome(env, w, a, terms, now) &&
      (c.Err? ==> r == Err(c.error)) &&
      (r.Ok? ==> c.Ok? && r.value.streams == w.streams[a.metadata := c.value])
    case Withdraw(a, amount) =>
      var c := Token.CheckWithdraw(env, w, a, amount, now);
      r == Token.WithdrawOutcome(env, w, a, amount, now) &&
      (c.Err? ==> r == Err(c.error)) &&
      (r.Ok? ==> c.Ok? &&
                 var md := w.streams[a.metadata];
                 r.value.streams == w.streams[a.metadata := md.(
                   withdrawnAmount := md.withdrawnAmount + c.value, lastWithdrawnAt := now)])
    case Cancel(a) =>
      var c := Token.CheckCancel(env, w, a, now);
      r == Token.CancelOutcome(env, w, a, now) &&
      (c.Err? ==> r == Err(c.error)) &&
      (r.Ok? ==> c.Ok? &&
                 r.value.streams ==
                   w.streams[a.metadata := Token.Cancelled(w.streams[a.metadata], c.value, now)])
    case TransferRecipient(a) =>
      var c := Token.CheckTransferRecipient(env, w, a);
      r == Token.TransferRecipientOutcome(env, w, a) &&
      (c.Err? ==> r == Err(c.error)) &&
      (r.Ok? ==> c.Ok? &&
                 r.value == w.(streams := w.streams[a.metadata := c.value.(
                   recipient := a.newRecipient, recipientTokens := a.newRecipientTokens)]))
    case TopUp(a, amount) =>
      var c := Token.CheckTopUp(env, w, a, amount, now);
      r == Token.TopUpOutcome(env, w, a, amount, now) &&
      (c.Err? ==> r == Err(c.error)) &&
      (r.Ok? ==> c.Ok? &&
                 ClosableDefined(WithDeposit(c.value, c.value.ix.depositedAmount + amount)) &&
                 r.value.streams == w.streams[a.metadata := Token.ToppedUp(c.value, amount)])
  }

  /** Runs the handler of a decoded instruction at time `now`. */
  method Dispatch(env: Env, w: World, call: Instruction, now: nat) returns (r: Result<World>)
    requires forall k :: k in AccountsOf(call) ==> k in w.accounts
    ensures RunsHandler(env, w, call, now, r)
    ensures r.Ok? ==> Confined(w, r.value, MetadataOf(call))
  {
    match call {
      case Create(a, si) =>
        r := Token.Create(env, w, a, si, now);
        if r.Ok? { RecordUpdateConfined(w.streams, a.metadata, r.value.streams[a.metadata]); }
      case Withdraw(a, amount) =>
        r := Token.Withdraw(env, w, a, amount, now);
        if r.Ok? { RecordUpdateConfined(w.streams, a.metadata, r.value.streams[a.metadata]); }
      case Cancel(a) =>
        r := Token.Cancel(env, w, a, now);
        if r.Ok? { RecordUpdateConfined(w.streams, a.metadata, r.value.streams[a.metadata]); }
      case TransferRecipient(a) =>
        r := Token.TransferRecipient(env, w, a);
        if r.Ok? { RecordUpdateConfined(w.streams, a.metadata, r.value.streams[a.metadata]); }
      case TopUp(a, amount) =>
        r := Token.TopUp(env, w, a, amount, now);
        if r.Ok? { RecordUpdateConfined(w.streams, a.metadata, r.value.streams[a.metadata]); }
    }
  }

  /** process_instruction: decodes the instruction, then runs its handler at time `now`. */
  method ProcessInstruction(env: Env, w: World, accounts: seq<Pubkey>, ix: seq<byte>, now: nat)
    returns (r: Result<World>)
    requires forall k :: k in accounts ==> k in w.accounts
    ensures Decode(env, accounts, ix).Err? ==> r == Err(Decode(env, accounts, ix).error)
    ensures Decode(env, accounts, ix).Ok? ==>
              (forall k :: k in AccountsOf(Decode(env, accounts, ix).value) ==> k in w.accounts) &&
              RunsHandler(env, w, Decode(env, accounts, ix).value, now, r)
    ensures r.Ok? ==> Decode(env, accounts, ix).Ok? &&
                      Confined(w, r.value, MetadataOf(Decode(env, accounts, ix).value))
  {
    var call :- Route(env, accounts, ix);
    assert AccountsOf(call) == accounts[..AccountCount(ix[0])];
    r := Dispatch(env, w, call, now);
  }
}
