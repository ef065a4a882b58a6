/** The five instruction handlers of src/token.rs.

    Each handler takes the ledger as it stands (`World`), the keys of its accounts, its
    arguments, and the clock's `now`, and returns either the error that aborts the
    instruction or the ledger after it. The checks run in the order the program makes them;
    a cross-program call that fails aborts with that call's failure. The stream record is
    the local `metadata` value, updated field by field and then written back. */
module Token {
  import opened Errors
  import opened State
  import opened Base10
  import opened Ledger
  import opened Utils

  /** The longest stream name, in bytes. */
  const MAX_STRING_SIZE: nat := 200

  /** Bytes of a Borsh-serialised record besides the name: six u64 counters, six keys, seven
      u64 and five bool terms, the u64 release rate and the u32 length of the name. */
  const RECORD_FIXED_LEN: nat := 6 * 8 + 6 * 32 + 7 * 8 + 5 + 8 + 4

  function SerializedLen(md: TokenStreamData): (n: nat)
    ensures n == 313 + |md.ix.streamName|
  {
    RECORD_FIXED_LEN + |md.ix.streamName|
  }

  // ----- Sizing the metadata account -----

  /** `n` rounded up to a multiple of 8. */
  function RoundUp8(n: nat): (r: nat)
    ensures r % 8 == 0 && n <= r < n + 8
  {
    if n % 8 == 0 then n else n + (8 - n % 8)
  }

  /** The rounded size is the least multiple of 8 that holds `n` bytes. */
  lemma RoundUp8IsLeast(n: nat, m: nat)
    requires n <= m && m % 8 == 0
    ensures RoundUp8(n) <= m
  {
  }

  /** Grows `len` one byte at a time until it is a multiple of 8. */
  method PaddedSize(len: nat) returns (size: nat)
    ensures size == RoundUp8(len)
    ensures size % 8 == 0 && len <= size
    ensures forall m :: len <= m && m % 8 == 0 ==> size <= m
  {
    size := len;
    while size % 8 > 0
      invariant len <= size <= RoundUp8(len)
      decreases RoundUp8(len) - size
    {
      size := size + 1;
    }
    forall m | len <= m && m % 8 == 0
      ensures size <= m
    {
      RoundUp8IsLeast(len, m);
    }
  }

  // ----- Shared checks -----

  /** The escrow holds token-program data and the metadata account holds this program's. */
  predicate StreamAccountsInitialized(env: Env, w: World, metadata: Pubkey, escrow: Pubkey)
    requires metadata in w.accounts && escrow in w.accounts
  {
    !w.accounts[escrow].DataIsEmpty() && w.accounts[escrow].owner == env.tokenProgramId &&
    !w.accounts[metadata].DataIsEmpty() && w.accounts[metadata].owner == env.programId
  }

  predicate Writable(w: World, k: Pubkey) requires k in w.accounts { w.accounts[k].isWritable }

  predicate Signer(w: World, k: Pubkey) requires k in w.accounts { w.accounts[k].isSigner }

  /** The amount a withdrawal moves: all that is available when zero is asked for. */
  function Requested(amount: nat, available: nat): (requested: nat)
    requires amount <= available
    ensures requested <= available
    ensures amount > 0 ==> requested == amount
    ensures amount == 0 ==> requested == available
  {
    if amount == 0 then available else amount
  }

  /** What the program keeps true of a stream it created: no more withdrawn than deposited,
      an escrow distinct from both parties' token accounts, and, while the escrow exists, an
      escrow balance equal to what is deposited and not yet withdrawn. */
  predicate StreamConsistent(w: World, metadata: Pubkey) {
    metadata in w.streams ==>
      var md := w.streams[metadata];
      md.withdrawnAmount <= md.ix.depositedAmount &&
      md.escrowTokens != md.recipientTokens && md.escrowTokens != md.senderTokens &&
      (md.escrowTokens in w.tokens ==>
         w.tokens[md.escrowTokens].amount == md.ix.depositedAmount - md.withdrawnAmount)
  }

  // ----- create -----

  function InitializeKeys(acc: InitializeAccounts): set<Pubkey> {
    {acc.sender, acc.senderTokens, acc.recipient, acc.recipientTokens, acc.metadata,
     acc.escrowTokens, acc.mint, acc.rent, acc.tokenProgram, acc.associatedTokenProgram,
     acc.systemProgram}
  }

  predicate CreateFresh(w: World, acc: InitializeAccounts)
    requires InitializeKeys(acc) <= w.accounts.Keys
  {
    w.accounts[acc.escrowTokens].DataIsEmpty() && w.accounts[acc.metadata].DataIsEmpty()
  }

  predicate CreateWritable(w: World, acc: InitializeAccounts)
    requires InitializeKeys(acc) <= w.accounts.Keys
  {
    Writable(w, acc.sender) && Writable(w, acc.senderTokens) && Writable(w, acc.recipient) &&
    Writable(w, acc.recipientTokens) && Writable(w, acc.metadata) && Writable(w, acc.escrowTokens)
  }

  predicate CreateAddressesBound(env: Env, acc: InitializeAccounts) {
    acc.systemProgram == env.systemProgramId && acc.tokenProgram == env.tokenProgramId &&
    acc.rent == env.rentSysvarId && acc.escrowTokens == env.escrowAddress(acc.metadata) &&
    acc.recipientTokens == env.associatedTokenAddress(acc.recipient, acc.mint)
  }

  predicate CreateSigned(w: World, acc: InitializeAccounts)
    requires InitializeKeys(acc) <= w.accounts.Keys
  {
    Signer(w, acc.sender) && Signer(w, acc.metadata)
  }

  /** Every check on the accounts of a create passes. */
  predicate CreateAccountsValid(env: Env, w: World, acc: InitializeAccounts)
    requires InitializeKeys(acc) <= w.accounts.Keys
  {
    CreateFresh(w, acc) && CreateWritable(w, acc) && CreateAddressesBound(env, acc) &&
    CreateSigned(w, acc)
  }

  /** The sender's token account and the mint can be read, and hold the same mint. */
  predicate CreateTokensReadable(env: Env, w: World, acc: InitializeAccounts)
    requires InitializeKeys(acc) <= w.accounts.Keys
  {
    UnpackTokenAccount(env, w, acc.senderTokens).Ok? && UnpackMintAccount(w, acc.mint).Ok? &&
    w.tokens[acc.senderTokens].mint == acc.mint
  }

  /** The terms of a create are acceptable at `now`. */
  predicate CreateTermsValid(ix: StreamInstruction, now: nat) {
    DurationSanity(now, ix.startTime, ix.endTime, ix.cliff) && |ix.streamName| <= MAX_STRING_SIZE
  }

  /** The record `new` builds from the accounts and terms of a create. */
  function NewRecord(acc: InitializeAccounts, ix: StreamInstruction, now: nat): (md: TokenStreamData)
    ensures md.ix == ix && md.withdrawnAmount == 0 && md.closableAt == ix.endTime
    ensures md.sender == acc.sender && md.senderTokens == acc.senderTokens
    ensures md.recipient == acc.recipient && md.recipientTokens == acc.recipientTokens
    ensures md.mint == acc.mint && md.escrowTokens == acc.escrowTokens
  {
    New(now, acc.sender, acc.senderTokens, acc.recipient, acc.recipientTokens, acc.mint,
        acc.escrowTokens, ix.startTime, ix.endTime, ix.depositedAmount, ix.totalAmount,
        ix.period, ix.cliff, ix.cliffAmount, ix.cancelableBySender, ix.cancelableByRecipient,
        ix.withdrawalPublic, ix.transferableBySender, ix.transferableByRecipient,
        ix.releaseRate, ix.streamName)
  }

  /** Whether create recomputes the closable time: the stream is partly funded or released
      at a fixed rate. */
  predicate RecomputesClosable(ix: StreamInstruction) {
    ix.depositedAmount < ix.totalAmount || ix.releaseRate > 0
  }

  /** Lamports the sender must hold: rent for the metadata account and the escrow, and for
      the recipient's token account when it has yet to be created. */
  function CreateRent(env: Env, w: World, acc: InitializeAccounts, metadataSize: nat): (rent: nat)
    requires InitializeKeys(acc) <= w.accounts.Keys
    ensures rent == env.minimumBalance(metadataSize) + env.minimumBalance(TOKEN_ACCOUNT_LEN) +
                    (if w.accounts[acc.recipientTokens].DataIsEmpty()
                     then env.minimumBalance(TOKEN_ACCOUNT_LEN) else 0)
  {
    var tokensRent := env.minimumBalance(TOKEN_ACCOUNT_LEN);
    var tokensRent' := if w.accounts[acc.recipientTokens].DataIsEmpty()
                       then tokensRent + env.minimumBalance(TOKEN_ACCOUNT_LEN) else tokensRent;
    env.minimumBalance(metadataSize) + tokensRent'
  }

  /** The checks create makes before it touches the ledger, in the program's order, and the
      record they lead to. */
  function CheckCreate(env: Env, w: World, acc: InitializeAccounts, ix: StreamInstruction,
                       now: nat): (r: Result<TokenStreamData>)
    requires InitializeKeys(acc) <= w.accounts.Keys
    ensures !CreateFresh(w, acc) ==> r == Err(AccountAlreadyInitialized)
    ensures CreateFresh(w, acc) && !CreateWritable(w, acc) ==> r == Err(AccountsNotWritable)
    ensures CreateFresh(w, acc) && CreateWritable(w, acc) && !CreateAddressesBound(env, acc) ==>
              r == Err(InvalidAccountData)
    ensures (CreateFresh(w, acc) && CreateWritable(w, acc) && CreateAddressesBound(env, acc) &&
             !CreateSigned(w, acc)) ==> r == Err(MissingRequiredSignature)
    ensures CreateAccountsValid(env, w, acc) &&
            (UnpackTokenAccount(env, w, acc.senderTokens).Err? || UnpackMintAccount(w, acc.mint).Err?) ==>
              r == Err(InvalidAccountData)
    ensures CreateAccountsValid(env, w, acc) && UnpackTokenAccount(env, w, acc.senderTokens).Ok? &&
            UnpackMintAccount(w, acc.mint).Ok? && w.tokens[acc.senderTokens].mint != acc.mint ==>
              r == Err(MintMismatch)
    ensures (CreateAccountsValid(env, w, acc) && CreateTokensReadable(env, w, acc) &&
             !CreateTermsValid(ix, now)) ==> r == Err(InvalidArgument)
    ensures (CreateAccountsValid(env, w, acc) && CreateTokensReadable(env, w, acc) &&
             CreateTermsValid(ix, now) && RecomputesClosable(ix) &&
             !ClosableDefined(NewRecord(acc, ix, now))) ==> r == Err(Panic)
    ensures r.Ok? <==> CreateAccountsValid(env, w, acc) && CreateTokensReadable(env, w, acc) &&
                       CreateTermsValid(ix, now) &&
                       (RecomputesClosable(ix) ==> ClosableDefined(NewRecord(acc, ix, now)))
    ensures r.Ok? ==> r.value == NewRecord(acc, ix, now).(closableAt :=
              if RecomputesClosable(ix) then Closable(NewRecord(acc, ix, now)) else ix.endTime)
  {
    if !w.accounts[acc.escrowTokens].DataIsEmpty() || !w.accounts[acc.metadata].DataIsEmpty() then
      Err(AccountAlreadyInitialized)
    else if !CreateWritable(w, acc) then Err(AccountsNotWritable)
    else if !CreateAddressesBound(env, acc) then Err(InvalidAccountData)
    else if !Signer(w, acc.sender) || !Signer(w, acc.metadata) then Err(MissingRequiredSignature)
    else
      var senderTokenInfo :- UnpackTokenAccount(env, w, acc.senderTokens);
      var decimals :- UnpackMintAccount(w, acc.mint);
      if senderTokenInfo.mint != acc.mint then Err(MintMismatch)
      else if !DurationSanity(now, ix.startTime, ix.endTime, ix.cliff) then Err(InvalidArgument)
      else if |ix.streamName| > MAX_STRING_SIZE then Err(InvalidArgument)
      else
        var metadata := NewRecord(acc, ix, now);
        if ix.depositedAmount < ix.totalAmount || ix.releaseRate > 0 then
          if !ClosableDefined(metadata) then Err(Panic)
          else Ok(metadata.(closableAt := Closable(metadata)))
        else Ok(metadata)
  }

  /** The first ledger effects of create: the recipient's token account is created when it
      is empty, then the metadata account is created with `metadataSize` bytes, owned by the
      program, and receives the record. */
  function OpenMetadata(env: Env, w: World, acc: InitializeAccounts, metadata: TokenStreamData,
                        metadataSize: nat, metadataRent: nat): (r: Result<World>)
    requires InitializeKeys(acc) <= w.accounts.Keys
    requires metadataSize > 0
    ensures r.Ok? ==> r.value.streams == w.streams[acc.metadata := metadata]
    ensures r.Ok? ==> r.value.accounts.Keys == w.accounts.Keys && r.value.mints == w.mints
    ensures r.Ok? ==> r.value.accounts[acc.metadata].owner == env.programId &&
                      r.value.accounts[acc.metadata].dataLen == metadataSize
    ensures r.Ok? ==> !r.value.accounts[acc.recipientTokens].DataIsEmpty()
    ensures r.Ok? ==>
              r.value.tokens ==
                (if w.accounts[acc.recipientTokens].DataIsEmpty()
                 then w.tokens[acc.recipientTokens := TokenAccount(acc.mint, acc.recipient, 0)]
                 else w.tokens)
    ensures r.Ok? && WellFormed(w) ==> WellFormed(r.value)
  {
    var created :- if w.accounts[acc.recipientTokens].DataIsEmpty()
                   then CreateAssociatedTokenAccount(env, w, acc.sender, acc.recipient, acc.mint,
                                                     acc.recipientTokens)
                   else Ok(w);
    var world :- CreateAccount(created, acc.sender, acc.metadata, metadataRent, metadataSize,
                               env.programId);
    Ok(world.(streams := world.streams[acc.metadata := metadata]))
  }

  /** The last ledger effects of create: the escrow is created with room for a token
      account, initialised as a token account of the mint that it owns itself, and receives
      `deposited` tokens from the sender's token account. */
  function OpenEscrow(env: Env, w: World, acc: InitializeAccounts, deposited: nat)
    : (r: Result<World>)
    requires InitializeKeys(acc) <= w.accounts.Keys
    requires acc.senderTokens in w.tokens
    ensures r.Ok? ==> w.accounts[acc.escrowTokens].DataIsEmpty() && acc.escrowTokens !in w.tokens
    ensures r.Ok? ==> r.value.streams == w.streams && r.value.mints == w.mints &&
                      r.value.accounts.Keys == w.accounts.Keys
    ensures r.Ok? ==> forall k :: k in w.accounts && k != acc.escrowTokens ==>
                        r.value.accounts[k].dataLen == w.accounts[k].dataLen &&
                        r.value.accounts[k].owner == w.accounts[k].owner
    ensures r.Ok? ==> w.tokens[acc.senderTokens].amount >= deposited
    ensures r.Ok? ==>
              r.value.tokens ==
                w.tokens[acc.escrowTokens := TokenAccount(acc.mint, acc.escrowTokens, deposited)]
                        [acc.senderTokens := w.tokens[acc.senderTokens].(
                           amount := w.tokens[acc.senderTokens].amount - deposited)]
    ensures r.Ok? && WellFormed(w) ==> WellFormed(r.value)
  {
    var created :- CreateAccount(w, acc.sender, acc.escrowTokens,
                                 env.minimumBalance(TOKEN_ACCOUNT_LEN), TOKEN_ACCOUNT_LEN,
                                 env.tokenProgramId);
    var initialized :- InitializeAccount(env, created, acc.escrowTokens, acc.mint, acc.escrowTokens);
    Transfer(initialized, acc.senderTokens, acc.escrowTokens, acc.sender, deposited)
  }

  /** The ledger effects of create, in the program's order. */
  function OpenStream(env: Env, w: World, acc: InitializeAccounts, metadata: TokenStreamData,
                      metadataSize: nat, metadataRent: nat): (r: Result<World>)
    requires InitializeKeys(acc) <= w.accounts.Keys
    requires metadataSize > 0 && acc.senderTokens in w.tokens
    ensures r.Ok? ==> r.value.streams == w.streams[acc.metadata := metadata]
    ensures r.Ok? ==> r.value.accounts.Keys == w.accounts.Keys && r.value.mints == w.mints
    ensures r.Ok? ==> r.value.accounts[acc.metadata].owner == env.programId &&
                      r.value.accounts[acc.metadata].dataLen == metadataSize
    ensures r.Ok? ==> acc.escrowTokens != acc.senderTokens && acc.escrowTokens != acc.recipientTokens
    ensures r.Ok? ==> acc.escrowTokens in r.value.tokens &&
                      r.value.tokens[acc.escrowTokens] ==
                        TokenAccount(acc.mint, acc.escrowTokens, metadata.ix.depositedAmount)
    ensures r.Ok? && WellFormed(w) ==>
              acc.senderTokens in r.value.tokens &&
              r.value.tokens[acc.senderTokens].amount + metadata.ix.depositedAmount ==
                w.tokens[acc.senderTokens].amount
    ensures r.Ok? && WellFormed(w) && w.accounts[acc.recipientTokens].DataIsEmpty() ==>
              acc.recipientTokens in r.value.tokens &&
              r.value.tokens[acc.recipientTokens] == TokenAccount(acc.mint, acc.recipient, 0)
    ensures r.Ok? && WellFormed(w) ==> WellFormed(r.value)
  {
    var world :- OpenMetadata(env, w, acc, metadata, metadataSize, metadataRent);
    assert acc.senderTokens in world.tokens;
    assert WellFormed(w) ==> world.tokens[acc.senderTokens] == w.tokens[acc.senderTokens];
    OpenEscrow(env, world, acc, metadata.ix.depositedAmount)
  }

  /** What create gives: the refusal of its checks, a rent sum beyond u64, a sender short of
      lamports or tokens, or else the ledger OpenStream leaves. */
  function CreateOutcome(env: Env, w: World, acc: InitializeAccounts, ix: StreamInstruction,
                         now: nat): Result<World>
    requires InitializeKeys(acc) <= w.accounts.Keys
  {
    var metadata :- CheckCreate(env, w, acc, ix, now);
    var size := RoundUp8(SerializedLen(metadata));
    var rent := CreateRent(env, w, acc, size);
    if !IsU64(rent) then Err(Panic)
    else if w.accounts[acc.sender].lamports < rent then Err(InsufficientFunds)
    else if w.tokens[acc.senderTokens].amount < ix.depositedAmount then Err(InsufficientFunds)
    else OpenStream(env, w, acc, metadata, size, env.minimumBalance(size))
  }

  /** create: opens a stream. After the checks of CheckCreate, the sender must afford the
      rent and hold the deposit; OpenStream then makes the ledger changes. */
  method Create(env: Env, w: World, acc: InitializeAccounts, ix: StreamInstruction, now: nat)
    returns (r: Result<World>)
    requires InitializeKeys(acc) <= w.accounts.Keys
    ensures r == CreateOutcome(env, w, acc, ix, now)
    ensures CheckCreate(env, w, acc, ix, now).Err? ==>
              r == Err(CheckCreate(env, w, acc, ix, now).error)
    ensures CheckCreate(env, w, acc, ix, now).Ok? ==>
              var size := RoundUp8(SerializedLen(CheckCreate(env, w, acc, ix, now).value));
              var rent := CreateRent(env, w, acc, size);
              if !IsU64(rent) then r == Err(Panic)
              else if w.accounts[acc.sender].lamports < rent ||
                      w.tokens[acc.senderTokens].amount < ix.depositedAmount then
                r == Err(InsufficientFunds)
              else
                r == OpenStream(env, w, acc, CheckCreate(env, w, acc, ix, now).value, size,
                                env.minimumBalance(size))
    ensures r.Ok? ==> CheckCreate(env, w, acc, ix, now).Ok? &&
                      w.accounts[acc.sender].lamports >=
                        CreateRent(env, w, acc, RoundUp8(SerializedLen(CheckCreate(env, w, acc, ix, now).value))) &&
                      w.tokens[acc.senderTokens].amount >= ix.depositedAmount
    // the record
    ensures r.Ok? ==> r.value.streams == w.streams[acc.metadata := CheckCreate(env, w, acc, ix, now).value]
    // the accounts
    ensures r.Ok? ==> r.value.accounts.Keys == w.accounts.Keys && r.value.mints == w.mints
    ensures r.Ok? ==> r.value.accounts[acc.metadata].owner == env.programId &&
                      r.value.accounts[acc.metadata].dataLen ==
                        RoundUp8(SerializedLen(r.value.streams[acc.metadata]))
    ensures r.Ok? ==> acc.escrowTokens in r.value.tokens &&
                      r.value.tokens[acc.escrowTokens] ==
                        TokenAccount(acc.mint, acc.escrowTokens, ix.depositedAmount)
    ensures r.Ok? ==> acc.senderTokens in w.tokens
    ensures r.Ok? && WellFormed(w) ==>
              acc.senderTokens in r.value.tokens &&
              r.value.tokens[acc.senderTokens].amount ==
                w.tokens[acc.senderTokens].amount - ix.depositedAmount
    ensures r.Ok? && WellFormed(w) && w.accounts[acc.recipientTokens].DataIsEmpty() ==>
              acc.recipientTokens in r.value.tokens &&
              r.value.tokens[acc.recipientTokens] == TokenAccount(acc.mint, acc.recipient, 0)
    ensures r.Ok? && WellFormed(w) ==> WellFormed(r.value) && StreamConsistent(r.value, acc.metadata)
  {
    var check := CheckCreate(env, w, acc, ix, now);
    if check.Err? {
      return Err(check.error);
    }
    var metadata := check.value;
    var senderTokenInfo := w.tokens[acc.senderTokens];

    var metadataStructSize := PaddedSize(SerializedLen(metadata));
    var metadataRent := env.minimumBalance(metadataStructSize);
    var tokensRent := env.minimumBalance(TOKEN_ACCOUNT_LEN);
    if w.accounts[acc.recipientTokens].DataIsEmpty() {
      tokensRent := tokensRent + env.minimumBalance(TOKEN_ACCOUNT_LEN);
    }
    if !IsU64(metadataRent + tokensRent) {
      return Err(Panic);
    }
    if w.accounts[acc.sender].lamports < metadataRent + tokensRent {
      return Err(InsufficientFunds);
    }
    if senderTokenInfo.amount < ix.depositedAmount {
      return Err(InsufficientFunds);
    }
    return OpenStream(env, w, acc, metadata, metadataStructSize, metadataRent);
  }

  // ----- withdraw -----

  function WithdrawKeys(acc: WithdrawAccounts): set<Pubkey> {
    {acc.withdrawAuthority, acc.sender, acc.recipient, acc.recipientTokens, acc.metadata,
     acc.escrowTokens, acc.mint, acc.tokenProgram}
  }

  predicate WithdrawWritable(w: World, acc: WithdrawAccounts)
    requires WithdrawKeys(acc) <= w.accounts.Keys
  {
    Writable(w, acc.recipient) && Writable(w, acc.recipientTokens) && Writable(w, acc.metadata) &&
    Writable(w, acc.escrowTokens)
  }

  /** The program ids and derived addresses are the expected ones, and the caller is the
      recipient named in the accounts. */
  predicate WithdrawAddressesBound(env: Env, acc: WithdrawAccounts) {
    acc.tokenProgram == env.tokenProgramId && acc.escrowTokens == env.escrowAddress(acc.metadata) &&
    acc.recipientTokens == env.associatedTokenAddress(acc.recipient, acc.mint) &&
    acc.withdrawAuthority == acc.recipient
  }

  predicate WithdrawAccountsValid(env: Env, w: World, acc: WithdrawAccounts)
    requires WithdrawKeys(acc) <= w.accounts.Keys
  {
    StreamAccountsInitialized(env, w, acc.metadata, acc.escrowTokens) &&
    WithdrawWritable(w, acc) && WithdrawAddressesBound(env, acc) && Signer(w, acc.withdrawAuthority)
  }

  /** The accounts given are the ones the record names. */
  predicate WithdrawRecordMatches(acc: WithdrawAccounts, md: TokenStreamData) {
    acc.recipient == md.recipient && acc.recipientTokens == md.recipientTokens &&
    acc.mint == md.mint && acc.escrowTokens == md.escrowTokens
  }

  /** The checks withdraw makes before moving tokens, in the program's order, and the amount
      they let it move. */
  function CheckWithdraw(env: Env, w: World, acc: WithdrawAccounts, amount: nat, now: nat)
    : (r: Result<nat>)
    requires WithdrawKeys(acc) <= w.accounts.Keys
    ensures !StreamAccountsInitialized(env, w, acc.metadata, acc.escrowTokens) ==>
              r == Err(UninitializedAccount)
    ensures StreamAccountsInitialized(env, w, acc.metadata, acc.escrowTokens) &&
            !(WithdrawWritable(w, acc) && WithdrawAddressesBound(env, acc)) ==>
              r == Err(InvalidAccountData)
    ensures (StreamAccountsInitialized(env, w, acc.metadata, acc.escrowTokens) &&
             WithdrawWritable(w, acc) && WithdrawAddressesBound(env, acc) &&
             !Signer(w, acc.withdrawAuthority)) ==> r == Err(MissingRequiredSignature)
    ensures WithdrawAccountsValid(env, w, acc) && acc.metadata !in w.streams ==>
              r == Err(InvalidMetadata)
    ensures WithdrawAccountsValid(env, w, acc) && acc.metadata in w.streams &&
            (acc.mint !in w.mints || !WithdrawRecordMatches(acc, w.streams[acc.metadata])) ==>
              r == Err(InvalidAccountData)
    ensures (WithdrawAccountsValid(env, w, acc) && acc.metadata in w.streams &&
             acc.mint in w.mints && WithdrawRecordMatches(acc, w.streams[acc.metadata]) &&
             !AvailableDefined(w.streams[acc.metadata], now)) ==> r == Err(Panic)
    ensures (WithdrawAccountsValid(env, w, acc) && acc.metadata in w.streams &&
             acc.mint in w.mints && WithdrawRecordMatches(acc, w.streams[acc.metadata]) &&
             AvailableDefined(w.streams[acc.metadata], now) &&
             amount > Available(w.streams[acc.metadata], now)) ==> r == Err(InvalidArgument)
    ensures r.Ok? <==> WithdrawAccountsValid(env, w, acc) && acc.metadata in w.streams &&
                       acc.mint in w.mints && WithdrawRecordMatches(acc, w.streams[acc.metadata]) &&
                       AvailableDefined(w.streams[acc.metadata], now) &&
                       amount <= Available(w.streams[acc.metadata], now)
    ensures r.Ok? ==> r.value == Requested(amount, Available(w.streams[acc.metadata], now))
  {
    if !StreamAccountsInitialized(env, w, acc.metadata, acc.escrowTokens) then Err(UninitializedAccount)
    else if !WithdrawWritable(w, acc) then Err(InvalidAccountData)
    else if !WithdrawAddressesBound(env, acc) then Err(InvalidAccountData)
    else if !Signer(w, acc.withdrawAuthority) then Err(MissingRequiredSignature)
    else if acc.metadata !in w.streams then Err(InvalidMetadata)
    else
      var metadata := w.streams[acc.metadata];
      var decimals :- UnpackMintAccount(w, acc.mint);
      if !WithdrawRecordMatches(acc, metadata) then Err(InvalidAccountData)
      else if !AvailableDefined(metadata, now) then Err(Panic)
      else
        var available := Available(metadata, now);
        if amount > available then Err(InvalidArgument)
        else Ok(if amount == 0 then available else amount)
  }

  /** What withdraw gives: the refusal of its checks or of the payment to the recipient, a
      fault on the u64 total, the refusal to close the escrow, or else the ledger with the
      record updated (and the escrow closed once everything deposited is withdrawn). */
  function WithdrawOutcome(env: Env, w: World, acc: WithdrawAccounts, amount: nat, now: nat)
    : Result<World>
    requires WithdrawKeys(acc) <= w.accounts.Keys
  {
    var requested :- CheckWithdraw(env, w, acc, amount, now);
    var md := w.streams[acc.metadata];
    var paid :- Transfer(w, acc.escrowTokens, acc.recipientTokens, acc.escrowTokens, requested);
    var total := md.withdrawnAmount + requested;
    if !IsU64(total) then Err(Panic)
    else
      var record := md.(withdrawnAmount := total, lastWithdrawnAt := now);
      var world := paid.(streams := paid.streams[acc.metadata := record]);
      if total == md.ix.depositedAmount then
        if !Writable(w, acc.sender) || acc.sender != md.sender then Err(InvalidAccountData)
        else CloseAccount(env, world, acc.escrowTokens, acc.sender, acc.escrowTokens)
      else if total > md.ix.depositedAmount then Err(Panic)
      else Ok(world)
  }

  /** withdraw: the recipient takes `amount` (everything available when `amount` is zero)
      from the escrow. Only two fields of the record change: the withdrawn amount grows by
      what was taken and the last-withdrawal time becomes `now`. Once everything deposited
      has been withdrawn, the escrow is closed and its rent goes to the sender, who must then
      be the record's sender and writable. */
  method Withdraw(env: Env, w: World, acc: WithdrawAccounts, amount: nat, now: nat)
    returns (r: Result<World>)
    requires WithdrawKeys(acc) <= w.accounts.Keys
    ensures r == WithdrawOutcome(env, w, acc, amount, now)
    ensures CheckWithdraw(env, w, acc, amount, now).Err? ==>
              r == Err(CheckWithdraw(env, w, acc, amount, now).error)
    ensures CheckWithdraw(env, w, acc, amount, now).Ok? &&
            Transfer(w, acc.escrowTokens, acc.recipientTokens, acc.escrowTokens,
                     CheckWithdraw(env, w, acc, amount, now).value).Err? ==>
              r == Err(Transfer(w, acc.escrowTokens, acc.recipientTokens, acc.escrowTokens,
                                CheckWithdraw(env, w, acc, amount, now).value).error)
    ensures CheckWithdraw(env, w, acc, amount, now).Ok? ==>
              var md := w.streams[acc.metadata];
              var requested := CheckWithdraw(env, w, acc, amount, now).value;
              var paid := Transfer(w, acc.escrowTokens, acc.recipientTokens, acc.escrowTokens, requested);
              var total := md.withdrawnAmount + requested;
              var record := md.(withdrawnAmount := total, lastWithdrawnAt := now);
              paid.Ok? ==>
                if !IsU64(total) then r == Err(Panic)
                else if total == md.ix.depositedAmount then
                  if !Writable(w, acc.sender) || acc.sender != md.sender then r == Err(InvalidAccountData)
                  else
                    var closed := CloseAccount(env, paid.value, acc.escrowTokens, acc.sender, acc.escrowTokens);
                    r == if closed.Ok? then Ok(closed.value.(streams := w.streams[acc.metadata := record]))
                         else Err(closed.error)
                else if total > md.ix.depositedAmount then r == Err(Panic)
                else r == Ok(paid.value.(streams := w.streams[acc.metadata := record]))
    ensures r.Ok? ==> CheckWithdraw(env, w, acc, amount, now).Ok?
    ensures r.Ok? ==>
              var md := w.streams[acc.metadata];
              var requested := CheckWithdraw(env, w, acc, amount, now).value;
              md.withdrawnAmount + requested <= md.ix.depositedAmount &&
              r.value.streams == w.streams[acc.metadata := md.(
                withdrawnAmount := md.withdrawnAmount + requested, lastWithdrawnAt := now)]
    ensures r.Ok? ==>
              var md := w.streams[acc.metadata];
              var requested := CheckWithdraw(env, w, acc, amount, now).value;
              (acc.escrowTokens !in r.value.tokens <==>
                 md.withdrawnAmount + requested == md.ix.depositedAmount) &&
              (md.withdrawnAmount + requested == md.ix.depositedAmount ==>
                 acc.sender == md.sender && Writable(w, acc.sender) &&
                 acc.sender != acc.escrowTokens &&
                 r.value.accounts[acc.sender].lamports ==
                   w.accounts[acc.sender].lamports + w.accounts[acc.escrowTokens].lamports &&
                 r.value.accounts[acc.escrowTokens].lamports == 0)
    ensures r.Ok? && acc.escrowTokens != acc.recipientTokens ==>
              var requested := CheckWithdraw(env, w, acc, amount, now).value;
              acc.recipientTokens in w.tokens && acc.recipientTokens in r.value.tokens &&
              r.value.tokens[acc.recipientTokens].amount == w.tokens[acc.recipientTokens].amount + requested
    ensures r.Ok? ==> r.value.accounts.Keys == w.accounts.Keys && r.value.mints == w.mints
    ensures r.Ok? && WellFormed(w) ==> WellFormed(r.value)
    ensures r.Ok? && StreamConsistent(w, acc.metadata) ==> StreamConsistent(r.value, acc.metadata)
  {
    var requested :- CheckWithdraw(env, w, acc, amount, now);
    var metadata := w.streams[acc.metadata];

    var world :- Transfer(w, acc.escrowTokens, acc.recipientTokens, acc.escrowTokens, requested);

    if !IsU64(metadata.withdrawnAmount + requested) {
      return Err(Panic);
    }
    metadata := metadata.(withdrawnAmount := metadata.withdrawnAmount + requested);
    metadata := metadata.(lastWithdrawnAt := now);
    world := world.(streams := world.streams[acc.metadata := metadata]);

    if metadata.withdrawnAmount == metadata.ix.depositedAmount {
      if !Writable(w, acc.sender) || acc.sender != metadata.sender {
        return Err(InvalidAccountData);
      }
      world :- CloseAccount(env, world, acc.escrowTokens, acc.sender, acc.escrowTokens);
    }

    // the "Remaining" log line subtracts the withdrawn amount from the deposit
    if metadata.withdrawnAmount > metadata.ix.depositedAmount {
      return Err(Panic);
    }
    return Ok(world);
  }

  // ----- cancel -----

  function CancelKeys(acc: CancelAccounts): set<Pubkey> {
    {acc.cancelAuthority, acc.sender, acc.senderTokens, acc.recipient, acc.recipientTokens,
     acc.metadata, acc.escrowTokens, acc.mint, acc.tokenProgram}
  }

  predicate CancelWritable(w: World, acc: CancelAccounts)
    requires CancelKeys(acc) <= w.accounts.Keys
  {
    Writable(w, acc.sender) && Writable(w, acc.senderTokens) && Writable(w, acc.recipient) &&
    Writable(w, acc.recipientTokens) && Writable(w, acc.metadata) && Writable(w, acc.escrowTokens)
  }

  predicate CancelAddressesBound(env: Env, acc: CancelAccounts) {
    acc.tokenProgram == env.tokenProgramId && acc.escrowTokens == env.escrowAddress(acc.metadata) &&
    acc.recipientTokens == env.associatedTokenAddress(acc.recipient, acc.mint)
  }

  /** The accounts pass the checks made before the record is read, and the record and the
      mint can be read. */
  predicate CancelReadable(env: Env, w: World, acc: CancelAccounts)
    requires CancelKeys(acc) <= w.accounts.Keys
  {
    StreamAccountsInitialized(env, w, acc.metadata, acc.escrowTokens) && CancelWritable(w, acc) &&
    CancelAddressesBound(env, acc) && acc.metadata in w.streams && acc.mint in w.mints
  }

  /** Before the stream is closable only the sender, signing, may cancel it; afterwards anyone
      may. The record's cancelable flags play no part. */
  predicate CancelAuthorized(w: World, acc: CancelAccounts, md: TokenStreamData, now: nat)
    requires CancelKeys(acc) <= w.accounts.Keys
  {
    now >= md.closableAt || (acc.cancelAuthority == acc.sender && Signer(w, acc.cancelAuthority))
  }

  predicate CancelRecordMatches(acc: CancelAccounts, md: TokenStreamData) {
    acc.sender == md.sender && acc.senderTokens == md.senderTokens &&
    acc.recipient == md.recipient && acc.recipientTokens == md.recipientTokens &&
    acc.mint == md.mint && acc.escrowTokens == md.escrowTokens
  }

  /** The checks cancel makes before moving tokens, in the program's order, and the amount
      still owed to the recipient. */
  function CheckCancel(env: Env, w: World, acc: CancelAccounts, now: nat): (r: Result<nat>)
    requires CancelKeys(acc) <= w.accounts.Keys
    ensures !StreamAccountsInitialized(env, w, acc.metadata, acc.escrowTokens) ==>
              r == Err(UninitializedAccount)
    ensures StreamAccountsInitialized(env, w, acc.metadata, acc.escrowTokens) &&
            !(CancelWritable(w, acc) && CancelAddressesBound(env, acc)) ==>
              r == Err(InvalidAccountData)
    ensures (StreamAccountsInitialized(env, w, acc.metadata, acc.escrowTokens) &&
             CancelWritable(w, acc) && CancelAddressesBound(env, acc) &&
             acc.metadata !in w.streams) ==> r == Err(InvalidMetadata)
    ensures (StreamAccountsInitialized(env, w, acc.metadata, acc.escrowTokens) &&
             CancelWritable(w, acc) && CancelAddressesBound(env, acc) &&
             acc.metadata in w.streams && acc.mint !in w.mints) ==> r == Err(InvalidAccountData)
    ensures CancelReadable(env, w, acc) && now < w.streams[acc.metadata].closableAt ==>
              (acc.cancelAuthority != acc.sender ==> r == Err(InvalidAccountData)) &&
              (acc.cancelAuthority == acc.sender && !Signer(w, acc.cancelAuthority) ==>
                 r == Err(MissingRequiredSignature))
    ensures (CancelReadable(env, w, acc) && CancelAuthorized(w, acc, w.streams[acc.metadata], now) &&
             !CancelRecordMatches(acc, w.streams[acc.metadata])) ==> r == Err(InvalidAccountData)
    ensures (CancelReadable(env, w, acc) && CancelAuthorized(w, acc, w.streams[acc.metadata], now) &&
             CancelRecordMatches(acc, w.streams[acc.metadata]) &&
             !AvailableDefined(w.streams[acc.metadata], now)) ==> r == Err(Panic)
    ensures r.Ok? <==> CancelReadable(env, w, acc) &&
                       CancelAuthorized(w, acc, w.streams[acc.metadata], now) &&
                       CancelRecordMatches(acc, w.streams[acc.metadata]) &&
                       AvailableDefined(w.streams[acc.metadata], now)
    ensures r.Ok? ==> r.value == Available(w.streams[acc.metadata], now)
  {
    if !StreamAccountsInitialized(env, w, acc.metadata, acc.escrowTokens) then Err(UninitializedAccount)
    else if !CancelWritable(w, acc) then Err(InvalidAccountData)
    else if !CancelAddressesBound(env, acc) then Err(InvalidAccountData)
    else if acc.metadata !in w.streams then Err(InvalidMetadata)
    else
      var metadata := w.streams[acc.metadata];
      var decimals :- UnpackMintAccount(w, acc.mint);
      if now < metadata.closableAt && acc.cancelAuthority != acc.sender then Err(InvalidAccountData)
      else if now < metadata.closableAt && !Signer(w, acc.cancelAuthority) then
        Err(MissingRequiredSignature)
      else if !CancelRecordMatches(acc, metadata) then Err(InvalidAccountData)
      else if !AvailableDefined(metadata, now) then Err(Panic)
      else Ok(Available(metadata, now))
  }

  /** The record as cancel leaves it: the recipient's share counted as withdrawn and, when
      cancelled before the stream was closable, the cancel time stamped. */
  function Cancelled(md: TokenStreamData, available: nat, now: nat): (c: TokenStreamData)
    ensures c.withdrawnAmount == md.withdrawnAmount + available
    ensures now < md.closableAt ==> c.canceledAt == now && c.lastWithdrawnAt == now
    ensures now >= md.closableAt ==> c == md.(withdrawnAmount := md.withdrawnAmount + available)
    ensures c.ix == md.ix && c.sender == md.sender && c.recipient == md.recipient &&
            c.escrowTokens == md.escrowTokens && c.senderTokens == md.senderTokens &&
            c.recipientTokens == md.recipientTokens && c.mint == md.mint &&
            c.closableAt == md.closableAt && c.createdAt == md.createdAt
    ensures c.magic == md.magic
  {
    var c := md.(withdrawnAmount := md.withdrawnAmount + available);
    if now < md.closableAt then c.(lastWithdrawnAt := now, canceledAt := now) else c
  }

  /** What cancel gives: the refusal of its checks, of the escrow read or of a transfer, a
      fault on the u64 total, the refusal to close the escrow, or else the ledger with the
      escrow paid out and closed and the record cancelled. */
  function CancelOutcome(env: Env, w: World, acc: CancelAccounts, now: nat): Result<World>
    requires CancelKeys(acc) <= w.accounts.Keys
  {
    var available :- CheckCancel(env, w, acc, now);
    var md := w.streams[acc.metadata];
    var escrowInfo :- UnpackTokenAccount(env, w, acc.escrowTokens);
    var paid :- Transfer(w, acc.escrowTokens, acc.recipientTokens, acc.escrowTokens, available);
    var total := md.withdrawnAmount + available;
    if !IsU64(total) || total > md.ix.depositedAmount then Err(Panic)
    else
      var remains := md.ix.depositedAmount - total;
      var refunded :- if remains > 0
                      then Transfer(paid, acc.escrowTokens, acc.senderTokens, acc.escrowTokens, remains)
                      else Ok(paid);
      var closed :- CloseAccount(env, refunded, acc.escrowTokens, acc.sender, acc.escrowTokens);
      Ok(closed.(streams := closed.streams[acc.metadata := Cancelled(md, available, now)]))
  }

  /** cancel: the recipient gets what is available, the sender gets the rest of the deposit
      and the escrow's rent, and the escrow is closed. */
  method Cancel(env: Env, w: World, acc: CancelAccounts, now: nat) returns (r: Result<World>)
    requires CancelKeys(acc) <= w.accounts.Keys
    ensures r == CancelOutcome(env, w, acc, now)
    ensures CheckCancel(env, w, acc, now).Err? ==> r == Err(CheckCancel(env, w, acc, now).error)
    ensures CheckCancel(env, w, acc, now).Ok? ==>
              var md := w.streams[acc.metadata];
              var available := CheckCancel(env, w, acc, now).value;
              var total := md.withdrawnAmount + available;
              if acc.escrowTokens !in w.tokens then r == Err(InvalidAccountData)
              else
                var paid := Transfer(w, acc.escrowTokens, acc.recipientTokens, acc.escrowTokens, available);
                if paid.Err? then r == Err(paid.error)
                else if !IsU64(total) || total > md.ix.depositedAmount then r == Err(Panic)
                else
                  var remains := md.ix.depositedAmount - total;
                  var refunded := if remains > 0
                                  then Transfer(paid.value, acc.escrowTokens, acc.senderTokens,
                                                acc.escrowTokens, remains)
                                  else paid;
                  if refunded.Err? then r == Err(refunded.error)
                  else
                    var closed := CloseAccount(env, refunded.value, acc.escrowTokens, acc.sender,
                                               acc.escrowTokens);
                    r == if closed.Ok?
                         then Ok(closed.value.(streams := w.streams[acc.metadata :=
                                                 Cancelled(md, available, now)]))
                         else Err(closed.error)
    ensures r.Ok? ==> CheckCancel(env, w, acc, now).Ok?
    ensures r.Ok? ==>
              var md := w.streams[acc.metadata];
              var available := CheckCancel(env, w, acc, now).value;
              md.withdrawnAmount + available <= md.ix.depositedAmount &&
              r.value.streams == w.streams[acc.metadata := Cancelled(md, available, now)]
    ensures r.Ok? && now < w.streams[acc.metadata].closableAt ==>
              acc.cancelAuthority == w.streams[acc.metadata].sender && Signer(w, acc.cancelAuthority)
    ensures r.Ok? ==> r.value.accounts.Keys == w.accounts.Keys && r.value.mints == w.mints
    ensures r.Ok? ==>
              acc.escrowTokens in w.tokens && acc.escrowTokens !in r.value.tokens &&
              acc.sender != acc.escrowTokens &&
              r.value.accounts[acc.escrowTokens].DataIsEmpty() &&
              r.value.accounts[acc.escrowTokens].lamports == 0 &&
              r.value.accounts[acc.sender].lamports ==
                w.accounts[acc.sender].lamports + w.accounts[acc.escrowTokens].lamports
    ensures r.Ok? && acc.escrowTokens != acc.recipientTokens &&
            acc.escrowTokens != acc.senderTokens && acc.recipientTokens != acc.senderTokens ==>
              var md := w.streams[acc.metadata];
              var available := CheckCancel(env, w, acc, now).value;
              var remains := md.ix.depositedAmount - (md.withdrawnAmount + available);
              acc.recipientTokens in w.tokens && acc.recipientTokens in r.value.tokens &&
              w.tokens[acc.escrowTokens].amount == available + remains &&
              r.value.tokens[acc.recipientTokens].amount ==
                w.tokens[acc.recipientTokens].amount + available &&
              (remains > 0 ==> acc.senderTokens in w.tokens) &&
              (acc.senderTokens in w.tokens ==>
                 acc.senderTokens in r.value.tokens &&
                 r.value.tokens[acc.senderTokens].amount == w.tokens[acc.senderTokens].amount + remains)
    ensures r.Ok? && WellFormed(w) ==> WellFormed(r.value)
    ensures r.Ok? && StreamConsistent(w, acc.metadata) ==> StreamConsistent(r.value, acc.metadata)
  {
    var available :- CheckCancel(env, w, acc, now);
    var metadata := w.streams[acc.metadata];

    var escrowInfo :- UnpackTokenAccount(env, w, acc.escrowTokens);
    var world :- Transfer(w, acc.escrowTokens, acc.recipientTokens, acc.escrowTokens, available);
    // the escrow is read again here; a successful transfer leaves it a token account of the
    // token program, so that read cannot fail

    if !IsU64(metadata.withdrawnAmount + available) {
      return Err(Panic);
    }
    if metadata.withdrawnAmount + available > metadata.ix.depositedAmount {
      return Err(Panic);
    }
    var remains := metadata.ix.depositedAmount - (metadata.withdrawnAmount + available);
    if remains > 0 {
      world :- Transfer(world, acc.escrowTokens, acc.senderTokens, acc.escrowTokens, remains);
    }

    world :- CloseAccount(env, world, acc.escrowTokens, acc.sender, acc.escrowTokens);

    world := world.(streams := world.streams[acc.metadata := Cancelled(metadata, available, now)]);
    return Ok(world);
  }

  // ----- transfer_recipient -----

  function TransferKeys(acc: TransferAccounts): set<Pubkey> {
    {acc.authorizedWallet, acc.newRecipient, acc.newRecipientTokens, acc.metadata,
     acc.escrowTokens, acc.mint, acc.rent, acc.tokenProgram, acc.associatedTokenProgram,
     acc.systemProgram}
  }

  predicate TransferWritable(w: World, acc: TransferAccounts)
    requires TransferKeys(acc) <= w.accounts.Keys
  {
    Writable(w, acc.metadata) && Writable(w, acc.authorizedWallet) &&
    Writable(w, acc.newRecipientTokens)
  }

  /** The wallet is allowed by one of the record's two transfer flags. */
  predicate TransferAuthorized(acc: TransferAccounts, md: TokenStreamData) {
    (md.ix.transferableByRecipient && md.recipient == acc.authorizedWallet) ||
    (md.ix.transferableBySender && md.sender == acc.authorizedWallet)
  }

  /** The accounts are the ones the record and the derivations name. The wallet must be the
      current recipient, whichever flag authorised it. */
  predicate TransferAddressesBound(env: Env, acc: TransferAccounts, md: TokenStreamData) {
    acc.newRecipientTokens == env.associatedTokenAddress(acc.newRecipient, acc.mint) &&
    acc.mint == md.mint && acc.authorizedWallet == md.recipient &&
    acc.escrowTokens == md.escrowTokens && acc.escrowTokens == env.escrowAddress(acc.metadata) &&
    acc.tokenProgram == env.tokenProgramId && acc.systemProgram == env.systemProgramId &&
    acc.rent == env.rentSysvarId
  }

  /** The checks transfer_recipient makes, in the program's order, and the record they read. */
  function CheckTransferRecipient(env: Env, w: World, acc: TransferAccounts)
    : (r: Result<TokenStreamData>)
    requires TransferKeys(acc) <= w.accounts.Keys
    ensures !StreamAccountsInitialized(env, w, acc.metadata, acc.escrowTokens) ==>
              r == Err(UninitializedAccount)
    ensures (StreamAccountsInitialized(env, w, acc.metadata, acc.escrowTokens) &&
             !Signer(w, acc.authorizedWallet)) ==> r == Err(MissingRequiredSignature)
    ensures (StreamAccountsInitialized(env, w, acc.metadata, acc.escrowTokens) &&
             Signer(w, acc.authorizedWallet) && !TransferWritable(w, acc)) ==>
              r == Err(InvalidAccountData)
    ensures (StreamAccountsInitialized(env, w, acc.metadata, acc.escrowTokens) &&
             Signer(w, acc.authorizedWallet) && TransferWritable(w, acc) &&
             acc.metadata !in w.streams) ==> r == Err(InvalidMetadata)
    ensures (StreamAccountsInitialized(env, w, acc.metadata, acc.escrowTokens) &&
             Signer(w, acc.authorizedWallet) && TransferWritable(w, acc) &&
             acc.metadata in w.streams && !TransferAuthorized(acc, w.streams[acc.metadata])) ==>
              r == Err(TransferNotAllowed)
    ensures (StreamAccountsInitialized(env, w, acc.metadata, acc.escrowTokens) &&
             Signer(w, acc.authorizedWallet) && TransferWritable(w, acc) &&
             acc.metadata in w.streams && TransferAuthorized(acc, w.streams[acc.metadata]) &&
             !TransferAddressesBound(env, acc, w.streams[acc.metadata])) ==>
              r == Err(InvalidAccountData)
    ensures r.Ok? <==> StreamAccountsInitialized(env, w, acc.metadata, acc.escrowTokens) &&
                       Signer(w, acc.authorizedWallet) && TransferWritable(w, acc) &&
                       acc.metadata in w.streams &&
                       TransferAuthorized(acc, w.streams[acc.metadata]) &&
                       TransferAddressesBound(env, acc, w.streams[acc.metadata])
    ensures r.Ok? ==> r.value == w.streams[acc.metadata]
  {
    if !StreamAccountsInitialized(env, w, acc.metadata, acc.escrowTokens) then Err(UninitializedAccount)
    else if !Signer(w, acc.authorizedWallet) then Err(MissingRequiredSignature)
    else if !TransferWritable(w, acc) then Err(InvalidAccountData)
    else if acc.metadata !in w.streams then Err(InvalidMetadata)
    else
      var metadata := w.streams[acc.metadata];
      if !metadata.ix.transferableByRecipient && !metadata.ix.transferableBySender then
        Err(TransferNotAllowed)
      else if !TransferAuthorized(acc, metadata) then Err(TransferNotAllowed)
      else if !TransferAddressesBound(env, acc, metadata) then Err(InvalidAccountData)
      else Ok(metadata)
  }

  /** What transfer_recipient gives: the refusal of its checks, of the wallet's funds or of
      the associated-token program when the new token account holds data, or else the
      ledger with the record naming the new recipient. */
  function TransferRecipientOutcome(env: Env, w: World, acc: TransferAccounts): Result<World>
    requires TransferKeys(acc) <= w.accounts.Keys
  {
    var md :- CheckTransferRecipient(env, w, acc);
    var world :- if w.accounts[acc.newRecipientTokens].DataIsEmpty() then Ok(w)
                 else if w.accounts[acc.authorizedWallet].lamports < env.minimumBalance(TOKEN_ACCOUNT_LEN)
                 then Err(InsufficientFunds)
                 else CreateAssociatedTokenAccount(env, w, acc.authorizedWallet, acc.newRecipient,
                                                   acc.mint, acc.newRecipientTokens);
    Ok(world.(streams := world.streams[acc.metadata := md.(
      recipient := acc.newRecipient, recipientTokens := acc.newRecipientTokens)]))
  }

  /** transfer_recipient: the record names a new recipient and token account. The program
      calls the associated-token program when the new token account already holds data,
      and that call is then refused; when the account is empty, no token account is created
      for the new recipient. */
  method TransferRecipient(env: Env, w: World, acc: TransferAccounts) returns (r: Result<World>)
    requires TransferKeys(acc) <= w.accounts.Keys
    ensures r == TransferRecipientOutcome(env, w, acc)
    ensures CheckTransferRecipient(env, w, acc).Err? ==>
              r == Err(CheckTransferRecipient(env, w, acc).error)
    ensures CheckTransferRecipient(env, w, acc).Ok? &&
            !w.accounts[acc.newRecipientTokens].DataIsEmpty() ==>
              r == Err(if w.accounts[acc.authorizedWallet].lamports < env.minimumBalance(TOKEN_ACCOUNT_LEN)
                       then InsufficientFunds else Cpi(AccountInUse))
    ensures r.Ok? <==> CheckTransferRecipient(env, w, acc).Ok? &&
                       w.accounts[acc.newRecipientTokens].DataIsEmpty()
    ensures r.Ok? ==> acc.authorizedWallet == w.streams[acc.metadata].recipient
    ensures r.Ok? ==>
              var md := w.streams[acc.metadata];
              r.value == w.(streams := w.streams[acc.metadata := md.(
                recipient := acc.newRecipient, recipientTokens := acc.newRecipientTokens)])
    ensures r.Ok? && WellFormed(w) ==>
              acc.newRecipientTokens !in r.value.tokens && WellFormed(r.value)
    ensures r.Ok? && WellFormed(w) && StreamConsistent(w, acc.metadata) ==>
              StreamConsistent(r.value, acc.metadata)
  {
    var metadata :- CheckTransferRecipient(env, w, acc);

    if !w.accounts[acc.newRecipientTokens].DataIsEmpty() {
      var tokensRent := env.minimumBalance(TOKEN_ACCOUNT_LEN);
      if w.accounts[acc.authorizedWallet].lamports < tokensRent {
        return Err(InsufficientFunds);
      }
      var created := CreateAssociatedTokenAccount(env, w, acc.authorizedWallet, acc.newRecipient,
                                                  acc.mint, acc.newRecipientTokens);
      // the target already holds data, so the associated-token program refuses it
      assert created == Err(Cpi(AccountInUse));
      return Err(created.error);
    }

    metadata := metadata.(recipient := acc.newRecipient, recipientTokens := acc.newRecipientTokens);
    return Ok(w.(streams := w.streams[acc.metadata := metadata]));
  }

  // ----- topup_stream -----

  function TopUpKeys(acc: TopUpAccounts): set<Pubkey> {
    {acc.sender, acc.senderTokens, acc.metadata, acc.escrowTokens, acc.mint, acc.tokenProgram}
  }

  /** The metadata holds data and the escrow belongs to the token program. Neither the
      metadata's owner nor the escrow's data is looked at. */
  predicate TopUpInitialized(env: Env, w: World, acc: TopUpAccounts)
    requires TopUpKeys(acc) <= w.accounts.Keys
  {
    !w.accounts[acc.metadata].DataIsEmpty() && w.accounts[acc.escrowTokens].owner == env.tokenProgramId
  }

  predicate TopUpWritable(w: World, acc: TopUpAccounts)
    requires TopUpKeys(acc) <= w.accounts.Keys
  {
    Writable(w, acc.sender) && Writable(w, acc.senderTokens) && Writable(w, acc.metadata) &&
    Writable(w, acc.escrowTokens)
  }

  predicate TopUpAddressesBound(env: Env, acc: TopUpAccounts) {
    acc.tokenProgram == env.tokenProgramId && acc.escrowTokens == env.escrowAddress(acc.metadata)
  }

  /** Every check before the record is read has passed: the sender signs and funds from a
      token account of the mint given. Nothing ties the sender to the record's sender. */
  predicate TopUpFunded(env: Env, w: World, acc: TopUpAccounts, amount: nat)
    requires TopUpKeys(acc) <= w.accounts.Keys
  {
    TopUpInitialized(env, w, acc) && TopUpWritable(w, acc) && TopUpAddressesBound(env, acc) &&
    Signer(w, acc.sender) && UnpackTokenAccount(env, w, acc.senderTokens).Ok? &&
    w.tokens[acc.senderTokens].mint == acc.mint && amount > 0
  }

  /** The checks topup_stream makes before moving tokens, in the program's order, and the
      record they read. The stream must not have been closable before `now`. */
  function CheckTopUp(env: Env, w: World, acc: TopUpAccounts, amount: nat, now: nat)
    : (r: Result<TokenStreamData>)
    requires TopUpKeys(acc) <= w.accounts.Keys
    ensures !TopUpInitialized(env, w, acc) ==> r == Err(UninitializedAccount)
    ensures TopUpInitialized(env, w, acc) && !TopUpWritable(w, acc) ==> r == Err(AccountsNotWritable)
    ensures (TopUpInitialized(env, w, acc) && TopUpWritable(w, acc) &&
             !TopUpAddressesBound(env, acc)) ==> r == Err(InvalidAccountData)
    ensures (TopUpInitialized(env, w, acc) && TopUpWritable(w, acc) &&
             TopUpAddressesBound(env, acc) && !Signer(w, acc.sender)) ==>
              r == Err(MissingRequiredSignature)
    ensures (TopUpInitialized(env, w, acc) && TopUpWritable(w, acc) &&
             TopUpAddressesBound(env, acc) && Signer(w, acc.sender) &&
             UnpackTokenAccount(env, w, acc.senderTokens).Err?) ==> r == Err(InvalidAccountData)
    ensures (TopUpInitialized(env, w, acc) && TopUpWritable(w, acc) &&
             TopUpAddressesBound(env, acc) && Signer(w, acc.sender) &&
             UnpackTokenAccount(env, w, acc.senderTokens).Ok? &&
             w.tokens[acc.senderTokens].mint != acc.mint) ==> r == Err(MintMismatch)
    ensures (TopUpInitialized(env, w, acc) && TopUpWritable(w, acc) &&
             TopUpAddressesBound(env, acc) && Signer(w, acc.sender) &&
             UnpackTokenAccount(env, w, acc.senderTokens).Ok? &&
             w.tokens[acc.senderTokens].mint == acc.mint && amount == 0) ==>
              r == Err(InvalidArgument)
    ensures TopUpFunded(env, w, acc, amount) && acc.metadata !in w.streams ==> r == Err(InvalidMetadata)
    ensures (TopUpFunded(env, w, acc, amount) && acc.metadata in w.streams &&
             (acc.mint != w.streams[acc.metadata].mint ||
              acc.escrowTokens != w.streams[acc.metadata].escrowTokens)) ==>
              r == Err(InvalidAccountData)
    ensures r.Ok? <==> TopUpFunded(env, w, acc, amount) && acc.metadata in w.streams &&
                       acc.mint == w.streams[acc.metadata].mint &&
                       acc.escrowTokens == w.streams[acc.metadata].escrowTokens &&
                       ClosableDefined(w.streams[acc.metadata]) &&
                       now <= Closable(w.streams[acc.metadata])
    ensures (r.Err? && TopUpFunded(env, w, acc, amount) && acc.metadata in w.streams &&
             ClosableDefined(w.streams[acc.metadata])) ==>
              r.error == InvalidMetadata || r.error == InvalidAccountData || r.error == StreamClosed
    ensures r.Ok? ==> r.value == w.streams[acc.metadata]
  {
    if !TopUpInitialized(env, w, acc) then Err(UninitializedAccount)
    else if !TopUpWritable(w, acc) then Err(AccountsNotWritable)
    else if !TopUpAddressesBound(env, acc) then Err(InvalidAccountData)
    else if !Signer(w, acc.sender) then Err(MissingRequiredSignature)
    else
      var senderTokenInfo :- UnpackTokenAccount(env, w, acc.senderTokens);
      if senderTokenInfo.mint != acc.mint then Err(MintMismatch)
      else if amount == 0 then Err(InvalidArgument)
      else if acc.metadata !in w.streams then Err(InvalidMetadata)
      else
        var metadata := w.streams[acc.metadata];
        if acc.mint != metadata.mint || acc.escrowTokens != metadata.escrowTokens then
          Err(InvalidAccountData)
        else if !ClosableDefined(metadata) then Err(Panic)
        else if Closable(metadata) < now then Err(StreamClosed)
        else Ok(metadata)
  }

  /** Who owns the metadata account and whom the record names as sender have no bearing on
      top-up: changing either leaves the outcome of the checks as it was. */
  lemma CheckTopUpIgnoresSenderAndOwner(env: Env, w: World, acc: TopUpAccounts, amount: nat,
                                        now: nat, sender: Pubkey, owner: Pubkey)
    requires TopUpKeys(acc) <= w.accounts.Keys && acc.metadata in w.streams
    requires acc.metadata != acc.escrowTokens && acc.metadata != acc.senderTokens
    ensures var w' := w.(accounts := w.accounts[acc.metadata := w.accounts[acc.metadata].(owner := owner)],
                         streams := w.streams[acc.metadata := w.streams[acc.metadata].(sender := sender)]);
            CheckTopUp(env, w', acc, amount, now).Ok? == CheckTopUp(env, w, acc, amount, now).Ok? &&
            (CheckTopUp(env, w, acc, amount, now).Err? ==>
               CheckTopUp(env, w', acc, amount, now) == CheckTopUp(env, w, acc, amount, now))
  {
    var md := w.streams[acc.metadata];
    var md' := md.(sender := sender);
    assert EffectiveCliff(md') == EffectiveCliff(md);
    assert ClosableDefined(md') == ClosableDefined(md);
    assert ClosableDefined(md) ==> Closable(md') == Closable(md);
  }

  /** The record after a top-up: the deposit grows and the closable time is recomputed. */
  function ToppedUp(md: TokenStreamData, amount: nat): (t: TokenStreamData)
    requires ClosableDefined(WithDeposit(md, md.ix.depositedAmount + amount))
    ensures t.ix == md.ix.(depositedAmount := md.ix.depositedAmount + amount)
    ensures t == md.(ix := t.ix, closableAt := t.closableAt)
    ensures t.closableAt == Closable(WithDeposit(md, md.ix.depositedAmount + amount))
    ensures ClosableDefined(md) ==> Closable(md) <= t.closableAt
  {
    var e := WithDeposit(md, md.ix.depositedAmount + amount);
    assert ClosableDefined(md) ==> Closable(md) <= Closable(e) by {
      if ClosableDefined(md) {
        ClosableMonotone(md, md.ix.depositedAmount + amount);
      }
    }
    e.(closableAt := Closable(e))
  }

  /** What topup_stream gives: the refusal of its checks or of the transfer, a fault on the
      u64 deposit or in `closable()`, an unreadable mint, the runtime's refusal of the record
      write, or else the ledger after the transfer with the record topped up. */
  function TopUpOutcome(env: Env, w: World, acc: TopUpAccounts, amount: nat, now: nat)
    : Result<World>
    requires TopUpKeys(acc) <= w.accounts.Keys
  {
    var md :- CheckTopUp(env, w, acc, amount, now);
    var paid :- Transfer(w, acc.senderTokens, acc.escrowTokens, acc.sender, amount);
    if !IsU64(md.ix.depositedAmount + amount) then Err(Panic)
    else if !ClosableDefined(WithDeposit(md, md.ix.depositedAmount + amount)) then Err(Panic)
    else
      var world := paid.(streams := paid.streams[acc.metadata := ToppedUp(md, amount)]);
      var decimals :- UnpackMintAccount(world, acc.mint);
      if w.accounts[acc.metadata].owner != env.programId then Err(ExternalAccountDataModified)
      else Ok(world)
  }

  /** topup_stream: `amount` more tokens move from the sender's token account into the
      escrow and are added to the deposit; the closable time is pushed back accordingly. */
  method TopUp(env: Env, w: World, acc: TopUpAccounts, amount: nat, now: nat)
    returns (r: Result<World>)
    requires TopUpKeys(acc) <= w.accounts.Keys
    ensures r == TopUpOutcome(env, w, acc, amount, now)
    ensures CheckTopUp(env, w, acc, amount, now).Err? ==>
              r == Err(CheckTopUp(env, w, acc, amount, now).error)
    ensures CheckTopUp(env, w, acc, amount, now).Ok? &&
            Transfer(w, acc.senderTokens, acc.escrowTokens, acc.sender, amount).Err? ==>
              r == Err(Transfer(w, acc.senderTokens, acc.escrowTokens, acc.sender, amount).error)
    ensures r.Ok? <==> CheckTopUp(env, w, acc, amount, now).Ok? &&
                       Transfer(w, acc.senderTokens, acc.escrowTokens, acc.sender, amount).Ok? &&
                       IsU64(w.streams[acc.metadata].ix.depositedAmount + amount) &&
                       ClosableDefined(WithDeposit(w.streams[acc.metadata],
                                                   w.streams[acc.metadata].ix.depositedAmount + amount)) &&
                       acc.mint in w.mints && w.accounts[acc.metadata].owner == env.programId
    ensures (CheckTopUp(env, w, acc, amount, now).Ok? &&
             Transfer(w, acc.senderTokens, acc.escrowTokens, acc.sender, amount).Ok? &&
             IsU64(w.streams[acc.metadata].ix.depositedAmount + amount) &&
             ClosableDefined(WithDeposit(w.streams[acc.metadata],
                                         w.streams[acc.metadata].ix.depositedAmount + amount)) &&
             acc.mint in w.mints && w.accounts[acc.metadata].owner != env.programId) ==>
              r == Err(ExternalAccountDataModified)
    ensures (CheckTopUp(env, w, acc, amount, now).Ok? &&
             Transfer(w, acc.senderTokens, acc.escrowTokens, acc.sender, amount).Ok? &&
             !(IsU64(w.streams[acc.metadata].ix.depositedAmount + amount) &&
               ClosableDefined(WithDeposit(w.streams[acc.metadata],
                                           w.streams[acc.metadata].ix.depositedAmount + amount)))) ==>
              r == Err(Panic)
    ensures (CheckTopUp(env, w, acc, amount, now).Ok? &&
             Transfer(w, acc.senderTokens, acc.escrowTokens, acc.sender, amount).Ok? &&
             IsU64(w.streams[acc.metadata].ix.depositedAmount + amount) &&
             ClosableDefined(WithDeposit(w.streams[acc.metadata],
                                         w.streams[acc.metadata].ix.depositedAmount + amount)) &&
             acc.mint !in w.mints) ==> r == Err(InvalidAccountData)
    ensures r.Ok? ==>
              var md := w.streams[acc.metadata];
              var t := ToppedUp(md, amount);
              r.value == Transfer(w, acc.senderTokens, acc.escrowTokens, acc.sender, amount).value.(
                           streams := w.streams[acc.metadata := t]) &&
              now <= t.closableAt
    ensures r.Ok? && acc.senderTokens != acc.escrowTokens ==>
              r.value.tokens[acc.escrowTokens].amount == w.tokens[acc.escrowTokens].amount + amount &&
              r.value.tokens[acc.senderTokens].amount == w.tokens[acc.senderTokens].amount - amount
    ensures r.Ok? && WellFormed(w) ==> WellFormed(r.value)
    ensures r.Ok? && acc.senderTokens != acc.escrowTokens && StreamConsistent(w, acc.metadata) ==>
              StreamConsistent(r.value, acc.metadata)
  {
    var metadata :- CheckTopUp(env, w, acc, amount, now);

    var world :- Transfer(w, acc.senderTokens, acc.escrowTokens, acc.sender, amount);

    if !IsU64(metadata.ix.depositedAmount + amount) {
      return Err(Panic);
    }
    if !ClosableDefined(WithDeposit(metadata, metadata.ix.depositedAmount + amount)) {
      return Err(Panic);
    }
    metadata := ToppedUp(metadata, amount);
    world := world.(streams := world.streams[acc.metadata := metadata]);

    var decimals :- UnpackMintAccount(world, acc.mint);
    // the runtime refuses the instruction when the program has changed the data of an
    // account it does not own, and nothing here checks the metadata account's owner
    if w.accounts[acc.metadata].owner != env.programId {
      return Err(ExternalAccountDataModified);
    }
    return Ok(world);
  }
}
