/** The accounts the program sees and the effects of the programs it calls.

    The host hands the program an AccountInfo per account of the transaction; here they are
    a map from key to the account's flags, owner, data length and lamports. The data of an
    account is kept decoded: as a token account, a mint, or a stream record. The system,
    token and associated-token programs are modelled only by the effects of the calls the
    stream program makes and by the conditions under which those calls fail. */
module Ledger {
  import opened Errors
  import opened State

  /** Size in bytes of a token account (spl_token::state::Account::LEN). */
  const TOKEN_ACCOUNT_LEN: nat := 165

  datatype AccountInfo = AccountInfo(
    isSigner: bool,
    isWritable: bool,
    owner: Pubkey,
    dataLen: nat,
    lamports: nat)
  {
    predicate DataIsEmpty() { dataLen == 0 }
  }

  datatype TokenAccount = TokenAccount(mint: Pubkey, owner: Pubkey, amount: nat)

  datatype World = World(
    accounts: map<Pubkey, AccountInfo>,
    tokens: map<Pubkey, TokenAccount>,      // accounts whose data is an initialised token account
    mints: map<Pubkey, nat>,                // accounts whose data is a mint, with its decimals
    streams: map<Pubkey, TokenStreamData>)  // accounts whose data decodes as a stream record

  /** What the program takes from its host: its own id, the ids of the programs and sysvar
      it checks, the two address derivations, the rent schedule, and the decoder of the
      create payload. The derivations are hashes and the decoder is library code; here they
      are arbitrary functions. */
  datatype Env = Env(
    programId: Pubkey,
    tokenProgramId: Pubkey,
    systemProgramId: Pubkey,
    rentSysvarId: Pubkey,
    escrowAddress: Pubkey -> Pubkey,                   // find_program_address([metadata], program)
    associatedTokenAddress: (Pubkey, Pubkey) -> Pubkey, // get_associated_token_address(wallet, mint)
    minimumBalance: nat -> nat,                        // Rent::minimum_balance(bytes)
    decodeStreamInstruction: seq<byte> -> Result<StreamInstruction>)

  /** Decoded data belongs to accounts that hold data. */
  predicate WellFormed(w: World) {
    forall k :: k in w.tokens ==> k in w.accounts && !w.accounts[k].DataIsEmpty()
  }

  /** The system program's create_account: `funder` pays `lamports` into `target`, which gets
      `space` bytes of data and the given owner. */
  function CreateAccount(w: World, funder: Pubkey, target: Pubkey, lamports: nat, space: nat,
                         owner: Pubkey): (r: Result<World>)
    requires funder in w.accounts && target in w.accounts
    ensures r.Ok? <==> w.accounts[target].lamports == 0 && w.accounts[target].DataIsEmpty() &&
                       w.accounts[funder].lamports >= lamports
    ensures r.Ok? ==> r.value.accounts.Keys == w.accounts.Keys
    ensures r.Ok? ==> r.value.tokens == w.tokens && r.value.mints == w.mints &&
                      r.value.streams == w.streams
    ensures r.Ok? ==> r.value.accounts[target].dataLen == space &&
                      r.value.accounts[target].owner == owner
    ensures r.Ok? ==> forall k :: k in w.accounts && k != target ==>
                        r.value.accounts[k].dataLen == w.accounts[k].dataLen &&
                        r.value.accounts[k].owner == w.accounts[k].owner
    ensures r.Ok? && WellFormed(w) ==> WellFormed(r.value)
  {
    var t := w.accounts[target];
    if t.lamports > 0 || !t.DataIsEmpty() then Err(Cpi(AccountInUse))
    else if w.accounts[funder].lamports < lamports then Err(Cpi(InsufficientLamports))
    else
      var f := w.accounts[funder];
      var paid := w.accounts[funder := f.(lamports := f.lamports - lamports)];
      Ok(w.(accounts := paid[target := paid[target].(lamports := lamports, dataLen := space,
                                                    owner := owner)]))
  }

  /** The token program's initialize_account: `account` becomes an empty token account of
      `mint` owned by `owner`. */
  function InitializeAccount(env: Env, w: World, account: Pubkey, mint: Pubkey,
                             owner: Pubkey): (r: Result<World>)
    requires account in w.accounts
    ensures r.Ok? ==> r.value == w.(tokens := w.tokens[account := TokenAccount(mint, owner, 0)])
    ensures r.Ok? ==> account !in w.tokens
    ensures r.Ok? && WellFormed(w) ==> WellFormed(r.value)
  {
    var a := w.accounts[account];
    if a.owner != env.tokenProgramId || a.dataLen != TOKEN_ACCOUNT_LEN then Err(Cpi(NotATokenAccount))
    else if account in w.tokens then Err(Cpi(AccountInUse))
    else if mint !in w.mints then Err(Cpi(NotAMint))
    else Ok(w.(tokens := w.tokens[account := TokenAccount(mint, owner, 0)]))
  }

  /** The token program's transfer of `amount` from `source` to `destination`, authorised by
      `authority`. It fails when the source balance is too small. */
  function Transfer(w: World, source: Pubkey, destination: Pubkey, authority: Pubkey,
                    amount: nat): (r: Result<World>)
    ensures r.Ok? <==> source in w.tokens && destination in w.tokens &&
                       w.tokens[source].amount >= amount &&
                       w.tokens[source].mint == w.tokens[destination].mint &&
                       w.tokens[source].owner == authority
    ensures r.Ok? ==> r.value.accounts == w.accounts && r.value.mints == w.mints &&
                      r.value.streams == w.streams && r.value.tokens.Keys == w.tokens.Keys
    ensures r.Ok? && source != destination ==>
              r.value.tokens[source] == w.tokens[source].(amount := w.tokens[source].amount - amount) &&
              r.value.tokens[destination] ==
                w.tokens[destination].(amount := w.tokens[destination].amount + amount)
    ensures r.Ok? && source == destination ==> r.value == w
    ensures r.Ok? ==> forall k :: k in w.tokens && k != source && k != destination ==>
                        r.value.tokens[k] == w.tokens[k]
    ensures r.Ok? && WellFormed(w) ==> WellFormed(r.value)
  {
    if source !in w.tokens || destination !in w.tokens then Err(Cpi(NotATokenAccount))
    else if w.tokens[source].amount < amount then Err(Cpi(InsufficientTokens))
    else if w.tokens[source].mint != w.tokens[destination].mint then Err(Cpi(TokenMintMismatch))
    else if w.tokens[source].owner != authority then Err(Cpi(OwnerMismatch))
    else if source == destination then Ok(w)
    else
      var src := w.tokens[source];
      var dst := w.tokens[destination];
      Ok(w.(tokens := w.tokens[source := src.(amount := src.amount - amount)]
                              [destination := dst.(amount := dst.amount + amount)]))
  }

  /** The token program's close_account: an empty token account is removed, its lamports go
      to `destination`, and the emptied account falls back to the system program. */
  function CloseAccount(env: Env, w: World, account: Pubkey, destination: Pubkey,
                        authority: Pubkey): (r: Result<World>)
    requires account in w.accounts && destination in w.accounts
    ensures r.Ok? <==> account in w.tokens && account != destination &&
                       w.tokens[account].amount == 0 && w.tokens[account].owner == authority
    ensures r.Ok? ==> r.value.tokens == w.tokens - {account} && r.value.mints == w.mints &&
                      r.value.streams == w.streams
    ensures r.Ok? ==>
              r.value.accounts ==
              w.accounts[destination := w.accounts[destination].(
                lamports := w.accounts[destination].lamports + w.accounts[account].lamports)]
                [account := w.accounts[account].(lamports := 0, dataLen := 0, owner := env.systemProgramId)]
    ensures r.Ok? && WellFormed(w) ==> WellFormed(r.value)
  {
    if account !in w.tokens then Err(Cpi(NotATokenAccount))
    else if account == destination then Err(Cpi(CloseToSelf))
    else if w.tokens[account].amount != 0 then Err(Cpi(NonZeroBalance))
    else if w.tokens[account].owner != authority then Err(Cpi(OwnerMismatch))
    else
      var a := w.accounts[account];
      var d := w.accounts[destination];
      Ok(w.(tokens := w.tokens - {account},
            accounts := w.accounts[destination := d.(lamports := d.lamports + a.lamports)]
                                  [account := a.(lamports := 0, dataLen := 0,
                                                 owner := env.systemProgramId)]))
  }

  /** The associated-token program's create: the canonical token account of `wallet` for
      `mint` is created at `target`, funded by `funder`. */
  function CreateAssociatedTokenAccount(env: Env, w: World, funder: Pubkey, wallet: Pubkey,
                                        mint: Pubkey, target: Pubkey): (r: Result<World>)
    requires funder in w.accounts && target in w.accounts
    ensures r.Ok? ==> target == env.associatedTokenAddress(wallet, mint)
    ensures r.Ok? ==> w.accounts[target].DataIsEmpty() && w.accounts[target].lamports == 0
    ensures r.Ok? ==> r.value.accounts.Keys == w.accounts.Keys
    ensures r.Ok? ==> r.value.tokens == w.tokens[target := TokenAccount(mint, wallet, 0)] &&
                      r.value.mints == w.mints && r.value.streams == w.streams
    ensures r.Ok? ==> forall k :: k in w.accounts && k != target ==>
                        r.value.accounts[k].dataLen == w.accounts[k].dataLen &&
                        r.value.accounts[k].owner == w.accounts[k].owner
    ensures r.Ok? ==> !r.value.accounts[target].DataIsEmpty()
    ensures r.Ok? && WellFormed(w) ==> WellFormed(r.value)
  {
    if target != env.associatedTokenAddress(wallet, mint) then Err(Cpi(InvalidAddress))
    else
      var created :- CreateAccount(w, funder, target, env.minimumBalance(TOKEN_ACCOUNT_LEN),
                                   TOKEN_ACCOUNT_LEN, env.tokenProgramId);
      InitializeAccount(env, created, target, mint, wallet)
  }
}
