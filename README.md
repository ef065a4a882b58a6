# Token streaming escrow — a Dafny model

This project models the core of a Solana program that streams SPL tokens from a sender to a
recipient over time. A sender locks a deposit in an escrow token account owned by an address
derived from the stream's metadata account. The deposit is released on a schedule: nothing
before the start or the cliff, a cliff amount at the cliff, then a fixed amount per period.
The recipient withdraws what has been released. Before the stream's closable time only the
sender, signing as the cancel authority, may cancel it; from that time on anyone may. A
cancel splits the escrow between the two parties. A recipient may hand the stream to someone
else, and anyone may top the escrow up while the stream is still open.

The model has four layers, following the program's files:

- `state.dfy` (module `State`) holds the stream record, its `new` constructor and the two
  schedule functions `available` and `closable`. It also holds the lemmas about them: bounds,
  values in each case, monotonicity in time and in the deposit, and concrete examples.
- `token.dfy` (module `Token`) holds the five handlers: create, withdraw, cancel,
  transfer_recipient and topup_stream. Each is a method over an abstract world of accounts
  (`ledger.dfy`, module `Ledger`) that returns the new world or the first error, checked in
  the program's order. Each handler's checks are also given as a function (`CheckCreate`,
  `CheckWithdraw`, …) whose contract lists the error each failed check gives, and each
  handler's whole result is given as a function (`CreateOutcome`, `WithdrawOutcome`, …) that
  the handler is proved to return.
- `utils.dfy` (module `Utils`) holds `duration_sanity`, the token- and mint-account readers,
  `pretty_time` and `encode_base10`. `base10.dfy` (module `Base10`) holds the decimal digit
  strings these two print.
- `entrypoint.dfy` (module `Entrypoint`) holds instruction dispatch. Accounts are bound to
  roles by position, through an iterator object, and the u64 amount is read little-endian.

`errors.dfy` holds the error codes and the `Result` type; `arith.dfy` holds lemmas about
integer division and multiplication.

Design decisions:

- u64 values are `nat`. The program is taken to be built with overflow checks on, so that an
  overflowing `+=` or an underflowing subtraction aborts as a division by zero does. Where
  the program would abort, the handlers return `Err(Panic)`. A build without overflow checks
  would wrap instead, and the model does not cover that build. `State.Available` and
  `State.Closable` require `AvailableDefined` and `ClosableDefined`, the exact domain on which
  they do not abort.
- `available` computes with f64 values; the model uses exact rational arithmetic and takes
  the floor.
- The escrow address (`find_program_address`), the associated token address, the rent
  schedule and the Borsh decoder of the create payload are fields of `Ledger.Env`, so they
  can be any function. Nothing is assumed about them, not even injectivity.
- Calls into the system, token and associated-token programs are modelled by their effects
  on the world and by the conditions under which they fail (`Ledger.Transfer`,
  `Ledger.CloseAccount`, …).
- An account's data is kept decoded: `World.tokens` holds token accounts, `World.mints` holds
  mints, and `World.streams` holds stream records.
- A handler error discards every effect, as the runtime does.
- The clock is the `now` parameter.
- The runtime refuses an instruction whose program changed the data of an account it does
  not own. Only `topup_stream` writes the record without checking the metadata account's
  owner, so only `Token.TopUp` can end in `ExternalAccountDataModified`.
- Bytes of instruction data and of the stream name are `State.byte`, an integer from 0 to 255.

Behaviours of the program that the model keeps as they are:

- `transfer_recipient` requires the caller to be the current recipient, even when only the
  sender's flag allows transfers.
- `transfer_recipient` calls the associated-token program only when the new token account
  already holds data, so that call always fails. When the account is empty, the record points
  at an account that is not a token account.
- `topup_stream` checks neither the metadata account's owner nor that the signer is the
  record's sender (`Token.CheckTopUpIgnoresSenderAndOwner`). A metadata account the program
  does not own is then refused by the runtime, not by the program.
- `topup_stream` refuses a top-up only when the recomputed `closable()` is strictly before
  `now`.
- `available` is not capped by what is left in the escrow
  (`State.AvailableNotCappedWhenPartlyFunded`).
- The cancelable flags are never read.

## Model

| member | source | states |
|---|---|---|
| State.New | src/state.rs:66-121 | the fresh record has version 2, nothing withdrawn, no cancel or withdrawal time, is closable at the end time, and copies every other argument |
| State.Available | src/state.rs:123-126 | nothing is available before the start or before the cliff |
| State.AvailableAtEnd | src/state.rs:128-130 | at or after the end, without a release rate, everything deposited and not yet withdrawn is available |
| State.AvailableInSchedule | src/state.rs:132-151 | otherwise, available plus withdrawn equals the periods released so far plus the cliff amount |
| State.AvailableAtCliff | src/state.rs:144-151 | at the effective cliff no period has passed, so only the cliff amount less what was withdrawn is available |
| State.ReleasedMonotone | src/state.rs:144-151 | the amount released by whole periods never decreases with time |
| State.ReleasedWithinTotal | src/state.rs:144-151 | without a release rate, the amount released before the end never exceeds the total beyond the cliff amount |
| State.AvailableMonotone | src/state.rs:123-152 | available never decreases with time, except where a partly funded stream reaches its end |
| State.AvailableWithinDeposit | src/state.rs:123-152 | for a fully funded stream without a release rate, available never exceeds what the escrow should hold |
| State.AvailableNotCappedWhenPartlyFunded | src/state.rs:144-151 | a stream funded with 100 of 1000 tokens offers 500 halfway, more than is deposited |
| State.LinearStreamExample | src/state.rs:123-152 | start 100, end 200, period 10, 1000 tokens: 500 available at 150 and 1000 at 200 |
| State.CliffStreamExample | src/state.rs:123-152 | with a cliff at 120 worth 200 tokens: 0 available at 119 and 200 at 121 |
| State.Closable | src/state.rs:154-189 | closable is the effective cliff when the deposit is below the cliff amount, otherwise later than it, and never after the end without a release rate |
| State.ClosableMonotone | src/state.rs:166-188 | a larger deposit never makes a stream closable earlier |
| State.ClosableWhenFullyFunded | src/state.rs:169-188 | a fully funded stream without a release rate is closable exactly at its end |
| State.AvailableAtClosable | src/state.rs:123-189 | for such a stream, the whole remaining deposit is available at its closable time |
| State.ClosableMayPrecedeFullRelease | src/state.rs:171-188 | with a release rate, a stream can be closable before all of its deposit is released |
| State.ClosableIsEarliest | src/state.rs:154-189 | for a fully funded stream without a release rate and with something to release after the cliff, less than the remaining deposit is available at any time before closable |
| State.ClosableEarlyWhenPartlyFunded | src/state.rs:166-188 | a partly funded stream without a release rate (105 of 1000 tokens over 100..200) is closable at 111, when only 100 are available |
| State.DefaultTerms | src/state.rs:25-44 | the default terms have a one-second period and no release rate, only the sender may cancel and only the recipient may transfer, the name is "Stream", and the schedule is not a valid one |
| Base10.Decimal | src/utils.rs:37-40 | `{}` prints a non-empty digit string without a leading zero that denotes the number |
| Base10.ZeroPaddedValue | src/utils.rs:44 | zero padding to a width gives at least that many digits, denoting the same number, with no leading zero beyond the padding |
| Base10.TrimEnd | src/utils.rs:50-51 | trimming removes exactly the trailing run of the character: the result is a prefix that does not end with it |
| Utils.DurationSanity | src/utils.rs:5-13 | true exactly when now < start < end and the cliff is zero or lies within start..end |
| Utils.DurationSanityMeansNothingReleased | src/utils.rs:5-13 | terms that pass the test have a valid schedule whose effective cliff lies after now |
| Utils.UnpackTokenAccount | src/utils.rs:15-23 | a token account is read only if the token program owns it and it holds a token account; otherwise InvalidAccountData |
| Utils.UnpackMintAccount | src/utils.rs:25-29 | a mint is read whenever the account holds one, whatever its owner; otherwise InvalidAccountData |
| Utils.PrettyTime | src/utils.rs:31-41 | the text starts with the number of whole days followed by " days, " and ends with " seconds" |
| Utils.TimeParts | src/utils.rs:31-35 | hours < 24, minutes < 60, seconds < 60, and days, hours, minutes and seconds add back up to t |
| Utils.PrettyTimeInjective | src/utils.rs:31-41 | two different durations never print the same text |
| Utils.EncodeBase10 | src/utils.rs:43-53 | the text is a canonical amount: digits with no leading zero, at most one '.', a fraction of at most `decimal_places` digits not ending in '0', and it denotes `amount / 10^decimal_places` exactly |
| Utils.EncodeBase10Correct | src/utils.rs:47-52 | inserting '.' before the last digits and trimming '0's then '.' gives such a text for the same number |
| Utils.TrimmedShape | src/utils.rs:50-51 | trimming stops inside the fraction, and removes the '.' only when no fraction digit is left |
| Ledger.CreateAccount | src/token.rs:157-170 | account creation succeeds exactly when the target has no lamports and no data and the funder can pay; the target gets the space and owner |
| Ledger.InitializeAccount | src/token.rs:194-208 | the account becomes an empty token account of the mint, owned as asked, and nothing else changes |
| Ledger.Transfer | src/token.rs:211-226 | a transfer succeeds exactly when both are token accounts of one mint, the authority owns the source and the source holds enough; it moves exactly the amount and touches no other balance |
| Ledger.CloseAccount | src/token.rs:352-366 | closing succeeds exactly for an empty token account owned by the authority and not closed into itself; its lamports go to the destination and it is left without data |
| Ledger.CreateAssociatedTokenAccount | src/token.rs:142-153 | on success the target is the derived address, was empty, and becomes an empty token account of the wallet for the mint |
| Token.SerializedLen | src/token.rs:115 | the Borsh-encoded record is 313 bytes plus the name's length |
| Token.RoundUp8 | src/token.rs:117-119 | the least multiple of 8 not below n |
| Token.PaddedSize | src/token.rs:115-119 | the loop ends at the least multiple of 8 not below the record length |
| Token.Requested | src/token.rs:310-314 | a zero amount asks for everything available; any other amount is taken as given |
| Token.NewRecord | src/token.rs:86-108 | the record create builds names the accounts given and carries the terms unchanged, with nothing withdrawn and closable at the end time |
| Token.CreateRent | src/token.rs:120-127 | the rent create needs: metadata, escrow, and one more token account when the recipient's is empty |
| Token.CheckCreate | src/token.rs:37-113 | create's checks in order (already initialised, not writable, wrong address, missing signature, unreadable accounts, mint mismatch, bad schedule or long name) with their errors; success yields the new record, with closable recomputed exactly when underfunded or rate-based |
| Token.OpenMetadata | src/token.rs:140-173 | the recipient's token account is created if empty, and the metadata account is created with the padded size, owned by the program, holding the record |
| Token.OpenEscrow | src/token.rs:175-226 | the escrow becomes a token account of the mint owned by itself holding exactly the deposit, taken from the sender's token account |
| Token.OpenStream | src/token.rs:140-226 | the composition of the two: record written, escrow funded, escrow distinct from both parties' token accounts |
| Token.Create | src/token.rs:30-247 | returns exactly `CreateOutcome`: check errors propagate; a rent sum beyond u64 panics; short lamports or tokens give InsufficientFunds; otherwise the result is exactly the ledger effects of OpenStream with the padded size and its rent; on success the record is stored, the metadata account is sized to the padded length, the escrow holds the deposit, the sender paid it, and the stream is consistent |
| Token.CheckWithdraw | src/token.rs:252-314 | withdraw's checks in order with their errors, including amount > available giving InvalidArgument; success yields the requested amount |
| Token.Withdraw | src/token.rs:249-384 | returns exactly `WithdrawOutcome`, whose every case is spelled out: the transfer's refusal, a u64 panic, InvalidAccountData when a full withdrawal names a sender that is not the record's or not writable, the close's refusal, or exactly the transferred (and, when full, closed) ledger with the updated record; only withdrawn_amount and last_withdrawn_at change; the recipient is credited; a full withdrawal returns the escrow's rent to the sender; consistency of escrow and record is kept |
| Token.CheckCancel | src/token.rs:389-448 | cancel's checks in order with their errors: before closable_at only the signing sender may cancel, from then on anyone; success yields available |
| Token.Cancelled | src/token.rs:470-519 | the record after cancel: available counted as withdrawn, and cancel and withdrawal times stamped only when cancelled before closable_at; every other field, magic included, is the old record's |
| Token.Cancel | src/token.rs:386-539 | returns exactly `CancelOutcome`, whose every case is spelled out: an unreadable escrow, a refused transfer, a u64 panic, a refused refund or close, or exactly the ledger after the two transfers and the close with the cancelled record; the recipient gets available and the sender the rest of the deposit, the escrow is always closed to the sender, which also gets its rent, and consistency is kept |
| Token.CheckTransferRecipient | src/token.rs:544-600 | transfer's checks in order: no permitted role gives TransferNotAllowed, and a caller other than the current recipient gives InvalidAccountData |
| Token.TransferRecipient | src/token.rs:541-638 | returns exactly `TransferRecipientOutcome`; succeeds exactly when the checks pass and the new token account is empty; then only recipient and recipient_tokens change; a non-empty account gives InsufficientFunds or the refused creation |
| Token.CheckTopUp | src/token.rs:643-692 | top-up's checks in order: zero amount gives InvalidArgument, closable() < now gives StreamClosed, so now == closable() is accepted |
| Token.CheckTopUpIgnoresSenderAndOwner | src/token.rs:643-692 | changing the metadata account's owner or the record's sender does not change the checks' outcome |
| Token.ToppedUp | src/token.rs:712-713 | the deposit grows by the amount, closable_at is closable() of the topped-up record and never moves earlier, and no other field changes |
| Token.TopUp | src/token.rs:640-728 | returns exactly `TopUpOutcome`; success exactly when the checks, the transfer, the u64 guards and the mint read pass and the program owns the metadata account; a deposit beyond u64 or an undefined `closable()` gives Panic, an unreadable mint InvalidAccountData, and a metadata account the program does not own ExternalAccountDataModified (the runtime refuses the write); on success the escrow gains exactly the amount from the sender's account, the record is the topped-up one, the stream stays open at now, and consistency is kept |
| Entrypoint.LeValueOfBytes | src/entrypoint.rs:53 | reading back the little-endian bytes of a value gives the value |
| Entrypoint.LeBytesOfValue | src/entrypoint.rs:53 | writing the value of bytes gives back the bytes |
| Entrypoint.LeValueIsU64 | src/entrypoint.rs:53 | eight bytes denote a u64 |
| Entrypoint.Decode | src/entrypoint.rs:18-106 | empty data panics, a byte above 4 gives InvalidInstructionData, too few accounts give NotEnoughAccountKeys, accounts are bound by position, and withdraw and top-up amounts need exactly 8 bytes |
| Entrypoint.DecodeEncode | src/entrypoint.rs:41-101 | withdraw, cancel, transfer and top-up decode back from their encoding with their accounts, whatever accounts follow |
| Entrypoint.DecodeIgnoresTrailingBytes | src/entrypoint.rs:58-87 | cancel and transfer_recipient decode the same whatever follows the instruction byte |
| Entrypoint.DecodeCreate | src/entrypoint.rs:22-39 | create decodes from its accounts and any payload the terms decoder accepts |
| Entrypoint.AccountIter.Next | src/entrypoint.rs:24 | the next account and one step further, or NotEnoughAccountKeys when none is left |
| Entrypoint.RouteCreate | src/entrypoint.rs:22-39 | binding eleven accounts from the iterator and decoding the terms gives the decoded instruction |
| Entrypoint.RouteWithdraw | src/entrypoint.rs:41-55 | binding eight accounts and reading the amount gives the decoded instruction |
| Entrypoint.RouteCancel | src/entrypoint.rs:58-71 | binding nine accounts gives the decoded instruction |
| Entrypoint.RouteTransfer | src/entrypoint.rs:73-87 | binding ten accounts gives the decoded instruction |
| Entrypoint.RouteTopUp | src/entrypoint.rs:89-100 | binding six accounts and reading the amount gives the decoded instruction |
| Entrypoint.Route | src/entrypoint.rs:18-106 | the dispatch by first byte computes exactly the decoded instruction |
| Entrypoint.Dispatch | src/entrypoint.rs:37-99 | each instruction runs its own handler: the result is exactly that handler's outcome (`Token.CreateOutcome`, `Token.WithdrawOutcome`, …, the functions the handlers are proved to return), so its successes, refusals and ledger effects are those of the handler; in particular check errors come back unchanged and a success leaves exactly that handler's record; a success keeps the set of accounts and the mints, changes only that record, and keeps decoded data in accounts that hold data |
| Entrypoint.ProcessInstruction | src/entrypoint.rs:18-106 | decoding errors come before any handler; a decoded instruction gives exactly the outcome of the handler its first byte names, with the decoded accounts and arguments; a success keeps the set of accounts and the mints and changes only the record it names |

## Left out

- f64 arithmetic in `available`: the model computes the exact floor of the rational value.
  It does not model float rounding or the saturating `as u64` conversion.
- Borsh encoding and decoding of the record and of the create terms. The record's encoded
  length is taken as 313 bytes plus the name's length. The terms decoder is a parameter
  (`Ledger.Env`), and any decoding failure maps to `BorshIoError`.
- The record is stored decoded (`World.streams`). Copying the bytes into the account buffer,
  and the failure of `try_borrow_mut_data`, are not modelled.
- SPL `Pack::unpack` of token and mint accounts: an account's data is either a decoded token
  account or mint, or neither, and every unreadable account gives `InvalidAccountData`.
  `Pack::unpack` gives `UninitializedAccount` instead for data of the right length in the
  uninitialised state (for instance a 165-byte token account that was never initialised,
  given as create's `sender_tokens`); the model does not tell that case apart.
- `msg!` logging, and with it every call of `pretty_time` and `encode_base10` inside the
  handlers. The one log line that can abort, withdraw's remaining amount (an underflowing
  subtraction, which aborts with overflow checks on), is modelled as `Panic`.
- `Clock::get` and `Rent::get`: the time is the `now` parameter, and the rent schedule is a
  parameter function of the byte size. The i64 → u64 cast of the timestamp is not modelled;
  `now` is a `nat`.
- The system, token and associated-token programs are modelled only as effects and refusals.
  Their lamport and rent rules, multisig authorities and frozen accounts are not modelled.
- `find_program_address` and `get_associated_token_address` are arbitrary functions. The bump
  seed and the signing with it are not modelled.
- The runtime's checks on what an instruction changed are modelled only for the one write
  that can break them (the record written by `topup_stream`); its lamport-sum, rent and
  writable checks are not modelled.
- `src/error.rs` is not part of this model; the program's own errors are plain constructors
  of `Errors.Error`.
- Utils.UnpackTokenAccount and Utils.UnpackMintAccount: the error for an unreadable account is always `InvalidAccountData`, where `Pack::unpack` gives `UninitializedAccount` for right-length data in the uninitialised state; every check cascade that reads such an account inherits this.
- Token.Withdraw: the exact resulting ledger is stated in every case; the separate clause on the recipient's credit is stated only when the escrow and the recipient's token account differ; when they are the same account the transfer changes nothing.
- Token.Cancel: the exact resulting ledger is stated in every case; the separate clause on the token balances is stated only when the escrow and the two parties' token accounts are pairwise distinct.
- Token.TopUp: consistency of escrow and record is stated only when the sender's token account is not the escrow itself.
- Token.Create and Token.TransferRecipient: consistency and the new recipient account's state are stated under `Ledger.WellFormed`, which says decoded token data sits only in accounts that hold data.
