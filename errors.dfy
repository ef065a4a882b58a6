/** Error codes the stream program can return, and the Result type its handlers use. */
module Errors {

  /** Why a call into the system, token or associated-token program failed.
      Those programs are not part of this model; only their refusals are. */
  datatype CpiFailure =
    | AccountInUse          // system program: the target already holds lamports or data
    | InsufficientLamports  // system program: the funder cannot pay the requested lamports
    | NotATokenAccount      // token program: the account is not an initialised token account
    | NotAMint              // token program: the mint account does not hold a mint
    | TokenMintMismatch     // token program: source and destination hold different mints
    | OwnerMismatch         // token program: the authority does not own the source account
    | InsufficientTokens    // token program: the source balance is below the amount
    | NonZeroBalance        // token program: closing an account that still holds tokens
    | CloseToSelf           // token program: closing an account into itself
    | InvalidAddress        // associated-token program: target is not the canonical address

  datatype Error =
    // errors of the host's ProgramError type
    | AccountAlreadyInitialized
    | UninitializedAccount
    | InvalidAccountData
    | MissingRequiredSignature
    | InvalidArgument
    | InsufficientFunds
    | InvalidInstructionData
    | NotEnoughAccountKeys
    | BorshIoError
    // errors of the program's own StreamFlowError type
    | AccountsNotWritable
    | InvalidMetadata
    | MintMismatch
    | StreamClosed
    | TransferNotAllowed
    // the runtime: the program changed the data of an account it does not own
    | ExternalAccountDataModified
    // a refused cross-program call
    | Cpi(failure: CpiFailure)
    // the program aborted: u64 overflow or underflow, division by zero, a failed unwrap or index
    | Panic

  /** Either the new state or the error that aborted the instruction (the host then discards
      every effect of the instruction). */
  datatype Result<+T> = Ok(value: T) | Err(error: Error) {
    predicate IsFailure() { Err? }

    function PropagateFailure<U>(): Result<U>
      requires Err?
    {
      Err(error)
    }

    function Extract(): T
      requires Ok?
    {
      value
    }
  }
}
