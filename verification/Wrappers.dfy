/** Results of instructions: a new value, or the error the program aborts with. */
module Wrappers {

  /** Errors of the three programs, one constructor for each name, followed by
      the failures that come from the account framework and the token program. */
  datatype Error =
    // controller, batch_settler and oracle
    | ZeroAddress | ZeroAmount | MathOverflow | Unauthorized | ExpiryPriceNotSet
    | VaultSettled | CollateralMismatch | OtokenMismatch | InsufficientCollateral
    | NotExpired | EmptyVault | SystemPartiallyPaused | SystemFullyPaused
    | ExpiryPriceAlreadySet | InvalidDecimals | OptionExpired | NotFullyPaused
    | CollateralCreditMismatch
    | Paused | FeeTooHigh | AmountTooSmall | MakerNotWhitelisted | InvalidNonce
    | QuoteExpired | QuoteCancelled | QuoteAlreadyCancelled | QuoteExceeded
    | InvalidEd25519Instruction | InvalidEd25519Data | InvalidSignature
    | InvalidTreasury | InvalidCustodyAccount | EscapeDelayTooShort | EscapeNotReady
    | InsufficientMMBalance | OptionNotExpired | OptionNotITM | InvalidContraMint
    | UnsupportedDecimals | InsufficientSwapOutput | UnexpectedSwapDestination
    | RedeemReturnedZero | ExcessCollateralUsed | InvalidJupiterProgram
    | InvalidPythAccount | FeedIdMismatch | FeedNotActive | InvalidPrice | StalePrice
    | ConfidenceTooWide | PriceDeviationTooHigh | InvalidDeviationThreshold
    | ExpiryNotReached | NotPendingAdmin
    // account framework, token program, arithmetic traps
    | AccountMissing | AccountInUse | ConstraintViolated
    | TokenMintMismatch | TokenOwnerMismatch | InsufficientFunds | SupplyOverflow
    | Environment | Trap

  datatype Option<+T> = None | Some(value: T)

  datatype Result<+T> = Ok(value: T) | Err(error: Error) {
    predicate IsFailure() {
      Err?
    }

    function PropagateFailure<U>(): Result<U>
      requires Err?
    {
      Err(error)
    }

    function Extract(): T
      requires Ok?
    {
      value
    }
  }

  datatype Check = Pass | Fail(error: Error) {
    predicate IsFailure() {
      Fail?
    }

    function PropagateFailure<U>(): Result<U>
      requires Fail?
    {
      Err(error)
    }
  }

  /** `require!(condition, error)`. */
  function Need(condition: bool, error: Error): Check {
    if condition then Pass else Fail(error)
  }
}
