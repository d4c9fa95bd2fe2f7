/** Checked i128 arithmetic and the three ways a contract call can end.

    The contract runs on 128-bit signed integers with checked operations: an
    operation that leaves the range panics, and a panic or an error result rolls
    the whole call back.
 */
module Checked {

  datatype Option<+T> = None | Some(value: T)

  const U64_MAX: int := 0xffff_ffff_ffff_ffff
  const I128_MAX: int := 0x7fff_ffff_ffff_ffff_ffff_ffff_ffff_ffff
  const I128_MIN: int := -0x8000_0000_0000_0000_0000_0000_0000_0000

  predicate InI128(x: int) {
    I128_MIN <= x <= I128_MAX
  }

  datatype VaultError =
    | InsufficientShares
    | InvalidAmount
    | ContractPaused
    | ExceedsUserCap
    | MinDepositNotMet
    | TimelockNotExpired
    | NoPendingWithdrawal
    | LiquidityBufferNotMet
    | ExceedsStrategyCap
    | ExceedsRiskThreshold
    | WithdrawalCooldownActive
    | MathOverflow
    | SlippageExceeded
    | BatchTooLarge
    | RelayerNotAuthorized

  /** The numeric codes of the contract's error enumeration. */
  function ErrorCode(e: VaultError): nat {
    match e
    case InsufficientShares => 2
    case InvalidAmount => 3
    case ContractPaused => 4
    case ExceedsUserCap => 5
    case MinDepositNotMet => 6
    case TimelockNotExpired => 7
    case NoPendingWithdrawal => 8
    case LiquidityBufferNotMet => 9
    case ExceedsStrategyCap => 10
    case ExceedsRiskThreshold => 11
    case WithdrawalCooldownActive => 12
    case MathOverflow => 14
    case SlippageExceeded => 15
    case BatchTooLarge => 16
    case RelayerNotAuthorized => 17
  }

  /** How a call ends: with a value, with an error code, or by panicking. */
  datatype Outcome<+T> = Done(value: T) | Error(code: VaultError) | Panic {
    predicate IsFailure() {
      !Done?
    }

    function PropagateFailure<U>(): Outcome<U>
      requires IsFailure()
    {
      match this
      case Error(e) => Error(e)
      case Panic => Panic
    }

    function Extract(): T
      requires Done?
    {
      value
    }
  }

  /** The outcome of a guard, which carries no value. */
  datatype Guard = Pass | Refuse(code: VaultError) | Abort {
    predicate IsFailure() {
      !Pass?
    }

    function PropagateFailure<U>(): Outcome<U>
      requires IsFailure()
    {
      match this
      case Refuse(e) => Error(e)
      case Abort => Panic
    }
  }

  /** `if !condition { return Err(code) }` */
  function Need(condition: bool, code: VaultError): Guard {
    if condition then Pass else Refuse(code)
  }

  /** `if !condition { panic!() }`, also the shape of a failed authorisation. */
  function Insist(condition: bool): Guard {
    if condition then Pass else Abort
  }

  function Checked(x: int): Outcome<int> {
    if InI128(x) then Done(x) else Panic
  }

  function Add(x: int, y: int): Outcome<int> {
    Checked(x + y)
  }

  function Sub(x: int, y: int): Outcome<int> {
    Checked(x - y)
  }

  function Mul(x: int, y: int): Outcome<int> {
    Checked(x * y)
  }

  /** Integer division that truncates toward zero, for either sign. */
  function Quotient(x: int, y: int): int
    requires y != 0
  {
    if x >= 0 then x / y else -((-x) / y)
  }

  /** `checked_div` followed by `expect`: a zero divisor panics. */
  function Div(x: int, y: int): Outcome<int> {
    if y == 0 then Panic else Checked(Quotient(x, y))
  }
}
