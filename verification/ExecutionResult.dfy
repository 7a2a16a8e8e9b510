/** Execution results and error codes shared by every component. */
module Results {

  datatype Option<+T> = None | Some(value: T)

  /** The error codes the modelled components return, and the codes of the cloud client. */
  datatype Error =
    | Unknown
    | UnexpectedNumberOfColumns
    | ColumnIndexOutOfBounds
    | BufferAtCapacity
    | NoRowAvailable
    | QueueFull
    | ElementAlreadyExists
    | ElementDoesNotExist
    | NotDone
    | External(code: nat)

  datatype ExecutionResult = Success | Failure(error: Error) | Retry(error: Error)

  /** A default-constructed result is a failure. */
  const DEFAULT_RESULT := Failure(Unknown)

  datatype ResultOr<+T> = Ok(value: T) | Err(result: ExecutionResult)

  /** Values of `size_t` wrap at this modulus. */
  const SIZE_T_MODULUS: nat := 0x1_0000_0000_0000_0000

  /** Unsigned 64-bit subtraction. */
  function SizeSub(a: nat, b: nat): (difference: nat)
    ensures difference < SIZE_T_MODULUS && (difference + b) % SIZE_T_MODULUS == a % SIZE_T_MODULUS
  {
    (a - b) % SIZE_T_MODULUS
  }

  lemma SizeSubExact(a: nat, b: nat)
    requires b <= a < SIZE_T_MODULUS
    ensures SizeSub(a, b) == a - b
  {
  }

  /** `static_cast<int>` of a stream position. */
  function ToInt32(x: int): (narrow: int)
    ensures -0x8000_0000 <= narrow < 0x8000_0000 && (x - narrow) % 0x1_0000_0000 == 0
  {
    var m := x % 0x1_0000_0000;
    if m < 0x8000_0000 then m else m - 0x1_0000_0000
  }
}
