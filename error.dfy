/** Result codes shared by tasks and device status (Error.h / Error.cpp). */
module Error {
  /** `enum class ErrorCode : int`: a cast from any `int` is a value of the
      type, so the named codes are constants of an int-backed type. */
  newtype ErrorCode = c: int | -0x8000_0000 <= c < 0x8000_0000

  const Ok: ErrorCode := 0
  const InvalidCommand: ErrorCode := 1
  const UnknownDevice: ErrorCode := 2
  const DeviceOffline: ErrorCode := 3
  const Timeout: ErrorCode := 4
  const DriverError: ErrorCode := 5
  const EStop: ErrorCode := 6
  const InternalError: ErrorCode := 7

  const UnknownName: string := "UnknownErrorCode"

  predicate IsNamed(c: ErrorCode) { Ok <= c <= InternalError }

  /** The name table; any code outside 0..7 falls back to "UnknownErrorCode". */
  function ToString(c: ErrorCode): (name: string)
    ensures |name| > 0
  {
    match c
    case 0 => "Ok"
    case 1 => "InvalidCommand"
    case 2 => "UnknownDevice"
    case 3 => "DeviceOffline"
    case 4 => "Timeout"
    case 5 => "DriverError"
    case 6 => "EStop"
    case 7 => "InternalError"
    case _ => UnknownName
  }

  /** Each of the eight codes has its own name: the table is injective on the
      named codes, and the fallback name belongs to exactly the others. */
  lemma NamesDistinct(a: ErrorCode, b: ErrorCode)
    ensures IsNamed(a) && IsNamed(b) && a != b ==> ToString(a) != ToString(b)
    ensures ToString(a) == UnknownName <==> !IsNamed(a)
  {
  }
}
