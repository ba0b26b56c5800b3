/** Small value types shared by every module: options, fixed-width integers and the
    integer-or-percentage values that Kubernetes strategies are written in. */
module Common {

  datatype Option<+T> = None | Some(value: T) {
    function GetOr(default: T): T {
      match this
      case Some(v) => v
      case None => default
    }
  }

  function Min(a: int, b: int): int {
    if a < b then a else b
  }

  function Max(a: int, b: int): int {
    if a > b then a else b
  }

  const TWO_TO_31: int := 0x8000_0000
  const TWO_TO_32: int := 0x1_0000_0000
  const MAX_INT32: int := 0x7fff_ffff

  predicate FitsInt32(x: int) {
    -TWO_TO_31 <= x < TWO_TO_31
  }

  /** Conversion to a 32-bit two's-complement integer, as a Go `int32(x)` conversion does it. */
  function ToInt32(x: int): int {
    (x + TWO_TO_31) % TWO_TO_32 - TWO_TO_31
  }

  /** Clock readings and durations are in nanoseconds; stored times are in whole seconds. */
  const SECOND: int := 1_000_000_000

  function WholeSecond(t: int): int {
    t - t % SECOND
  }

  function WholeSeconds(t: Option<int>): Option<int> {
    if t.Some? then Some(WholeSecond(t.value)) else None
  }

  /** Rounded quotients for a positive divisor; Dafny's `/` rounds down for those. */
  function FloorDiv(x: int, y: int): int
    requires y > 0
  {
    x / y
  }

  function CeilDiv(x: int, y: int): int
    requires y > 0
  {
    -((-x) / y)
  }

  /** intstr.IntOrString: a count, a percentage such as "25%", or text that is neither. */
  datatype IntOrPercent = Count(n: int) | Percent(p: int) | Malformed

  /** intstr.GetScaledValueFromIntOrPercent; None stands for its error. */
  function ScaledValue(v: IntOrPercent, total: int, roundUp: bool): Option<int> {
    match v
    case Count(n) => Some(n)
    case Percent(p) => Some(if roundUp then CeilDiv(p * total, 100) else FloorDiv(p * total, 100))
    case Malformed => None
  }

  /** The phase of an AnalysisRun, of one of its metrics or of a single measurement; the empty
      phase is Unstarted. */
  datatype Verdict = Unstarted | Pending | Running | Successful | Failed | Error | Inconclusive
}
