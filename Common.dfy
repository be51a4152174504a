/** Small value wrappers shared by every module of the model. */
module Common {

  /** A value that may be absent: JavaScript's `undefined`/`null` field. */
  datatype Option<+T> = None | Some(value: T) {
    function GetOr(default: T): T {
      match this
      case Some(v) => v
      case None => default
    }
  }

  /** The outcome of one query against the hosted backend. */
  datatype Query<+T> = Rows(data: T) | QueryFailed(message: string)

  /** `Math.round`: the nearest integer, halves rounded up. */
  function Round(x: real): (n: int)
    ensures n as real - 0.5 <= x < n as real + 0.5
  {
    (x + 0.5).Floor
  }
}
