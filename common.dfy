/** Small value types shared by the whole model: optional values, the outcome of
    an awaited external call, and the JavaScript number a reveal hands back. */
module Common {

  datatype Option<+T> = None | Some(value: T) {
    /** JavaScript's `x ?? d` / `x || d` for a value that may be undefined. */
    function GetOr(default: T): T {
      match this
      case Some(v) => v
      case None => default
    }
  }

  /** The outcome of one awaited call into a collaborator (ledger, wallet,
      encryption or decryption gateway): it settles with a value, or it throws
      an error whose `message` property may be absent. */
  datatype Attempt<+T> = Done(value: T) | Threw(message: Option<string>)

  /** A JavaScript number as produced by `Number(v)`: an integer, or NaN when
      `v` is undefined. */
  datatype JsNumber = Num(n: int) | NaN

  /** The three kinds of transaction banner. */
  datatype BannerKind = Pending | Success | Error

  /** The transaction banner `{ visible, status, message }`. */
  datatype Banner = Banner(visible: bool, kind: BannerKind, message: string)

  const HiddenBanner: Banner := Banner(false, Pending, "")
}
