/** Values that JavaScript code writes as `x | null` or `x | undefined`. */
module Common {

  datatype Option<+T> = None | Some(value: T) {

    /**
     * The carried value, or `default` when there is none: JavaScript's
     * `x || default` as the code writes it (`data.data || []`,
     * `blog.views || 0`). The two agree here because no present value is
     * falsy in a way that changes the result: `[]` is truthy and `0 || 0` is `0`.
     */
    function GetOr(default: T): T {
      match this
      case Some(v) => v
      case None => default
    }
  }
}
