/** Option and Result, used for JavaScript's optional values (`undefined`,
    `null`, a failed `find`) and for promises that resolve or reject. */
module Wrappers {

  datatype Option<+T> = None | Some(value: T) {
    function GetOr(default: T): T {
      match this
      case Some(v) => v
      case None => default
    }
  }

  datatype Result<+R, +E> = Ok(value: R) | Err(error: E)
}
