/** Types shared by every part of the model. */
module Common {

  datatype Option<+T> = None | Some(value: T) {
    function GetOr(default: T): T {
      match this
      case Some(v) => v
      case None => default
    }
  }

  newtype byte = x: int | 0 <= x < 256

  type Bytes = seq<byte>

  type pos = x: nat | 0 < x witness 1
}
