/** Types shared by the output modules: octets, optional values and the
    thread-module return code. */
module Common {

  /** An unsigned 8-bit value (`uint8_t`). */
  type byte = b: int | 0 <= b < 256

  datatype Option<+T> = None | Some(value: T)

  /** `TmEcode`: the status a thread-module callable returns. */
  datatype TmEcode = TmOk | TmFailed
}
