/** Outcomes shared by every part of the engine. */
module Common {

  /** The outcome of a fallible step: Rust's `Ok(value)` and `Err(String)`, plus a
      failed `assert!`, which aborts the caller with a panic instead of returning. */
  datatype Result<+T> = Ok(value: T) | Err(msg: string) | Panic(msg: string) {

    predicate IsFailure() {
      !Ok?
    }

    function PropagateFailure<U>(): (r: Result<U>)
      requires IsFailure()
      ensures r.Err? == Err? && r.Panic? == Panic? && r.msg == msg
    {
      if Err? then Err(msg) else Panic(msg)
    }

    function Extract(): T
      requires Ok?
    {
      value
    }
  }

  datatype Option<+T> = None | Some(value: T)

  /** `u32::MAX + 1`: the width of the source's `u32` values. */
  const U32Limit: nat := 0x1_0000_0000
}
