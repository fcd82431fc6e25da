/** Wrappers shared by every module: optional values, results carrying the kind of
    exception the code distinguishes, and the outcome of reading a file. */
module Base {

  datatype Option<T> = None | Some(value: T)

  /** The exceptions the code tells apart. `NotFound` is `FileNotFoundError`; every
      other exception the code catches or re-raises is `Invalid`, with its message. */
  datatype Error = NotFound(path: string) | Invalid(message: string)

  datatype Result<T> = Ok(value: T) | Err(error: Error)
  {
    predicate IsFailure() { Err? }

    function PropagateFailure<U>(): Result<U>
      requires Err?
    {
      Err(error)
    }

    function Extract(): T
      requires Ok?
    {
      value
    }
  }

  /** Reading a text file: its contents, the file is absent, or reading raised. */
  datatype FileRead = FileText(text: string) | FileMissing | FileFailed(message: string)

  /** Python truthiness of an optional string: `None` and `""` are false. */
  predicate HasText(s: Option<string>) { s.Some? && |s.value| > 0 }

  /** `a or b` on optional strings. */
  function OrText(a: Option<string>, b: Option<string>): (r: Option<string>)
    ensures HasText(a) ==> r == a
    ensures !HasText(a) ==> r == b
  {
    if HasText(a) then a else b
  }
}
