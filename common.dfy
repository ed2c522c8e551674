/** Shared value types: the optional and fallible results the Rust code returns,
    and the byte type used for file contents. */
module Common {

  /** Rust's `Option<T>`. */
  datatype Option<+T> = None | Some(value: T)

  /** Rust's `Result<T, String>`: every command of the backend reports its failure
      as a human-readable message. */
  datatype Result<+T> = Ok(value: T) | Err(error: string)

  /** The outcome of one HTTP request: it could not be sent, the server answered
      with a non-success status and `body`, or it succeeded with `payload`. */
  datatype HttpOutcome<+T> = SendFailed(reason: string) | NotSuccess(body: string) | Success(payload: T)

  /** One byte of a file's contents. */
  newtype byte = x: int | 0 <= x < 256

  /** Largest value of Rust's `u64`, plus one. */
  const U64Limit: nat := 0x1_0000_0000_0000_0000

  function OptionOr<T>(o: Option<T>, default: T): (r: T)
    ensures o.Some? ==> r == o.value
    ensures o.None? ==> r == default
  {
    match o
    case Some(v) => v
    case None => default
  }

  /** A sequence is the part before position `k`, the element at `k`, and the
      part after it. */
  lemma SplitAround<T>(s: seq<T>, k: nat)
    requires k < |s|
    ensures s == s[..k] + [s[k]] + s[k + 1..]
  {
    assert s[..k] + [s[k]] == s[..k + 1];
  }
}
