/** Small result types shared by every model in this project. */
module Wrappers {
  datatype Option<+T> = None | Some(value: T)

  function Elements<T>(s: seq<T>): set<T> {
    set x | x in s
  }

  /** A digest commits to exactly one value. */
  datatype Digest<+T> = Sha(of: T)

  /** A value with the checksum stored beside it. */
  datatype Sealed<+T> = Sealed(body: T, digest: Digest<T>)

  /** The two ways in which a step can fail to return: an exception the caller
      may catch, or the end of the whole process. */
  datatype Fault = Raised | Died

  /** A failure-compatible result: `:-` propagates the fault, as an exception does. */
  datatype Result<+T> = Ok(value: T) | Err(fault: Fault) {
    predicate IsFailure() { Err? }

    function PropagateFailure<U>(): Result<U>
      requires Err?
    {
      Err(fault)
    }

    function Extract(): T
      requires Ok?
    {
      value
    }
  }

  /** A failed check raises. */
  function Require(condition: bool): (r: Result<()>)
    ensures r.Ok? <==> condition
    ensures r.Err? ==> r.fault == Raised
  {
    if condition then Ok(()) else Err(Raised)
  }
}
