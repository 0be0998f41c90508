/** Small value types shared by every module of the model. */
module Common {

  /** Largest integer JavaScript's number type represents safely. */
  const MAX_SAFE_INTEGER := 0x1F_FFFF_FFFF_FFFF

  datatype Option<+T> = None | Some(value: T)

  datatype Result<+T, +E> = Success(value: T) | Failure(error: E) {
    predicate IsFailure() {
      Failure?
    }

    function PropagateFailure<U>(): Result<U, E>
      requires Failure?
    {
      Failure(error)
    }

    function Extract(): T
      requires Success?
    {
      value
    }
  }

  /** A promise as its creator sees it: settled at most once with effect, however often a settling call is made. */
  datatype Promise<+V, +E> = Pending | Fulfilled(value: V) | Rejected(error: E)

  /** A promise together with the number of settling calls made on it. */
  datatype Deferred<V, E> = Deferred(promise: Promise<V, E>, calls: nat) {
    predicate Settled() {
      !promise.Pending?
    }

    /** A settled promise ignores further settling calls, but they are counted. */
    function Settle(outcome: Promise<V, E>): Deferred<V, E> {
      if promise.Pending? then Deferred(outcome, calls + 1) else this.(calls := calls + 1)
    }
  }

  /** What a transport reports once a frame was written: its length with the newline, and its number. */
  datatype Receipt = Receipt(byteLength: nat, sequence: nat)

  /** JSON-RPC request ids: strings and numbers, of which only safe integers are usable. */
  datatype RequestId = NumericId(n: int) | TextId(text: string)

  predicate IsRequestId(id: RequestId) {
    id.NumericId? ==> -MAX_SAFE_INTEGER <= id.n <= MAX_SAFE_INTEGER
  }

  datatype TransportError = ProtocolError | CapacityError | ClosedError | WriteError

  /** The last n elements of s, or all of s when it is shorter. */
  function Last<T>(s: seq<T>, n: nat): (r: seq<T>)
    ensures |r| == if n <= |s| then n else |s|
  {
    if n <= |s| then s[|s| - n..] else s
  }

  ghost predicate NoDuplicates<T>(s: seq<T>) {
    forall i, j :: 0 <= i < j < |s| ==> s[i] != s[j]
  }
}
