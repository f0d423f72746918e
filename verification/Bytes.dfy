/** Byte strings, failure values and abstract hashing shared by every module. */
module Bytes {
  type byte = x: int | 0 <= x < 256
  type bytes = seq<byte>

  type Bytes32 = b: bytes | |b| == 32 witness seq(32, _ => 0)

  /** SHA-256 is not modelled: it is some deterministic map from byte strings to 32 bytes. */
  type Hash = bytes -> Bytes32

  /** No two of the given byte strings collide. Asked only of strings that really get hashed. */
  ghost predicate CollisionFree(h: Hash, hashed: set<bytes>) {
    forall x, y | x in hashed && y in hashed && h(x) == h(y) :: x == y
  }

  /** The errors the client library throws. */
  datatype Error =
    | RangeError
    | Truncated
    | NonMinimalSize
    | TrailingBytes
    | WitnessCount
    | BadLocktime
    | BadLength
    | BadPreimage
    | BadAmount
    | BadVout
    | MixedCase
    | NoHrp
    | BadChar
    | BadChecksum
    | BadPadding
    | WrongSpec
    | BadProgram
    | WrongHrp

  datatype Result<+T> = Ok(value: T) | Err(error: Error) {
    predicate IsFailure() {
      Err?
    }

    function PropagateFailure<U>(): Result<U>
      requires Err?
    {
      Err(error)
    }

    function Extract(): T
      requires Ok?
    {
      value
    }
  }

  datatype Option<+T> = None | Some(value: T)
}
