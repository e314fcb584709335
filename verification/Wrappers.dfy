/** Results of fallible operations and the byte type shared by every module. */
module Wrappers {

  datatype Option<+T> = None | Some(value: T)

  datatype Result<+T, +E> = Ok(value: T) | Err(error: E)

  type byte = x: int | 0 <= x < 256

  function Min(a: nat, b: nat): nat { if a < b then a else b }

  function Max(a: nat, b: nat): nat { if a < b then b else a }

  /** The bytes of some pieces, one behind the other. */
  function Concat(pieces: seq<seq<byte>>): seq<byte> {
    if pieces == [] then [] else pieces[0] + Concat(pieces[1..])
  }

  /** True for a hash without collisions: the ideal law assumed of SHA-256. */
  ghost predicate CollisionFree(hash: seq<byte> -> seq<byte>) {
    forall a, b {:trigger hash(a), hash(b)} :: hash(a) == hash(b) ==> a == b
  }
}
