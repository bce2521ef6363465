/** Vocabulary shared by the connection holder and the cache. */
module Common {

  /** A peer's address: netcache.go declares it as a 32-bit signed integer. */
  newtype PeerAddress = x: int | -0x8000_0000 <= x < 0x8000_0000

  /** The identity of a connection object. Connections are opaque collaborators
      (their Open and Close bodies are not part of this model); two candidates
      are the same connection exactly when their identities are equal. */
  type ConnId = nat

  /** An optional value; `None` plays the role of a nil interface value. */
  datatype Option<+T> = None | Some(value: T)

  /** True iff no element of `xs` occurs twice. */
  predicate NoDuplicates<T(==)>(xs: seq<T>) {
    forall i, j :: 0 <= i < j < |xs| ==> xs[i] != xs[j]
  }
}
