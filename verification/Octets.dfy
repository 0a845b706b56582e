/** Bytes as the packet buffers hold them. */
module Octets {
  newtype Byte = x: int | 0 <= x < 256
  type Bytes = seq<Byte>

  datatype Option<+T> = None | Some(value: T)

  /** The map lookup behind a nullable link: absent keys read as NULL. */
  function Find<K, V>(m: map<K, V>, k: K): Option<V> {
    if k in m then Some(m[k]) else None
  }

  /** c written over the front of buf. */
  function Poke(buf: Bytes, c: Bytes): (r: Bytes)
    requires |c| <= |buf|
    ensures |r| == |buf| && r[..|c|] == c && r[|c|..] == buf[|c|..]
  {
    c + buf[|c|..]
  }

  /** A rewriting that keeps the packet's length. */
  ghost predicate LenKept(f: Bytes -> Bytes) {
    forall b :: |f(b)| == |b|
  }
}
