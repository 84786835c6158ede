/** Machine integers of the gateway and the option type used for Go's nil and "comma ok" results. */
module Words {
  type uint8 = x: int | 0 <= x < 256
  type uint16 = x: int | 0 <= x < 65536
  type uint32 = x: int | 0 <= x < 0x1_0000_0000
  type int8 = x: int | -128 <= x < 128

  datatype Option<+T> = None | Some(value: T)

  /** Two's complement truncation to eight bits. */
  function Wrap8(x: int): int8 {
    (x + 128) % 256 - 128
  }

  /** Truncating early does not change the result. */
  lemma Wrap8Twice(x: int, y: int)
    ensures Wrap8(Wrap8(x) + y) == Wrap8(x + y)
  {
    assert Wrap8(x) == x - 256 * ((x + 128) / 256);
    assert (x + y + 128 - 256 * ((x + 128) / 256)) % 256 == (x + y + 128) % 256;
  }

  function Max(a: int, b: int): int {
    if a > b then a else b
  }

  function Lookup<K, V>(m: map<K, V>, k: K): Option<V> {
    if k in m then Some(m[k]) else None
  }
}
