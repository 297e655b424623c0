/** Values that Go code returns as a possibly nil pointer or as a (value, error) pair, and a choice of a map entry. */
module Results {
  datatype Option<+T> = None | Some(value: T)

  datatype Result<+T, +E> = Ok(value: T) | Err(error: E)

  /** Any entry of a map, for a loop over its keys. */
  ghost function SomeKey<V>(m: map<string, V>): (k: string)
    requires m != map[]
    ensures k in m
  {
    assert m.Keys != {};
    var k :| k in m;
    k
  }
}
