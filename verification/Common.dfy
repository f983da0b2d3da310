/** What several parts of the model share. */
module Common {
  datatype Option<+T> = None | Some(value: T)

  function Min(a: nat, b: nat): nat {
    if a <= b then a else b
  }

  function Flatten<T>(parts: seq<seq<T>>): seq<T> {
    if parts == [] then [] else parts[0] + Flatten(parts[1..])
  }

  const MAX_PARTITIONS := 64

  /** The number of partitions of a run. */
  function Clamp(requested: int): (count: nat)
    ensures 1 <= count <= MAX_PARTITIONS
  {
    if requested < 1 then 1 else if requested > MAX_PARTITIONS then MAX_PARTITIONS else requested
  }

  lemma InsertGrows<K, V>(table: map<K, V>, k: K, v: V)
    ensures |table[k := v]| <= |table| + 1
  {
    assert table[k := v].Keys == table.Keys + {k};
  }
}
