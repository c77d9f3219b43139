/**
 * The usearch index as the program uses it: built once from its options,
 * given a capacity, filled one key at a time and finally saved. Its search
 * structure is not modelled; its contents are a map from key to vector.
 */
module VectorIndex {
  import opened Wrappers
  import opened Flags

  /** What a save writes: the path and the entries at that moment. */
  datatype Snapshot<E> = Snapshot(path: string, entries: map<nat, seq<E>>)

  class Index<E> {
    const options: IndexOptions
    var capacity: nat
    var entries: map<nat, seq<E>>
    var saved: Option<Snapshot<E>>
    /** The keys passed to `add` so far, in call order. */
    ghost var addLog: seq<nat>

    /** `new_index`: an empty index with no capacity reserved, never saved. */
    constructor (options: IndexOptions)
      ensures this.options == options
      ensures capacity == 0 && entries == map[] && saved == None && addLog == []
    {
      this.options := options;
      capacity := 0;
      entries := map[];
      saved := None;
      addLog := [];
    }

    /** `Index::reserve`: sets the capacity and leaves the entries alone. */
    method Reserve(n: nat)
      modifies this
      ensures capacity == n
      ensures entries == old(entries) && saved == old(saved) && addLog == old(addLog)
    {
      capacity := n;
    }

    /** `Index::add`: stores `vector` under `key`. */
    method Add(key: nat, vector: seq<E>)
      modifies this
      ensures entries == old(entries)[key := vector]
      ensures addLog == old(addLog) + [key]
      ensures capacity == old(capacity) && saved == old(saved)
    {
      entries := entries[key := vector];
      addLog := addLog + [key];
    }

    /** `Index::save`: records what is written to `path`. */
    method Save(path: string)
      modifies this
      ensures saved == Some(Snapshot(path, entries))
      ensures entries == old(entries) && capacity == old(capacity) && addLog == old(addLog)
    {
      saved := Some(Snapshot(path, entries));
    }
  }
}
