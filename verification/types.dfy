/** The records the sync engine passes around. */
module Types {

  /** A path relative to the sync root, slash-separated, one char a byte. */
  type Rel = string

  newtype Byte = x: int | 0 <= x < 256
  type Bytes = seq<Byte>

  datatype Option<+T> = None | Some(value: T)

  function Lookup<K, V>(m: map<K, V>, k: K): Option<V> {
    if k in m then Some(m[k]) else None
  }

  /** The last-synced state of one file. */
  datatype Entry = Entry(size: int, localMtime: int, remoteID: int, remoteMtime: int)

  /** What the local walk reports for one file. */
  datatype LocalFile = LocalFile(rel: Rel, size: int, mtime: int)

  /** What the remote index reports for one file. */
  datatype IndexEntry = IndexEntry(id: int, size: int, mtime: int)

  datatype Op = Upload | Overwrite | Delete | Move

  /** A planned push action; fields an operation does not use are zero or empty. */
  datatype Item = Item(rel: Rel, op: Op, remoteID: int, size: int, mtime: int, srcRel: Rel)

  datatype PullOp = Download | DeleteLocal

  datatype PullItem = PullItem(rel: Rel, op: PullOp, remoteID: int, size: int, remoteMtime: int)

  /** An item of either runner. */
  datatype Job = Push(item: Item) | Pull(pullItem: PullItem) {
    function Rel(): Rel {
      match this
      case Push(it) => it.rel
      case Pull(it) => it.rel
    }
  }
}
