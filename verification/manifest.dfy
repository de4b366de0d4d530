/** The baseline: the last-synced entry of every path. */
module Manifests {
  import opened Types

  class Manifest {
    var entries: map<Rel, Entry>

    constructor ()
      ensures entries == map[]
    {
      entries := map[];
    }

    method Get(rel: Rel) returns (e: Option<Entry>)
      ensures e == Lookup(entries, rel)
    {
      if rel in entries {
        e := Some(entries[rel]);
      } else {
        e := None;
      }
    }

    method Set(rel: Rel, e: Entry)
      modifies this
      ensures entries == old(entries)[rel := e]
    {
      entries := entries[rel := e];
    }

    method Delete(rel: Rel)
      modifies this
      ensures entries == old(entries) - {rel}
    {
      entries := entries - {rel};
    }

    function Len(): (n: nat)
      reads this
      ensures n == 0 <==> entries == map[]
    {
      |entries|
    }
  }

  /** What a checkpoint or the final save left on disk, and how many saves have failed. */
  class Disk {
    var saved: map<Rel, Entry>
    var failures: nat

    constructor (initial: map<Rel, Entry>)
      ensures saved == initial && failures == 0
    {
      saved, failures := initial, 0;
    }

    /** A save is a temp file and a rename: it replaces the whole file at once, or fails and leaves it as it was. */
    method Save(m: Manifest) returns (ok: bool)
      modifies this
      ensures saved == if ok then m.entries else old(saved)
      ensures failures == old(failures) + (if ok then 0 else 1)
    {
      if * {
        failures := failures + 1;
        return false;
      }
      saved := m.entries;
      ok := true;
    }
  }
}
