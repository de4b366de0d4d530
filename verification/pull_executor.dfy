/** The pull executor on the local tree: a download goes to a temporary file that is then renamed. */
module PullExecuting {
  import opened Types
  import opened Worlds

  function TempOf(rel: Rel): Rel {
    rel + ".tmp"
  }

  /** The tree after a download, as the flat model has it. */
  function Downloaded(files: map<Rel, LocalRec>, rel: Rel, r: LocalRec): map<Rel, LocalRec> {
    files[rel := r]
  }

  /** The tree after a download, as it happens: the temporary name is taken and given up again. */
  function Renamed(files: map<Rel, LocalRec>, rel: Rel, r: LocalRec): map<Rel, LocalRec> {
    (files - {TempOf(rel)})[rel := r]
  }

  class PullExecutor {
    var files: map<Rel, LocalRec>
    /** How many calls the file system, or the stream, has failed. */
    var faults: nat

    constructor (files: map<Rel, LocalRec>)
      ensures this.files == files && faults == 0
    {
      this.files, faults := files, 0;
    }

    /** Replaces the file by what the stream yields; `stream` is the remote content, if it can be opened. A failure
        leaves the file as it was, unless only reading its new metadata failed. */
    method Download(rel: Rel, stream: Option<Bytes>) returns (r: Option<(nat, int)>)
      modifies this
      ensures r.Some? ==> stream.Some? && r.value.0 == |stream.value| && files == Renamed(old(files), rel, LocalRec(stream.value, r.value.1))
      ensures r.None? ==> || files == old(files)
                          || files == old(files) - {TempOf(rel)}
                          || (stream.Some? && exists mtime :: files == Renamed(old(files), rel, LocalRec(stream.value, mtime)))
      ensures stream.None? ==> files == old(files)
      ensures r.None? ==> stream.None? || faults > old(faults)
    {
      if stream.None? {
        return None;
      }
      if * {
        faults := faults + 1;
        return None;
      }
      var tmp := TempOf(rel);
      files := files[tmp := LocalRec([], 0)];
      var copied: nat, mtime: int := *, *;
      if copied < |stream.value| {
        files, faults := files - {tmp}, faults + 1;
        return None;
      }
      files := files[tmp := LocalRec(stream.value, mtime)];
      if * {
        files, faults := files - {tmp}, faults + 1;
        return None;
      }
      files := (files - {tmp})[rel := files[tmp]];
      assert files == Renamed(old(files), rel, LocalRec(stream.value, mtime));
      if * {
        faults := faults + 1;
        return None;
      }
      r := Some((|stream.value|, mtime));
    }

    /** Removes the file; that it is gone already is success. */
    method DeleteLocal(rel: Rel) returns (ok: bool)
      modifies this
      ensures files == if ok then old(files) - {rel} else old(files)
      ensures !ok ==> faults > old(faults)
    {
      if rel !in files {
        return true;
      }
      if * {
        faults := faults + 1;
        return false;
      }
      files := files - {rel};
      ok := true;
    }
  }

  /** A download touches its own path only, exactly if no file has its temporary name. */
  lemma DownloadIsLocalIff(files: map<Rel, LocalRec>, rel: Rel, r: LocalRec)
    ensures Renamed(files, rel, r) == Downloaded(files, rel, r) <==> rel + ".tmp" !in files
  {
    assert |TempOf(rel)| != |rel|;
    if TempOf(rel) in files {
      assert TempOf(rel) in Downloaded(files, rel, r) && TempOf(rel) !in Renamed(files, rel, r);
    }
  }

  /** A successful download is possible in the flat model and has the effect it gives it. */
  lemma DownloadIsEffect(w: World, it: PullItem, mtime: int)
    requires it.op.Download? && HasId(w, it.remoteID) && TempOf(it.rel) !in w.local
    ensures var data := DataOf(w, it.remoteID);
            && Possible(w, Pull(it), |data|, mtime)
            && Effect(w, Pull(it), |data|, mtime).local == Renamed(w.local, it.rel, LocalRec(data, mtime))
  {
    DownloadIsLocalIff(w.local, it.rel, LocalRec(DataOf(w, it.remoteID), mtime));
  }

  lemma DeleteLocalIsEffect(w: World, it: PullItem)
    requires it.op.DeleteLocal?
    ensures Possible(w, Pull(it), 0, 0) && Effect(w, Pull(it), 0, 0).local == w.local - {it.rel}
  {
  }
}
