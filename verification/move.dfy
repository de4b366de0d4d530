/** Relocating one remote file by its id: look first, then move and rename only as far as needed. */
module Moving {
  import opened Types
  import opened Pool

  /** Where the file is and when it changed last; how many moves and renames took effect; how many were asked for. */
  datatype Place = Place(parent: int, name: string, mtime: int, moves: nat, renames: nat, asked: nat)

  datatype Target = Target(parent: int, name: string)

  predicate Reached(t: Target, p: Place) {
    p.parent == t.parent && p.name == t.name
  }

  /** What one attempt, finished or interrupted, may do when the drive reports parent ids. */
  predicate Attempted(t: Target, p: Place, p': Place, r: Option<int>) {
    && (p'.parent == p.parent || p'.parent == t.parent)
    && (p'.name == p.name || p'.name == t.name)
    && (p'.name != p.name ==> p'.parent == t.parent)
    && (p'.parent == p.parent && p'.name == p.name ==> p'.mtime == p.mtime)
    && p'.moves + One(p'.parent != t.parent) == p.moves + One(p.parent != t.parent)
    && p'.renames + One(p'.name != t.name) == p.renames + One(p.name != t.name)
    && (Reached(t, p) ==> p' == p)
    && (r.Some? ==> Reached(t, p') && r.value == p'.mtime)
  }

  class RemoteFile {
    var place: Place
    /** Calls left before the process dies. */
    var fuel: nat
    /** How many calls have failed, or were cut off by the end of the process. */
    var faults: nat
    const reportsParent: bool

    constructor (place: Place, fuel: nat, reportsParent: bool)
      ensures this.place == place && this.fuel == fuel && this.reportsParent == reportsParent && faults == 0
    {
      this.place, this.fuel, this.reportsParent, faults := place, fuel, reportsParent, 0;
    }

    /** The file's metadata; its parent is 0 where the drive omits it. */
    method Stat() returns (r: Option<Place>)
      modifies this`fuel, this`faults
      ensures faults == old(faults) + (if r.None? then 1 else 0)
      ensures r.Some? ==> r.value == place.(parent := if reportsParent then place.parent else 0)
    {
      if fuel == 0 {
        faults := faults + 1;
        return None;
      }
      fuel := fuel - 1;
      if * {
        faults := faults + 1;
        return None;
      }
      r := Some(place.(parent := if reportsParent then place.parent else 0));
    }

    /** Moves the file to another folder. A refused call changes nothing. An answer can be lost: then the call took
        effect and nothing after it is done. */
    method MoveTo(parent: int) returns (ok: bool)
      modifies this
      ensures old(place.asked) <= place.asked <= old(place.asked) + 1 && (place.asked == old(place.asked) ==> place == old(place))
      ensures place == old(place).(asked := place.asked)
              || (place.parent == parent && place.moves == old(place.moves) + 1
                  && place == old(place).(asked := place.asked, parent := place.parent, moves := place.moves, mtime := place.mtime))
      ensures faults == old(faults) + (if ok then 0 else 1)
      ensures ok ==> place.parent == parent && place.moves == old(place.moves) + 1
    {
      if fuel == 0 {
        faults := faults + 1;
        return false;
      }
      fuel := fuel - 1;
      place := place.(asked := place.asked + 1);
      if * {
        faults := faults + 1;
        return false;
      }
      var mtime: int := *;
      place := place.(parent := parent, moves := place.moves + 1, mtime := mtime);
      ok := fuel > 0;
      if !ok {
        faults := faults + 1;
      }
    }

    method Rename(name: string) returns (r: Option<int>)
      modifies this
      ensures old(place.asked) <= place.asked <= old(place.asked) + 1 && (place.asked == old(place.asked) ==> place == old(place))
      ensures place == old(place).(asked := place.asked)
              || (place.name == name && place.renames == old(place.renames) + 1
                  && place == old(place).(asked := place.asked, name := place.name, renames := place.renames, mtime := place.mtime))
      ensures faults == old(faults) + (if r.None? then 1 else 0)
      ensures r.Some? ==> place.name == name && place.renames == old(place.renames) + 1 && r.value == place.mtime
    {
      if fuel == 0 {
        faults := faults + 1;
        return None;
      }
      fuel := fuel - 1;
      place := place.(asked := place.asked + 1);
      if * {
        faults := faults + 1;
        return None;
      }
      var mtime: int := *;
      place := place.(name := name, renames := place.renames + 1, mtime := mtime);
      if * {
        faults := faults + 1;
        return None;
      }
      r := Some(mtime);
    }
  }

  /** One attempt at the move. `dest` is the resolved target folder, if resolving it succeeded; `sameDir` says whether
      the recorded paths have the same directory. */
  method Move(f: RemoteFile, dest: Option<int>, name: string, sameDir: bool) returns (r: Option<int>)
    requires dest.Some? ==> dest.value > 0
    requires f.reportsParent ==> f.place.parent > 0
    modifies f
    ensures dest.None? ==> r.None? && f.place == old(f.place)
    ensures dest.Some? && f.reportsParent ==> Attempted(Target(dest.value, name), old(f.place), f.place, r)
    ensures dest.Some? && !f.reportsParent && r.Some? ==>
              && f.place.name == name && r.value == f.place.mtime
              && f.place.parent == (if sameDir then old(f.place.parent) else dest.value)
    ensures r.None? ==> dest.None? || f.faults > old(f.faults)
    ensures f.place.asked <= old(f.place.asked) + 2
    ensures f.place.asked == old(f.place.asked) ==> f.place == old(f.place)
  {
    var cur := f.Stat();
    if cur.None? || dest.None? {
      return None;
    }
    var needMove := cur.value.parent != dest.value;
    if cur.value.parent == 0 {
      needMove := !sameDir;
    }
    if needMove {
      var ok := f.MoveTo(dest.value);
      if !ok {
        return None;
      }
    }
    if cur.value.name != name {
      r := f.Rename(name);
      return;
    }
    if !needMove {
      return Some(cur.value.mtime);
    }
    var info := f.Stat();
    if info.None? {
      return None;
    }
    r := Some(info.value.mtime);
  }

  // ---- Main results ----

  /** Attempts one after the other, nobody else touching the file in between. */
  predicate Attempts(t: Target, places: seq<Place>, results: seq<Option<int>>) {
    && |places| == |results| + 1
    && forall i :: 0 <= i < |results| ==> Attempted(t, places[i], places[i + 1], results[i])
  }

  /** Over any number of attempts at most one move and one rename take effect, and none that was not needed; the
      first attempt to complete leaves the file at its target, and from then on no call that changes anything is so
      much as issued, and every completed attempt reports the file's live mtime. */
  lemma {:induction false} MoveHeals(t: Target, places: seq<Place>, results: seq<Option<int>>, done: nat)
    requires Attempts(t, places, results)
    ensures var (first, last) := (places[0], places[|results|]);
            && last.moves - first.moves == One(first.parent != t.parent) - One(last.parent != t.parent)
            && last.renames - first.renames == One(first.name != t.name) - One(last.name != t.name)
            && last.parent in {first.parent, t.parent} && last.name in {first.name, t.name}
    ensures done < |results| && results[done].Some? ==>
              && Reached(t, places[|results|]) && places[|results|] == places[done + 1]
              && (results[|results| - 1].Some? ==> results[|results| - 1].value == results[done].value == places[|results|].mtime)
  {
    if |results| > 0 {
      var n := |results| - 1;
      MoveHeals(t, places[..n + 1], results[..n], done);
      assert Attempted(t, places[n], places[n + 1], results[n]);
    }
  }
}
