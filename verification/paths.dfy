/** Slash-separated paths and their segments. */
module Paths {
  import opened Texts

  predicate SlashFree(name: string) {
    '/' !in name
  }

  predicate AllSlashFree(names: seq<string>) {
    forall i :: 0 <= i < |names| ==> SlashFree(names[i])
  }

  /** The segments of a path: one more than it has slashes. */
  function Split(s: string): (parts: seq<string>)
    ensures |parts| >= 1
  {
    if s == [] then [[]]
    else if s[0] == '/' then [[]] + Split(s[1..])
    else [[s[0]] + Split(s[1..])[0]] + Split(s[1..])[1..]
  }

  function Join(parts: seq<string>): string
    requires |parts| >= 1
  {
    if |parts| == 1 then parts[0] else parts[0] + "/" + Join(parts[1..])
  }

  lemma {:induction false} SplitIsSlashFree(s: string)
    ensures AllSlashFree(Split(s))
  {
    if s != [] {
      SplitIsSlashFree(s[1..]);
      var rest := Split(s[1..]);
      assert SlashFree(rest[0]);
    }
  }

  lemma JoinCons(name: string, rest: seq<string>)
    requires rest != []
    ensures Join([name] + rest) == name + "/" + Join(rest)
  {
    assert ([name] + rest)[1..] == rest;
  }

  lemma JoinFirst(c: char, parts: seq<string>)
    requires |parts| >= 1
    ensures Join([[c] + parts[0]] + parts[1..]) == [c] + Join(parts)
  {
    var first, rest := [c] + parts[0], parts[1..];
    if rest == [] {
      assert [first] + rest == [first];
    } else {
      JoinCons(first, rest);
      PlusAssociates([c], parts[0], "/");
      PlusAssociates([c], parts[0] + "/", Join(rest));
    }
  }

  lemma {:induction false} JoinSplit(s: string)
    ensures Join(Split(s)) == s
  {
    if s != [] {
      JoinSplit(s[1..]);
      if s[0] == '/' {
        JoinCons([], Split(s[1..]));
        assert s == [] + "/" + s[1..];
      } else {
        JoinFirst(s[0], Split(s[1..]));
        assert s == [s[0]] + s[1..];
      }
    }
  }

  lemma {:induction false} SplitName(name: string)
    requires SlashFree(name)
    ensures Split(name) == [name]
  {
    if name != [] {
      SplitName(name[1..]);
      assert name == [name[0]] + name[1..];
    }
  }

  lemma {:induction false} SplitPrefix(name: string, rest: string)
    requires SlashFree(name)
    ensures Split(name + "/" + rest) == [name] + Split(rest)
  {
    if name == [] {
      assert name + "/" + rest == ['/'] + rest;
    } else {
      SplitPrefix(name[1..], rest);
      assert (name + "/" + rest)[1..] == name[1..] + "/" + rest;
      assert name == [name[0]] + name[1..];
    }
  }

  lemma {:induction false} SplitJoin(parts: seq<string>)
    requires |parts| >= 1 && AllSlashFree(parts)
    ensures Split(Join(parts)) == parts
  {
    assert SlashFree(parts[0]);
    if |parts| == 1 {
      SplitName(parts[0]);
    } else {
      SplitPrefix(parts[0], Join(parts[1..]));
      SplitJoin(parts[1..]);
    }
  }

  /** Different slash-free segments make different paths. */
  lemma JoinIsInjective(a: seq<string>, b: seq<string>)
    requires |a| >= 1 && |b| >= 1 && AllSlashFree(a) && AllSlashFree(b)
    requires Join(a) == Join(b)
    ensures a == b
  {
    SplitJoin(a);
    SplitJoin(b);
  }

  lemma {:induction false} JoinAppend(parts: seq<string>, name: string)
    requires |parts| >= 1
    ensures Join(parts + [name]) == Join(parts) + "/" + name
  {
    if |parts| > 1 {
      assert (parts + [name])[1..] == parts[1..] + [name];
      JoinAppend(parts[1..], name);
    }
  }

  // ---- The folder and the name of a path ----

  function DirOf(p: string): seq<string> {
    Split(p)[..|Split(p)| - 1]
  }

  function BaseOf(p: string): string {
    Split(p)[|Split(p)| - 1]
  }

  lemma SameParts(p: string, q: string)
    requires DirOf(p) == DirOf(q) && BaseOf(p) == BaseOf(q)
    ensures p == q
  {
    assert Split(p) == DirOf(p) + [BaseOf(p)] && Split(q) == DirOf(q) + [BaseOf(q)];
    JoinSplit(p);
    JoinSplit(q);
  }

  /** In the folder of `to`, but still under the name of `from`. */
  function Halfway(from: string, to: string): string {
    Join(DirOf(to) + [BaseOf(from)])
  }

  lemma HalfwayParts(from: string, to: string)
    ensures DirOf(Halfway(from, to)) == DirOf(to) && BaseOf(Halfway(from, to)) == BaseOf(from)
    ensures DirOf(from) == DirOf(to) ==> Halfway(from, to) == from
    ensures BaseOf(from) == BaseOf(to) ==> Halfway(from, to) == to
  {
    SplitIsSlashFree(from);
    SplitIsSlashFree(to);
    var parts := DirOf(to) + [BaseOf(from)];
    forall i | 0 <= i < |parts| ensures SlashFree(parts[i]) {
      if i < |DirOf(to)| { assert parts[i] == Split(to)[i]; }
    }
    SplitJoin(parts);
    assert parts[..|parts| - 1] == DirOf(to);
    if DirOf(from) == DirOf(to) { SameParts(Halfway(from, to), from); }
    if BaseOf(from) == BaseOf(to) { SameParts(Halfway(from, to), to); }
  }

  /** The directories a local walk does not enter, as UTF-8 bytes: the digiKam trash and the culling folder. */
  const PRUNED_DIRS: set<string> := {".dtrash", "\U{00C3}\U{00A0} trier"}

  /** Whether a path lies below a directory that the local walk does not enter. */
  predicate Pruned(rel: string) {
    exists i :: 0 <= i < |Split(rel)| - 1 && Split(rel)[i] in PRUNED_DIRS
  }

  /** A file is below a pruned directory exactly if one of the directories on its path has such a name; its own name does
      not matter. */
  lemma PrunedIff(dirs: seq<string>, name: string)
    requires AllSlashFree(dirs + [name])
    ensures Pruned(Join(dirs + [name])) <==> exists i :: 0 <= i < |dirs| && (dirs[i] == ".dtrash" || dirs[i] == "\U{00C3}\U{00A0} trier")
  {
    var (parts, rel) := (dirs + [name], Join(dirs + [name]));
    SplitJoin(parts);
    if Pruned(rel) {
      var i :| 0 <= i < |Split(rel)| - 1 && Split(rel)[i] in PRUNED_DIRS;
      assert dirs[i] == parts[i];
    }
    if i :| 0 <= i < |dirs| && (dirs[i] == ".dtrash" || dirs[i] == "\U{00C3}\U{00A0} trier") {
      assert Split(rel)[i] == dirs[i] && Split(rel)[i] in PRUNED_DIRS;
    }
  }
}
