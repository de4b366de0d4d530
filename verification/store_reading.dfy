/** What a manifest file means line by line, whoever wrote it. */
module StoreReading {
  import opened Types
  import opened Decimals
  import opened Texts
  import opened Store
  import opened StoreRoundTrip

  // ---- White space ----

  predicate AllSpaces(s: string) {
    forall i :: 0 <= i < |s| ==> IsSpace(s[i])
  }

  predicate Bare(s: string) {
    SpaceBefore(s) == 0 && SpaceAfter(s) == 0
  }

  lemma {:induction false} TrimsBefore(a: string, s: string)
    requires AllSpaces(a)
    ensures TrimSpace(a + s) == TrimSpace(s)
  {
    if a == "" {
      assert a + s == s;
    } else {
      assert IsSpace(a[0]) && (a + s)[..1] == [a[0]] && (a + s)[1..] == a[1..] + s;
      TrimsBefore(a[1..], s);
    }
  }

  lemma TrimsLast(s: string)
    requires s != "" && SpaceBefore(s) == 0 && IsSpace(s[|s| - 1])
    ensures TrimSpace(s) == TrimSpace(s[..|s| - 1])
  {
    assert s[|s| - 1..] == [s[|s| - 1]];
  }

  lemma BareStays(s: string)
    requires Bare(s)
    ensures TrimSpace(s) == s
  {
  }

  predicate ThenSpaces(s: string, n: nat) {
    0 < n <= |s| && Bare(s[..n]) && AllSpaces(s[n..])
  }

  lemma StillThenSpaces(s: string, n: nat)
    requires ThenSpaces(s, n) && n < |s|
    ensures s[..|s| - 1][..n] == s[..n] && ThenSpaces(s[..|s| - 1], n)
  {
    assert s[..|s| - 1][..n] == s[..n] && s[..|s| - 1][n..] == s[n..][..|s| - 1 - n];
  }

  lemma NothingBefore(s: string, n: nat)
    requires ThenSpaces(s, n)
    ensures SpaceBefore(s) == 0 && (n < |s| ==> IsSpace(s[|s| - 1]))
  {
    assert s[..n] + s[n..] == s;
    SameBeginning(s[..n], s[n..]);
    assert n < |s| ==> s[n..][|s| - 1 - n] == s[|s| - 1];
  }

  lemma OneSpaceLess(s: string, n: nat)
    requires ThenSpaces(s, n) && n < |s|
    ensures TrimSpace(s) == TrimSpace(s[..|s| - 1])
    ensures s[..|s| - 1][..n] == s[..n] && ThenSpaces(s[..|s| - 1], n)
  {
    NothingBefore(s, n);
    TrimsLast(s);
    StillThenSpaces(s, n);
  }

  /** The first `n` bytes are a bare text, and white space follows. */
  lemma {:induction false} TrimsAfter(s: string, n: nat)
    requires ThenSpaces(s, n)
    ensures TrimSpace(s) == s[..n]
    decreases |s|
  {
    if n == |s| {
      assert s[..n] == s;
      BareStays(s);
    } else {
      OneSpaceLess(s, n);
      TrimsAfter(s[..|s| - 1], n);
    }
  }

  /** A one-byte space completes no wider one. */
  lemma SameBeginning(v: string, b: string)
    requires v != "" && SpaceBefore(v) == 0 && AllSpaces(b)
    ensures SpaceBefore(v + b) == 0
  {
    var s := v + b;
    assert s[..1] == v[..1];
    if |v| >= 2 {
      assert s[..2] == v[..2];
    } else if |s| >= 2 {
      assert s[..2][1] == b[0];
    }
    if |v| >= 3 {
      assert s[..3] == v[..3];
    } else if |s| >= 3 {
      assert s[..3][2] == b[2 - |v|];
    }
  }

  lemma Trimmed(a: string, v: string, b: string)
    requires AllSpaces(a) && AllSpaces(b) && Bare(v)
    ensures TrimSpace(a + v + b) == v
  {
    if v == "" {
      assert a + v + b == (a + b) + "";
      TrimsBefore(a + b, "");
    } else {
      assert a + v + b == a + (v + b);
      TrimsBefore(a, v + b);
      assert (v + b)[..|v|] == v && (v + b)[|v|..] == b;
    TrimsAfter(v + b, |v|);
    }
  }

  // ---- One line ----

  predicate ShortLine(line: string) {
    |line| < 1048576
  }

  /** A line of a mebibyte or more is an error. A carriage return at the end of a line does not matter. Lines that are
      empty, and comments, are passed over. */
  lemma PlainLines(line: string)
    ensures !ShortLine(line) ==> Meaning(line) == Bad
    ensures ShortLine(line + "\r") && !EndsInCR(line) ==> Meaning(line + "\r") == Meaning(line)
    ensures Meaning("") == Skipped
    ensures ShortLine(line) && line != "" && line[0] == '#' && !EndsInCR(line) && !(VERSION_PREFIX <= line) ==> Meaning(line) == Skipped
  {
    assert (line + "\r")[..|line|] == line;
  }

  /** A header is an error exactly if its version, white space aside, is not v1. */
  lemma HeaderLine(a: string, v: string, b: string)
    requires AllSpaces(a) && AllSpaces(b) && Bare(v)
    requires var line := "# kdrive-manifest " + (a + v + b); ShortLine(line) && !EndsInCR(line)
    ensures Meaning("# kdrive-manifest " + (a + v + b)) == if v == "v1" then Skipped else Bad
  {
    var line := "# kdrive-manifest " + (a + v + b);
    Trimmed(a, v, b);
    assert line[..18] == VERSION_PREFIX && line[18..] == a + v + b;
    assert line[0] == '#';
  }

  function Tabs(s: string): nat {
    if s == "" then 0 else Tabs(s[1..]) + (if s[0] == '\t' then 1 else 0)
  }

  lemma {:induction false} TabsFrom(s: string, n: nat)
    requires n <= |s| && forall i :: 0 <= i < n ==> s[i] != '\t'
    ensures Tabs(s) == Tabs(s[n..])
  {
    if n == 0 {
      assert s[0..] == s;
    } else {
      TabsFrom(s[1..], n - 1);
      assert s[1..][n - 1..] == s[n..];
    }
  }

  lemma {:induction false} FieldCount(s: string, n: nat)
    requires n >= 1
    ensures |SplitTabs(s, n)| == if Tabs(s) + 1 < n then Tabs(s) + 1 else n
    decreases n
  {
    var i := Until(s, '\t');
    assert forall j :: 0 <= j < i ==> s[..i][j] == s[j] && s[..i][j] in s[..i];
    TabsFrom(s, i);
    if n > 1 && i < |s| {
      FieldCount(s[i + 1..], n - 1);
      assert s[i..][1..] == s[i + 1..];
    } else if i == |s| {
      assert s[i..] == "";
    }
  }

  /** A line that is not empty and no comment is an error if it has fewer than four tabs. */
  lemma TooFewFields(line: string)
    requires ShortLine(line) && line != "" && line[0] != '#' && !EndsInCR(line) && Tabs(line) < 4
    ensures Meaning(line) == Bad
  {
    FieldCount(line, 5);
  }

  function Five(a: string, b: string, c: string, d: string, rel: string): string {
    a + "\t" + (b + "\t" + (c + "\t" + (d + "\t" + rel)))
  }

  predicate AreNumbers(a: string, b: string, c: string, d: string) {
    ParseInt(a).Some? && ParseInt(b).Some? && ParseInt(c).Some? && ParseInt(d).Some?
  }

  lemma FiveParsed(line: string, a: string, b: string, c: string, d: string, rel: string)
    requires SplitTabs(line, 5) == [a, b, c, d, rel]
    ensures Parsed(line) ==
              if AreNumbers(a, b, c, d) && rel != ""
              then Some(Record(rel, Entry(ParseInt(a).value, ParseInt(b).value, ParseInt(c).value, ParseInt(d).value))) else None
  {
  }

  lemma MeaningOfPlain(line: string)
    requires ShortLine(line) && line != "" && line[0] != '#' && !EndsInCR(line)
    ensures Meaning(line) == if Parsed(line).Some? then Data(Parsed(line).value) else Bad
  {
  }

  /** And with four it is a record, of size, local mtime, id, remote mtime and path, exactly if the first four fields are
      64-bit numbers and the path is not empty. */
  lemma RecordLine(a: string, b: string, c: string, d: string, rel: string)
    requires '\t' !in a && '\t' !in b && '\t' !in c && '\t' !in d && (a == "" || a[0] != '#')
    requires ShortLine(Five(a, b, c, d, rel)) && !EndsInCR(Five(a, b, c, d, rel))
    ensures Meaning(Five(a, b, c, d, rel)) ==
              if AreNumbers(a, b, c, d) && rel != ""
              then Data(Record(rel, Entry(ParseInt(a).value, ParseInt(b).value, ParseInt(c).value, ParseInt(d).value))) else Bad
  {
    var line := Five(a, b, c, d, rel);
    FiveFields(a, b, c, d, rel);
    FiveParsed(line, a, b, c, d, rel);
    assert line[0] == if a == "" then '\t' else a[0];
    MeaningOfPlain(line);
  }

  // ---- The whole file ----

  function Fold(xs: seq<LineMeaning>): Option<map<Rel, Entry>> {
    if xs == [] then Some(map[]) else Then(Fold(xs[..|xs| - 1]), xs[|xs| - 1])
  }

  function Meanings(lines: seq<string>): (xs: seq<LineMeaning>)
    ensures |xs| == |lines| && forall i :: 0 <= i < |xs| ==> xs[i] == Meaning(lines[i])
  {
    seq(|lines|, i requires 0 <= i < |lines| => Meaning(lines[i]))
  }

  lemma {:induction false} LoadedIsFold(lines: seq<string>)
    ensures LoadedLines(lines) == Fold(Meanings(lines))
  {
    if lines != [] {
      LoadedIsFold(lines[..|lines| - 1]);
      assert Meanings(lines)[..|lines| - 1] == Meanings(lines[..|lines| - 1]);
    }
  }

  /** The `i`-th is the last record of path `p`. */
  predicate LastFor(xs: seq<LineMeaning>, p: Rel, i: nat) {
    i < |xs| && IsFor(xs[i], p) && forall j :: i < j < |xs| ==> !IsFor(xs[j], p)
  }

  predicate IsFor(x: LineMeaning, p: Rel) {
    x.Data? && x.record.rel == p
  }

  /** A file loads exactly if no line of it is an error; the entry of a path is that of its last record. */
  lemma LoadedIs(lines: seq<string>, p: Rel)
    ensures LoadedLines(lines).Some? <==> forall i :: 0 <= i < |lines| ==> !Meaning(lines[i]).Bad?
    ensures LoadedLines(lines).Some? ==>
              && (forall i: nat :: LastFor(Meanings(lines), p, i) ==> Lookup(LoadedLines(lines).value, p) == Some(Meaning(lines[i]).record.entry))
              && ((forall i: nat :: !LastFor(Meanings(lines), p, i)) ==> p !in LoadedLines(lines).value)
  {
    LoadedIsFold(lines);
    FoldIs(Meanings(lines), p);
    forall i | 0 <= i < |lines| ensures Meanings(lines)[i] == Meaning(lines[i]) { }
  }

  lemma {:induction false} FoldIs(xs: seq<LineMeaning>, p: Rel)
    ensures Fold(xs).Some? <==> forall i :: 0 <= i < |xs| ==> !xs[i].Bad?
    ensures Fold(xs).Some? ==>
              && (forall i: nat :: LastFor(xs, p, i) ==> Lookup(Fold(xs).value, p) == Some(xs[i].record.entry))
              && ((forall i: nat :: !LastFor(xs, p, i)) ==> p !in Fold(xs).value)
  {
    if xs != [] {
      var (front, n) := (xs[..|xs| - 1], |xs| - 1);
      FoldIs(front, p);
      if IsFor(xs[n], p) {
        assert LastFor(xs, p, n);
      } else {
        forall i: nat ensures LastFor(xs, p, i) <==> LastFor(front, p, i) { }
      }
    }
  }
}
