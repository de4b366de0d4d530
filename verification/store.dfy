/** The manifest file: a header line, then a line of tab-separated fields for each path, in order. */
module Store {
  import opened Types
  import opened Manifests
  import opened Ordering
  import opened Decimals
  import opened Texts

  const HEADER := "# kdrive-manifest v1"
  const VERSION_PREFIX := "# kdrive-manifest "

  /** The scanner's buffer: a line and its newline have to fit. */
  const MAX_LINE: nat := 1024 * 1024

  // ---- Text ----

  /** The lines of a text, without their newlines; text after the last newline is a line too. */
  function Lines(s: string): (ls: seq<string>)
    ensures forall i :: 0 <= i < |ls| ==> '\n' !in ls[i]
    decreases |s|
  {
    if s == "" then []
    else [s[..Until(s, '\n')]] + (if Until(s, '\n') < |s| then Lines(s[Until(s, '\n') + 1..]) else [])
  }

  /** At most `n` parts: the last one keeps its tabs. */
  function SplitTabs(s: string, n: nat): (parts: seq<string>)
    requires n >= 1
    ensures 1 <= |parts| <= n
    decreases n
  {
    if n == 1 || Until(s, '\t') == |s| then [s]
    else [s[..Until(s, '\t')]] + SplitTabs(s[Until(s, '\t') + 1..], n - 1)
  }

  predicate EndsInCR(s: string) {
    s != "" && s[|s| - 1] == '\r'
  }

  /** The scanner drops one carriage return at the end of a line. */
  function DropCR(s: string): string {
    if EndsInCR(s) then s[..|s| - 1] else s
  }

  predicate IsSpace(c: char) {
    c == ' ' || c == '\t' || c == '\n' || c == '\r' || c == '\U{000B}' || c == '\U{000C}'
  }

  /** One of the white-space characters of Unicode that take more than a byte: U+0085, U+00A0, U+1680, U+2000 to U+200A,
      U+2028, U+2029, U+202F, U+205F and U+3000, in UTF-8. */
  predicate IsWideSpace(s: string) {
    || (|s| == 2 && s[0] == '\U{00C2}' && (s[1] == '\U{0085}' || s[1] == '\U{00A0}'))
    || (|s| == 3 && s[0] == '\U{00E1}' && s[1] == '\U{009A}' && s[2] == '\U{0080}')
    || (|s| == 3 && s[0] == '\U{00E2}' && s[1] == '\U{0080}'
        && ('\U{0080}' <= s[2] <= '\U{008A}' || s[2] == '\U{00A8}' || s[2] == '\U{00A9}' || s[2] == '\U{00AF}'))
    || (|s| == 3 && s[0] == '\U{00E2}' && s[1] == '\U{0081}' && s[2] == '\U{009F}')
    || (|s| == 3 && s[0] == '\U{00E3}' && s[1] == '\U{0080}' && s[2] == '\U{0080}')
  }

  predicate IsSpaceRune(s: string) {
    (|s| == 1 && IsSpace(s[0])) || IsWideSpace(s)
  }

  /** How many bytes of white space a text begins, or ends, with: those of one character. */
  function SpaceBefore(s: string): (n: nat)
    ensures n <= |s|
  {
    if |s| >= 1 && IsSpaceRune(s[..1]) then 1
    else if |s| >= 2 && IsSpaceRune(s[..2]) then 2
    else if |s| >= 3 && IsSpaceRune(s[..3]) then 3
    else 0
  }

  function SpaceAfter(s: string): (n: nat)
    ensures n <= |s|
  {
    if |s| >= 1 && IsSpaceRune(s[|s| - 1..]) then 1
    else if |s| >= 2 && IsSpaceRune(s[|s| - 2..]) then 2
    else if |s| >= 3 && IsSpaceRune(s[|s| - 3..]) then 3
    else 0
  }

  function TrimSpace(s: string): string
    decreases |s|
  {
    if SpaceBefore(s) > 0 then TrimSpace(s[SpaceBefore(s)..])
    else if SpaceAfter(s) > 0 then TrimSpace(s[..|s| - SpaceAfter(s)])
    else s
  }

  // ---- Reading ----

  datatype Record = Record(rel: Rel, entry: Entry)

  function Parsed(text: string): Option<Record> {
    var f := SplitTabs(text, 5);
    if |f| < 5 then None
    else
      var (a, b, c, d) := (ParseInt(f[0]), ParseInt(f[1]), ParseInt(f[2]), ParseInt(f[3]));
      if a.None? || b.None? || c.None? || d.None? then None else RecordOf(f, a.value, b.value, c.value, d.value)
  }

  method ParseLine(text: string) returns (r: Option<Record>)
    ensures r == Parsed(text)
  {
    var f := SplitTabs(text, 5);
    if |f| < 5 {
      return None;
    }
    var n: array<int> := new int[4](_ => 0);
    for i := 0 to 4
      invariant forall j :: 0 <= j < i ==> ParseInt(f[j]) == Some(n[j])
    {
      var v := ParseInt(f[i]);
      if v.None? {
        return None;
      }
      n[i] := v.value;
    }
    r := RecordOf(f, n[0], n[1], n[2], n[3]);
  }

  function RecordOf(f: seq<string>, a: int, b: int, c: int, d: int): Option<Record>
    requires |f| == 5
  {
    if f[4] == "" then None else Some(Record(f[4], Entry(a, b, c, d)))
  }

  datatype LineMeaning = Skipped | Data(record: Record) | Bad

  /** A header of another version. */
  predicate IsForeign(text: string) {
    VERSION_PREFIX <= text && TrimSpace(text[|VERSION_PREFIX|..]) != "v1"
  }

  /** What one line of the file says. */
  function Meaning(line: string): LineMeaning {
    var text := DropCR(line);
    if |line| >= MAX_LINE then Bad
    else if text == "" then Skipped
    else if text[0] == '#' then
      if IsForeign(text) then Bad else Skipped
    else match Parsed(text)
      case None => Bad
      case Some(r) => Data(r)
  }

  method ReadLine(line: string) returns (x: LineMeaning)
    ensures x == Meaning(line)
  {
    if |line| >= MAX_LINE {
      return Bad;
    }
    var text := DropCR(line);
    if text == "" {
      return Skipped;
    }
    if text[0] == '#' {
      if VERSION_PREFIX <= text && TrimSpace(text[|VERSION_PREFIX|..]) != "v1" {
        return Bad;
      }
      return Skipped;
    }
    var r := ParseLine(text);
    x := if r.None? then Bad else Data(r.value);
  }

  /** A good line replaces an entry, or nothing. */
  function Then(before: Option<map<Rel, Entry>>, x: LineMeaning): Option<map<Rel, Entry>> {
    if before.None? then None
    else match x
      case Skipped => before
      case Bad => None
      case Data(r) => Some(before.value[r.rel := r.entry])
  }

  /** The manifest that lines make, later lines for a path replacing earlier ones; none if any line is bad. */
  function LoadedLines(lines: seq<string>): Option<map<Rel, Entry>> {
    if lines == [] then Some(map[])
    else Then(LoadedLines(lines[..|lines| - 1]), Meaning(lines[|lines| - 1]))
  }

  /** A missing file is an empty manifest. */
  function Loaded(file: Option<string>): Option<map<Rel, Entry>> {
    if file.None? then Some(map[]) else LoadedLines(Lines(file.value))
  }

  method Load(file: Option<string>) returns (ok: bool, m: Manifest)
    ensures fresh(m)
    ensures Loaded(file) == if ok then Some(m.entries) else None
  {
    m := new Manifest();
    if file.None? {
      return true, m;
    }
    var lines := Lines(file.value);
    for n := 0 to |lines|
      invariant Some(m.entries) == LoadedLines(lines[..n])
    {
      OneMoreLine(lines, n);
      var x := ReadLine(lines[n]);
      match x {
        case Skipped =>
        case Bad =>
          BadLineStops(lines, n + 1);
          return false, m;
        case Data(r) =>
          m.Set(r.rel, r.entry);
      }
    }
    assert lines[..|lines|] == lines;
    ok := true;
  }

  lemma OneMoreLine(lines: seq<string>, n: nat)
    requires n < |lines|
    ensures LoadedLines(lines[..n + 1]) == Then(LoadedLines(lines[..n]), Meaning(lines[n]))
  {
    assert lines[..n + 1][..n] == lines[..n];
  }

  lemma {:induction false} BadLineStops(lines: seq<string>, n: nat)
    requires n <= |lines| && LoadedLines(lines[..n]) == None
    ensures LoadedLines(lines) == None
  {
    if n == |lines| {
      assert lines[..n] == lines;
    } else {
      assert lines[..|lines| - 1][..n] == lines[..n];
      BadLineStops(lines[..|lines| - 1], n);
    }
  }

  // ---- Writing ----

  /** One line, without its newline. */
  function Line(rel: Rel, e: Entry): string {
    Decimal(e.size) + "\t" + (Decimal(e.localMtime) + "\t" + (Decimal(e.remoteID) + "\t" + (Decimal(e.remoteMtime) + "\t" + rel)))
  }

  ghost predicate SortedKeysOf(keys: seq<Rel>, m: map<Rel, Entry>) {
    Sorted(keys) && Distinct(keys) && forall k :: k in keys <==> k in m
  }

  /** The header and the lines of `keys`. */
  function Text(keys: seq<Rel>, m: map<Rel, Entry>): string
    requires forall k :: k in keys ==> k in m
  {
    if keys == [] then HEADER + "\n" else Text(keys[..|keys| - 1], m) + Line(keys[|keys| - 1], m[keys[|keys| - 1]]) + "\n"
  }

  ghost predicate IsText(data: string, m: map<Rel, Entry>) {
    exists keys :: SortedKeysOf(keys, m) && data == Text(keys, m)
  }

  method SortedKeys(m: Manifest) returns (keys: seq<Rel>)
    ensures SortedKeysOf(keys, m.entries)
  {
    var ks: seq<Rel>, todo := [], m.entries.Keys;
    while todo != {}
      invariant todo <= m.entries.Keys
      invariant Distinct(ks) && forall k :: k in ks <==> k in m.entries.Keys - todo
      decreases |todo|
    {
      var k :| k in todo;
      assert k !in ks;
      todo, ks := todo - {k}, ks + [k];
    }
    keys := Sort(ks);
    DistinctByMultiset(ks, keys);
    forall k ensures k in keys <==> k in m.entries {
      assert k in keys <==> k in multiset(keys);
      assert k in ks <==> k in multiset(ks);
    }
  }

  method Save(m: Manifest) returns (data: string)
    ensures IsText(data, m.entries)
  {
    data := HEADER + "\n";
    var keys := SortedKeys(m);
    for i := 0 to |keys|
      invariant data == Text(keys[..i], m.entries)
    {
      assert keys[..i + 1][..i] == keys[..i];
      data := data + Line(keys[i], m.entries[keys[i]]) + "\n";
    }
    assert keys[..|keys|] == keys;
  }
}
