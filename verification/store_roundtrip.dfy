/** What a saved manifest reads back as: itself, exactly if its paths fit on their lines. */
module StoreRoundTrip {
  import opened Types
  import opened Ordering
  import opened Decimals
  import opened Texts
  import opened Store

  predicate Int64Entry(e: Entry) {
    IsInt64(e.size) && IsInt64(e.localMtime) && IsInt64(e.remoteID) && IsInt64(e.remoteMtime)
  }

  ghost predicate Int64s(m: map<Rel, Entry>) {
    forall k :: k in m ==> Int64Entry(m[k])
  }

  /** A path that survives being a line's last field. */
  predicate Fits(rel: Rel, e: Entry) {
    rel != "" && '\n' !in rel && !EndsInCR(rel) && |Line(rel, e)| < MAX_LINE
  }

  // ---- One line ----

  lemma SplitTabsStep(field: string, rest: string, n: nat)
    requires n >= 2 && '\t' !in field
    ensures SplitTabs(field + "\t" + rest, n) == [field] + SplitTabs(rest, n - 1)
  {
    UntilAfter(field, '\t', rest);
    var s := field + ['\t'] + rest;
    assert s == field + "\t" + rest;
    assert s[..|field|] == field && s[|field| + 1..] == rest;
  }

  lemma NumbersHaveNoTab(n: int)
    ensures '\t' !in Decimal(n) && '\n' !in Decimal(n)
  {
    ParsePrinted(n);
  }

  /** The fields of a line are what was printed, whatever the path holds. */
  lemma FieldsOfLine(rel: Rel, e: Entry)
    ensures SplitTabs(Line(rel, e), 5) == [Decimal(e.size), Decimal(e.localMtime), Decimal(e.remoteID), Decimal(e.remoteMtime), rel]
  {
    NumbersHaveNoTab(e.size);
    NumbersHaveNoTab(e.localMtime);
    NumbersHaveNoTab(e.remoteID);
    NumbersHaveNoTab(e.remoteMtime);
    FiveFields(Decimal(e.size), Decimal(e.localMtime), Decimal(e.remoteID), Decimal(e.remoteMtime), rel);
  }

  lemma FiveFields(a: string, b: string, c: string, d: string, rest: string)
    requires '\t' !in a && '\t' !in b && '\t' !in c && '\t' !in d
    ensures SplitTabs(a + "\t" + (b + "\t" + (c + "\t" + (d + "\t" + rest))), 5) == [a, b, c, d, rest]
  {
    FourFields(b, c, d, rest);
    SplitTabsStep(a, b + "\t" + (c + "\t" + (d + "\t" + rest)), 5);
  }

  lemma FourFields(b: string, c: string, d: string, rest: string)
    requires '\t' !in b && '\t' !in c && '\t' !in d
    ensures SplitTabs(b + "\t" + (c + "\t" + (d + "\t" + rest)), 4) == [b, c, d, rest]
  {
    ThreeFields(c, d, rest);
    SplitTabsStep(b, c + "\t" + (d + "\t" + rest), 4);
  }

  lemma ThreeFields(c: string, d: string, rest: string)
    requires '\t' !in c && '\t' !in d
    ensures SplitTabs(c + "\t" + (d + "\t" + rest), 3) == [c, d, rest]
  {
    SplitTabsStep(d, rest, 2);
    SplitTabsStep(c, d + "\t" + rest, 3);
    assert SplitTabs(rest, 1) == [rest];
  }

  lemma ParsedLine(rel: Rel, e: Entry)
    requires Int64Entry(e)
    ensures Parsed(Line(rel, e)) == if rel == "" then None else Some(Record(rel, e))
  {
    FieldsOfLine(rel, e);
    ParsePrinted(e.size);
    ParsePrinted(e.localMtime);
    ParsePrinted(e.remoteID);
    ParsePrinted(e.remoteMtime);
  }

  /** All of a line but its path. */
  function Numbers(e: Entry): string {
    Decimal(e.size) + "\t" + (Decimal(e.localMtime) + "\t" + (Decimal(e.remoteID) + "\t" + (Decimal(e.remoteMtime) + "\t")))
  }

  lemma LineIsNumbersAndPath(rel: Rel, e: Entry)
    ensures Line(rel, e) == Numbers(e) + rel
  {
    var d := Decimal(e.remoteMtime) + "\t";
    var c := Decimal(e.remoteID) + "\t";
    var b := Decimal(e.localMtime) + "\t";
    var a := Decimal(e.size) + "\t";
    PlusAssociates(c, d, rel);
    PlusAssociates(b, c + d, rel);
    PlusAssociates(a, b + (c + d), rel);
  }

  lemma NumbersShape(e: Entry)
    ensures Numbers(e) != "" && Numbers(e)[|Numbers(e)| - 1] == '\t' && Numbers(e)[0] != '#' && '\n' !in Numbers(e)
  {
    NumbersHaveNoTab(e.size);
    NumbersHaveNoTab(e.localMtime);
    NumbersHaveNoTab(e.remoteID);
    NumbersHaveNoTab(e.remoteMtime);
    ParsePrinted(e.size);
    assert Numbers(e)[0] == Decimal(e.size)[0];
  }

  lemma DropCRAfter(before: string, rel: string)
    requires before != "" && before[|before| - 1] != '\r'
    ensures DropCR(before + rel) == before + DropCR(rel)
  {
    if EndsInCR(rel) {
      assert (before + rel)[..|before + rel| - 1] == before + rel[..|rel| - 1];
    } else if rel != "" {
      assert (before + rel)[|before + rel| - 1] == rel[|rel| - 1];
    } else {
      assert before + rel == before;
    }
  }

  lemma MeaningOfRecord(line: string, before: string, rest: string)
    requires DropCR(line) == before + rest && before != "" && before[0] != '#'
    ensures Meaning(line) == if |line| >= MAX_LINE || Parsed(DropCR(line)).None? then Bad else Data(Parsed(DropCR(line)).value)
  {
    assert (before + rest)[0] == before[0];
  }

  /** What a written line means when it is read. */
  lemma MeaningOfLine(rel: Rel, e: Entry)
    requires Int64Entry(e)
    ensures Meaning(Line(rel, e)) ==
            if |Line(rel, e)| >= MAX_LINE || DropCR(rel) == "" then Bad else Data(Record(DropCR(rel), e))
  {
    LineIsNumbersAndPath(rel, e);
    LineIsNumbersAndPath(DropCR(rel), e);
    NumbersShape(e);
    DropCRAfter(Numbers(e), rel);
    MeaningOfRecord(Line(rel, e), Numbers(e), DropCR(rel));
    ParsedLine(DropCR(rel), e);
  }

  lemma LineIsOneLine(rel: Rel, e: Entry)
    requires '\n' !in rel
    ensures '\n' !in Line(rel, e)
  {
    LineIsNumbersAndPath(rel, e);
    NumbersShape(e);
  }

  // ---- All lines ----

  lemma FirstLine(first: string, rest: string)
    requires '\n' !in first
    ensures Lines(first + "\n" + rest) == [first] + Lines(rest)
  {
    UntilAfter(first, '\n', rest);
    var s := first + ['\n'] + rest;
    assert s == first + "\n" + rest;
    assert s[..|first|] == first && s[|first| + 1..] == rest;
  }

  lemma {:induction false} LinesJoin(s: string, t: string)
    requires s == "" || s[|s| - 1] == '\n'
    ensures Lines(s + t) == Lines(s) + Lines(t)
    decreases |s|
  {
    if s == "" {
      assert s + t == t;
    } else {
      var first, rest := CutFirstLine(s);
      LinesJoin(rest, t);
      LinesJoinOne(first, rest, t);
    }
  }

  lemma LinesJoinOne(first: string, rest: string, t: string)
    requires '\n' !in first && Lines(rest + t) == Lines(rest) + Lines(t)
    ensures Lines(first + "\n" + rest + t) == Lines(first + "\n" + rest) + Lines(t)
  {
    FirstLine(first, rest);
    FirstLine(first, rest + t);
    PlusAssociates(first + "\n", rest, t);
    PlusAssociates([first], Lines(rest), Lines(t));
  }

  lemma CutFirstLine(s: string) returns (first: string, rest: string)
    requires s != "" && s[|s| - 1] == '\n'
    ensures s == first + "\n" + rest && '\n' !in first && |rest| < |s|
    ensures rest == "" || rest[|rest| - 1] == '\n'
  {
    NewlineFound(s);
    var n := Until(s, '\n');
    first, rest := s[..n], s[n + 1..];
    assert rest != "" ==> rest[|rest| - 1] == s[|s| - 1];
  }

  lemma LinesThenLine(s: string, l: string)
    requires '\n' !in l && (s == "" || s[|s| - 1] == '\n')
    ensures Lines(s + l + "\n") == Lines(s) + [l]
  {
    PlusAssociates(s, l, "\n");
    LinesJoin(s, l + "\n");
    FirstLine(l, "");
    assert l + "\n" + "" == l + "\n";
  }

  lemma {:induction false} NewlineFound(s: string)
    requires s != "" && s[|s| - 1] == '\n'
    ensures Until(s, '\n') < |s|
  {
    if s[0] != '\n' {
      NewlineFound(s[1..]);
    }
  }

  function LinesOf(keys: seq<Rel>, m: map<Rel, Entry>): seq<string>
    requires forall k :: k in keys ==> k in m
  {
    if keys == [] then [HEADER] else LinesOf(keys[..|keys| - 1], m) + [Line(keys[|keys| - 1], m[keys[|keys| - 1]])]
  }

  predicate NoNewlines(keys: seq<Rel>) {
    forall i :: 0 <= i < |keys| ==> '\n' !in keys[i]
  }

  lemma {:induction false} LinesOfText(keys: seq<Rel>, m: map<Rel, Entry>)
    requires (forall k :: k in keys ==> k in m) && NoNewlines(keys) && Int64s(m)
    ensures Lines(Text(keys, m)) == LinesOf(keys, m)
  {
    if keys == [] {
      FirstLine(HEADER, "");
      assert HEADER + "\n" + "" == HEADER + "\n";
    } else {
      var front, k := keys[..|keys| - 1], keys[|keys| - 1];
      LinesOfText(front, m);
      assert keys[|keys| - 1] in keys && '\n' !in keys[|keys| - 1];
      LineIsOneLine(k, m[k]);
      TextEnds(front, m);
      LinesThenLine(Text(front, m), Line(k, m[k]));
    }
  }

  lemma TextEnds(keys: seq<Rel>, m: map<Rel, Entry>)
    requires forall k :: k in keys ==> k in m
    ensures Text(keys, m) != "" && Text(keys, m)[|Text(keys, m)| - 1] == '\n'
  {
  }

  /** The file of one entry, byte for byte. */
  lemma FormatExample()
    ensures IsText("# kdrive-manifest v1\n3\t1\t7\t50\ta/b\n", map["a/b" := Entry(3, 1, 7, 50)])
  {
    var m := map["a/b" := Entry(3, 1, 7, 50)];
    assert Digits(50) == Digits(5) + "0";
    assert Line("a/b", m["a/b"]) == "3\t1\t7\t50\ta/b";
    assert ["a/b"][..0] == [];
    assert Text([], m) == "# kdrive-manifest v1\n";
    assert Text(["a/b"], m) == "# kdrive-manifest v1\n" + "3\t1\t7\t50\ta/b" + "\n";
    assert SortedKeysOf(["a/b"], m);
  }

  lemma HeaderIsSkipped()
    ensures Meaning(HEADER) == Skipped
  {
    assert HEADER[|VERSION_PREFIX|..] == "v1";
    NothingToTrim();
  }

  lemma NothingToTrim()
    ensures TrimSpace("v1") == "v1"
  {
    var s := "v1";
    assert s[..1][0] == 'v' && s[..2][0] == 'v' && s[|s| - 1..][0] == '1' && s[|s| - 2..][0] == 'v';
    assert SpaceBefore(s) == 0 && SpaceAfter(s) == 0;
  }

  lemma LoadedStep(keys: seq<Rel>, m: map<Rel, Entry>)
    requires keys != [] && forall k :: k in keys ==> k in m
    ensures var (front, k) := (keys[..|keys| - 1], keys[|keys| - 1]);
            var (before, after) := (LoadedLines(LinesOf(front, m)), LoadedLines(LinesOf(keys, m)));
            && (after.Some? ==> before.Some? && !Meaning(Line(k, m[k])).Bad?)
            && (before.Some? && Meaning(Line(k, m[k])).Data? ==>
                  var x := Meaning(Line(k, m[k])).record; after == Some(before.value[x.rel := x.entry]))
  {
    var ls := LinesOf(keys, m);
    assert ls[..|ls| - 1] == LinesOf(keys[..|keys| - 1], m);
  }

  /** No line is bad where the written lines load. */
  lemma {:induction false} GoodLines(keys: seq<Rel>, m: map<Rel, Entry>, k: Rel)
    requires (forall k :: k in keys ==> k in m) && Int64s(m) && k in keys
    requires LoadedLines(LinesOf(keys, m)).Some?
    ensures |Line(k, m[k])| < MAX_LINE && DropCR(k) != ""
  {
    var front, last := keys[..|keys| - 1], keys[|keys| - 1];
    LoadedStep(keys, m);
    MeaningOfLine(last, m[last]);
    if k != last {
      GoodLines(front, m, k);
    }
  }

  /** A path that is loaded comes from the line of that path, or of that path and a carriage return. */
  lemma {:induction false} OriginOf(keys: seq<Rel>, m: map<Rel, Entry>, p: Rel) returns (k: Rel)
    requires (forall k :: k in keys ==> k in m) && Int64s(m)
    requires LoadedLines(LinesOf(keys, m)).Some? && p in LoadedLines(LinesOf(keys, m)).value
    ensures k in keys && DropCR(k) == p
  {
    if keys == [] {
      HeaderAlone();
    } else {
      var front, last := keys[..|keys| - 1], keys[|keys| - 1];
      LoadedStep(keys, m);
      MeaningOfLine(last, m[last]);
      if DropCR(last) == p {
        k := last;
      } else {
        k := OriginOf(front, m, p);
      }
    }
  }

  lemma HeaderAlone()
    ensures LoadedLines([HEADER]) == Some(map[])
  {
    HeaderIsSkipped();
    assert [HEADER][..0] == [];
  }

  lemma {:induction false} LoadedWhenFit(keys: seq<Rel>, m: map<Rel, Entry>)
    requires (forall k :: k in keys ==> k in m && Meaning(Line(k, m[k])) == Data(Record(k, m[k])))
    ensures LoadedLines(LinesOf(keys, m)).Some?
    ensures forall p :: Lookup(LoadedLines(LinesOf(keys, m)).value, p) == if p in keys then Some(m[p]) else None
  {
    if keys == [] {
      HeaderAlone();
    } else {
      var front, k := keys[..|keys| - 1], keys[|keys| - 1];
      LoadedWhenFit(front, m);
      LoadedStep(keys, m);
      assert forall p :: p in keys <==> p == k || p in front;
    }
  }

  lemma {:induction false} SplitTabsParts(s: string, n: nat)
    requires n >= 1 && '\n' !in s
    ensures forall i :: 0 <= i < |SplitTabs(s, n)| ==> '\n' !in SplitTabs(s, n)[i]
    decreases n
  {
    if n > 1 && Until(s, '\t') < |s| {
      SplitTabsParts(s[Until(s, '\t') + 1..], n - 1);
    }
  }

  /** No path that is read has a newline in it. */
  lemma {:induction false} LoadedHasNoNewline(lines: seq<string>)
    requires forall i :: 0 <= i < |lines| ==> '\n' !in lines[i]
    ensures LoadedLines(lines).Some? ==> forall k :: k in LoadedLines(lines).value ==> '\n' !in k
  {
    if lines != [] {
      var front, last := lines[..|lines| - 1], lines[|lines| - 1];
      LoadedHasNoNewline(front);
      assert '\n' !in last;
      SplitTabsParts(DropCR(last), 5);
    }
  }

  // ---- Main results ----

  ghost predicate AllFit(m: map<Rel, Entry>) {
    forall k :: k in m ==> Fits(k, m[k])
  }

  /** A saved manifest loads as what was saved if, and only if, every path is not empty, has no newline, does not end
      in a carriage return, and leaves its line within the scanner's limit. Tabs, spaces and a leading number sign are
      fine. */
  lemma LoadsBackIff(m: map<Rel, Entry>, data: string)
    requires Int64s(m) && IsText(data, m)
    ensures Loaded(Some(data)) == Some(m) <==> AllFit(m)
  {
    var keys :| SortedKeysOf(keys, m) && data == Text(keys, m);
    if AllFit(m) {
      LoadsWhenFit(keys, m);
    }
    if Loaded(Some(data)) == Some(m) {
      FitsWhenLoads(keys, m);
    }
  }

  lemma LoadsWhenFit(keys: seq<Rel>, m: map<Rel, Entry>)
    requires Int64s(m) && SortedKeysOf(keys, m) && AllFit(m)
    ensures LoadedLines(Lines(Text(keys, m))) == Some(m)
  {
    assert forall i :: 0 <= i < |keys| ==> keys[i] in keys;
    LinesOfText(keys, m);
    FittingLines(keys, m);
    LoadedIsSame(keys, m);
  }

  lemma LoadedIsSame(keys: seq<Rel>, m: map<Rel, Entry>)
    requires forall k :: k in keys <==> k in m
    requires forall k :: k in keys ==> Meaning(Line(k, m[k])) == Data(Record(k, m[k]))
    ensures LoadedLines(LinesOf(keys, m)) == Some(m)
  {
    LoadedWhenFit(keys, m);
    SameMap(LoadedLines(LinesOf(keys, m)).value, m);
  }

  lemma FittingLines(keys: seq<Rel>, m: map<Rel, Entry>)
    requires Int64s(m) && SortedKeysOf(keys, m) && AllFit(m)
    ensures forall k :: k in keys ==> Meaning(Line(k, m[k])) == Data(Record(k, m[k]))
  {
    forall k | k in keys ensures Meaning(Line(k, m[k])) == Data(Record(k, m[k])) {
      assert Fits(k, m[k]);
      FittingLine(k, m[k]);
    }
  }

  lemma FittingLine(k: Rel, e: Entry)
    requires Int64Entry(e) && Fits(k, e)
    ensures Meaning(Line(k, e)) == Data(Record(k, e))
  {
    MeaningOfLine(k, e);
  }

  lemma SameMap(a: map<Rel, Entry>, b: map<Rel, Entry>)
    requires forall p :: Lookup(a, p) == Lookup(b, p)
    ensures a == b
  {
    forall p ensures (p in a <==> p in b) && (p in a ==> a[p] == b[p]) {
      assert Lookup(a, p) == Lookup(b, p);
    }
  }

  lemma FitsWhenLoads(keys: seq<Rel>, m: map<Rel, Entry>)
    requires Int64s(m) && SortedKeysOf(keys, m)
    requires LoadedLines(Lines(Text(keys, m))) == Some(m)
    ensures AllFit(m)
  {
    LoadedHasNoNewline(Lines(Text(keys, m)));
    assert forall i :: 0 <= i < |keys| ==> keys[i] in keys;
    LinesOfText(keys, m);
    forall k | k in m ensures Fits(k, m[k]) {
      GoodLines(keys, m, k);
      NoTrailingCR(keys, m, k);
    }
  }

  lemma LongerPath(q: Rel, k: Rel)
    requires DropCR(q) == k && EndsInCR(k)
    ensures |k| < |q|
  {
  }

  lemma PathsAreShort(rel: Rel, e: Entry)
    ensures |rel| < |Line(rel, e)|
  {
    LineIsNumbersAndPath(rel, e);
    NumbersShape(e);
  }

  /** A path ending in a carriage return would need a longer one to be read from, and that one a longer one still. */
  lemma {:induction false} NoTrailingCR(keys: seq<Rel>, m: map<Rel, Entry>, k: Rel)
    requires (forall p :: p in keys <==> p in m) && Int64s(m) && k in m
    requires LoadedLines(LinesOf(keys, m)) == Some(m)
    ensures !EndsInCR(k)
    decreases MAX_LINE - |k|
  {
    if EndsInCR(k) {
      var q := OriginOf(keys, m, k);
      LongerPath(q, k);
      GoodLines(keys, m, q);
      PathsAreShort(q, m[q]);
      NoTrailingCR(keys, m, q);
    }
  }

  /** A manifest has one text: saving it again, from whatever order, gives the same bytes. */
  lemma TextIsUnique(m: map<Rel, Entry>, data: string, again: string)
    requires IsText(data, m) && IsText(again, m)
    ensures data == again
  {
    var a :| SortedKeysOf(a, m) && data == Text(a, m);
    var b :| SortedKeysOf(b, m) && again == Text(b, m);
    SortedSetIsUnique(a, b);
  }

  /** Saving, loading and saving again writes the same file. */
  lemma SaveLoadSave(m: map<Rel, Entry>, data: string, loaded: map<Rel, Entry>, again: string)
    requires Int64s(m) && AllFit(m) && IsText(data, m)
    requires Loaded(Some(data)) == Some(loaded) && IsText(again, loaded)
    ensures loaded == m && again == data
  {
    LoadsBackIff(m, data);
    TextIsUnique(m, data, again);
  }
}
