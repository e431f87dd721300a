/** Reading a unified diff: which files it touches, where, and by how many lines. */
module PatchScopes {
  import opened Options
  import opened Seqs
  import opened Strings
  import opened StableSort
  import Lex

  datatype Header = Header(oldStart: nat, oldCount: Option<nat>, newStart: nat, newCount: Option<nat>)

  datatype Hunk = Hunk(file: string, oldStart: nat, oldCount: nat, newStart: nat, newCount: nat, touched: nat)

  datatype PatchScope = PatchScope(targets: seq<string>, hunks: seq<Hunk>, touchedPerFile: map<string, nat>,
                                   touchedTotal: nat, hunkCountPerFile: map<string, nat>)

  function Max(a: int, b: int): int { if a < b then b else a }

  // ---- grouping by file ----

  function InFile(hunks: seq<Hunk>, file: string): seq<Hunk> {
    if hunks == [] then []
    else if hunks[|hunks| - 1].file == file then InFile(hunks[..|hunks| - 1], file) + [hunks[|hunks| - 1]]
    else InFile(hunks[..|hunks| - 1], file)
  }

  /** Files in order of first appearance: the iteration order of the dictionaries. */
  function FilesOf(hunks: seq<Hunk>): seq<string> {
    if hunks == [] then []
    else
      var before := FilesOf(hunks[..|hunks| - 1]);
      if hunks[|hunks| - 1].file in before then before else before + [hunks[|hunks| - 1].file]
  }

  lemma {:induction false} FilesAreDistinct(hunks: seq<Hunk>)
    ensures Distinct(FilesOf(hunks))
  {
    if hunks != [] { FilesAreDistinct(hunks[..|hunks| - 1]); }
  }

  lemma {:induction false} ListedIffItHasAHunk(hunks: seq<Hunk>, file: string)
    ensures file in FilesOf(hunks) <==> InFile(hunks, file) != []
  {
    if hunks != [] { ListedIffItHasAHunk(hunks[..|hunks| - 1], file); }
  }

  lemma {:induction false} InFileIsInFile(hunks: seq<Hunk>, file: string)
    ensures forall i | 0 <= i < |InFile(hunks, file)|
      :: InFile(hunks, file)[i].file == file && InFile(hunks, file)[i] in hunks
    ensures forall h | h in hunks && h.file == file :: h in InFile(hunks, file)
    ensures |InFile(hunks, file)| <= |hunks|
  {
    if hunks != [] { InFileIsInFile(hunks[..|hunks| - 1], file); }
  }

  /** The hunks of the listed files, file by file. */
  function Grouped(hunks: seq<Hunk>, files: seq<string>): seq<Hunk> {
    if files == [] then [] else InFile(hunks, files[0]) + Grouped(hunks, files[1..])
  }

  lemma {:induction false} InFileCounts(hunks: seq<Hunk>, file: string, h: Hunk)
    ensures multiset(InFile(hunks, file))[h] == if h.file == file then multiset(hunks)[h] else 0
  {
    if hunks != [] {
      var n := |hunks| - 1;
      InFileCounts(hunks[..n], file, h);
      assert hunks == hunks[..n] + [hunks[n]];
    }
  }

  lemma {:induction false} GroupedCounts(hunks: seq<Hunk>, files: seq<string>, h: Hunk)
    requires Distinct(files)
    ensures multiset(Grouped(hunks, files))[h] == if h.file in files then multiset(hunks)[h] else 0
  {
    if files != [] {
      GroupedCounts(hunks, files[1..], h);
      InFileCounts(hunks, files[0], h);
      assert files == [files[0]] + files[1..];
      assert files[0] !in files[1..];
    }
  }

  lemma GroupedCountsAll(hunks: seq<Hunk>, h: Hunk)
    ensures multiset(Grouped(hunks, FilesOf(hunks)))[h] == multiset(hunks)[h]
  {
    FilesAreDistinct(hunks);
    GroupedCounts(hunks, FilesOf(hunks), h);
    ListedIffItHasAHunk(hunks, h.file);
    InFileCounts(hunks, h.file, h);
  }

  /** Grouping by file loses and invents no hunk. */
  lemma GroupingPermutes(hunks: seq<Hunk>)
    ensures multiset(Grouped(hunks, FilesOf(hunks))) == multiset(hunks)
    ensures |Grouped(hunks, FilesOf(hunks))| == |hunks|
  {
    var grouped := Grouped(hunks, FilesOf(hunks));
    forall h ensures multiset(grouped)[h] == multiset(hunks)[h] { GroupedCountsAll(hunks, h); }
    assert multiset(grouped) == multiset(hunks);
    assert |multiset(grouped)| == |grouped|;
  }

  method GroupByFile(hunks: seq<Hunk>) returns (order: seq<string>, groups: map<string, seq<Hunk>>)
    ensures order == FilesOf(hunks) && groups.Keys == set f | f in order
    ensures forall f | f in groups :: groups[f] == InFile(hunks, f)
    ensures forall f | f !in groups :: InFile(hunks, f) == []
  {
    order, groups := [], map[];
    for i := 0 to |hunks|
      invariant order == FilesOf(hunks[..i]) && groups.Keys == set f | f in order
      invariant forall f | f in groups :: groups[f] == InFile(hunks[..i], f)
      invariant forall f | f !in groups :: InFile(hunks[..i], f) == []
    {
      assert hunks[..i + 1][..i] == hunks[..i];
      var f := hunks[i].file;
      if f !in groups {
        order := order + [f];
        groups := groups[f := []];
      }
      groups := groups[f := groups[f] + [hunks[i]]];
    }
    assert hunks[..|hunks|] == hunks;
  }

  // ---- touched lines ----

  function Touched(hunks: seq<Hunk>): nat {
    if hunks == [] then 0 else hunks[0].touched + Touched(hunks[1..])
  }

  lemma {:induction false} TouchedOfConcatenation(a: seq<Hunk>, b: seq<Hunk>)
    ensures Touched(a + b) == Touched(a) + Touched(b)
  {
    if a == [] {
      assert a + b == b;
    } else {
      assert (a + b)[1..] == a[1..] + b;
      TouchedOfConcatenation(a[1..], b);
    }
  }

  lemma {:induction false} TouchedOfPermutation(p: seq<Hunk>, q: seq<Hunk>)
    requires multiset(p) == multiset(q)
    ensures Touched(p) == Touched(q)
  {
    if p == [] {
      assert |multiset(q)| == |multiset(p)| == 0;
    } else {
      var j := MatchHead(p, q);
      TouchedOfPermutation(p[1..], Without(q, j));
      assert q == q[..j] + ([q[j]] + q[j + 1..]);
      TouchedOfConcatenation(q[..j], [q[j]] + q[j + 1..]);
      TouchedOfConcatenation(q[..j], q[j + 1..]);
    }
  }

  function TouchedByFile(hunks: seq<Hunk>): (m: map<string, nat>) {
    map f | f in FilesOf(hunks) :: Touched(InFile(hunks, f))
  }

  function CountByFile(hunks: seq<Hunk>): (m: map<string, nat>) {
    map f | f in FilesOf(hunks) :: |InFile(hunks, f)|
  }

  /** `dict.get(key, 0)`. */
  function Get(m: map<string, nat>, key: string): nat { if key in m then m[key] else 0 }

  function SumOf(m: map<string, nat>, keys: seq<string>): nat {
    if keys == [] then 0 else Get(m, keys[0]) + SumOf(m, keys[1..])
  }

  lemma {:induction false} SumOverFiles(hunks: seq<Hunk>, files: seq<string>)
    requires forall f | f in files :: f in FilesOf(hunks)
    ensures SumOf(TouchedByFile(hunks), files) == Touched(Grouped(hunks, files))
  {
    if files != [] {
      SumOverFiles(hunks, files[1..]);
      TouchedOfConcatenation(InFile(hunks, files[0]), Grouped(hunks, files[1..]));
      assert files[0] in files;
    }
  }

  /** Summing the per-file counts gives the touched lines of all hunks. */
  lemma TotalIsTheSumOverFiles(hunks: seq<Hunk>)
    ensures SumOf(TouchedByFile(hunks), FilesOf(hunks)) == Touched(hunks)
  {
    SumOverFiles(hunks, FilesOf(hunks));
    GroupingPermutes(hunks);
    TouchedOfPermutation(Grouped(hunks, FilesOf(hunks)), hunks);
  }

  predicate TextAtMost(a: string, b: string) { Lex.AtMost(Lex.Codes(a), Lex.Codes(b)) }

  function ScopeOf(hunks: seq<Hunk>): PatchScope {
    PatchScope(Sort(FilesOf(hunks), TextAtMost), hunks, TouchedByFile(hunks), Touched(hunks), CountByFile(hunks))
  }

  // ---- reading ----

  predicate StartsWith(line: string, prefix: string) { |prefix| <= |line| && line[..|prefix|] == prefix }

  /** The lines that end the body of a hunk. */
  predicate Stops(line: string) { StartsWith(line, "@@") || StartsWith(line, "--- ") || StartsWith(line, "+++ ") }

  predicate Changes(line: string) { StartsWith(line, "+") || StartsWith(line, "-") }

  function BodyLength(lines: seq<string>): (n: nat)
    ensures n <= |lines| && (n < |lines| ==> Stops(lines[n])) && forall i | 0 <= i < n :: !Stops(lines[i])
  {
    if lines == [] || Stops(lines[0]) then 0 else 1 + BodyLength(lines[1..])
  }

  function Changed(body: seq<string>): nat {
    if body == [] then 0 else Changed(body[..|body| - 1]) + if Changes(body[|body| - 1]) then 1 else 0
  }

  function NormalizeDiffPath(raw: string): string {
    var token := Strip(raw);
    if StartsWith(token, "a/") || StartsWith(token, "b/") then token[2..] else token
  }

  function HunkOf(file: string, h: Header, body: seq<string>): Hunk {
    Hunk(file, h.oldStart, Max(1, if h.oldCount.Some? then h.oldCount.value else 1),
         h.newStart, Max(1, if h.newCount.Some? then h.newCount.value else 1), Max(1, Changed(body)))
  }

  function Prefixed(hunks: seq<Hunk>, rest: Option<seq<Hunk>>): Option<seq<Hunk>> {
    match rest
    case None => None
    case Some(more) => Some(hunks + more)
  }

  /** The hunks of a diff, or none for a malformed header or a hunk without a file; `header` is the header pattern. */
  function ReadHunks(lines: seq<string>, file: string, header: string -> Option<Header>): Option<seq<Hunk>>
    decreases |lines|
  {
    if lines == [] then Some([])
    else if StartsWith(lines[0], "+++ ") then ReadHunks(lines[1..], NormalizeDiffPath(lines[0][4..]), header)
    else if StartsWith(lines[0], "@@") then
      var h := header(lines[0]);
      if h.None? || file == "" || file == "/dev/null" then None
      else
        var n := BodyLength(lines[1..]);
        Prefixed([HunkOf(file, h.value, lines[1..][..n])], ReadHunks(lines[1..][n..], file, header))
    else ReadHunks(lines[1..], file, header)
  }

  lemma PrefixedTwice(a: seq<Hunk>, b: seq<Hunk>, rest: Option<seq<Hunk>>)
    ensures Prefixed(a, Prefixed(b, rest)) == Prefixed(a + b, rest)
  {
    if rest.Some? { assert a + (b + rest.value) == a + b + rest.value; }
  }

  lemma PrefixedByNone(rest: Option<seq<Hunk>>)
    ensures Prefixed([], rest) == rest
  {
    if rest.Some? { assert [] + rest.value == rest.value; }
  }

  lemma BodyStep(lines: seq<string>, start: nat, idx: nat)
    requires start <= idx < |lines| && !Stops(lines[idx])
    ensures Changed(lines[start..idx + 1]) == Changed(lines[start..idx]) + if Changes(lines[idx]) then 1 else 0
    ensures BodyLength(lines[idx..]) == 1 + BodyLength(lines[idx + 1..])
  {
    assert lines[start..idx + 1][..idx - start] == lines[start..idx];
    assert lines[idx..][1..] == lines[idx + 1..];
  }

  /** How far the body of the hunk goes, and how many of its lines change something. */
  method ReadBody(lines: seq<string>, start: nat) returns (idx: nat, touched: nat)
    requires start <= |lines|
    ensures idx == start + BodyLength(lines[start..]) && idx <= |lines|
    ensures touched == Changed(lines[start..idx])
  {
    idx, touched := start, 0;
    while idx < |lines| && !Stops(lines[idx])
      invariant start <= idx <= |lines|
      invariant touched == Changed(lines[start..idx])
      invariant idx - start + BodyLength(lines[idx..]) == BodyLength(lines[start..])
    {
      BodyStep(lines, start, idx);
      if Changes(lines[idx]) { touched := touched + 1; }
      idx := idx + 1;
    }
  }

  lemma FilesAfterOneMore(hunks: seq<Hunk>, h: Hunk)
    ensures FilesOf(hunks + [h]) == if h.file in FilesOf(hunks) then FilesOf(hunks) else FilesOf(hunks) + [h.file]
  {
    assert (hunks + [h])[..|hunks|] == hunks;
  }

  lemma InFileAfterOneMore(hunks: seq<Hunk>, h: Hunk, file: string)
    ensures InFile(hunks + [h], file) == InFile(hunks, file) + if h.file == file then [h] else []
    ensures Touched(InFile(hunks + [h], file)) == Touched(InFile(hunks, file)) + if h.file == file then h.touched else 0
  {
    assert (hunks + [h])[..|hunks|] == hunks;
    TouchedOfConcatenation(InFile(hunks, file), [h]);
    assert Touched([h]) == h.touched;
    assert InFile(hunks, file) + [] == InFile(hunks, file);
  }

  lemma EntryAfterOneMore(hunks: seq<Hunk>, h: Hunk, more: seq<Hunk>, file: string)
    requires more == hunks + [h]
    ensures file in FilesOf(more) <==> file in FilesOf(hunks) || file == h.file
    ensures Get(TouchedByFile(more), file) == Get(TouchedByFile(hunks), file) + if h.file == file then h.touched else 0
    ensures Get(CountByFile(more), file) == Get(CountByFile(hunks), file) + if h.file == file then 1 else 0
  {
    FilesAfterOneMore(hunks, h);
    ListedIffItHasAHunk(hunks, file);
    ListedIffItHasAHunk(more, file);
    InFileAfterOneMore(hunks, h, file);
  }

  /** The dictionaries after one more hunk. */
  lemma OneMoreHunk(hunks: seq<Hunk>, h: Hunk)
    ensures TouchedByFile(hunks + [h]) == TouchedByFile(hunks)[h.file := Get(TouchedByFile(hunks), h.file) + h.touched]
    ensures CountByFile(hunks + [h]) == CountByFile(hunks)[h.file := Get(CountByFile(hunks), h.file) + 1]
  {
    var more := hunks + [h];
    var t, c := TouchedByFile(hunks)[h.file := Get(TouchedByFile(hunks), h.file) + h.touched],
                CountByFile(hunks)[h.file := Get(CountByFile(hunks), h.file) + 1];
    forall f
      ensures f in FilesOf(more) <==> f in t
      ensures f in FilesOf(more) <==> f in c
      ensures Get(TouchedByFile(more), f) == Get(t, f)
      ensures Get(CountByFile(more), f) == Get(c, f)
    {
      EntryAfterOneMore(hunks, h, more, f);
    }
    SameMap(TouchedByFile(more), t);
    SameMap(CountByFile(more), c);
  }

  lemma SameMap(a: map<string, nat>, b: map<string, nat>)
    requires forall f :: f in a <==> f in b
    requires forall f :: Get(a, f) == Get(b, f)
    ensures a == b
  {
    forall f | f in a ensures a[f] == b[f] { assert Get(a, f) == Get(b, f); }
  }

  /** What the reader has gathered so far. */
  datatype Tally = Tally(hunks: seq<Hunk>, order: seq<string>, touched: map<string, nat>, count: map<string, nat>)

  ghost predicate Agrees(t: Tally) {
    t.order == FilesOf(t.hunks) && t.touched == TouchedByFile(t.hunks) && t.count == CountByFile(t.hunks)
  }

  method AddHunk(t: Tally, h: Hunk) returns (more: Tally)
    requires Agrees(t)
    ensures Agrees(more) && more.hunks == t.hunks + [h]
  {
    var order := if h.file in t.touched then t.order else t.order + [h.file];
    more := Tally(t.hunks + [h], order, t.touched[h.file := Get(t.touched, h.file) + h.touched],
                  t.count[h.file := Get(t.count, h.file) + 1]);
    TallyOneMore(t, h, more);
  }

  lemma TallyOneMore(t: Tally, h: Hunk, more: Tally)
    requires Agrees(t) && more.hunks == t.hunks + [h]
    requires more.order == if h.file in t.touched then t.order else t.order + [h.file]
    requires more.touched == t.touched[h.file := Get(t.touched, h.file) + h.touched]
    requires more.count == t.count[h.file := Get(t.count, h.file) + 1]
    ensures Agrees(more)
  {
    assert more.order == FilesOf(more.hunks) by { OrderOneMore(t.hunks, h); }
    CountsOneMore(t, h, more);
  }

  lemma CountsOneMore(t: Tally, h: Hunk, more: Tally)
    requires t.touched == TouchedByFile(t.hunks) && t.count == CountByFile(t.hunks) && more.hunks == t.hunks + [h]
    requires more.touched == t.touched[h.file := Get(t.touched, h.file) + h.touched]
    requires more.count == t.count[h.file := Get(t.count, h.file) + 1]
    ensures more.touched == TouchedByFile(more.hunks) && more.count == CountByFile(more.hunks)
  {
    OneMoreHunk(t.hunks, h);
  }

  lemma OrderOneMore(hunks: seq<Hunk>, h: Hunk)
    ensures FilesOf(hunks + [h])
         == if h.file in TouchedByFile(hunks) then FilesOf(hunks) else FilesOf(hunks) + [h.file]
  {
    Listed(hunks, h.file);
    FilesAfterOneMore(hunks, h);
  }

  lemma Listed(hunks: seq<Hunk>, file: string)
    ensures file in TouchedByFile(hunks) <==> file in FilesOf(hunks)
  {
  }

  lemma {:induction false} OneHunkRead(lines: seq<string>, idx: nat, next: nat, file: string,
                                       header: string -> Option<Header>)
    requires idx < |lines| && StartsWith(lines[idx], "@@") && header(lines[idx]).Some? && file != ""
    requires file != "/dev/null"
    requires next == idx + 1 + BodyLength(lines[idx + 1..])
    ensures next <= |lines|
    ensures ReadHunks(lines[idx..], file, header)
         == Prefixed([HunkOf(file, header(lines[idx]).value, lines[idx + 1..next])],
                     ReadHunks(lines[next..], file, header))
  {
    assert !StartsWith(lines[idx], "+++ ") by { assert lines[idx][..2][0] == '@'; }
    var n := BodyLength(lines[idx + 1..]);
    assert lines[idx..][0] == lines[idx] && lines[idx..][1..] == lines[idx + 1..];
    assert lines[idx + 1..][..n] == lines[idx + 1..next] && lines[idx + 1..][n..] == lines[next..];
  }

  /** Read one hunk, from its header to the end of its body. */
  method ReadHunk(lines: seq<string>, idx: nat, file: string, header: string -> Option<Header>)
    returns (next: nat, hunk: Option<Hunk>)
    requires idx < |lines| && StartsWith(lines[idx], "@@")
    ensures hunk.None? ==> ReadHunks(lines[idx..], file, header) == None
    ensures hunk.Some? ==> idx < next <= |lines|
    ensures hunk.Some?
       ==> ReadHunks(lines[idx..], file, header) == Prefixed([hunk.value], ReadHunks(lines[next..], file, header))
  {
    var h := header(lines[idx]);
    if h.None? || file == "" || file == "/dev/null" {
      assert lines[idx..][0] == lines[idx] && lines[idx][..2][0] == '@';
      return idx, None;
    }
    var touched;
    next, touched := ReadBody(lines, idx + 1);
    OneHunkRead(lines, idx, next, file, header);
    hunk := Some(Hunk(file, h.value.oldStart, Max(1, if h.value.oldCount.Some? then h.value.oldCount.value else 1),
                      h.value.newStart, Max(1, if h.value.newCount.Some? then h.value.newCount.value else 1),
                      Max(1, touched)));
  }

  lemma SkipLine(lines: seq<string>, idx: nat, file: string, header: string -> Option<Header>)
    requires idx < |lines| && !StartsWith(lines[idx], "@@")
    ensures ReadHunks(lines[idx..], file, header)
         == ReadHunks(lines[idx + 1..], if StartsWith(lines[idx], "+++ ") then NormalizeDiffPath(lines[idx][4..]) else
                      file, header)
  {
    assert lines[idx..][0] == lines[idx] && lines[idx..][1..] == lines[idx + 1..];
  }

  method ParsePatchScope(lines: seq<string>, header: string -> Option<Header>) returns (scope: Option<PatchScope>)
    ensures var read := ReadHunks(lines, "", header);
      scope == if read.None? || read.value == [] then None else Some(ScopeOf(read.value))
  {
    var file, t, idx := "", Tally([], [], map[], map[]), 0;
    ghost var read := ReadHunks(lines, "", header);
    PrefixedByNone(read);
    assert lines[0..] == lines;
    while idx < |lines|
      invariant 0 <= idx <= |lines| && Agrees(t)
      invariant read == Prefixed(t.hunks, ReadHunks(lines[idx..], file, header))
    {
      if StartsWith(lines[idx], "@@") {
        var next, hunk := ReadHunk(lines, idx, file, header);
        if hunk.None? { return None; }
        PrefixedTwice(t.hunks, [hunk.value], ReadHunks(lines[next..], file, header));
        t := AddHunk(t, hunk.value);
        idx := next;
      } else {
        SkipLine(lines, idx, file, header);
        if StartsWith(lines[idx], "+++ ") { file := NormalizeDiffPath(lines[idx][4..]); }
        idx := idx + 1;
      }
    }
    assert lines[idx..] == [] && t.hunks + [] == t.hunks;
    assert read == Some(t.hunks);
    if t.hunks == [] { return None; }
    TotalIsTheSumOverFiles(t.hunks);
    scope := Some(PatchScope(Sort(t.order, TextAtMost), t.hunks, t.touched, SumOf(t.touched, t.order), t.count));
  }

  // ---- what is written is what is read ----

  datatype HunkText = HunkText(header: string, body: seq<string>)
  datatype FileDiff = FileDiff(minus: string, plus: string, hunks: seq<HunkText>)

  function WriteHunks(hunks: seq<HunkText>): seq<string> {
    if hunks == [] then [] else [hunks[0].header] + hunks[0].body + WriteHunks(hunks[1..])
  }

  function Write(diffs: seq<FileDiff>): seq<string> {
    if diffs == [] then [] else [diffs[0].minus, diffs[0].plus] + WriteHunks(diffs[0].hunks) + Write(diffs[1..])
  }

  predicate NoStops(body: seq<string>) { body == [] || (!Stops(body[0]) && NoStops(body[1..])) }

  predicate PlainHunk(t: HunkText, header: string -> Option<Header>) {
    StartsWith(t.header, "@@") && header(t.header).Some? && NoStops(t.body)
  }

  predicate PlainHunks(hunks: seq<HunkText>, header: string -> Option<Header>) {
    hunks == [] || (PlainHunk(hunks[0], header) && PlainHunks(hunks[1..], header))
  }

  function FileOf(d: FileDiff): string
    requires StartsWith(d.plus, "+++ ")
  {
    NormalizeDiffPath(d.plus[4..])
  }

  /** A file section no line of which can be taken for a header of another kind. */
  predicate PlainDiff(d: FileDiff, header: string -> Option<Header>) {
    && StartsWith(d.minus, "--- ") && StartsWith(d.plus, "+++ ") && FileOf(d) != "" && FileOf(d) != "/dev/null"
    && PlainHunks(d.hunks, header)
  }

  predicate PlainDiffs(diffs: seq<FileDiff>, header: string -> Option<Header>) {
    diffs == [] || (PlainDiff(diffs[0], header) && PlainDiffs(diffs[1..], header))
  }

  function Written(file: string, hunks: seq<HunkText>, header: string -> Option<Header>): seq<Hunk>
    requires PlainHunks(hunks, header)
  {
    if hunks == [] then []
    else [HunkOf(file, header(hunks[0].header).value, hunks[0].body)] + Written(file, hunks[1..], header)
  }

  function AllWritten(diffs: seq<FileDiff>, header: string -> Option<Header>): seq<Hunk>
    requires PlainDiffs(diffs, header)
  {
    if diffs == [] then [] else Written(FileOf(diffs[0]), diffs[0].hunks, header) + AllWritten(diffs[1..], header)
  }

  lemma {:induction false} BodyEndsAtTheStop(body: seq<string>, rest: seq<string>)
    requires NoStops(body)
    requires rest == [] || Stops(rest[0])
    ensures BodyLength(body + rest) == |body|
  {
    if body == [] {
      assert body + rest == rest;
    } else {
      assert (body + rest)[1..] == body[1..] + rest;
      BodyEndsAtTheStop(body[1..], rest);
    }
  }

  lemma WrittenHunkIsRead(t: HunkText, more: seq<string>, file: string, header: string -> Option<Header>)
    requires PlainHunk(t, header) && file != "" && file != "/dev/null" && (more == [] || Stops(more[0]))
    ensures ReadHunks([t.header] + t.body + more, file, header)
         == Prefixed([HunkOf(file, header(t.header).value, t.body)], ReadHunks(more, file, header))
  {
    var lines := [t.header] + t.body + more;
    BodyEndsAtTheStop(t.body, more);
    var next := 1 + |t.body|;
    assert lines[0..] == lines && lines[1..] == t.body + more && lines[1..next] == t.body && lines[next..] == more;
    OneHunkRead(lines, 0, next, file, header);
  }

  lemma {:induction false} HunksStartWithAStop(hunks: seq<HunkText>, rest: seq<string>,
                                               header: string -> Option<Header>)
    requires PlainHunks(hunks, header) && (rest == [] || Stops(rest[0]))
    ensures var lines := WriteHunks(hunks) + rest; lines == [] || Stops(lines[0])
  {
    if hunks == [] { assert WriteHunks(hunks) + rest == rest; }
  }

  lemma FirstHunkIsRead(file: string, hunks: seq<HunkText>, rest: seq<string>, header: string -> Option<Header>)
    requires hunks != [] && PlainHunks(hunks, header)
    requires file != "" && file != "/dev/null" && (rest == [] || Stops(rest[0]))
    ensures ReadHunks(WriteHunks(hunks) + rest, file, header)
         == Prefixed([HunkOf(file, header(hunks[0].header).value, hunks[0].body)],
                     ReadHunks(WriteHunks(hunks[1..]) + rest, file, header))
  {
    FirstHunkApart(hunks, rest);
    HunksStartWithAStop(hunks[1..], rest, header);
    WrittenHunkIsRead(hunks[0], WriteHunks(hunks[1..]) + rest, file, header);
  }

  lemma FirstHunkApart(hunks: seq<HunkText>, rest: seq<string>)
    requires hunks != []
    ensures WriteHunks(hunks) + rest == [hunks[0].header] + hunks[0].body + (WriteHunks(hunks[1..]) + rest)
  {
  }

  lemma {:induction false} WrittenHunksAreRead(file: string, hunks: seq<HunkText>, rest: seq<string>,
                                               header: string -> Option<Header>)
    requires PlainHunks(hunks, header)
    requires file != "" && file != "/dev/null" && (rest == [] || Stops(rest[0]))
    ensures ReadHunks(WriteHunks(hunks) + rest, file, header)
       == Prefixed(Written(file, hunks, header), ReadHunks(rest, file, header))
  {
    if hunks == [] {
      assert WriteHunks(hunks) + rest == rest;
      PrefixedByNone(ReadHunks(rest, file, header));
    } else {
      var t, tail := hunks[0], hunks[1..];
      var first, after := [HunkOf(file, header(t.header).value, t.body)], Written(file, tail, header);
      FirstHunkIsRead(file, hunks, rest, header);
      WrittenHunksAreRead(file, tail, rest, header);
      PrefixedTwice(first, after, ReadHunks(rest, file, header));
    }
  }

  lemma DiffsStartWithAStop(diffs: seq<FileDiff>, header: string -> Option<Header>)
    requires PlainDiffs(diffs, header)
    ensures Write(diffs) == [] || Stops(Write(diffs)[0])
  {
  }

  /** A diff written with plain bodies is read back hunk by hunk, whatever file was current before. */
  lemma {:induction false} WrittenDiffsAreRead(diffs: seq<FileDiff>, file: string, header: string -> Option<Header>)
    requires PlainDiffs(diffs, header)
    ensures ReadHunks(Write(diffs), file, header) == Some(AllWritten(diffs, header))
  {
    if diffs != [] {
      var d, rest := diffs[0], Write(diffs[1..]);
      var hunks := WriteHunks(d.hunks) + rest;
      assert ReadHunks(Write(diffs), file, header) == ReadHunks(hunks, FileOf(d), header) by {
        assert Write(diffs) == [d.minus, d.plus] + hunks;
        HeaderIsRead(d, hunks, file, header);
      }
      assert ReadHunks(hunks, FileOf(d), header)
          == Prefixed(Written(FileOf(d), d.hunks, header), ReadHunks(rest, FileOf(d), header)) by {
        DiffsStartWithAStop(diffs[1..], header);
        WrittenHunksAreRead(FileOf(d), d.hunks, rest, header);
      }
      WrittenDiffsAreRead(diffs[1..], FileOf(d), header);
    }
  }

  // ---- what a hunk says ----

  predicate IsChange(line: string) { line != "" && (line[0] == '+' || line[0] == '-') }

  /** The added and the deleted lines of a body. */
  function ChangeAt(body: seq<string>): set<int> { set i | 0 <= i < |body| && IsChange(body[i]) }

  lemma {:induction false} ChangedCounts(body: seq<string>)
    ensures Changed(body) == |ChangeAt(body)|
  {
    if body != [] {
      var n := |body| - 1;
      ChangedCounts(body[..n]);
      assert Changes(body[n]) <==> IsChange(body[n]);
      assert ChangeAt(body) == ChangeAt(body[..n]) + if IsChange(body[n]) then {n} else {};
    }
  }

  /** A hunk's own columns: a count left out is one, none is below one, and it touches its added and deleted lines. */
  lemma HunkSays(file: string, h: Header, body: seq<string>)
    ensures var k, changes := HunkOf(file, h, body), |ChangeAt(body)|;
      && k.file == file && k.oldStart == h.oldStart && k.newStart == h.newStart
      && k.oldCount == (if h.oldCount == None || h.oldCount == Some(0) then 1 else h.oldCount.value)
      && k.newCount == (if h.newCount == None || h.newCount == Some(0) then 1 else h.newCount.value)
      && k.touched == if changes == 0 then 1 else changes
  {
    ChangedCounts(body);
  }

  /** A path loses surrounding white space and one leading "a/" or "b/". */
  lemma PathSays(raw: string)
    ensures var path := Strip(raw);
      NormalizeDiffPath(raw)
        == if |path| >= 2 && (path[0] == 'a' || path[0] == 'b') && path[1] == '/' then path[2..] else path
  {
    var path := Strip(raw);
    if |path| >= 2 { assert path[..2] == [path[0], path[1]]; }
  }

  /** The body of a hunk goes on to the next hunk header or file header. */
  lemma StopsSays(line: string)
    ensures Stops(line)
       <==> (|line| >= 2 && line[0] == '@' && line[1] == '@')
            || (|line| >= 4 && line[3] == ' ' && line[0] == line[1] == line[2] && (line[0] == '-' || line[0] == '+'))
  {
    if |line| >= 2 { assert line[..2] == [line[0], line[1]]; }
    if |line| >= 4 { assert line[..4] == [line[0], line[1], line[2], line[3]]; }
  }

  // ---- what cannot be read ----

  /** Laid out as a diff, whatever its hunk headers and paths say. */
  predicate LaidOut(hunks: seq<HunkText>) {
    hunks == [] || (StartsWith(hunks[0].header, "@@") && NoStops(hunks[0].body) && LaidOut(hunks[1..]))
  }

  predicate AllLaidOut(diffs: seq<FileDiff>) {
    diffs == [] || (StartsWith(diffs[0].minus, "--- ") && StartsWith(diffs[0].plus, "+++ ") && LaidOut(diffs[0].hunks)
                    && AllLaidOut(diffs[1..]))
  }

  /** A hunk without a readable header. */
  predicate Garbled(hunks: seq<HunkText>, header: string -> Option<Header>) {
    hunks != [] && (header(hunks[0].header).None? || Garbled(hunks[1..], header))
  }

  /** A hunk without a readable header or without a file to apply it to. */
  predicate Unreadable(diffs: seq<FileDiff>, header: string -> Option<Header>)
    requires AllLaidOut(diffs)
  {
    diffs != []
    && (Garbled(diffs[0].hunks, header)
        || (diffs[0].hunks != [] && (FileOf(diffs[0]) == "" || FileOf(diffs[0]) == "/dev/null"))
        || Unreadable(diffs[1..], header))
  }

  lemma BadHunkIsNotRead(t: HunkText, more: seq<string>, file: string, header: string -> Option<Header>)
    requires StartsWith(t.header, "@@") && (header(t.header).None? || file == "" || file == "/dev/null")
    ensures ReadHunks([t.header] + t.body + more, file, header) == None
  {
    var lines := [t.header] + t.body + more;
    assert lines[0] == t.header && t.header[..2] == "@@";
    if |t.header| >= 4 { assert t.header[..4][0] == t.header[..2][0] == '@'; }
  }

  lemma LaidOutStartsWithAStop(hunks: seq<HunkText>, rest: seq<string>)
    requires LaidOut(hunks) && (rest == [] || Stops(rest[0]))
    ensures var lines := WriteHunks(hunks) + rest; lines == [] || Stops(lines[0])
  {
    if hunks == [] { assert WriteHunks(hunks) + rest == rest; }
  }

  lemma FirstUnreadIff(file: string, t: HunkText, more: seq<string>, header: string -> Option<Header>)
    requires StartsWith(t.header, "@@") && NoStops(t.body) && (more == [] || Stops(more[0]))
    ensures ReadHunks([t.header] + t.body + more, file, header) == None
       <==> header(t.header) == None || file == "" || file == "/dev/null" || ReadHunks(more, file, header) == None
  {
    if header(t.header) == None || file == "" || file == "/dev/null" {
      BadHunkIsNotRead(t, more, file, header);
    } else {
      WrittenHunkIsRead(t, more, file, header);
    }
  }

  lemma {:induction false} HunksUnreadIff(file: string, hunks: seq<HunkText>, rest: seq<string>,
                                          header: string -> Option<Header>)
    requires LaidOut(hunks) && (rest == [] || Stops(rest[0]))
    ensures ReadHunks(WriteHunks(hunks) + rest, file, header) == None
       <==> Garbled(hunks, header) || (hunks != [] && (file == "" || file == "/dev/null"))
            || ReadHunks(rest, file, header) == None
  {
    if hunks == [] {
      assert WriteHunks(hunks) + rest == rest;
    } else {
      HunksUnreadIff(file, hunks[1..], rest, header);
      FirstHunkApart(hunks, rest);
      LaidOutStartsWithAStop(hunks[1..], rest);
      FirstUnreadIff(file, hunks[0], WriteHunks(hunks[1..]) + rest, header);
    }
  }

  /** A diff that is laid out as one is unreadable exactly if some hunk has no readable header or no file. */
  lemma {:induction false} UnreadIff(diffs: seq<FileDiff>, file: string, header: string -> Option<Header>)
    requires AllLaidOut(diffs)
    ensures ReadHunks(Write(diffs), file, header) == None <==> Unreadable(diffs, header)
  {
    if diffs != [] {
      var d, rest := diffs[0], Write(diffs[1..]);
      var hunks := WriteHunks(d.hunks) + rest;
      assert Write(diffs) == [d.minus, d.plus] + hunks;
      HeaderIsRead(d, hunks, file, header);
      assert rest == [] || Stops(rest[0]);
      HunksUnreadIff(FileOf(d), d.hunks, rest, header);
      UnreadIff(diffs[1..], FileOf(d), header);
    }
  }

  lemma HeaderIsRead(d: FileDiff, rest: seq<string>, file: string, header: string -> Option<Header>)
    requires StartsWith(d.minus, "--- ") && StartsWith(d.plus, "+++ ")
    ensures ReadHunks([d.minus, d.plus] + rest, file, header) == ReadHunks(rest, FileOf(d), header)
  {
    var lines := [d.minus, d.plus] + rest;
    assert d.minus[..4][0] == '-';
    assert lines[1..] == [d.plus] + rest && lines[1..][1..] == rest;
    assert ReadHunks(lines, file, header) == ReadHunks(lines[1..], file, header);
  }
}
