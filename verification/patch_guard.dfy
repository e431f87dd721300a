/** The patch-recovery guard: greedy hunk pairing, and the bounds a regenerated patch must keep. */
module PatchGuard {
  import opened Seqs
  import opened StableSort
  import opened PatchScopes

  datatype Pair = Pair(original: Hunk, regenerated: Hunk, distance: nat)

  datatype Pairing = Pairing(pairs: seq<Pair>, deterministic: bool, unmatchedOriginal: nat, unmatchedRegenerated: nat)

  function Abs(x: int): nat { if x < 0 then -x else x }

  function Distance(a: Hunk, b: Hunk): nat { Abs(a.oldStart - b.oldStart) }

  // ---- the nearest unused candidate ----

  datatype Candidate = Candidate(distance: nat, idx: int)

  predicate Nearer(a: Candidate, b: Candidate) {
    a.distance < b.distance || (a.distance == b.distance && a.idx <= b.idx)
  }

  lemma NearerIsTotalPreorder()
    ensures TotalPreorder(Nearer)
  {
  }

  function Candidates(orig: Hunk, regens: seq<Hunk>, used: set<int>, upto: nat): seq<Candidate>
    requires upto <= |regens|
  {
    if upto == 0 then []
    else if upto - 1 in used then Candidates(orig, regens, used, upto - 1)
    else Candidates(orig, regens, used, upto - 1) + [Candidate(Distance(orig, regens[upto - 1]), upto - 1)]
  }

  predicate IsCandidate(orig: Hunk, regens: seq<Hunk>, used: set<int>, c: Candidate) {
    0 <= c.idx < |regens| && c.idx !in used && c.distance == Distance(orig, regens[c.idx])
  }

  lemma {:induction false} CandidatesAreTheUnused(orig: Hunk, regens: seq<Hunk>, used: set<int>, upto: nat,
                                                  c: Candidate)
    requires upto <= |regens|
    ensures multiset(Candidates(orig, regens, used, upto))[c]
       == if IsCandidate(orig, regens, used, c) && c.idx < upto then 1 else 0
  {
    if upto > 0 {
      var before, last := Candidates(orig, regens, used, upto - 1),
                          Candidate(Distance(orig, regens[upto - 1]), upto - 1);
      CandidatesAreTheUnused(orig, regens, used, upto - 1, c);
      assert c == last <==> c.idx == upto - 1 && c.distance == Distance(orig, regens[upto - 1]);
      if upto - 1 !in used {
        assert multiset(before + [last])[c] == multiset(before)[c] + if c == last then 1 else 0;
      }
    }
  }

  method Gather(orig: Hunk, regens: seq<Hunk>, used: set<int>) returns (candidates: seq<Candidate>)
    ensures candidates == Candidates(orig, regens, used, |regens|)
  {
    candidates := [];
    for idx := 0 to |regens|
      invariant candidates == Candidates(orig, regens, used, idx)
    {
      if idx !in used { candidates := candidates + [Candidate(Distance(orig, regens[idx]), idx)]; }
    }
  }

  /** `b` is the unused hunk nearest to `orig`, the first one among equals. */
  ghost predicate IsNearest(orig: Hunk, regens: seq<Hunk>, used: set<int>, b: int) {
    && 0 <= b < |regens| && b !in used
    && forall c | IsCandidate(orig, regens, used, c) :: Nearer(Candidate(Distance(orig, regens[b]), b), c)
  }

  /** Another unused hunk is just as near. */
  predicate Tied(orig: Hunk, regens: seq<Hunk>, used: set<int>, b: int)
    requires 0 <= b < |regens|
  {
    exists j | 0 <= j < |regens| :: j !in used && j != b && Distance(orig, regens[j]) == Distance(orig, regens[b])
  }

  /** The position of the nearest unused hunk, -1 if all are used. */
  function Nearest(orig: Hunk, regens: seq<Hunk>, used: set<int>, upto: nat): (b: int)
    requires upto <= |regens|
    ensures -1 <= b < upto
  {
    if upto == 0 then -1
    else
      var b := Nearest(orig, regens, used, upto - 1);
      if upto - 1 in used then b
      else if b == -1 || Distance(orig, regens[upto - 1]) < Distance(orig, regens[b]) then upto - 1
      else b
  }

  lemma {:induction false} NearestAmong(orig: Hunk, regens: seq<Hunk>, used: set<int>, upto: nat, c: Candidate)
    requires upto <= |regens| && IsCandidate(orig, regens, used, c) && c.idx < upto
    ensures var b := Nearest(orig, regens, used, upto);
      b != -1 && b !in used && Nearer(Candidate(Distance(orig, regens[b]), b), c)
  {
    NearestIsUnused(orig, regens, used, upto - 1);
    if c.idx < upto - 1 { NearestAmong(orig, regens, used, upto - 1, c); }
  }

  lemma {:induction false} NearestIsUnused(orig: Hunk, regens: seq<Hunk>, used: set<int>, upto: nat)
    requires upto <= |regens|
    ensures Nearest(orig, regens, used, upto) !in used || Nearest(orig, regens, used, upto) == -1
    ensures Nearest(orig, regens, used, upto) == -1 ==> forall j | 0 <= j < upto :: j in used
  {
    if upto > 0 { NearestIsUnused(orig, regens, used, upto - 1); }
  }

  /** Least distance, then least position; and no such hunk exactly when all are used. */
  lemma NearestIsLeast(orig: Hunk, regens: seq<Hunk>, used: set<int>)
    ensures var b := Nearest(orig, regens, used, |regens|);
      if b == -1 then forall j | 0 <= j < |regens| :: j in used else IsNearest(orig, regens, used, b)
  {
    NearestIsUnused(orig, regens, used, |regens|);
    forall c | IsCandidate(orig, regens, used, c) { NearestAmong(orig, regens, used, |regens|, c); }
  }

  /** The first of the sorted candidates is the nearest; the second shows whether it is tied. */
  lemma SortedFrontDecides(orig: Hunk, regens: seq<Hunk>, used: set<int>, sorted: seq<Candidate>)
    requires sorted == Sort(Candidates(orig, regens, used, |regens|), Nearer)
    ensures sorted == [] <==> Nearest(orig, regens, used, |regens|) == -1
    ensures sorted != [] ==> sorted[0].idx == Nearest(orig, regens, used, |regens|)
    ensures sorted != [] ==> 0 <= sorted[0].idx < |regens|
    ensures sorted != [] ==>
      (Tied(orig, regens, used, sorted[0].idx) <==> (|sorted| > 1 && sorted[0].distance == sorted[1].distance))
  {
    var gathered, b := Candidates(orig, regens, used, |regens|), Nearest(orig, regens, used, |regens|);
    NearerIsTotalPreorder();
    SortIsSortedPermutation(gathered, Nearer);
    NearestIsLeast(orig, regens, used);
    if b != -1 {
      var c := Candidate(Distance(orig, regens[b]), b);
      CandidatesAreTheUnused(orig, regens, used, |regens|, c);
      assert c in multiset(sorted);
      SortedHead(sorted, c, Nearer);
    }
    if sorted != [] {
      assert sorted[0] in multiset(sorted);
      CandidatesAreTheUnused(orig, regens, used, |regens|, sorted[0]);
      if Tied(orig, regens, used, sorted[0].idx) { TieShowsSecond(orig, regens, used, sorted); }
      if |sorted| > 1 && sorted[0].distance == sorted[1].distance { SecondShowsTie(orig, regens, used, sorted); }
    }
  }

  lemma SecondShowsTie(orig: Hunk, regens: seq<Hunk>, used: set<int>, sorted: seq<Candidate>)
    requires |sorted| > 1 && sorted[0].distance == sorted[1].distance && IsCandidate(orig, regens, used, sorted[0])
    requires multiset(sorted) == multiset(Candidates(orig, regens, used, |regens|))
    ensures Tied(orig, regens, used, sorted[0].idx)
  {
    assert sorted[1] in multiset(sorted);
    CandidatesAreTheUnused(orig, regens, used, |regens|, sorted[1]);
    CandidatesAreTheUnused(orig, regens, used, |regens|, sorted[0]);
    assert sorted == [sorted[0]] + [sorted[1]] + sorted[2..];
    assert sorted[1].idx != sorted[0].idx;
  }

  lemma TieShowsSecond(orig: Hunk, regens: seq<Hunk>, used: set<int>, sorted: seq<Candidate>)
    requires sorted != [] && Sorted(sorted, Nearer) && IsCandidate(orig, regens, used, sorted[0])
    requires multiset(sorted) == multiset(Candidates(orig, regens, used, |regens|))
    requires Tied(orig, regens, used, sorted[0].idx)
    ensures |sorted| > 1 && sorted[0].distance == sorted[1].distance
  {
    NearerIsTotalPreorder();
    var j :| 0 <= j < |regens| && j !in used && j != sorted[0].idx
             && Distance(orig, regens[j]) == Distance(orig, regens[sorted[0].idx]);
    var c := Candidate(Distance(orig, regens[j]), j);
    CandidatesAreTheUnused(orig, regens, used, |regens|, c);
    assert c in multiset(sorted);
    var k :| 0 <= k < |sorted| && sorted[k] == c;
    assert sorted[1..][k - 1] == c;
    SortedHead(sorted[1..], c, Nearer);
    assert sorted[1] in sorted;
    SortedHead(sorted, sorted[1], Nearer);
  }

  method Choose(orig: Hunk, regens: seq<Hunk>, used: set<int>) returns (best: int, tied: bool)
    ensures best == Nearest(orig, regens, used, |regens|)
    ensures tied <==> (best != -1 && Tied(orig, regens, used, best))
  {
    var candidates := Gather(orig, regens, used);
    candidates := Sort(candidates, Nearer);
    SortedFrontDecides(orig, regens, used, candidates);
    if candidates == [] { return -1, false; }
    best := candidates[0].idx;
    tied := |candidates| > 1 && candidates[0].distance == candidates[1].distance;
  }

  // ---- pairing within a file ----

  datatype FileMatch = FileMatch(pairs: seq<Pair>, deterministic: bool, unmatched: nat, used: set<int>)

  /** Greedy pairing of the original hunks, in file order, with the nearest unused regenerated ones. */
  function MatchFrom(origs: seq<Hunk>, regens: seq<Hunk>, used: set<int>): FileMatch
    decreases |origs|
  {
    if origs == [] then FileMatch([], true, 0, used)
    else
      var b := Nearest(origs[0], regens, used, |regens|);
      if b == -1 then
        var rest := MatchFrom(origs[1..], regens, used);
        FileMatch(rest.pairs, false, rest.unmatched + 1, rest.used)
      else
        var rest := MatchFrom(origs[1..], regens, used + {b});
        FileMatch([Pair(origs[0], regens[b], Distance(origs[0], regens[b]))] + rest.pairs,
                  rest.deterministic && !Tied(origs[0], regens, used, b), rest.unmatched, rest.used)
  }

  method PairFile(origs: seq<Hunk>, regens: seq<Hunk>) returns (m: FileMatch)
    ensures m == MatchFrom(origs, regens, {})
  {
    var pairs: seq<Pair>, deterministic, unmatched: nat, used: set<int> := [], true, 0, {};
    for i := 0 to |origs|
      invariant var rest := MatchFrom(origs[i..], regens, used);
        MatchFrom(origs, regens, {})
          == FileMatch(pairs + rest.pairs, deterministic && rest.deterministic, unmatched + rest.unmatched, rest.used)
    {
      assert origs[i..][0] == origs[i] && origs[i..][1..] == origs[i + 1..];
      var best, tied := Choose(origs[i], regens, used);
      if best == -1 {
        unmatched := unmatched + 1;
        deterministic := false;
        continue;
      }
      if tied { deterministic := false; }
      pairs := pairs + [Pair(origs[i], regens[best], Distance(origs[i], regens[best]))];
      used := used + {best};
    }
    m := FileMatch(pairs, deterministic, unmatched, used);
  }

  // ---- pairing a whole patch ----

  function PairFiles(files: seq<string>, originals: seq<Hunk>, regenerated: seq<Hunk>): Pairing {
    if files == [] then Pairing([], true, 0, 0)
    else
      var regens := InFile(regenerated, files[0]);
      var m := MatchFrom(InFile(originals, files[0]), regens, {});
      Joined(Pairing(m.pairs, m.deterministic, m.unmatched, Max(0, |regens| - |m.used|)),
             PairFiles(files[1..], originals, regenerated))
  }

  function Joined(p: Pairing, q: Pairing): Pairing {
    Pairing(p.pairs + q.pairs, p.deterministic && q.deterministic,
            p.unmatchedOriginal + q.unmatchedOriginal, p.unmatchedRegenerated + q.unmatchedRegenerated)
  }

  /** Regenerated hunks in files the original does not touch. */
  function Foreign(files: seq<string>, originals: seq<Hunk>, regenerated: seq<Hunk>): nat {
    if files == [] then 0
    else (if files[0] in FilesOf(originals) then 0 else |InFile(regenerated, files[0])|)
         + Foreign(files[1..], originals, regenerated)
  }

  function PairHunks(originals: seq<Hunk>, regenerated: seq<Hunk>): Pairing {
    var p := PairFiles(FilesOf(originals), originals, regenerated);
    p.(unmatchedRegenerated := p.unmatchedRegenerated + Foreign(FilesOf(regenerated), originals, regenerated))
  }

  lemma JoinedTwice(p: Pairing, q: Pairing, r: Pairing)
    ensures Joined(Joined(p, q), r) == Joined(p, Joined(q, r))
  {
    assert p.pairs + q.pairs + r.pairs == p.pairs + (q.pairs + r.pairs);
  }

  lemma JoinedWithEmpty(p: Pairing)
    ensures Joined(Pairing([], true, 0, 0), p) == p == Joined(p, Pairing([], true, 0, 0))
  {
    assert [] + p.pairs == p.pairs == p.pairs + [];
  }

  lemma OneFilePaired(files: seq<string>, i: nat, originals: seq<Hunk>, regenerated: seq<Hunk>)
    requires i < |files|
    ensures var regens := InFile(regenerated, files[i]);
      var m := MatchFrom(InFile(originals, files[i]), regens, {});
      PairFiles(files[i..], originals, regenerated)
        == Joined(Pairing(m.pairs, m.deterministic, m.unmatched, Max(0, |regens| - |m.used|)),
                  PairFiles(files[i + 1..], originals, regenerated))
  {
    assert files[i..][0] == files[i] && files[i..][1..] == files[i + 1..];
  }

  method PairHunksByFileOrderNearest(originals: seq<Hunk>, regenerated: seq<Hunk>) returns (p: Pairing)
    ensures p == PairHunks(originals, regenerated)
  {
    var origFiles, origByFile := GroupByFile(originals);
    var regenFiles, regenByFile := GroupByFile(regenerated);
    p := PairOriginalFiles(originals, regenerated, origFiles, origByFile, regenByFile);
    var foreign := CountForeign(originals, regenerated, origByFile, regenFiles, regenByFile);
    p := p.(unmatchedRegenerated := p.unmatchedRegenerated + foreign);
  }

  method PairOriginalFiles(ghost originals: seq<Hunk>, ghost regenerated: seq<Hunk>,
                           files: seq<string>, origByFile: map<string, seq<Hunk>>, regenByFile: map<string, seq<Hunk>>)
    returns (p: Pairing)
    requires forall f | f in files :: f in origByFile && origByFile[f] == InFile(originals, f)
    requires forall f :: InFile(regenerated, f) == if f in regenByFile then regenByFile[f] else []
    ensures p == PairFiles(files, originals, regenerated)
  {
    p := Pairing([], true, 0, 0);
    ghost var whole := PairFiles(files, originals, regenerated);
    JoinedWithEmpty(whole);
    assert files[0..] == files;
    for i := 0 to |files|
      invariant whole == Joined(p, PairFiles(files[i..], originals, regenerated))
    {
      OneFilePaired(files, i, originals, regenerated);
      var regens := if files[i] in regenByFile then regenByFile[files[i]] else [];
      var m := PairFile(origByFile[files[i]], regens);
      var step := Pairing(m.pairs, m.deterministic, m.unmatched, Max(0, |regens| - |m.used|));
      JoinedTwice(p, step, PairFiles(files[i + 1..], originals, regenerated));
      p := Joined(p, step);
    }
    JoinedWithEmpty(p);
  }

  method CountForeign(ghost originals: seq<Hunk>, ghost regenerated: seq<Hunk>,
                      origByFile: map<string, seq<Hunk>>, files: seq<string>, regenByFile: map<string, seq<Hunk>>)
    returns (n: nat)
    requires forall f :: f in origByFile <==> f in FilesOf(originals)
    requires forall f | f in files :: f in regenByFile && regenByFile[f] == InFile(regenerated, f)
    ensures n == Foreign(files, originals, regenerated)
  {
    n := 0;
    assert files[0..] == files;
    for i := 0 to |files|
      invariant n + Foreign(files[i..], originals, regenerated) == Foreign(files, originals, regenerated)
    {
      assert files[i..][0] == files[i] && files[i..][1..] == files[i + 1..];
      if files[i] !in origByFile { n := n + |regenByFile[files[i]]|; }
    }
  }

  // ---- nothing is lost or used twice ----

  function Originals(pairs: seq<Pair>): seq<Hunk> {
    if pairs == [] then [] else [pairs[0].original] + Originals(pairs[1..])
  }

  function Regenerated(pairs: seq<Pair>): seq<Hunk> {
    if pairs == [] then [] else [pairs[0].regenerated] + Regenerated(pairs[1..])
  }

  lemma {:induction false} OriginalsOfConcatenation(p: seq<Pair>, q: seq<Pair>)
    ensures Originals(p + q) == Originals(p) + Originals(q)
  {
    if p == [] {
      assert p + q == q;
    } else {
      assert (p + q)[1..] == p[1..] + q;
      OriginalsOfConcatenation(p[1..], q);
    }
  }

  lemma {:induction false} RegeneratedOfConcatenation(p: seq<Pair>, q: seq<Pair>)
    ensures Regenerated(p + q) == Regenerated(p) + Regenerated(q)
  {
    if p == [] {
      assert p + q == q;
    } else {
      assert (p + q)[1..] == p[1..] + q;
      RegeneratedOfConcatenation(p[1..], q);
    }
  }

  /** The regenerated hunks not used yet, among the first `upto`. */
  function Left(regens: seq<Hunk>, used: set<int>, upto: nat): multiset<Hunk>
    requires upto <= |regens|
  {
    if upto == 0 then multiset{}
    else if upto - 1 in used then Left(regens, used, upto - 1)
    else Left(regens, used, upto - 1) + multiset{regens[upto - 1]}
  }

  lemma {:induction false} LaterUseIsUnseen(regens: seq<Hunk>, used: set<int>, b: int, upto: nat)
    requires upto <= |regens| && upto <= b
    ensures Left(regens, used + {b}, upto) == Left(regens, used, upto)
  {
    if upto > 0 { LaterUseIsUnseen(regens, used, b, upto - 1); }
  }

  lemma {:induction false} UsingOne(regens: seq<Hunk>, used: set<int>, b: int, upto: nat)
    requires upto <= |regens| && 0 <= b < upto && b !in used
    ensures Left(regens, used, upto) == Left(regens, used + {b}, upto) + multiset{regens[b]}
  {
    if b == upto - 1 {
      LaterUseIsUnseen(regens, used, b, upto - 1);
    } else {
      UsingOne(regens, used, b, upto - 1);
    }
  }

  lemma {:induction false} NoneUsed(regens: seq<Hunk>, upto: nat)
    requires upto <= |regens|
    ensures Left(regens, {}, upto) == multiset(regens[..upto])
  {
    if upto > 0 {
      NoneUsed(regens, upto - 1);
      assert regens[..upto] == regens[..upto - 1] + [regens[upto - 1]];
    }
  }

  /** Every original hunk is either paired or counted as unmatched. */
  lemma {:induction false} MatchKeepsOriginals(origs: seq<Hunk>, regens: seq<Hunk>, used: set<int>)
    ensures var m := MatchFrom(origs, regens, used);
      |m.pairs| + m.unmatched == |origs| && multiset(Originals(m.pairs)) <= multiset(origs)
    decreases |origs|
  {
    if origs != [] {
      assert origs == [origs[0]] + origs[1..];
      var b := Nearest(origs[0], regens, used, |regens|);
      MatchKeepsOriginals(origs[1..], regens, if b == -1 then used else used + {b});
    }
  }

  /** Matching moves hunks from the unused ones to the pairs, one for one. */
  lemma {:induction false} MatchKeepsRegenerated(origs: seq<Hunk>, regens: seq<Hunk>, used: set<int>)
    ensures var m := MatchFrom(origs, regens, used);
      && |m.used| == |used| + |m.pairs|
      && Left(regens, used, |regens|) == Left(regens, m.used, |regens|) + multiset(Regenerated(m.pairs))
    decreases |origs|
  {
    if origs != [] {
      NearestIsUnused(origs[0], regens, used, |regens|);
      var b := Nearest(origs[0], regens, used, |regens|);
      if b == -1 {
        MatchKeepsRegenerated(origs[1..], regens, used);
      } else {
        MatchKeepsRegenerated(origs[1..], regens, used + {b});
        UsingOne(regens, used, b, |regens|);
        var rest := MatchFrom(origs[1..], regens, used + {b});
        var m := MatchFrom(origs, regens, used);
        assert Regenerated(m.pairs) == [regens[b]] + Regenerated(rest.pairs) by { assert m.pairs[1..] == rest.pairs; }
      }
    }
  }

  lemma {:induction false} FilesConserve(files: seq<string>, originals: seq<Hunk>, regenerated: seq<Hunk>)
    ensures var p := PairFiles(files, originals, regenerated);
      && |p.pairs| + p.unmatchedOriginal == |Grouped(originals, files)|
      && |p.pairs| + p.unmatchedRegenerated == |Grouped(regenerated, files)|
      && multiset(Originals(p.pairs)) <= multiset(Grouped(originals, files))
      && multiset(Regenerated(p.pairs)) <= multiset(Grouped(regenerated, files))
  {
    if files != [] {
      FilesConserve(files[1..], originals, regenerated);
      var origs, regens := InFile(originals, files[0]), InFile(regenerated, files[0]);
      var m, rest := MatchFrom(origs, regens, {}), PairFiles(files[1..], originals, regenerated);
      MatchKeepsOriginals(origs, regens, {});
      MatchUsesEachOnce(origs, regens);
      OriginalsOfConcatenation(m.pairs, rest.pairs);
      RegeneratedOfConcatenation(m.pairs, rest.pairs);
    }
  }

  lemma MatchUsesEachOnce(origs: seq<Hunk>, regens: seq<Hunk>)
    ensures var m := MatchFrom(origs, regens, {});
      multiset(Regenerated(m.pairs)) <= multiset(regens) && |m.used| == |m.pairs| <= |regens|
  {
    var m := MatchFrom(origs, regens, {});
    MatchKeepsRegenerated(origs, regens, {});
    NoneUsed(regens, |regens|);
    assert regens[..|regens|] == regens;
    RegeneratedLength(m.pairs);
    assert |multiset(regens)| == |Left(regens, m.used, |regens|)| + |multiset(Regenerated(m.pairs))|;
  }

  lemma {:induction false} RegeneratedLength(pairs: seq<Pair>)
    ensures |Regenerated(pairs)| == |Originals(pairs)| == |pairs|
  {
    if pairs != [] { RegeneratedLength(pairs[1..]); }
  }

  function Except(files: seq<string>, known: seq<string>): seq<string> {
    if files == [] then []
    else if files[0] in known then Except(files[1..], known)
    else [files[0]] + Except(files[1..], known)
  }

  lemma {:induction false} ExceptKeepsTheRest(files: seq<string>, known: seq<string>)
    requires Distinct(files)
    ensures Distinct(Except(files, known))
    ensures forall f :: f in Except(files, known) <==> f in files && f !in known
  {
    if files != [] {
      ExceptKeepsTheRest(files[1..], known);
      assert files == [files[0]] + files[1..] && files[0] !in files[1..];
    }
  }

  lemma {:induction false} ForeignAreTheRest(files: seq<string>, originals: seq<Hunk>, regenerated: seq<Hunk>)
    ensures Foreign(files, originals, regenerated) == |Grouped(regenerated, Except(files, FilesOf(originals)))|
  {
    if files != [] { ForeignAreTheRest(files[1..], originals, regenerated); }
  }

  /** The hunks of the files in `known` and those of the other files are all the hunks. */
  lemma GroupsSplit(hunks: seq<Hunk>, known: seq<string>)
    requires Distinct(known)
    ensures multiset(Grouped(hunks, known)) + multiset(Grouped(hunks, Except(FilesOf(hunks), known))) == multiset(hunks)
  {
    FilesAreDistinct(hunks);
    var rest := Except(FilesOf(hunks), known);
    ExceptKeepsTheRest(FilesOf(hunks), known);
    forall h ensures multiset(Grouped(hunks, known))[h] + multiset(Grouped(hunks, rest))[h] == multiset(hunks)[h] {
      GroupedCounts(hunks, known, h);
      GroupedCounts(hunks, rest, h);
      ListedIffItHasAHunk(hunks, h.file);
      InFileCounts(hunks, h.file, h);
    }
    assert multiset(Grouped(hunks, known)) + multiset(Grouped(hunks, rest)) == multiset(hunks);
  }

  /** Pairing conserves hunks on both sides, and uses none twice. */
  lemma PairingConserves(originals: seq<Hunk>, regenerated: seq<Hunk>)
    ensures var p := PairHunks(originals, regenerated);
      && |p.pairs| + p.unmatchedOriginal == |originals|
      && |p.pairs| + p.unmatchedRegenerated == |regenerated|
      && multiset(Originals(p.pairs)) <= multiset(originals)
      && multiset(Regenerated(p.pairs)) <= multiset(regenerated)
  {
    var files := FilesOf(originals);
    FilesConserve(files, originals, regenerated);
    GroupingPermutes(originals);
    FilesAreDistinct(originals);
    ForeignAreTheRest(FilesOf(regenerated), originals, regenerated);
    GroupsSplit(regenerated, files);
    assert |multiset(regenerated)|
      == |multiset(Grouped(regenerated, files))|
         + |multiset(Grouped(regenerated, Except(FilesOf(regenerated), files)))|;
  }

  predicate Local(p: Pair) {
    p.original.file == p.regenerated.file && p.distance == Distance(p.original, p.regenerated)
  }

  predicate AllLocal(pairs: seq<Pair>) { pairs == [] || (Local(pairs[0]) && AllLocal(pairs[1..])) }

  lemma {:induction false} LocalConcatenation(p: seq<Pair>, q: seq<Pair>)
    requires AllLocal(p) && AllLocal(q)
    ensures AllLocal(p + q)
  {
    if p == [] {
      assert p + q == q;
    } else {
      assert (p + q)[1..] == p[1..] + q;
      LocalConcatenation(p[1..], q);
    }
  }

  lemma {:induction false} MatchIsLocal(origs: seq<Hunk>, regens: seq<Hunk>, used: set<int>, file: string)
    requires forall i | 0 <= i < |origs| :: origs[i].file == file
    requires forall i | 0 <= i < |regens| :: regens[i].file == file
    ensures AllLocal(MatchFrom(origs, regens, used).pairs)
    decreases |origs|
  {
    if origs != [] {
      var b := Nearest(origs[0], regens, used, |regens|);
      MatchIsLocal(origs[1..], regens, if b == -1 then used else used + {b}, file);
    }
  }

  lemma {:induction false} PairsStayInTheirFile(files: seq<string>, originals: seq<Hunk>, regenerated: seq<Hunk>)
    ensures AllLocal(PairFiles(files, originals, regenerated).pairs)
  {
    if files != [] {
      var origs, regens := InFile(originals, files[0]), InFile(regenerated, files[0]);
      InFileIsInFile(originals, files[0]);
      InFileIsInFile(regenerated, files[0]);
      MatchIsLocal(origs, regens, {}, files[0]);
      PairsStayInTheirFile(files[1..], originals, regenerated);
      LocalConcatenation(MatchFrom(origs, regens, {}).pairs, PairFiles(files[1..], originals, regenerated).pairs);
    }
  }
}
