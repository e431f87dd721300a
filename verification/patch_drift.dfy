/** A patch whose hunks all moved by the same number of lines: when the guard accepts it. */
module PatchDrift {
  import opened PatchScopes
  import opened PatchGuard
  import opened PatchRecovery

  /** `r` is `o` moved by `d` lines; where it lands in the new file is free. */
  predicate Moved(o: Hunk, r: Hunk, d: int) {
    r.file == o.file && r.oldStart == o.oldStart + d && r.oldCount == o.oldCount && r.touched == o.touched
  }

  predicate AllMoved(origs: seq<Hunk>, regens: seq<Hunk>, d: int) {
    |origs| == |regens| && forall i | 0 <= i < |origs| :: Moved(origs[i], regens[i], d)
  }

  predicate Clear2(a: Hunk, b: Hunk, d: int) {
    a.file != b.file || Abs(b.oldStart + d - a.oldStart) > Abs(d)
  }

  /** No later hunk of a file moves to within the length of the move of an earlier one. */
  predicate Clear(hunks: seq<Hunk>, d: int) {
    forall i, j | 0 <= i < j < |hunks| :: Clear2(hunks[i], hunks[j], d)
  }

  predicate Apart2(a: Hunk, b: Hunk, gap: nat) { a.file != b.file || Abs(a.oldStart - b.oldStart) > gap }

  /** Starts within a file differ pairwise by more than `gap`. */
  predicate Apart(hunks: seq<Hunk>, gap: nat) {
    forall i, j | 0 <= i < j < |hunks| :: Apart2(hunks[i], hunks[j], gap)
  }

  predicate Below(a: Hunk, b: Hunk) { a.file != b.file || a.oldStart < b.oldStart }

  /** Starts ascend within each file, as in every diff that was computed. */
  predicate Ascending(hunks: seq<Hunk>) {
    forall i, j | 0 <= i < j < |hunks| :: Below(hunks[i], hunks[j])
  }

  /** Hunks far enough apart are clear whichever way they move. */
  lemma ApartIsClear(hunks: seq<Hunk>, d: int)
    requires Apart(hunks, 2 * Abs(d))
    ensures Clear(hunks, d)
  {
    forall i, j | 0 <= i < j < |hunks| ensures Clear2(hunks[i], hunks[j], d) {
      assert Apart2(hunks[i], hunks[j], 2 * Abs(d));
    }
  }

  /** Ascending hunks are clear exactly when they move down, or stay, or are more than twice the move apart. */
  lemma AscendingIsClearIff(hunks: seq<Hunk>, d: int)
    requires Ascending(hunks)
    ensures Clear(hunks, d) <==> d >= 0 || Apart(hunks, 2 * Abs(d))
  {
    if Apart(hunks, 2 * Abs(d)) { ApartIsClear(hunks, d); }
    if d >= 0 {
      forall i, j | 0 <= i < j < |hunks| ensures Clear2(hunks[i], hunks[j], d) { assert Below(hunks[i], hunks[j]); }
    } else if Clear(hunks, d) {
      forall i, j | 0 <= i < j < |hunks| ensures Apart2(hunks[i], hunks[j], 2 * Abs(d)) {
        assert Below(hunks[i], hunks[j]) && Clear2(hunks[i], hunks[j], d);
      }
    }
  }

  // ---- grouping commutes with the move ----

  lemma {:induction false} InFileMoved(origs: seq<Hunk>, regens: seq<Hunk>, d: int, file: string)
    requires AllMoved(origs, regens, d)
    ensures AllMoved(InFile(origs, file), InFile(regens, file), d)
    ensures FilesOf(origs) == FilesOf(regens)
  {
    if origs != [] {
      var n := |origs| - 1;
      assert Moved(origs[n], regens[n], d);
      InFileMoved(origs[..n], regens[..n], d, file);
    }
  }

  lemma {:induction false} TouchedMoved(origs: seq<Hunk>, regens: seq<Hunk>, d: int)
    requires AllMoved(origs, regens, d)
    ensures Touched(origs) == Touched(regens)
  {
    if origs != [] {
      assert Moved(origs[0], regens[0], d);
      assert AllMoved(origs[1..], regens[1..], d);
      TouchedMoved(origs[1..], regens[1..], d);
    }
  }

  lemma {:induction false} InFileClear(hunks: seq<Hunk>, d: int, file: string)
    requires Clear(hunks, d)
    ensures Clear(InFile(hunks, file), d)
  {
    if hunks != [] {
      var n := |hunks| - 1;
      InFileClear(hunks[..n], d, file);
      InFileIsInFile(hunks[..n], file);
      var before := InFile(hunks[..n], file);
      forall i | 0 <= i < |before| ensures Clear2(before[i], hunks[n], d) {
        assert before[i] in hunks[..n];
        var k :| 0 <= k < n && hunks[k] == before[i];
      }
    }
  }

  /** Two hunks of a file keep their order among the hunks of that file. */
  lemma {:induction false} OrderInFile(hunks: seq<Hunk>, i: nat, j: nat) returns (a: nat, b: nat)
    requires i < j < |hunks| && hunks[i].file == hunks[j].file
    ensures var os := InFile(hunks, hunks[i].file); a < b < |os| && os[a] == hunks[i] && os[b] == hunks[j]
  {
    var n, file := |hunks| - 1, hunks[i].file;
    var before := InFile(hunks[..n], file);
    if j < n {
      a, b := OrderInFile(hunks[..n], i, j);
      assert forall k | 0 <= k < |before| :: InFile(hunks, file)[k] == before[k];
    } else {
      InFileIsInFile(hunks[..n], file);
      assert hunks[i] == hunks[..n][i];
      a :| 0 <= a < |before| && before[a] == hunks[i];
      b := |before|;
    }
  }

  lemma ClearWhenClearInFiles(hunks: seq<Hunk>, d: int)
    requires forall f | f in FilesOf(hunks) :: Clear(InFile(hunks, f), d)
    ensures Clear(hunks, d)
  {
    forall i, j | 0 <= i < j < |hunks| ensures Clear2(hunks[i], hunks[j], d) {
      if hunks[i].file == hunks[j].file {
        var a, b := OrderInFile(hunks, i, j);
        ListedIffItHasAHunk(hunks, hunks[i].file);
        assert Clear2(InFile(hunks, hunks[i].file)[a], InFile(hunks, hunks[i].file)[b], d);
      }
    }
  }

  // ---- every hunk finds its own image ----

  function Upto(at: nat): (s: set<int>)
    ensures forall k :: k in s <==> 0 <= k < at
  {
    if at == 0 then {} else Upto(at - 1) + {at - 1}
  }

  /** Each hunk from `at` on with the one at its position. */
  function Images(origs: seq<Hunk>, regens: seq<Hunk>, at: nat): seq<Pair>
    decreases |origs| - at
  {
    if at >= |origs| || at >= |regens| then []
    else [Pair(origs[at], regens[at], Distance(origs[at], regens[at]))] + Images(origs, regens, at + 1)
  }

  lemma {:induction false} UntiedIsComplete(origs: seq<Hunk>, regens: seq<Hunk>, used: set<int>)
    requires MatchFrom(origs, regens, used).deterministic
    ensures var m := MatchFrom(origs, regens, used); m.unmatched == 0 && |m.pairs| == |origs|
    decreases |origs|
  {
    if origs != [] { UntiedIsComplete(origs[1..], regens, used + {Nearest(origs[0], regens, used, |regens|)}); }
  }

  predicate ClearFrom(hunks: seq<Hunk>, at: nat, d: int)
    decreases |hunks| - at
  {
    at >= |hunks| || (ClearAt(hunks, at, d) && ClearFrom(hunks, at + 1, d))
  }

  lemma {:induction false} ClearFromIsClear(hunks: seq<Hunk>, at: nat, d: int)
    ensures ClearFrom(hunks, at, d) <==> forall i, j | at <= i < j < |hunks| :: Clear2(hunks[i], hunks[j], d)
    decreases |hunks| - at
  {
    if at < |hunks| { ClearFromIsClear(hunks, at + 1, d); }
  }

  predicate ClearAt(hunks: seq<Hunk>, at: nat, d: int)
    requires at < |hunks|
  {
    forall j | at < j < |hunks| :: Clear2(hunks[at], hunks[j], d)
  }

  /** From `at` on, with the earlier images used, all hunks are paired with their own images, untied. */
  predicate AllOwn(origs: seq<Hunk>, regens: seq<Hunk>, at: nat)
    requires at <= |origs|
  {
    var m := MatchFrom(origs[at..], regens, Upto(at));
    m.deterministic && m.pairs == Images(origs, regens, at)
  }

  function PairAt(origs: seq<Hunk>, regens: seq<Hunk>, at: nat, b: nat): Pair
    requires at < |origs| && b < |regens|
  {
    Pair(origs[at], regens[b], Distance(origs[at], regens[b]))
  }

  /** With the earlier images used, a hunk finds its own image, untied, exactly when no later image is as near. */
  lemma OwnImageIsNearestIff(origs: seq<Hunk>, regens: seq<Hunk>, at: nat, d: int, file: string)
    requires AllMoved(origs, regens, d) && at < |origs| && forall i | 0 <= i < |origs| :: origs[i].file == file
    ensures var b := Nearest(origs[at], regens, Upto(at), |regens|);
      b != -1 && (ClearAt(origs, at, d) ==> b == at)
    ensures var b := Nearest(origs[at], regens, Upto(at), |regens|);
      !Tied(origs[at], regens, Upto(at), b) && PairAt(origs, regens, at, b) == PairAt(origs, regens, at, at)
      <==> ClearAt(origs, at, d)
  {
    var used := Upto(at);
    NearestIsLeast(origs[at], regens, used);
    var b := Nearest(origs[at], regens, used, |regens|);
    assert Moved(origs[at], regens[at], d);
    assert IsCandidate(origs[at], regens, used, Candidate(Abs(d), at));
    forall j | at < j < |origs|
      ensures Distance(origs[at], regens[j]) > Abs(d) <==> Clear2(origs[at], origs[j], d)
      ensures j !in used && Distance(origs[at], regens[b]) <= Distance(origs[at], regens[j])
    {
      assert Moved(origs[j], regens[j], d);
      assert IsCandidate(origs[at], regens, used, Candidate(Distance(origs[at], regens[j]), j));
    }
  }

  lemma OneMatched(origs: seq<Hunk>, regens: seq<Hunk>, at: nat, used: set<int>, b: nat)
    requires at < |origs| && Nearest(origs[at], regens, used, |regens|) == b
    ensures var m, rest := MatchFrom(origs[at..], regens, used), MatchFrom(origs[at + 1..], regens, used + {b});
      m.pairs == [PairAt(origs, regens, at, b)] + rest.pairs
      && m.deterministic == (rest.deterministic && !Tied(origs[at], regens, used, b))
  {
    assert origs[at..][0] == origs[at] && origs[at..][1..] == origs[at + 1..];
  }

  lemma HeadAndTail(m: FileMatch, rest: FileMatch, chosen: Pair, own: Pair, images: seq<Pair>, tied: bool)
    requires m.pairs == [chosen] + rest.pairs && m.deterministic == (rest.deterministic && !tied)
    ensures m.deterministic && m.pairs == [own] + images
       <==> !tied && chosen == own && rest.deterministic && rest.pairs == images
  {
    SamePrefix([chosen], rest.pairs, [own], images);
  }

  lemma ClearStep(origs: seq<Hunk>, regens: seq<Hunk>, at: nat, d: int, file: string)
    requires AllMoved(origs, regens, d) && at < |origs| && forall i | 0 <= i < |origs| :: origs[i].file == file
    requires ClearAt(origs, at, d)
    ensures AllOwn(origs, regens, at) <==> AllOwn(origs, regens, at + 1)
  {
    OwnImageIsNearestIff(origs, regens, at, d, file);
    OneMatched(origs, regens, at, Upto(at), at);
    assert Upto(at) + {at as int} == Upto(at + 1);
    var m, rest := MatchFrom(origs[at..], regens, Upto(at)), MatchFrom(origs[at + 1..], regens, Upto(at + 1));
    var own := PairAt(origs, regens, at, at);
    HeadAndTail(m, rest, own, own, Images(origs, regens, at + 1), false);
  }

  lemma UnclearStep(origs: seq<Hunk>, regens: seq<Hunk>, at: nat, d: int, file: string)
    requires AllMoved(origs, regens, d) && at < |origs| && forall i | 0 <= i < |origs| :: origs[i].file == file
    requires !ClearAt(origs, at, d)
    ensures !AllOwn(origs, regens, at)
  {
    var b := Nearest(origs[at], regens, Upto(at), |regens|);
    OwnImageIsNearestIff(origs, regens, at, d, file);
    OneMatched(origs, regens, at, Upto(at), b);
    var m, rest := MatchFrom(origs[at..], regens, Upto(at)), MatchFrom(origs[at + 1..], regens, Upto(at) + {b});
    HeadAndTail(m, rest, PairAt(origs, regens, at, b), PairAt(origs, regens, at, at), Images(origs, regens, at + 1),
                Tied(origs[at], regens, Upto(at), b));
  }

  /** Within a file: every hunk is paired with its own image, untied, exactly when the move is clear. */
  lemma {:induction false} MatchOfMoved(origs: seq<Hunk>, regens: seq<Hunk>, at: nat, d: int, file: string)
    requires AllMoved(origs, regens, d) && at <= |origs| && forall i | 0 <= i < |origs| :: origs[i].file == file
    ensures AllOwn(origs, regens, at) <==> ClearFrom(origs, at, d)
    decreases |origs| - at
  {
    if at < |origs| {
      OwnStep(origs, regens, at, d, file);
      MatchOfMoved(origs, regens, at + 1, d, file);
    } else {
      NoneLeft(origs, regens, at);
    }
  }

  lemma NoneLeft(origs: seq<Hunk>, regens: seq<Hunk>, at: nat)
    requires at == |origs|
    ensures AllOwn(origs, regens, at)
  {
    assert origs[at..] == [];
  }

  lemma OwnStep(origs: seq<Hunk>, regens: seq<Hunk>, at: nat, d: int, file: string)
    requires AllMoved(origs, regens, d) && at < |origs| && forall i | 0 <= i < |origs| :: origs[i].file == file
    ensures AllOwn(origs, regens, at) <==> ClearAt(origs, at, d) && AllOwn(origs, regens, at + 1)
  {
    if ClearAt(origs, at, d) {
      ClearStep(origs, regens, at, d, file);
    } else {
      UnclearStep(origs, regens, at, d, file);
    }
  }

  /** Equal heads of equal length leave equal tails. */
  lemma SamePrefix(a: seq<Pair>, b: seq<Pair>, c: seq<Pair>, e: seq<Pair>)
    requires |a| == |c|
    ensures a + b == c + e <==> a == c && b == e
  {
    if a + b == c + e {
      assert a == (a + b)[..|a|] && b == (a + b)[|a|..];
    }
  }

  // ---- distances add up ----

  predicate AllAtDistance(pairs: seq<Pair>, d: int) {
    forall i | 0 <= i < |pairs| :: Moved(pairs[i].original, pairs[i].regenerated, d) && pairs[i].distance == Abs(d)
  }

  lemma {:induction false} ImagesAtDistance(origs: seq<Hunk>, regens: seq<Hunk>, at: nat, d: int)
    requires AllMoved(origs, regens, d) && at <= |origs|
    ensures AllAtDistance(Images(origs, regens, at), d) && |Images(origs, regens, at)| == |origs| - at
    decreases |origs| - at
  {
    if at < |origs| {
      assert Moved(origs[at], regens[at], d);
      ImagesAtDistance(origs, regens, at + 1, d);
    }
  }

  lemma {:induction false} DistancesOf(pairs: seq<Pair>, d: int)
    requires AllAtDistance(pairs, d)
    ensures MaxDistance(pairs) == if pairs == [] then 0 else Abs(d)
    ensures TotalDistance(pairs) == |pairs| * Abs(d)
  {
    if pairs != [] {
      assert AllAtDistance(pairs[1..], d);
      DistancesOf(pairs[1..], d);
      assert |pairs| * Abs(d) == Abs(d) + (|pairs| - 1) * Abs(d);
    }
  }

  /** Each hunk with its own image, file by file. */
  function AllImages(files: seq<string>, origs: seq<Hunk>, regens: seq<Hunk>): seq<Pair> {
    if files == [] then []
    else Images(InFile(origs, files[0]), InFile(regens, files[0]), 0) + AllImages(files[1..], origs, regens)
  }

  lemma {:induction false} AllImagesAtDistance(files: seq<string>, origs: seq<Hunk>, regens: seq<Hunk>, d: int)
    requires AllMoved(origs, regens, d)
    ensures AllAtDistance(AllImages(files, origs, regens), d)
    ensures |AllImages(files, origs, regens)| == |Grouped(origs, files)|
  {
    if files != [] {
      AllImagesAtDistance(files[1..], origs, regens, d);
      InFileMoved(origs, regens, d, files[0]);
      ImagesAtDistance(InFile(origs, files[0]), InFile(regens, files[0]), 0, d);
    }
  }

  lemma FileOfMoved(origs: seq<Hunk>, regens: seq<Hunk>, d: int, file: string)
    requires AllMoved(origs, regens, d)
    ensures var os, rs := InFile(origs, file), InFile(regens, file);
      var m, own := MatchFrom(os, rs, {}), Images(os, rs, 0);
      && (m.deterministic && m.pairs == own <==> Clear(os, d))
      && (m.deterministic ==> m.unmatched == 0 && |m.pairs| == |own|)
  {
    var os, rs := InFile(origs, file), InFile(regens, file);
    InFileMoved(origs, regens, d, file);
    InFileIsInFile(origs, file);
    MatchOfMoved(os, rs, 0, d, file);
    ImagesAtDistance(os, rs, 0, d);
    assert os[0..] == os && Upto(0) == {};
    if MatchFrom(os, rs, {}).deterministic { UntiedIsComplete(os, rs, {}); }
    ClearFromIsClear(os, 0, d);
  }

  lemma {:induction false} FilesOfMoved(files: seq<string>, origs: seq<Hunk>, regens: seq<Hunk>, d: int)
    requires AllMoved(origs, regens, d)
    ensures var p := PairFiles(files, origs, regens);
      && (p.deterministic && p.pairs == AllImages(files, origs, regens)
          <==> forall f | f in files :: Clear(InFile(origs, f), d))
      && (p.deterministic ==> p.unmatchedOriginal == 0)
  {
    if files != [] {
      var os, rs := InFile(origs, files[0]), InFile(regens, files[0]);
      var m := MatchFrom(os, rs, {});
      FilesOfMoved(files[1..], origs, regens, d);
      FileOfMoved(origs, regens, d, files[0]);
      if m.deterministic {
        SamePrefix(m.pairs, PairFiles(files[1..], origs, regens).pairs, Images(os, rs, 0),
                   AllImages(files[1..], origs, regens));
      }
      assert forall f :: f in files <==> f == files[0] || f in files[1..];
    }
  }

  /** Every hunk is paired with its own image, and no choice was tied. */
  predicate OwnImages(origs: seq<Hunk>, regens: seq<Hunk>) {
    var p := PairHunks(origs, regens);
    p.deterministic && p.pairs == AllImages(FilesOf(origs), origs, regens)
  }

  /** A uniform move pairs every hunk with its own image, without ties, exactly when it is clear. */
  lemma OwnImagesIffClear(origs: seq<Hunk>, regens: seq<Hunk>, d: int)
    requires AllMoved(origs, regens, d)
    ensures OwnImages(origs, regens) <==> Clear(origs, d)
  {
    FilesOfMoved(FilesOf(origs), origs, regens, d);
    if Clear(origs, d) {
      forall f | f in FilesOf(origs) ensures Clear(InFile(origs, f), d) { InFileClear(origs, d, f); }
    }
    if forall f | f in FilesOf(origs) :: Clear(InFile(origs, f), d) { ClearWhenClearInFiles(origs, d); }
  }

  /** The limits allow at least as many touched lines as the original has. */
  predicate AllowsSame(l: Limits) { l.slack >= 0 || l.multiplier >= 1.0 }

  lemma SameIsAllowed(x: nat, l: Limits)
    requires AllowsSame(l)
    ensures x <= Allowed(x, l)
  {
    if l.multiplier >= 1.0 {
      assert x as real * l.multiplier >= x as real * 1.0;
    }
  }

  /** Whether the patch stays within the allowance of touched lines is the same wherever it moved. */
  lemma MovedTouchesTheSame(origs: seq<Hunk>, regens: seq<Hunk>, d: int, l: Limits)
    requires AllMoved(origs, regens, d)
    ensures TouchedAllowed(origs, regens, l) <==> TouchedAllowed(origs, origs, l)
    ensures SameFiles(origs, regens)
  {
    InFileMoved(origs, regens, d, "");
    forall f ensures FileAllowed(origs, regens, f, l) <==> FileAllowed(origs, origs, f, l) {
      InFileMoved(origs, regens, d, f);
      TouchedMoved(InFile(origs, f), InFile(regens, f), d);
    }
    TouchedMoved(origs, regens, d);
  }

  lemma SameTouchedIsAllowed(origs: seq<Hunk>, l: Limits)
    requires AllowsSame(l)
    ensures TouchedAllowed(origs, origs, l)
  {
    forall f | f in FilesOf(origs) ensures FileAllowed(origs, origs, f, l) {
      SameIsAllowed(Touched(InFile(origs, f)), l);
    }
    SameIsAllowed(Touched(origs), l);
  }

  lemma MovedIsInside(origs: seq<Hunk>, regens: seq<Hunk>, d: int, tolerance: nat)
    requires AllMoved(origs, regens, d) && Abs(d) <= tolerance
    ensures AllInside(origs, regens, tolerance)
  {
    forall i | 0 <= i < |regens| ensures Inside(origs, regens[i], tolerance) {
      assert Moved(origs[i], regens[i], d);
      assert Meets(origs[i], regens[i], tolerance);
    }
  }

  /** What the guard allows of a move by `d` lines; the last clause holds under all but odd limits, see `AllowsSame`. */
  ghost predicate WithinBounds(origs: seq<Hunk>, d: int, l: Limits) {
    && Abs(d) <= Max(0, l.pairMax) && Abs(d) <= Max(0, l.drift) && |origs| * Abs(d) <= Max(0, l.pairTotal)
    && origs != [] && TouchedAllowed(origs, origs, l)
  }

  /**
    A uniform move is accepted with every hunk on its own image exactly when it is clear and stays within the
    bounds.
  */
  lemma MoveAcceptedIff(origs: seq<Hunk>, regens: seq<Hunk>, d: int, l: Limits)
    requires AllMoved(origs, regens, d)
    ensures Acceptable(origs, regens, l) && OwnImages(origs, regens) <==> Clear(origs, d) && WithinBounds(origs, d, l)
  {
    OwnImagesIffClear(origs, regens, d);
    if Clear(origs, d) { ClearMoveAcceptedIff(origs, regens, d, l); }
  }

  lemma TwoHunksInOneFile(hunks: seq<Hunk>)
    requires |hunks| == 2 && hunks[0].file == hunks[1].file
    ensures InFile(hunks, hunks[0].file) == hunks && FilesOf(hunks) == [hunks[0].file]
  {
    assert hunks == [] + [hunks[0]] + [hunks[1]];
    assert hunks[..1] == [hunks[0]] && hunks[..1][..0] == [];
    assert InFile(hunks[..1], hunks[0].file) == hunks[..1];
    assert FilesOf(hunks[..1]) == [hunks[0].file];
  }

  lemma OneFileOnly(o: seq<Hunk>, r: seq<Hunk>, file: string)
    requires FilesOf(o) == [file] && InFile(o, file) == o && InFile(r, file) == r
    ensures var p, m := PairHunks(o, r), MatchFrom(o, r, {});
      p.pairs == m.pairs && p.deterministic == m.deterministic && p.unmatchedOriginal == m.unmatched
  {
    assert [file][1..] == [];
    assert PairFiles([], o, r) == Pairing([], true, 0, 0);
    assert PairFiles([file], o, r).pairs == MatchFrom(o, r, {}).pairs + [];
  }

  lemma TwoDistances(p: seq<Pair>, a: Pair, b: Pair)
    requires p == [a, b]
    ensures MaxDistance(p) == Max(a.distance, b.distance) && TotalDistance(p) == a.distance + b.distance
  {
    assert p[1..] == [b] && p[1..][1..] == [];
    assert MaxDistance([b]) == b.distance && TotalDistance([b]) == b.distance;
  }

  lemma PairsAreWithin(pairs: seq<Pair>, d: int, tolerance: nat)
    requires AllAtDistance(pairs, d) && pairs != []
    ensures AllWithin(pairs, tolerance) <==> Abs(d) <= tolerance
  {
    forall i | 0 <= i < |pairs| ensures Within(pairs[i], tolerance) <==> Abs(d) <= tolerance {
      assert Moved(pairs[i].original, pairs[i].regenerated, d);
    }
    if AllWithin(pairs, tolerance) { assert Within(pairs[0], tolerance); }
  }

  lemma ClearMoveIsPaired(origs: seq<Hunk>, regens: seq<Hunk>, d: int, l: Limits)
    requires AllMoved(origs, regens, d) && Clear(origs, d)
    ensures var p := PairHunks(origs, regens); AllAtDistance(p.pairs, d) && (p.pairs == [] <==> origs == [])
    ensures WellPaired(PairHunks(origs, regens), l)
       <==> origs != [] && Abs(d) <= Max(0, l.pairMax) && |origs| * Abs(d) <= Max(0, l.pairTotal)
  {
    OwnImagesIffClear(origs, regens, d);
    FilesOfMoved(FilesOf(origs), origs, regens, d);
    AllImagesAtDistance(FilesOf(origs), origs, regens, d);
    GroupingPermutes(origs);
    DistancesOf(PairHunks(origs, regens).pairs, d);
  }

  lemma ClearMoveAcceptedIff(origs: seq<Hunk>, regens: seq<Hunk>, d: int, l: Limits)
    requires AllMoved(origs, regens, d) && Clear(origs, d)
    ensures Acceptable(origs, regens, l) <==> WithinBounds(origs, d, l)
  {
    var drift := Max(0, l.drift);
    ClearMoveIsPaired(origs, regens, d, l);
    MovedTouchesTheSame(origs, regens, d, l);
    if origs != [] { PairsAreWithin(PairHunks(origs, regens).pairs, d, drift); }
    if Abs(d) <= drift { MovedIsInside(origs, regens, d, drift); }
  }

  /**
    Ascending hunks are each paired with their own images, untied, exactly when they move down or lie more than
    twice the move apart.
  */
  lemma AscendingMoveAcceptedIff(origs: seq<Hunk>, regens: seq<Hunk>, d: int, l: Limits)
    requires AllMoved(origs, regens, d) && Ascending(origs)
    ensures OwnImages(origs, regens) <==> d >= 0 || Apart(origs, 2 * Abs(d))
    ensures d >= 0 || Apart(origs, 2 * Abs(d)) ==> (Acceptable(origs, regens, l) <==> WithinBounds(origs, d, l))
  {
    AscendingIsClearIff(origs, d);
    OwnImagesIffClear(origs, regens, d);
    MoveAcceptedIff(origs, regens, d, l);
  }

  // ---- the unchanged patch ----

  lemma UnchangedIsMovedByZero(origs: seq<Hunk>)
    ensures AllMoved(origs, origs, 0)
  {
    forall i | 0 <= i < |origs| ensures Moved(origs[i], origs[i], 0) {}
  }

  /** Hunks `i < j` of one file start at the same line. */
  predicate Twins(origs: seq<Hunk>, i: nat, j: nat) {
    i < j < |origs| && origs[i].oldStart == origs[j].oldStart
  }

  /** The first hunk with a twin finds two candidates at distance zero. */
  lemma {:induction false} TwinsTie(origs: seq<Hunk>, at: nat, i: nat, j: nat, file: string)
    requires forall k | 0 <= k < |origs| :: origs[k].file == file
    requires at <= i && Twins(origs, i, j)
    requires forall a, b | 0 <= a < at && a < b < |origs| :: origs[a].oldStart != origs[b].oldStart
    ensures !MatchFrom(origs[at..], origs, Upto(at)).deterministic
    decreases |origs| - at
  {
    assert origs[at..][0] == origs[at] && origs[at..][1..] == origs[at + 1..];
    var used := Upto(at);
    NearestIsLeast(origs[at], origs, used);
    var b := Nearest(origs[at], origs, used, |origs|);
    assert IsCandidate(origs[at], origs, used, Candidate(0, at));
    assert b != -1 && Distance(origs[at], origs[b]) == 0;
    if t :| at < t < |origs| && origs[t].oldStart == origs[at].oldStart {
      var other := if b == at then t else at;
      assert other !in used && Distance(origs[at], origs[other]) == 0;
      assert Tied(origs[at], origs, used, b);
    } else {
      assert b == at;
      assert used + {at as int} == Upto(at + 1);
      TwinsTie(origs, at + 1, i, j, file);
    }
  }

  lemma {:induction false} OneFileDecides(files: seq<string>, file: string, originals: seq<Hunk>,
                                          regenerated: seq<Hunk>)
    requires file in files && !MatchFrom(InFile(originals, file), InFile(regenerated, file), {}).deterministic
    ensures !PairFiles(files, originals, regenerated).deterministic
  {
    if file != files[0] {
      assert file in files[1..];
      OneFileDecides(files[1..], file, originals, regenerated);
    }
  }

  /** An unchanged patch is accepted exactly when no two hunks of a file start at the same line, odd limits aside. */
  lemma UnchangedAccepted(origs: seq<Hunk>, l: Limits)
    ensures Acceptable(origs, origs, l) <==> origs != [] && Apart(origs, 0) && TouchedAllowed(origs, origs, l)
  {
    UnchangedIsMovedByZero(origs);
    if Apart(origs, 0) {
      ApartIsClear(origs, 0);
      ClearMoveAcceptedIff(origs, origs, 0, l);
    } else {
      var i, j :| 0 <= i < j < |origs| && !Apart2(origs[i], origs[j], 0);
      var file := origs[i].file;
      var a, b := OrderInFile(origs, i, j);
      InFileIsInFile(origs, file);
      var os := InFile(origs, file);
      TwinsTie(os, 0, a, b, file);
      assert os[0..] == os && Upto(0) == {};
      ListedIffItHasAHunk(origs, file);
      OneFileDecides(FilesOf(origs), file, origs, origs);
    }
  }

  /** With the default limits: at most 8 lines each, at most 20 in all. */
  lemma DefaultLimits(origs: seq<Hunk>, regens: seq<Hunk>, d: int)
    requires AllMoved(origs, regens, d)
    ensures Acceptable(origs, regens, DEFAULT_LIMITS) && OwnImages(origs, regens)
       <==> origs != [] && Clear(origs, d) && Abs(d) <= 8 && |origs| * Abs(d) <= 20
    ensures forall x: nat :: Allowed(x, DEFAULT_LIMITS) == Max(2 * x, x + 12)
    ensures DEFAULT_LIMITS.drift == 8 && DEFAULT_LIMITS.pairMax == 8 && DEFAULT_LIMITS.pairTotal == 20
  {
    MoveAcceptedIff(origs, regens, d, DEFAULT_LIMITS);
    SameTouchedIsAllowed(origs, DEFAULT_LIMITS);
  }

  // ---- two hunks of a file ----

  predicate TwoMoved(o: seq<Hunk>, r: seq<Hunk>, d: int) {
    |o| == 2 && o[0].file == o[1].file && AllMoved(o, r, d)
  }

  /** How far the second hunk starts below the first. */
  function Gap(o: seq<Hunk>): int
    requires |o| == 2
  {
    o[1].oldStart - o[0].oldStart
  }

  /** How many more lines it has. */
  function Longer(o: seq<Hunk>): int
    requires |o| == 2
  {
    Max(1, o[1].oldCount) - Max(1, o[0].oldCount)
  }

  lemma ChosenOfTwo(o: seq<Hunk>, r: seq<Hunk>, d: int)
    requires TwoMoved(o, r, d)
    ensures Distance(o[0], r[0]) == Distance(o[1], r[1]) == Abs(d)
    ensures Distance(o[0], r[1]) == Abs(Gap(o) + d) && Distance(o[1], r[0]) == Abs(Gap(o) - d)
    ensures var b := Nearest(o[0], r, {}, 2);
      && (Abs(Gap(o) + d) == Abs(d) ==> b in {0, 1} && Tied(o[0], r, {}, b))
      && (Abs(Gap(o) + d) < Abs(d) ==> b == 1 && !Tied(o[0], r, {}, 1))
    ensures Nearest(o[1], r, {1}, 2) == 0 && !Tied(o[1], r, {1}, 0)
  {
    assert Moved(o[0], r[0], d) && Moved(o[1], r[1], d);
    NearestIsLeast(o[0], r, {});
    NearestIsLeast(o[1], r, {1});
    var b := Nearest(o[0], r, {}, 2);
    assert IsCandidate(o[0], r, {}, Candidate(Abs(d), 0)) && IsCandidate(o[0], r, {}, Candidate(Abs(Gap(o) + d), 1));
    assert IsCandidate(o[1], r, {1}, Candidate(Abs(Gap(o) - d), 0));
    if Abs(Gap(o) + d) == Abs(d) { assert 1 - b !in {} && Distance(o[0], r[1 - b]) == Distance(o[0], r[b]); }
  }

  /** The first hunk is nearer to the second's image, and leaves its own to the second. */
  lemma CrossedPairs(o: seq<Hunk>, r: seq<Hunk>, d: int)
    requires TwoMoved(o, r, d) && Abs(Gap(o) + d) < Abs(d)
    ensures var m := MatchFrom(o, r, {});
      && m.deterministic && m.unmatched == 0
      && m.pairs == [Pair(o[0], r[1], Abs(Gap(o) + d)), Pair(o[1], r[0], Abs(Gap(o) - d))]
  {
    ChosenOfTwo(o, r, d);
    assert o[0..] == o && o[2..] == [] && {} + {1} == {1};
    OneMatched(o, r, 1, {1}, 0);
    OneMatched(o, r, 0, {}, 1);
    UntiedIsComplete(o, r, {});
  }

  /** What the guard allows of a crossing: starts, ends and sums of the two pairs. */
  ghost predicate CrossingWithin(o: seq<Hunk>, d: int, l: Limits)
    requires |o| == 2
  {
    var near, far, drift := Abs(Gap(o) + d), Abs(Gap(o) - d), Max(0, l.drift);
    && near <= Max(0, l.pairMax) && far <= Max(0, l.pairMax) && near + far <= Max(0, l.pairTotal)
    && near <= drift && far <= drift && Abs(Gap(o) + d + Longer(o)) <= drift && Abs(Gap(o) - d + Longer(o)) <= drift
    && TouchedAllowed(o, o, l)
  }

  lemma WithinMeets(p: Pair, tolerance: nat)
    requires Within(p, tolerance) && p.original.file == p.regenerated.file
    ensures Meets(p.original, p.regenerated, tolerance)
  {
  }

  lemma CrossedHunks(o: seq<Hunk>, r: seq<Hunk>, d: int, l: Limits, a: Pair, b: Pair)
    requires TwoMoved(o, r, d) && Abs(Gap(o) + d) < Abs(d)
    requires a == Pair(o[0], r[1], Abs(Gap(o) + d)) && b == Pair(o[1], r[0], Abs(Gap(o) - d))
    ensures PairHunks(o, r).pairs == [a, b]
    ensures WellPaired(PairHunks(o, r), l)
       <==> a.distance <= Max(0, l.pairMax) && b.distance <= Max(0, l.pairMax)
            && a.distance + b.distance <= Max(0, l.pairTotal)
  {
    assert Moved(o[0], r[0], d) && Moved(o[1], r[1], d);
    TwoHunksInOneFile(o);
    TwoHunksInOneFile(r);
    OneFileOnly(o, r, o[0].file);
    CrossedPairs(o, r, d);
    TwoDistances(PairHunks(o, r).pairs, a, b);
  }

  lemma CrossedWithin(o: seq<Hunk>, r: seq<Hunk>, d: int, a: Pair, b: Pair, drift: nat)
    requires TwoMoved(o, r, d) && a.original == o[0] && a.regenerated == r[1]
    requires b.original == o[1] && b.regenerated == r[0]
    ensures AllWithin([a, b], drift)
       <==> Abs(Gap(o) + d) <= drift && Abs(Gap(o) + d + Longer(o)) <= drift
            && Abs(Gap(o) - d) <= drift && Abs(Gap(o) - d + Longer(o)) <= drift
    ensures AllWithin([a, b], drift) ==> AllInside(o, r, drift)
  {
    assert Moved(o[0], r[0], d) && Moved(o[1], r[1], d);
    assert AllWithin([a, b], drift) <==> Within([a, b][0], drift) && Within([a, b][1], drift);
    if AllWithin([a, b], drift) {
      WithinMeets(a, drift);
      WithinMeets(b, drift);
      assert Inside(o, r[0], drift) && Inside(o, r[1], drift);
    }
  }

  lemma CrossingAcceptedIff(o: seq<Hunk>, r: seq<Hunk>, d: int, l: Limits)
    requires TwoMoved(o, r, d) && Abs(Gap(o) + d) < Abs(d)
    ensures Acceptable(o, r, l) <==> CrossingWithin(o, d, l)
  {
    var a, b := Pair(o[0], r[1], Abs(Gap(o) + d)), Pair(o[1], r[0], Abs(Gap(o) - d));
    CrossedHunks(o, r, d, l, a, b);
    CrossedWithin(o, r, d, a, b, Max(0, l.drift));
    MovedTouchesTheSame(o, r, d, l);
  }

  lemma TiedMoveRefused(o: seq<Hunk>, r: seq<Hunk>, d: int, l: Limits)
    requires TwoMoved(o, r, d) && Abs(Gap(o) + d) == Abs(d)
    ensures !Acceptable(o, r, l)
  {
    ChosenOfTwo(o, r, d);
    assert Moved(o[0], r[0], d) && Moved(o[1], r[1], d);
    TwoHunksInOneFile(o);
    TwoHunksInOneFile(r);
    OneFileOnly(o, r, o[0].file);
  }

  /**
    Two hunks of a file moved together by any distance: clear of each other the bounds decide, exactly as far from
    the other's image as from their own they are refused, and otherwise they cross and the crossing must be within
    the limits.
  */
  lemma TwoHunksAcceptedIff(o: seq<Hunk>, r: seq<Hunk>, d: int, l: Limits)
    requires TwoMoved(o, r, d)
    ensures OwnImages(o, r) <==> Abs(Gap(o) + d) > Abs(d)
    ensures Acceptable(o, r, l)
       <==> if Abs(Gap(o) + d) > Abs(d) then WithinBounds(o, d, l)
            else Abs(Gap(o) + d) < Abs(d) && CrossingWithin(o, d, l)
  {
    OwnImagesIffClear(o, r, d);
    assert Clear(o, d) <==> Clear2(o[0], o[1], d);
    if Abs(Gap(o) + d) > Abs(d) {
      ClearMoveAcceptedIff(o, r, d, l);
    } else if Abs(Gap(o) + d) == Abs(d) {
      TiedMoveRefused(o, r, d, l);
    } else {
      CrossingAcceptedIff(o, r, d, l);
    }
  }

  /** So two equally long hunks at lines 10 and 11, moved up by one, cross and are accepted. */
  lemma CrossingMoveAccepted(o: seq<Hunk>, r: seq<Hunk>)
    requires TwoMoved(o, r, -1) && o[0].oldStart == 10 && o[1].oldStart == 11 && o[0].oldCount == o[1].oldCount
    ensures Acceptable(o, r, DEFAULT_LIMITS) && !OwnImages(o, r)
  {
    TwoHunksAcceptedIff(o, r, -1, DEFAULT_LIMITS);
    SameTouchedIsAllowed(o, DEFAULT_LIMITS);
  }

  /** And two hunks exactly `2e` lines apart, both moved up by `e`, tie and are refused. */
  lemma SeparationIsTight(o: seq<Hunk>, r: seq<Hunk>, e: nat, l: Limits)
    requires TwoMoved(o, r, 0 - e) && Gap(o) == 2 * e
    ensures !Acceptable(o, r, l)
  {
    TwoHunksAcceptedIff(o, r, 0 - e, l);
  }

  // ---- one hunk too many ----

  /** `r` repeats the one hunk of `o` unchanged and adds another. */
  predicate OneAdded(o: seq<Hunk>, r: seq<Hunk>) { |o| == 1 && |r| == 2 && r[0] == o[0] }

  lemma OneHunk(o: seq<Hunk>)
    requires |o| == 1
    ensures FilesOf(o) == [o[0].file] && InFile(o, o[0].file) == o && Touched(o) == o[0].touched
  {
    assert o == [] + [o[0]] && o[..0] == [];
    assert o[1..] == [];
  }

  lemma FilesWithOneAdded(o: seq<Hunk>, r: seq<Hunk>)
    requires OneAdded(o, r)
    ensures SameFiles(o, r) <==> r[1].file == r[0].file
    ensures r[1].file == r[0].file ==> InFile(r, r[0].file) == r && Touched(r) == r[0].touched + r[1].touched
  {
    OneHunk(o);
    assert r[..1] == o;
    if r[1].file == r[0].file {
      TwoHunksInOneFile(r);
      assert r[1..] == [r[1]];
      OneHunk(r[1..]);
    } else {
      assert r[1].file in FilesOf(r);
    }
  }

  lemma TouchedWithOneAdded(o: seq<Hunk>, r: seq<Hunk>, l: Limits)
    requires OneAdded(o, r) && r[1].file == r[0].file
    ensures TouchedAllowed(o, r, l) <==> r[0].touched + r[1].touched <= Allowed(r[0].touched, l)
  {
    OneHunk(o);
    FilesWithOneAdded(o, r);
    assert TouchedAllowed(o, r, l) <==> FileAllowed(o, r, o[0].file, l) && Touched(r) <= Allowed(Touched(o), l);
  }

  lemma AddedIsLeftOver(o: seq<Hunk>, r: seq<Hunk>)
    requires OneAdded(o, r) && r[1].file == r[0].file
    ensures var p := PairHunks(o, r);
      && p.pairs == [Pair(o[0], r[0], 0)] && p.unmatchedOriginal == 0
      && (p.deterministic <==> r[1].oldStart != r[0].oldStart)
  {
    OneHunk(o);
    FilesWithOneAdded(o, r);
    OneFileOnly(o, r, o[0].file);
    NearestIsLeast(o[0], r, {});
    assert IsCandidate(o[0], r, {}, Candidate(0, 0));
    assert Nearest(o[0], r, {}, 2) == 0;
    assert Tied(o[0], r, {}, 0) <==> r[1].oldStart == r[0].oldStart by {
      if r[1].oldStart == r[0].oldStart { assert Distance(o[0], r[1]) == Distance(o[0], r[0]); }
    }
    assert o[0..] == o && o[1..] == [];
    OneMatched(o, r, 0, {}, 0);
  }

  lemma AddedIsInside(o: seq<Hunk>, r: seq<Hunk>, tolerance: nat)
    requires OneAdded(o, r)
    ensures AllInside(o, r, tolerance) <==> Meets(o[0], r[1], tolerance)
  {
    assert Meets(o[0], r[0], tolerance) && Inside(o, r[0], tolerance);
    assert Inside(o, r[1], tolerance) <==> Meets(o[0], r[1], tolerance);
  }

  lemma OneDistance(p: seq<Pair>, own: Pair)
    requires p == [own]
    ensures MaxDistance(p) == own.distance && TotalDistance(p) == own.distance
  {
    assert p[1..] == [];
    assert MaxDistance(p[1..]) == 0 && TotalDistance(p[1..]) == 0;
  }

  lemma AddedIsPaired(o: seq<Hunk>, r: seq<Hunk>, l: Limits)
    requires OneAdded(o, r) && r[1].file == r[0].file
    ensures WellPaired(PairHunks(o, r), l) <==> r[1].oldStart != r[0].oldStart
    ensures AllWithin(PairHunks(o, r).pairs, Max(0, l.drift))
  {
    var own := Pair(o[0], r[0], 0);
    AddedIsLeftOver(o, r);
    OneDistance([own], own);
    assert Within(own, Max(0, l.drift));
  }

  /**
    A hunk repeated unchanged with one more hunk behind it: accepted, that one left over, exactly when it starts
    elsewhere in the same file, meets the widened region, and the touched lines still fit.
  */
  lemma AddedHunkAcceptedIff(o: seq<Hunk>, r: seq<Hunk>, l: Limits)
    requires OneAdded(o, r)
    ensures Acceptable(o, r, l)
       <==> r[1].file == r[0].file && r[1].oldStart != r[0].oldStart && Overlaps(o[0], r[1], Max(0, l.drift))
            && r[0].touched + r[1].touched <= Allowed(r[0].touched, l)
    ensures Acceptable(o, r, l) ==> PairHunks(o, r).unmatchedRegenerated == 1
  {
    FilesWithOneAdded(o, r);
    AddedIsInside(o, r, Max(0, l.drift));
    assert Meets(o[0], r[1], Max(0, l.drift)) <==> Overlaps(o[0], r[1], Max(0, l.drift));
    if r[1].file == r[0].file {
      AddedIsPaired(o, r, l);
      TouchedWithOneAdded(o, r, l);
    }
    if Acceptable(o, r, l) { AcceptedLeftovers(o, r, l); }
  }

  /** For instance two hunks of one line each, at lines 10 and 12, where the original had only the first. */
  lemma LeftoverAccepted(file: string)
    ensures var h := Hunk(file, 10, 1, 10, 1, 2);
      var o, r := [h], [h, h.(oldStart := 12)];
      Acceptable(o, r, DEFAULT_LIMITS) && PairHunks(o, r).unmatchedRegenerated == 1
  {
    var h := Hunk(file, 10, 1, 10, 1, 2);
    AddedHunkAcceptedIff([h], [h, h.(oldStart := 12)], DEFAULT_LIMITS);
  }
}
