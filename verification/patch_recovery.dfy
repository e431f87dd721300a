/** Accepting or refusing a regenerated patch by how far it strays from the original one. */
module PatchRecovery {
  import opened Options
  import opened StableSort
  import opened PatchScopes
  import opened PatchGuard

  datatype Limits = Limits(drift: int, multiplier: real, slack: int, pairMax: int, pairTotal: int)

  const DEFAULT_LIMITS := Limits(8, 2.0, 12, 8, 20)

  function MaxDistance(pairs: seq<Pair>): nat {
    if pairs == [] then 0 else Max(pairs[0].distance, MaxDistance(pairs[1..]))
  }

  function TotalDistance(pairs: seq<Pair>): nat {
    if pairs == [] then 0 else pairs[0].distance + TotalDistance(pairs[1..])
  }

  /** Python's `int()` on a float. */
  function Truncated(r: real): int { if r >= 0.0 then r.Floor else -((-r).Floor) }

  /** The touched lines allowed for `x` original ones. */
  function Allowed(x: nat, l: Limits): int { Max(Truncated(x as real * l.multiplier), x + l.slack) }

  function End(h: Hunk): int { h.oldStart + Max(1, h.oldCount) - 1 }

  predicate Within(p: Pair, tolerance: nat) {
    Abs(p.original.oldStart - p.regenerated.oldStart) <= tolerance
    && Abs(End(p.original) - End(p.regenerated)) <= tolerance
  }

  /** The hunk overlaps the region of `orig` widened by `tolerance` lines on both sides. */
  predicate Meets(orig: Hunk, h: Hunk, tolerance: nat) {
    orig.file == h.file && End(h) >= orig.oldStart - tolerance && h.oldStart <= End(orig) + tolerance
  }

  predicate Inside(originals: seq<Hunk>, h: Hunk, tolerance: nat) {
    exists o | o in originals :: Meets(o, h, tolerance)
  }

  ghost predicate SameFiles(originals: seq<Hunk>, regenerated: seq<Hunk>) {
    forall f :: f in FilesOf(originals) <==> f in FilesOf(regenerated)
  }

  predicate WellPaired(p: Pairing, l: Limits) {
    && p.pairs != [] && p.unmatchedOriginal == 0 && p.deterministic
    && MaxDistance(p.pairs) <= Max(0, l.pairMax) && TotalDistance(p.pairs) <= Max(0, l.pairTotal)
  }

  predicate FileAllowed(originals: seq<Hunk>, regenerated: seq<Hunk>, file: string, l: Limits) {
    Touched(InFile(regenerated, file)) <= Allowed(Touched(InFile(originals, file)), l)
  }

  ghost predicate TouchedAllowed(originals: seq<Hunk>, regenerated: seq<Hunk>, l: Limits) {
    && (forall f | f in FilesOf(originals) :: FileAllowed(originals, regenerated, f, l))
    && Touched(regenerated) <= Allowed(Touched(originals), l)
  }

  predicate AllWithin(pairs: seq<Pair>, tolerance: nat) {
    forall i | 0 <= i < |pairs| :: Within(pairs[i], tolerance)
  }

  predicate AllInside(originals: seq<Hunk>, regenerated: seq<Hunk>, tolerance: nat) {
    forall i | 0 <= i < |regenerated| :: Inside(originals, regenerated[i], tolerance)
  }

  ghost predicate Acceptable(originals: seq<Hunk>, regenerated: seq<Hunk>, l: Limits) {
    var p, drift := PairHunks(originals, regenerated), Max(0, l.drift);
    && SameFiles(originals, regenerated) && WellPaired(p, l) && TouchedAllowed(originals, regenerated, l)
    && AllWithin(p.pairs, drift) && AllInside(originals, regenerated, drift)
  }

  // ---- the same in numbers ----

  /** First and last lines differ by at most `drift`. */
  predicate DriftsAtMost(o: Hunk, h: Hunk, drift: int) {
    && -drift <= h.oldStart - o.oldStart <= drift
    && -drift <= h.oldStart + Max(1, h.oldCount) - o.oldStart - Max(1, o.oldCount) <= drift
  }

  /** `h` overlaps the lines of `o`, its file's, widened by `drift` on both sides; a hunk covers at least one line. */
  predicate Overlaps(o: Hunk, h: Hunk, drift: int) {
    && h.file == o.file
    && h.oldStart + Max(1, h.oldCount) - 1 >= o.oldStart - drift
    && h.oldStart <= o.oldStart + Max(1, o.oldCount) - 1 + drift
  }

  lemma WithinMeans(pairs: seq<Pair>, tolerance: nat)
    ensures AllWithin(pairs, tolerance) <==> forall p | p in pairs :: DriftsAtMost(p.original, p.regenerated, tolerance)
  {
    forall p: Pair ensures Within(p, tolerance) <==> DriftsAtMost(p.original, p.regenerated, tolerance) {}
    if AllWithin(pairs, tolerance) {
      forall p | p in pairs ensures DriftsAtMost(p.original, p.regenerated, tolerance) {
        var i :| 0 <= i < |pairs| && pairs[i] == p;
        assert Within(pairs[i], tolerance);
      }
    } else {
      var i :| 0 <= i < |pairs| && !Within(pairs[i], tolerance);
      assert pairs[i] in pairs;
    }
  }

  lemma InsideMeans(originals: seq<Hunk>, regenerated: seq<Hunk>, tolerance: nat)
    ensures AllInside(originals, regenerated, tolerance)
       <==> forall h | h in regenerated :: exists o | o in originals :: Overlaps(o, h, tolerance)
  {
    forall h ensures Inside(originals, h, tolerance) <==> exists o | o in originals :: Overlaps(o, h, tolerance) {
      forall o: Hunk ensures Meets(o, h, tolerance) <==> Overlaps(o, h, tolerance) {}
    }
    if AllInside(originals, regenerated, tolerance) {
      forall h | h in regenerated ensures Inside(originals, h, tolerance) {
        var i :| 0 <= i < |regenerated| && regenerated[i] == h;
        assert Inside(originals, regenerated[i], tolerance);
      }
    } else {
      var i :| 0 <= i < |regenerated| && !Inside(originals, regenerated[i], tolerance);
      assert regenerated[i] in regenerated;
    }
  }

  // ---- the checks as they are run ----

  method HunksWithinDrift(pairs: seq<Pair>, tolerance: int) returns (ok: bool)
    ensures ok <==> AllWithin(pairs, Max(0, tolerance))
    ensures ok
       <==> forall p | p in pairs :: DriftsAtMost(p.original, p.regenerated, Max(0, tolerance))
  {
    WithinMeans(pairs, Max(0, tolerance));
    var tol := Max(0, tolerance);
    for i := 0 to |pairs|
      invariant forall k | 0 <= k < i :: Within(pairs[k], tol)
    {
      var origEnd := pairs[i].original.oldStart + Max(1, pairs[i].original.oldCount) - 1;
      var regenEnd := pairs[i].regenerated.oldStart + Max(1, pairs[i].regenerated.oldCount) - 1;
      if Abs(pairs[i].original.oldStart - pairs[i].regenerated.oldStart) > tol {
        assert !Within(pairs[i], tol);
        return false;
      }
      if Abs(origEnd - regenEnd) > tol {
        assert !Within(pairs[i], tol);
        return false;
      }
    }
    ok := true;
  }

  lemma InsideItsFile(originals: seq<Hunk>, h: Hunk, tol: nat)
    ensures Inside(InFile(originals, h.file), h, tol) <==> Inside(originals, h, tol)
  {
    InFileIsInFile(originals, h.file);
    if Inside(InFile(originals, h.file), h, tol) {
      var o :| o in InFile(originals, h.file) && Meets(o, h, tol);
      assert o in originals;
    }
  }

  method MeetsAny(ghost originals: seq<Hunk>, origs: seq<Hunk>, h: Hunk, tol: nat) returns (inside: bool)
    requires origs == InFile(originals, h.file)
    ensures inside <==> Inside(originals, h, tol)
  {
    var start, end := h.oldStart, h.oldStart + Max(1, h.oldCount) - 1;
    InFileIsInFile(originals, h.file);
    InsideItsFile(originals, h, tol);
    for i := 0 to |origs|
      invariant forall k | 0 <= k < i :: !Meets(origs[k], h, tol)
    {
      var origStart := origs[i].oldStart - tol;
      var origEnd := origs[i].oldStart + Max(1, origs[i].oldCount) - 1 + tol;
      if end >= origStart && start <= origEnd {
        assert Meets(origs[i], h, tol);
        return true;
      }
    }
    inside := false;
  }

  method HasHunksOutsideOriginalRegions(originals: seq<Hunk>, regenerated: seq<Hunk>, tolerance: int)
    returns (outside: bool)
    ensures !outside <==> AllInside(originals, regenerated, Max(0, tolerance))
    ensures !outside
       <==> forall h | h in regenerated :: exists o | o in originals :: Overlaps(o, h, Max(0, tolerance))
  {
    InsideMeans(originals, regenerated, Max(0, tolerance));
    var tol := Max(0, tolerance);
    var files, byFile := GroupByFile(originals);
    for i := 0 to |regenerated|
      invariant AllInside(originals, regenerated[..i], tol)
    {
      var h := regenerated[i];
      var origs := if h.file in byFile then byFile[h.file] else [];
      var inside := MeetsAny(originals, origs, h, tol);
      if origs == [] || !inside {
        InsideItsFile(originals, h, tol);
        assert !Inside(originals, regenerated[i], tol);
        return true;
      }
      assert forall k | 0 <= k < i :: regenerated[..i][k] == regenerated[k] == regenerated[..i + 1][k];
    }
    assert regenerated[..|regenerated|] == regenerated;
    outside := false;
  }

  lemma SortedTargets(files: seq<string>)
    ensures multiset(Sort(files, TextAtMost)) == multiset(files)
    ensures forall f :: f in Sort(files, TextAtMost) <==> f in files
  {
    Lex.AtMostIsTotalOrder();
    forall a, b ensures TextAtMost(a, b) || TextAtMost(b, a) {}
    forall a, b, c ensures Chains(TextAtMost, a, b, c) {}
    SortIsSortedPermutation(files, TextAtMost);
    forall f ensures f in Sort(files, TextAtMost) <==> f in files {
      assert f in Sort(files, TextAtMost) <==> f in multiset(Sort(files, TextAtMost));
      assert f in files <==> f in multiset(files);
    }
  }

  lemma TouchedOfAFile(hunks: seq<Hunk>, f: string)
    ensures Get(TouchedByFile(hunks), f) == Touched(InFile(hunks, f))
  {
    ListedIffItHasAHunk(hunks, f);
  }

  lemma FileAllowedAsCounted(os: seq<Hunk>, rs: seq<Hunk>, f: string, l: Limits)
    ensures FileAllowed(os, rs, f, l) <==> Get(TouchedByFile(rs), f) <= Allowed(Get(TouchedByFile(os), f), l)
  {
    TouchedOfAFile(os, f);
    TouchedOfAFile(rs, f);
  }

  predicate AllFilesAllowed(os: seq<Hunk>, rs: seq<Hunk>, files: seq<string>, l: Limits) {
    forall k | 0 <= k < |files| :: FileAllowed(os, rs, files[k], l)
  }

  lemma TargetsAreTheFiles(os: seq<Hunk>, rs: seq<Hunk>, l: Limits)
    ensures AllFilesAllowed(os, rs, ScopeOf(os).targets, l)
       <==> forall f | f in FilesOf(os) :: FileAllowed(os, rs, f, l)
  {
    var targets := ScopeOf(os).targets;
    SortedTargets(FilesOf(os));
    if AllFilesAllowed(os, rs, targets, l) {
      forall f | f in FilesOf(os) ensures FileAllowed(os, rs, f, l) {
        var k :| 0 <= k < |targets| && targets[k] == f;
      }
    }
  }

  method TouchedWithinAllowance(original: PatchScope, regenerated: PatchScope, l: Limits) returns (ok: bool)
    requires original == ScopeOf(original.hunks) && regenerated == ScopeOf(regenerated.hunks)
    ensures ok <==> TouchedAllowed(original.hunks, regenerated.hunks, l)
  {
    ghost var os, rs := original.hunks, regenerated.hunks;
    var targets := original.targets;
    TargetsAreTheFiles(os, rs, l);
    for i := 0 to |targets|
      invariant forall k | 0 <= k < i :: FileAllowed(os, rs, targets[k], l)
    {
      var allowed := Allowed(Get(original.touchedPerFile, targets[i]), l);
      FileAllowedAsCounted(os, rs, targets[i], l);
      if Get(regenerated.touchedPerFile, targets[i]) > allowed {
        assert !FileAllowed(os, rs, targets[i], l);
        return false;
      }
    }
    ok := regenerated.touchedTotal <= Allowed(original.touchedTotal, l);
  }

  method SameTargets(original: PatchScope, regenerated: PatchScope) returns (same: bool)
    requires original == ScopeOf(original.hunks) && regenerated == ScopeOf(regenerated.hunks)
    ensures same <==> SameFiles(original.hunks, regenerated.hunks)
  {
    SortedTargets(FilesOf(original.hunks));
    SortedTargets(FilesOf(regenerated.hunks));
    var a, b := set f | f in original.targets, set f | f in regenerated.targets;
    assert forall f :: f in a <==> f in FilesOf(original.hunks);
    assert forall f :: f in b <==> f in FilesOf(regenerated.hunks);
    same := a == b;
  }

  /** The whole guard: no error exactly when both patches can be read and the regenerated one is acceptable. */
  method ValidatePatchRecoveryScope(original: seq<string>, regenerated: seq<string>, header: string -> Option<Header>,
                                    l: Limits)
    returns (error: Option<string>)
    ensures error == None || error == Some("patch_recovery_scope_expansion")
    ensures var o, r := ReadHunks(original, "", header), ReadHunks(regenerated, "", header);
      error == None <==> o.Some? && r.Some? && o.value != [] && r.value != [] && Acceptable(o.value, r.value, l)
  {
    var failure := Some("patch_recovery_scope_expansion");
    var o := ParsePatchScope(original, header);
    var r := ParsePatchScope(regenerated, header);
    if o.None? || r.None? { return failure; }
    var same := SameTargets(o.value, r.value);
    if !same { return failure; }
    var p := PairHunksByFileOrderNearest(o.value.hunks, r.value.hunks);
    if !WellPaired(p, l) { return failure; }
    var allowed := TouchedWithinAllowance(o.value, r.value, l);
    if !allowed { return failure; }
    var within := HunksWithinDrift(p.pairs, l.drift);
    if !within { return failure; }
    var outside := HasHunksOutsideOriginalRegions(o.value.hunks, r.value.hunks, l.drift);
    if outside { return failure; }
    error := None;
  }

  // ---- what acceptance guarantees ----

  lemma {:induction false} LocalAt(pairs: seq<Pair>, i: nat)
    requires AllLocal(pairs) && i < |pairs|
    ensures Local(pairs[i]) && pairs[i].distance <= MaxDistance(pairs)
  {
    if i > 0 { LocalAt(pairs[1..], i - 1); }
  }

  lemma FullSubsetIsAll<T>(a: seq<T>, b: seq<T>)
    requires multiset(a) <= multiset(b) && |a| == |b|
    ensures multiset(a) == multiset(b)
  {
    assert |multiset(a)| == |multiset(b)|;
    assert multiset(b) == multiset(a) + (multiset(b) - multiset(a));
    assert |multiset(b) - multiset(a)| == 0;
  }

  /** Acceptance pairs every original hunk with a regenerated one of its own, in the same file and within the limits. */
  lemma AcceptanceIsSound(originals: seq<Hunk>, regenerated: seq<Hunk>, l: Limits)
    requires Acceptable(originals, regenerated, l)
    ensures var pairs := PairHunks(originals, regenerated).pairs;
      && multiset(Originals(pairs)) == multiset(originals)
      && multiset(Regenerated(pairs)) <= multiset(regenerated) && |originals| <= |regenerated|
      && (forall i | 0 <= i < |pairs| ::
            && pairs[i].original.file == pairs[i].regenerated.file
            && Abs(pairs[i].original.oldStart - pairs[i].regenerated.oldStart) <= Max(0, l.pairMax)
            && DriftsAtMost(pairs[i].original, pairs[i].regenerated, Max(0, l.drift)))
      && TotalDistance(pairs) <= Max(0, l.pairTotal)
    ensures forall h | h in regenerated :: exists o | o in originals :: Overlaps(o, h, Max(0, l.drift))
    ensures Touched(regenerated) <= Allowed(Touched(originals), l)
    ensures forall f | f in FilesOf(originals) :: FileAllowed(originals, regenerated, f, l)
    ensures forall f :: (f in FilesOf(originals) <==> f in FilesOf(regenerated))
  {
    var p := PairHunks(originals, regenerated);
    PairingConserves(originals, regenerated);
    RegeneratedLength(p.pairs);
    FullSubsetIsAll(Originals(p.pairs), originals);
    PairsStayInTheirFile(FilesOf(originals), originals, regenerated);
    forall i | 0 <= i < |p.pairs|
      ensures Local(p.pairs[i]) && p.pairs[i].distance <= Max(0, l.pairMax)
      ensures DriftsAtMost(p.pairs[i].original, p.pairs[i].regenerated, Max(0, l.drift))
    {
      LocalAt(p.pairs, i);
      assert Within(p.pairs[i], Max(0, l.drift));
    }
    forall h | h in regenerated ensures exists o | o in originals :: Overlaps(o, h, Max(0, l.drift)) {
      assert Inside(originals, h, Max(0, l.drift));
      var o :| o in originals && Meets(o, h, Max(0, l.drift));
      assert Overlaps(o, h, Max(0, l.drift));
    }
  }

  /** A patch with one hunk beyond the widened lines of every original of its file is refused. */
  lemma StrayHunkRefused(originals: seq<Hunk>, regenerated: seq<Hunk>, l: Limits, h: Hunk)
    requires h in regenerated
    requires forall o | o in originals && o.file == h.file ::
      h.oldStart + Max(1, h.oldCount) - 1 < o.oldStart - Max(0, l.drift)
      || h.oldStart > o.oldStart + Max(1, o.oldCount) - 1 + Max(0, l.drift)
    ensures !Acceptable(originals, regenerated, l)
  {
    if Acceptable(originals, regenerated, l) {
      AcceptanceIsSound(originals, regenerated, l);
    }
  }

  // ---- regenerated hunks left over ----

  /**
    An accepted patch leaves over as many regenerated hunks as it has more than the original, so every one is paired
    exactly when the counts agree.
  */
  lemma AcceptedLeftovers(originals: seq<Hunk>, regenerated: seq<Hunk>, l: Limits)
    requires Acceptable(originals, regenerated, l)
    ensures PairHunks(originals, regenerated).unmatchedRegenerated == |regenerated| - |originals|
    ensures multiset(Regenerated(PairHunks(originals, regenerated).pairs)) == multiset(regenerated)
       <==> |regenerated| == |originals|
  {
    var p := PairHunks(originals, regenerated);
    PairingConserves(originals, regenerated);
    RegeneratedLength(p.pairs);
    if |regenerated| == |originals| { FullSubsetIsAll(Regenerated(p.pairs), regenerated); }
    assert |multiset(Regenerated(p.pairs))| == |p.pairs| && |multiset(regenerated)| == |regenerated|;
  }
}
