/** Find-and-replace on exact text: occurrences, reverse splicing, and single-block edits. */
module ExactMatch {
  import opened Options
  import opened Strings

  predicate OccursAt(text: string, needle: string, i: int) {
    0 <= i <= i + |needle| <= |text| && text[i..i + |needle|] == needle
  }

  /** `text.find(needle, pos)`. */
  function Find(text: string, needle: string, pos: nat): int
    decreases |text| - pos
  {
    if pos + |needle| > |text| then -1
    else if OccursAt(text, needle, pos) then pos
    else Find(text, needle, pos + 1)
  }

  lemma {:induction false} FindIsFirst(text: string, needle: string, pos: nat)
    ensures var i := Find(text, needle, pos);
      && (i == -1 || (pos <= i && OccursAt(text, needle, i)))
      && forall j | pos <= j && OccursAt(text, needle, j) :: i != -1 && i <= j
    decreases |text| - pos
  {
    if pos + |needle| <= |text| && !OccursAt(text, needle, pos) {
      FindIsFirst(text, needle, pos + 1);
    }
  }

  datatype Match = Match(start: int, end: int)

  /** Non-empty matches in ascending order, not overlapping, from `from` on, all of them occurrences. */
  predicate Laid(text: string, needle: string, matches: seq<Match>, from: nat) {
    && (forall k | 0 <= k < |matches| ::
          from <= matches[k].start && matches[k].end == matches[k].start + |needle|
          && OccursAt(text, needle, matches[k].start))
    && forall k | 0 <= k < |matches| - 1 :: matches[k].end <= matches[k + 1].start
  }

  /** Every occurrence that starts between `from` and `upto` starts inside a match. */
  ghost predicate Covered(text: string, needle: string, matches: seq<Match>, from: nat, upto: int) {
    forall j | from <= j < upto && OccursAt(text, needle, j)
      :: exists k | 0 <= k < |matches| :: matches[k].start <= j < matches[k].end
  }

  /** The greedy matches, by recursion on what is left of the text. */
  function Greedy(text: string, needle: string, from: nat): seq<Match>
    requires needle != ""
    decreases |text| - from
  {
    var i := Find(text, needle, from);
    if i < from then []
    else if i + |needle| > |text| then []
    else [Match(i, i + |needle|)] + Greedy(text, needle, i + |needle|)
  }

  lemma LaidBefore(text: string, needle: string, first: Match, rest: seq<Match>, from: nat)
    requires needle != "" && from <= first.start && OccursAt(text, needle, first.start)
    requires first.end == first.start + |needle| && Laid(text, needle, rest, first.end)
    ensures Laid(text, needle, [first] + rest, from)
  {
    var all := [first] + rest;
    forall k | 0 <= k < |all| - 1 ensures all[k].end <= all[k + 1].start {
      assert all[k + 1] == rest[k];
      if k > 0 { assert all[k] == rest[k - 1]; }
    }
  }

  lemma CoveredBefore(text: string, needle: string, first: Match, rest: seq<Match>, from: nat)
    requires needle != "" && from <= first.start && first.end == first.start + |needle|
    requires forall j | from <= j && OccursAt(text, needle, j) :: first.start <= j
    requires Covered(text, needle, rest, first.end, |text|)
    ensures Covered(text, needle, [first] + rest, from, |text|)
  {
    var all := [first] + rest;
    forall j | from <= j < |text| && OccursAt(text, needle, j)
      ensures exists k | 0 <= k < |all| :: all[k].start <= j < all[k].end
    {
      if j < first.end {
        assert all[0].start <= j;
      } else {
        var k :| 0 <= k < |rest| && rest[k].start <= j < rest[k].end;
        assert all[k + 1] == rest[k];
      }
    }
  }

  lemma GreedyStep(text: string, needle: string, pos: nat)
    requires needle != ""
    ensures var i := Find(text, needle, pos);
      if i < 0 then Greedy(text, needle, pos) == []
      else pos <= i && i + |needle| <= |text|
           && Greedy(text, needle, pos) == [Match(i, i + |needle|)] + Greedy(text, needle, i + |needle|)
  {
    FindIsFirst(text, needle, pos);
  }

  /** The greedy matches are ascending, disjoint occurrences. */
  lemma {:induction false} GreedyIsLaid(text: string, needle: string, from: nat)
    requires needle != ""
    ensures Laid(text, needle, Greedy(text, needle, from), from)
    decreases |text| - from
  {
    var i := Find(text, needle, from);
    GreedyStep(text, needle, from);
    if i >= 0 {
      FindIsFirst(text, needle, from);
      GreedyIsLaid(text, needle, i + |needle|);
      LaidBefore(text, needle, Match(i, i + |needle|), Greedy(text, needle, i + |needle|), from);
    }
  }

  /** No occurrence starts in a gap between the greedy matches. */
  lemma {:induction false} GreedyCovers(text: string, needle: string, from: nat)
    requires needle != ""
    ensures Covered(text, needle, Greedy(text, needle, from), from, |text|)
    decreases |text| - from
  {
    var i := Find(text, needle, from);
    GreedyStep(text, needle, from);
    FindIsFirst(text, needle, from);
    if i >= 0 {
      GreedyCovers(text, needle, i + |needle|);
      CoveredBefore(text, needle, Match(i, i + |needle|), Greedy(text, needle, i + |needle|), from);
    }
  }

  /** `_find_all_exact_matches`: ascending, disjoint, leftmost-greedy, none starting in a gap. */
  method FindAllExactMatches(haystack: string, needle: string) returns (matches: seq<Match>)
    ensures needle == "" ==> matches == []
    ensures needle != "" ==> matches == Greedy(haystack, needle, 0)
    ensures Laid(haystack, needle, matches, 0)
    ensures needle != "" ==> Covered(haystack, needle, matches, 0, |haystack|)
  {
    matches := [];
    if needle == "" { return; }
    ghost var all := Greedy(haystack, needle, 0);
    var pos := 0;
    while true
      invariant pos <= |haystack| && matches + Greedy(haystack, needle, pos) == all
      decreases |haystack| - pos
    {
      var idx := Find(haystack, needle, pos);
      GreedyStep(haystack, needle, pos);
      if idx < 0 { break; }
      matches := matches + [Match(idx, idx + |needle|)];
      pos := idx + |needle|;
    }
    assert matches == all;
    assert Laid(haystack, needle, all, 0) by { GreedyIsLaid(haystack, needle, 0); }
    assert Covered(haystack, needle, all, 0, |haystack|) by { GreedyCovers(haystack, needle, 0); }
  }

  /** Replacing the given matches, read forward. */
  function Splice(text: string, from: nat, matches: seq<Match>, replacement: string): string
    requires from <= |text| && InOrder(text, from, matches)
    decreases |matches|
  {
    if matches == [] then text[from..]
    else text[from..matches[0].start] + replacement + Splice(text, matches[0].end, matches[1..], replacement)
  }

  predicate InOrder(text: string, from: nat, matches: seq<Match>)
    decreases |matches|
  {
    matches == [] ||
    (from <= matches[0].start <= matches[0].end <= |text| && InOrder(text, matches[0].end, matches[1..]))
  }

  lemma {:induction false} InOrderFrom(text: string, from: nat, matches: seq<Match>, k: nat)
    requires from <= |text| && InOrder(text, from, matches) && k <= |matches|
    ensures var f := if k == 0 then from else matches[k - 1].end;
      from <= f <= |text| && InOrder(text, f, matches[k..])
    ensures k < |matches|
       ==> from <= (if k == 0 then from else matches[k - 1].end) <= matches[k].start <= matches[k].end <= |text|
    decreases |matches|
  {
    if k > 0 {
      InOrderFrom(text, matches[0].end, matches[1..], k - 1);
      assert matches[1..][k - 1..] == matches[k..];
    }
  }

  lemma SpliceAt(text: string, g: nat, start: nat, end: nat, rest: string, replacement: string)
    requires g <= start <= end <= |text|
    ensures var out := text[..end] + rest;
      out[..start] + replacement + out[end..] == text[..g] + (text[g..start] + replacement + rest)
  {
    var out := text[..end] + rest;
    assert out[..start] == text[..start] == text[..g] + text[g..start];
    assert out[end..] == rest;
    Regroup(text[..g], text[g..start], replacement, rest);
    assert text[..g] + text[g..start] + replacement + rest == text[..g] + text[g..start] + (replacement + rest);
    assert text[g..start] + replacement + rest == text[g..start] + (replacement + rest);
  }

  function EndBefore(matches: seq<Match>, i: nat): int
    requires i <= |matches|
  {
    if i == 0 then 0 else matches[i - 1].end
  }

  /** One more match spliced from the back. */
  lemma SpliceOneMore(text: string, matches: seq<Match>, replacement: string, i: nat)
    requires InOrder(text, 0, matches) && i < |matches|
    ensures 0 <= EndBefore(matches, i) <= matches[i].start <= matches[i].end <= |text|
    ensures InOrder(text, EndBefore(matches, i), matches[i..]) && InOrder(text, matches[i].end, matches[i + 1..])
    ensures var g, m := EndBefore(matches, i), matches[i];
      Splice(text, g, matches[i..], replacement)
      == text[g..m.start] + replacement + Splice(text, m.end, matches[i + 1..], replacement)
  {
    InOrderFrom(text, 0, matches, i);
    assert matches[i..][0] == matches[i] && matches[i..][1..] == matches[i + 1..];
  }

  /** `_replace_exact_matches`: splicing from the last match backwards equals replacing them in reading order. */
  method ReplaceExactMatches(text: string, matches: seq<Match>, replacement: string, replaceAll: bool)
    returns (out: string)
    requires InOrder(text, 0, matches)
    ensures out ==
      Splice(text, 0, if replaceAll then matches else if matches == [] then [] else [matches[0]], replacement)
  {
    if matches == [] { return text; }
    if !replaceAll {
      var start, end := matches[0].start, matches[0].end;
      ghost var rest: seq<Match> := [matches[0]][1..];
      assert rest == [];
      return text[..start] + replacement + text[end..];
    }
    out := text;
    var i := |matches|;
    InOrderFrom(text, 0, matches, i);
    while i > 0
      invariant 0 <= i <= |matches|
      invariant var f := EndBefore(matches, i);
        0 <= f <= |text| && InOrder(text, f, matches[i..])
        && out == text[..f] + Splice(text, f, matches[i..], replacement)
    {
      i := i - 1;
      SpliceOneMore(text, matches, replacement, i);
      var start, end := matches[i].start, matches[i].end;
      SpliceAt(text, EndBefore(matches, i), start, end, Splice(text, end, matches[i + 1..], replacement), replacement);
      out := out[..start] + replacement + out[end..];
    }
  }

  // ---- replace-all as a function of the text alone ----

  /** Replace the first occurrence, then go on behind it. */
  function ReplaceAll(text: string, needle: string, replacement: string): string
    requires needle != ""
    decreases |text|
  {
    var i := Find(text, needle, 0);
    if i < 0 || i + |needle| > |text| then text
    else text[..i] + replacement + ReplaceAll(text[i + |needle|..], needle, replacement)
  }

  lemma {:induction false} FindInSuffix(text: string, needle: string, from: nat, pos: nat)
    requires from <= |text|
    ensures Find(text, needle, from + pos)
         == if Find(text[from..], needle, pos) == -1 then -1 else from + Find(text[from..], needle, pos)
    decreases |text| - pos
  {
    if from + pos + |needle| <= |text| {
      assert text[from + pos..from + pos + |needle|] == text[from..][pos..pos + |needle|];
      if !OccursAt(text, needle, from + pos) { FindInSuffix(text, needle, from, pos + 1); }
    }
  }

  /** The first greedy match, seen from the text and from its suffix. */
  lemma FirstInSuffix(text: string, needle: string, from: nat)
    requires needle != "" && from <= |text|
    ensures var i, j := Find(text, needle, from), Find(text[from..], needle, 0);
      && (i == -1 <==> j == -1)
      && (i != -1 ==> i == from + j && from <= i && i + |needle| <= |text|)
  {
    FindIsFirst(text, needle, from);
    FindInSuffix(text, needle, from, 0);
    FindIsFirst(text[from..], needle, 0);
  }

  lemma ReplaceAllStep(s: string, needle: string, replacement: string, i: nat, before: string, after: string)
    requires needle != "" && Find(s, needle, 0) == i && i + |needle| <= |s|
    requires before == s[..i] && after == s[i + |needle|..]
    ensures ReplaceAll(s, needle, replacement) == before + replacement + ReplaceAll(after, needle, replacement)
  {
  }

  /** Splicing the greedy matches is replacing all. */
  lemma {:induction false} SplicingGreedyReplacesAll(text: string, needle: string, replacement: string, from: nat)
    requires needle != "" && from <= |text|
    ensures InOrder(text, from, Greedy(text, needle, from))
    ensures Splice(text, from, Greedy(text, needle, from), replacement) == ReplaceAll(text[from..], needle, replacement)
    decreases |text| - from
  {
    var i := Find(text, needle, from);
    FirstInSuffix(text, needle, from);
    if i >= 0 {
      var next := i + |needle|;
      SplicingGreedyReplacesAll(text, needle, replacement, next);
      GreedyStep(text, needle, from);
      var all := Greedy(text, needle, from);
      assert all[0] == Match(i, next) && all[1..] == Greedy(text, needle, next);
      ReplaceAllStep(text[from..], needle, replacement, i - from, text[from..i], text[next..]);
    }
  }

  lemma OneMore(k: int, c: int)
    ensures (1 + k) * c == c + k * c
  {
  }

  lemma {:induction false} SpliceLength(text: string, from: nat, matches: seq<Match>, replacement: string, n: nat)
    requires from <= |text| && InOrder(text, from, matches)
    requires forall k | 0 <= k < |matches| :: matches[k].end == matches[k].start + n
    ensures |Splice(text, from, matches, replacement)| == |text| - from + |matches| * (|replacement| - n)
    decreases |matches|
  {
    if matches != [] {
      SpliceLength(text, matches[0].end, matches[1..], replacement, n);
      OneMore(|matches[1..]|, |replacement| - n);
    }
  }

  /** Every match changes the length by the same amount. */
  lemma LengthAfterReplaceAll(text: string, needle: string, replacement: string)
    requires needle != ""
    ensures |ReplaceAll(text, needle, replacement)|
         == |text| + |Greedy(text, needle, 0)| * (|replacement| - |needle|)
  {
    SplicingGreedyReplacesAll(text, needle, replacement, 0);
    GreedyIsLaid(text, needle, 0);
    SpliceLength(text, 0, Greedy(text, needle, 0), replacement, |needle|);
    assert text[0..] == text;
  }

  /** Replacing a text by itself changes nothing. */
  lemma {:induction false} ReplaceAllBySelf(text: string, needle: string)
    requires needle != ""
    ensures ReplaceAll(text, needle, needle) == text
    decreases |text|
  {
    var i := Find(text, needle, 0);
    FindIsFirst(text, needle, 0);
    if i >= 0 {
      ReplaceAllBySelf(text[i + |needle|..], needle);
      assert text == text[..i] + text[i..i + |needle|] + text[i + |needle|..];
    }
  }

  // ---- single-block edits ----

  /** The one changed block of a line diff: old[i1..i2] became new[j1..j2], everything around it is equal. */
  datatype Block = Block(i1: nat, i2: nat, j1: nat, j2: nat)

  predicate Changed(oldText: string, newText: string, b: Block) {
    && b.i1 <= b.i2 <= |oldText| && b.j1 <= b.j2 <= |newText|
    && oldText[..b.i1] == newText[..b.j1] && oldText[b.i2..] == newText[b.j2..]
  }

  /** `text.count(needle)`: non-overlapping, from the left. */
  function Count(text: string, needle: string): nat
    requires needle != ""
  {
    |Greedy(text, needle, 0)|
  }

  /** `_derive_single_replace_from_old_and_new`; `single` is the diff's only changed block, if it has just one. */
  function DeriveSingleReplace(oldText: string, newText: string, single: Option<Block>): Option<(string, string)>
    requires single.Some? ==> Changed(oldText, newText, single.value)
  {
    if oldText == newText then None
    else match single
      case Some(b) =>
        var oldMid, newMid := oldText[b.i1..b.i2], newText[b.j1..b.j2];
        if oldMid == "" || Count(oldText, oldMid) != 1 then None else Some((oldMid, newMid))
      case None =>
        if Strip(oldText) != "" && Count(oldText, oldText) == 1 then Some((oldText, newText)) else None
  }

  /** What FindAndReplace without replace_all makes of a text. */
  function FindAndReplace(text: string, needle: string, replacement: string): string {
    var i := Find(text, needle, 0);
    if i < 0 || i + |needle| > |text| then text else text[..i] + replacement + text[i + |needle|..]
  }

  lemma SameFrame(x: string, a: string, b: string, z: string)
    ensures x + a + z == x + b + z <==> a == b
  {
    if x + a + z == x + b + z {
      assert |a| == |b|;
      assert a == (x + a + z)[|x|..|x| + |a|];
      assert b == (x + b + z)[|x|..|x| + |b|];
    }
  }

  /** The counted occurrence overlaps the changed block. */
  lemma OnlyMatchOverlaps(text: string, mid: string, at: nat)
    requires mid != "" && OccursAt(text, mid, at) && Count(text, mid) == 1
    ensures 0 <= Find(text, mid, 0) <= at < Find(text, mid, 0) + |mid|
    ensures OccursAt(text, mid, Find(text, mid, 0))
  {
    FindIsFirst(text, mid, 0);
    var p := Find(text, mid, 0);
    var rest := Greedy(text, mid, p + |mid|);
    assert Greedy(text, mid, 0) == [Match(p, p + |mid|)] + rest;
    FindIsFirst(text, mid, p + |mid|);
  }

  /** Two overlapping occurrences, `d` apart, and what lies beside each. */
  lemma ShiftedOccurrences(text: string, mid: string, p: nat, q: nat)
    requires OccursAt(text, mid, p) && OccursAt(text, mid, q) && p <= q < p + |mid|
    ensures text[p..q] == mid[..q - p]
    ensures text[p + |mid|..] == mid[|mid| - (q - p)..] + text[q + |mid|..]
  {
    assert text[p..q] == text[p..p + |mid|][..q - p];
    assert text[p + |mid|..q + |mid|] == text[q..q + |mid|][|mid| - (q - p)..];
    assert text[p + |mid|..] == text[p + |mid|..q + |mid|] + text[q + |mid|..];
  }

  /**
    The derived edit rebuilds the new text exactly when the leftmost occurrence of the old block is
    shifted against the changed one by a distance over which the two blocks commute; in particular
    when it is the changed one. Counting non-overlapping occurrences alone does not ensure it.
  */
  lemma DerivedEditRebuildsIff(oldText: string, newText: string, b: Block)
    requires Changed(oldText, newText, b) && DeriveSingleReplace(oldText, newText, Some(b)).Some?
    ensures var oldMid, newMid := oldText[b.i1..b.i2], newText[b.j1..b.j2];
      var d := b.i1 - Find(oldText, oldMid, 0);
      && 0 <= d < |oldMid|
      && (FindAndReplace(oldText, oldMid, newMid) == newText
          <==> newMid + oldMid[|oldMid| - d..] == oldMid[..d] + newMid)
  {
    var oldMid, newMid := oldText[b.i1..b.i2], newText[b.j1..b.j2];
    OnlyMatchOverlaps(oldText, oldMid, b.i1);
    var p := Find(oldText, oldMid, 0);
    var d := b.i1 - p;
    var x, z, got, wanted := oldText[..p], oldText[b.i2..], newMid + oldMid[|oldMid| - d..], oldMid[..d] + newMid;
    assert FindAndReplace(oldText, oldMid, newMid) == x + got + z by {
      ReplacedFrame(oldText, oldMid, newMid, p, b.i1);
      assert b.i1 + |oldMid| == b.i2;
    }
    assert newText == x + wanted + z by { NewTextFrame(oldText, newText, b, p); }
    SameFrame(x, got, wanted, z);
  }

  /** Replacing at `p` what also stands at `q`. */
  lemma ReplacedFrame(text: string, mid: string, newMid: string, p: nat, q: nat)
    requires OccursAt(text, mid, p) && OccursAt(text, mid, q) && p <= q < p + |mid| && Find(text, mid, 0) == p
    ensures FindAndReplace(text, mid, newMid) == text[..p] + (newMid + mid[|mid| - (q - p)..]) + text[q + |mid|..]
  {
    ShiftedOccurrences(text, mid, p, q);
    Regroup(text[..p], newMid, mid[|mid| - (q - p)..], text[q + |mid|..]);
  }

  lemma Regroup(a: string, b: string, c: string, d: string)
    ensures a + b + (c + d) == a + (b + c) + d
  {
  }

  /** The new text, split where the replaced occurrence starts. */
  lemma NewTextFrame(oldText: string, newText: string, b: Block, p: nat)
    requires Changed(oldText, newText, b) && b.i1 < b.i2 && p <= b.i1 < p + (b.i2 - b.i1)
    requires OccursAt(oldText, oldText[b.i1..b.i2], p)
    ensures newText == oldText[..p] + (oldText[b.i1..b.i2][..b.i1 - p] + newText[b.j1..b.j2]) + oldText[b.i2..]
  {
    var mid, newMid := oldText[b.i1..b.i2], newText[b.j1..b.j2];
    ShiftedOccurrences(oldText, mid, p, b.i1);
    assert oldText[..b.i1] == oldText[..p] + oldText[p..b.i1];
    assert newText == newText[..b.j1] + newMid + newText[b.j2..];
    Regroup(oldText[..p], mid[..b.i1 - p], newMid, oldText[b.i2..]);
  }

  /** When the old block occurs at one position, overlaps counted, the edit is derived and rebuilds the new text. */
  lemma UniqueBlockRebuilds(oldText: string, newText: string, b: Block)
    requires Changed(oldText, newText, b) && oldText != newText && b.i1 < b.i2
    requires forall j | OccursAt(oldText, oldText[b.i1..b.i2], j) :: j == b.i1
    ensures DeriveSingleReplace(oldText, newText, Some(b)) == Some((oldText[b.i1..b.i2], newText[b.j1..b.j2]))
    ensures FindAndReplace(oldText, oldText[b.i1..b.i2], newText[b.j1..b.j2]) == newText
  {
    var mid := oldText[b.i1..b.i2];
    FindIsFirst(oldText, mid, 0);
    assert OccursAt(oldText, mid, b.i1);
    FindIsFirst(oldText, mid, b.i2);
    assert Greedy(oldText, mid, b.i2) == [];
    assert Greedy(oldText, mid, 0) == [Match(b.i1, b.i2)];
    DerivedEditRebuildsIff(oldText, newText, b);
    var newMid := newText[b.j1..b.j2];
    assert newMid + mid[|mid| - 0..] == newMid == mid[..0] + newMid;
  }

  /** The fallback replaces the whole text and always rebuilds. */
  lemma WholeSnapshotRebuilds(oldText: string, newText: string)
    requires oldText != ""
    ensures FindAndReplace(oldText, oldText, newText) == newText
  {
    assert OccursAt(oldText, oldText, 0);
    assert oldText[..0] + newText + oldText[|oldText|..] == newText;
  }

  /** "a\na\n" counts once in "a\na\na\n", yet replacing it edits the wrong lines. */
  lemma CountingOnceIsNotEnough()
    ensures var oldText, newText := "a\na\na\n", "a\nb\n";
      var b := Block(2, 6, 2, 4);
      && Changed(oldText, newText, b)
      && DeriveSingleReplace(oldText, newText, Some(b)) == Some(("a\na\n", "b\n"))
      && FindAndReplace(oldText, "a\na\n", "b\n") == "b\na\n" != newText
  {
    var oldText, newText := "a\na\na\n", "a\nb\n";
    var b := Block(2, 6, 2, 4);
    assert oldText[..2] == newText[..2] && oldText[6..] == newText[4..] == "";
    assert oldText[2..6] == "a\na\n" && newText[2..4] == "b\n";
    assert OccursAt(oldText, "a\na\n", 0);
    assert Find(oldText, "a\na\n", 4) == -1;
    assert Greedy(oldText, "a\na\n", 4) == [];
    assert Greedy(oldText, "a\na\n", 0) == [Match(0, 4)];
    assert oldText[2] != newText[2];
  }

  /** Without a single changed block the edit is the whole text, unless there is nothing but white space in it. */
  lemma DerivedWithoutBlock(oldText: string, newText: string)
    ensures DeriveSingleReplace(oldText, newText, None)
         == if oldText == newText || Strip(oldText) == "" then None else Some((oldText, newText))
  {
    if Strip(oldText) != "" {
      assert OccursAt(oldText, oldText, 0);
      FindIsFirst(oldText, oldText, 0);
      FindIsFirst(oldText, oldText, |oldText|);
      assert Greedy(oldText, oldText, |oldText|) == [];
      assert Greedy(oldText, oldText, 0) == [Match(0, |oldText|)];
    }
  }

  /** The leftmost occurrence. */
  predicate FirstAt(text: string, needle: string, i: nat) {
    OccursAt(text, needle, i) && forall j | 0 <= j < i :: !OccursAt(text, needle, j)
  }

  lemma FoundFirst(text: string, needle: string, i: nat)
    requires FirstAt(text, needle, i)
    ensures Find(text, needle, 0) == i
  {
    FindIsFirst(text, needle, 0);
  }

  lemma FoundNone(text: string, needle: string)
    requires forall j :: !OccursAt(text, needle, j)
    ensures Find(text, needle, 0) == -1
  {
    FindIsFirst(text, needle, 0);
  }

  /** Replacing, once or everywhere, leaves a text without an occurrence. */
  lemma NothingToReplace(text: string, needle: string, replacement: string)
    requires needle != "" && forall j :: !OccursAt(text, needle, j)
    ensures FindAndReplace(text, needle, replacement) == text && ReplaceAll(text, needle, replacement) == text
  {
    FoundNone(text, needle);
  }

  /** It puts the replacement at the leftmost occurrence; everywhere means again in what is behind it. */
  lemma ReplacesFirst(text: string, needle: string, replacement: string, i: nat)
    requires needle != "" && FirstAt(text, needle, i)
    ensures var rest := text[i + |needle|..];
      && FindAndReplace(text, needle, replacement) == text[..i] + replacement + rest
      && ReplaceAll(text, needle, replacement) == text[..i] + replacement + ReplaceAll(rest, needle, replacement)
  {
    FoundFirst(text, needle, i);
  }
}
