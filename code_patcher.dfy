/**
 * The line-based patch applicator (`LocalCodePatcher.applyPatch`).
 *
 * A patch is a list of edit instructions whose 1-based line numbers all
 * refer to the ORIGINAL file. The applicator splits the text on newlines,
 * orders the instructions by start line, highest first (a stable sort, so
 * ties keep their input order), splices each valid instruction into the
 * line list, silently skips the invalid ones, and joins the lines again.
 */
module CodePatcher {
  import opened Text

  datatype ChangeType = ReplaceBlock | InsertBefore | InsertAfter | DeleteBlock

  /** One edit instruction (`CodeChangeInstruction`); `endLine` matters only for the two block kinds. */
  datatype Change = Change(kind: ChangeType, startLine: int, endLine: int, content: string)

  // ---------------------------------------------------------------------
  // Ordering: `[...changes].sort((a, b) => b.startLine - a.startLine)`
  // ---------------------------------------------------------------------

  predicate Descending(cs: seq<Change>)
  {
    forall i, j :: 0 <= i < j < |cs| ==> cs[i].startLine >= cs[j].startLine
  }

  /** The instructions of `cs` that start at line `k`, in their order in `cs`. */
  function WithStart(cs: seq<Change>, k: int): seq<Change>
  {
    if cs == [] then []
    else (if cs[0].startLine == k then [cs[0]] else []) + WithStart(cs[1..], k)
  }

  lemma WithStartCons(a: Change, t: seq<Change>, k: int)
    ensures WithStart([a] + t, k) == (if a.startLine == k then [a] else []) + WithStart(t, k)
  {
    assert ([a] + t)[1..] == t;
  }

  /** Puts `x` in front of the first instruction that does not start strictly after it. */
  function InsertByStart(x: Change, s: seq<Change>): (r: seq<Change>)
  {
    if s == [] || s[0].startLine <= x.startLine then [x] + s
    else [s[0]] + InsertByStart(x, s[1..])
  }

  /** The stable descending sort by start line, as insertion sort. */
  function SortByStartDesc(cs: seq<Change>): (r: seq<Change>)
  {
    if cs == [] then [] else InsertByStart(cs[0], SortByStartDesc(cs[1..]))
  }

  /** Inserting adds exactly `x`. */
  lemma {:induction false} InsertByStartAdds(x: Change, s: seq<Change>)
    ensures |InsertByStart(x, s)| == |s| + 1
    ensures forall j :: 0 <= j < |s| + 1 ==> InsertByStart(x, s)[j] == x || InsertByStart(x, s)[j] in s
    ensures multiset(InsertByStart(x, s)) == multiset(s) + multiset{x}
  {
    if s != [] && s[0].startLine > x.startLine {
      InsertByStartAdds(x, s[1..]);
      assert s == [s[0]] + s[1..];
    }
  }

  /** An instruction starting no earlier than every instruction of an ordered list can go in front of it. */
  lemma ConsDescending(a: Change, t: seq<Change>)
    requires Descending(t) && forall j :: 0 <= j < |t| ==> t[j].startLine <= a.startLine
    ensures Descending([a] + t)
  {
    forall i, j | 0 <= i < j < |[a] + t|
      ensures ([a] + t)[i].startLine >= ([a] + t)[j].startLine
    {
      assert ([a] + t)[j] == t[j - 1];
    }
  }

  /** The members of an ordered list's tail start no later than its head. */
  lemma HeadStartsLatest(s: seq<Change>, c: Change)
    requires Descending(s) && s != [] && c in s[1..]
    ensures c.startLine <= s[0].startLine
  {
    var k :| 0 <= k < |s[1..]| && s[1..][k] == c;
    assert s[k + 1] == c;
  }

  /** Inserting into an ordered list keeps it ordered. */
  lemma {:induction false} InsertByStartOrdered(x: Change, s: seq<Change>)
    requires Descending(s)
    ensures Descending(InsertByStart(x, s))
  {
    if s != [] && s[0].startLine > x.startLine {
      var t := InsertByStart(x, s[1..]);
      assert Descending(s[1..]);
      InsertByStartOrdered(x, s[1..]);
      InsertByStartAdds(x, s[1..]);
      forall j | 0 <= j < |t|
        ensures t[j].startLine <= s[0].startLine
      {
        if t[j] != x {
          HeadStartsLatest(s, t[j]);
        }
      }
      ConsDescending(s[0], t);
    }
  }

  /** `x` goes in front of every instruction of `s` with its own start line. */
  lemma {:induction false} InsertByStartStable(x: Change, s: seq<Change>, k: int)
    requires Descending(s)
    ensures WithStart(InsertByStart(x, s), k) == if x.startLine == k then [x] + WithStart(s, k) else WithStart(s, k)
  {
    if s == [] || s[0].startLine <= x.startLine {
      WithStartCons(x, s, k);
    } else {
      InsertByStartStable(x, s[1..], k);
      WithStartCons(s[0], InsertByStart(x, s[1..]), k);
      assert s == [s[0]] + s[1..];
      WithStartCons(s[0], s[1..], k);
      assert s[1..] == [] || s[1].startLine <= s[0].startLine;
    }
  }

  /** The sort orders by start line, highest first, and holds exactly the input's instructions. */
  lemma {:induction false} SortIsOrderedPermutation(cs: seq<Change>)
    ensures Descending(SortByStartDesc(cs))
    ensures multiset(SortByStartDesc(cs)) == multiset(cs)
  {
    if cs != [] {
      SortIsOrderedPermutation(cs[1..]);
      InsertByStartOrdered(cs[0], SortByStartDesc(cs[1..]));
      InsertByStartAdds(cs[0], SortByStartDesc(cs[1..]));
      assert cs == [cs[0]] + cs[1..];
    }
  }

  /** The sort is stable: the instructions sharing a start line keep their input order. */
  lemma {:induction false} SortIsStable(cs: seq<Change>, k: int)
    ensures WithStart(SortByStartDesc(cs), k) == WithStart(cs, k)
  {
    if cs != [] {
      SortIsStable(cs[1..], k);
      SortIsOrderedPermutation(cs[1..]);
      InsertByStartStable(cs[0], SortByStartDesc(cs[1..]), k);
      assert cs == [cs[0]] + cs[1..];
      WithStartCons(cs[0], cs[1..], k);
    }
  }

  // ---------------------------------------------------------------------
  // One instruction
  // ---------------------------------------------------------------------

  /** The range guard of the source: does instruction `c` apply to a file of `n` lines? */
  predicate Applies(c: Change, n: nat)
  {
    var s := c.startLine - 1;
    match c.kind
    case ReplaceBlock => 0 <= s <= c.endLine - 1 < n
    case InsertBefore => 0 <= s <= n
    case InsertAfter => 0 <= s < n
    case DeleteBlock => 0 <= s <= c.endLine - 1 < n
  }

  /**
   * One instruction applied to the current lines, as the `switch` does it
   * with `splice`; an instruction the guard rejects leaves the lines as they are.
   */
  function ApplyChange(lines: seq<string>, c: Change): (r: seq<string>)
    ensures !Applies(c, |lines|) ==> r == lines
    ensures Applies(c, |lines|) && c.kind == ReplaceBlock ==>
      var s, e := c.startLine - 1, c.endLine - 1;
      |r| == |lines| - (e - s) && r[..s] == lines[..s] && r[s] == c.content && r[s + 1..] == lines[e + 1..]
    ensures Applies(c, |lines|) && c.kind == InsertBefore ==>
      var s := c.startLine - 1;
      |r| == |lines| + 1 && r[..s] == lines[..s] && r[s] == c.content && r[s + 1..] == lines[s..]
    ensures Applies(c, |lines|) && c.kind == InsertAfter ==>
      var s := c.startLine - 1;
      |r| == |lines| + 1 && r[..s + 1] == lines[..s + 1] && r[s + 1] == c.content && r[s + 2..] == lines[s + 1..]
    ensures Applies(c, |lines|) && c.kind == DeleteBlock ==>
      var s, e := c.startLine - 1, c.endLine - 1;
      |r| == |lines| - (e - s + 1) && r[..s] == lines[..s] && r[s..] == lines[e + 1..]
  {
    if !Applies(c, |lines|) then lines
    else
      var s := c.startLine - 1;
      match c.kind
      case ReplaceBlock => lines[..s] + [c.content] + lines[c.endLine..]
      case InsertBefore => lines[..s] + [c.content] + lines[s..]
      case InsertAfter => lines[..s + 1] + [c.content] + lines[s + 1..]
      case DeleteBlock => lines[..s] + lines[c.endLine..]
  }

  /** The instructions applied one after another, first to last. */
  function ApplyAll(lines: seq<string>, cs: seq<Change>): seq<string>
  {
    if cs == [] then lines
    else ApplyChange(ApplyAll(lines, cs[..|cs| - 1]), cs[|cs| - 1])
  }

  /** What `applyPatch` returns. */
  function PatchResult(originalCode: string, changes: seq<Change>): string
  {
    if |changes| == 0 then originalCode
    else Join(ApplyAll(Split(originalCode), SortByStartDesc(changes)))
  }

  // ---------------------------------------------------------------------
  // The applicator
  // ---------------------------------------------------------------------

  /**
   * `applyPatch`: the line list is spliced in place, instruction by
   * instruction, highest start line first.
   */
  method ApplyPatch(originalCode: string, changes: seq<Change>) returns (newCode: string)
    ensures |changes| == 0 ==> newCode == originalCode
    ensures newCode == PatchResult(originalCode, changes)
  {
    if |changes| == 0 {
      return originalCode;
    }
    var lines := Split(originalCode);
    var sorted := SortByStartDesc(changes);
    for i := 0 to |sorted|
      invariant lines == ApplyAll(Split(originalCode), sorted[..i])
    {
      assert sorted[..i + 1][..i] == sorted[..i];
      var change := sorted[i];
      ghost var before := lines;
      var startIndex := change.startLine - 1;
      match change.kind {
        case ReplaceBlock =>
          var endIndex := change.endLine - 1;
          if startIndex < 0 || endIndex >= |lines| || startIndex > endIndex {
            assert !Applies(change, |before|);
            continue;
          }
          lines := lines[..startIndex] + [change.content] + lines[endIndex + 1..];
        case InsertBefore =>
          if startIndex < 0 || startIndex > |lines| {
            assert !Applies(change, |before|);
            continue;
          }
          lines := lines[..startIndex] + [change.content] + lines[startIndex..];
        case InsertAfter =>
          if startIndex < 0 || startIndex >= |lines| {
            assert !Applies(change, |before|);
            continue;
          }
          lines := lines[..startIndex + 1] + [change.content] + lines[startIndex + 1..];
        case DeleteBlock =>
          var endIndex := change.endLine - 1;
          if startIndex < 0 || endIndex >= |lines| || startIndex > endIndex {
            assert !Applies(change, |before|);
            continue;
          }
          lines := lines[..startIndex] + lines[endIndex + 1..];
      }
      assert lines == ApplyChange(before, change);
    }
    assert sorted[..|sorted|] == sorted;
    newCode := Join(lines);
  }

  // ---------------------------------------------------------------------
  // Properties
  // ---------------------------------------------------------------------

  /** Instructions that are all rejected by the guard leave the lines untouched. */
  lemma {:induction false} SkippedChangesKeepLines(lines: seq<string>, cs: seq<Change>)
    requires forall i :: 0 <= i < |cs| ==> !Applies(cs[i], |lines|)
    ensures ApplyAll(lines, cs) == lines
  {
    if cs != [] {
      SkippedChangesKeepLines(lines, cs[..|cs| - 1]);
    }
  }

  /**
   * A patch made only of out-of-range instructions returns the original
   * text, because joining the split lines gives the text back.
   */
  lemma OutOfRangePatchIsIdentity(originalCode: string, changes: seq<Change>)
    requires forall i :: 0 <= i < |changes| ==> !Applies(changes[i], |Split(originalCode)|)
    ensures PatchResult(originalCode, changes) == originalCode
  {
    if |changes| > 0 {
      var sorted := SortByStartDesc(changes);
      SortIsOrderedPermutation(changes);
      forall i | 0 <= i < |sorted|
        ensures !Applies(sorted[i], |Split(originalCode)|)
      {
        assert sorted[i] in multiset(changes);
      }
      SkippedChangesKeepLines(Split(originalCode), sorted);
      JoinSplit(originalCode);
    }
  }

  /** Instruction `c` applied at or below line index `p` (or rejected) keeps the first `p` lines. */
  predicate AtOrBelow(c: Change, p: nat)
  {
    c.startLine < 1 || p <= c.startLine - 1
  }

  lemma {:induction false} PrefixKept(lines: seq<string>, cs: seq<Change>, p: nat)
    requires p <= |lines|
    requires forall j :: 0 <= j < |cs| ==> AtOrBelow(cs[j], p)
    ensures |ApplyAll(lines, cs)| >= p && ApplyAll(lines, cs)[..p] == lines[..p]
  {
    if cs != [] {
      var front := cs[..|cs| - 1];
      var a := ApplyAll(lines, front);
      PrefixKept(lines, front, p);
      var c := cs[|cs| - 1];
      assert AtOrBelow(c, p);
      var r := ApplyChange(a, c);
      if Applies(c, |a|) {
        var s := c.startLine - 1;
        assert r[..s] == a[..s];
        assert r[..p] == r[..s][..p] && a[..p] == a[..s][..p];
      }
    }
  }

  /**
   * No line-number drift: when an instruction's turn comes, every line
   * before its start line is still the line of the original file at that
   * position, because everything applied before it starts at or below it.
   */
  lemma NoLineDrift(originalCode: string, changes: seq<Change>, i: nat)
    requires i < |SortByStartDesc(changes)|
    ensures
      var sorted := SortByStartDesc(changes);
      var original := Split(originalCode);
      var p := if sorted[i].startLine < 1 then 0
               else if sorted[i].startLine - 1 < |original| then sorted[i].startLine - 1
               else |original|;
      var current := ApplyAll(original, sorted[..i]);
      |current| >= p && current[..p] == original[..p]
  {
    var sorted := SortByStartDesc(changes);
    SortIsOrderedPermutation(changes);
    var original := Split(originalCode);
    var p := if sorted[i].startLine < 1 then 0
             else if sorted[i].startLine - 1 < |original| then sorted[i].startLine - 1
             else |original|;
    forall j | 0 <= j < i
      ensures AtOrBelow(sorted[..i][j], p)
    {
      assert sorted[j].startLine >= sorted[i].startLine;
    }
    PrefixKept(original, sorted[..i], p);
  }

  /**
   * An instruction whose block nothing applied before it reaches into still
   * finds its whole block as in the original file: when every earlier
   * instruction starts after its end line, every line up to its end line is
   * the original one.
   */
  lemma BlockIntactWhenDisjoint(originalCode: string, changes: seq<Change>, i: nat)
    requires i < |SortByStartDesc(changes)|
    requires forall j :: 0 <= j < i ==>
      SortByStartDesc(changes)[j].startLine < 1 || SortByStartDesc(changes)[j].startLine > SortByStartDesc(changes)[i].endLine
    ensures
      var sorted := SortByStartDesc(changes);
      var original := Split(originalCode);
      var q := if sorted[i].endLine < 0 then 0
               else if sorted[i].endLine < |original| then sorted[i].endLine
               else |original|;
      var current := ApplyAll(original, sorted[..i]);
      |current| >= q && current[..q] == original[..q]
  {
    var sorted := SortByStartDesc(changes);
    var original := Split(originalCode);
    var q := if sorted[i].endLine < 0 then 0
             else if sorted[i].endLine < |original| then sorted[i].endLine
             else |original|;
    forall j | 0 <= j < i
      ensures AtOrBelow(sorted[..i][j], q)
    {
      assert sorted[..i][j] == sorted[j];
    }
    PrefixKept(original, sorted[..i], q);
  }

  lemma ExampleSorted(r: Change, b: Change, a: Change, d: Change)
    requires r.startLine == 2 && b.startLine == 1 && a.startLine == 3 && d.startLine == 2
    ensures SortByStartDesc([r, b, a, d]) == [a, r, d, b]
  {
    assert [r, b, a, d][1..] == [b, a, d] && [b, a, d][1..] == [a, d] && [a, d][1..] == [d];
    assert [d][1..] == [] && [a, d, b][1..] == [d, b] && [d, b][1..] == [b];
    assert SortByStartDesc([d]) == [d] by {
      assert InsertByStart(d, []) == [d];
    }
    assert SortByStartDesc([a, d]) == [a, d] by {
      assert InsertByStart(a, [d]) == [a, d];
    }
    assert SortByStartDesc([b, a, d]) == [a, d, b] by {
      assert InsertByStart(b, []) == [b];
      assert InsertByStart(b, [d]) == [d, b];
      assert InsertByStart(b, [a, d]) == [a, d, b];
    }
    assert InsertByStart(r, [d, b]) == [r, d, b];
    assert InsertByStart(r, [a, d, b]) == [a, r, d, b];
  }

  lemma ExampleSplit()
    ensures Split("one\ntwo\nthree") == ["one", "two", "three"]
  {
    SplitJoin(["one", "two", "three"]);
    assert Join(["one", "two", "three"]) == "one\ntwo\nthree";
  }

  lemma ExampleSteps(r: Change, b: Change, a: Change, d: Change)
    requires r == Change(ReplaceBlock, 2, 2, "TWO") && b == Change(InsertBefore, 1, 1, "zero")
    requires a == Change(InsertAfter, 3, 3, "four") && d == Change(DeleteBlock, 2, 2, "")
    ensures ApplyAll(["one", "two", "three"], [a, r, d, b]) == ["zero", "one", "three", "four"]
  {
    var lines := ["one", "two", "three"];
    var l1 := ["one", "two", "three", "four"];
    var l2 := ["one", "TWO", "three", "four"];
    var l3 := ["one", "three", "four"];
    var l4 := ["zero", "one", "three", "four"];
    assert ApplyAll(lines, [a]) == l1 by {
      assert [a][..0] == [];
      assert ApplyChange(lines, a) == lines[..3] + ["four"] + lines[3..];
    }
    assert ApplyAll(lines, [a, r]) == l2 by {
      assert [a, r][..1] == [a];
      assert ApplyChange(l1, r) == l1[..1] + ["TWO"] + l1[2..];
    }
    assert ApplyAll(lines, [a, r, d]) == l3 by {
      assert [a, r, d][..2] == [a, r];
      assert ApplyChange(l2, d) == l2[..1] + l2[2..];
    }
    assert [a, r, d, b][..3] == [a, r, d];
    assert ApplyChange(l3, b) == l3[..0] + ["zero"] + l3[0..];
  }

  lemma JoinCons(line: string, rest: seq<string>)
    requires rest != []
    ensures Join([line] + rest) == line + "\n" + Join(rest)
  {
    assert ([line] + rest)[1..] == rest;
  }

  lemma ExampleJoin()
    ensures Join(["zero", "one", "three", "four"]) == "zero\none\nthree\nfour"
  {
    JoinCons("three", ["four"]);
    assert ["three"] + ["four"] == ["three", "four"];
    JoinCons("one", ["three", "four"]);
    assert ["one"] + ["three", "four"] == ["one", "three", "four"];
    JoinCons("zero", ["one", "three", "four"]);
    assert ["zero"] + ["one", "three", "four"] == ["zero", "one", "three", "four"];
  }

  /** The ordering example: instructions listed out of order are resolved against the original lines. */
  lemma ReorderedPatchExample()
    ensures PatchResult("one\ntwo\nthree",
      [Change(ReplaceBlock, 2, 2, "TWO"), Change(InsertBefore, 1, 1, "zero"),
       Change(InsertAfter, 3, 3, "four"), Change(DeleteBlock, 2, 2, "")])
      == "zero\none\nthree\nfour"
  {
    var r := Change(ReplaceBlock, 2, 2, "TWO");
    var b := Change(InsertBefore, 1, 1, "zero");
    var a := Change(InsertAfter, 3, 3, "four");
    var d := Change(DeleteBlock, 2, 2, "");
    ExampleSorted(r, b, a, d);
    ExampleSplit();
    ExampleSteps(r, b, a, d);
    ExampleJoin();
  }

  /** The out-of-range example: both instructions are dropped and the text is returned as it was. */
  lemma OutOfRangeExample()
    ensures PatchResult("a\nb", [Change(DeleteBlock, 10, 12, ""), Change(InsertBefore, -1, -1, "x")]) == "a\nb"
  {
    SplitJoin(["a", "b"]);
    OutOfRangePatchIsIdentity("a\nb", [Change(DeleteBlock, 10, 12, ""), Change(InsertBefore, -1, -1, "x")]);
  }
}
