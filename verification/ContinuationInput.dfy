/** The carriers of one request: selecting them, sorting their locations and stripping them from the wire. */
module ContinuationInput {
  import opened Options
  import opened Sequences
  import opened JsonPointers
  import opened ContinuationStrip

  // ---- Sorting the locations ----

  lemma LocationsPush(paths: seq<Path>, x: Path)
    ensures Locations(paths + [x]) == Locations(paths) + {x}
  {
    forall p
      ensures p in Locations(paths + [x]) <==> p in Locations(paths) + {x}
    {
      assert p in paths + [x] <==> p in paths || p == x;
    }
  }

  function Insert(sorted: seq<Path>, x: Path): (r: seq<Path>)
    decreases |sorted|
  {
    if sorted == [] || !Before(x, sorted[|sorted| - 1]) then sorted + [x]
    else Insert(sorted[..|sorted| - 1], x) + [sorted[|sorted| - 1]]
  }

  /** Insertion sort, which is what the library sort does on short slices. */
  function Sorted(paths: seq<Path>): (r: seq<Path>)
    decreases |paths|
  {
    if paths == [] then [] else Insert(Sorted(paths[..|paths| - 1]), paths[|paths| - 1])
  }

  lemma {:induction false} InsertLocations(sorted: seq<Path>, x: Path)
    ensures |Insert(sorted, x)| == |sorted| + 1
    ensures Locations(Insert(sorted, x)) == Locations(sorted) + {x}
    decreases |sorted|
  {
    if sorted == [] || !Before(x, sorted[|sorted| - 1]) {
      LocationsPush(sorted, x);
    } else {
      var front, last := sorted[..|sorted| - 1], sorted[|sorted| - 1];
      assert sorted == front + [last];
      InsertLocations(front, x);
      LocationsPush(front, last);
      LocationsPush(Insert(front, x), last);
    }
  }

  lemma {:induction false} SortedLocations(paths: seq<Path>)
    ensures |Sorted(paths)| == |paths| && Locations(Sorted(paths)) == Locations(paths)
    decreases |paths|
  {
    if paths != [] {
      var front, last := paths[..|paths| - 1], paths[|paths| - 1];
      assert paths == front + [last];
      SortedLocations(front);
      InsertLocations(Sorted(front), last);
      LocationsPush(front, last);
    }
  }

  method SwapDown(paths: array<Path>, j: nat)
    requires 0 < j < paths.Length
    modifies paths
    ensures paths[..] == old(paths[..])[j := old(paths[j - 1])][j - 1 := old(paths[j])]
  {
    paths[j], paths[j - 1] := paths[j - 1], paths[j];
  }

  /** `x` on its way down: `j` of the sorted front are still before it. */
  function Sinking(front: seq<Path>, x: Path, tail: seq<Path>, j: nat): (r: seq<Path>)
    requires j <= |front|
    ensures |r| == |front| + 1 + |tail| && r[j] == x
    ensures j > 0 ==> r[j - 1] == front[j - 1]
  {
    front[..j] + [x] + front[j..] + tail
  }

  lemma SinkOne(front: seq<Path>, x: Path, tail: seq<Path>, j: nat)
    requires 0 < j <= |front|
    ensures Sinking(front, x, tail, j)[j := front[j - 1]][j - 1 := x] == Sinking(front, x, tail, j - 1)
  {
  }

  /** Moves element `i` down to its place among the sorted ones before it. */
  method SinkInto(paths: array<Path>, i: nat)
    requires i < paths.Length
    modifies paths
    ensures paths[..] == Insert(old(paths[..i]), old(paths[i])) + old(paths[i + 1..])
  {
    ghost var front, x, tail := paths[..i], paths[i], paths[i + 1..];
    var j := i;
    assert paths[..] == Sinking(front, x, tail, i);
    assert front[..i] == front && Insert(front, x) + front[i..] == Insert(front, x);
    while j > 0 && Before(paths[j], paths[j - 1])
      invariant 0 <= j <= i && paths[..] == Sinking(front, x, tail, j)
      invariant Insert(front, x) == Insert(front[..j], x) + front[j..]
    {
      assert paths[j] == paths[..][j] == x && paths[j - 1] == paths[..][j - 1] == front[j - 1];
      InsertUnfolds(front, x, j);
      SinkOne(front, x, tail, j);
      SwapDown(paths, j);
      j := j - 1;
    }
    assert paths[j] == paths[..][j] && (j > 0 ==> paths[j - 1] == paths[..][j - 1]);
    assert Insert(front[..j], x) == front[..j] + [x];
  }

  lemma InsertUnfolds(front: seq<Path>, x: Path, j: nat)
    requires 0 < j <= |front| && Before(x, front[j - 1])
    ensures Insert(front[..j], x) + front[j..] == Insert(front[..j - 1], x) + front[j - 1..]
  {
    assert front[..j][..j - 1] == front[..j - 1];
    assert front[j - 1..] == [front[j - 1]] + front[j..];
  }

  method SortPaths(paths: array<Path>)
    modifies paths
    ensures paths[..] == Sorted(old(paths[..]))
  {
    ghost var was := paths[..];
    for i := 0 to paths.Length
      invariant paths[..i] == Sorted(was[..i]) && paths[i..] == was[i..]
    {
      SortedLocations(was[..i + 1]);
      assert paths[i] == paths[i..][0] == was[i];
      assert paths[i + 1..] == paths[i..][1..] == was[i + 1..];
      SinkInto(paths, i);
      assert was[..i + 1][..i] == was[..i];
      assert paths[..i + 1] == paths[..][..i + 1] && paths[i + 1..] == paths[..][i + 1..];
    }
    assert was[..paths.Length] == was && paths[..paths.Length] == paths[..];
  }

  lemma PushKeepsDistinct(paths: seq<Path>, x: Path)
    requires Distinct(paths) && x !in Locations(paths)
    ensures Distinct(paths + [x])
  {
    assert forall i | 0 <= i < |paths| :: paths[i] in Locations(paths);
  }

  lemma {:induction false} InsertKeepsDistinct(sorted: seq<Path>, x: Path)
    requires Distinct(sorted) && x !in Locations(sorted)
    ensures Distinct(Insert(sorted, x))
    decreases |sorted|
  {
    if sorted == [] || !Before(x, sorted[|sorted| - 1]) {
      PushKeepsDistinct(sorted, x);
    } else {
      var front, last := sorted[..|sorted| - 1], sorted[|sorted| - 1];
      assert sorted == front + [last];
      LocationsPush(front, last);
      InsertKeepsDistinct(front, x);
      InsertLocations(front, x);
      LastIsNew(front, last);
      PushKeepsDistinct(Insert(front, x), last);
    }
  }

  lemma LastIsNew(front: seq<Path>, last: Path)
    requires Distinct(front + [last])
    ensures Distinct(front) && last !in Locations(front)
  {
    assert (front + [last])[|front|] == last;
    assert forall i | 0 <= i < |front| :: (front + [last])[i] == front[i];
  }

  lemma {:induction false} SortedKeepsDistinct(paths: seq<Path>)
    requires Distinct(paths)
    ensures Distinct(Sorted(paths))
    decreases |paths|
  {
    if paths != [] {
      var front, last := paths[..|paths| - 1], paths[|paths| - 1];
      assert paths == front + [last];
      LastIsNew(front, last);
      SortedKeepsDistinct(front);
      SortedLocations(front);
      InsertKeepsDistinct(Sorted(front), last);
    }
  }

  lemma {:induction false} BeforeIsAsymmetric(a: Path, b: Path)
    ensures !(Before(a, b) && Before(b, a))
  {
    if a != [] && b != [] {
      if a[0] == b[0] {
        BeforeIsAsymmetric(a[1..], b[1..]);
      } else {
        TextIsAsymmetric(a[0], b[0]);
      }
    }
  }

  lemma {:induction false} TextIsAsymmetric(a: string, b: string)
    ensures !(TextBelow(a, b) && TextBelow(b, a))
  {
    if a != "" && b != "" {
      TextIsAsymmetric(a[1..], b[1..]);
    }
  }

  // ---- When the sort can be trusted ----

  /** "May stand before" is transitive among the locations. */
  ghost predicate Transitive(paths: set<Path>) {
    forall a, b, c | a in paths && b in paths && c in paths && !Before(b, a) && !Before(c, b) :: !Before(c, a)
  }

  lemma PushKeepsOrder(front: seq<Path>, x: Path)
    requires InOrder(front) && forall p | p in Locations(front) :: !Before(x, p)
    ensures InOrder(front + [x])
  {
    assert forall i | 0 <= i < |front| :: front[i] in Locations(front);
  }

  lemma PushKeepsOrderBelow(front: seq<Path>, last: Path, x: Path, paths: set<Path>)
    requires InOrder(front + [last]) && !Before(x, last)
    requires Transitive(paths) && Locations(front + [last]) <= paths && x in paths
    ensures InOrder(front + [last] + [x])
  {
    LocationsPush(front, last);
    forall p | p in Locations(front + [last])
      ensures !Before(x, p)
    {
      if p != last {
        var i :| 0 <= i < |front| && front[i] == p;
        assert (front + [last])[i] == p && (front + [last])[|front|] == last;
        assert !Before(last, p);
      }
    }
    PushKeepsOrder(front + [last], x);
  }

  lemma OrderOfFront(front: seq<Path>, last: Path)
    requires InOrder(front + [last])
    ensures InOrder(front) && forall p | p in Locations(front) :: !Before(last, p)
  {
    assert forall i | 0 <= i < |front| :: (front + [last])[i] == front[i];
    assert (front + [last])[|front|] == last;
  }

  lemma {:induction false} InsertKeepsOrder(sorted: seq<Path>, x: Path, paths: set<Path>)
    requires InOrder(sorted) && Transitive(paths) && Locations(sorted) <= paths && x in paths
    ensures InOrder(Insert(sorted, x))
    decreases |sorted|
  {
    if sorted != [] {
      var last := |sorted| - 1;
      var front := sorted[..last];
      assert sorted == front + [sorted[last]];
      LocationsPush(front, sorted[last]);
      if Before(x, sorted[last]) {
        OrderOfFront(front, sorted[last]);
        InsertKeepsOrder(front, x, paths);
        InsertLocations(front, x);
        BeforeIsAsymmetric(x, sorted[last]);
        PushKeepsOrder(Insert(front, x), sorted[last]);
      } else {
        PushKeepsOrderBelow(front, sorted[last], x, paths);
      }
    }
  }

  lemma {:induction false} TransitiveSorts(paths: seq<Path>, all: set<Path>)
    requires Transitive(all) && Locations(paths) <= all
    ensures InOrder(Sorted(paths))
    decreases |paths|
  {
    if paths != [] {
      var last := |paths| - 1;
      assert forall p | p in paths[..last] :: p in paths;
      TransitiveSorts(paths[..last], all);
      SortedLocations(paths[..last]);
      assert paths[last] in Locations(paths);
      InsertKeepsOrder(Sorted(paths[..last]), paths[last], all);
    }
  }

  /** `a` stands before `c` in the list. */
  ghost predicate Precedes(paths: seq<Path>, a: Path, c: Path) {
    exists i, j :: 0 <= i < j < |paths| && paths[i] == a && paths[j] == c
  }

  lemma PairPush(front: seq<Path>, x: Path, a: Path, c: Path)
    requires Precedes(front, a, c)
    ensures Precedes(front + [x], a, c)
  {
    var i, j :| 0 <= i < j < |front| && front[i] == a && front[j] == c;
    assert (front + [x])[i] == a && (front + [x])[j] == c;
  }

  lemma PairAtEnd(front: seq<Path>, a: Path, c: Path)
    requires a in Locations(front)
    ensures Precedes(front + [c], a, c)
  {
    var i :| 0 <= i < |front| && front[i] == a;
    assert (front + [c])[i] == a && (front + [c])[|front|] == c;
  }

  lemma PairOfPush(front: seq<Path>, last: Path, a: Path, c: Path)
    requires Precedes(front + [last], a, c)
    ensures Precedes(front, a, c) || (c == last && a in Locations(front))
  {
    var all := front + [last];
    var i, j :| 0 <= i < j < |all| && all[i] == a && all[j] == c;
    assert front[i] == a;
    if j < |front| {
      assert front[j] == c;
    }
  }

  lemma {:induction false} InsertKeepsPair(sorted: seq<Path>, x: Path, a: Path, c: Path)
    requires Precedes(sorted, a, c)
    ensures Precedes(Insert(sorted, x), a, c)
    decreases |sorted|
  {
    var front, last := sorted[..|sorted| - 1], sorted[|sorted| - 1];
    assert sorted == front + [last];
    if !Before(x, last) {
      PairPush(sorted, x, a, c);
    } else {
      PairOfPush(front, last, a, c);
      InsertLocations(front, x);
      if Precedes(front, a, c) {
        InsertKeepsPair(front, x, a, c);
        PairPush(Insert(front, x), last, a, c);
      } else {
        PairAtEnd(Insert(front, x), a, c);
      }
    }
  }

  lemma {:induction false} SortKeepsPair(list: seq<Path>, n: nat, a: Path, c: Path)
    requires n <= |list| && Precedes(Sorted(list[..n]), a, c)
    ensures Precedes(Sorted(list), a, c)
    decreases |list| - n
  {
    if n == |list| {
      assert list[..n] == list;
    } else {
      OneMoreKeepsPair(list[..n], list[n], a, c);
      assert list[..n + 1] == list[..n] + [list[n]];
      SortKeepsPair(list, n + 1, a, c);
    }
  }

  lemma OneMoreKeepsPair(paths: seq<Path>, x: Path, a: Path, c: Path)
    requires Precedes(Sorted(paths), a, c)
    ensures Precedes(Sorted(paths + [x]), a, c)
  {
    InsertKeepsPair(Sorted(paths), x, a, c);
    SortedPush(paths, x);
  }

  lemma SortedPush(paths: seq<Path>, x: Path)
    ensures Sorted(paths + [x]) == Insert(Sorted(paths), x)
  {
    assert (paths + [x])[..|paths|] == paths;
  }

  /** A whole set, listed from a given start. */
  lemma ListFrom(start: seq<Path>, paths: set<Path>) returns (list: seq<Path>)
    requires Distinct(start) && Locations(start) !! paths
    ensures |start| <= |list| && list[..|start|] == start
    ensures Distinct(list) && Locations(list) == Locations(start) + paths
    decreases |paths|
  {
    list := start;
    if paths != {} {
      var p :| p in paths;
      var front := ListFrom(start, paths - {p});
      PushKeepsDistinct(front, p);
      LocationsPush(front, p);
      list := front + [p];
    }
  }

  lemma SortOfThree(a: Path, b: Path, c: Path)
    requires !Before(b, a) && !Before(c, b)
    ensures Sorted([a, b, c]) == [a, b, c]
  {
    assert [a][..0] == [] && [a, b][..1] == [a] && [a, b, c][..2] == [a, b];
    assert Sorted([a]) == [a];
    assert Sorted([a, b]) == [a, b];
  }

  lemma BrokenTripleIsDistinct(a: Path, b: Path, c: Path)
    requires !Before(b, a) && !Before(c, b) && Before(c, a)
    ensures Distinct([a, b, c]) && Locations([a, b, c]) == {a, b, c}
  {
    BeforeIsAsymmetric(c, a);
    var list := [a, b, c];
    forall p
      ensures p in Locations(list) <==> p in {a, b, c}
    {
      assert list[0] == a && list[1] == b && list[2] == c;
    }
  }

  lemma PrecedesBreaksOrder(paths: seq<Path>, a: Path, c: Path)
    requires Precedes(paths, a, c) && Before(c, a)
    ensures !InOrder(paths)
  {
  }

  /** A triple that breaks transitivity has an arrangement the sort leaves out of order. */
  lemma BrokenTriple(paths: set<Path>, a: Path, b: Path, c: Path) returns (list: seq<Path>)
    requires a in paths && b in paths && c in paths && !Before(b, a) && !Before(c, b) && Before(c, a)
    ensures Distinct(list) && Locations(list) == paths && !InOrder(Sorted(list))
  {
    BrokenTripleIsDistinct(a, b, c);
    list := ListFrom([a, b, c], paths - {a, b, c});
    TripleStaysBroken(a, b, c, list);
  }

  lemma TripleStaysBroken(a: Path, b: Path, c: Path, list: seq<Path>)
    requires !Before(b, a) && !Before(c, b) && Before(c, a)
    requires |list| >= 3 && list[..3] == [a, b, c]
    ensures !InOrder(Sorted(list))
  {
    SortOfThree(a, b, c);
    assert [a, b, c][0] == a && [a, b, c][2] == c;
    SortKeepsPair(list, 3, a, c);
    PrecedesBreaksOrder(Sorted(list), a, c);
  }

  /** The locations come out of a map in any order. */
  ghost predicate SortsEveryArrangement(paths: set<Path>) {
    forall list: seq<Path> | Distinct(list) && Locations(list) == paths :: InOrder(Sorted(list))
  }

  /** The sort yields a safe deletion order from every arrangement exactly when the comparison is transitive on
      the locations. */
  lemma SortsExactlyWhenTransitive(paths: set<Path>)
    ensures SortsEveryArrangement(paths) <==> Transitive(paths)
  {
    if Transitive(paths) {
      forall list: seq<Path> | Distinct(list) && Locations(list) == paths
        ensures InOrder(Sorted(list))
      {
        TransitiveSorts(list, paths);
      }
    } else {
      var a, b, c :| a in paths && b in paths && c in paths && !Before(b, a) && !Before(c, b) && Before(c, a);
      var list := BrokenTriple(paths, a, b, c);
    }
  }

  // ---- Siblings of one kind ----

  /** Two different keys that compare the same way: both numbers (of different value) or both not numbers. */
  predicate SameKind(a: string, b: string) {
    match (Atoi(a), Atoi(b))
    case (Some(x), Some(y)) => x != y
    case (None, None) => true
    case _ => false
  }

  predicate SiblingsAgree(p: Path, q: Path) {
    p == [] || q == [] || if p[0] == q[0] then SiblingsAgree(p[1..], q[1..]) else SameKind(p[0], q[0])
  }

  ghost predicate UniformSiblings(paths: set<Path>) {
    forall p, q | p in paths && q in paths :: SiblingsAgree(p, q)
  }

  /** Steps into one array always agree: only object keys can mix. */
  lemma ArraySiblingsAgree(length: nat, a: string, b: string)
    requires Index(length, a).Some? && Index(length, b).Some? && a != b
    ensures SameKind(a, b)
  {
  }

  lemma {:induction false} TextIsTotal(a: string, b: string)
    requires a != b
    ensures TextBelow(a, b) || TextBelow(b, a)
  {
    if a != "" && b != "" && a[0] == b[0] {
      assert a == [a[0]] + a[1..] && b == [b[0]] + b[1..];
      TextIsTotal(a[1..], b[1..]);
    }
  }

  lemma {:induction false} TextIsTransitive(a: string, b: string, c: string)
    requires TextBelow(a, b) && TextBelow(b, c)
    ensures TextBelow(a, c)
  {
    if a != "" && a[0] == b[0] && b[0] == c[0] {
      TextIsTransitive(a[1..], b[1..], c[1..]);
    }
  }

  lemma SegmentsAreTotal(a: string, b: string)
    requires a != b && SameKind(a, b)
    ensures SegmentFirst(a, b) || SegmentFirst(b, a)
  {
    if Atoi(a).None? {
      TextIsTotal(a, b);
    }
  }

  lemma SegmentsAreTransitive(a: string, b: string, c: string)
    requires a != b && b != c && a != c && SameKind(a, b) && SameKind(b, c)
    requires SegmentFirst(a, b) && SegmentFirst(b, c)
    ensures !SegmentFirst(c, a)
  {
    if Atoi(a).None? {
      TextIsTransitive(c, b, a);
      TextIsAsymmetric(a, c);
    }
  }

  lemma {:induction false} UniformTriple(a: Path, b: Path, c: Path)
    requires SiblingsAgree(a, b) && SiblingsAgree(b, c) && SiblingsAgree(a, c)
    requires !Before(b, a) && !Before(c, b)
    ensures !Before(c, a)
    decreases a
  {
    if a != [] && b != [] && c != [] {
      if a[0] == b[0] == c[0] {
        UniformTriple(a[1..], b[1..], c[1..]);
      } else if a[0] != b[0] && b[0] != c[0] {
        if a[0] != c[0] {
          SegmentsAreTotal(a[0], b[0]);
          SegmentsAreTotal(b[0], c[0]);
          SegmentsAreTransitive(a[0], b[0], c[0]);
        } else {
          SegmentsAreTotal(a[0], b[0]);
        }
      }
    }
  }

  /** Siblings of one kind are enough for the sort. */
  lemma UniformIsTransitive(paths: set<Path>)
    requires UniformSiblings(paths)
    ensures Transitive(paths)
  {
    forall a, b, c | a in paths && b in paths && c in paths && !Before(b, a) && !Before(c, b)
      ensures !Before(c, a)
    {
      UniformTriple(a, b, c);
    }
  }

  // ---- Stripping ----

  /** A way through the locations in which no step must go the other way round. */
  ghost predicate IsChain(paths: set<Path>, chain: seq<Path>) {
    Distinct(chain) && Locations(chain) <= paths && StepsInOrder(chain)
  }

  ghost predicate Chain(paths: set<Path>, a: Path, c: Path) {
    exists chain :: IsChain(paths, chain) && |chain| > 1 && chain[0] == a && chain[|chain| - 1] == c
  }

  /** No chain leads from a location to one that deleting it would move. */
  ghost predicate ChainsAreSafe(doc: Json, paths: set<Path>) {
    forall a, c | a in paths && c in paths && a != c && Chain(paths, a, c) :: Unmoved(doc, a, c)
  }

  /** Whatever order the locations are collected in, the sorted list deletes none before one it would move. */
  ghost predicate EveryArrangementIsSafe(doc: Json, paths: set<Path>) {
    forall list: seq<Path> | Distinct(list) && Locations(list) == paths :: NoneMoves(doc, Sorted(list))
  }

  ghost predicate StepsInOrder(list: seq<Path>) {
    forall k | 0 < k < |list| :: !Before(list[k], list[k - 1])
  }

  lemma PushStep(list: seq<Path>, x: Path)
    requires StepsInOrder(list) && (list == [] || !Before(x, list[|list| - 1]))
    ensures StepsInOrder(list + [x])
  {
  }

  lemma FrontSteps(list: seq<Path>)
    requires StepsInOrder(list) && list != []
    ensures StepsInOrder(list[..|list| - 1])
  {
  }

  /** Inserting into a list whose steps are in order; the last element stays last if the new one goes before it. */
  lemma {:induction false} InsertKeepsSteps(sorted: seq<Path>, x: Path)
    requires StepsInOrder(sorted)
    ensures StepsInOrder(Insert(sorted, x)) && Insert(sorted, x) != []
    ensures sorted == [] || !Before(x, sorted[|sorted| - 1]) ==> Insert(sorted, x) == sorted + [x]
    ensures Insert(sorted, x)[|Insert(sorted, x)| - 1] ==
            if sorted != [] && Before(x, sorted[|sorted| - 1]) then sorted[|sorted| - 1] else x
    decreases |sorted|
  {
    if sorted == [] || !Before(x, sorted[|sorted| - 1]) {
      PushStep(sorted, x);
    } else {
      var front, last := sorted[..|sorted| - 1], sorted[|sorted| - 1];
      FrontSteps(sorted);
      InsertKeepsSteps(front, x);
      BeforeIsAsymmetric(x, last);
      assert front != [] ==> !Before(last, front[|front| - 1]);
      PushStep(Insert(front, x), last);
    }
  }

  lemma {:induction false} SortedSteps(list: seq<Path>)
    ensures StepsInOrder(Sorted(list))
    decreases |list|
  {
    if list != [] {
      SortedSteps(list[..|list| - 1]);
      InsertKeepsSteps(Sorted(list[..|list| - 1]), list[|list| - 1]);
    }
  }

  /** A list whose steps are in order is left as it is. */
  lemma {:induction false} SortLeavesSteps(list: seq<Path>)
    requires StepsInOrder(list)
    ensures Sorted(list) == list
    decreases |list|
  {
    if list != [] {
      var front, last := list[..|list| - 1], list[|list| - 1];
      FrontSteps(list);
      SortLeavesSteps(front);
      LastStep(list);
      assert list == front + [last];
    }
  }

  /** The last element of a list whose steps are in order stays last when it is inserted. */
  lemma LastStep(list: seq<Path>)
    requires StepsInOrder(list) && list != []
    ensures Insert(list[..|list| - 1], list[|list| - 1]) == list[..|list| - 1] + [list[|list| - 1]]
  {
  }

  lemma SubChain(list: seq<Path>, i: nat, j: nat)
    requires Distinct(list) && StepsInOrder(list) && i < j < |list|
    ensures Chain(Locations(list), list[i], list[j]) && list[i] != list[j]
  {
    var chain := list[i..j + 1];
    assert forall k | 0 <= k < |chain| :: chain[k] == list[i + k];
    assert IsChain(Locations(list), chain);
  }

  lemma SafeChainsSort(doc: Json, list: seq<Path>)
    requires Distinct(list) && ChainsAreSafe(doc, Locations(list))
    ensures NoneMoves(doc, Sorted(list)) && Distinct(Sorted(list)) && Locations(Sorted(list)) == Locations(list)
  {
    SortedKeepsDistinct(list);
    SortedLocations(list);
    SortedSteps(list);
    forall i, j | 0 <= i < j < |Sorted(list)|
      ensures Unmoved(doc, Sorted(list)[i], Sorted(list)[j])
    {
      SubChain(Sorted(list), i, j);
    }
  }

  lemma ChainIsKept(doc: Json, paths: set<Path>, chain: seq<Path>)
    requires EveryArrangementIsSafe(doc, paths) && IsChain(paths, chain) && |chain| > 1
    ensures Unmoved(doc, chain[0], chain[|chain| - 1])
  {
    var list := ListFrom(chain, paths - Locations(chain));
    assert Locations(list) == paths;
    SortLeavesSteps(chain);
    var a, c := chain[0], chain[|chain| - 1];
    assert Precedes(Sorted(list[..|chain|]), a, c);
    SortKeepsPair(list, |chain|, a, c);
    var i, j :| 0 <= i < j < |Sorted(list)| && Sorted(list)[i] == a && Sorted(list)[j] == c;
    assert NoneMoves(doc, Sorted(list));
  }

  /** Main result: the sort yields a list that moves nothing from every arrangement of the locations exactly when no
      chain of comparisons leads from a location to one that its deletion moves. */
  lemma SortIsSafeExactlyWhenChainsAre(doc: Json, paths: set<Path>)
    ensures EveryArrangementIsSafe(doc, paths) <==> ChainsAreSafe(doc, paths)
  {
    if ChainsAreSafe(doc, paths) {
      forall list: seq<Path> | Distinct(list) && Locations(list) == paths
        ensures NoneMoves(doc, Sorted(list))
      {
        SafeChainsSort(doc, list);
      }
    }
    if EveryArrangementIsSafe(doc, paths) {
      forall a, c | a in paths && c in paths && a != c && Chain(paths, a, c)
        ensures Unmoved(doc, a, c)
      {
        var chain :| IsChain(paths, chain) && |chain| > 1 && chain[0] == a && chain[|chain| - 1] == c;
        ChainIsKept(doc, paths, chain);
      }
    }
  }

  /** Every order in which the locations can be collected is then deleted correctly. */
  lemma SortedDeletionRemovesAll(doc: Json, list: seq<Path>)
    requires Distinct(list) && AllExist(doc, list) && ChainsAreSafe(doc, Locations(list))
    ensures DeleteAll(doc, Sorted(list)) == Some(RemoveAll(doc, Locations(list)))
  {
    SafeChainsSort(doc, list);
    forall i | 0 <= i < |Sorted(list)|
      ensures Sorted(list)[i] != [] && Exists(doc, Sorted(list)[i])
    {
      assert Sorted(list)[i] in Locations(list);
    }
    UnmovedDeletionRemovesAll(doc, Sorted(list));
  }

  lemma {:induction false} ChainOrders(paths: set<Path>, chain: seq<Path>)
    requires Transitive(paths) && IsChain(paths, chain) && |chain| > 1
    ensures !Before(chain[|chain| - 1], chain[0])
    decreases |chain|
  {
    if |chain| > 2 {
      var front := chain[..|chain| - 1];
      assert forall k | 0 <= k < |front| :: front[k] == chain[k];
      assert Locations(front) <= Locations(chain);
      ChainOrders(paths, front);
      assert chain[0] in Locations(chain) && chain[|chain| - 2] in Locations(chain) && chain[|chain| - 1] in Locations(chain);
    }
  }

  /** A transitive comparison is safe in every document; it is not needed where the locations cannot move each other. */
  lemma TransitiveIsSafe(doc: Json, paths: set<Path>)
    requires Transitive(paths) && forall p | p in paths :: p != [] && Exists(doc, p)
    ensures ChainsAreSafe(doc, paths)
  {
    forall a, c | a in paths && c in paths && a != c && Chain(paths, a, c)
      ensures Unmoved(doc, a, c)
    {
      var chain :| IsChain(paths, chain) && |chain| > 1 && chain[0] == a && chain[|chain| - 1] == c;
      ChainOrders(paths, chain);
      OrderLeavesUnmoved(doc, a, c);
    }
  }

  /** Members of one object never move each other, however their names compare. */
  lemma MembersAreSafe(fields: map<string, Json>, paths: set<Path>)
    requires forall p | p in paths :: |p| == 1 && p[0] in fields
    ensures ChainsAreSafe(Obj(fields), paths)
  {
    forall a, c | a in paths && c in paths && a != c
      ensures Unmoved(Obj(fields), a, c)
    {
      assert a == [a[0]] && c == [c[0]];
    }
  }

  function TwoArrays(x: seq<Json>, y: seq<Json>): Json {
    Obj(map["1" := Arr(x), "01" := Arr(y)])
  }

  const MIXED_DOC := TwoArrays([Text("a"), Text("b"), Text("c")], [Text("d")])
  const MIXED_PATHS: seq<Path> := [["1", "0"], ["01", "0"], ["1", "1"]]

  /** The input that shows the condition is needed: keys "1" and "01" compare as equal numbers, so the sort leaves
      element 0 of the first array before element 1 of the same array, and the wrong element is deleted. */
  lemma MixedKeysDeleteTheWrongItem()
    ensures Distinct(MIXED_PATHS) && AllExist(MIXED_DOC, MIXED_PATHS)
    ensures Sorted(MIXED_PATHS) == MIXED_PATHS
    ensures DeleteAll(MIXED_DOC, Sorted(MIXED_PATHS)).Some?
    ensures DeleteAll(MIXED_DOC, Sorted(MIXED_PATHS)) != Some(RemoveAll(MIXED_DOC, Locations(MIXED_PATHS)))
  {
    MixedLocations();
    MixedStaysInPlace();
    MixedDeleted(Text("a"), Text("b"), Text("c"), Text("d"));
    OnlyLastStays(Locations(MIXED_PATHS));
  }

  lemma MixedStaysInPlace()
    ensures Sorted(MIXED_PATHS) == MIXED_PATHS
  {
    assert Atoi("1") == Atoi("01") == Some(1);
    SortOfThree(["1", "0"], ["01", "0"], ["1", "1"]);
  }

  lemma MixedLocations()
    ensures Distinct(MIXED_PATHS) && AllExist(MIXED_DOC, MIXED_PATHS)
    ensures ["1", "0"] in Locations(MIXED_PATHS) && ["1", "1"] in Locations(MIXED_PATHS)
    ensures ["1", "2"] !in Locations(MIXED_PATHS) && ["1"] !in Locations(MIXED_PATHS)
  {
    ThreeLocations(["1", "0"], ["01", "0"], ["1", "1"]);
    SmallIndexes();
    BothHold([Text("a"), Text("b"), Text("c")], [Text("d")]);
  }

  lemma ThreeLocations(a: Path, b: Path, c: Path)
    requires a != b && a != c && b != c
    ensures Distinct([a, b, c]) && Locations([a, b, c]) == {a, b, c}
  {
  }

  lemma BothHold(x: seq<Json>, y: seq<Json>)
    requires Index(|x|, "0").Some? && Index(|x|, "1").Some? && Index(|y|, "0").Some?
    ensures Exists(TwoArrays(x, y), ["1", "0"]) && Exists(TwoArrays(x, y), ["1", "1"]) && Exists(TwoArrays(x, y), ["01", "0"])
  {
    OneStepIn(TwoArrays(x, y).fields, x, "1", "0");
    OneStepIn(TwoArrays(x, y).fields, x, "1", "1");
    OneStepIn(TwoArrays(x, y).fields, y, "01", "0");
  }

  lemma OneStepIn(fields: map<string, Json>, items: seq<Json>, key: string, segment: string)
    requires key in fields && fields[key] == Arr(items) && Index(|items|, segment).Some?
    ensures Exists(Obj(fields), [key, segment])
  {
    assert [key, segment][1..] == [segment] && [segment][1..] == [];
    assert Exists(Arr(items), [segment]);
  }

  lemma SmallIndexes()
    ensures Index(3, "0") == Some(0) && Index(1, "0") == Some(0) && Index(2, "1") == Some(1) && Index(3, "1") == Some(1)
    ensures Itoa(0) == "0" && Itoa(1) == "1" && Itoa(2) == "2"
  {
  }

  lemma MixedSlices(a: Json, b: Json, c: Json, d: Json)
    ensures [a, b, c][..0] + [a, b, c][1..] == [b, c] && [d][..0] + [d][1..] == [] && [b, c][..1] + [b, c][2..] == [b]
  {
  }

  lemma MixedDeleted(a: Json, b: Json, c: Json, d: Json)
    ensures DeleteAll(TwoArrays([a, b, c], [d]), MIXED_PATHS) == Some(TwoArrays([b], []))
  {
    SmallIndexes();
    MixedSlices(a, b, c, d);
    DropFromFirst([a, b, c], [d], "0", 0);
    DropFromSecond([b, c], [d], "0", 0);
    DropFromFirst([b, c], [], "1", 1);
    ThreeDeletions(TwoArrays([a, b, c], [d]), TwoArrays([b, c], [d]), TwoArrays([b, c], []), TwoArrays([b], []), MIXED_PATHS);
  }

  lemma DropItem(items: seq<Json>, segment: string, i: nat)
    requires i < |items| && Index(|items|, segment) == Some(i)
    ensures Delete(Arr(items), [segment]) == Some(Arr(items[..i] + items[i + 1..]))
  {
  }

  lemma DropFromFirst(x: seq<Json>, y: seq<Json>, segment: string, i: nat)
    requires i < |x| && Index(|x|, segment) == Some(i)
    ensures Delete(TwoArrays(x, y), ["1", segment]) == Some(TwoArrays(x[..i] + x[i + 1..], y))
  {
    assert ["1", segment][1..] == [segment];
    DropItem(x, segment, i);
    var fields := TwoArrays(x, y).fields;
    assert fields["1"] == Arr(x);
    assert fields["1" := Arr(x[..i] + x[i + 1..])] == TwoArrays(x[..i] + x[i + 1..], y).fields;
  }

  lemma DropFromSecond(x: seq<Json>, y: seq<Json>, segment: string, i: nat)
    requires i < |y| && Index(|y|, segment) == Some(i)
    ensures Delete(TwoArrays(x, y), ["01", segment]) == Some(TwoArrays(x, y[..i] + y[i + 1..]))
  {
    assert ["01", segment][1..] == [segment];
    DropItem(y, segment, i);
    var fields := TwoArrays(x, y).fields;
    assert fields["01"] == Arr(y);
    assert fields["01" := Arr(y[..i] + y[i + 1..])] == TwoArrays(x, y[..i] + y[i + 1..]).fields;
  }

  lemma ThreeDeletions(a: Json, b: Json, c: Json, d: Json, paths: seq<Path>)
    requires |paths| == 3
    requires Delete(a, paths[0]) == Some(b) && Delete(b, paths[1]) == Some(c) && Delete(c, paths[2]) == Some(d)
    ensures DeleteAll(a, paths) == Some(d)
  {
    assert paths[1..][1..] == [paths[2]];
    assert [paths[2]][1..] == [];
    assert DeleteAll(c, [paths[2]]) == DeleteAll(d, []);
  }

  lemma TwoGone(items: seq<Json>, here: set<Path>)
    requires |items| == 3 && [Itoa(0)] in here && [Itoa(1)] in here && [Itoa(2)] !in here
    ensures RemoveItems(items, here, 3) == [RemoveAll(items[2], Under(here, Itoa(2)))]
  {
    assert RemoveItems(items, here, 1) == [];
    assert RemoveItems(items, here, 2) == [];
  }

  lemma OnlyLastStays(paths: set<Path>)
    requires ["1", "0"] in paths && ["1", "1"] in paths && ["1", "2"] !in paths && ["1"] !in paths
    ensures RemoveAll(MIXED_DOC, paths).fields["1"] == Arr([RemoveAll(Text("c"), Under(Under(paths, "1"), "2"))])
  {
    var here := Under(paths, "1");
    HereAre(paths, here);
    TwoGone([Text("a"), Text("b"), Text("c")], here);
    FirstArray([Text("a"), Text("b"), Text("c")], [Text("d")], paths);
  }

  lemma HereAre(paths: set<Path>, here: set<Path>)
    requires ["1", "0"] in paths && ["1", "1"] in paths && ["1", "2"] !in paths && here == Under(paths, "1")
    ensures Itoa(0) == "0" && Itoa(1) == "1" && Itoa(2) == "2"
    ensures [Itoa(0)] in here && [Itoa(1)] in here && [Itoa(2)] !in here
  {
    assert ["1"] + ["0"] == ["1", "0"] && ["1"] + ["1"] == ["1", "1"] && ["1"] + ["2"] == ["1", "2"];
    SmallIndexes();
  }

  lemma FirstArray(x: seq<Json>, y: seq<Json>, paths: set<Path>)
    requires ["1"] !in paths
    ensures RemoveAll(TwoArrays(x, y), paths).fields["1"] == Arr(RemoveItems(x, Under(paths, "1"), |x|))
  {
    assert "1" in TwoArrays(x, y).fields && TwoArrays(x, y).fields["1"] == Arr(x);
  }

  /** Pointer texts as they are kept in the selection. */
  function Pointers(paths: set<Path>): set<string> {
    set p | p in paths :: Encode(p)
  }

  /** The locations below `base`, relative to it; for the whole document all of them. */
  function Below(base: Path, paths: set<Path>): set<Path> {
    set p | p in paths && (base == [] || IsProperPrefix(base, p)) :: p[|base|..]
  }

  lemma EncodeInjective(a: Path, b: Path)
    requires Encode(a) == Encode(b)
    ensures a == b
  {
    PointerRoundTrip(a);
    PointerRoundTrip(b);
  }

  lemma BelowAdd(base: Path, done: set<Path>, p: Path)
    requires p !in done
    ensures
      if base == [] || IsProperPrefix(base, p) then
        p[|base|..] !in Below(base, done) && Below(base, done + {p}) == Below(base, done) + {p[|base|..]}
      else Below(base, done + {p}) == Below(base, done)
  {
    forall q | q in done && (base == [] || IsProperPrefix(base, q)) && (base == [] || IsProperPrefix(base, p))
      ensures q[|base|..] != p[|base|..]
    {
      assert q == q[..|base|] + q[|base|..] && p == p[..|base|] + p[|base|..];
    }
  }

  /** The pointers that are still to be looked at, and the locations already looked at. */
  function Done(paths: set<Path>, todo: set<string>): set<Path> {
    set p | p in paths && Encode(p) !in todo
  }

  lemma DoneOne(paths: set<Path>, todo: set<string>, p: Path)
    requires p in paths && Encode(p) in todo
    ensures p !in Done(paths, todo) && Done(paths, todo - {Encode(p)}) == Done(paths, todo) + {p}
  {
    forall q | q in paths && Encode(q) == Encode(p)
      ensures q == p
    {
      EncodeInjective(q, p);
    }
  }

  /** The pointer of one removal relative to `path`, if it lies below it. */
  method Relative(path: string, remove: string, ghost base: Path, ghost p: Path) returns (r: Option<Path>)
    requires path == Encode(base) && remove == Encode(p)
    ensures r == if base == [] || IsProperPrefix(base, p) then Some(p[|base|..]) else None
  {
    BelowByText(base, p);
    if path == "" {
      PointerRoundTrip(p);
      r := ParsePointer(remove);
    } else if HasPrefix(remove, path + "/") {
      TrimmedText(base, p);
      PointerRoundTrip(p[|base|..]);
      r := ParsePointer(remove[|path|..]);
    } else {
      r := None;
    }
  }

  /** The removals below `path`, in whatever order the map yields them. */
  method CollectPaths(path: string, removals: set<string>, ghost base: Path, ghost paths: set<Path>) returns (list: seq<Path>)
    requires path == Encode(base) && removals == Pointers(paths)
    ensures Distinct(list) && Locations(list) == Below(base, paths)
  {
    list := [];
    var todo := removals;
    while todo != {}
      invariant todo <= removals && Distinct(list)
      invariant Locations(list) == Below(base, Done(paths, todo))
      decreases todo
    {
      var remove :| remove in todo;
      ghost var p :| p in paths && Encode(p) == remove;
      DoneOne(paths, todo, p);
      BelowAdd(base, Done(paths, todo), p);
      var relative := Relative(path, remove, base, p);
      if relative.Some? {
        PushKeepsDistinct(list, relative.value);
        LocationsPush(list, relative.value);
        list := list + [relative.value];
      }
      todo := todo - {remove};
    }
    assert Done(paths, {}) == paths;
  }

  method ApplyDeletions(doc: Json, paths: array<Path>) returns (r: Option<Json>)
    ensures r == DeleteAll(doc, paths[..])
  {
    r := Some(doc);
    for i := 0 to paths.Length
      invariant r.Some? && DeleteAll(doc, paths[..]) == DeleteAll(r.value, paths[i..])
    {
      assert paths[i..][0] == paths[i] && paths[i..][1..] == paths[i + 1..];
      r := Delete(r.value, paths[i]);
      if r.None? {
        return;
      }
    }
  }

  /** Main result: stripping a value that holds all the located carriers leaves it without exactly those, in
      whatever order the map yields them, if no chain of comparisons leads from one to another that its deletion moves. */
  method Strip(doc: Json, path: string, removals: set<string>, ghost base: Path, ghost paths: set<Path>)
    returns (r: Option<Json>)
    requires path == Encode(base) && removals == Pointers(paths)
    ensures (forall p | p in Below(base, paths) :: p != [] && Exists(doc, p)) && ChainsAreSafe(doc, Below(base, paths)) ==>
      r == Some(RemoveAll(doc, Below(base, paths)))
  {
    var list := CollectPaths(path, removals, base, paths);
    if |list| == 0 {
      assert Locations(list) == {};
      RemoveNothing(doc);
      return Some(doc);
    }
    var sorted := new Path[|list|](i requires 0 <= i < |list| => list[i]);
    assert sorted[..] == list;
    SortPaths(sorted);
    r := ApplyDeletions(doc, sorted);
    if (forall p | p in Below(base, paths) :: p != [] && Exists(doc, p)) && ChainsAreSafe(doc, Below(base, paths)) {
      assert forall i | 0 <= i < |list| :: list[i] in Locations(list);
      SortedDeletionRemovesAll(doc, list);
    }
  }

  predicate IsAtOrBelow(base: Path, p: Path) {
    |base| <= |p| && p[..|base|] == base
  }

  /** Whether a location holds a carrier or contains one. */
  method ContainsRemoval(path: string, removals: set<string>, ghost base: Path, ghost paths: set<Path>) returns (r: bool)
    requires path == Encode(base) && removals == Pointers(paths)
    ensures r <==> exists p :: p in paths && IsAtOrBelow(base, p)
  {
    var todo := removals;
    while todo != {}
      invariant todo <= removals
      invariant forall p | p in paths && IsAtOrBelow(base, p) :: Encode(p) in todo
      decreases todo
    {
      var remove :| remove in todo;
      ghost var p :| p in paths && Encode(p) == remove;
      TestIsStructural(base, p);
      if path == "" || remove == path || HasPrefix(remove, path + "/") {
        return true;
      }
      forall q | q in paths && Encode(q) == Encode(p)
        ensures q == p
      {
        EncodeInjective(q, p);
      }
      todo := todo - {remove};
    }
    r := false;
  }

  lemma TestIsStructural(base: Path, p: Path)
    ensures (Encode(base) == "" || Encode(p) == Encode(base) || HasPrefix(Encode(p), Encode(base) + "/")) <==> IsAtOrBelow(base, p)
  {
    BelowByText(base, p);
    if Encode(p) == Encode(base) {
      EncodeInjective(p, base);
    }
    if IsAtOrBelow(base, p) && |base| == |p| {
      assert p == base;
    }
  }

  // ---- Selecting the carriers ----

  const CONTINUATION_PREFIX := "elysia-continuation.v1."

  /** One selected carrier: its token, where it was read, and what to remove. */
  datatype Candidate = Candidate(token: Json, source: string, remove: string)

  datatype Selections = Selections(tokens: seq<string>, removals: set<string>)

  /** The removal contains the location, and the location still holds the token. */
  predicate Proven(wire: Json, c: Candidate) {
    && c.remove != "" && (c.source == c.remove || HasPrefix(c.source, c.remove + "/"))
    && ParsePointer(c.source).Some? && Read(wire, ParsePointer(c.source).value) == Some(c.token)
    && c.token.Text? && HasPrefix(c.token.text, CONTINUATION_PREFIX)
  }

  function TokenBytes(items: seq<Candidate>): nat {
    if items == [] then 0
    else
      var last := items[|items| - 1];
      TokenBytes(items[..|items| - 1]) + if last.token.Text? then |last.token.text| else 0
  }

  predicate DistinctSources(items: seq<Candidate>) {
    forall i, j | 0 <= i < j < |items| :: items[i].source != items[j].source
  }

  predicate Acceptable(check: Candidate -> bool, items: seq<Candidate>, stateItems: nat, bufferBytes: nat) {
    && |items| <= stateItems && TokenBytes(items) <= bufferBytes && DistinctSources(items)
    && AllPass(check, items)
  }

  predicate AllPass(check: Candidate -> bool, items: seq<Candidate>) {
    forall i | 0 <= i < |items| :: check(items[i])
  }

  predicate HoldTokens(tokens: seq<string>, items: seq<Candidate>) {
    |tokens| == |items| && forall i | 0 <= i < |items| :: Text(tokens[i]) == items[i].token
  }

  lemma OneMorePasses(check: Candidate -> bool, items: seq<Candidate>, i: nat, tokens: seq<string>)
    requires i < |items| && AllPass(check, items[..i]) && HoldTokens(tokens, items[..i])
    ensures AllPass(check, items[..i + 1]) <==> check(items[i])
    ensures !check(items[i]) ==> !AllPass(check, items)
    ensures items[i].token.Text? ==> HoldTokens(tokens + [items[i].token.text], items[..i + 1])
  {
    assert items[..i + 1] == items[..i] + [items[i]];
  }

  lemma {:induction false} TokenBytesGrow(items: seq<Candidate>, n: nat)
    requires n <= |items|
    ensures TokenBytes(items[..n]) <= TokenBytes(items)
    decreases |items|
  {
    if n < |items| {
      TokenBytesGrow(items[..|items| - 1], n);
      assert items[..|items| - 1][..n] == items[..n];
    } else {
      assert items[..n] == items;
    }
  }

  function Sources(items: seq<Candidate>): set<string> {
    set c | c in items :: c.source
  }

  function Removals(items: seq<Candidate>): set<string> {
    set c | c in items :: c.remove
  }

  lemma OneMoreCandidate(items: seq<Candidate>, i: nat)
    requires i < |items|
    ensures Sources(items[..i + 1]) == Sources(items[..i]) + {items[i].source}
    ensures Removals(items[..i + 1]) == Removals(items[..i]) + {items[i].remove}
    ensures TokenBytes(items[..i + 1]) == TokenBytes(items[..i]) + if items[i].token.Text? then |items[i].token.text| else 0
  {
    assert items[..i + 1] == items[..i] + [items[i]];
    assert items[..i + 1][..i] == items[..i];
    assert forall c :: c in items[..i + 1] <==> c in items[..i] || c == items[i];
  }

  lemma SourceRepeats(items: seq<Candidate>, i: nat)
    requires i < |items| && DistinctSources(items[..i])
    ensures DistinctSources(items[..i + 1]) <==> items[i].source !in Sources(items[..i])
    ensures items[i].source in Sources(items[..i]) ==> !DistinctSources(items)
  {
    assert forall k | 0 <= k < i :: items[..i][k] == items[k] && items[..i][k] in items[..i];
    assert forall k | 0 <= k <= i :: items[..i + 1][k] == items[k];
  }

  /** Accepts a selection exactly when every token is proven where it claims to be, no location repeats and both
      budgets hold. */
  method SelectCandidates(check: Candidate -> bool, items: seq<Candidate>, stateItems: nat, bufferBytes: nat)
    returns (r: Option<Selections>)
    requires forall c :: check(c) ==> c.token.Text?
    ensures r.Some? <==> items == [] || Acceptable(check, items, stateItems, bufferBytes)
    ensures r.Some? && items != [] ==>
      HoldTokens(r.value.tokens, items) && r.value.removals == Removals(items)
  {
    if |items| == 0 {
      return Some(Selections([], {}));
    }
    if |items| > stateItems {
      return None;
    }
    var tokens: seq<string>, removals: set<string>, seen: set<string>, bytes := [], {}, {}, 0;
    for i := 0 to |items|
      invariant DistinctSources(items[..i]) && AllPass(check, items[..i]) && HoldTokens(tokens, items[..i])
      invariant bytes == TokenBytes(items[..i]) <= bufferBytes
      invariant seen == Sources(items[..i]) && removals == Removals(items[..i])
    {
      var c := items[i];
      SourceRepeats(items, i);
      OneMorePasses(check, items, i, tokens);
      if !check(c) || c.source in seen {
        return None;
      }
      OneMoreCandidate(items, i);
      bytes := bytes + |c.token.text|;
      if bytes > bufferBytes {
        TokenBytesGrow(items, i + 1);
        return None;
      }
      seen, tokens, removals := seen + {c.source}, tokens + [c.token.text], removals + {c.remove};
    }
    assert items[..|items|] == items;
    r := Some(Selections(tokens, removals));
  }

  method ReadContinuationSelections(wire: Json, items: seq<Candidate>, stateItems: nat, bufferBytes: nat)
    returns (r: Option<Selections>)
    ensures r.Some? <==> items == [] || Acceptable(c => Proven(wire, c), items, stateItems, bufferBytes)
    ensures r.Some? && items != [] ==>
      HoldTokens(r.value.tokens, items) && r.value.removals == Removals(items)
  {
    r := SelectCandidates(c => Proven(wire, c), items, stateItems, bufferBytes);
  }

  /** What an accepted selection gives stripping: every removal is an existing location below the root. */
  lemma AcceptedRemovalsExist(wire: Json, c: Candidate, source: Path, remove: Path)
    requires Proven(wire, c) && c.source == Encode(source) && c.remove == Encode(remove)
    ensures remove != [] && Exists(wire, remove)
  {
    TestIsStructural(remove, source);
    PointerRoundTrip(source);
    PrefixExists(wire, source, |remove|);
  }
}
