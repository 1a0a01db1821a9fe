/** Removing the carriers of continuation tokens from a request: the locations are sorted and deleted one by
    one, which must amount to removing them all at once although every array deletion shifts later elements. */
module ContinuationStrip {
  import opened Options
  import opened Sequences
  import opened JsonPointers

  // ---- Deletion ----

  /** Deletion of one location (section 4.2 of RFC 6902). The root cannot be deleted. */
  function Delete(doc: Json, path: Path): (r: Option<Json>)
    ensures r.Some? <==> path != [] && Exists(doc, path)
    decreases path
  {
    if path == [] then None
    else
      match doc
      case Obj(fields) => DeleteMember(fields, path)
      case Arr(items) => DeleteItem(items, path)
      case _ => None
  }

  function DeleteMember(fields: map<string, Json>, path: Path): (r: Option<Json>)
    requires path != []
    ensures r.Some? <==> Exists(Obj(fields), path)
    decreases path, 0
  {
    var key := path[0];
    if key !in fields then None
    else if |path| == 1 then Some(Obj(fields - {key}))
    else
      match Delete(fields[key], path[1..])
      case None => None
      case Some(child) => Some(Obj(fields[key := child]))
  }

  function DeleteItem(items: seq<Json>, path: Path): (r: Option<Json>)
    requires path != []
    ensures r.Some? <==> Exists(Arr(items), path)
    decreases path, 0
  {
    match Index(|items|, path[0])
    case None => None
    case Some(i) =>
      if |path| == 1 then Some(Arr(items[..i] + items[i + 1..]))
      else
        match Delete(items[i], path[1..])
        case None => None
        case Some(child) => Some(Arr(items[i := child]))
  }

  function DeleteAll(doc: Json, paths: seq<Path>): Option<Json>
    decreases |paths|
  {
    if paths == [] then Some(doc)
    else
      match Delete(doc, paths[0])
      case None => None
      case Some(next) => DeleteAll(next, paths[1..])
  }

  // ---- Removal of a set of locations at once ----

  function Under(paths: set<Path>, key: string): (r: set<Path>)
    ensures forall rest :: rest in r <==> [key] + rest in paths
  {
    var r := set p | p in paths && p != [] && p[0] == key :: p[1..];
    assert forall rest | [key] + rest in paths :: ([key] + rest)[1..] == rest;
    assert forall p | p in paths && p != [] && p[0] == key :: p == [key] + p[1..];
    r
  }

  /** The document without the given locations, all of them read in the original document. */
  function RemoveAll(doc: Json, paths: set<Path>): Json
    decreases doc, 0
  {
    match doc
    case Obj(fields) => Obj(map key | key in fields && [key] !in paths :: RemoveAll(fields[key], Under(paths, key)))
    case Arr(items) => Arr(RemoveItems(items, paths, |items|))
    case _ => doc
  }

  /** What is left of the first `n` items. */
  function RemoveItems(items: seq<Json>, paths: set<Path>, n: nat): seq<Json>
    requires n <= |items|
    decreases items, n
  {
    if n == 0 then []
    else
      var segment := Itoa(n - 1);
      RemoveItems(items, paths, n - 1) +
      if [segment] in paths then [] else [RemoveAll(items[n - 1], Under(paths, segment))]
  }

  // ---- The order of deletion ----

  /** Lexicographic order of key text. */
  predicate TextBelow(a: string, b: string) {
    b != "" && (a == "" || a[0] < b[0] || (a[0] == b[0] && TextBelow(a[1..], b[1..])))
  }

  /** The comparison of two different segments: larger index first, otherwise larger text first. */
  predicate SegmentFirst(a: string, b: string) {
    match (Atoi(a), Atoi(b))
    case (Some(x), Some(y)) => x > y
    case _ => TextBelow(b, a)
  }

  /** `a` must be deleted before `b`. */
  predicate Before(a: Path, b: Path) {
    if a == [] || b == [] then |a| > |b|
    else if a[0] == b[0] then Before(a[1..], b[1..])
    else SegmentFirst(a[0], b[0])
  }

  method ComparePaths(left: Path, right: Path) returns (isBefore: bool)
    ensures isBefore == Before(left, right)
  {
    var k := 0;
    while k < |left| && k < |right|
      invariant k <= |left| && k <= |right|
      invariant Before(left, right) == Before(left[k..], right[k..])
    {
      if left[k] != right[k] {
        match (Atoi(left[k]), Atoi(right[k])) {
          case (Some(a), Some(b)) => return a > b;
          case _ => return TextBelow(right[k], left[k]);
        }
      }
      assert left[k..][1..] == left[k + 1..] && right[k..][1..] == right[k + 1..];
      k := k + 1;
    }
    isBefore := |left| > |right|;
  }

  /** Deleting `p` leaves location `q` where it is. */
  predicate Unmoved(doc: Json, p: Path, q: Path)
    decreases p
  {
    Exists(doc, p) && Exists(doc, q) && p != [] && q != [] &&
    match doc
    case Obj(fields) =>
      p[0] == q[0] ==> |p| > 1 && (|q| == 1 || Unmoved(fields[p[0]], p[1..], q[1..]))
    case Arr(items) =>
      if p[0] == q[0] then
        |p| > 1 && (|q| == 1 || Unmoved(items[Index(|items|, p[0]).value], p[1..], q[1..]))
      else Index(|items|, q[0]).value < Index(|items|, p[0]).value
    case _ => true
  }

  /** The order never deletes a location before one it would move. */
  lemma {:induction false} OrderLeavesUnmoved(doc: Json, p: Path, q: Path)
    requires Exists(doc, p) && Exists(doc, q) && p != [] && q != [] && p != q
    requires !Before(q, p)
    ensures Unmoved(doc, p, q)
    decreases p
  {
    if p[0] == q[0] {
      assert p == [p[0]] + p[1..] && q == [q[0]] + q[1..];
      if |q| > 1 && |p| > 1 {
        match doc
        case Obj(fields) => OrderLeavesUnmoved(fields[p[0]], p[1..], q[1..]);
        case Arr(items) => OrderLeavesUnmoved(items[Index(|items|, p[0]).value], p[1..], q[1..]);
      }
    }
  }

  // ---- One deletion ----

  lemma {:induction false} RemoveNothing(doc: Json)
    ensures RemoveAll(doc, {}) == doc
    decreases doc, 0
  {
    match doc
    case Obj(fields) =>
      forall key | key in fields
        ensures RemoveAll(fields[key], Under({}, key)) == fields[key]
      {
        UnderNothing(key);
        RemoveNothing(fields[key]);
      }
    case Arr(items) => RemoveNoItems(items, {}, |items|, 0);
    case _ =>
  }

  lemma UnderNothing(key: string)
    ensures Under({}, key) == {}
  {
    forall rest
      ensures rest !in Under({}, key)
    {
    }
  }

  /** No location names an item from `from` on. */
  ghost predicate NothingFrom(paths: set<Path>, from: nat) {
    forall i: nat, rest: Path | i >= from :: [Itoa(i)] + rest !in paths
  }

  lemma UnderUnnamed(paths: set<Path>, from: nat, i: nat)
    requires NothingFrom(paths, from) && from <= i
    ensures Under(paths, Itoa(i)) == {} && [Itoa(i)] !in paths
  {
    assert [Itoa(i)] + [] == [Itoa(i)];
    forall rest
      ensures rest !in Under(paths, Itoa(i))
    {
      assert [Itoa(i)] + rest !in paths;
    }
  }

  lemma OneMoreItem(items: seq<Json>, from: nat, n: nat)
    requires from < n <= |items|
    ensures items[from..n] == items[from..n - 1] + [items[n - 1]]
  {
  }

  /** Items that no location names stay. */
  lemma {:induction false} RemoveNoItems(items: seq<Json>, paths: set<Path>, n: nat, from: nat)
    requires from <= n <= |items| && NothingFrom(paths, from)
    ensures RemoveItems(items, paths, n) == RemoveItems(items, paths, from) + items[from..n]
    decreases items, n
  {
    if n > from {
      RemoveNoItems(items, paths, n - 1, from);
      UnderUnnamed(paths, from, n - 1);
      RemoveNothing(items[n - 1]);
      OneMoreItem(items, from, n);
    }
  }

  lemma UnderAdd(paths: set<Path>, p: Path, key: string)
    requires p != []
    ensures Under(paths + {p}, key) == if p[0] == key then Under(paths, key) + {p[1..]} else Under(paths, key)
  {
    var more := Under(paths + {p}, key);
    assert p == [p[0]] + p[1..];
    forall rest
      ensures rest in more <==> rest in if p[0] == key then Under(paths, key) + {p[1..]} else Under(paths, key)
    {
      assert ([key] + rest)[1..] == rest;
    }
  }

  /** Every other location stays where it is when `p` is deleted. */
  ghost predicate AllUnmoved(doc: Json, p: Path, paths: set<Path>) {
    forall q | q in paths :: Unmoved(doc, p, q)
  }

  /** Deleting `p` and then removing the rest is removing them all at once. */
  ghost predicate DeletedFirst(doc: Json, p: Path, paths: set<Path>)
    requires p != [] && Exists(doc, p)
  {
    RemoveAll(doc, paths + {p}) == RemoveAll(Delete(doc, p).value, paths)
  }

  lemma MemberDeleted(fields: map<string, Json>, p: Path, paths: set<Path>)
    requires |p| == 1 && p[0] in fields && AllUnmoved(Obj(fields), p, paths)
    ensures DeletedFirst(Obj(fields), p, paths)
  {
    var key := p[0];
    assert p == [key];
    forall other | other in fields && other != key
      ensures Under(paths + {p}, other) == Under(paths, other)
    {
      UnderAdd(paths, p, other);
    }
    assert p !in paths;
  }

  lemma MemberDescended(fields: map<string, Json>, p: Path, paths: set<Path>)
    requires |p| > 1 && Exists(Obj(fields), p) && AllUnmoved(Obj(fields), p, paths)
    requires [p[0]] !in paths ==> DeletedFirst(fields[p[0]], p[1..], Under(paths, p[0]))
    ensures DeletedFirst(Obj(fields), p, paths)
  {
    var next := fields[p[0] := Delete(fields[p[0]], p[1..]).value];
    forall key | key in fields && [key] !in paths
      ensures RemoveAll(fields[key], Under(paths + {p}, key)) == RemoveAll(next[key], Under(paths, key))
    {
      UnderAdd(paths, p, key);
    }
    MembersAgree(fields, paths + {p}, next, paths);
  }

  lemma MembersAgree(a: map<string, Json>, aPaths: set<Path>, b: map<string, Json>, bPaths: set<Path>)
    requires a.Keys == b.Keys && forall key | key in a :: [key] in aPaths <==> [key] in bPaths
    requires forall key | key in a && [key] !in aPaths ::
      RemoveAll(a[key], Under(aPaths, key)) == RemoveAll(b[key], Under(bPaths, key))
    ensures RemoveAll(Obj(a), aPaths) == RemoveAll(Obj(b), bPaths)
  {
  }

  predicate ItemAgrees(a: Json, aPaths: set<Path>, b: Json, bPaths: set<Path>, i: nat) {
    var segment := Itoa(i);
    ([segment] in aPaths <==> [segment] in bPaths) &&
    ([segment] !in aPaths ==> RemoveAll(a, Under(aPaths, segment)) == RemoveAll(b, Under(bPaths, segment)))
  }

  lemma {:induction false} ItemsAgree(a: seq<Json>, aPaths: set<Path>, b: seq<Json>, bPaths: set<Path>, n: nat)
    requires n <= |a| && n <= |b| && forall i | 0 <= i < n :: ItemAgrees(a[i], aPaths, b[i], bPaths, i)
    ensures RemoveItems(a, aPaths, n) == RemoveItems(b, bPaths, n)
    decreases n
  {
    if n > 0 {
      ItemsAgree(a, aPaths, b, bPaths, n - 1);
      assert ItemAgrees(a[n - 1], aPaths, b[n - 1], bPaths, n - 1);
    }
  }

  lemma ItoaInjective(a: nat, b: nat)
    requires Itoa(a) == Itoa(b)
    ensures a == b
  {
    assert Number(Itoa(a)) == a && Number(Itoa(b)) == b;
  }

  lemma IndexOfItoa(length: nat, i: nat)
    ensures Index(length, Itoa(i)).Some? ==> Index(length, Itoa(i)).value == i
  {
    if Index(length, Itoa(i)).Some? {
      ItoaInjective(Index(length, Itoa(i)).value, i);
    }
  }

  lemma OthersAgree(item: Json, p: Path, paths: set<Path>, i: nat, j: nat)
    requires p != [] && p[0] == Itoa(i) && i != j
    ensures ItemAgrees(item, paths + {p}, item, paths, j)
  {
    if Itoa(i) == Itoa(j) {
      ItoaInjective(i, j);
    }
    UnderAdd(paths, p, Itoa(j));
  }

  lemma UnmovedIsEarlier(items: seq<Json>, p: Path, i: nat, rest: Path, j: nat)
    requires |p| == 1 && Index(|items|, p[0]) == Some(i) && Unmoved(Arr(items), p, [Itoa(j)] + rest)
    ensures j < i
  {
    IndexOfItoa(|items|, j);
  }

  lemma NothingBeyond(items: seq<Json>, p: Path, paths: set<Path>, i: nat)
    requires |p| == 1 && Index(|items|, p[0]) == Some(i) && AllUnmoved(Arr(items), p, paths)
    ensures NothingFrom(paths, i)
  {
    forall j: nat, rest: Path | j >= i
      ensures [Itoa(j)] + rest !in paths
    {
      var q := [Itoa(j)] + rest;
      if q in paths {
        UnmovedIsEarlier(items, p, i, rest, j);
      }
    }
  }

  lemma NothingAfter(paths: set<Path>, p: Path, i: nat)
    requires p == [Itoa(i)] && NothingFrom(paths, i)
    ensures NothingFrom(paths + {p}, i + 1)
  {
    forall j: nat, rest: Path | j >= i + 1
      ensures [Itoa(j)] + rest !in paths + {p}
    {
      if [Itoa(j)] + rest == p {
        assert p[0] == Itoa(j);
        ItoaInjective(i, j);
      }
    }
  }

  lemma ItemDeleted(items: seq<Json>, p: Path, paths: set<Path>, i: nat)
    requires |p| == 1 && Index(|items|, p[0]) == Some(i) && AllUnmoved(Arr(items), p, paths)
    ensures DeletedFirst(Arr(items), p, paths)
  {
    assert p == [Itoa(i)];
    NothingBeyond(items, p, paths, i);
    TailShifts(items, items[..i] + items[i + 1..], p, paths, i);
  }

  lemma WithoutOne<T>(items: seq<T>, i: nat)
    requires i < |items|
    ensures var next := items[..i] + items[i + 1..];
            |next| == |items| - 1 && next[..i] == items[..i] && next[i..|next|] == items[i + 1..|items|]
  {
  }

  /** Items behind the deleted one move down and stay. */
  lemma TailShifts(items: seq<Json>, next: seq<Json>, p: Path, paths: set<Path>, i: nat)
    requires i < |items| && p == [Itoa(i)] && NothingFrom(paths, i)
    requires next == items[..i] + items[i + 1..]
    ensures RemoveItems(items, paths + {p}, |items|) == RemoveItems(next, paths, |next|)
  {
    NothingAfter(paths, p, i);
    RemoveNoItems(items, paths + {p}, |items|, i + 1);
    RemoveNoItems(next, paths, |next|, i);
    WithoutOne(items, i);
    FrontAgrees(items, next, p, paths, i);
  }

  lemma FrontAgrees(items: seq<Json>, next: seq<Json>, p: Path, paths: set<Path>, i: nat)
    requires i < |items| && i <= |next| && items[..i] == next[..i] && p == [Itoa(i)]
    ensures RemoveItems(items, paths + {p}, i + 1) == RemoveItems(next, paths, i)
  {
    forall j | 0 <= j < i
      ensures ItemAgrees(items[j], paths + {p}, next[j], paths, j)
    {
      assert items[..i][j] == next[..i][j];
      OthersAgree(items[j], p, paths, i, j);
    }
    ItemsAgree(items, paths + {p}, next, paths, i);
    assert RemoveItems(items, paths + {p}, i + 1) == RemoveItems(items, paths + {p}, i) + [];
  }

  lemma ItemDescended(items: seq<Json>, p: Path, paths: set<Path>, i: nat)
    requires |p| > 1 && Index(|items|, p[0]) == Some(i) && Exists(Arr(items), p) && AllUnmoved(Arr(items), p, paths)
    requires [p[0]] !in paths ==> DeletedFirst(items[i], p[1..], Under(paths, p[0]))
    ensures DeletedFirst(Arr(items), p, paths)
  {
    var next := items[i := Delete(items[i], p[1..]).value];
    forall j | 0 <= j < |items|
      ensures ItemAgrees(items[j], paths + {p}, next[j], paths, j)
    {
      if j == i {
        UnderAdd(paths, p, p[0]);
      } else {
        OthersAgree(items[j], p, paths, i, j);
      }
    }
    ItemsAgree(items, paths + {p}, next, paths, |items|);
  }

  lemma ChildUnmoved(doc: Json, child: Json, p: Path, paths: set<Path>)
    requires |p| > 1 && Exists(doc, p) && AllUnmoved(doc, p, paths) && [p[0]] !in paths
    requires doc.Obj? ==> child == doc.fields[p[0]]
    requires doc.Arr? ==> child == doc.items[Index(|doc.items|, p[0]).value]
    ensures AllUnmoved(child, p[1..], Under(paths, p[0]))
  {
    assert [p[0]] + [] == [p[0]];
    forall rest | rest in Under(paths, p[0])
      ensures Unmoved(child, p[1..], rest)
    {
      var q := [p[0]] + rest;
      assert Unmoved(doc, p, q);
      assert q[1..] == rest;
    }
  }

  lemma {:induction false} OneDeletion(doc: Json, p: Path, paths: set<Path>)
    requires p != [] && Exists(doc, p) && AllUnmoved(doc, p, paths)
    ensures DeletedFirst(doc, p, paths)
    decreases p
  {
    match doc
    case Obj(fields) =>
      if |p| == 1 {
        MemberDeleted(fields, p, paths);
      } else {
        if [p[0]] !in paths {
          ChildUnmoved(doc, fields[p[0]], p, paths);
          OneDeletion(fields[p[0]], p[1..], Under(paths, p[0]));
        }
        MemberDescended(fields, p, paths);
      }
    case Arr(items) =>
      var i := Index(|items|, p[0]).value;
      if |p| == 1 {
        ItemDeleted(items, p, paths, i);
      } else {
        if [p[0]] !in paths {
          ChildUnmoved(doc, items[i], p, paths);
          OneDeletion(items[i], p[1..], Under(paths, p[0]));
        }
        ItemDescended(items, p, paths, i);
      }
  }

  lemma {:induction false} StillThere(doc: Json, p: Path, q: Path)
    requires Unmoved(doc, p, q)
    ensures Exists(Delete(doc, p).value, q)
    decreases p
  {
    if p[0] == q[0] && |q| > 1 {
      match doc
      case Obj(fields) => StillThere(fields[p[0]], p[1..], q[1..]);
      case Arr(items) => StillThere(items[Index(|items|, p[0]).value], p[1..], q[1..]);
    }
  }

  // ---- The whole list ----

  /** No location of the list must be deleted before an earlier one. */
  predicate InOrder(paths: seq<Path>) {
    forall i, j | 0 <= i < j < |paths| :: !Before(paths[j], paths[i])
  }

  predicate AllExist(doc: Json, paths: seq<Path>) {
    forall i | 0 <= i < |paths| :: paths[i] != [] && Exists(doc, paths[i])
  }

  function Locations(paths: seq<Path>): set<Path> {
    set p | p in paths
  }

  /** No deletion of the list moves or removes a location that comes later in it. */
  predicate NoneMoves(doc: Json, paths: seq<Path>) {
    forall i, j | 0 <= i < j < |paths| :: Unmoved(doc, paths[i], paths[j])
  }

  lemma KeptMember(fields: map<string, Json>, p: Path, q: Path)
    requires Unmoved(Obj(fields), p, q) && p[0] != q[0]
    ensures
      var next := Delete(Obj(fields), p).value;
      next.Obj? && q[0] in fields && q[0] in next.fields && next.fields[q[0]] == fields[q[0]]
  {
    assert Delete(Obj(fields), p) == DeleteMember(fields, p);
  }

  lemma KeptItem(items: seq<Json>, p: Path, q: Path)
    requires Unmoved(Arr(items), p, q) && p[0] != q[0]
    ensures
      var next := Delete(Arr(items), p).value;
      && next.Arr? && Index(|items|, q[0]).Some? && Index(|next.items|, q[0]) == Index(|items|, q[0])
      && next.items[Index(|items|, q[0]).value] == items[Index(|items|, q[0]).value]
  {
    assert Delete(Arr(items), p) == DeleteItem(items, p);
  }

  lemma ChangedMember(fields: map<string, Json>, p: Path)
    requires |p| > 1 && Exists(Obj(fields), p)
    ensures
      var next := Delete(Obj(fields), p).value;
      && next.Obj? && p[0] in fields && p[0] in next.fields
      && next.fields[p[0]] == Delete(fields[p[0]], p[1..]).value && next.fields.Keys == fields.Keys
  {
    assert Delete(Obj(fields), p) == DeleteMember(fields, p);
  }

  lemma ChangedItem(items: seq<Json>, p: Path)
    requires |p| > 1 && Exists(Arr(items), p)
    ensures
      var next := Delete(Arr(items), p).value;
      && next.Arr? && |next.items| == |items| && Index(|items|, p[0]).Some?
      && next.items[Index(|items|, p[0]).value] == Delete(items[Index(|items|, p[0]).value], p[1..]).value
  {
    assert Delete(Arr(items), p) == DeleteItem(items, p);
  }

  lemma StaysUnmovedMember(fields: map<string, Json>, p: Path, q: Path, r: Path)
    requires Unmoved(Obj(fields), p, q) && Unmoved(Obj(fields), p, r) && Unmoved(Obj(fields), q, r)
    requires q[0] == r[0] == p[0] && |r| > 1 ==> Unmoved(Delete(fields[p[0]], p[1..]).value, q[1..], r[1..])
    ensures Unmoved(Delete(Obj(fields), p).value, q, r)
  {
    StillThere(Obj(fields), p, q);
    StillThere(Obj(fields), p, r);
    if q[0] == p[0] || r[0] == p[0] { ChangedMember(fields, p); }
    if q[0] != p[0] { KeptMember(fields, p, q); }
    if r[0] != p[0] { KeptMember(fields, p, r); }
  }

  lemma StaysUnmovedItem(items: seq<Json>, p: Path, q: Path, r: Path)
    requires Unmoved(Arr(items), p, q) && Unmoved(Arr(items), p, r) && Unmoved(Arr(items), q, r)
    requires q[0] == r[0] == p[0] && |r| > 1 ==>
      Unmoved(Delete(items[Index(|items|, p[0]).value], p[1..]).value, q[1..], r[1..])
    ensures Unmoved(Delete(Arr(items), p).value, q, r)
  {
    StillThere(Arr(items), p, q);
    StillThere(Arr(items), p, r);
    if q[0] == p[0] || r[0] == p[0] { ChangedItem(items, p); }
    if q[0] != p[0] { KeptItem(items, p, q); }
    if r[0] != p[0] { KeptItem(items, p, r); }
  }

  /** A deletion that moves neither of two locations leaves how they stand to each other. */
  lemma {:induction false} StaysUnmoved(doc: Json, p: Path, q: Path, r: Path)
    requires Unmoved(doc, p, q) && Unmoved(doc, p, r) && Unmoved(doc, q, r)
    ensures Unmoved(Delete(doc, p).value, q, r)
    decreases p
  {
    match doc
    case Obj(fields) =>
      if q[0] == r[0] == p[0] && |r| > 1 {
        StaysUnmoved(fields[p[0]], p[1..], q[1..], r[1..]);
      }
      StaysUnmovedMember(fields, p, q, r);
    case Arr(items) =>
      if q[0] == r[0] == p[0] && |r| > 1 {
        StaysUnmoved(items[Index(|items|, p[0]).value], p[1..], q[1..], r[1..]);
      }
      StaysUnmovedItem(items, p, q, r);
  }

  /** Main result: any list of distinct locations of which none moves a later one, deleted one by one, leaves the
      document without all of them as they stood in the original, nested and shifting ones included. */
  lemma {:induction false} UnmovedDeletionRemovesAll(doc: Json, paths: seq<Path>)
    requires Distinct(paths) && AllExist(doc, paths) && NoneMoves(doc, paths)
    ensures DeleteAll(doc, paths) == Some(RemoveAll(doc, Locations(paths)))
    decreases |paths|
  {
    if paths == [] {
      assert Locations(paths) == {};
      RemoveNothing(doc);
    } else {
      FirstMovesNone(doc, paths);
      OneDeletion(doc, paths[0], Locations(paths[1..]));
      LocationsOf(paths);
      UnmovedDeletionRemovesAll(Delete(doc, paths[0]).value, paths[1..]);
    }
  }

  lemma LocationsOf(paths: seq<Path>)
    requires paths != []
    ensures Locations(paths) == Locations(paths[1..]) + {paths[0]}
  {
  }

  lemma FirstMovesNone(doc: Json, paths: seq<Path>)
    requires paths != [] && Distinct(paths) && AllExist(doc, paths) && NoneMoves(doc, paths)
    ensures AllUnmoved(doc, paths[0], Locations(paths[1..]))
    ensures Delete(doc, paths[0]).Some? && AllExist(Delete(doc, paths[0]).value, paths[1..])
    ensures Distinct(paths[1..]) && NoneMoves(Delete(doc, paths[0]).value, paths[1..])
  {
    var p, rest := paths[0], paths[1..];
    forall i | 0 <= i < |rest|
      ensures rest[i] != [] && Unmoved(doc, p, rest[i]) && Exists(Delete(doc, p).value, rest[i])
    {
      assert rest[i] == paths[i + 1];
      StillThere(doc, p, rest[i]);
    }
    forall i, j | 0 <= i < j < |rest|
      ensures Unmoved(Delete(doc, p).value, rest[i], rest[j])
    {
      assert rest[i] == paths[i + 1] && rest[j] == paths[j + 1];
      StaysUnmoved(doc, p, rest[i], rest[j]);
    }
  }

  /** Main result: an ordered list moves nothing, so deleting it one by one removes the whole set at once. */
  lemma OrderedDeletionRemovesAll(doc: Json, paths: seq<Path>)
    requires Distinct(paths) && InOrder(paths) && AllExist(doc, paths)
    ensures NoneMoves(doc, paths) && DeleteAll(doc, paths) == Some(RemoveAll(doc, Locations(paths)))
  {
    forall i, j | 0 <= i < j < |paths|
      ensures Unmoved(doc, paths[i], paths[j])
    {
      OrderLeavesUnmoved(doc, paths[i], paths[j]);
    }
    UnmovedDeletionRemovesAll(doc, paths);
  }
}
