/** Rearranging the roots of a conversation's content: moving selected roots to the front, combining the children of
    adjacent containers, grouping runs into one container, and taking selected children out of theirs. */
module ContentLayout {
  import opened Options
  import opened Sequences

  const MESSAGE := "message"

  /** `other` stands for the fields that make a container more than a list of children: ids, name, status, input,
      reasoning, metadata, cache, resources and attributes. */
  datatype Node = Node(
    kind: string, role: string, payload: string, other: string, children: seq<Node>, source: string, native: string)

  predicate IsPlain(n: Node) {
    n.payload == "" && n.other == ""
  }

  predicate IsPlainMessage(n: Node) {
    n.kind == MESSAGE && IsPlain(n)
  }

  // ---- Flattening: what must not be lost or reordered ----

  /** A unit of content and the role it is said in; no role for a root that is not in a container. */
  datatype Unit = Unit(role: Option<string>, node: Node)

  function InRole(role: string, children: seq<Node>): (r: seq<Unit>)
    ensures |r| == |children| && forall i | 0 <= i < |r| :: r[i] == Unit(Some(role), children[i])
  {
    seq(|children|, i requires 0 <= i < |children| => Unit(Some(role), children[i]))
  }

  function UnitsOf(n: Node, isContainer: Node -> bool): seq<Unit> {
    if isContainer(n) then InRole(n.role, n.children) else [Unit(None, n)]
  }

  function Units(content: seq<Node>, isContainer: Node -> bool): seq<Unit> {
    if content == [] then []
    else Units(content[..|content| - 1], isContainer) + UnitsOf(content[|content| - 1], isContainer)
  }

  lemma {:induction false} UnitsConcat(a: seq<Node>, b: seq<Node>, isContainer: Node -> bool)
    ensures Units(a + b, isContainer) == Units(a, isContainer) + Units(b, isContainer)
    decreases |b|
  {
    ConcatFront(a, b);
    if b != [] {
      UnitsConcat(a, b[..|b| - 1], isContainer);
    }
  }

  lemma ConcatFront<T>(a: seq<T>, b: seq<T>)
    ensures b == [] ==> a + b == a
    ensures b != [] ==> (a + b)[..|a + b| - 1] == a + b[..|b| - 1] && (a + b)[|a + b| - 1] == b[|b| - 1]
  {
  }

  lemma UnitsOfOne(n: Node, isContainer: Node -> bool)
    ensures Units([n], isContainer) == UnitsOf(n, isContainer)
  {
    assert [n][..0] == [];
  }

  // ---- Moving selected roots to the front ----

  /** The roots with the given verdict, in order. */
  function Chosen(content: seq<Node>, selected: seq<bool>, verdict: bool): seq<Node>
    requires |content| == |selected|
  {
    if content == [] then []
    else
      var last := |content| - 1;
      Chosen(content[..last], selected[..last], verdict) + if selected[last] == verdict then [content[last]] else []
  }

  lemma {:induction false} ChosenSplit(content: seq<Node>, selected: seq<bool>, verdict: bool, k: nat)
    requires |content| == |selected| && k <= |content|
    ensures Chosen(content, selected, verdict) == Chosen(content[..k], selected[..k], verdict) + Chosen(content[k..], selected[k..], verdict)
    decreases |content|
  {
    if k == |content| {
      WholeSlice(content);
      WholeSlice(selected);
    } else {
      var last := |content| - 1;
      ChosenSplit(content[..last], selected[..last], verdict, k);
      Slices(content, k);
      Slices(selected, k);
    }
  }

  lemma Slices<T>(s: seq<T>, k: nat)
    requires k < |s|
    ensures s[..|s| - 1][..k] == s[..k] && s[k..][..|s| - 1 - k] == s[..|s| - 1][k..]
  {
  }

  lemma {:induction false} ChosenAll(content: seq<Node>, selected: seq<bool>, verdict: bool)
    requires |content| == |selected| && forall i | 0 <= i < |selected| :: selected[i] == verdict
    ensures Chosen(content, selected, verdict) == content && Chosen(content, selected, !verdict) == []
    decreases |content|
  {
    if content != [] {
      var last := |content| - 1;
      ChosenAll(content[..last], selected[..last], verdict);
      assert content == content[..last] + [content[last]];
    }
  }

  lemma {:induction false} ChosenCounts(content: seq<Node>, selected: seq<bool>)
    requires |content| == |selected|
    ensures multiset(Chosen(content, selected, true) + Chosen(content, selected, false)) == multiset(content)
    ensures |Chosen(content, selected, true)| + |Chosen(content, selected, false)| == |content|
    decreases |content|
  {
    var a, b := Chosen(content, selected, true), Chosen(content, selected, false);
    if content != [] {
      var last := |content| - 1;
      ChosenCounts(content[..last], selected[..last]);
      JoinOne(Chosen(content[..last], selected[..last], true), Chosen(content[..last], selected[..last], false), content[last]);
      assert content == content[..last] + [content[last]];
    }
    SameSizeByMultiset(a + b, content);
  }

  lemma JoinOne(a: seq<Node>, b: seq<Node>, x: Node)
    ensures multiset(a + [x] + b) == multiset(a + b) + multiset{x} == multiset(a + (b + [x]))
    ensures a + [] == a && b + [] == b
  {
  }

  /** The two passes over the roots from `start` on, into one output array. */
  method PartitionContent(input: seq<Node>, selected: seq<bool>, start: nat) returns (output: seq<Node>)
    requires |input| == |selected| && start <= |input|
    ensures output == input[..start] + Chosen(input[start..], selected[start..], true) + Chosen(input[start..], selected[start..], false)
  {
    var result := new Node[|input|](i requires 0 <= i < |input| => input[i]);
    ghost var tail, flags := input[start..], selected[start..];
    ghost var first, second := Chosen(tail, flags, true), Chosen(tail, flags, false);
    ChosenCounts(tail, flags);
    assert result[..start] == input[..start];
    var position := FillPass(result, input, selected, start, true, start);
    assert result[..position] == input[..start] + first;
    position := FillPass(result, input, selected, start, false, position);
    output := result[..];
    assert output == result[..position];
  }

  /** One pass: the roots with the given verdict go to the next free places. */
  method FillPass(result: array<Node>, input: seq<Node>, selected: seq<bool>, start: nat, verdict: bool, free: nat) returns (position: nat)
    requires |input| == |selected| == result.Length && start <= |input|
    requires free + |Chosen(input[start..], selected[start..], verdict)| <= result.Length
    modifies result
    ensures position == free + |Chosen(input[start..], selected[start..], verdict)|
    ensures result[..position] == old(result[..free]) + Chosen(input[start..], selected[start..], verdict)
  {
    position := free;
    ghost var front := result[..free];
    ghost var tail, flags := input[start..], selected[start..];
    ghost var filled: seq<Node> := [];
    for index := start to |input|
      invariant filled == Chosen(tail[..index - start], flags[..index - start], verdict)
      invariant position == free + |filled| <= result.Length && result[..position] == front + filled
    {
      ChosenGrows(tail, flags, verdict, index - start);
      if selected[index] == verdict {
        result[position] := input[index];
        assert result[..position + 1] == result[..position] + [input[index]];
        Associate(front, filled, [input[index]]);
        position, filled := position + 1, filled + [input[index]];
      }
    }
    WholeSlice(tail);
    WholeSlice(flags);
  }

  lemma ChosenGrows(content: seq<Node>, selected: seq<bool>, verdict: bool, k: nat)
    requires |content| == |selected| && k < |content|
    ensures Chosen(content[..k + 1], selected[..k + 1], verdict) ==
            Chosen(content[..k], selected[..k], verdict) + if selected[k] == verdict then [content[k]] else []
    ensures |Chosen(content[..k + 1], selected[..k + 1], verdict)| <= |Chosen(content, selected, verdict)|
  {
    assert content[..k + 1][..k] == content[..k] && selected[..k + 1][..k] == selected[..k];
    ChosenSplit(content, selected, verdict, k + 1);
  }

  // ---- Plans ----

  /** A compiled layout. `when` sees the root, its position and whether it moves; `steps` is None where a diagnostic
      refuses the conversion, otherwise the role the root ends up with: the role is all a layout's steps may set. */
  datatype Plan = Plan(
    when: (Node, nat, bool) -> bool, childWhen: (Node, nat) -> bool, steps: Node -> Option<string>, role: string)

  datatype Layout = Refused | Kept | Changed(content: seq<Node>)

  function ResultOf(layout: Layout, input: seq<Node>): Option<seq<Node>> {
    match layout
    case Refused => None
    case Kept => Some(input)
    case Changed(content) => Some(content)
  }

  function TrueCount(flags: seq<bool>): nat {
    if flags == [] then 0 else TrueCount(flags[..|flags| - 1]) + if flags[|flags| - 1] then 1 else 0
  }

  /** Which of the first `n` roots are selected; a root moves unless all before it are selected. */
  function Flags(plan: Plan, input: seq<Node>, n: nat): (r: seq<bool>)
    requires n <= |input|
    ensures |r| == n
  {
    if n == 0 then []
    else
      var before := Flags(plan, input, n - 1);
      before + [plan.when(input[n - 1], n - 1, n - 1 != TrueCount(before))]
  }

  lemma TakeOfPush<T>(s: seq<T>, x: T, k: nat)
    requires k <= |s|
    ensures (s + [x])[..k] == s[..k]
  {
  }

  lemma {:induction false} FlagsPrefix(plan: Plan, input: seq<Node>, k: nat, n: nat)
    requires k <= n <= |input|
    ensures Flags(plan, input, n)[..k] == Flags(plan, input, k)
    decreases n
  {
    if k < n {
      FlagsPrefix(plan, input, k, n - 1);
      var before := Flags(plan, input, n - 1);
      TakeOfPush(before, plan.when(input[n - 1], n - 1, n - 1 != TrueCount(before)), k);
    }
  }

  /** A selected root after its steps. */
  function Restyled(plan: Plan, n: Node): Node {
    match plan.steps(n)
    case None => n
    case Some(role) => if role == n.role then n else n.(role := role, native := "")
  }

  function RestyleAll(plan: Plan, input: seq<Node>, flags: seq<bool>): (r: seq<Node>)
    requires |flags| <= |input|
    ensures |r| == |input|
    ensures forall i | 0 <= i < |r| :: r[i] == if i < |flags| && flags[i] then Restyled(plan, input[i]) else input[i]
  {
    seq(|input|, i requires 0 <= i < |input| => if i < |flags| && flags[i] then Restyled(plan, input[i]) else input[i])
  }

  predicate NoneRefused(plan: Plan, input: seq<Node>, flags: seq<bool>) {
    |flags| <= |input| && forall i | 0 <= i < |flags| && flags[i] :: plan.steps(input[i]).Some?
  }

  predicate AreFlags(plan: Plan, input: seq<Node>, flags: seq<bool>) {
    |flags| <= |input| && flags == Flags(plan, input, |flags|)
  }

  lemma NextAreFlags(plan: Plan, input: seq<Node>, flags: seq<bool>)
    requires AreFlags(plan, input, flags) && |flags| < |input|
    ensures AreFlags(plan, input, flags + [plan.when(input[|flags|], |flags|, |flags| != TrueCount(flags))])
  {
    NextFlag(plan, input, |flags|);
  }

  predicate AtRoot(plan: Plan, input: seq<Node>, flags: seq<bool>, index: nat, count: nat) {
    |flags| == index && AreFlags(plan, input, flags) && count == TrueCount(flags)
  }

  lemma NextRoot(plan: Plan, input: seq<Node>, flags: seq<bool>, index: nat, count: nat)
    requires AtRoot(plan, input, flags, index, count) && index < |input|
    ensures
      var isSelected := plan.when(input[index], index, index != count);
      AtRoot(plan, input, flags + [isSelected], index + 1, if isSelected then count + 1 else count)
  {
    NextFlag(plan, input, index);
  }

  lemma NextFlag(plan: Plan, input: seq<Node>, n: nat)
    requires n < |input|
    ensures
      var flags, more := Flags(plan, input, n), Flags(plan, input, n + 1);
      && more == flags + [plan.when(input[n], n, n != TrueCount(flags))]
      && TrueCount(more) == TrueCount(flags) + (if more[n] then 1 else 0)
  {
    assert Flags(plan, input, n + 1)[..n] == Flags(plan, input, n);
  }

  lemma RestyleOneMore(plan: Plan, input: seq<Node>, flags: seq<bool>, isSelected: bool)
    requires |flags| < |input|
    ensures
      var n := |flags|;
      RestyleAll(plan, input, flags + [isSelected]) ==
      RestyleAll(plan, input, flags)[n := if isSelected then Restyled(plan, input[n]) else input[n]]
  {
  }

  lemma RestyleOther(plan: Plan, input: seq<Node>, flags: seq<bool>)
    requires |flags| < |input|
    ensures RestyleAll(plan, input, flags + [false]) == RestyleAll(plan, input, flags)
  {
    RestyleOneMore(plan, input, flags, false);
    RestyledInput(plan, input, flags);
    KeptInPlace(RestyleAll(plan, input, flags), |flags|, input[|flags|]);
  }

  lemma NoneRefusedOneMore(plan: Plan, input: seq<Node>, flags: seq<bool>, isSelected: bool)
    requires |flags| < |input|
    ensures
      NoneRefused(plan, input, flags + [isSelected]) <==>
      NoneRefused(plan, input, flags) && (isSelected ==> plan.steps(input[|flags|]).Some?)
  {
    var more := flags + [isSelected];
    if NoneRefused(plan, input, more) {
      forall i | 0 <= i < |flags| && flags[i]
        ensures plan.steps(input[i]).Some?
      {
        assert more[i];
      }
      assert isSelected ==> more[|flags|];
    }
  }

  /** All roots before the first unselected one are selected; unless some root moved, none behind it is. */
  predicate Scanned(flags: seq<bool>, firstUnselected: int, isMoved: bool) {
    && -1 <= firstUnselected < |flags|
    && (forall i | 0 <= i < (if firstUnselected < 0 then |flags| else firstUnselected) :: flags[i])
    && (firstUnselected >= 0 ==> !flags[firstUnselected])
    && (isMoved ==> firstUnselected >= 0)
    && (!isMoved && firstUnselected >= 0 ==> forall i | firstUnselected <= i < |flags| :: !flags[i])
  }

  lemma ScanOne(flags: seq<bool>, firstUnselected: int, isMoved: bool, isSelected: bool)
    requires Scanned(flags, firstUnselected, isMoved)
    ensures Scanned(flags + [isSelected],
                    if !isSelected && firstUnselected < 0 then |flags| else firstUnselected,
                    isMoved || (isSelected && firstUnselected >= 0))
  {
  }

  /** The loop's state after some roots. */
  predicate Styled(plan: Plan, input: seq<Node>, flags: seq<bool>, content: seq<Node>, hasChanges: bool) {
    && AreFlags(plan, input, flags) && NoneRefused(plan, input, flags)
    && content == RestyleAll(plan, input, flags) && (!hasChanges ==> content == input)
  }

  lemma KeptInPlace<T>(s: seq<T>, k: nat, x: T)
    requires k < |s| && s[k] == x
    ensures s[k := x] == s
  {
  }

  lemma RestyledInput(plan: Plan, input: seq<Node>, flags: seq<bool>)
    requires |flags| < |input|
    ensures RestyleAll(plan, input, flags)[|flags|] == input[|flags|]
  {
  }

  /** The root after those already seen is not selected. */
  lemma StyleOther(plan: Plan, input: seq<Node>, flags: seq<bool>, content: seq<Node>, hasChanges: bool)
    requires Styled(plan, input, flags, content, hasChanges) && |flags| < |input|
    requires !plan.when(input[|flags|], |flags|, |flags| != TrueCount(flags))
    ensures Styled(plan, input, flags + [false], content, hasChanges)
  {
    NextAreFlags(plan, input, flags);
    RestyleOther(plan, input, flags);
    NoneRefusedOneMore(plan, input, flags, false);
  }

  /** The root is selected and its steps pass. */
  lemma StyleSelected(plan: Plan, input: seq<Node>, flags: seq<bool>, content: seq<Node>, hasChanges: bool)
    requires Styled(plan, input, flags, content, hasChanges) && |flags| < |input|
    requires plan.when(input[|flags|], |flags|, |flags| != TrueCount(flags)) && plan.steps(input[|flags|]).Some?
    ensures
      var node := Restyled(plan, input[|flags|]);
      && Styled(plan, input, flags + [true], content[|flags| := node], hasChanges || node != input[|flags|])
      && (node == input[|flags|] ==> content[|flags| := node] == content)
  {
    var n, node := |flags|, Restyled(plan, input[|flags|]);
    NextAreFlags(plan, input, flags);
    RestyleOneMore(plan, input, flags, true);
    NoneRefusedOneMore(plan, input, flags, true);
    RestyledInput(plan, input, flags);
    if node == input[n] {
      KeptInPlace(content, n, node);
    }
  }

  /** The root is selected and its steps refuse. */
  lemma StyleRefused(plan: Plan, input: seq<Node>, flags: seq<bool>)
    requires |flags| < |input| && flags == Flags(plan, input, |flags|)
    requires plan.when(input[|flags|], |flags|, |flags| != TrueCount(flags)) && plan.steps(input[|flags|]).None?
    ensures !NoneRefused(plan, input, Flags(plan, input, |input|))
  {
    NextFlag(plan, input, |flags|);
    NoneRefusedOneMore(plan, input, flags, true);
    RefusedStays(plan, input, |flags| + 1);
  }

  /** A selected root's steps; its place in the content is updated if they change it. */
  method StyleRoot(plan: Plan, input: seq<Node>, flags: seq<bool>, content: seq<Node>, hasChanges: bool)
    returns (ok: bool, next: seq<Node>, changed: bool)
    requires Styled(plan, input, flags, content, hasChanges) && |flags| < |input|
    requires plan.when(input[|flags|], |flags|, |flags| != TrueCount(flags))
    ensures ok ==> Styled(plan, input, flags + [true], next, changed)
    ensures !ok ==> !NoneRefused(plan, input, Flags(plan, input, |input|))
  {
    var index := |flags|;
    if plan.steps(input[index]).None? {
      StyleRefused(plan, input, flags);
      return false, content, hasChanges;
    }
    StyleSelected(plan, input, flags, content, hasChanges);
    if Restyled(plan, input[index]) != input[index] {
      return true, content[index := Restyled(plan, input[index])], true;
    }
    ok, next, changed := true, content, hasChanges;
  }

  ghost predicate Partitioning(plan: Plan, input: seq<Node>, flags: seq<bool>, index: nat, content: seq<Node>, hasChanges: bool,
                               count: nat, firstUnselected: int, isMoved: bool) {
    && AtRoot(plan, input, flags, index, count) && Styled(plan, input, flags, content, hasChanges)
    && Scanned(flags, firstUnselected, isMoved)
  }

  lemma NothingSeen(plan: Plan, input: seq<Node>)
    ensures Partitioning(plan, input, [], 0, input, false, 0, -1, false)
  {
    assert RestyleAll(plan, input, []) == input;
  }

  lemma OtherRoot(plan: Plan, input: seq<Node>, flags: seq<bool>, index: nat, content: seq<Node>, hasChanges: bool,
                  count: nat, firstUnselected: int, isMoved: bool)
    requires Partitioning(plan, input, flags, index, content, hasChanges, count, firstUnselected, isMoved) && index < |input|
    requires !plan.when(input[index], index, index != count)
    ensures Partitioning(plan, input, flags + [false], index + 1, content, hasChanges, count,
                         if firstUnselected < 0 then index else firstUnselected, isMoved)
  {
    NextRoot(plan, input, flags, index, count);
    StyleOther(plan, input, flags, content, hasChanges);
    ScanOne(flags, firstUnselected, isMoved, false);
  }

  method SelectedRoot(plan: Plan, input: seq<Node>, flags: seq<bool>, index: nat, content: seq<Node>, hasChanges: bool,
                      count: nat, firstUnselected: int, isMoved: bool)
    returns (ok: bool, next: seq<Node>, changed: bool)
    requires Partitioning(plan, input, flags, index, content, hasChanges, count, firstUnselected, isMoved) && index < |input|
    requires plan.when(input[index], index, index != count)
    ensures ok ==> Partitioning(plan, input, flags + [true], index + 1, next, changed, count + 1, firstUnselected,
                                isMoved || firstUnselected >= 0)
    ensures !ok ==> !NoneRefused(plan, input, Flags(plan, input, |input|))
  {
    NextRoot(plan, input, flags, index, count);
    ScanOne(flags, firstUnselected, isMoved, true);
    ok, next, changed := StyleRoot(plan, input, flags, content, hasChanges);
  }

  /** One pass of the loop. */
  method PartitionStep(plan: Plan, input: seq<Node>, flags: seq<bool>, index: nat, content: seq<Node>, hasChanges: bool,
                       count: nat, firstUnselected: int, isMoved: bool)
    returns (ok: bool, isSelected: bool, next: seq<Node>, changed: bool, nextCount: nat, first: int, moved: bool)
    requires Partitioning(plan, input, flags, index, content, hasChanges, count, firstUnselected, isMoved) && index < |input|
    ensures ok ==> Partitioning(plan, input, flags + [isSelected], index + 1, next, changed, nextCount, first, moved)
    ensures !ok ==> !NoneRefused(plan, input, Flags(plan, input, |input|))
  {
    ok, next, changed, nextCount, first, moved := true, content, hasChanges, count, firstUnselected, isMoved;
    isSelected := plan.when(input[index], index, index != count);
    if isSelected {
      ok, next, changed := SelectedRoot(plan, input, flags, index, content, hasChanges, count, firstUnselected, isMoved);
      nextCount := count + 1;
      moved := isMoved || firstUnselected >= 0;
    } else {
      OtherRoot(plan, input, flags, index, content, hasChanges, count, firstUnselected, isMoved);
      first := if firstUnselected < 0 then index else firstUnselected;
    }
  }

  /** Selected roots first, in order, then the others, in order. */
  method StablePartition(plan: Plan, input: seq<Node>) returns (r: Layout)
    ensures
      var flags := Flags(plan, input, |input|);
      var styled := RestyleAll(plan, input, flags);
      ResultOf(r, input) == if NoneRefused(plan, input, flags) then Some(Chosen(styled, flags, true) + Chosen(styled, flags, false)) else None
  {
    var content, flags, selectedCount: nat, firstUnselected := input, [], 0, -1;
    var isMoved, hasChanges := false, false;
    NothingSeen(plan, input);
    for index := 0 to |input|
      invariant Partitioning(plan, input, flags, index, content, hasChanges, selectedCount, firstUnselected, isMoved)
    {
      var ok, isSelected, next, changed, count, first, moved :=
        PartitionStep(plan, input, flags, index, content, hasChanges, selectedCount, firstUnselected, isMoved);
      if !ok {
        return Refused;
      }
      content, hasChanges, selectedCount, firstUnselected, isMoved := next, changed, count, first, moved;
      flags := flags + [isSelected];
    }
    PartitionEnds(plan, input, flags, content, hasChanges, selectedCount, firstUnselected, isMoved);
    r := FinishPartition(content, flags, firstUnselected, isMoved, hasChanges, input);
  }

  lemma PartitionEnds(plan: Plan, input: seq<Node>, flags: seq<bool>, content: seq<Node>, hasChanges: bool, count: nat,
                      firstUnselected: int, isMoved: bool)
    requires Partitioning(plan, input, flags, |input|, content, hasChanges, count, firstUnselected, isMoved)
    ensures flags == Flags(plan, input, |input|) && NoneRefused(plan, input, flags) && content == RestyleAll(plan, input, flags)
    ensures |content| == |flags| && Scanned(flags, firstUnselected, isMoved) && (!hasChanges ==> content == input)
  {
  }

  method FinishPartition(content: seq<Node>, flags: seq<bool>, firstUnselected: int, isMoved: bool, hasChanges: bool, input: seq<Node>)
    returns (r: Layout)
    requires |content| == |flags| && Scanned(flags, firstUnselected, isMoved) && (!hasChanges ==> content == input)
    ensures ResultOf(r, input) == Some(Chosen(content, flags, true) + Chosen(content, flags, false))
  {
    if isMoved {
      AllChosenBefore(content, flags, firstUnselected);
      var output := PartitionContent(content, flags, firstUnselected);
      return Changed(output);
    }
    NothingMoves(content, flags, if firstUnselected < 0 then |flags| else firstUnselected);
    r := if hasChanges then Changed(content) else Kept;
  }

  lemma RefusedStays(plan: Plan, input: seq<Node>, n: nat)
    requires n <= |input| && !NoneRefused(plan, input, Flags(plan, input, n))
    ensures !NoneRefused(plan, input, Flags(plan, input, |input|))
  {
    FlagsPrefix(plan, input, n, |input|);
    var i :| 0 <= i < n && Flags(plan, input, n)[i] && plan.steps(input[i]).None?;
    assert Flags(plan, input, |input|)[..n][i] == Flags(plan, input, |input|)[i];
  }

  lemma AllChosenBefore(content: seq<Node>, flags: seq<bool>, start: nat)
    requires |content| == |flags| && start <= |content| && forall i | 0 <= i < start :: flags[i]
    ensures Chosen(content, flags, true) == content[..start] + Chosen(content[start..], flags[start..], true)
    ensures Chosen(content, flags, false) == Chosen(content[start..], flags[start..], false)
  {
    ChosenSplit(content, flags, true, start);
    ChosenSplit(content, flags, false, start);
    ChosenAll(content[..start], flags[..start], true);
  }

  lemma NothingMoves(content: seq<Node>, flags: seq<bool>, start: nat)
    requires |content| == |flags| && start <= |content|
    requires (forall i | 0 <= i < start :: flags[i]) && forall i | start <= i < |flags| :: !flags[i]
    ensures Chosen(content, flags, true) + Chosen(content, flags, false) == content
  {
    AllChosenBefore(content, flags, start);
    ChosenAll(content[start..], flags[start..], false);
    FrontAndBack(content, start);
  }

  lemma FrontAndBack(content: seq<Node>, start: nat)
    requires start <= |content|
    ensures content[..start] + [] + content[start..] == content && content[..start] + content[start..] == content
  {
  }

  // ---- Combining adjacent containers ----

  function ChildrenOf(nodes: seq<Node>): seq<Node> {
    if nodes == [] then [] else ChildrenOf(nodes[..|nodes| - 1]) + nodes[|nodes| - 1].children
  }

  lemma ChildrenPush(nodes: seq<Node>, n: Node)
    ensures ChildrenOf(nodes + [n]) == ChildrenOf(nodes) + n.children
  {
    assert (nodes + [n])[..|nodes|] == nodes;
  }

  /** The run [first, first + count) becomes one container. */
  function CombinedRun(input: seq<Node>, first: nat, count: nat): seq<Node>
    requires 1 <= count && first + count <= |input|
  {
    input[..first] + [input[first].(children := ChildrenOf(input[first..first + count]), native := "")] + input[first + count..]
  }

  /** Plain containers of one kind and role. */
  predicate CanCombine(input: seq<Node>, first: nat, count: nat)
    requires first + count <= |input|
  {
    forall i | first <= i < first + count :: IsPlain(input[i]) && input[i].kind == input[first].kind && input[i].role == input[first].role
  }

  predicate IsRun(flags: seq<bool>, first: nat, count: nat) {
    first + count <= |flags| && forall i | 0 <= i < |flags| :: flags[i] <==> first <= i < first + count
  }

  /** The selected roots so far: one run of combinable containers, with their children. */
  predicate Collected(input: seq<Node>, flags: seq<bool>, first: nat, count: nat, combined: seq<Node>) {
    && |flags| <= |input| && IsRun(flags, first, count) && CanCombine(input, first, count)
    && (count >= 1 ==> combined == ChildrenOf(input[first..first + count]))
  }

  lemma CollectFirst(input: seq<Node>, flags: seq<bool>, first: nat, combined: seq<Node>)
    requires Collected(input, flags, first, 0, combined) && |flags| < |input| && IsPlain(input[|flags|])
    ensures Collected(input, flags + [true], |flags|, 1, input[|flags|].children)
  {
    var n := |flags|;
    assert input[n..n + 1] == [] + [input[n]];
    ChildrenPush([], input[n]);
    assert [] + input[n].children == input[n].children;
  }

  lemma CollectMore(input: seq<Node>, flags: seq<bool>, first: nat, count: nat, combined: seq<Node>)
    requires Collected(input, flags, first, count, combined) && |flags| < |input| && count >= 1
    requires IsPlain(input[|flags|]) && |flags| == first + count
    requires input[|flags|].kind == input[first].kind && input[|flags|].role == input[first].role
    ensures Collected(input, flags + [true], first, count + 1, combined + input[|flags|].children)
  {
    assert input[first..first + count + 1] == input[first..first + count] + [input[|flags|]];
    ChildrenPush(input[first..first + count], input[|flags|]);
  }

  lemma CollectNone(input: seq<Node>, flags: seq<bool>, first: nat, count: nat, combined: seq<Node>)
    requires Collected(input, flags, first, count, combined) && |flags| < |input|
    ensures Collected(input, flags + [false], first, count, combined)
  {
  }

  /** Every selected root after the first one passes its own steps. */
  predicate StepsPass(plan: Plan, input: seq<Node>, first: nat, count: nat)
    requires first + count <= |input|
  {
    forall i | first < i < first + count :: plan.steps(input[i]).Some?
  }

  /** The selected roots are one run of plain containers of one kind and role, and their steps pass. */
  predicate RunCombines(plan: Plan, input: seq<Node>, flags: seq<bool>, first: nat, count: nat) {
    |flags| <= |input| && IsRun(flags, first, count) && CanCombine(input, first, count) && StepsPass(plan, input, first, count)
  }

  ghost predicate Combinable(plan: Plan, input: seq<Node>, flags: seq<bool>) {
    exists first: nat, count: nat :: RunCombines(plan, input, flags, first, count)
  }

  lemma RefusalStands(plan: Plan, input: seq<Node>, flags: seq<bool>, first: nat, count: nat)
    requires |flags| < |input| && IsRun(flags, first, count) && CanCombine(input, first, count)
    requires var node := input[|flags|];
      !IsPlain(node) || (count >= 1 && (|flags| != first + count || node.kind != input[first].kind
        || node.role != input[first].role || plan.steps(node).None?))
    ensures !Combinable(plan, input, flags + [true])
  {
    if Combinable(plan, input, flags + [true]) {
      var f: nat, c: nat :| RunCombines(plan, input, flags + [true], f, c);
      LastJoins(flags, first, count, f, c);
    }
  }

  lemma SameFlag(flags: seq<bool>, k: nat)
    requires k < |flags|
    ensures (flags + [true])[k] == flags[k]
  {
  }

  /** A run that ends with the newest root begins with it, or continues the run before it. */
  lemma LastJoins(flags: seq<bool>, first: nat, count: nat, f: nat, c: nat)
    requires IsRun(flags, first, count) && IsRun(flags + [true], f, c)
    ensures f <= |flags| == f + c - 1
    ensures count >= 1 ==> f == first && |flags| == first + count
  {
    var more := flags + [true];
    assert more[|flags|];
    if count >= 1 {
      assert flags[first] && more[first];
      if f < |flags| { SameFlag(flags, f); }
      if first + count < |flags| { SameFlag(flags, first + count); }
    }
  }

  lemma CombinablePrefix(plan: Plan, input: seq<Node>, n: nat)
    requires n <= |input| && Combinable(plan, input, Flags(plan, input, |input|))
    ensures Combinable(plan, input, Flags(plan, input, n))
  {
    var flags, before := Flags(plan, input, |input|), Flags(plan, input, n);
    var first: nat, count: nat :| RunCombines(plan, input, flags, first, count);
    FlagsPrefix(plan, input, n, |input|);
    RunPrefix(flags, first, count, n);
    if first < n {
      assert RunCombines(plan, input, before, first, if first + count <= n then count else n - first);
    } else {
      assert RunCombines(plan, input, before, 0, 0);
    }
  }

  lemma RunPrefix(flags: seq<bool>, first: nat, count: nat, n: nat)
    requires IsRun(flags, first, count) && n <= |flags|
    ensures if first < n then IsRun(flags[..n], first, if first + count <= n then count else n - first) else IsRun(flags[..n], 0, 0)
  {
  }

  /** A selected root joins the run, or the layout is refused. */
  method CollectRoot(plan: Plan, input: seq<Node>, index: nat, first: nat, count: nat, combined: seq<Node>, ghost flags: seq<bool>)
    returns (ok: bool, nextFirst: nat, nextCombined: seq<Node>)
    requires Collected(input, flags, first, count, combined) && index == |flags| < |input|
    requires StepsPass(plan, input, first, count)
    ensures ok ==> Collected(input, flags + [true], nextFirst, count + 1, nextCombined)
    ensures ok ==> StepsPass(plan, input, nextFirst, count + 1)
    ensures !ok ==> !Combinable(plan, input, flags + [true])
  {
    var node := input[index];
    if !IsPlain(node) {
      RefusalStands(plan, input, flags, first, count);
      return false, first, combined;
    }
    if count == 0 {
      CollectFirst(input, flags, first, combined);
      return true, index, node.children;
    }
    if index != first + count || node.kind != input[first].kind || node.role != input[first].role {
      RefusalStands(plan, input, flags, first, count);
      return false, first, combined;
    }
    if plan.steps(node).None? {
      RefusalStands(plan, input, flags, first, count);
      return false, first, combined;
    }
    CollectMore(input, flags, first, count, combined);
    return true, first, combined + node.children;
  }

  lemma RefusedAt(plan: Plan, input: seq<Node>, index: nat, flags: seq<bool>)
    requires index < |input| && flags + [true] == Flags(plan, input, index + 1) && !Combinable(plan, input, flags + [true])
    ensures !Combinable(plan, input, Flags(plan, input, |input|))
  {
    if Combinable(plan, input, Flags(plan, input, |input|)) {
      CombinablePrefix(plan, input, index + 1);
    }
  }

  ghost predicate Combining(plan: Plan, input: seq<Node>, flags: seq<bool>, index: nat, first: nat, count: nat, combined: seq<Node>) {
    AtRoot(plan, input, flags, index, count) && Collected(input, flags, first, count, combined) && StepsPass(plan, input, first, count)
  }

  lemma SkipRoot(plan: Plan, input: seq<Node>, flags: seq<bool>, index: nat, first: nat, count: nat, combined: seq<Node>)
    requires Combining(plan, input, flags, index, first, count, combined) && index < |input|
    requires !plan.when(input[index], index, index != count)
    ensures Combining(plan, input, flags + [false], index + 1, first, count, combined)
  {
    NextRoot(plan, input, flags, index, count);
    CollectNone(input, flags, first, count, combined);
  }

  /** A selected root: it joins the run or ends the attempt. */
  method TakeRoot(plan: Plan, input: seq<Node>, ghost flags: seq<bool>, index: nat, first: nat, count: nat, combined: seq<Node>)
    returns (ok: bool, nextFirst: nat, nextCombined: seq<Node>)
    requires Combining(plan, input, flags, index, first, count, combined) && index < |input|
    requires plan.when(input[index], index, index != count)
    ensures ok ==> Combining(plan, input, flags + [true], index + 1, nextFirst, count + 1, nextCombined)
    ensures !ok ==> !Combinable(plan, input, Flags(plan, input, |input|))
  {
    NextRoot(plan, input, flags, index, count);
    ok, nextFirst, nextCombined := CollectRoot(plan, input, index, first, count, combined, flags);
    if !ok { RefusedAt(plan, input, index, flags); }
  }

  /** One pass of the loop. */
  method CombineStep(plan: Plan, input: seq<Node>, ghost flags: seq<bool>, index: nat, first: nat, count: nat, combined: seq<Node>)
    returns (ok: bool, isSelected: bool, nextFirst: nat, nextCount: nat, nextCombined: seq<Node>)
    requires Combining(plan, input, flags, index, first, count, combined) && index < |input|
    ensures ok ==> Combining(plan, input, flags + [isSelected], index + 1, nextFirst, nextCount, nextCombined)
    ensures !ok ==> !Combinable(plan, input, Flags(plan, input, |input|))
  {
    isSelected := plan.when(input[index], index, index != count);
    if isSelected {
      ok, nextFirst, nextCombined := TakeRoot(plan, input, flags, index, first, count, combined);
      nextCount := count + 1;
    } else {
      SkipRoot(plan, input, flags, index, first, count, combined);
      ok, nextFirst, nextCount, nextCombined := true, first, count, combined;
    }
  }

  lemma NothingCombined(plan: Plan, input: seq<Node>)
    ensures Combining(plan, input, [], 0, 0, 0, [])
  {
  }

  method CombineChildren(plan: Plan, input: seq<Node>) returns (r: Layout, first: nat, count: nat)
    ensures r == Refused <==> !Combinable(plan, input, Flags(plan, input, |input|))
    ensures r != Refused ==> first + count <= |input| && RunCombines(plan, input, Flags(plan, input, |input|), first, count)
    ensures r != Refused ==> r == if count < 2 then Kept else Changed(CombinedRun(input, first, count))
  {
    ghost var flags: seq<bool> := [];
    var combined: seq<Node> := [];
    first, count := 0, 0;
    NothingCombined(plan, input);
    for index := 0 to |input|
      invariant Combining(plan, input, flags, index, first, count, combined)
    {
      var ok, isSelected, nextFirst, nextCount, nextCombined := CombineStep(plan, input, flags, index, first, count, combined);
      if !ok {
        return Refused, first, count;
      }
      first, count, combined := nextFirst, nextCount, nextCombined;
      flags := flags + [isSelected];
    }
    r := FinishCombine(plan, input, flags, first, count, combined);
  }

  lemma RunIsCombinable(plan: Plan, input: seq<Node>, flags: seq<bool>, first: nat, count: nat)
    requires RunCombines(plan, input, flags, first, count)
    ensures Combinable(plan, input, flags)
  {
  }

  lemma CombiningEnds(plan: Plan, input: seq<Node>, flags: seq<bool>, first: nat, count: nat, combined: seq<Node>)
    requires Combining(plan, input, flags, |input|, first, count, combined)
    ensures first + count <= |input| && RunCombines(plan, input, Flags(plan, input, |input|), first, count)
    ensures count >= 1 ==> combined == ChildrenOf(input[first..first + count])
  {
  }

  method FinishCombine(plan: Plan, input: seq<Node>, ghost flags: seq<bool>, first: nat, count: nat, combined: seq<Node>) returns (r: Layout)
    requires Combining(plan, input, flags, |input|, first, count, combined)
    ensures r != Refused && first + count <= |input| && RunCombines(plan, input, Flags(plan, input, |input|), first, count)
    ensures Combinable(plan, input, Flags(plan, input, |input|))
    ensures r == if count < 2 then Kept else Changed(CombinedRun(input, first, count))
  {
    CombiningEnds(plan, input, flags, first, count, combined);
    RunIsCombinable(plan, input, Flags(plan, input, |input|), first, count);
    if count < 2 {
      return Kept;
    }
    r := Changed(input[..first] + [input[first].(children := combined, native := "")] + input[first + count..]);
  }

  lemma InRoleConcat(role: string, a: seq<Node>, b: seq<Node>)
    ensures InRole(role, a + b) == InRole(role, a) + InRole(role, b)
  {
  }

  lemma {:induction false} UnitsOfRun(run: seq<Node>, role: string, isContainer: Node -> bool)
    requires forall n | n in run :: isContainer(n) && n.role == role
    ensures Units(run, isContainer) == InRole(role, ChildrenOf(run))
    decreases |run|
  {
    if run != [] {
      var front, last := run[..|run| - 1], run[|run| - 1];
      assert last in run && forall n | n in front :: n in run;
      UnitsOfRun(front, role, isContainer);
      InRoleConcat(role, ChildrenOf(front), last.children);
    }
  }

  /** Combining keeps every child, its order and its role. */
  lemma CombiningKeepsUnits(input: seq<Node>, first: nat, count: nat)
    requires 2 <= count && first + count <= |input| && CanCombine(input, first, count)
    ensures Units(CombinedRun(input, first, count), IsPlain) == Units(input, IsPlain)
  {
    var before, run, behind := input[..first], input[first..first + count], input[first + count..];
    var combined := input[first].(children := ChildrenOf(run), native := "");
    RunIsPlain(input, first, count);
    UnitsOfRun(run, input[first].role, IsPlain);
    UnitsOfOne(combined, IsPlain);
    ThreeParts(before, run, behind, IsPlain);
    ThreeParts(before, [combined], behind, IsPlain);
    InThree(input, first, count);
  }

  lemma RunIsPlain(input: seq<Node>, first: nat, count: nat)
    requires 1 <= count && first + count <= |input| && CanCombine(input, first, count)
    ensures IsPlain(input[first]) && forall n | n in input[first..first + count] :: IsPlain(n) && n.role == input[first].role
  {
    forall n | n in input[first..first + count]
      ensures IsPlain(n) && n.role == input[first].role
    {
      var i :| 0 <= i < count && input[first..first + count][i] == n;
      assert n == input[first + i];
    }
  }

  lemma InThree(input: seq<Node>, first: nat, count: nat)
    requires first + count <= |input|
    ensures input[..first] + input[first..first + count] + input[first + count..] == input
  {
  }

  lemma ThreeParts(a: seq<Node>, b: seq<Node>, c: seq<Node>, isContainer: Node -> bool)
    ensures Units(a + b + c, isContainer) == Units(a, isContainer) + Units(b, isContainer) + Units(c, isContainer)
  {
    UnitsConcat(a, b, isContainer);
    UnitsConcat(a + b, c, isContainer);
  }
}
