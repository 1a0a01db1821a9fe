/** Grouping runs of roots into message containers and taking children out of them again. */
module ContentGrouping {
  import opened Options
  import opened Sequences
  import opened ContentLayout

  // ---- Grouping runs ----

  predicate Picks(plan: Plan, input: seq<Node>, i: nat)
    requires i < |input|
  {
    plan.when(input[i], i, false)
  }

  /** The end of the run of selected roots that starts at `from`. */
  function RunEnd(plan: Plan, input: seq<Node>, from: nat): (end: nat)
    requires from <= |input|
    ensures from <= end <= |input|
    ensures forall i | from <= i < end :: Picks(plan, input, i)
    ensures end < |input| ==> !Picks(plan, input, end)
    decreases |input| - from
  {
    if from == |input| || !Picks(plan, input, from) then from else RunEnd(plan, input, from + 1)
  }

  /** What goes into the container: the children of plain messages, other roots themselves. */
  function Members(run: seq<Node>): seq<Node> {
    if run == [] then []
    else
      var last := run[|run| - 1];
      Members(run[..|run| - 1]) + if last.kind == MESSAGE then last.children else [last]
  }

  predicate CanGroup(plan: Plan, run: seq<Node>) {
    forall n | n in run :: plan.steps(n).Some? && (n.kind == MESSAGE ==> n.role == plan.role && IsPlain(n))
  }

  /** A single message stays; any other run becomes one message of the declared role. */
  function Grouped(plan: Plan, run: seq<Node>): Option<Node>
    requires run != []
  {
    if |run| == 1 && run[0].kind == MESSAGE then Some(run[0])
    else if !CanGroup(plan, run) then None
    else Some(Node(MESSAGE, plan.role, "", "", Members(run), "", ""))
  }

  function GroupFrom(plan: Plan, input: seq<Node>, from: nat): Option<seq<Node>>
    requires from <= |input|
    decreases |input| - from
  {
    if from == |input| then Some([])
    else if !Picks(plan, input, from) then
      match GroupFrom(plan, input, from + 1) case None => None case Some(rest) => Some([input[from]] + rest)
    else
      var end := RunEnd(plan, input, from + 1);
      match (Grouped(plan, input[from..end]), GroupFrom(plan, input, end))
      case (Some(group), Some(rest)) => Some([group] + rest)
      case _ => None
  }

  // ---- Leaves and the roles they are said in ----

  /** The leaves below a node, in order, each with the role of its innermost plain message. */
  function Said(role: Option<string>, n: Node): seq<Unit>
    decreases n, 0
  {
    if IsPlainMessage(n) then SaidAll(Some(n.role), n.children, |n.children|) else [Unit(role, n)]
  }

  function SaidAll(role: Option<string>, content: seq<Node>, n: nat): seq<Unit>
    requires n <= |content|
    decreases content, n
  {
    if n == 0 then [] else SaidAll(role, content, n - 1) + Said(role, content[n - 1])
  }

  function Leaves(role: Option<string>, content: seq<Node>): seq<Unit> {
    SaidAll(role, content, |content|)
  }

  lemma {:induction false} SaidPrefix(role: Option<string>, a: seq<Node>, b: seq<Node>, n: nat)
    requires n <= |a| && n <= |b| && a[..n] == b[..n]
    ensures SaidAll(role, a, n) == SaidAll(role, b, n)
    decreases n
  {
    if n > 0 {
      assert a[n - 1] == a[..n][n - 1] == b[..n][n - 1] && a[..n - 1] == a[..n][..n - 1] == b[..n][..n - 1];
      SaidPrefix(role, a, b, n - 1);
    }
  }

  lemma LeavesPush(role: Option<string>, content: seq<Node>, n: Node)
    ensures Leaves(role, content + [n]) == Leaves(role, content) + Said(role, n)
  {
    SaidPrefix(role, content + [n], content, |content|);
  }

  lemma {:induction false} LeavesConcat(role: Option<string>, a: seq<Node>, b: seq<Node>)
    ensures Leaves(role, a + b) == Leaves(role, a) + Leaves(role, b)
    decreases |b|
  {
    ConcatFront(a, b);
    if b != [] {
      var front, last := b[..|b| - 1], b[|b| - 1];
      LeavesConcat(role, a, front);
      LeavesPush(role, a + front, last);
      LeavesPush(role, front, last);
      PushBack(a, b);
    }
  }

  /** The same leaves in the same order; a leaf has the same role on both sides, or no role on the left and the given
      role, if one is given, on the right. */
  predicate Loosens(a: seq<Unit>, b: seq<Unit>, role: Option<string>) {
    |a| == |b| && forall i | 0 <= i < |a| ::
      && a[i].node == b[i].node
      && (a[i].role == b[i].role || (a[i].role == None && (role == None || b[i].role == role)))
  }

  lemma LoosensConcat(a: seq<Unit>, b: seq<Unit>, c: seq<Unit>, d: seq<Unit>, role: Option<string>)
    requires Loosens(a, b, role) && Loosens(c, d, role)
    ensures Loosens(a + c, b + d, role)
  {
  }

  lemma {:induction false} BareLoosens(content: seq<Node>, role: string, n: nat)
    requires n <= |content|
    ensures Loosens(SaidAll(None, content, n), SaidAll(Some(role), content, n), Some(role))
    decreases n
  {
    if n > 0 {
      BareLoosens(content, role, n - 1);
      LoosensConcat(SaidAll(None, content, n - 1), SaidAll(Some(role), content, n - 1),
                    Said(None, content[n - 1]), Said(Some(role), content[n - 1]), Some(role));
    }
  }

  /** Everything a run says is said by its members; only roots outside containers gain the role. */
  lemma {:induction false} MembersTighten(run: seq<Node>, role: string)
    requires forall n | n in run :: n.kind == MESSAGE ==> n.role == role && IsPlain(n)
    ensures Loosens(Leaves(None, run), Leaves(Some(role), Members(run)), Some(role))
    decreases |run|
  {
    if run != [] {
      var front, last := run[..|run| - 1], run[|run| - 1];
      PushBack([], run);
      assert last in run && forall n | n in front :: n in run;
      MembersTighten(front, role);
      LeavesPush(None, front, last);
      if last.kind == MESSAGE {
        LeavesConcat(Some(role), Members(front), last.children);
      } else {
        LeavesPush(Some(role), Members(front), last);
      }
      LoosensConcat(Leaves(None, front), Leaves(Some(role), Members(front)), Said(None, last),
                    if last.kind == MESSAGE then Leaves(Some(role), last.children) else Said(Some(role), last), Some(role));
    }
  }

  lemma GroupedTightens(plan: Plan, run: seq<Node>)
    requires run != [] && Grouped(plan, run).Some?
    ensures Loosens(Leaves(None, run), Leaves(None, [Grouped(plan, run).value]), Some(plan.role))
  {
    var group := Grouped(plan, run).value;
    LeavesOfOne(None, group);
    if |run| == 1 && run[0].kind == MESSAGE {
      LeavesOfOne(None, run[0]);
      assert run == [run[0]];
    } else {
      MembersTighten(run, plan.role);
    }
  }

  lemma LeavesOfOne(role: Option<string>, n: Node)
    ensures Leaves(role, [n]) == Said(role, n)
  {
    LeavesPush(role, [], n);
    assert [] + [n] == [n] && [] + Said(role, n) == Said(role, n);
  }

  /** Grouping keeps every leaf, their order and every role; it only adds the declared role to bare leaves. */
  lemma {:induction false} GroupingKeepsLeaves(plan: Plan, input: seq<Node>, from: nat)
    requires from <= |input| && GroupFrom(plan, input, from).Some?
    ensures Loosens(Leaves(None, input[from..]), Leaves(None, GroupFrom(plan, input, from).value), Some(plan.role))
    decreases |input| - from
  {
    if from < |input| {
      var end := if Picks(plan, input, from) then RunEnd(plan, input, from + 1) else from + 1;
      GroupingKeepsLeaves(plan, input, end);
      var run, rest := input[from..end], GroupFrom(plan, input, end).value;
      var head := if Picks(plan, input, from) then Grouped(plan, run).value else input[from];
      if Picks(plan, input, from) {
        GroupedTightens(plan, run);
      } else {
        OneSlice(input, from);
      }
      JoinLeaves(run, input[end..], [head], rest, Some(plan.role));
      CutAt(input, from, end);
    }
  }

  lemma OneSlice(input: seq<Node>, from: nat)
    requires from < |input|
    ensures input[from..from + 1] == [input[from]]
  {
  }

  lemma CutAt(input: seq<Node>, from: nat, end: nat)
    requires from <= end <= |input|
    ensures input[from..] == input[from..end] + input[end..]
  {
  }

  lemma JoinLeaves(a: seq<Node>, b: seq<Node>, c: seq<Node>, d: seq<Node>, role: Option<string>)
    requires Loosens(Leaves(None, a), Leaves(None, c), role) && Loosens(Leaves(None, b), Leaves(None, d), role)
    ensures Loosens(Leaves(None, a + b), Leaves(None, c + d), role)
  {
    LeavesConcat(None, a, b);
    LeavesConcat(None, c, d);
    LoosensConcat(Leaves(None, a), Leaves(None, c), Leaves(None, b), Leaves(None, d), role);
  }

  // ---- Taking selected children out ----

  predicate TakesOut(plan: Plan, n: Node, i: nat) {
    exists k | 0 <= k < |n.children| :: plan.childWhen(n.children[k], i)
  }

  /** A container around some of the children. */
  function Slice(n: Node, from: nat, to: nat): seq<Node>
    requires from <= to <= |n.children|
  {
    if from == to then [] else [n.(children := n.children[from..to], native := "")]
  }

  /** The pieces of a container: stretches of other children in containers of their own, selected children bare.
      `start` is where the current stretch began, `k` the next child. */
  function PiecesFrom(plan: Plan, n: Node, i: nat, start: nat, k: nat): seq<Node>
    requires start <= k <= |n.children|
    decreases |n.children| - k
  {
    if k == |n.children| then Slice(n, start, k)
    else if plan.childWhen(n.children[k], i) then Slice(n, start, k) + [n.children[k]] + PiecesFrom(plan, n, i, k + 1, k + 1)
    else PiecesFrom(plan, n, i, start, k + 1)
  }

  function Unfolded(plan: Plan, n: Node, i: nat): Option<seq<Node>> {
    if !plan.when(n, i, false) || !TakesOut(plan, n, i) then Some([n])
    else if !IsPlainMessage(n) || plan.steps(n).None? then None
    else Some(PiecesFrom(plan, n, i, 0, 0))
  }

  function UnfoldAll(plan: Plan, input: seq<Node>, n: nat): Option<seq<Node>>
    requires n <= |input|
  {
    if n == 0 then Some([])
    else
      match (UnfoldAll(plan, input, n - 1), Unfolded(plan, input[n - 1], n - 1))
      case (Some(front), Some(pieces)) => Some(front + pieces)
      case _ => None
  }

  /** A stretch of children says the same in a container of its own. */
  lemma SliceSays(n: Node, from: nat, to: nat)
    requires IsPlainMessage(n) && from <= to <= |n.children|
    ensures Leaves(None, Slice(n, from, to)) == Leaves(Some(n.role), n.children[from..to])
  {
    if from == to {
      assert n.children[from..to] == [];
    } else {
      LeavesOfOne(None, n.(children := n.children[from..to], native := ""));
    }
  }

  lemma ChildLoosens(n: Node, k: nat)
    requires k < |n.children|
    ensures Loosens(Leaves(None, [n.children[k]]), Leaves(Some(n.role), [n.children[k]]), None)
  {
    BareLoosens([n.children[k]], n.role, 1);
  }

  /** The pieces say what the container said from `start` on; only bare children lose their role. */
  lemma {:induction false} PiecesLoosen(plan: Plan, n: Node, i: nat, start: nat, k: nat)
    requires IsPlainMessage(n) && start <= k <= |n.children|
    ensures Loosens(Leaves(None, PiecesFrom(plan, n, i, start, k)), Leaves(Some(n.role), n.children[start..]), None)
    decreases |n.children| - k
  {
    if k == |n.children| {
      SliceSays(n, start, k);
      assert n.children[start..k] == n.children[start..];
    } else if plan.childWhen(n.children[k], i) {
      SliceSays(n, start, k);
      ChildLoosens(n, k);
      PiecesLoosen(plan, n, i, k + 1, k + 1);
      ThreeLoosen(Slice(n, start, k), [n.children[k]], PiecesFrom(plan, n, i, k + 1, k + 1),
                  n.children[start..k], [n.children[k]], n.children[k + 1..], n.role);
      CutThree(n.children, start, k);
    } else {
      PiecesLoosen(plan, n, i, start, k + 1);
    }
  }

  lemma CutThree(children: seq<Node>, start: nat, k: nat)
    requires start <= k < |children|
    ensures children[start..] == children[start..k] + [children[k]] + children[k + 1..]
  {
  }

  lemma ThreeLoosen(a: seq<Node>, b: seq<Node>, c: seq<Node>, x: seq<Node>, y: seq<Node>, z: seq<Node>, role: string)
    requires Leaves(None, a) == Leaves(Some(role), x)
    requires Loosens(Leaves(None, b), Leaves(Some(role), y), None) && Loosens(Leaves(None, c), Leaves(Some(role), z), None)
    ensures Loosens(Leaves(None, a + b + c), Leaves(Some(role), x + y + z), None)
  {
    LeavesConcat(None, a, b);
    LeavesConcat(None, a + b, c);
    LeavesConcat(Some(role), x, y);
    LeavesConcat(Some(role), x + y, z);
  }

  lemma UnfoldedLoosens(plan: Plan, n: Node, i: nat)
    requires Unfolded(plan, n, i).Some?
    ensures Loosens(Leaves(None, Unfolded(plan, n, i).value), Said(None, n), None)
  {
    if plan.when(n, i, false) && TakesOut(plan, n, i) {
      PiecesLoosen(plan, n, i, 0, 0);
      assert n.children[0..] == n.children;
    } else {
      LeavesOfOne(None, n);
    }
  }

  /** Unfolding keeps every leaf and their order; a leaf keeps its role unless it was taken out of its container. */
  lemma {:induction false} UnfoldingKeepsLeaves(plan: Plan, input: seq<Node>, n: nat)
    requires n <= |input| && UnfoldAll(plan, input, n).Some?
    ensures Loosens(Leaves(None, UnfoldAll(plan, input, n).value), SaidAll(None, input, n), None)
    decreases n
  {
    if n > 0 {
      var front, pieces := UnfoldAll(plan, input, n - 1).value, Unfolded(plan, input[n - 1], n - 1).value;
      UnfoldingKeepsLeaves(plan, input, n - 1);
      UnfoldedLoosens(plan, input[n - 1], n - 1);
      LeavesConcat(None, front, pieces);
      LoosensConcat(Leaves(None, front), SaidAll(None, input, n - 1), Leaves(None, pieces), Said(None, input[n - 1]), None);
    }
  }

  // ---- Grouping as it runs ----

  lemma {:induction false} RunEndIs(plan: Plan, input: seq<Node>, from: nat, end: nat)
    requires from <= end <= |input| && (forall i | from <= i < end :: Picks(plan, input, i))
    requires end < |input| ==> !Picks(plan, input, end)
    ensures RunEnd(plan, input, from) == end
    decreases end - from
  {
    if from < end {
      RunEndIs(plan, input, from + 1, end);
    }
  }

  /** The first `at` roots have become `done`; the rest is still to be grouped. */
  predicate GroupedUpTo(plan: Plan, input: seq<Node>, at: nat, done: seq<Node>) {
    at <= |input| &&
    GroupFrom(plan, input, 0) == (match GroupFrom(plan, input, at) case None => None case Some(rest) => Some(done + rest))
  }

  lemma PassRoot(plan: Plan, input: seq<Node>, at: nat, done: seq<Node>)
    requires GroupedUpTo(plan, input, at, done) && at < |input| && !Picks(plan, input, at)
    ensures GroupedUpTo(plan, input, at + 1, done + [input[at]])
  {
    match GroupFrom(plan, input, at + 1)
    case None =>
    case Some(rest) => Associate(done, [input[at]], rest);
  }

  lemma PassRun(plan: Plan, input: seq<Node>, at: nat, end: nat, done: seq<Node>)
    requires GroupedUpTo(plan, input, at, done) && at < end <= |input|
    requires (forall i | at <= i < end :: Picks(plan, input, i)) && (end < |input| ==> !Picks(plan, input, end))
    ensures
      match Grouped(plan, input[at..end])
      case None => GroupFrom(plan, input, 0) == None
      case Some(group) => GroupedUpTo(plan, input, end, done + [group])
  {
    RunEndIs(plan, input, at + 1, end);
    match (Grouped(plan, input[at..end]), GroupFrom(plan, input, end))
    case (Some(group), Some(rest)) => Associate(done, [group], rest);
    case _ =>
  }

  /** The roots so far; no list of its own while nothing has changed. */
  function Done(input: seq<Node>, output: Option<seq<Node>>, at: nat): seq<Node>
    requires at <= |input|
  {
    match output case None => input[..at] case Some(list) => list
  }

  /** Turns a run of roots into one container, unless it is a single message. */
  method FlushRun(plan: Plan, input: seq<Node>, start: nat, end: nat, output: Option<seq<Node>>) returns (ok: bool, next: Option<seq<Node>>)
    requires start < end <= |input| && GroupedUpTo(plan, input, start, Done(input, output, start))
    requires (forall i | start <= i < end :: Picks(plan, input, i)) && (end < |input| ==> !Picks(plan, input, end))
    ensures ok ==> GroupedUpTo(plan, input, end, Done(input, next, end))
    ensures !ok ==> GroupFrom(plan, input, 0) == None
  {
    PassRun(plan, input, start, end, Done(input, output, start));
    var run := input[start..end];
    if |run| == 1 && run[0].kind == MESSAGE {
      assert input[..end] == input[..start] + [run[0]];
      return true, match output case None => None case Some(list) => Some(list + [run[0]]);
    }
    var members := CollectMembers(plan, run);
    if members.None? {
      return false, output;
    }
    ok, next := true, Some(Done(input, output, start) + [Node(MESSAGE, plan.role, "", "", members.value, "", "")]);
  }

  method CollectMembers(plan: Plan, run: seq<Node>) returns (r: Option<seq<Node>>)
    ensures r == if CanGroup(plan, run) then Some(Members(run)) else None
  {
    var members: seq<Node> := [];
    for index := 0 to |run|
      invariant members == Members(run[..index]) && CanGroup(plan, run[..index])
    {
      assert run[..index + 1][..index] == run[..index] && run[index] in run;
      var node := run[index];
      if plan.steps(node).None? || (node.kind == MESSAGE && (node.role != plan.role || !IsPlain(node))) {
        return None;
      }
      members := members + if node.kind == MESSAGE then node.children else [node];
    }
    assert run[..|run|] == run;
    r := Some(members);
  }

  /** A root outside every run is copied once copying has begun. */
  method KeepRoot(plan: Plan, input: seq<Node>, index: nat, output: Option<seq<Node>>) returns (next: Option<seq<Node>>)
    requires index < |input| && !Picks(plan, input, index) && GroupedUpTo(plan, input, index, Done(input, output, index))
    ensures GroupedUpTo(plan, input, index + 1, Done(input, next, index + 1))
  {
    PassRoot(plan, input, index, Done(input, output, index));
    assert input[..index + 1] == input[..index] + [input[index]];
    next := match output case None => None case Some(list) => Some(list + [input[index]]);
  }

  method GroupRuns(plan: Plan, input: seq<Node>) returns (r: Layout)
    ensures ResultOf(r, input) == GroupFrom(plan, input, 0)
  {
    var output: Option<seq<Node>>, start := None, -1;
    StartGrouping(plan, input);
    for index := 0 to |input|
      invariant -1 <= start < index
      invariant start >= 0 ==> forall i | start <= i < index :: Picks(plan, input, i)
      invariant var at := if start < 0 then index else start; GroupedUpTo(plan, input, at, Done(input, output, at))
    {
      if plan.when(input[index], index, false) {
        if start < 0 {
          start := index;
        }
      } else {
        if start >= 0 {
          var ok, next := FlushRun(plan, input, start, index, output);
          if !ok {
            return Refused;
          }
          output, start := next, -1;
        }
        output := KeepRoot(plan, input, index, output);
      }
    }
    if start >= 0 {
      var ok, next := FlushRun(plan, input, start, |input|, output);
      if !ok {
        return Refused;
      }
      output := next;
    }
    r := FinishGrouping(plan, input, output);
  }

  method FinishGrouping(plan: Plan, input: seq<Node>, output: Option<seq<Node>>) returns (r: Layout)
    requires GroupedUpTo(plan, input, |input|, Done(input, output, |input|))
    ensures ResultOf(r, input) == GroupFrom(plan, input, 0)
  {
    EndGrouping(plan, input, Done(input, output, |input|));
    r := match output case None => Kept case Some(list) => Changed(list);
  }

  lemma StartGrouping(plan: Plan, input: seq<Node>)
    ensures GroupedUpTo(plan, input, 0, input[..0])
  {
    match GroupFrom(plan, input, 0)
    case None =>
    case Some(rest) => assert input[..0] + rest == rest;
  }

  lemma EndGrouping(plan: Plan, input: seq<Node>, done: seq<Node>)
    requires GroupedUpTo(plan, input, |input|, done)
    ensures GroupFrom(plan, input, 0) == Some(done) && input[..|input|] == input
  {
    assert done + [] == done;
  }

  // ---- Unfolding as it runs ----

  lemma {:induction false} SkipPieces(plan: Plan, n: Node, i: nat, start: nat, k: nat, m: nat)
    requires start <= k <= m <= |n.children| && forall c | k <= c < m :: !plan.childWhen(n.children[c], i)
    ensures PiecesFrom(plan, n, i, start, k) == PiecesFrom(plan, n, i, start, m)
    decreases m - k
  {
    if k < m {
      SkipPieces(plan, n, i, start, k + 1, m);
    }
  }

  /** The positions of the selected children, in order. */
  predicate AreSelected(plan: Plan, n: Node, i: nat, selected: seq<nat>, upto: nat)
    requires upto <= |n.children|
  {
    && (forall s | 0 <= s < |selected| :: selected[s] < upto && plan.childWhen(n.children[selected[s]], i))
    && (forall s, t | 0 <= s < t < |selected| :: selected[s] < selected[t])
    && (forall c | 0 <= c < upto && plan.childWhen(n.children[c], i) :: c in selected)
  }

  method SelectChildren(plan: Plan, n: Node, i: nat) returns (selected: seq<nat>)
    ensures AreSelected(plan, n, i, selected, |n.children|)
  {
    selected := [];
    for child := 0 to |n.children|
      invariant AreSelected(plan, n, i, selected, child)
    {
      if plan.childWhen(n.children[child], i) {
        selected := selected + [child];
      }
    }
  }

  /** The pieces before `start` are made; no selected child lies between `start` and the next position in the list. */
  predicate PiecesMade(plan: Plan, n: Node, i: nat, start: nat, pieces: seq<Node>) {
    start <= |n.children| && PiecesFrom(plan, n, i, 0, 0) == pieces + PiecesFrom(plan, n, i, start, start)
  }

  lemma TakeChild(plan: Plan, n: Node, i: nat, start: nat, child: nat, pieces: seq<Node>)
    requires PiecesMade(plan, n, i, start, pieces) && start <= child < |n.children| && plan.childWhen(n.children[child], i)
    requires forall c | start <= c < child :: !plan.childWhen(n.children[c], i)
    ensures PiecesMade(plan, n, i, child + 1, pieces + (Slice(n, start, child) + [n.children[child]]))
  {
    SkipPieces(plan, n, i, start, start, child);
    Associate(pieces, Slice(n, start, child) + [n.children[child]], PiecesFrom(plan, n, i, child + 1, child + 1));
  }

  lemma LastStretch(plan: Plan, n: Node, i: nat, start: nat, pieces: seq<Node>)
    requires PiecesMade(plan, n, i, start, pieces)
    requires forall c | start <= c < |n.children| :: !plan.childWhen(n.children[c], i)
    ensures PiecesFrom(plan, n, i, 0, 0) == pieces + Slice(n, start, |n.children|)
  {
    SkipPieces(plan, n, i, start, start, |n.children|);
  }

  lemma NoneBetween(plan: Plan, n: Node, i: nat, selected: seq<nat>, s: nat)
    requires AreSelected(plan, n, i, selected, |n.children|) && s <= |selected|
    ensures
      var start := if s == 0 then 0 else selected[s - 1] + 1;
      var end := if s == |selected| then |n.children| else selected[s];
      start <= end && forall c | start <= c < end :: !plan.childWhen(n.children[c], i)
  {
    var start := if s == 0 then 0 else selected[s - 1] + 1;
    var end := if s == |selected| then |n.children| else selected[s];
    forall c | start <= c < end && plan.childWhen(n.children[c], i)
      ensures false
    {
      var t :| 0 <= t < |selected| && selected[t] == c;
    }
  }

  method SplitContainer(plan: Plan, n: Node, i: nat, selected: seq<nat>) returns (pieces: seq<Node>)
    requires AreSelected(plan, n, i, selected, |n.children|)
    ensures pieces == PiecesFrom(plan, n, i, 0, 0)
  {
    pieces := [];
    var start := 0;
    assert [] + PiecesFrom(plan, n, i, 0, 0) == PiecesFrom(plan, n, i, 0, 0);
    for s := 0 to |selected|
      invariant start == (if s == 0 then 0 else selected[s - 1] + 1) && PiecesMade(plan, n, i, start, pieces)
    {
      var child := selected[s];
      NoneBetween(plan, n, i, selected, s);
      TakeChild(plan, n, i, start, child, pieces);
      pieces := pieces + (Slice(n, start, child) + [n.children[child]]);
      start := child + 1;
    }
    NoneBetween(plan, n, i, selected, |selected|);
    LastStretch(plan, n, i, start, pieces);
    pieces := pieces + Slice(n, start, |n.children|);
  }

  lemma {:induction false} UnfoldStops(plan: Plan, input: seq<Node>, k: nat, n: nat)
    requires k <= n <= |input| && UnfoldAll(plan, input, k).None?
    ensures UnfoldAll(plan, input, n).None?
    decreases n
  {
    if k < n {
      UnfoldStops(plan, input, k, n - 1);
    }
  }

  /** One root as it is unfolded. */
  method UnfoldRoot(plan: Plan, n: Node, i: nat) returns (refused: bool, pieces: Option<seq<Node>>)
    ensures refused ==> Unfolded(plan, n, i) == None
    ensures !refused ==> Unfolded(plan, n, i) == Some(match pieces case None => [n] case Some(list) => list)
  {
    refused, pieces := false, None;
    if !plan.when(n, i, false) {
      return;
    }
    var selected := SelectChildren(plan, n, i);
    if |selected| == 0 {
      return;
    }
    assert plan.childWhen(n.children[selected[0]], i);
    if n.kind != MESSAGE || !IsPlain(n) || plan.steps(n).None? {
      return true, None;
    }
    var list := SplitContainer(plan, n, i, selected);
    pieces := Some(list);
  }

  method UnfoldChildren(plan: Plan, input: seq<Node>) returns (r: Layout)
    ensures ResultOf(r, input) == UnfoldAll(plan, input, |input|)
  {
    var output: Option<seq<Node>> := None;
    for index := 0 to |input|
      invariant UnfoldAll(plan, input, index) == Some(Done(input, output, index))
    {
      var refused, pieces := UnfoldRoot(plan, input[index], index);
      if refused {
        UnfoldStops(plan, input, index + 1, |input|);
        return Refused;
      }
      assert input[..index + 1] == input[..index] + [input[index]];
      match pieces {
        case None => output := match output case None => None case Some(list) => Some(list + [input[index]]);
        case Some(more) => output := Some(Done(input, output, index) + more);
      }
    }
    assert input[..|input|] == input;
    r := match output case None => Kept case Some(list) => Changed(list);
  }

  // ---- Unfolding and grouping again ----

  /** Up to where it came from. */
  function Erase(n: Node): Node {
    n.(source := "", native := "")
  }

  function EraseAll(content: seq<Node>): (r: seq<Node>)
    ensures |r| == |content| && forall i | 0 <= i < |r| :: r[i] == Erase(content[i])
  {
    seq(|content|, i requires 0 <= i < |content| => Erase(content[i]))
  }

  /** Selected roots are plain messages of the role, no two adjacent, and only leaves are taken out of them. */
  predicate CanRegroup(unfold: Plan, role: string, input: seq<Node>) {
    && (forall i | 0 <= i < |input| && Picks(unfold, input, i) ::
          IsPlainMessage(input[i]) && input[i].role == role && unfold.steps(input[i]).Some? && OnlyLeaves(unfold, input[i], i))
    && (forall i | 0 < i < |input| && Picks(unfold, input, i) :: !Picks(unfold, input, i - 1))
  }

  predicate OnlyLeaves(unfold: Plan, n: Node, i: nat) {
    forall k | 0 <= k < |n.children| && unfold.childWhen(n.children[k], i) :: n.children[k].kind != MESSAGE
  }

  lemma {:induction false} UnfoldWorks(unfold: Plan, role: string, input: seq<Node>, n: nat)
    requires CanRegroup(unfold, role, input) && n <= |input|
    ensures UnfoldAll(unfold, input, n).Some?
  {
    if n > 0 {
      UnfoldWorks(unfold, role, input, n - 1);
      assert Picks(unfold, input, n - 1) <==> unfold.when(input[n - 1], n - 1, false);
    }
  }

  /** Which unfolded roots come from a selected one. */
  function Marks(unfold: Plan, input: seq<Node>, n: nat): seq<bool>
    requires n <= |input| && UnfoldAll(unfold, input, n).Some?
  {
    if n == 0 then []
    else
      var pieces := Unfolded(unfold, input[n - 1], n - 1).value;
      Marks(unfold, input, n - 1) + seq(|pieces|, k => Picks(unfold, input, n - 1))
  }

  /** The group selector picks exactly the pieces of selected roots, and nothing refuses. */
  predicate PicksPieces(group: Plan, unfold: Plan, input: seq<Node>)
    requires UnfoldAll(unfold, input, |input|).Some?
  {
    var content, marks := UnfoldAll(unfold, input, |input|).value, Marks(unfold, input, |input|);
    |marks| == |content| && forall j | 0 <= j < |content| :: (Picks(group, content, j) <==> marks[j]) && group.steps(content[j]).Some?
  }

  lemma {:induction false} UnfoldPrefix(unfold: Plan, input: seq<Node>, k: nat, n: nat)
    requires k <= n <= |input| && UnfoldAll(unfold, input, n).Some?
    ensures UnfoldAll(unfold, input, k).Some?
    ensures UnfoldAll(unfold, input, k).value <= UnfoldAll(unfold, input, n).value
    ensures |Marks(unfold, input, k)| == |UnfoldAll(unfold, input, k).value| && Marks(unfold, input, k) <= Marks(unfold, input, n)
    decreases n
  {
    if k < n {
      UnfoldPrefix(unfold, input, k, n - 1);
    } else if n > 0 {
      UnfoldPrefix(unfold, input, n - 1, n - 1);
    }
  }

  /** Where the pieces of a root stand. */
  lemma PiecesStand(unfold: Plan, input: seq<Node>, i: nat)
    requires i < |input| && UnfoldAll(unfold, input, |input|).Some?
    ensures UnfoldAll(unfold, input, i).Some? && UnfoldAll(unfold, input, i + 1).Some? && Unfolded(unfold, input[i], i).Some?
    ensures
      var content, marks := UnfoldAll(unfold, input, |input|).value, Marks(unfold, input, |input|);
      var from, to := |UnfoldAll(unfold, input, i).value|, |UnfoldAll(unfold, input, i + 1).value|;
      && from <= to <= |content| == |marks| && content[from..to] == Unfolded(unfold, input[i], i).value
      && forall j | from <= j < to :: marks[j] == Picks(unfold, input, i)
  {
    UnfoldPrefix(unfold, input, i + 1, |input|);
    UnfoldPrefix(unfold, input, |input|, |input|);
    UnfoldPrefix(unfold, input, i, i + 1);
    var content, marks := UnfoldAll(unfold, input, |input|).value, Marks(unfold, input, |input|);
    var front, both := UnfoldAll(unfold, input, i).value, UnfoldAll(unfold, input, i + 1).value;
    assert content[|front|..|both|] == both[|front|..];
    forall j | |front| <= j < |both|
      ensures marks[j] == Picks(unfold, input, i)
    {
      assert marks[j] == Marks(unfold, input, i + 1)[j];
    }
  }

  /** The members of the pieces are the children. */
  lemma {:induction false} PiecesGiveChildren(unfold: Plan, n: Node, i: nat, start: nat, k: nat)
    requires start <= k <= |n.children| && n.kind == MESSAGE && OnlyLeaves(unfold, n, i)
    ensures Members(PiecesFrom(unfold, n, i, start, k)) == n.children[start..]
    decreases |n.children| - k
  {
    if k == |n.children| {
      SliceMembers(n, start, k);
      assert n.children[start..k] == n.children[start..];
    } else if unfold.childWhen(n.children[k], i) {
      PiecesGiveChildren(unfold, n, i, k + 1, k + 1);
      SliceMembers(n, start, k);
      MembersConcat(Slice(n, start, k), [n.children[k]]);
      MembersConcat(Slice(n, start, k) + [n.children[k]], PiecesFrom(unfold, n, i, k + 1, k + 1));
      MembersOfOne(n.children[k]);
      CutThree(n.children, start, k);
    } else {
      PiecesGiveChildren(unfold, n, i, start, k + 1);
    }
  }

  lemma MembersOfOne(n: Node)
    ensures Members([n]) == if n.kind == MESSAGE then n.children else [n]
  {
    assert [n][..0] == [];
    assert [] + n.children == n.children && [] + [n] == [n];
  }

  lemma SliceMembers(n: Node, from: nat, to: nat)
    requires from <= to <= |n.children| && n.kind == MESSAGE
    ensures Members(Slice(n, from, to)) == n.children[from..to]
  {
    if from < to {
      MembersOfOne(n.(children := n.children[from..to], native := ""));
    }
  }

  lemma {:induction false} MembersConcat(a: seq<Node>, b: seq<Node>)
    ensures Members(a + b) == Members(a) + Members(b)
    decreases |b|
  {
    ConcatFront(a, b);
    if b != [] {
      MembersConcat(a, b[..|b| - 1]);
    }
  }

  lemma {:induction false} PiecesShape(unfold: Plan, n: Node, i: nat, start: nat, k: nat)
    requires start <= k <= |n.children| && IsPlainMessage(n) && OnlyLeaves(unfold, n, i)
    ensures forall p | p in PiecesFrom(unfold, n, i, start, k) :: p.kind == MESSAGE ==> p.role == n.role && IsPlain(p)
    ensures (exists c | k <= c < |n.children| :: unfold.childWhen(n.children[c], i)) ==>
      exists p | p in PiecesFrom(unfold, n, i, start, k) :: p.kind != MESSAGE
    decreases |n.children| - k
  {
    if k < |n.children| {
      if unfold.childWhen(n.children[k], i) {
        PiecesShape(unfold, n, i, k + 1, k + 1);
        assert n.children[k] in PiecesFrom(unfold, n, i, start, k);
      } else {
        PiecesShape(unfold, n, i, start, k + 1);
      }
    }
  }

  lemma SomeLeafTakenOut(unfold: Plan, n: Node, i: nat, pieces: seq<Node>)
    requires IsPlainMessage(n) && OnlyLeaves(unfold, n, i) && TakesOut(unfold, n, i) && pieces == PiecesFrom(unfold, n, i, 0, 0)
    ensures (exists p | p in pieces :: p.kind != MESSAGE) && Members(pieces) == n.children
    ensures forall p | p in pieces :: p.kind == MESSAGE ==> p.role == n.role && IsPlain(p)
  {
    PiecesShape(unfold, n, i, 0, 0);
    PiecesGiveChildren(unfold, n, i, 0, 0);
    assert n.children[0..] == n.children;
  }

  lemma RegroupPieces(group: Plan, unfold: Plan, n: Node, i: nat, pieces: seq<Node>)
    requires IsPlainMessage(n) && n.role == group.role && OnlyLeaves(unfold, n, i) && unfold.when(n, i, false)
    requires Unfolded(unfold, n, i) == Some(pieces) && forall p | p in pieces :: group.steps(p).Some?
    ensures pieces != [] && Grouped(group, pieces).Some? && Erase(Grouped(group, pieces).value) == Erase(n)
  {
    if TakesOut(unfold, n, i) {
      SomeLeafTakenOut(unfold, n, i, pieces);
      assert CanGroup(group, pieces);
    }
  }

  lemma UnpickedRoot(group: Plan, unfold: Plan, input: seq<Node>, content: seq<Node>, i: nat)
    requires i < |input| && UnfoldAll(unfold, input, |input|) == Some(content) && PicksPieces(group, unfold, input)
    requires !Picks(unfold, input, i)
    ensures UnfoldAll(unfold, input, i).Some? && UnfoldAll(unfold, input, i + 1).Some?
    ensures
      var from := |UnfoldAll(unfold, input, i).value|;
      && |UnfoldAll(unfold, input, i + 1).value| == from + 1 <= |content|
      && content[from] == input[i] && !Picks(group, content, from)
  {
    PiecesStand(unfold, input, i);
    var from, to := |UnfoldAll(unfold, input, i).value|, |UnfoldAll(unfold, input, i + 1).value|;
    assert content[from..to] == [input[i]];
    assert content[from] == content[from..to][0];
  }

  lemma PickedRoot(group: Plan, unfold: Plan, input: seq<Node>, content: seq<Node>, i: nat)
    requires i < |input| && UnfoldAll(unfold, input, |input|) == Some(content) && CanRegroup(unfold, group.role, input)
    requires PicksPieces(group, unfold, input) && Picks(unfold, input, i)
    ensures UnfoldAll(unfold, input, i).Some? && UnfoldAll(unfold, input, i + 1).Some?
    ensures
      var from, to := |UnfoldAll(unfold, input, i).value|, |UnfoldAll(unfold, input, i + 1).value|;
      && from < to <= |content| && (forall j | from <= j < to :: Picks(group, content, j))
      && Grouped(group, content[from..to]).Some? && Erase(Grouped(group, content[from..to]).value) == Erase(input[i])
  {
    PiecesStand(unfold, input, i);
    var from, to := |UnfoldAll(unfold, input, i).value|, |UnfoldAll(unfold, input, i + 1).value|;
    StepsOfSlice(group, content, from, to);
    RegroupPieces(group, unfold, input[i], i, content[from..to]);
  }

  lemma StepsOfSlice(group: Plan, content: seq<Node>, from: nat, to: nat)
    requires from <= to <= |content| && forall j | 0 <= j < |content| :: group.steps(content[j]).Some?
    ensures forall p | p in content[from..to] :: group.steps(p).Some?
  {
    forall p | p in content[from..to]
      ensures group.steps(p).Some?
    {
      var j :| 0 <= j < to - from && content[from..to][j] == p;
      assert content[from + j] == p;
    }
  }

  /** Grouping from the pieces of root `i` on gives back the roots from `i` on. */
  predicate Regroups(group: Plan, content: seq<Node>, from: nat, input: seq<Node>, i: nat) {
    from <= |content| && i <= |input| && GroupFrom(group, content, from).Some? &&
    EraseAll(GroupFrom(group, content, from).value) == EraseAll(input[i..])
  }

  lemma RegroupRun(group: Plan, content: seq<Node>, from: nat, to: nat, input: seq<Node>, i: nat)
    requires i < |input| && from < to && Regroups(group, content, to, input, i + 1)
    requires (forall j | from <= j < to :: Picks(group, content, j)) && (to < |content| ==> !Picks(group, content, to))
    requires Grouped(group, content[from..to]).Some? && Erase(Grouped(group, content[from..to]).value) == Erase(input[i])
    ensures Regroups(group, content, from, input, i)
  {
    RunEndIs(group, content, from + 1, to);
    EraseCons(Grouped(group, content[from..to]).value, GroupFrom(group, content, to).value, input, i);
  }

  lemma RegroupOther(group: Plan, content: seq<Node>, from: nat, input: seq<Node>, i: nat)
    requires i < |input| && from < |content| && Regroups(group, content, from + 1, input, i + 1)
    requires !Picks(group, content, from) && content[from] == input[i]
    ensures Regroups(group, content, from, input, i)
  {
    EraseCons(content[from], GroupFrom(group, content, from + 1).value, input, i);
  }

  lemma {:induction false} RegroupFrom(group: Plan, unfold: Plan, input: seq<Node>, content: seq<Node>, i: nat)
    requires i <= |input| && UnfoldAll(unfold, input, |input|) == Some(content) && CanRegroup(unfold, group.role, input)
    requires PicksPieces(group, unfold, input)
    ensures UnfoldAll(unfold, input, i).Some?
    ensures Regroups(group, content, |UnfoldAll(unfold, input, i).value|, input, i)
    decreases |input| - i
  {
    if i == |input| {
      assert input[i..] == [];
    } else {
      RegroupFrom(group, unfold, input, content, i + 1);
      var to := |UnfoldAll(unfold, input, i + 1).value|;
      if Picks(unfold, input, i) {
        PickedRoot(group, unfold, input, content, i);
        NextIsUnpicked(group, unfold, input, content, i);
        RegroupRun(group, content, |UnfoldAll(unfold, input, i).value|, to, input, i);
      } else {
        UnpickedRoot(group, unfold, input, content, i);
        RegroupOther(group, content, |UnfoldAll(unfold, input, i).value|, input, i);
      }
    }
  }

  lemma NextIsUnpicked(group: Plan, unfold: Plan, input: seq<Node>, content: seq<Node>, i: nat)
    requires i < |input| && UnfoldAll(unfold, input, |input|) == Some(content) && CanRegroup(unfold, group.role, input)
    requires PicksPieces(group, unfold, input) && Picks(unfold, input, i)
    ensures UnfoldAll(unfold, input, i + 1).Some?
    ensures var to := |UnfoldAll(unfold, input, i + 1).value|; to < |content| ==> !Picks(group, content, to)
  {
    PiecesStand(unfold, input, i);
    if i + 1 < |input| {
      UnpickedRoot(group, unfold, input, content, i + 1);
    }
  }

  lemma EraseCons(head: Node, rest: seq<Node>, input: seq<Node>, i: nat)
    requires i < |input| && Erase(head) == Erase(input[i]) && EraseAll(rest) == EraseAll(input[i + 1..])
    ensures EraseAll([head] + rest) == EraseAll(input[i..])
  {
    assert |rest| == |EraseAll(rest)| == |input| - i - 1;
    forall k | 0 <= k < |input| - i
      ensures EraseAll([head] + rest)[k] == EraseAll(input[i..])[k]
    {
      if k > 0 {
        assert EraseAll(rest)[k - 1] == EraseAll(input[i + 1..])[k - 1];
      }
    }
  }

  /** Main result: taking leaves out of plain messages and grouping exactly the pieces again gives the content back, up
      to where each node came from. */
  lemma UnfoldThenGroupIsIdentity(group: Plan, unfold: Plan, input: seq<Node>)
    requires CanRegroup(unfold, group.role, input)
    requires UnfoldAll(unfold, input, |input|).Some? ==> PicksPieces(group, unfold, input)
    ensures UnfoldAll(unfold, input, |input|).Some?
    ensures
      var grouped := GroupFrom(group, UnfoldAll(unfold, input, |input|).value, 0);
      grouped.Some? && EraseAll(grouped.value) == EraseAll(input)
  {
    UnfoldWorks(unfold, group.role, input, |input|);
    RegroupFrom(group, unfold, input, UnfoldAll(unfold, input, |input|).value, 0);
    assert input[0..] == input;
  }
}
