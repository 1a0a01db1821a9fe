/** Reordering a sequence by a permutation of its positions. */
module Permutations {

  function Upto(n: nat): (r: seq<nat>)
    ensures |r| == n && forall i | 0 <= i < n :: r[i] == i
  {
    seq(n, i => i)
  }

  predicate IsOrder(order: seq<nat>, n: nat) {
    multiset(order) == multiset(Upto(n))
  }

  lemma OrderInRange(order: seq<nat>, n: nat)
    requires IsOrder(order, n)
    ensures |order| == n && forall k | 0 <= k < n :: order[k] < n
  {
    assert |multiset(order)| == |order| && |multiset(Upto(n))| == n;
    forall k | 0 <= k < |order|
      ensures order[k] < n
    {
      assert order[k] in multiset(order);
      assert order[k] in Upto(n);
    }
  }

  function Permute<T>(s: seq<T>, order: seq<nat>): (r: seq<T>)
    requires forall k | 0 <= k < |order| :: order[k] < |s|
    ensures |r| == |order| && forall k | 0 <= k < |order| :: r[k] == s[order[k]]
  {
    seq(|order|, k requires 0 <= k < |order| => s[order[k]])
  }

  function Skip(b: seq<nat>, k: nat): (r: seq<nat>)
    requires k < |b|
    ensures |r| == |b| - 1 && forall i | 0 <= i < |r| :: r[i] == b[if i < k then i else i + 1]
  {
    b[..k] + b[k + 1..]
  }

  lemma SkipMultiset(b: seq<nat>, k: nat)
    requires k < |b|
    ensures multiset(Skip(b, k)) == multiset(b) - multiset{b[k]}
  {
    assert b == b[..k] + ([b[k]] + b[k + 1..]);
    assert multiset(b) == multiset(b[..k]) + (multiset{b[k]} + multiset(b[k + 1..]));
  }

  lemma PermuteSkip<T>(s: seq<T>, b: seq<nat>, k: nat)
    requires k < |b| && forall i | 0 <= i < |b| :: b[i] < |s|
    ensures multiset(Permute(s, b)) == multiset(Permute(s, Skip(b, k))) + multiset{s[b[k]]}
  {
    var left, right := Permute(s, b[..k]), Permute(s, b[k + 1..]);
    MiddleOut(left, s[b[k]], right);
    PermuteSplit(s, b, k);
  }

  lemma PermuteSplit<T>(s: seq<T>, b: seq<nat>, k: nat)
    requires k < |b| && forall i | 0 <= i < |b| :: b[i] < |s|
    ensures Permute(s, b) == Permute(s, b[..k]) + ([s[b[k]]] + Permute(s, b[k + 1..]))
    ensures Permute(s, Skip(b, k)) == Permute(s, b[..k]) + Permute(s, b[k + 1..])
  {
  }

  lemma MiddleOut<T>(left: seq<T>, x: T, right: seq<T>)
    ensures multiset(left + ([x] + right)) == multiset(left + right) + multiset{x}
  {
  }

  lemma FindPosition(a: seq<nat>, b: seq<nat>) returns (k: nat)
    requires a != [] && multiset(a) == multiset(b)
    ensures k < |b| && b[k] == a[|a| - 1]
    ensures multiset(a[..|a| - 1]) == multiset(Skip(b, k))
  {
    var last := |a| - 1;
    assert a == a[..last] + [a[last]];
    assert a[last] in multiset(b);
    k :| 0 <= k < |b| && b[k] == a[last];
    SkipMultiset(b, k);
    assert multiset(a[..last]) == multiset(a) - multiset{a[last]};
  }

  /** Picking the same positions in another order picks the same values. */
  lemma {:induction false} PermuteKeepsMultiset<T>(s: seq<T>, a: seq<nat>, b: seq<nat>)
    requires multiset(a) == multiset(b) && forall k | 0 <= k < |a| :: a[k] < |s|
    requires forall k | 0 <= k < |b| :: b[k] < |s|
    ensures multiset(Permute(s, a)) == multiset(Permute(s, b))
    decreases |a|
  {
    if a == [] {
      assert |multiset(b)| == |b|;
    } else {
      var last := |a| - 1;
      var k := FindPosition(a, b);
      PermuteSkip(s, b, k);
      PermuteKeepsMultiset(s, a[..last], Skip(b, k));
      assert Permute(s, a) == Permute(s, a[..last]) + [s[a[last]]];
    }
  }
}

/** One batch of tool calls: what is executed, what is refused, where the batch pauses, and which
    calls are run as one parallel group. */
module Batches {
  import opened Options
  import opened AgentTypes
  import opened Gates
  import opened Pairing
  import opened Permutations

  const ASK_USER := "ask_user"
  const UPDATE_PLAN := "update_plan"

  /** What executing a tool yields: the result and the session it leaves behind. */
  datatype Effect<W> = Effect(ok: bool, data: string, world: W)

  /** The host's part: tool lookup and execution, and how it reads tool arguments. `W` is the session
      state tools can see and change. `ask` gives the call id of a parsed question. `finish` is the scheduler's
      choice: the order in which the members of a parallel group complete. */
  datatype Host<!W> = Host(
    find: string -> Option<Tool>,
    exec: (Call, W) -> Effect<W>,
    ask: Call -> Option<string>,
    declaresReady: Call -> bool,
    finish: seq<Call> -> seq<nat>)

  /** Outcome of a batch: results in conversation order, the same results in the order they were stored, the
      calls that really ran, and the pause if any. */
  datatype Batch<W> = Batch(
    results: seq<Result>, logged: seq<Result>, executed: seq<Call>, pending: Option<Pending>, world: W, planReady: bool)

  predicate IsQuestion<W>(h: Host<W>, call: Call) {
    call.name == ASK_USER && h.ask(call).Some?
  }

  predicate MayGroup(tool: Tool) {
    !tool.gated && tool.concurrentSafe
  }

  predicate CanRunParallel<W>(h: Host<W>, s: Settings, approved: set<string>, call: Call) {
    match h.find(call.name)
    case None => false
    case Some(tool) => MayGroup(tool) && GateCall(s, call, tool, approved).Allow?
  }

  /** How many calls at the front of `calls` may join the running group. */
  function LeadingParallel<W>(h: Host<W>, s: Settings, approved: set<string>, calls: seq<Call>): (n: nat)
    ensures n <= |calls|
    ensures forall i | 0 <= i < n :: CanRunParallel(h, s, approved, calls[i])
    ensures n < |calls| ==> !CanRunParallel(h, s, approved, calls[n])
  {
    if calls == [] || !CanRunParallel(h, s, approved, calls[0]) then 0
    else 1 + LeadingParallel(h, s, approved, calls[1..])
  }

  function RanResult<W>(call: Call, effect: Effect<W>): Result {
    Result(call.id, call.name, Ran(effect.ok, effect.data))
  }

  function DeniedResult(call: Call, why: Denial): Result {
    Result(call.id, call.name, Denied(why))
  }

  /** Every member of a group starts from the same snapshot, so only its result survives. */
  function GroupResults<W>(h: Host<W>, group: seq<Call>, w: W): (results: seq<Result>)
    ensures |results| == |group|
    ensures forall i | 0 <= i < |group| :: results[i] == RanResult(group[i], h.exec(group[i], w))
  {
    seq(|group|, i requires 0 <= i < |group| => RanResult(group[i], h.exec(group[i], w)))
  }

  /** The order in which a group completes; a group always completes as a whole. */
  function Order<W>(h: Host<W>, group: seq<Call>): (order: seq<nat>)
    ensures IsOrder(order, |group|)
  {
    var order := h.finish(group);
    if IsOrder(order, |group|) then order else Upto(|group|)
  }

  predicate DeclaresReady<W>(h: Host<W>, s: Settings, call: Call, ok: bool) {
    call.name == UPDATE_PLAN && ok && s.planMode && h.declaresReady(call)
  }

  /** The ask-level commands of one call that an approval would let through. */
  function AskNotes<W>(h: Host<W>, s: Settings, call: Call): seq<Note> {
    match h.find(call.name)
    case None => []
    case Some(tool) =>
      if tool.gated then []
      else match tool.probe(call.args) case None => [] case Some(notes) => NotesAt(s, notes, Ask)
  }

  function AskNotesOf<W>(h: Host<W>, s: Settings, calls: seq<Call>): seq<Note> {
    if calls == [] then []
    else
      var last := |calls| - 1;
      AskNotesOf(h, s, calls[..last]) + AskNotes(h, s, calls[last])
  }

  /** What the loop does at the head of the remaining calls: it stops with a pause, or takes one call
      (or one parallel group) and leaves its results. */
  datatype Move<W> =
    | Stop(pending: Pending)
    | Take(results: seq<Result>, logged: seq<Result>, executed: seq<Call>, isReady: bool, world: W)

  function TakeOne<W>(result: Result, executed: seq<Call>, isReady: bool, world: W): Move<W> {
    Take([result], [result], executed, isReady, world)
  }

  /** Every member stores its own result when it completes; the conversation gets them in call order. */
  function TakeGroup<W>(h: Host<W>, group: seq<Call>, w: W): Move<W> {
    var order := Order(h, group);
    OrderInRange(order, |group|);
    var results := GroupResults(h, group, w);
    Take(results, Permute(results, order), Permute(group, order), false, w)
  }

  /** The head is allowed: it runs alone, or with the group it starts. */
  function RunHead<W>(h: Host<W>, s: Settings, approved: set<string>, calls: seq<Call>, grouped: bool, w: W): (m: Move<W>)
    requires calls != []
    ensures m.Take? && 1 <= |m.results| && Answers(m.results, calls)
  {
    if grouped then TakeGroup(h, calls[..1 + LeadingParallel(h, s, approved, calls[1..])], w)
    else RunAlone(h, s, calls[0], w)
  }

  function RunAlone<W>(h: Host<W>, s: Settings, call: Call, w: W): Move<W> {
    var effect := h.exec(call, w);
    TakeOne(RanResult(call, effect), [call], DeclaresReady(h, s, call, effect.ok), effect.world)
  }

  function NextMove<W>(h: Host<W>, s: Settings, approved: set<string>, calls: seq<Call>, reason: string, w: W): (m: Move<W>)
    requires calls != []
    ensures m.Take? ==> 1 <= |m.results| && Answers(m.results, calls)
    ensures m.Stop? ==> !m.pending.Plan? && m.pending.calls == calls
  {
    var call := calls[0];
    if IsQuestion(h, call) then Stop(Question(calls, h.ask(call).value))
    else
      match h.find(call.name)
      case None => TakeOne(Result(call.id, call.name, UnknownTool), [], false, w)
      case Some(tool) =>
        match GateCall(s, call, tool, approved)
        case Deny(why) => TakeOne(DeniedResult(call, why), [], false, w)
        case Pause(notes) => Stop(Approval(calls, reason, notes + AskNotesOf(h, s, calls[1..])))
        case Allow => RunHead(h, s, approved, calls, MayGroup(tool), w)
  }

  function RunBatch<W>(h: Host<W>, s: Settings, approved: set<string>, calls: seq<Call>, reason: string, w: W): Batch<W>
    decreases |calls|
  {
    if calls == [] then Batch([], [], [], None, w, false)
    else
      match NextMove(h, s, approved, calls, reason, w)
      case Stop(pending) => Batch([], [], [], Some(pending), w, false)
      case Take(results, logged, executed, isReady, world) =>
        var rest := RunBatch(h, s, approved, calls[|results|..], reason, world);
        Batch(results + rest.results, logged + rest.logged, executed + rest.executed,
              rest.pending, rest.world, isReady || rest.planReady)
  }

  lemma GroupAllowed<W>(h: Host<W>, s: Settings, approved: set<string>, calls: seq<Call>)
    requires calls != [] && CanRunParallel(h, s, approved, calls[0])
    ensures forall c | c in calls[..1 + LeadingParallel(h, s, approved, calls[1..])] :: CanRunParallel(h, s, approved, c)
  {
    var end := 1 + LeadingParallel(h, s, approved, calls[1..]);
    forall c | c in calls[..end]
      ensures CanRunParallel(h, s, approved, c)
    {
      var i :| 0 <= i < end && calls[i] == c;
      if i > 0 {
        assert calls[1..][i - 1] == c;
      }
    }
  }

  /** A taken move is one call with one result, or one whole group. */
  ghost predicate IsSingle<W>(h: Host<W>, s: Settings, approved: set<string>, call: Call, move: Move<W>)
    requires move.Take?
  {
    && |move.results| == 1 && move.logged == move.results && move.results[0].callId == call.id
    && if move.results[0].outcome.Ran?
       then move.executed == [call] && !IsQuestion(h, call) && IsAllowed(h, s, approved, call)
       else move.executed == []
  }

  predicate IsAllowed<W>(h: Host<W>, s: Settings, approved: set<string>, call: Call) {
    h.find(call.name).Some? && GateCall(s, call, h.find(call.name).value, approved).Allow?
  }

  ghost predicate IsGroup<W>(h: Host<W>, s: Settings, approved: set<string>, calls: seq<Call>, w: W, move: Move<W>)
    requires move.Take? && |move.results| <= |calls|
  {
    && calls != [] && CanRunParallel(h, s, approved, calls[0]) && !IsQuestion(h, calls[0])
    && move == TakeGroup(h, calls[..|move.results|], w)
    && forall c | c in calls[..|move.results|] :: CanRunParallel(h, s, approved, c)
  }

  lemma MoveShape<W>(h: Host<W>, s: Settings, approved: set<string>, calls: seq<Call>, reason: string, w: W)
    requires calls != [] && NextMove(h, s, approved, calls, reason, w).Take?
    ensures
      var move := NextMove(h, s, approved, calls, reason, w);
      if CanRunParallel(h, s, approved, calls[0]) then IsGroup(h, s, approved, calls, w, move)
      else IsSingle(h, s, approved, calls[0], move)
  {
    if CanRunParallel(h, s, approved, calls[0]) {
      GroupAllowed(h, s, approved, calls);
    }
  }

  // ---- Pairing ----

  /** The calls a batch leaves for later. */
  function Left<W>(b: Batch<W>): seq<Call> {
    match b.pending case None => [] case Some(p) => PendingCalls(p)
  }

  /** (results so far) ++ (pending calls) matches the batch: the results answer the first calls in order and
      the pending calls are exactly the others. */
  lemma {:induction false} BatchSplitsCalls<W>(h: Host<W>, s: Settings, approved: set<string>, calls: seq<Call>, reason: string, w: W)
    ensures
      var b := RunBatch(h, s, approved, calls, reason, w);
      && Answers(b.results, calls)
      && Left(b) == calls[|b.results|..]
      && (b.pending.Some? ==> !b.pending.value.Plan? && Left(b) != [])
    decreases |calls|
  {
    if calls != [] {
      var move := NextMove(h, s, approved, calls, reason, w);
      if move.Take? {
        BatchSplitsCalls(h, s, approved, calls[|move.results|..], reason, move.world);
      }
    }
  }

  lemma PermutedResultIds(results: seq<Result>, order: seq<nat>)
    requires IsOrder(order, |results|) && forall k | 0 <= k < |order| :: order[k] < |results|
    ensures multiset(ResultIds(Permute(results, order))) == multiset(ResultIds(results))
  {
    var ids := ResultIds(results);
    PermuteKeepsMultiset(ids, order, Upto(|results|));
    assert Permute(ids, Upto(|results|)) == ids;
    assert ResultIds(Permute(results, order)) == Permute(ids, order);
  }

  /** The scheduler lets every group complete in call order. */
  ghost predicate FinishesInOrder<W>(h: Host<W>) {
    forall group :: Order(h, group) == Upto(|group|)
  }

  lemma GroupLogs<W>(h: Host<W>, group: seq<Call>, w: W)
    ensures
      var move := TakeGroup(h, group, w);
      && |move.logged| == |move.results|
      && multiset(ResultIds(move.logged)) == multiset(ResultIds(move.results))
      && (Order(h, group) == Upto(|group|) ==> move.logged == move.results)
  {
    OrderInRange(Order(h, group), |group|);
    PermutedResultIds(GroupResults(h, group, w), Order(h, group));
  }

  lemma MoveLogs<W>(h: Host<W>, s: Settings, approved: set<string>, calls: seq<Call>, reason: string, w: W)
    requires calls != [] && NextMove(h, s, approved, calls, reason, w).Take?
    ensures
      var move := NextMove(h, s, approved, calls, reason, w);
      && |move.logged| == |move.results|
      && multiset(ResultIds(move.logged)) == multiset(ResultIds(move.results))
      && (FinishesInOrder(h) ==> move.logged == move.results)
  {
    MoveShape(h, s, approved, calls, reason, w);
    if CanRunParallel(h, s, approved, calls[0]) {
      GroupLogs(h, calls[..|NextMove(h, s, approved, calls, reason, w).results|], w);
    }
  }

  lemma ResultIdsConcat(a: seq<Result>, b: seq<Result>)
    ensures ResultIds(a + b) == ResultIds(a) + ResultIds(b)
  {
  }

  /** What is stored are the results of the conversation, possibly in another order. */
  lemma {:induction false} BatchLogs<W>(h: Host<W>, s: Settings, approved: set<string>, calls: seq<Call>, reason: string, w: W)
    ensures
      var b := RunBatch(h, s, approved, calls, reason, w);
      && |b.logged| == |b.results|
      && multiset(ResultIds(b.logged)) == multiset(ResultIds(b.results))
      && (FinishesInOrder(h) ==> b.logged == b.results)
    decreases |calls|
  {
    if calls != [] {
      var move := NextMove(h, s, approved, calls, reason, w);
      if move.Take? {
        var rest := RunBatch(h, s, approved, calls[|move.results|..], reason, move.world);
        MoveLogs(h, s, approved, calls, reason, w);
        BatchLogs(h, s, approved, calls[|move.results|..], reason, move.world);
        ResultIdsConcat(move.logged, rest.logged);
        ResultIdsConcat(move.results, rest.results);
      }
    }
  }

  /** The batch stops before this call: it asks the user, or waits for approval. */
  predicate StopsAt<W>(h: Host<W>, s: Settings, approved: set<string>, call: Call) {
    IsQuestion(h, call) || (h.find(call.name).Some? && GateCall(s, call, h.find(call.name).value, approved).Pause?)
  }

  /** Before the batch stops, no two neighbouring calls may both join a parallel group. Neither the scheduler nor any
      result matters. */
  predicate NoGroupOfTwo<W>(h: Host<W>, s: Settings, approved: set<string>, calls: seq<Call>)
    decreases |calls|
  {
    calls == [] || StopsAt(h, s, approved, calls[0]) ||
    (!(|calls| > 1 && CanRunParallel(h, s, approved, calls[0]) && CanRunParallel(h, s, approved, calls[1]))
     && NoGroupOfTwo(h, s, approved, calls[1..]))
  }

  lemma GroupOfOne<W>(h: Host<W>, group: seq<Call>, w: W)
    requires |group| == 1
    ensures Order(h, group) == Upto(1) && TakeGroup(h, group, w).logged == TakeGroup(h, group, w).results
  {
    OrderInRange(Order(h, group), 1);
    assert Order(h, group) == Upto(1);
  }

  /** How many calls the next move takes, read off its first two calls. */
  lemma MoveTakesOne<W>(h: Host<W>, s: Settings, approved: set<string>, calls: seq<Call>, reason: string, w: W)
    requires calls != [] && !StopsAt(h, s, approved, calls[0])
    ensures
      var move := NextMove(h, s, approved, calls, reason, w);
      move.Take? &&
      if |calls| > 1 && CanRunParallel(h, s, approved, calls[0]) && CanRunParallel(h, s, approved, calls[1])
      then |move.results| > 1 else |move.results| == 1 && move.logged == move.results
  {
    var move := NextMove(h, s, approved, calls, reason, w);
    MoveShape(h, s, approved, calls, reason, w);
    if CanRunParallel(h, s, approved, calls[0]) {
      assert |move.results| == 1 + LeadingParallel(h, s, approved, calls[1..]);
      if |move.results| == 1 { GroupOfOne(h, calls[..1], w); }
    }
  }

  lemma StopMeansStop<W>(h: Host<W>, s: Settings, approved: set<string>, calls: seq<Call>, reason: string, w: W)
    requires calls != []
    ensures NextMove(h, s, approved, calls, reason, w).Stop? <==> StopsAt(h, s, approved, calls[0])
  {
  }

  lemma {:induction false} WithoutGroupsLogged<W>(h: Host<W>, s: Settings, approved: set<string>, calls: seq<Call>, reason: string, w: W)
    requires NoGroupOfTwo(h, s, approved, calls)
    ensures RunBatch(h, s, approved, calls, reason, w).logged == RunBatch(h, s, approved, calls, reason, w).results
    decreases |calls|
  {
    if calls != [] {
      StopMeansStop(h, s, approved, calls, reason, w);
      if !StopsAt(h, s, approved, calls[0]) {
        MoveTakesOne(h, s, approved, calls, reason, w);
        WithoutGroupsLogged(h, s, approved, calls[1..], reason, NextMove(h, s, approved, calls, reason, w).world);
      }
    }
  }

  /** Enough for a batch to be stored in call order: groups complete so, or there are none. */
  ghost predicate KeepsOrder<W>(h: Host<W>, s: Settings, approved: set<string>, calls: seq<Call>) {
    FinishesInOrder(h) || NoGroupOfTwo(h, s, approved, calls)
  }

  /** Both copies of the results answer the first calls, the stored one in call order only if the batch keeps it. */
  lemma BatchAnswersFirst<W>(strict: bool, h: Host<W>, s: Settings, approved: set<string>, calls: seq<Call>, reason: string, w: W)
    requires strict ==> KeepsOrder(h, s, approved, calls)
    ensures
      var b := RunBatch(h, s, approved, calls, reason, w);
      AnswersFirst(strict, b.logged, calls) && AnswersFirst(strict, b.results, calls)
  {
    BatchLogs(h, s, approved, calls, reason, w);
    if NoGroupOfTwo(h, s, approved, calls) { WithoutGroupsLogged(h, s, approved, calls, reason, w); }
    BatchSplitsCalls(h, s, approved, calls, reason, w);
    var b := RunBatch(h, s, approved, calls, reason, w);
    assert ResultIds(b.results) == IdsOf(calls)[..|b.results|];
  }

  /** Every group this batch forms completes in call order. */
  predicate GroupsInOrder<W>(h: Host<W>, s: Settings, approved: set<string>, calls: seq<Call>, reason: string, w: W)
    decreases |calls|
  {
    calls == [] ||
    var move := NextMove(h, s, approved, calls, reason, w);
    move.Stop? ||
    ((CanRunParallel(h, s, approved, calls[0]) ==> Order(h, calls[..|move.results|]) == Upto(|move.results|)) &&
     GroupsInOrder(h, s, approved, calls[|move.results|..], reason, move.world))
  }

  predicate InCallOrder(logged: seq<Result>, calls: seq<Call>) {
    |logged| <= |calls| && ResultIds(logged) == IdsOf(calls)[..|logged|]
  }

  lemma GroupLoggedInOrder<W>(h: Host<W>, calls: seq<Call>, n: nat, w: W)
    requires n <= |calls| && DistinctIds(calls)
    ensures InCallOrder(TakeGroup(h, calls[..n], w).logged, calls) <==> Order(h, calls[..n]) == Upto(n)
  {
    var group := calls[..n];
    var order, logged := Order(h, group), TakeGroup(h, group, w).logged;
    OrderInRange(order, n);
    forall k | 0 <= k < n
      ensures logged[k].callId == calls[order[k]].id
    {
    }
    if InCallOrder(logged, calls) {
      forall k | 0 <= k < n
        ensures order[k] == k
      {
        assert ResultIds(logged)[k] == IdsOf(calls)[..n][k];
      }
      assert order == Upto(n);
    }
    if order == Upto(n) {
      assert ResultIds(logged) == IdsOf(calls)[..n];
    }
  }

  lemma OneInCallOrder(result: Result, calls: seq<Call>)
    requires calls != [] && result.callId == calls[0].id
    ensures InCallOrder([result], calls)
  {
    assert ResultIds([result]) == IdsOf(calls)[..1];
  }

  lemma MoveLoggedInOrder<W>(h: Host<W>, s: Settings, approved: set<string>, calls: seq<Call>, reason: string, w: W)
    requires calls != [] && DistinctIds(calls) && NextMove(h, s, approved, calls, reason, w).Take?
    ensures
      var move := NextMove(h, s, approved, calls, reason, w);
      InCallOrder(move.logged, calls) <==>
      (CanRunParallel(h, s, approved, calls[0]) ==> Order(h, calls[..|move.results|]) == Upto(|move.results|))
  {
    var move := NextMove(h, s, approved, calls, reason, w);
    MoveShape(h, s, approved, calls, reason, w);
    if CanRunParallel(h, s, approved, calls[0]) {
      GroupLoggedInOrder(h, calls, |move.results|, w);
    } else {
      OneInCallOrder(move.results[0], calls);
      assert move.logged == [move.results[0]];
    }
  }

  /** The stored results are in call order exactly when every group of the batch completes in call order. */
  lemma {:induction false} StoredInCallOrderIff<W>(h: Host<W>, s: Settings, approved: set<string>, calls: seq<Call>, reason: string, w: W)
    requires DistinctIds(calls)
    ensures InCallOrder(RunBatch(h, s, approved, calls, reason, w).logged, calls) <==>
            GroupsInOrder(h, s, approved, calls, reason, w)
    decreases |calls|
  {
    if calls != [] {
      var move := NextMove(h, s, approved, calls, reason, w);
      if move.Take? {
        var tail := calls[|move.results|..];
        MoveLogs(h, s, approved, calls, reason, w);
        MoveLoggedInOrder(h, s, approved, calls, reason, w);
        StoredInCallOrderIff(h, s, approved, tail, reason, move.world);
        SplitInCallOrder(calls, move.logged, RunBatch(h, s, approved, tail, reason, move.world).logged);
      }
    }
  }

  lemma SplitInCallOrder(calls: seq<Call>, a: seq<Result>, b: seq<Result>)
    requires |a| <= |calls|
    ensures InCallOrder(a + b, calls) <==> InCallOrder(a, calls) && InCallOrder(b, calls[|a|..])
  {
    if |a| + |b| <= |calls| {
      ResultIdsConcat(a, b);
      assert IdsOf(calls)[..|a + b|] == IdsOf(calls)[..|a|] + IdsOf(calls[|a|..])[..|b|];
      SplitEqual(ResultIds(a), ResultIds(b), IdsOf(calls)[..|a|], IdsOf(calls[|a|..])[..|b|]);
    }
  }

  lemma SplitEqual(a: seq<string>, b: seq<string>, c: seq<string>, d: seq<string>)
    requires |a| == |c|
    ensures a + b == c + d <==> a == c && b == d
  {
    if a + b == c + d {
      assert (a + b)[..|a|] == a && (c + d)[..|c|] == c;
      assert (a + b)[|a|..] == b && (c + d)[|c|..] == d;
    }
  }

  const PARALLEL_LIMIT := 4

  /** Members start in call order, at most PARALLEL_LIMIT at a time: only those started can be the next to complete. */
  predicate IsFeasible(order: seq<nat>) {
    forall k | 0 <= k < |order| :: order[k] < k + PARALLEL_LIMIT
  }

  /** A schedule the engine can show: every group completes as a whole, under the limit. */
  ghost predicate Feasible(finish: seq<Call> -> seq<nat>) {
    forall group: seq<Call> :: IsOrder(finish(group), |group|) && IsFeasible(finish(group))
  }

  /** The second member overtakes the first. */
  function Overtaken(n: nat): (r: seq<nat>)
    ensures |r| == n
  {
    if n < 2 then Upto(n) else [1, 0] + Upto(n)[2..]
  }

  lemma OvertakenIsOrder(n: nat)
    ensures IsOrder(Overtaken(n), n) && IsFeasible(Overtaken(n))
  {
    if n >= 2 {
      assert Upto(n) == [0, 1] + Upto(n)[2..];
    }
  }

  /** The host on which the second member of every group overtakes the first. */
  function Overtaking<W>(h: Host<W>): Host<W> {
    h.(finish := (group: seq<Call>) => Overtaken(|group|))
  }

  lemma OvertakingIsFeasible<W>(h: Host<W>)
    ensures Feasible(Overtaking(h).finish)
  {
    forall group: seq<Call>
      ensures IsOrder(Overtaking(h).finish(group), |group|) && IsFeasible(Overtaking(h).finish(group))
    {
      OvertakenIsOrder(|group|);
    }
  }

  lemma OvertakingReorders<W>(h: Host<W>, group: seq<Call>)
    requires |group| > 1
    ensures Order(Overtaking(h), group) != Upto(|group|)
  {
    OvertakenIsOrder(|group|);
    assert Overtaken(|group|)[0] != Upto(|group|)[0];
  }

  lemma {:induction false} SameGroups<W>(h: Host<W>, finish: seq<Call> -> seq<nat>, s: Settings, approved: set<string>, calls: seq<Call>)
    ensures NoGroupOfTwo(h.(finish := finish), s, approved, calls) == NoGroupOfTwo(h, s, approved, calls)
    decreases |calls|
  {
    if calls != [] { SameGroups(h, finish, s, approved, calls[1..]); }
  }

  /** A batch that may form a group of two has a group out of order if its second member overtakes. */
  lemma {:induction false} GroupsReorder<W>(h: Host<W>, s: Settings, approved: set<string>, calls: seq<Call>, reason: string, w: W)
    requires !NoGroupOfTwo(Overtaking(h), s, approved, calls)
    ensures !GroupsInOrder(Overtaking(h), s, approved, calls, reason, w)
    decreases |calls|
  {
    var b := Overtaking(h);
    StopMeansStop(b, s, approved, calls, reason, w);
    MoveTakesOne(b, s, approved, calls, reason, w);
    var move := NextMove(b, s, approved, calls, reason, w);
    if |move.results| > 1 {
      OvertakingReorders(h, calls[..|move.results|]);
    } else {
      GroupsReorder(h, s, approved, calls[1..], reason, move.world);
    }
  }

  lemma ResultsInCallOrder<W>(h: Host<W>, s: Settings, approved: set<string>, calls: seq<Call>, reason: string, w: W)
    requires NoGroupOfTwo(h, s, approved, calls)
    ensures InCallOrder(RunBatch(h, s, approved, calls, reason, w).logged, calls)
  {
    WithoutGroupsLogged(h, s, approved, calls, reason, w);
    BatchSplitsCalls(h, s, approved, calls, reason, w);
    var b := RunBatch(h, s, approved, calls, reason, w);
    assert ResultIds(b.results) == IdsOf(calls)[..|b.results|];
  }

  /** Main result: a batch is stored in call order however its groups may complete, exactly when no two neighbouring
      calls before its stop may run in parallel. This can be seen before the batch begins. It does not matter whether
      any schedule or only those under the parallel limit are considered. */
  lemma StoredInCallOrderWhateverFinishes<W>(h: Host<W>, s: Settings, approved: set<string>, calls: seq<Call>, reason: string, w: W)
    requires DistinctIds(calls)
    ensures NoGroupOfTwo(h, s, approved, calls) <==>
            forall finish: seq<Call> -> seq<nat> ::
              InCallOrder(RunBatch(h.(finish := finish), s, approved, calls, reason, w).logged, calls)
    ensures NoGroupOfTwo(h, s, approved, calls) <==>
            forall finish: seq<Call> -> seq<nat> | Feasible(finish) ::
              InCallOrder(RunBatch(h.(finish := finish), s, approved, calls, reason, w).logged, calls)
  {
    if NoGroupOfTwo(h, s, approved, calls) {
      forall finish: seq<Call> -> seq<nat>
        ensures InCallOrder(RunBatch(h.(finish := finish), s, approved, calls, reason, w).logged, calls)
      {
        SameGroups(h, finish, s, approved, calls);
        ResultsInCallOrder(h.(finish := finish), s, approved, calls, reason, w);
      }
    } else {
      var swift := Overtaking(h);
      OvertakingIsFeasible(h);
      SameGroups(h, swift.finish, s, approved, calls);
      GroupsReorder(h, s, approved, calls, reason, w);
      StoredInCallOrderIff(swift, s, approved, calls, reason, w);
      assert !InCallOrder(RunBatch(h.(finish := swift.finish), s, approved, calls, reason, w).logged, calls);
    }
  }

  // ---- Gate safety ----

  /** The call may run under these settings, given whether the user approved that very call. */
  predicate RunsLegally<W>(h: Host<W>, s: Settings, call: Call, isApproved: bool) {
    h.find(call.name).Some? && MayRun(s, h.find(call.name).value, call, isApproved)
  }

  lemma GroupExecutesItsCalls<W>(h: Host<W>, group: seq<Call>, w: W)
    ensures forall c | c in TakeGroup(h, group, w).executed :: c in group
  {
    OrderInRange(Order(h, group), |group|);
    var executed := TakeGroup(h, group, w).executed;
    forall c | c in executed
      ensures c in group
    {
      var k :| 0 <= k < |executed| && executed[k] == c;
    }
  }

  lemma MoveExecutesItsCalls<W>(h: Host<W>, s: Settings, approved: set<string>, calls: seq<Call>, reason: string, w: W)
    requires calls != [] && NextMove(h, s, approved, calls, reason, w).Take?
    ensures
      var move := NextMove(h, s, approved, calls, reason, w);
      forall c | c in move.executed ::
        && c in calls && IsAllowed(h, s, approved, c)
        && (CanRunParallel(h, s, approved, c) || !IsQuestion(h, c))
  {
    MoveShape(h, s, approved, calls, reason, w);
    if CanRunParallel(h, s, approved, calls[0]) {
      GroupExecutesItsCalls(h, calls[..|NextMove(h, s, approved, calls, reason, w).results|], w);
    }
  }

  lemma MoveExecutesOnlyCleared<W>(h: Host<W>, s: Settings, approved: set<string>, calls: seq<Call>, reason: string, w: W)
    requires calls != [] && NextMove(h, s, approved, calls, reason, w).Take?
    ensures forall c | c in NextMove(h, s, approved, calls, reason, w).executed ::
              c in calls && RunsLegally(h, s, c, c.id in approved)
  {
    MoveExecutesItsCalls(h, s, approved, calls, reason, w);
    forall c | c in NextMove(h, s, approved, calls, reason, w).executed
      ensures RunsLegally(h, s, c, c.id in approved)
    {
      GateMeansKeys(s, c, h.find(c.name).value, approved);
    }
  }

  /** Sequential or grouped, fresh or resumed: whatever executes is a call of this batch, cleared key by key. */
  lemma {:induction false} BatchExecutesOnlyCleared<W>(h: Host<W>, s: Settings, approved: set<string>, calls: seq<Call>, reason: string, w: W)
    ensures forall c | c in RunBatch(h, s, approved, calls, reason, w).executed ::
              c in calls && RunsLegally(h, s, c, c.id in approved)
    decreases |calls|
  {
    if calls != [] {
      var move := NextMove(h, s, approved, calls, reason, w);
      if move.Take? {
        MoveExecutesOnlyCleared(h, s, approved, calls, reason, w);
        BatchExecutesOnlyCleared(h, s, approved, calls[|move.results|..], reason, move.world);
      }
    }
  }

  /** The ids of the results that report an execution, in order. */
  function RanIds(results: seq<Result>): seq<string> {
    if results == [] then []
    else
      var last := |results| - 1;
      RanIds(results[..last]) + (if results[last].outcome.Ran? then [results[last].callId] else [])
  }

  lemma {:induction false} RanIdsConcat(a: seq<Result>, b: seq<Result>)
    ensures RanIds(a + b) == RanIds(a) + RanIds(b)
    decreases |b|
  {
    if b == [] {
      assert a + b == a;
    } else {
      var last := |b| - 1;
      assert (a + b)[..|a + b| - 1] == a + b[..last];
      RanIdsConcat(a, b[..last]);
    }
  }

  lemma {:induction false} AllRanIds(results: seq<Result>)
    requires forall r | r in results :: r.outcome.Ran?
    ensures RanIds(results) == ResultIds(results)
    decreases |results|
  {
    if results != [] {
      var last := |results| - 1;
      assert results[last] in results;
      AllRanIds(results[..last]);
      assert ResultIds(results) == ResultIds(results[..last]) + [results[last].callId];
    }
  }

  lemma GroupReportsExecutions<W>(h: Host<W>, group: seq<Call>, w: W)
    ensures RanIds(TakeGroup(h, group, w).logged) == IdsOf(TakeGroup(h, group, w).executed)
  {
    var move := TakeGroup(h, group, w);
    OrderInRange(Order(h, group), |group|);
    forall r | r in move.logged
      ensures r.outcome.Ran?
    {
      var k :| 0 <= k < |move.logged| && move.logged[k] == r;
    }
    AllRanIds(move.logged);
    assert ResultIds(move.logged) == IdsOf(move.executed);
  }

  lemma MoveReportsExecutions<W>(h: Host<W>, s: Settings, approved: set<string>, calls: seq<Call>, reason: string, w: W)
    requires calls != [] && NextMove(h, s, approved, calls, reason, w).Take?
    ensures
      var move := NextMove(h, s, approved, calls, reason, w);
      RanIds(move.logged) == IdsOf(move.executed)
  {
    var move := NextMove(h, s, approved, calls, reason, w);
    MoveShape(h, s, approved, calls, reason, w);
    if CanRunParallel(h, s, approved, calls[0]) {
      GroupReportsExecutions(h, calls[..|move.results|], w);
    } else {
      assert RanIds(move.logged[..0]) == [];
    }
  }

  /** A stored result claims an execution exactly when the call was executed, in the order they completed. */
  lemma {:induction false} BatchReportsExecutions<W>(h: Host<W>, s: Settings, approved: set<string>, calls: seq<Call>, reason: string, w: W)
    ensures
      var b := RunBatch(h, s, approved, calls, reason, w);
      RanIds(b.logged) == IdsOf(b.executed)
    decreases |calls|
  {
    if calls != [] {
      var move := NextMove(h, s, approved, calls, reason, w);
      if move.Take? {
        MoveReportsExecutions(h, s, approved, calls, reason, w);
        BatchReportsExecutions(h, s, approved, calls[|move.results|..], reason, move.world);
        RanIdsConcat(move.logged, RunBatch(h, s, approved, calls[|move.results|..], reason, move.world).logged);
      }
    }
  }

  // ---- Resume ----

  /** A batch whose calls are all approved stops only for a question. */
  lemma {:induction false} ApprovedBatchPausesOnlyToAsk<W>(h: Host<W>, s: Settings, approved: set<string>, calls: seq<Call>, reason: string, w: W)
    requires forall c | c in calls :: c.id in approved
    ensures var b := RunBatch(h, s, approved, calls, reason, w);
            b.pending.Some? ==> b.pending.value.Question?
    decreases |calls|
  {
    if calls != [] {
      var move := NextMove(h, s, approved, calls, reason, w);
      if move.Take? {
        ApprovedBatchPausesOnlyToAsk(h, s, approved, calls[|move.results|..], reason, move.world);
      }
    }
  }

  lemma {:induction false} AskNotesOfCons<W>(h: Host<W>, s: Settings, calls: seq<Call>)
    requires calls != []
    ensures AskNotesOf(h, s, calls) == AskNotes(h, s, calls[0]) + AskNotesOf(h, s, calls[1..])
    decreases |calls|
  {
    var last := |calls| - 1;
    if last > 0 {
      AskNotesOfCons(h, s, calls[..last]);
      assert calls[1..][..last - 1] == calls[..last][1..];
    }
  }

  /** The user sees what is approved: the card lists every ask-level command of every pending call. */
  lemma {:induction false} PauseShowsEveryAsk<W>(h: Host<W>, s: Settings, calls: seq<Call>, reason: string, w: W)
    ensures
      var b := RunBatch(h, s, {}, calls, reason, w);
      b.pending.Some? && b.pending.value.Approval? ==>
        b.pending.value.notes == AskNotesOf(h, s, b.pending.value.calls)
    decreases |calls|
  {
    if calls != [] {
      var move := NextMove(h, s, {}, calls, reason, w);
      if move.Take? {
        PauseShowsEveryAsk(h, s, calls[|move.results|..], reason, move.world);
      } else {
        AskNotesOfCons(h, s, calls);
      }
    }
  }

  // ---- Transparency of pausing and grouping ----

  datatype Serial<W> = Serial(results: seq<Result>, world: W)

  function SerialOne<W>(h: Host<W>, s: Settings, call: Call, w: W): (Result, W) {
    match h.find(call.name)
    case None => (Result(call.id, call.name, UnknownTool), w)
    case Some(tool) =>
      match GateCall(s, call, tool, {call.id})
      case Deny(why) => (DeniedResult(call, why), w)
      case _ => (RanResult(call, h.exec(call, w)), h.exec(call, w).world)
  }

  /** The reference: every call alone, in order, with everything approved. */
  function RunSerial<W>(h: Host<W>, s: Settings, calls: seq<Call>, w: W): Serial<W> {
    if calls == [] then Serial([], w)
    else
      var (result, next) := SerialOne(h, s, calls[0], w);
      var rest := RunSerial(h, s, calls[1..], next);
      Serial([result] + rest.results, rest.world)
  }

  /** The ConcurrentSafe contract: such a tool leaves the session as it found it. */
  ghost predicate KeepsConcurrentContract<W(!new)>(h: Host<W>) {
    forall call: Call, w: W :: h.find(call.name).Some? && MayGroup(h.find(call.name).value) ==> h.exec(call, w).world == w
  }

  predicate NoQuestions<W>(h: Host<W>, calls: seq<Call>) {
    forall c | c in calls :: !IsQuestion(h, c)
  }

  lemma GroupMemberIsSerial<W(!new)>(h: Host<W>, s: Settings, approved: set<string>, call: Call, w: W)
    requires KeepsConcurrentContract(h) && CanRunParallel(h, s, approved, call)
    ensures SerialOne(h, s, call, w) == (RanResult(call, h.exec(call, w)), w)
  {
    ApprovalOnlyLiftsAsk(s, call, h.find(call.name).value, approved);
  }

  lemma {:induction false} GroupIsSerial<W(!new)>(h: Host<W>, s: Settings, approved: set<string>, group: seq<Call>, rest: seq<Call>, w: W)
    requires KeepsConcurrentContract(h)
    requires forall c | c in group :: CanRunParallel(h, s, approved, c)
    ensures
      var all, tail := RunSerial(h, s, group + rest, w), RunSerial(h, s, rest, w);
      all.results == GroupResults(h, group, w) + tail.results && all.world == tail.world
    decreases |group|
  {
    if group == [] {
      assert group + rest == rest;
    } else {
      GroupMemberIsSerial(h, s, approved, group[0], w);
      GroupIsSerial(h, s, approved, group[1..], rest, w);
      assert (group + rest)[1..] == group[1..] + rest;
      assert GroupResults(h, group, w) == [RanResult(group[0], h.exec(group[0], w))] + GroupResults(h, group[1..], w);
    }
  }

  lemma SingleIsSerial<W>(h: Host<W>, s: Settings, approved: set<string>, calls: seq<Call>, reason: string, w: W)
    requires calls != [] && NextMove(h, s, approved, calls, reason, w).Take?
    requires !CanRunParallel(h, s, approved, calls[0])
    ensures
      var move := NextMove(h, s, approved, calls, reason, w);
      |move.results| == 1 && SerialOne(h, s, calls[0], w) == (move.results[0], move.world)
  {
    if h.find(calls[0].name).Some? {
      ApprovalOnlyLiftsAsk(s, calls[0], h.find(calls[0].name).value, approved);
    }
  }

  /** The serial run of `calls` is some results followed by the serial run of the rest. */
  ghost predicate SerialAfter<W>(h: Host<W>, s: Settings, calls: seq<Call>, w: W, results: seq<Result>, next: W)
    requires |results| <= |calls|
  {
    var all, tail := RunSerial(h, s, calls, w), RunSerial(h, s, calls[|results|..], next);
    all.results == results + tail.results && all.world == tail.world
  }

  lemma GroupMoveIsSerial<W(!new)>(h: Host<W>, s: Settings, approved: set<string>, calls: seq<Call>, n: nat, w: W)
    requires KeepsConcurrentContract(h) && n <= |calls|
    requires forall c | c in calls[..n] :: CanRunParallel(h, s, approved, c)
    ensures SerialAfter(h, s, calls, w, TakeGroup(h, calls[..n], w).results, w)
  {
    GroupIsSerial(h, s, approved, calls[..n], calls[n..], w);
    assert calls[..n] + calls[n..] == calls;
  }

  lemma SingleMoveIsSerial<W>(h: Host<W>, s: Settings, calls: seq<Call>, w: W, results: seq<Result>, next: W)
    requires calls != [] && |results| == 1 && SerialOne(h, s, calls[0], w) == (results[0], next)
    ensures SerialAfter(h, s, calls, w, results, next)
  {
    assert [results[0]] == results;
  }

  lemma MoveIsSerial<W(!new)>(h: Host<W>, s: Settings, approved: set<string>, calls: seq<Call>, reason: string, w: W)
    requires KeepsConcurrentContract(h) && calls != [] && NextMove(h, s, approved, calls, reason, w).Take?
    ensures
      var move := NextMove(h, s, approved, calls, reason, w);
      SerialAfter(h, s, calls, w, move.results, move.world)
  {
    var move := NextMove(h, s, approved, calls, reason, w);
    if CanRunParallel(h, s, approved, calls[0]) {
      MoveShape(h, s, approved, calls, reason, w);
      GroupMoveIsSerial(h, s, approved, calls, |move.results|, w);
    } else {
      SingleIsSerial(h, s, approved, calls, reason, w);
      SingleMoveIsSerial(h, s, calls, w, move.results, move.world);
    }
  }

  /** Up to its pause a batch is the serial run; grouping cannot be seen in the results. */
  lemma {:induction false} BatchIsSerialPrefix<W(!new)>(h: Host<W>, s: Settings, approved: set<string>, calls: seq<Call>, reason: string, w: W)
    requires KeepsConcurrentContract(h)
    ensures
      var b := RunBatch(h, s, approved, calls, reason, w);
      var all, tail := RunSerial(h, s, calls, w), RunSerial(h, s, Left(b), b.world);
      all.results == b.results + tail.results && all.world == tail.world
    decreases |calls|
  {
    if calls != [] {
      var move := NextMove(h, s, approved, calls, reason, w);
      if move.Take? {
        MoveIsSerial(h, s, approved, calls, reason, w);
        BatchIsSerialPrefix(h, s, approved, calls[|move.results|..], reason, move.world);
      }
    }
  }

  lemma {:induction false} ApprovedBatchFinishes<W>(h: Host<W>, s: Settings, approved: set<string>, calls: seq<Call>, reason: string, w: W)
    requires NoQuestions(h, calls) && forall c | c in calls :: c.id in approved
    ensures RunBatch(h, s, approved, calls, reason, w).pending.None?
    decreases |calls|
  {
    if calls != [] {
      assert calls[0] in calls;
      var move := NextMove(h, s, approved, calls, reason, w);
      ApprovedBatchFinishes(h, s, approved, calls[|move.results|..], reason, move.world);
    }
  }

  lemma LeftHasNoQuestions<W>(h: Host<W>, s: Settings, approved: set<string>, calls: seq<Call>, reason: string, w: W)
    requires NoQuestions(h, calls)
    ensures NoQuestions(h, Left(RunBatch(h, s, approved, calls, reason, w)))
  {
    BatchSplitsCalls(h, s, approved, calls, reason, w);
  }

  /** Main result: running until the pause, then approving and running the rest, gives the same results and
      the same session as running every call one by one with everything approved. */
  lemma PauseThenApproveIsSerial<W(!new)>(h: Host<W>, s: Settings, calls: seq<Call>, reason: string, w: W)
    requires KeepsConcurrentContract(h) && NoQuestions(h, calls)
    ensures
      var first := RunBatch(h, s, {}, calls, reason, w);
      var second := RunBatch(h, s, Ids(Left(first)), Left(first), "", first.world);
      && second.pending.None?
      && RunSerial(h, s, calls, w) == Serial(first.results + second.results, second.world)
  {
    var first := RunBatch(h, s, {}, calls, reason, w);
    var left := Left(first);
    LeftHasNoQuestions(h, s, {}, calls, reason, w);
    ApprovedBatchFinishes(h, s, Ids(left), left, "", first.world);
    BatchIsSerialPrefix(h, s, {}, calls, reason, w);
    BatchIsSerialPrefix(h, s, Ids(left), left, "", first.world);
  }

  // ---- Questions ----

  /** A question is never executed as a tool call, provided ask_user may not be grouped. */
  lemma {:induction false} QuestionsAreNeverExecuted<W>(h: Host<W>, s: Settings, approved: set<string>, calls: seq<Call>, reason: string, w: W)
    requires h.find(ASK_USER).Some? ==> !MayGroup(h.find(ASK_USER).value)
    ensures forall c | c in RunBatch(h, s, approved, calls, reason, w).executed :: !IsQuestion(h, c)
    decreases |calls|
  {
    if calls != [] {
      var move := NextMove(h, s, approved, calls, reason, w);
      if move.Take? {
        MoveExecutesItsCalls(h, s, approved, calls, reason, w);
        QuestionsAreNeverExecuted(h, s, approved, calls[|move.results|..], reason, move.world);
      }
    }
  }
}
