/** The values an agent session is made of: tool calls, their results, the turns sent
    to the model and the messages kept in the store. */
module AgentTypes {

  datatype Call = Call(id: string, name: string, args: string)

  /** One command a routing tool wants to run and the permission key it needs. */
  datatype Note = Note(command: string, key: string)

  datatype Denial =
    | PlanModeKey(key: string)
    | PlanModeBatch(blocked: seq<Note>)
    | ForbiddenKey
    | ForbiddenBatch(denied: seq<Note>)
    | UserDenied(note: string)
    | Superseded
    | CancelledByAnswer

  /** What the model is told about one call. `Cleared` is the placeholder left by micro compaction. */
  datatype Outcome =
    | Ran(ok: bool, data: string)
    | Denied(why: Denial)
    | UnknownTool
    | Answered(answer: string)
    | Cleared

  datatype Result = Result(callId: string, name: string, outcome: Outcome)

  datatype Turn =
    | UserTurn(text: string)
    | AssistantTurn(text: string, calls: seq<Call>)
    | ToolTurn(result: Result)

  /** A stored message. Its sequence number is its position in the log plus one. */
  datatype Message =
    | UserMessage(text: string)
    | AssistantMessage(isIncomplete: bool, text: string, calls: seq<Call>)
    | ToolMessage(result: Result)
    | ApprovalMessage(approved: bool, names: seq<string>, note: string)
    | SystemMessage(isError: bool, text: string)
    | SummaryMessage(text: string, boundary: nat)

  datatype Policy = Ask | Always | Never

  datatype Settings = Settings(planMode: bool, liveTest: Policy, save: Policy, delete: Policy, maxModelCalls: nat)

  datatype Status = Idle | Running | WaitingApproval

  datatype Pending =
    | Approval(calls: seq<Call>, reason: string, notes: seq<Note>)
    | Question(calls: seq<Call>, callId: string)
    | Plan

  function PendingCalls(p: Pending): seq<Call> {
    if p.Plan? then [] else p.calls
  }

  predicate DistinctIds(calls: seq<Call>) {
    forall i, j | 0 <= i < j < |calls| :: calls[i].id != calls[j].id
  }

  function Ids(calls: seq<Call>): set<string> {
    set call | call in calls :: call.id
  }
}

/** The provider's pairing rule: every tool call of an assistant turn is followed by exactly one result
    before the next user or assistant turn. `strict` also asks for the results in call order. */
module Pairing {
  import opened Options
  import opened Sequences
  import opened AgentTypes

  function IdsOf(calls: seq<Call>): (ids: seq<string>)
    ensures |ids| == |calls| && forall i | 0 <= i < |ids| :: ids[i] == calls[i].id
  {
    seq(|calls|, i requires 0 <= i < |calls| => calls[i].id)
  }

  function ResultIds(results: seq<Result>): (ids: seq<string>)
    ensures |ids| == |results| && forall i | 0 <= i < |ids| :: ids[i] == results[i].callId
  {
    seq(|results|, i requires 0 <= i < |results| => results[i].callId)
  }

  function RemoveId(calls: seq<Call>, id: string): Option<seq<Call>> {
    if calls == [] then None
    else if calls[0].id == id then Some(calls[1..])
    else match RemoveId(calls[1..], id) case None => None case Some(rest) => Some([calls[0]] + rest)
  }

  /** The calls still owed a result after one more turn, or None when the turn breaks the rule. */
  function Step(strict: bool, owed: seq<Call>, turn: Turn): Option<seq<Call>> {
    match turn
    case UserTurn(_) => if owed == [] then Some([]) else None
    case AssistantTurn(_, calls) => if owed == [] then Some(calls) else None
    case ToolTurn(result) =>
      if strict && owed != [] && owed[0].id != result.callId then None else RemoveId(owed, result.callId)
  }

  /** The calls still owed after some turns, when `start` was owed before them. */
  function OwedFrom(strict: bool, start: seq<Call>, turns: seq<Turn>): Option<seq<Call>> {
    if turns == [] then Some(start)
    else
      var last := |turns| - 1;
      match OwedFrom(strict, start, turns[..last])
      case None => None
      case Some(owed) => Step(strict, owed, turns[last])
  }

  function Owed(strict: bool, conversation: seq<Turn>): Option<seq<Call>> {
    OwedFrom(strict, [], conversation)
  }

  /** A conversation the provider accepts. */
  predicate Paired(strict: bool, conversation: seq<Turn>) {
    Owed(strict, conversation) == Some([])
  }

  function ToolTurns(results: seq<Result>): seq<Turn> {
    seq(|results|, i requires 0 <= i < |results| => ToolTurn(results[i]))
  }

  /** The results answer the first |results| calls, in order. */
  predicate Answers(results: seq<Result>, calls: seq<Call>) {
    |results| <= |calls| && forall i | 0 <= i < |results| :: results[i].callId == calls[i].id
  }

  /** The results answer the first |results| calls: in order if strict, otherwise each exactly once. */
  predicate AnswersFirst(strict: bool, results: seq<Result>, calls: seq<Call>) {
    && |results| <= |calls|
    && Match(strict, ResultIds(results), IdsOf(calls)[..|results|])
  }

  predicate Match(strict: bool, a: seq<string>, b: seq<string>) {
    if strict then a == b else multiset(a) == multiset(b)
  }

  lemma OwedFromAppend(strict: bool, start: seq<Call>, turns: seq<Turn>, turn: Turn)
    ensures OwedFrom(strict, start, turns + [turn]) ==
            match OwedFrom(strict, start, turns) case None => None case Some(owed) => Step(strict, owed, turn)
  {
    assert (turns + [turn])[..|turns|] == turns;
  }

  lemma OwedAppend(strict: bool, conversation: seq<Turn>, turn: Turn)
    ensures Owed(strict, conversation + [turn]) ==
            match Owed(strict, conversation) case None => None case Some(owed) => Step(strict, owed, turn)
  {
    OwedFromAppend(strict, [], conversation, turn);
  }

  // ---- A list of results ----

  /** The calls whose id is not in `ids`, in order. */
  function Without(calls: seq<Call>, ids: set<string>): seq<Call> {
    if calls == [] then []
    else if calls[0].id in ids then Without(calls[1..], ids)
    else [calls[0]] + Without(calls[1..], ids)
  }

  lemma {:induction false} WithoutNone(calls: seq<Call>, ids: set<string>)
    requires forall c | c in calls :: c.id !in ids
    ensures Without(calls, ids) == calls
  {
    if calls != [] {
      WithoutNone(calls[1..], ids);
    }
  }

  lemma {:induction false} RemoveFromWithout(calls: seq<Call>, ids: set<string>, id: string)
    requires DistinctIds(calls) && id !in ids && id in Ids(calls)
    ensures RemoveId(Without(calls, ids), id) == Some(Without(calls, ids + {id}))
  {
    if calls[0].id == id {
      forall c | c in calls[1..]
        ensures c.id != id
      {
        var i :| 0 <= i < |calls[1..]| && calls[1..][i] == c;
        assert calls[i + 1] == c;
      }
      WithoutAbsent(calls[1..], ids, id);
    } else {
      var c :| c in calls && c.id == id;
      assert c in calls[1..];
      RemoveFromWithout(calls[1..], ids, id);
    }
  }

  lemma {:induction false} WithoutAbsent(calls: seq<Call>, ids: set<string>, id: string)
    requires forall c | c in calls :: c.id != id
    ensures Without(calls, ids + {id}) == Without(calls, ids)
  {
    if calls != [] {
      assert calls[0].id != id;
      WithoutAbsent(calls[1..], ids, id);
    }
  }

  predicate DistinctResults(results: seq<Result>) {
    forall i, j | 0 <= i < j < |results| :: results[i].callId != results[j].callId
  }

  function ResultIdSet(results: seq<Result>): set<string> {
    set r | r in results :: r.callId
  }

  lemma ResultIdSetPush(front: seq<Result>, result: Result)
    requires DistinctResults(front + [result])
    ensures ResultIdSet(front + [result]) == ResultIdSet(front) + {result.callId}
    ensures result.callId !in ResultIdSet(front) && DistinctResults(front)
  {
    var all := front + [result];
    assert all[|front|] == result;
    assert forall i | 0 <= i < |front| :: all[i] == front[i];
  }

  lemma OwedAfterOne(conversation: seq<Turn>, calls: seq<Call>, ids: set<string>, result: Result)
    requires Owed(false, conversation) == Some(Without(calls, ids)) && DistinctIds(calls)
    requires result.callId in Ids(calls) && result.callId !in ids
    ensures Owed(false, conversation + [ToolTurn(result)]) == Some(Without(calls, ids + {result.callId}))
  {
    OwedAppend(false, conversation, ToolTurn(result));
    RemoveFromWithout(calls, ids, result.callId);
  }

  /** Results that come in any order leave the other calls owed, in call order. */
  lemma {:induction false} OwedAfterAnyOrder(conversation: seq<Turn>, calls: seq<Call>, results: seq<Result>)
    requires Owed(false, conversation) == Some(calls) && DistinctIds(calls) && DistinctResults(results)
    requires forall r | r in results :: r.callId in Ids(calls)
    ensures Owed(false, conversation + ToolTurns(results)) == Some(Without(calls, ResultIdSet(results)))
    decreases |results|
  {
    if results == [] {
      assert conversation + ToolTurns(results) == conversation;
      assert ResultIdSet(results) == {};
      WithoutNone(calls, {});
    } else {
      var last := |results| - 1;
      var front := results[..last];
      assert results == front + [results[last]];
      ResultIdSetPush(front, results[last]);
      OwedAfterAnyOrder(conversation, calls, front);
      OwedAfterOne(conversation + ToolTurns(front), calls, ResultIdSet(front), results[last]);
      assert conversation + ToolTurns(results) == conversation + ToolTurns(front) + [ToolTurn(results[last])];
    }
  }

  lemma {:induction false} OwedInOrder(conversation: seq<Turn>, calls: seq<Call>, results: seq<Result>)
    requires Owed(true, conversation) == Some(calls) && Answers(results, calls)
    ensures Owed(true, conversation + ToolTurns(results)) == Some(calls[|results|..])
    decreases |results|
  {
    if results == [] {
      assert conversation + ToolTurns(results) == conversation;
    } else {
      var last := |results| - 1;
      OwedInOrder(conversation, calls, results[..last]);
      OwedAppend(true, conversation + ToolTurns(results[..last]), ToolTurn(results[last]));
      assert conversation + ToolTurns(results) ==
             conversation + ToolTurns(results[..last]) + [ToolTurn(results[last])];
    }
  }

  lemma {:induction false} WithoutFirst(calls: seq<Call>, k: nat)
    requires DistinctIds(calls) && k <= |calls|
    ensures Without(calls, Ids(calls[..k])) == calls[k..]
  {
    if k == 0 {
      assert calls[..k] == [] && Ids(calls[..k]) == {};
      WithoutNone(calls, {});
    } else {
      WithoutFirst(calls[1..], k - 1);
      assert calls[..k] == [calls[0]] + calls[1..][..k - 1];
      assert Ids(calls[..k]) == Ids(calls[1..][..k - 1]) + {calls[0].id};
      forall c | c in calls[1..]
        ensures c.id != calls[0].id
      {
        var i :| 0 <= i < |calls[1..]| && calls[1..][i] == c;
        assert calls[i + 1] == c;
      }
      WithoutAbsent(calls[1..], Ids(calls[1..][..k - 1]), calls[0].id);
    }
  }

  /** Distinct ids read from a multiset. */
  lemma MultisetFacts(results: seq<Result>, calls: seq<Call>)
    requires |results| <= |calls| && DistinctIds(calls)
    requires multiset(ResultIds(results)) == multiset(IdsOf(calls)[..|results|])
    ensures DistinctResults(results)
    ensures ResultIdSet(results) == Ids(calls[..|results|])
  {
    var k := |results|;
    var r, c := ResultIds(results), IdsOf(calls)[..k];
    assert Distinct(c);
    DistinctByMultiset(c, r);
    forall id
      ensures id in ResultIdSet(results) <==> id in Ids(calls[..k])
    {
      assert id in r <==> id in multiset(r);
      assert id in c <==> id in multiset(c);
      if id in ResultIdSet(results) {
        var x :| x in results && x.callId == id;
        var i :| 0 <= i < k && results[i] == x;
        assert r[i] == id;
        assert id in c;
        var j :| 0 <= j < k && c[j] == id;
        assert calls[..k][j].id == id;
        assert calls[..k][j] in calls[..k];
      }
      if id in Ids(calls[..k]) {
        var x :| x in calls[..k] && x.id == id;
        var i :| 0 <= i < k && calls[..k][i] == x;
        assert c[i] == id;
        assert id in r;
        var j :| 0 <= j < k && r[j] == id;
        assert results[j] in results;
      }
    }
  }

  /** After results for the first calls, in call order or not, exactly the other calls are owed. */
  lemma OwedResults(strict: bool, conversation: seq<Turn>, calls: seq<Call>, results: seq<Result>)
    requires Owed(strict, conversation) == Some(calls) && DistinctIds(calls)
    requires AnswersFirst(strict, results, calls)
    ensures Owed(strict, conversation + ToolTurns(results)) == Some(calls[|results|..])
  {
    var k := |results|;
    if strict {
      forall i | 0 <= i < k
        ensures results[i].callId == calls[i].id
      {
        assert ResultIds(results)[i] == IdsOf(calls)[..k][i];
      }
      OwedInOrder(conversation, calls, results);
    } else {
      MultisetFacts(results, calls);
      forall r | r in results
        ensures r.callId in Ids(calls)
      {
        assert r.callId in ResultIdSet(results);
        var c :| c in calls[..k] && c.id == r.callId;
        assert c in calls;
      }
      OwedAfterAnyOrder(conversation, calls, results);
      WithoutFirst(calls, k);
    }
  }

  // ---- Cutting and clearing ----

  /** Replacing everything before a user turn by one user turn keeps what is owed. */
  lemma {:induction false} OwedCut(strict: bool, conversation: seq<Turn>, cut: nat, head: string)
    requires cut < |conversation| && conversation[cut].UserTurn?
    requires Owed(strict, conversation).Some?
    ensures Owed(strict, [UserTurn(head)] + conversation[cut..]) == Owed(strict, conversation)
    decreases |conversation|
  {
    var last := |conversation| - 1;
    var front := conversation[..last];
    if cut == last {
      assert [UserTurn(head)] + conversation[cut..] == [UserTurn(head)] + [conversation[last]];
      OwedAppend(strict, [], UserTurn(head));
      assert [] + [UserTurn(head)] == [UserTurn(head)];
      OwedAppend(strict, [UserTurn(head)], conversation[last]);
    } else {
      OwedCut(strict, front, cut, head);
      OwedAppend(strict, [UserTurn(head)] + front[cut..], conversation[last]);
      assert [UserTurn(head)] + conversation[cut..] == [UserTurn(head)] + front[cut..] + [conversation[last]];
    }
  }

  /** Two turns the pairing rule cannot tell apart. */
  predicate SameShape(a: Turn, b: Turn) {
    match a
    case UserTurn(_) => b.UserTurn?
    case AssistantTurn(_, calls) => b.AssistantTurn? && b.calls == calls
    case ToolTurn(result) => b.ToolTurn? && b.result.callId == result.callId
  }

  lemma {:induction false} OwedSameShape(strict: bool, a: seq<Turn>, b: seq<Turn>)
    requires |a| == |b| && forall i | 0 <= i < |a| :: SameShape(a[i], b[i])
    ensures Owed(strict, a) == Owed(strict, b)
    decreases |a|
  {
    if a != [] {
      var last := |a| - 1;
      OwedSameShape(strict, a[..last], b[..last]);
      assert SameShape(a[last], b[last]);
    }
  }

  // ---- What the fold means, stated directly on positions ----

  function CallsOf(turn: Turn): seq<Call> {
    if turn.AssistantTurn? then turn.calls else []
  }

  /** The turn at i is followed by results up to e, and only up to e. */
  ghost predicate IsBlock(c: seq<Turn>, i: int, e: int) {
    && 0 <= i < e <= |c|
    && !c[i].ToolTurn?
    && AllResults(c[i + 1..e])
    && (e < |c| ==> !c[e].ToolTurn?)
  }

  predicate AllResults(turns: seq<Turn>) {
    forall turn | turn in turns :: turn.ToolTurn?
  }

  /** What the block of i may leave owed: nothing, unless it is the last one. */
  function Allowance(c: seq<Turn>, e: int, owed: seq<Call>): seq<Call> {
    if e == |c| then owed else []
  }

  /** Every block, taken alone, leaves exactly its allowance. */
  ghost predicate BlocksFold(strict: bool, c: seq<Turn>, owed: seq<Call>) {
    && (c == [] ==> owed == [])
    && (c != [] ==> !c[0].ToolTurn?)
    && forall i, e | IsBlock(c, i, e) ::
         OwedFrom(strict, CallsOf(c[i]), c[i + 1..e]) == Some(Allowance(c, e, owed))
  }

  lemma BlockOfPrefix(c: seq<Turn>, turn: Turn, i: int, e: int)
    requires 0 <= i < e <= |c|
    ensures (c + [turn])[i] == c[i] && (c + [turn])[i + 1..e] == c[i + 1..e]
    ensures e < |c| ==> (c + [turn])[e] == c[e]
  {
  }

  lemma PushFold(strict: bool, c: seq<Turn>, turn: Turn, owed: seq<Call>, next: seq<Call>, i: int, e: int)
    requires BlocksFold(strict, c, owed) && Step(strict, owed, turn) == Some(next) && IsBlock(c + [turn], i, e)
    ensures OwedFrom(strict, CallsOf((c + [turn])[i]), (c + [turn])[i + 1..e]) == Some(Allowance(c + [turn], e, next))
  {
    var d := c + [turn];
    if e <= |c| {
      BlockOfPrefix(c, turn, i, e);
      assert IsBlock(c, i, e);
    } else if i < |c| {
      assert d[i + 1..e][|c| - i - 1] == turn;
      assert turn.ToolTurn?;
      BlockOfPrefix(c, turn, i, |c|);
      assert d[i + 1..e] == c[i + 1..|c|] + [turn];
      assert IsBlock(c, i, |c|);
      OwedFromAppend(strict, CallsOf(c[i]), c[i + 1..|c|], turn);
    } else {
      assert d[i + 1..e] == [];
    }
  }

  lemma FoldOfOwed(strict: bool, c: seq<Turn>, owed: seq<Call>)
    requires Owed(strict, c) == Some(owed)
    ensures BlocksFold(strict, c, owed)
    decreases |c|
  {
    if c != [] {
      var last := |c| - 1;
      var before := Owed(strict, c[..last]).value;
      FoldOfOwed(strict, c[..last], before);
      assert c == c[..last] + [c[last]];
      forall i, e | IsBlock(c, i, e)
        ensures OwedFrom(strict, CallsOf(c[i]), c[i + 1..e]) == Some(Allowance(c, e, owed))
      {
        PushFold(strict, c[..last], c[last], before, owed, i, e);
      }
    }
  }

  /** The last turn that is not a result. */
  function LastHead(c: seq<Turn>): (i: nat)
    requires c != [] && !c[0].ToolTurn?
    ensures i < |c| && !c[i].ToolTurn? && AllResults(c[i + 1..])
  {
    var last := |c| - 1;
    if !c[last].ToolTurn? then last
    else
      var i := LastHead(c[..last]);
      assert c[i + 1..] == c[..last][i + 1..] + [c[last]];
      i
  }

  lemma ResultsAfter(c: seq<Turn>, i: int, m: int)
    requires 0 <= i < m < |c| && AllResults(c[i + 1..])
    ensures c[m].ToolTurn?
  {
    assert c[i + 1..][m - i - 1] == c[m];
  }

  lemma LastBlockIsUnique(c: seq<Turn>, i: int)
    requires c != [] && !c[0].ToolTurn? && IsBlock(c, i, |c|)
    ensures i == LastHead(c)
  {
    var j := LastHead(c);
    assert c[i + 1..|c|] == c[i + 1..];
    if i < j {
      ResultsAfter(c, i, j);
    } else if j < i {
      ResultsAfter(c, j, i);
    }
  }

  /** What the last block owed just before its last result. */
  lemma LastResultFold(strict: bool, c: seq<Turn>, turn: Turn, next: seq<Call>) returns (owed: seq<Call>)
    requires BlocksFold(strict, c + [turn], next) && turn.ToolTurn?
    ensures c != [] && !c[0].ToolTurn?
    ensures OwedFrom(strict, CallsOf(c[LastHead(c)]), c[LastHead(c) + 1..]) == Some(owed)
    ensures Step(strict, owed, turn) == Some(next)
  {
    var d := c + [turn];
    assert d[0] == (if c == [] then turn else c[0]);
    var head := LastHead(c);
    assert d[head] == c[head];
    assert d[head + 1..|d|] == c[head + 1..] + [turn];
    assert IsBlock(d, head, |d|);
    assert OwedFrom(strict, CallsOf(d[head]), d[head + 1..|d|]) == Some(Allowance(d, |d|, next));
    OwedFromAppend(strict, CallsOf(c[head]), c[head + 1..], turn);
    owed := OwedFrom(strict, CallsOf(c[head]), c[head + 1..]).value;
  }

  lemma PopFoldBlock(strict: bool, c: seq<Turn>, turn: Turn, next: seq<Call>, i: int, e: int)
    requires BlocksFold(strict, c + [turn], next) && IsBlock(c, i, e) && (e < |c| || !turn.ToolTurn?)
    ensures OwedFrom(strict, CallsOf(c[i]), c[i + 1..e]) == Some([])
  {
    BlockOfPrefix(c, turn, i, e);
    assert IsBlock(c + [turn], i, e);
  }

  lemma PopFold(strict: bool, c: seq<Turn>, turn: Turn, next: seq<Call>) returns (owed: seq<Call>)
    requires BlocksFold(strict, c + [turn], next)
    ensures BlocksFold(strict, c, owed) && Step(strict, owed, turn) == Some(next)
  {
    var d := c + [turn];
    assert d[0] == (if c == [] then turn else c[0]);
    if turn.ToolTurn? {
      owed := LastResultFold(strict, c, turn, next);
    } else {
      owed := [];
      assert d[|d|..|d|] == [] && d[|c|] == turn;
      assert IsBlock(d, |c|, |d|);
    }
    forall i, e | IsBlock(c, i, e)
      ensures OwedFrom(strict, CallsOf(c[i]), c[i + 1..e]) == Some(Allowance(c, e, owed))
    {
      if e == |c| && turn.ToolTurn? {
        LastBlockIsUnique(c, i);
        assert c[i + 1..e] == c[i + 1..];
      } else {
        PopFoldBlock(strict, c, turn, next, i, e);
      }
    }
  }

  lemma {:induction false} OwedOfFold(strict: bool, c: seq<Turn>, owed: seq<Call>)
    requires BlocksFold(strict, c, owed)
    ensures Owed(strict, c) == Some(owed)
    decreases |c|
  {
    if c != [] {
      var last := |c| - 1;
      assert c == c[..last] + [c[last]];
      var before := PopFold(strict, c[..last], c[last], owed);
      OwedOfFold(strict, c[..last], before);
    }
  }

  // ---- One block alone ----

  lemma {:induction false} RemoveIdIds(owed: seq<Call>, id: string)
    requires RemoveId(owed, id).Some?
    ensures multiset([id] + IdsOf(RemoveId(owed, id).value)) == multiset(IdsOf(owed))
  {
    var rest := RemoveId(owed, id).value;
    assert IdsOf(owed) == [owed[0].id] + IdsOf(owed[1..]);
    if owed[0].id != id {
      RemoveIdIds(owed[1..], id);
      assert IdsOf(rest) == [owed[0].id] + IdsOf(RemoveId(owed[1..], id).value);
    }
  }

  lemma {:induction false} RemoveIdExists(owed: seq<Call>, id: string)
    requires id in IdsOf(owed)
    ensures RemoveId(owed, id).Some?
  {
    if owed[0].id != id {
      var i :| 0 <= i < |owed| && IdsOf(owed)[i] == id;
      assert IdsOf(owed[1..])[i - 1] == id;
      RemoveIdExists(owed[1..], id);
    }
  }

  function TurnIds(turns: seq<Turn>): (ids: seq<string>)
    requires AllResults(turns)
    ensures |ids| == |turns| && forall i | 0 <= i < |ids| :: ids[i] == turns[i].result.callId
  {
    seq(|turns|, i requires 0 <= i < |turns| => turns[i].result.callId)
  }

  lemma MatchTail(strict: bool, front: seq<string>, before: seq<string>, id: string, after: seq<string>, asked: seq<string>)
    requires Match(strict, front + before, asked) && Match(strict, [id] + after, before)
    ensures Match(strict, front + [id] + after, asked)
  {
    assert front + [id] + after == front + ([id] + after);
    assert multiset(front + ([id] + after)) == multiset(front) + multiset([id] + after);
    assert multiset(front + before) == multiset(front) + multiset(before);
  }

  lemma StepMatches(strict: bool, before: seq<Call>, turn: Turn)
    requires turn.ToolTurn? && Step(strict, before, turn).Some?
    ensures Match(strict, [turn.result.callId] + IdsOf(Step(strict, before, turn).value), IdsOf(before))
  {
    var id := turn.result.callId;
    if strict {
      assert IdsOf(before) == [id] + IdsOf(before[1..]);
    } else {
      RemoveIdIds(before, id);
    }
  }

  lemma TurnIdsPush(turns: seq<Turn>)
    requires turns != [] && AllResults(turns)
    ensures TurnIds(turns) == TurnIds(turns[..|turns| - 1]) + [turns[|turns| - 1].result.callId]
  {
  }

  /** The ids answered and the ids left are together the ids asked. */
  lemma {:induction false} FoldMatches(strict: bool, calls: seq<Call>, turns: seq<Turn>)
    requires AllResults(turns) && OwedFrom(strict, calls, turns).Some?
    ensures Match(strict, TurnIds(turns) + IdsOf(OwedFrom(strict, calls, turns).value), IdsOf(calls))
    decreases |turns|
  {
    if turns == [] {
      assert TurnIds(turns) + IdsOf(calls) == IdsOf(calls);
    } else {
      var last := |turns| - 1;
      var before := OwedFrom(strict, calls, turns[..last]).value;
      FoldMatches(strict, calls, turns[..last]);
      StepMatches(strict, before, turns[last]);
      TurnIdsPush(turns);
      MatchTail(strict, TurnIds(turns[..last]), IdsOf(before), turns[last].result.callId,
        IdsOf(Step(strict, before, turns[last]).value), IdsOf(calls));
    }
  }

  lemma NextIsOwed(strict: bool, before: seq<Call>, id: string, front: seq<string>, asked: seq<string>, tail: seq<string>)
    requires Match(strict, front + IdsOf(before), asked) && Match(strict, front + [id] + tail, asked)
    ensures id in IdsOf(before) && (strict ==> before[0].id == id)
  {
    if strict {
      assert (front + [id] + tail)[|front|] == id;
      assert (front + IdsOf(before))[|front|] == IdsOf(before)[0];
    } else {
      assert multiset(front + [id] + tail) == multiset(front) + multiset{id} + multiset(tail);
      assert multiset(front + IdsOf(before)) == multiset(front) + multiset(IdsOf(before));
      assert multiset(front + IdsOf(before))[id] == multiset(front + [id] + tail)[id];
      assert multiset(front + [id] + tail)[id] >= multiset(front)[id] + 1;
      assert multiset(IdsOf(before))[id] >= 1;
      assert id in multiset(IdsOf(before));
    }
  }

  /** Conversely, results whose ids are among those asked can be taken one by one. */
  lemma {:induction false} MatchFolds(strict: bool, calls: seq<Call>, turns: seq<Turn>, tail: seq<string>)
    requires AllResults(turns) && Match(strict, TurnIds(turns) + tail, IdsOf(calls))
    ensures OwedFrom(strict, calls, turns).Some?
    decreases |turns|
  {
    if turns != [] {
      var last := |turns| - 1;
      var id := turns[last].result.callId;
      var front := TurnIds(turns[..last]);
      assert TurnIds(turns) + tail == front + ([id] + tail) == front + [id] + tail;
      MatchFolds(strict, calls, turns[..last], [id] + tail);
      FoldMatches(strict, calls, turns[..last]);
      var before := OwedFrom(strict, calls, turns[..last]).value;
      NextIsOwed(strict, before, id, front, IdsOf(calls), tail);
      RemoveIdExists(before, id);
    }
  }

  // ---- The reading ----

  /** Every call has exactly one result, right after its batch (in call order if strict), except the `owed`
      calls of the last batch; and there is no result without a call. */
  ghost predicate AnsweredExcept(strict: bool, c: seq<Turn>, owed: seq<Call>) {
    && (c == [] ==> owed == [])
    && (c != [] ==> !c[0].ToolTurn?)
    && forall i, e | IsBlock(c, i, e) ::
         Match(strict, TurnIds(c[i + 1..e]) + IdsOf(Allowance(c, e, owed)), IdsOf(CallsOf(c[i])))
  }

  lemma OwedMeansAnsweredExcept(strict: bool, c: seq<Turn>, owed: seq<Call>)
    requires Owed(strict, c) == Some(owed)
    ensures AnsweredExcept(strict, c, owed)
  {
    FoldOfOwed(strict, c, owed);
    forall i, e | IsBlock(c, i, e)
      ensures Match(strict, TurnIds(c[i + 1..e]) + IdsOf(Allowance(c, e, owed)), IdsOf(CallsOf(c[i])))
    {
      FoldMatches(strict, CallsOf(c[i]), c[i + 1..e]);
    }
  }

  /** Main reading of `Paired`, in both directions: each call has exactly one result right after its batch, in
      call order when strict, and there is no other result. */
  lemma PairedMeansEveryCallAnswered(strict: bool, c: seq<Turn>)
    ensures Paired(strict, c) <==> AnsweredExcept(strict, c, [])
  {
    if Paired(strict, c) {
      OwedMeansAnsweredExcept(strict, c, []);
    }
    if AnsweredExcept(strict, c, []) {
      forall i, e | IsBlock(c, i, e)
        ensures OwedFrom(strict, CallsOf(c[i]), c[i + 1..e]) == Some(Allowance(c, e, []))
      {
        var calls, turns := CallsOf(c[i]), c[i + 1..e];
        MatchFolds(strict, calls, turns, []);
        FoldMatches(strict, calls, turns);
        assert TurnIds(turns) + IdsOf([]) == TurnIds(turns);
        var ids := TurnIds(turns) + IdsOf(OwedFrom(strict, calls, turns).value);
        SameSizeByMultiset(ids, IdsOf(calls));
        SameSizeByMultiset(TurnIds(turns), IdsOf(calls));
      }
      OwedOfFold(strict, c, []);
    }
  }
}
