/** When a reloaded history has the results of parallel calls in call order. */
module CallOrder {
  import opened Options
  import opened AgentTypes
  import opened Gates
  import opened Pairing
  import opened Permutations
  import opened Batches
  import opened History
  import opened TurnSpec
  import opened TurnSafety

  lemma InOrderIffOwed(conversation: seq<Turn>, calls: seq<Call>, results: seq<Result>)
    requires Owed(true, conversation) == Some(calls) && |results| <= |calls|
    ensures Owed(true, conversation + ToolTurns(results)).Some? <==> InCallOrder(results, calls)
  {
    if InCallOrder(results, calls) {
      InOrderAnswers(results, calls);
      OwedInOrder(conversation, calls, results);
    }
    if Owed(true, conversation + ToolTurns(results)).Some? {
      OwedMeansInOrder(conversation, calls, results);
    }
  }

  lemma InOrderAnswers(results: seq<Result>, calls: seq<Call>)
    requires InCallOrder(results, calls)
    ensures Answers(results, calls)
  {
    assert forall i | 0 <= i < |results| :: results[i].callId == ResultIds(results)[i] == IdsOf(calls)[i];
  }

  lemma {:induction false} OwedMeansInOrder(conversation: seq<Turn>, calls: seq<Call>, results: seq<Result>)
    requires Owed(true, conversation) == Some(calls) && |results| <= |calls|
    requires Owed(true, conversation + ToolTurns(results)).Some?
    ensures InCallOrder(results, calls)
    decreases |results|
  {
    if results == [] {
      assert ResultIds(results) == IdsOf(calls)[..0];
    } else {
      var last := |results| - 1;
      var front := results[..last];
      ToolTurnsPrefix(conversation, results);
      OwedAppend(true, conversation + ToolTurns(front), ToolTurn(results[last]));
      OwedMeansInOrder(conversation, calls, front);
      InOrderAnswers(front, calls);
      OwedInOrder(conversation, calls, front);
      assert ResultIds(results) == ResultIds(front) + [results[last].callId];
      assert IdsOf(calls)[..|results|] == IdsOf(calls)[..last] + [calls[last].id];
    }
  }

  /** A reload finds a batch's results in call order exactly when all its parallel groups completed in call
      order: members store their own results as they complete. */
  lemma ReloadInCallOrderIff<W>(h: Host<W>, wk: Work<W>, approved: set<string>, calls: seq<Call>, reason: string)
    requires BoundariesExist(wk.session.log) && Owed(true, Replay(wk.session.log)) == Some(calls) && DistinctIds(calls)
    ensures
      Owed(true, Replay(Execute(h, wk, approved, calls, reason).session.log)).Some? <==>
      GroupsInOrder(h, wk.session.settings, approved, calls, reason, wk.session.world)
  {
    var s := wk.session;
    var b := RunBatch(h, s.settings, approved, calls, reason, s.world);
    BatchLogs(h, s.settings, approved, calls, reason, s.world);
    BatchSplitsCalls(h, s.settings, approved, calls, reason, s.world);
    ReplayAfterResults(s.log, b.logged);
    InOrderIffOwed(Replay(s.log), calls, b.logged);
    StoredInCallOrderIff(h, s.settings, approved, calls, reason, s.world);
  }

  /** Whatever order a group completes in, memory gets its results in call order and the log one for each call. */
  lemma MemoryKeepsCallOrder<W>(h: Host<W>, wk: Work<W>, approved: set<string>, calls: seq<Call>, reason: string)
    requires BoundariesExist(wk.session.log) && DistinctIds(calls)
    requires Owed(true, wk.conversation) == Some(calls) && Owed(false, Replay(wk.session.log)) == Some(calls)
    ensures
      var after := Execute(h, wk, approved, calls, reason);
      var left := Left(RunBatch(h, wk.session.settings, approved, calls, reason, wk.session.world));
      Owed(true, after.conversation) == Some(left) && Owed(false, Replay(after.session.log)) == Some(left)
  {
    var s := wk.session;
    var b := RunBatch(h, s.settings, approved, calls, reason, s.world);
    BatchSplitsCalls(h, s.settings, approved, calls, reason, s.world);
    BatchLogs(h, s.settings, approved, calls, reason, s.world);
    BatchAnswersFirst(false, h, s.settings, approved, calls, reason, s.world);
    AnswersAreFirst(true, b.results, calls);
    OwedResults(true, wk.conversation, calls, b.results);
    ReplayAfterResults(s.log, b.logged);
    OwedResults(false, Replay(s.log), calls, b.logged);
  }

  lemma ReloadIsStoredOrder<W>(h: Host<W>, wk: Work<W>, approved: set<string>, calls: seq<Call>, reason: string)
    requires BoundariesExist(wk.session.log) && Owed(true, Replay(wk.session.log)) == Some(calls)
    ensures
      Owed(true, Replay(Execute(h, wk, approved, calls, reason).session.log)).Some? <==>
      InCallOrder(RunBatch(h, wk.session.settings, approved, calls, reason, wk.session.world).logged, calls)
  {
    var s := wk.session;
    var b := RunBatch(h, s.settings, approved, calls, reason, s.world);
    BatchLogs(h, s.settings, approved, calls, reason, s.world);
    BatchSplitsCalls(h, s.settings, approved, calls, reason, s.world);
    ReplayAfterResults(s.log, b.logged);
    InOrderIffOwed(Replay(s.log), calls, b.logged);
  }

  /** Main result: a reload finds the batch in call order however its groups complete, exactly when no two neighbouring
      calls before its stop may run in parallel; schedules under the parallel limit decide as much as all. */
  lemma ReloadInCallOrderWhateverFinishes<W>(h: Host<W>, wk: Work<W>, approved: set<string>, calls: seq<Call>, reason: string)
    requires BoundariesExist(wk.session.log) && Owed(true, Replay(wk.session.log)) == Some(calls) && DistinctIds(calls)
    ensures
      NoGroupOfTwo(h, wk.session.settings, approved, calls) <==>
      forall finish: seq<Call> -> seq<nat> ::
        Owed(true, Replay(Execute(h.(finish := finish), wk, approved, calls, reason).session.log)).Some?
    ensures
      NoGroupOfTwo(h, wk.session.settings, approved, calls) <==>
      forall finish: seq<Call> -> seq<nat> | Feasible(finish) ::
        Owed(true, Replay(Execute(h.(finish := finish), wk, approved, calls, reason).session.log)).Some?
  {
    var s := wk.session;
    StoredInCallOrderWhateverFinishes(h, s.settings, approved, calls, reason, s.world);
    forall finish: seq<Call> -> seq<nat>
      ensures
        Owed(true, Replay(Execute(h.(finish := finish), wk, approved, calls, reason).session.log)).Some? <==>
        InCallOrder(RunBatch(h.(finish := finish), s.settings, approved, calls, reason, s.world).logged, calls)
    {
      ReloadIsStoredOrder(h.(finish := finish), wk, approved, calls, reason);
    }
  }

  /** Main result: over every run whose batches form no group of two, whatever the scheduler does, every model call is
      sent all results in call order. */
  lemma UngroupedRunsKeepCallOrder<W>(h: Host<W>, settings: Settings, w: W, steps: seq<Interaction>)
    requires KeepsQuestionId(h) && DistinctIdsThroughout(steps)
    requires
      var trace := Run(h, settings, w, steps).trace;
      forall i {:trigger trace[i]} | 0 <= i < |trace| && trace[i].BatchStarted? ::
        NoGroupOfTwo(h, trace[i].settings, trace[i].approved, trace[i].calls)
    ensures
      var trace := Run(h, settings, w, steps).trace;
      forall i | 0 <= i < |trace| && trace[i].ModelCall? :: AnsweredExcept(true, trace[i].conversation, [])
  {
    EveryModelCallIsPaired(true, h, settings, w, steps);
  }

  const TWO_CALLS := [Call("first", "read", ""), Call("second", "read", "")]

  /** A host with one parallel tool whose group members complete in reverse. */
  function ReversingHost(): Host<int> {
    Host(
      name => if name == "read" then Some(Tool(false, "", true, (args: string) => None)) else None,
      (call: Call, w: int) => Effect(true, "", w),
      (call: Call) => None,
      (call: Call) => false,
      (group: seq<Call>) => if |group| == 2 then [1, 0] else Upto(|group|))
  }

  function Once(reply: Round): Script {
    Script(None, (c: seq<Turn>) => false, (i: nat) => reply, 1)
  }

  const ASKED := Message(Some("go"), Once(Reply("", TWO_CALLS)))
  const CONTINUED := Message(None, Once(Reply("done", [])))
  const ANY_SETTINGS := Settings(false, Ask, Ask, Ask, 0)

  /** Some model call was sent one result for each call, but not all of them in call order. */
  ghost predicate LosesCallOrder(trace: seq<TurnSpec.Event>) {
    exists i | 0 <= i < |trace| && trace[i].ModelCall? ::
      !AnsweredExcept(true, trace[i].conversation, []) && AnsweredExcept(false, trace[i].conversation, [])
  }

  /** The run that shows it: a message leads to two parallel reads, the second faster; the next turn continues from the
      stored history. Its model call gets the two results out of call order. */
  lemma ReloadCanLoseCallOrder()
    ensures KeepsQuestionId(ReversingHost()) && DistinctIdsThroughout([ASKED, CONTINUED])
    ensures LosesCallOrder(Run(ReversingHost(), ANY_SETTINGS, 0, [ASKED, CONTINUED]).trace)
  {
    var s := AfterReads();
    MeetsAssumptions();
    FirstTurn();
    OutOfOrder();
    SecondTurn(s);
    TwoMessages(ReversingHost(), ANY_SETTINGS, 0, Some("go"), Once(Reply("", TWO_CALLS)), None, Once(Reply("done", [])));
    Exhibits(Run(ReversingHost(), ANY_SETTINGS, 0, [ASKED, CONTINUED]).trace, s.trace, Replay(s.log));
  }

  lemma MeetsAssumptions()
    ensures KeepsQuestionId(ReversingHost()) && DistinctIdsThroughout([ASKED, CONTINUED])
  {
  }

  lemma TwoMessages<W>(h: Host<W>, settings: Settings, w: W, a: Option<string>, first: Script, b: Option<string>, second: Script)
    ensures Run(h, settings, w, [Message(a, first), Message(b, second)]) ==
            RunTurn(h, RunTurn(h, Session([], Idle, None, settings, w, []), a, first), b, second)
  {
    TwoSteps(h, settings, w, Message(a, first), Message(b, second));
  }

  lemma TwoSteps<W>(h: Host<W>, settings: Settings, w: W, a: Interaction, b: Interaction)
    ensures Run(h, settings, w, [a, b]) == Apply(h, Apply(h, Session([], Idle, None, settings, w, []), a), b)
  {
    assert [a, b][..1] == [a] && [a][..0] == [];
    assert Run(h, settings, w, []) == Session([], Idle, None, settings, w, []);
    assert Run(h, settings, w, [a]) == Apply(h, Run(h, settings, w, []), a);
  }

  lemma Exhibits(trace: seq<TurnSpec.Event>, front: seq<TurnSpec.Event>, sent: seq<Turn>)
    requires trace == front + [ModelCall(sent)] && Owed(true, sent).None? && Owed(false, sent) == Some([])
    ensures LosesCallOrder(trace)
  {
    PairedMeansEveryCallAnswered(true, sent);
    PairedMeansEveryCallAnswered(false, sent);
    assert trace[|front|] == ModelCall(sent);
  }

  const STARTED := [UserMessage("go"), AssistantMessage(false, "", TWO_CALLS)]

  function Reading(): Work<int> {
    Work(Session(STARTED, Running, None, ANY_SETTINGS, 0, [ModelCall([UserTurn("go")]), BatchStarted(TWO_CALLS, {}, ANY_SETTINGS)]),
         [UserTurn("go"), AssistantTurn("", TWO_CALLS)], false)
  }

  function AfterReads(): Session<int> {
    Finish(Store(Execute(ReversingHost(), Reading(), {}, TWO_CALLS, ""), SystemMessage(false, LOOP_LIMIT))).session
  }

  /** The two calls run as one group, in reverse, and are all of the batch. */
  lemma ReversedGroup(h: Host<int>, settings: Settings, calls: seq<Call>)
    requires h == ReversingHost() && calls == TWO_CALLS
    ensures !GroupsInOrder(h, settings, {}, calls, "", 0)
    ensures
      var b := RunBatch(h, settings, {}, calls, "", 0);
      b.pending == None && !b.planReady && Left(b) == []
  {
    assert multiset([1, 0]) == multiset{0, 1};
    assert Upto(2) == [0, 1];
    assert IsOrder([1, 0], 2) && Order(h, calls) == [1, 0];
    assert CanRunParallel(h, settings, {}, calls[0]) && CanRunParallel(h, settings, {}, calls[1]);
    assert calls[1..][0] == calls[1] && calls[1..][1..] == [];
    assert LeadingParallel(h, settings, {}, calls[1..]) == 1;
    assert calls[..2] == calls && calls[2..] == [];
  }

  lemma TwoReplayed(first: Message, second: Message, a: Turn, b: Turn)
    requires MessageTurn(first) == Some(a) && MessageTurn(second) == Some(b)
    ensures BoundariesExist([first, second]) && Replay([first]) == [a] && Replay([first, second]) == [a, b]
  {
    assert Replay([]) == [];
    ReplayAppend([], first);
    assert [] + [first] == [first];
    ReplayAppend([first], second);
    assert [first] + [second] == [first, second];
  }

  lemma UserThenCalls(strict: bool, text: string, calls: seq<Call>)
    ensures Owed(strict, [UserTurn(text), AssistantTurn("", calls)]) == Some(calls)
  {
    assert Owed(strict, []) == Some([]);
    OwedAppend(strict, [], UserTurn(text));
    assert [] + [UserTurn(text)] == [UserTurn(text)];
    OwedAppend(strict, [UserTurn(text)], AssistantTurn("", calls));
    assert [UserTurn(text)] + [AssistantTurn("", calls)] == [UserTurn(text), AssistantTurn("", calls)];
  }

  lemma StartedLog(strict: bool)
    ensures BoundariesExist(STARTED) && Replay([UserMessage("go")]) == [UserTurn("go")]
    ensures Replay(STARTED) == [UserTurn("go"), AssistantTurn("", TWO_CALLS)]
    ensures Owed(strict, Replay(STARTED)) == Some(TWO_CALLS)
  {
    TwoReplayed(UserMessage("go"), AssistantMessage(false, "", TWO_CALLS), UserTurn("go"), AssistantTurn("", TWO_CALLS));
    UserThenCalls(strict, "go", TWO_CALLS);
  }

  lemma StartedCalls(log: seq<AgentTypes.Message>, conversation: seq<Turn>, calls: seq<Call>)
    requires log == STARTED && conversation == [UserTurn("go"), AssistantTurn("", TWO_CALLS)] && calls == TWO_CALLS
    ensures BoundariesExist(log) && DistinctIds(calls) && Replay(log) == conversation
    ensures Owed(true, conversation) == Some(calls) && Owed(false, conversation) == Some(calls)
  {
    StartedLog(true);
    StartedLog(false);
  }

  /** A batch about to run whose groups complete out of order and which leaves nothing pending. */
  ghost predicate Scrambles<W>(h: Host<W>, wk: Work<W>, calls: seq<Call>) {
    && BoundariesExist(wk.session.log) && DistinctIds(calls) && Owed(true, wk.conversation) == Some(calls)
    && Owed(true, Replay(wk.session.log)) == Some(calls) && Owed(false, Replay(wk.session.log)) == Some(calls)
    && !GroupsInOrder(h, wk.session.settings, {}, calls, "", wk.session.world)
    && Left(RunBatch(h, wk.session.settings, {}, calls, "", wk.session.world)) == []
  }

  ghost predicate Scrambled<W>(s: Session<W>, settings: Settings) {
    && BoundariesExist(s.log) && s.status == Idle && s.settings == settings
    && Owed(true, Replay(s.log)).None? && Owed(false, Replay(s.log)) == Some([])
  }

  lemma Scrambling<W>(h: Host<W>, wk: Work<W>, calls: seq<Call>)
    requires BoundariesExist(wk.session.log) && DistinctIds(calls) && Replay(wk.session.log) == wk.conversation
    requires Owed(true, wk.conversation) == Some(calls) && Owed(false, wk.conversation) == Some(calls)
    requires !GroupsInOrder(h, wk.session.settings, {}, calls, "", wk.session.world)
    requires Left(RunBatch(h, wk.session.settings, {}, calls, "", wk.session.world)) == []
    ensures Scrambles(h, wk, calls)
  {
  }

  lemma ReadingScrambles(h: Host<int>, wk: Work<int>, calls: seq<Call>)
    requires h == ReversingHost() && wk == Reading() && calls == TWO_CALLS
    ensures Scrambles(h, wk, calls)
  {
    ReversedGroup(h, wk.session.settings, calls);
    assert wk.session.world == 0;
    StartedCalls(wk.session.log, wk.conversation, calls);
    Scrambling(h, wk, calls);
  }

  /** The reads leave nothing owed, but the stored results are out of call order. */
  lemma OutOfOrder()
    ensures Scrambled(AfterReads(), ANY_SETTINGS)
  {
    ReadingScrambles(ReversingHost(), Reading(), TWO_CALLS);
    AfterBatchAndNote(ReversingHost(), Reading(), TWO_CALLS);
  }

  lemma AfterBatchAndNote<W>(h: Host<W>, wk: Work<W>, calls: seq<Call>)
    requires Scrambles(h, wk, calls)
    ensures Scrambled(Finish(Store(Execute(h, wk, {}, calls, ""), SystemMessage(false, LOOP_LIMIT))).session, wk.session.settings)
  {
    RanOutOfOrder(h, wk, calls);
    NoteChangesNothing(Execute(h, wk, {}, calls, ""));
  }

  lemma NoteChangesNothing<W>(ran: Work<W>)
    requires BoundariesExist(ran.session.log) && Owed(true, Replay(ran.session.log)).None? && Owed(false, Replay(ran.session.log)) == Some([])
    ensures Scrambled(Finish(Store(ran, SystemMessage(false, LOOP_LIMIT))).session, ran.session.settings)
  {
    ReplayAppend(ran.session.log, SystemMessage(false, LOOP_LIMIT));
  }

  lemma RanOutOfOrder<W>(h: Host<W>, wk: Work<W>, calls: seq<Call>)
    requires Scrambles(h, wk, calls)
    ensures
      var s := Execute(h, wk, {}, calls, "").session;
      && BoundariesExist(s.log) && s.settings == wk.session.settings
      && Owed(true, Replay(s.log)).None? && Owed(false, Replay(s.log)) == Some([])
  {
    var b := RunBatch(h, wk.session.settings, {}, calls, "", wk.session.world);
    ReloadInCallOrderIff(h, wk, {}, calls, "");
    MemoryKeepsCallOrder(h, wk, {}, calls, "");
    ReplayAfterResults(wk.session.log, b.logged);
  }

  lemma NoneReady(h: Host<int>, wk: Work<int>, calls: seq<Call>)
    requires h == ReversingHost() && wk == Reading() && calls == TWO_CALLS
    ensures
      var ran := Execute(h, wk, {}, calls, "");
      ran.session.status == Running && !ran.planReady
  {
    ReversedGroup(h, wk.session.settings, calls);
  }

  /** A turn of one round that leaves nothing to wait for ends at the loop limit. */
  lemma OneRoundTurn<W>(h: Host<W>, wk: Work<W>, script: Script, ran: Work<W>)
    requires RunRound(h, wk, script, 0) == (ran, false)
    ensures ModelLoop(h, wk, script, 0, 1) == Finish(Store(ran, SystemMessage(false, LOOP_LIMIT)))
  {
    assert ModelLoop(h, ran, script, 1, 1) == Finish(Store(ran, SystemMessage(false, LOOP_LIMIT)));
  }

  lemma RoundOf<W>(h: Host<W>, wk: Work<W>, script: Script, calls: seq<Call>, begun: Work<W>)
    requires script.round(0) == Reply("", calls) && calls != []
    requires Announce(StartBatch(CallModel(wk, script), "", calls), calls, {}) == begun
    requires var ran := Execute(h, begun, {}, calls, ""); !IsPaused(ran) && !ran.planReady
    ensures RunRound(h, wk, script, 0) == (Execute(h, begun, {}, calls, ""), false)
  {
  }

  lemma FreshTurn<W>(h: Host<W>, s: Session<W>, script: Script)
    requires s.log == [] && s.status == Idle && s.pending == None && s.settings.maxModelCalls == 0
    requires script.summary.None? && script.callLimit == 1
    ensures
      var wk := Work(s.(log := [UserMessage("go")], status := Running), [UserTurn("go")], false);
      RunTurn(h, s, Some("go"), script) == ModelLoop(h, wk, script, 0, 1).session
  {
    StartedLog(true);
    NotBlank();
    assert [] + [UserMessage("go")] == [UserMessage("go")];
  }

  lemma FirstTurn()
    ensures RunTurn(ReversingHost(), Session([], Idle, None, ANY_SETTINGS, 0, []), Some("go"), Once(Reply("", TWO_CALLS))) == AfterReads()
  {
    var h, script := ReversingHost(), Once(Reply("", TWO_CALLS));
    FreshTurn(h, Session([], Idle, None, ANY_SETTINGS, 0, []), script);
    var wk := Work(Session([UserMessage("go")], Running, None, ANY_SETTINGS, 0, []), [UserTurn("go")], false);
    ReadRound(wk, script);
    NoneReady(h, Reading(), TWO_CALLS);
    RoundOf(h, wk, script, TWO_CALLS, Reading());
    OneRoundTurn(h, wk, script, Execute(h, Reading(), {}, TWO_CALLS, ""));
  }

  lemma ReadRound(wk: Work<int>, script: Script)
    requires wk == Work(Session([UserMessage("go")], Running, None, ANY_SETTINGS, 0, []), [UserTurn("go")], false)
    requires script == Once(Reply("", TWO_CALLS))
    ensures Announce(StartBatch(CallModel(wk, script), "", TWO_CALLS), TWO_CALLS, {}) == Reading()
  {
    var called := CallModel(wk, script);
    assert called.session.trace == [ModelCall([UserTurn("go")])];
    assert [UserMessage("go")] + [AssistantMessage(false, "", TWO_CALLS)] == STARTED;
  }

  lemma NotBlank()
    ensures !IsBlank(Some("go"))
  {
    assert Trim("go") == TrimLeft("go");
  }

  lemma SecondTurn(s: Session<int>)
    requires s == AfterReads() && Scrambled(s, ANY_SETTINGS)
    ensures RunTurn(ReversingHost(), s, None, Once(Reply("done", []))).trace == s.trace + [ModelCall(Replay(s.log))]
  {
    ContinueTurn(ReversingHost(), s, Once(Reply("done", [])));
  }

  /** A turn that continues from the history and gets a final reply makes one model call, with the replayed log. */
  lemma ContinueTurn<W>(h: Host<W>, s: Session<W>, script: Script)
    requires s.status == Idle && s.settings.maxModelCalls == 0 && script.callLimit == 1 && script.summary.None?
    requires script.round(0) == Reply("done", []) && !script.needsMicro(Replay(s.log))
    ensures RunTurn(h, s, None, script).trace == s.trace + [ModelCall(Replay(s.log))]
  {
    var wk := Work(s.(status := Running, pending := None), Replay(s.log), false);
    assert PrepareHistory(s.(status := Running, pending := None), None, None, script) == wk;
    FinalRound(h, wk, script);
    assert RunTurn(h, s, None, script) == ModelLoop(h, wk, script, 0, 1).session;
  }

  lemma FinalRound<W>(h: Host<W>, wk: Work<W>, script: Script)
    requires script.round(0) == Reply("done", []) && !script.needsMicro(wk.conversation)
    ensures
      var (next, isDone) := RunRound(h, wk, script, 0);
      isDone && next.session.trace == wk.session.trace + [ModelCall(wk.conversation)]
  {
  }
}
