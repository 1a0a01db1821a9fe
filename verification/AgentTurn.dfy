/** A session between and within turns, and what one turn does to it: new message, decision on a pending
    action, model loop. Every turn is a function of the session and of what the outside world answers. */
module TurnSpec {
  import opened Options
  import opened AgentTypes
  import opened Gates
  import opened Pairing
  import opened Batches
  import opened History

  const PLAN_CONFIRMED := "The user confirmed the plan; plan mode is off. Carry it out step by step."
  const PLAN_FEEDBACK := "The user wants the plan changed; ask for details first."
  const NO_ANSWER := "The user gave no answer"
  const LOOP_LIMIT := "Model call limit reached"
  const CALL_FAILED := "Model call failed"

  /** What an observer of the engine sees, in order. */
  datatype Event =
    | ModelCall(conversation: seq<Turn>)
    | UserApproved(calls: seq<Call>)
    | BatchStarted(calls: seq<Call>, approved: set<string>, settings: Settings)
    | Executed(call: Call, settings: Settings)

  datatype Session<W> = Session(
    log: seq<Message>, status: Status, pending: Option<Pending>, settings: Settings, world: W, trace: seq<Event>)

  /** A session in the middle of a turn, with the conversation the engine keeps in memory. */
  datatype Work<W> = Work(session: Session<W>, conversation: seq<Turn>, planReady: bool)

  /** How one round of the model loop goes: stopped before the call, a failed call, or a reply. */
  datatype Round = Cancelled | Failed(partial: string, reasoning: string) | Reply(text: string, calls: seq<Call>)

  /** Everything the outside world contributes to one turn. */
  datatype Script = Script(
    summary: Option<string>, needsMicro: seq<Turn> -> bool, round: nat -> Round, callLimit: nat)

  datatype Decision = Decision(approved: bool, note: string, answer: string)

  predicate IsSpace(c: char) {
    c == ' ' || c == '\t' || c == '\n' || c == '\r'
  }

  function TrimLeft(text: string): string {
    if text != "" && IsSpace(text[0]) then TrimLeft(text[1..]) else text
  }

  function Trim(text: string): string
    decreases |text|
  {
    if text != "" && IsSpace(text[|text| - 1]) then Trim(text[..|text| - 1]) else TrimLeft(text)
  }

  function FirstNonEmpty(a: string, b: string, c: string): string {
    if a != "" then a else if b != "" then b else c
  }

  // ---- Small steps ----

  function Store<W>(wk: Work<W>, message: Message): Work<W> {
    wk.(session := wk.session.(log := wk.session.log + [message]))
  }

  function ToolMessages(results: seq<Result>): seq<Message> {
    seq(|results|, i requires 0 <= i < |results| => ToolMessage(results[i]))
  }

  function ExecutedEvents(calls: seq<Call>, settings: Settings): seq<Event> {
    seq(|calls|, i requires 0 <= i < |calls| => Executed(calls[i], settings))
  }

  function AddResults<W>(wk: Work<W>, results: seq<Result>): Work<W> {
    wk.(session := wk.session.(log := wk.session.log + ToolMessages(results)),
        conversation := wk.conversation + ToolTurns(results))
  }

  function Dismissals(calls: seq<Call>, why: Denial): (r: seq<Result>)
    ensures |r| == |calls| && forall i | 0 <= i < |r| :: r[i] == DeniedResult(calls[i], why)
  {
    seq(|calls|, i requires 0 <= i < |calls| => DeniedResult(calls[i], why))
  }

  function PauseWith<W>(wk: Work<W>, pending: Pending): Work<W> {
    wk.(session := wk.session.(status := WaitingApproval, pending := Some(pending)))
  }

  /** A batch's results: stored as they completed, sent to the model in call order. */
  function AddBatch<W>(wk: Work<W>, logged: seq<Result>, results: seq<Result>): Work<W> {
    wk.(session := wk.session.(log := wk.session.log + ToolMessages(logged)),
        conversation := wk.conversation + ToolTurns(results))
  }

  /** What a batch does: results into log and conversation, executions into the trace, pause into the session. */
  function ApplyBatch<W>(wk: Work<W>, b: Batch<W>): Work<W> {
    var next := AddBatch(wk, b.logged, b.results);
    var traced := next.(
      session := next.session.(world := b.world, trace := wk.session.trace + ExecutedEvents(b.executed, wk.session.settings)),
      planReady := wk.planReady || b.planReady);
    match b.pending case None => traced case Some(pending) => PauseWith(traced, pending)
  }

  function Execute<W>(h: Host<W>, wk: Work<W>, approved: set<string>, calls: seq<Call>, reason: string): Work<W> {
    ApplyBatch(wk, RunBatch(h, wk.session.settings, approved, calls, reason, wk.session.world))
  }

  predicate IsPaused<W>(wk: Work<W>) {
    wk.session.status == WaitingApproval
  }

  function Finish<W>(wk: Work<W>): Work<W> {
    wk.(session := wk.session.(status := Idle))
  }

  // ---- The model loop ----

  function PrepareContext<W>(wk: Work<W>, script: Script): Work<W> {
    if script.needsMicro(wk.conversation) then wk.(conversation := MicroCompacted(wk.conversation)) else wk
  }

  function CallModel<W>(wk: Work<W>, script: Script): Work<W> {
    var ready := PrepareContext(wk, script);
    ready.(session := ready.session.(trace := ready.session.trace + [ModelCall(ready.conversation)]))
  }

  /** What a failed call produced so far is kept, unless it is nothing. */
  function FailCall<W>(wk: Work<W>, partial: string, reasoning: string): Work<W> {
    var kept := if partial == "" && reasoning == "" then wk else Store(wk, AssistantMessage(true, partial, []));
    Finish(Store(kept, SystemMessage(true, CALL_FAILED)))
  }

  function StartBatch<W>(wk: Work<W>, text: string, calls: seq<Call>): Work<W> {
    Store(wk, AssistantMessage(false, text, calls)).(conversation := wk.conversation + [AssistantTurn(text, calls)])
  }

  /** Records that a batch begins, with the settings it is checked against. */
  function Announce<W>(wk: Work<W>, calls: seq<Call>, approved: set<string>): Work<W> {
    wk.(session := wk.session.(trace := wk.session.trace + [BatchStarted(calls, approved, wk.session.settings)]))
  }

  /** One reply: persisted, then its batch is run. Done when there is nothing to run or the batch paused. */
  function HandleReply<W>(h: Host<W>, wk: Work<W>, text: string, calls: seq<Call>): (Work<W>, bool) {
    if calls == [] then (Finish(Store(wk, AssistantMessage(false, text, calls))), true)
    else
      var ran := Execute(h, Announce(StartBatch(wk, text, calls), calls, {}), {}, calls, text);
      if IsPaused(ran) then (ran, true)
      else if ran.planReady then (PauseWith(ran.(planReady := false), Plan), true)
      else (ran, false)
  }

  function RunRound<W>(h: Host<W>, wk: Work<W>, script: Script, round: nat): (Work<W>, bool) {
    match script.round(round)
    case Cancelled => (Finish(wk), true)
    case Failed(partial, reasoning) => (FailCall(CallModel(wk, script), partial, reasoning), true)
    case Reply(text, calls) => HandleReply(h, CallModel(wk, script), text, calls)
  }

  function ModelLoop<W>(h: Host<W>, wk: Work<W>, script: Script, round: nat, limit: nat): Work<W>
    decreases limit - round
  {
    if round >= limit then Finish(Store(wk, SystemMessage(false, LOOP_LIMIT)))
    else
      var (next, isDone) := RunRound(h, wk, script, round);
      if isDone then next else ModelLoop(h, next, script, round + 1, limit)
  }

  function CallLimit(settings: Settings, script: Script): nat {
    if settings.maxModelCalls > 0 then settings.maxModelCalls else script.callLimit
  }

  // ---- Turns ----

  /** The pending action a new message would supersede. Only a waiting session owns unexecuted calls. */
  function Supersedable<W>(s: Session<W>): Option<Pending> {
    if s.status == WaitingApproval then s.pending else None
  }

  function LoadWork<W>(s: Session<W>, script: Script): Work<W> {
    var after := Summarize(s.log, script.summary);
    Work(s.(log := after.log), after.conversation, false)
  }

  predicate IsBlank(input: Option<string>) {
    input.None? || Trim(input.value) == ""
  }

  function StoreInput<W>(s: Session<W>, input: Option<string>): Session<W> {
    if IsBlank(input) then s
    else s.(log := s.log + [UserMessage(input.value)])
  }

  function AddInput<W>(wk: Work<W>, input: Option<string>): Work<W> {
    if IsBlank(input) then wk
    else Store(wk, UserMessage(input.value)).(conversation := wk.conversation + [UserTurn(input.value)])
  }

  function PrepareHistory<W>(s: Session<W>, input: Option<string>, superseded: Option<Pending>, script: Script): Work<W> {
    match superseded
    case None => LoadWork(StoreInput(s, input), script)
    case Some(pending) =>
      var loaded := LoadWork(s.(pending := None), script);
      AddInput(AddResults(loaded, Dismissals(PendingCalls(pending), Superseded)), input)
  }

  /** A new turn: a user message, or None to continue from the history. */
  function RunTurn<W>(h: Host<W>, s: Session<W>, input: Option<string>, script: Script): Session<W> {
    var superseded := Supersedable(s);
    var started := s.(status := Running, pending := if superseded.None? then None else s.pending);
    var wk := PrepareHistory(started, input, superseded, script);
    ModelLoop(h, wk, script, 0, CallLimit(wk.session.settings, script)).session
  }

  predicate CanResume(pending: Option<Pending>) {
    pending.Some? && (pending.value.Plan? || pending.value.calls != [])
  }

  function Answer(decision: Decision): string {
    FirstNonEmpty(Trim(decision.answer), Trim(decision.note), NO_ANSWER)
  }

  /** The other calls of a question's batch, in order. */
  function Others(calls: seq<Call>, id: string): seq<Call> {
    if calls == [] then []
    else
      var last := |calls| - 1;
      Others(calls[..last], id) + (if calls[last].id == id then [] else [calls[last]])
  }

  function AnswerQuestion<W>(wk: Work<W>, calls: seq<Call>, id: string, decision: Decision): Work<W> {
    AddResults(AddResults(wk, [Result(id, ASK_USER, Answered(Answer(decision)))]),
               Dismissals(Others(calls, id), CancelledByAnswer))
  }

  function DecidePlan<W>(wk: Work<W>, decision: Decision): Work<W> {
    if decision.approved then
      var off := wk.(session := wk.session.(settings := wk.session.settings.(planMode := false)));
      var noted := Store(off, SystemMessage(false, PLAN_CONFIRMED));
      noted.(conversation := noted.conversation + [UserTurn(PLAN_CONFIRMED)])
    else
      var feedback := FirstNonEmpty(Trim(decision.note), PLAN_FEEDBACK, "");
      var noted := Store(wk, UserMessage(feedback));
      noted.(conversation := noted.conversation + [UserTurn(feedback)])
  }

  function Names(calls: seq<Call>): seq<string> {
    seq(|calls|, i requires 0 <= i < |calls| => calls[i].name)
  }

  function DecideApproval<W>(h: Host<W>, wk: Work<W>, calls: seq<Call>, decision: Decision): Work<W> {
    var noted := Store(wk, ApprovalMessage(decision.approved, Names(calls), decision.note));
    if !decision.approved then
      AddResults(noted, Dismissals(calls, UserDenied(Trim(decision.note))))
    else
      var granted := noted.(session := noted.session.(trace := noted.session.trace + [UserApproved(calls)]));
      Execute(h, Announce(granted, calls, Ids(calls)), Ids(calls), calls, "")
  }

  function Decide<W>(h: Host<W>, wk: Work<W>, pending: Pending, decision: Decision): Work<W> {
    match pending
    case Question(calls, id) => AnswerQuestion(wk, calls, id, decision)
    case Plan => DecidePlan(wk, decision)
    case Approval(calls, _, _) => DecideApproval(h, wk, calls, decision)
  }

  datatype Resumed<W> = NoPendingApproval | StalePending(name: string) | Resumed(session: Session<W>)

  function FirstMissing<W>(h: Host<W>, calls: seq<Call>): Option<string> {
    if calls == [] then None
    else if h.find(calls[0].name).None? then Some(calls[0].name)
    else FirstMissing(h, calls[1..])
  }

  function CheckPendingTools<W>(h: Host<W>, pending: Pending): Option<string> {
    if pending.Approval? then FirstMissing(h, pending.calls) else None
  }

  function ResumeTurn<W>(h: Host<W>, s: Session<W>, pending: Pending, decision: Decision, script: Script): Session<W> {
    var wk := LoadWork(s.(status := Running), script);
    var decided := Decide(h, wk, pending, decision);
    if IsPaused(decided) then decided.session
    else
      var cleared := decided.(session := decided.session.(pending := None));
      ModelLoop(h, cleared, script, 0, CallLimit(cleared.session.settings, script)).session
  }

  function ResumeApproval<W>(h: Host<W>, s: Session<W>, decision: Decision, script: Script): Resumed<W> {
    if s.status != WaitingApproval || !CanResume(s.pending) then NoPendingApproval
    else if decision.approved && CheckPendingTools(h, s.pending.value).Some? then
      StalePending(CheckPendingTools(h, s.pending.value).value)
    else Resumed(ResumeTurn(h, s, s.pending.value, decision, script))
  }
}

/** What every turn keeps, and what therefore holds over every run. */
module TurnSafety {
  import opened Options
  import opened AgentTypes
  import opened Gates
  import opened Pairing
  import opened Permutations
  import opened Batches
  import opened History
  import opened TurnSpec

  /** The calls of the last batch that still wait for the user. */
  function OpenCalls<W>(s: Session<W>): seq<Call> {
    match Supersedable(s) case None => [] case Some(pending) => PendingCalls(pending)
  }

  predicate WellFormedPending(pending: Pending) {
    && CanResume(Some(pending))
    && DistinctIds(PendingCalls(pending))
    && (pending.Question? ==> pending.callId == pending.calls[0].id)
  }

  predicate AllModelCallsPaired(strict: bool, trace: seq<Event>) {
    forall i | 0 <= i < |trace| && trace[i].ModelCall? :: Paired(strict, trace[i].conversation)
  }

  /** The user approved this very call, arguments included, earlier in the trace. */
  ghost predicate ApprovedBefore(trace: seq<Event>, at: int, call: Call)
    requires 0 <= at <= |trace|
  {
    exists j | 0 <= j < at :: trace[j].UserApproved? && call in trace[j].calls
  }

  ghost predicate GateSafe<W>(h: Host<W>, trace: seq<Event>) {
    forall i | 0 <= i < |trace| && trace[i].Executed? ::
      RunsLegally(h, trace[i].settings, trace[i].call, ApprovedBefore(trace, i, trace[i].call))
  }

  function LogResults(log: seq<Message>): seq<Result> {
    if log == [] then []
    else
      var last := |log| - 1;
      if log[last].ToolMessage? then LogResults(log[..last]) + [log[last].result] else LogResults(log[..last])
  }

  function ExecutedIds(trace: seq<Event>): seq<string> {
    if trace == [] then []
    else
      var last := |trace| - 1;
      if trace[last].Executed? then ExecutedIds(trace[..last]) + [trace[last].call.id] else ExecutedIds(trace[..last])
  }

  /** The log reports an execution exactly when it happened, in the same order. */
  predicate Honest<W>(s: Session<W>) {
    RanIds(LogResults(s.log)) == ExecutedIds(s.trace)
  }

  ghost predicate Observed<W>(strict: bool, h: Host<W>, s: Session<W>) {
    && BoundariesExist(s.log)
    && AllModelCallsPaired(strict, s.trace)
    && GateSafe(h, s.trace)
    && Honest(s)
  }

  /** A session between turns. */
  ghost predicate Sound<W>(strict: bool, h: Host<W>, s: Session<W>) {
    && Observed(strict, h, s)
    && s.status != Running
    && (s.status == WaitingApproval ==> s.pending.Some? && WellFormedPending(s.pending.value))
    && Owed(strict, Replay(s.log)) == Some(OpenCalls(s))
  }

  /** A session within a turn: log and memory owe the same calls. */
  ghost predicate InTurn<W>(strict: bool, h: Host<W>, wk: Work<W>, owed: seq<Call>) {
    && Observed(strict, h, wk.session)
    && wk.session.status == Running
    && DistinctIds(owed)
    && Owed(strict, Replay(wk.session.log)) == Some(owed)
    && Owed(strict, wk.conversation) == Some(owed)
  }

  /** The host's question parser keeps the id of the call it parses. */
  ghost predicate KeepsQuestionId<W>(h: Host<W>) {
    forall call: Call :: h.ask(call).Some? ==> h.ask(call).value == call.id
  }

  ghost predicate DistinctReplies(script: Script) {
    forall i: nat :: script.round(i).Reply? ==> DistinctIds(script.round(i).calls)
  }

  /** Every batch begun so far keeps the call order. */
  ghost predicate OrderKept<W>(h: Host<W>, trace: seq<Event>) {
    forall i {:trigger trace[i]} | 0 <= i < |trace| && trace[i].BatchStarted? ::
      KeepsOrder(h, trace[i].settings, trace[i].approved, trace[i].calls)
  }

  lemma OrderKeptBefore<W>(h: Host<W>, trace: seq<Event>, more: seq<Event>)
    requires OrderKept(h, more) && trace <= more
    ensures OrderKept(h, trace)
  {
    forall i | 0 <= i < |trace| && trace[i].BatchStarted?
      ensures KeepsOrder(h, trace[i].settings, trace[i].approved, trace[i].calls)
    {
      assert more[i] == trace[i];
    }
  }

  // ---- Small steps keep the in-turn invariant ----

  lemma LogResultsAppend(log: seq<Message>, message: Message)
    ensures LogResults(log + [message]) ==
            if message.ToolMessage? then LogResults(log) + [message.result] else LogResults(log)
  {
    assert (log + [message])[..|log|] == log;
  }

  lemma ToolMessagesPrefix(log: seq<Message>, results: seq<Result>)
    requires results != []
    ensures
      var last := |results| - 1;
      log + ToolMessages(results) == log + ToolMessages(results[..last]) + [ToolMessage(results[last])]
  {
  }

  lemma ToolTurnsPrefix(turns: seq<Turn>, results: seq<Result>)
    requires results != []
    ensures
      var last := |results| - 1;
      turns + ToolTurns(results) == turns + ToolTurns(results[..last]) + [ToolTurn(results[last])]
  {
  }

  lemma {:induction false} LogAfterResults(log: seq<Message>, results: seq<Result>)
    ensures LogResults(log + ToolMessages(results)) == LogResults(log) + results
    decreases |results|
  {
    if results == [] {
      assert log + ToolMessages(results) == log;
    } else {
      var last := |results| - 1;
      LogAfterResults(log, results[..last]);
      ToolMessagesPrefix(log, results);
      LogResultsAppend(log + ToolMessages(results[..last]), ToolMessage(results[last]));
      assert results == results[..last] + [results[last]];
    }
  }

  lemma {:induction false} ReplayAfterResults(log: seq<Message>, results: seq<Result>)
    requires BoundariesExist(log)
    ensures Replay(log + ToolMessages(results)) == Replay(log) + ToolTurns(results)
    ensures BoundariesExist(log + ToolMessages(results))
    decreases |results|
  {
    if results == [] {
      assert log + ToolMessages(results) == log;
    } else {
      var last := |results| - 1;
      ReplayAfterResults(log, results[..last]);
      ToolMessagesPrefix(log, results);
      ReplayAppend(log + ToolMessages(results[..last]), ToolMessage(results[last]));
      ToolTurnsPrefix(Replay(log), results);
    }
  }

  lemma StoreKeeps<W>(strict: bool, h: Host<W>, wk: Work<W>, message: Message, owed: seq<Call>)
    requires InTurn(strict, h, wk, owed) && MessageTurn(message).None? && !message.SummaryMessage? && !message.ToolMessage?
    ensures InTurn(strict, h, Store(wk, message), owed)
  {
    ReplayAppend(wk.session.log, message);
    LogResultsAppend(wk.session.log, message);
  }

  /** A message and the turn it replays to enter log and memory together. */
  lemma StoreBothKeeps<W>(strict: bool, h: Host<W>, wk: Work<W>, message: Message, turn: Turn, owed: seq<Call>, next: seq<Call>)
    requires InTurn(strict, h, wk, owed) && MessageTurn(message) == Some(turn) && Step(strict, owed, turn) == Some(next)
    requires !message.ToolMessage? && DistinctIds(next)
    ensures InTurn(strict, h, Store(wk, message).(conversation := wk.conversation + [turn]), next)
  {
    ReplayAppend(wk.session.log, message);
    LogResultsAppend(wk.session.log, message);
    OwedAppend(strict, Replay(wk.session.log), turn);
    OwedAppend(strict, wk.conversation, turn);
  }

  /** Storing one order of the results and sending another leaves the same calls owed in both places. */
  lemma AddBatchOwes<W>(strict: bool, h: Host<W>, wk: Work<W>, logged: seq<Result>, results: seq<Result>, owed: seq<Call>)
    requires InTurn(strict, h, wk, owed) && |logged| == |results|
    requires AnswersFirst(strict, logged, owed) && AnswersFirst(strict, results, owed)
    ensures
      var next := AddBatch(wk, logged, results);
      && BoundariesExist(next.session.log)
      && LogResults(next.session.log) == LogResults(wk.session.log) + logged
      && Owed(strict, Replay(next.session.log)) == Some(owed[|results|..])
      && Owed(strict, next.conversation) == Some(owed[|results|..])
  {
    LogAfterResults(wk.session.log, logged);
    ReplayAfterResults(wk.session.log, logged);
    OwedResults(strict, Replay(wk.session.log), owed, logged);
    OwedResults(strict, wk.conversation, owed, results);
  }

  lemma AnswersAreFirst(strict: bool, results: seq<Result>, calls: seq<Call>)
    requires Answers(results, calls)
    ensures AnswersFirst(strict, results, calls)
  {
    assert ResultIds(results) == IdsOf(calls)[..|results|];
  }

  lemma {:induction false} NothingRan(results: seq<Result>)
    requires forall r | r in results :: !r.outcome.Ran?
    ensures RanIds(results) == []
    decreases |results|
  {
    if results != [] {
      assert results[|results| - 1] in results;
      NothingRan(results[..|results| - 1]);
    }
  }

  /** Results that execute nothing: refusals, answers, cancellations. */
  lemma AddResultsKeeps<W>(strict: bool, h: Host<W>, wk: Work<W>, results: seq<Result>, owed: seq<Call>)
    requires InTurn(strict, h, wk, owed) && Answers(results, owed)
    requires forall r | r in results :: !r.outcome.Ran?
    ensures InTurn(strict, h, AddResults(wk, results), owed[|results|..])
  {
    AnswersAreFirst(strict, results, owed);
    AddBatchOwes(strict, h, wk, results, results, owed);
    NothingRan(results);
    RanIdsConcat(LogResults(wk.session.log), results);
  }

  lemma {:induction false} ExecutedIdsAppend(trace: seq<Event>, calls: seq<Call>, settings: Settings)
    ensures ExecutedIds(trace + ExecutedEvents(calls, settings)) == ExecutedIds(trace) + IdsOf(calls)
    decreases |calls|
  {
    var events := ExecutedEvents(calls, settings);
    if calls == [] {
      assert trace + events == trace;
    } else {
      var last := |calls| - 1;
      ExecutedIdsAppend(trace, calls[..last], settings);
      assert trace + events == trace + ExecutedEvents(calls[..last], settings) + [Executed(calls[last], settings)];
      assert (trace + events)[..|trace + events| - 1] == trace + ExecutedEvents(calls[..last], settings);
      assert IdsOf(calls) == IdsOf(calls[..last]) + [calls[last].id];
    }
  }

  lemma ApprovalsPersist(trace: seq<Event>, more: seq<Event>, at: int, call: Call)
    requires 0 <= at <= |trace|
    ensures ApprovedBefore(trace, at, call) ==> ApprovedBefore(trace + more, at, call)
    ensures forall later | at <= later <= |trace + more| :: ApprovedBefore(trace, at, call) ==> ApprovedBefore(trace + more, later, call)
  {
    if ApprovedBefore(trace, at, call) {
      var j :| 0 <= j < at && trace[j].UserApproved? && call in trace[j].calls;
      assert (trace + more)[j] == trace[j];
    }
  }

  lemma GateSafeAppend<W>(h: Host<W>, trace: seq<Event>, more: seq<Event>)
    requires GateSafe(h, trace)
    requires forall i | 0 <= i < |more| && more[i].Executed? ::
      RunsLegally(h, more[i].settings, more[i].call, ApprovedBefore(trace, |trace|, more[i].call))
    ensures GateSafe(h, trace + more)
  {
    var all := trace + more;
    forall i | 0 <= i < |all| && all[i].Executed?
      ensures RunsLegally(h, all[i].settings, all[i].call, ApprovedBefore(all, i, all[i].call))
    {
      if i < |trace| {
        ApprovalsPersist(trace, more, i, all[i].call);
      } else {
        assert all[i] == more[i - |trace|];
        ApprovalsPersist(trace, more, |trace|, all[i].call);
      }
    }
  }

  /** Every approved call of the batch was approved by the user earlier in the trace. */
  ghost predicate Granted(trace: seq<Event>, approved: set<string>, calls: seq<Call>) {
    forall c | c in calls && c.id in approved :: ApprovedBefore(trace, |trace|, c)
  }

  lemma ExecutionsAreSafe<W>(h: Host<W>, wk: Work<W>, approved: set<string>, calls: seq<Call>, reason: string)
    requires GateSafe(h, wk.session.trace) && Granted(wk.session.trace, approved, calls)
    ensures GateSafe(h, Execute(h, wk, approved, calls, reason).session.trace)
  {
    var s := wk.session;
    var executed := RunBatch(h, s.settings, approved, calls, reason, s.world).executed;
    BatchExecutesOnlyCleared(h, s.settings, approved, calls, reason, s.world);
    var events := ExecutedEvents(executed, s.settings);
    forall i | 0 <= i < |events| && events[i].Executed?
      ensures RunsLegally(h, events[i].settings, events[i].call, ApprovedBefore(s.trace, |s.trace|, events[i].call))
    {
      assert events[i].call in executed;
    }
    GateSafeAppend(h, s.trace, events);
  }

  lemma ExecuteOwes<W>(strict: bool, h: Host<W>, wk: Work<W>, approved: set<string>, calls: seq<Call>, reason: string)
    requires strict ==> KeepsOrder(h, wk.session.settings, approved, calls)
    requires InTurn(strict, h, wk, calls)
    ensures
      var ran := Execute(h, wk, approved, calls, reason);
      var b := RunBatch(h, wk.session.settings, approved, calls, reason, wk.session.world);
      && BoundariesExist(ran.session.log)
      && LogResults(ran.session.log) == LogResults(wk.session.log) + b.logged
      && Owed(strict, Replay(ran.session.log)) == Some(Left(b))
      && Owed(strict, ran.conversation) == Some(Left(b))
  {
    var s := wk.session;
    var b := RunBatch(h, s.settings, approved, calls, reason, s.world);
    BatchSplitsCalls(h, s.settings, approved, calls, reason, s.world);
    BatchLogs(h, s.settings, approved, calls, reason, s.world);
    BatchAnswersFirst(strict, h, s.settings, approved, calls, reason, s.world);
    AddBatchOwes(strict, h, wk, b.logged, b.results, calls);
  }

  lemma ExecuteIsHonest<W>(h: Host<W>, wk: Work<W>, approved: set<string>, calls: seq<Call>, reason: string)
    requires Honest(wk.session)
    requires
      var b := RunBatch(h, wk.session.settings, approved, calls, reason, wk.session.world);
      LogResults(Execute(h, wk, approved, calls, reason).session.log) == LogResults(wk.session.log) + b.logged
    ensures Honest(Execute(h, wk, approved, calls, reason).session)
  {
    var s := wk.session;
    var b := RunBatch(h, s.settings, approved, calls, reason, s.world);
    BatchReportsExecutions(h, s.settings, approved, calls, reason, s.world);
    RanIdsConcat(LogResults(s.log), b.logged);
    ExecutedIdsAppend(s.trace, b.executed, s.settings);
  }

  lemma ExecutePauses<W>(h: Host<W>, wk: Work<W>, approved: set<string>, calls: seq<Call>, reason: string)
    requires wk.session.status == Running && DistinctIds(calls) && KeepsQuestionId(h)
    ensures
      var ran := Execute(h, wk, approved, calls, reason);
      var b := RunBatch(h, wk.session.settings, approved, calls, reason, wk.session.world);
      if IsPaused(ran) then
        ran.session.pending.Some? && WellFormedPending(ran.session.pending.value) && OpenCalls(ran.session) == Left(b)
      else ran.session.status == Running && Left(b) == []
  {
    var s := wk.session;
    BatchSplitsCalls(h, s.settings, approved, calls, reason, s.world);
    QuestionNamesItsCall(h, s.settings, approved, calls, reason, s.world);
  }

  lemma ExecuteObserves<W>(strict: bool, h: Host<W>, wk: Work<W>, approved: set<string>, calls: seq<Call>, reason: string)
    requires strict ==> KeepsOrder(h, wk.session.settings, approved, calls)
    requires InTurn(strict, h, wk, calls)
    requires Granted(wk.session.trace, approved, calls)
    ensures Observed(strict, h, Execute(h, wk, approved, calls, reason).session)
  {
    ExecuteOwes(strict, h, wk, approved, calls, reason);
    ExecuteIsHonest(h, wk, approved, calls, reason);
    ExecutionsAreSafe(h, wk, approved, calls, reason);
  }

  /** A batch keeps log, memory and trace in step; what it leaves open is what it stores as pending. */
  lemma ExecuteKeeps<W>(strict: bool, h: Host<W>, wk: Work<W>, approved: set<string>, calls: seq<Call>, reason: string)
    requires strict ==> KeepsOrder(h, wk.session.settings, approved, calls)
    requires InTurn(strict, h, wk, calls) && KeepsQuestionId(h)
    requires Granted(wk.session.trace, approved, calls)
    ensures
      var ran := Execute(h, wk, approved, calls, reason);
      if IsPaused(ran) then Sound(strict, h, ran.session) else InTurn(strict, h, ran, [])
  {
    ExecuteObserves(strict, h, wk, approved, calls, reason);
    ExecuteOwes(strict, h, wk, approved, calls, reason);
    ExecutePauses(h, wk, approved, calls, reason);
  }

  lemma {:induction false} QuestionNamesItsCall<W>(h: Host<W>, s: Settings, approved: set<string>, calls: seq<Call>, reason: string, w: W)
    requires KeepsQuestionId(h)
    ensures
      var b := RunBatch(h, s, approved, calls, reason, w);
      b.pending.Some? && b.pending.value.Question? ==>
        b.pending.value.calls != [] && b.pending.value.callId == b.pending.value.calls[0].id
    decreases |calls|
  {
    if calls != [] {
      var move := NextMove(h, s, approved, calls, reason, w);
      if move.Take? {
        QuestionNamesItsCall(h, s, approved, calls[|move.results|..], reason, move.world);
      }
    }
  }

  // ---- The model loop ----

  lemma CallModelKeeps<W>(strict: bool, h: Host<W>, wk: Work<W>, script: Script)
    requires InTurn(strict, h, wk, [])
    ensures InTurn(strict, h, CallModel(wk, script), [])
  {
    MicroCompactKeeps(strict, wk.conversation);
    var called := CallModel(wk, script);
    GateSafeAppend(h, wk.session.trace, [ModelCall(called.conversation)]);
    assert called.session.trace[..|wk.session.trace|] == wk.session.trace;
  }

  lemma FailCallKeeps<W>(strict: bool, h: Host<W>, wk: Work<W>, partial: string, reasoning: string)
    requires InTurn(strict, h, wk, [])
    ensures Sound(strict, h, FailCall(wk, partial, reasoning).session)
  {
    if partial == "" && reasoning == "" {
      ReportFailureKeeps(strict, h, wk);
    } else {
      StoreKeeps(strict, h, wk, AssistantMessage(true, partial, []), []);
      ReportFailureKeeps(strict, h, Store(wk, AssistantMessage(true, partial, [])));
    }
  }

  lemma ReportFailureKeeps<W>(strict: bool, h: Host<W>, wk: Work<W>)
    requires InTurn(strict, h, wk, [])
    ensures Sound(strict, h, Finish(Store(wk, SystemMessage(true, CALL_FAILED))).session)
  {
    StoreKeeps(strict, h, wk, SystemMessage(true, CALL_FAILED), []);
    FinishKeeps(strict, h, Store(wk, SystemMessage(true, CALL_FAILED)));
  }

  lemma FinishKeeps<W>(strict: bool, h: Host<W>, wk: Work<W>)
    requires InTurn(strict, h, wk, [])
    ensures Sound(strict, h, Finish(wk).session)
  {
  }

  lemma PlanPauseKeeps<W>(strict: bool, h: Host<W>, wk: Work<W>)
    requires InTurn(strict, h, wk, [])
    ensures Sound(strict, h, PauseWith(wk.(planReady := false), Plan).session)
  {
  }

  lemma AnnounceKeeps<W>(strict: bool, h: Host<W>, wk: Work<W>, calls: seq<Call>, approved: set<string>)
    requires InTurn(strict, h, wk, calls)
    ensures InTurn(strict, h, Announce(wk, calls, approved), calls)
    ensures Granted(wk.session.trace, approved, calls) ==> Granted(Announce(wk, calls, approved).session.trace, approved, calls)
  {
    var trace, begun := wk.session.trace, [BatchStarted(calls, approved, wk.session.settings)];
    GateSafeAppend(h, trace, begun);
    assert (trace + begun)[..|trace|] == trace;
    forall c | c in calls && c.id in approved && Granted(trace, approved, calls)
      ensures ApprovedBefore(trace + begun, |trace + begun|, c)
    {
      ApprovalsPersist(trace, begun, |trace|, c);
    }
  }

  /** The batch is among those begun in any trace it leads to. */
  lemma AnnouncedKeepsOrder<W>(h: Host<W>, wk: Work<W>, approved: set<string>, calls: seq<Call>, reason: string, trace: seq<Event>)
    requires OrderKept(h, trace) && Execute(h, Announce(wk, calls, approved), approved, calls, reason).session.trace == trace
    ensures KeepsOrder(h, wk.session.settings, approved, calls)
  {
    assert trace[|wk.session.trace|] == BatchStarted(calls, approved, wk.session.settings);
  }

  lemma HandleReplyKeeps<W>(strict: bool, h: Host<W>, wk: Work<W>, text: string, calls: seq<Call>)
    requires strict ==> OrderKept(h, HandleReply(h, wk, text, calls).0.session.trace)
    requires InTurn(strict, h, wk, []) && DistinctIds(calls) && KeepsQuestionId(h)
    ensures
      var (next, isDone) := HandleReply(h, wk, text, calls);
      if isDone then Sound(strict, h, next.session) else InTurn(strict, h, next, [])
  {
    if calls == [] {
      FinalReplyKeeps(strict, h, wk, text);
    } else {
      StoreBothKeeps(strict, h, wk, AssistantMessage(false, text, calls), AssistantTurn(text, calls), [], calls);
      var begun := Announce(StartBatch(wk, text, calls), calls, {});
      AnnounceKeeps(strict, h, StartBatch(wk, text, calls), calls, {});
      if strict { AnnouncedKeepsOrder(h, StartBatch(wk, text, calls), {}, calls, text, HandleReply(h, wk, text, calls).0.session.trace); }
      ExecuteKeeps(strict, h, begun, {}, calls, text);
      var ran := Execute(h, begun, {}, calls, text);
      if !IsPaused(ran) {
        PlanPauseKeeps(strict, h, ran);
      }
    }
  }

  lemma FinalReplyKeeps<W>(strict: bool, h: Host<W>, wk: Work<W>, text: string)
    requires InTurn(strict, h, wk, [])
    ensures Sound(strict, h, Finish(Store(wk, AssistantMessage(false, text, []))).session)
  {
    StoreBothKeeps(strict, h, wk, AssistantMessage(false, text, []), AssistantTurn(text, []), [], []);
    var kept := Store(wk, AssistantMessage(false, text, [])).(conversation := wk.conversation + [AssistantTurn(text, [])]);
    FinishKeeps(strict, h, kept);
    assert Finish(kept).session == Finish(Store(wk, AssistantMessage(false, text, []))).session;
  }

  lemma RunRoundKeeps<W>(strict: bool, h: Host<W>, wk: Work<W>, script: Script, round: nat)
    requires strict ==> OrderKept(h, RunRound(h, wk, script, round).0.session.trace)
    requires InTurn(strict, h, wk, []) && DistinctReplies(script) && KeepsQuestionId(h)
    ensures
      var (next, isDone) := RunRound(h, wk, script, round);
      if isDone then Sound(strict, h, next.session) else InTurn(strict, h, next, [])
  {
    CallModelKeeps(strict, h, wk, script);
    match script.round(round)
    case Cancelled =>
    case Failed(partial, reasoning) => FailCallKeeps(strict, h, CallModel(wk, script), partial, reasoning);
    case Reply(text, calls) => HandleReplyKeeps(strict, h, CallModel(wk, script), text, calls);
  }

  lemma RunRoundExtends<W>(h: Host<W>, wk: Work<W>, script: Script, round: nat)
    ensures wk.session.trace <= RunRound(h, wk, script, round).0.session.trace
  {
  }

  /** The trace only grows. */
  lemma {:induction false} ModelLoopExtends<W>(h: Host<W>, wk: Work<W>, script: Script, round: nat, limit: nat)
    ensures wk.session.trace <= ModelLoop(h, wk, script, round, limit).session.trace
    decreases limit - round
  {
    if round < limit {
      RunRoundExtends(h, wk, script, round);
      var (next, isDone) := RunRound(h, wk, script, round);
      if !isDone { ModelLoopExtends(h, next, script, round + 1, limit); }
    }
  }

  lemma {:induction false} ModelLoopKeeps<W>(strict: bool, h: Host<W>, wk: Work<W>, script: Script, round: nat, limit: nat)
    requires strict ==> OrderKept(h, ModelLoop(h, wk, script, round, limit).session.trace)
    requires InTurn(strict, h, wk, []) && DistinctReplies(script) && KeepsQuestionId(h)
    ensures Sound(strict, h, ModelLoop(h, wk, script, round, limit).session)
    decreases limit - round
  {
    if round >= limit {
      StoreKeeps(strict, h, wk, SystemMessage(false, LOOP_LIMIT), []);
    } else {
      var (next, isDone) := RunRound(h, wk, script, round);
      if strict && !isDone {
        ModelLoopExtends(h, next, script, round + 1, limit);
        OrderKeptBefore(h, next.session.trace, ModelLoop(h, wk, script, round, limit).session.trace);
      }
      RunRoundKeeps(strict, h, wk, script, round);
      if !isDone {
        ModelLoopKeeps(strict, h, next, script, round + 1, limit);
      }
    }
  }

  // ---- Turns ----

  lemma LoadWorkKeeps<W>(strict: bool, h: Host<W>, s: Session<W>, script: Script, owed: seq<Call>)
    requires Observed(strict, h, s) && s.status == Running && Owed(strict, Replay(s.log)) == Some(owed) && DistinctIds(owed)
    ensures InTurn(strict, h, LoadWork(s, script), owed)
  {
    SummaryRoundTrip(s.log, script.summary);
    SummaryKeepsOwed(strict, s.log, script.summary);
    var after := Summarize(s.log, script.summary);
    if after.log != s.log {
      LogResultsAppend(s.log, after.log[|s.log|]);
    }
  }

  lemma StoreInputKeeps<W>(strict: bool, h: Host<W>, s: Session<W>, input: Option<string>)
    requires Observed(strict, h, s) && s.status == Running && Owed(strict, Replay(s.log)) == Some([])
    ensures Observed(strict, h, StoreInput(s, input)) && Owed(strict, Replay(StoreInput(s, input).log)) == Some([])
  {
    if !IsBlank(input) {
      StoreBothKeeps(strict, h, Work(s, Replay(s.log), false), UserMessage(input.value), UserTurn(input.value), [], []);
    }
  }

  lemma DismissKeeps<W>(strict: bool, h: Host<W>, wk: Work<W>, calls: seq<Call>, why: Denial)
    requires InTurn(strict, h, wk, calls)
    ensures InTurn(strict, h, AddResults(wk, Dismissals(calls, why)), [])
  {
    var results := Dismissals(calls, why);
    assert Answers(results, calls);
    assert calls[|results|..] == [];
    AddResultsKeeps(strict, h, wk, results, calls);
  }

  lemma AddInputKeeps<W>(strict: bool, h: Host<W>, wk: Work<W>, input: Option<string>)
    requires InTurn(strict, h, wk, [])
    ensures InTurn(strict, h, AddInput(wk, input), [])
  {
    if !IsBlank(input) {
      StoreBothKeeps(strict, h, wk, UserMessage(input.value), UserTurn(input.value), [], []);
    }
  }

  lemma SupersedeKeeps<W>(strict: bool, h: Host<W>, s: Session<W>, input: Option<string>, pending: Pending, script: Script)
    requires Observed(strict, h, s) && s.status == Running && Owed(strict, Replay(s.log)) == Some(PendingCalls(pending))
    requires DistinctIds(PendingCalls(pending))
    ensures InTurn(strict, h, PrepareHistory(s, input, Some(pending), script), [])
  {
    var quiet := s.(pending := None);
    LoadWorkKeeps(strict, h, quiet, script, PendingCalls(pending));
    DismissKeeps(strict, h, LoadWork(quiet, script), PendingCalls(pending), Superseded);
    AddInputKeeps(strict, h, AddResults(LoadWork(quiet, script), Dismissals(PendingCalls(pending), Superseded)), input);
  }

  lemma PrepareHistoryKeeps<W>(strict: bool, h: Host<W>, s: Session<W>, input: Option<string>, superseded: Option<Pending>, script: Script)
    requires Observed(strict, h, s) && s.status == Running
    requires Owed(strict, Replay(s.log)) == Some(if superseded.None? then [] else PendingCalls(superseded.value))
    requires superseded.Some? ==> DistinctIds(PendingCalls(superseded.value))
    ensures InTurn(strict, h, PrepareHistory(s, input, superseded, script), [])
  {
    match superseded
    case None =>
      StoreInputKeeps(strict, h, s, input);
      LoadWorkKeeps(strict, h, StoreInput(s, input), script, []);
    case Some(pending) => SupersedeKeeps(strict, h, s, input, pending, script);
  }

  lemma RunTurnKeeps<W>(strict: bool, h: Host<W>, s: Session<W>, input: Option<string>, script: Script)
    requires strict ==> OrderKept(h, RunTurn(h, s, input, script).trace)
    requires Sound(strict, h, s) && DistinctReplies(script) && KeepsQuestionId(h)
    ensures Sound(strict, h, RunTurn(h, s, input, script))
  {
    var superseded := Supersedable(s);
    var started := s.(status := Running, pending := if superseded.None? then None else s.pending);
    PrepareHistoryKeeps(strict, h, started, input, superseded, script);
    var wk := PrepareHistory(started, input, superseded, script);
    ModelLoopKeeps(strict, h, wk, script, 0, CallLimit(wk.session.settings, script));
  }

  lemma {:induction false} OthersOfFirst(calls: seq<Call>)
    requires calls != [] && DistinctIds(calls)
    ensures Others(calls, calls[0].id) == calls[1..]
    decreases |calls|
  {
    var last := |calls| - 1;
    if last > 0 {
      OthersOfFirst(calls[..last]);
    }
  }

  lemma AnswerQuestionKeeps<W>(strict: bool, h: Host<W>, wk: Work<W>, calls: seq<Call>, decision: Decision)
    requires InTurn(strict, h, wk, calls) && calls != [] && DistinctIds(calls)
    ensures InTurn(strict, h, AnswerQuestion(wk, calls, calls[0].id, decision), [])
  {
    var answer := [Result(calls[0].id, ASK_USER, Answered(Answer(decision)))];
    AddResultsKeeps(strict, h, wk, answer, calls);
    OthersOfFirst(calls);
    DismissKeeps(strict, h, AddResults(wk, answer), calls[1..], CancelledByAnswer);
  }

  lemma DecidePlanKeeps<W>(strict: bool, h: Host<W>, wk: Work<W>, decision: Decision)
    requires InTurn(strict, h, wk, [])
    ensures InTurn(strict, h, DecidePlan(wk, decision), [])
  {
    if decision.approved {
      var off := wk.(session := wk.session.(settings := wk.session.settings.(planMode := false)));
      StoreKeeps(strict, h, off, SystemMessage(false, PLAN_CONFIRMED), []);
      OwedAppend(strict, wk.conversation, UserTurn(PLAN_CONFIRMED));
    } else {
      var feedback := FirstNonEmpty(Trim(decision.note), PLAN_FEEDBACK, "");
      StoreBothKeeps(strict, h, wk, UserMessage(feedback), UserTurn(feedback), [], []);
    }
  }

  lemma GrantKeeps<W>(strict: bool, h: Host<W>, wk: Work<W>, calls: seq<Call>)
    requires InTurn(strict, h, wk, calls)
    ensures
      var granted := wk.(session := wk.session.(trace := wk.session.trace + [UserApproved(calls)]));
      InTurn(strict, h, granted, calls) && Granted(granted.session.trace, Ids(calls), calls)
  {
    var trace := wk.session.trace;
    var longer := trace + [UserApproved(calls)];
    GateSafeAppend(h, trace, [UserApproved(calls)]);
    assert longer[..|trace|] == trace;
    assert longer[|trace|] == UserApproved(calls);
  }

  lemma DecideApprovalKeeps<W>(strict: bool, h: Host<W>, wk: Work<W>, calls: seq<Call>, decision: Decision)
    requires strict ==> OrderKept(h, DecideApproval(h, wk, calls, decision).session.trace)
    requires InTurn(strict, h, wk, calls) && DistinctIds(calls) && KeepsQuestionId(h)
    ensures
      var decided := DecideApproval(h, wk, calls, decision);
      if IsPaused(decided) then Sound(strict, h, decided.session) else InTurn(strict, h, decided, [])
  {
    var message := ApprovalMessage(decision.approved, Names(calls), decision.note);
    StoreKeeps(strict, h, wk, message, calls);
    var noted := Store(wk, message);
    if decision.approved {
      GrantKeeps(strict, h, noted, calls);
      var granted := noted.(session := noted.session.(trace := noted.session.trace + [UserApproved(calls)]));
      AnnounceKeeps(strict, h, granted, calls, Ids(calls));
      if strict { AnnouncedKeepsOrder(h, granted, Ids(calls), calls, "", DecideApproval(h, wk, calls, decision).session.trace); }
      ExecuteKeeps(strict, h, Announce(granted, calls, Ids(calls)), Ids(calls), calls, "");
    } else {
      DismissKeeps(strict, h, noted, calls, UserDenied(Trim(decision.note)));
    }
  }

  lemma DecideKeeps<W>(strict: bool, h: Host<W>, wk: Work<W>, pending: Pending, decision: Decision)
    requires strict ==> OrderKept(h, Decide(h, wk, pending, decision).session.trace)
    requires InTurn(strict, h, wk, PendingCalls(pending)) && WellFormedPending(pending) && KeepsQuestionId(h)
    ensures
      var decided := Decide(h, wk, pending, decision);
      if IsPaused(decided) then Sound(strict, h, decided.session) else InTurn(strict, h, decided, [])
  {
    match pending
    case Question(calls, _) => AnswerQuestionKeeps(strict, h, wk, calls, decision);
    case Plan => DecidePlanKeeps(strict, h, wk, decision);
    case Approval(calls, _, _) => DecideApprovalKeeps(strict, h, wk, calls, decision);
  }

  lemma ResumeTurnKeeps<W>(strict: bool, h: Host<W>, s: Session<W>, pending: Pending, decision: Decision, script: Script)
    requires strict ==> OrderKept(h, ResumeTurn(h, s, pending, decision, script).trace)
    requires Observed(strict, h, s) && Owed(strict, Replay(s.log)) == Some(PendingCalls(pending)) && WellFormedPending(pending)
    requires DistinctReplies(script) && KeepsQuestionId(h)
    ensures Sound(strict, h, ResumeTurn(h, s, pending, decision, script))
  {
    LoadWorkKeeps(strict, h, s.(status := Running), script, PendingCalls(pending));
    var wk := LoadWork(s.(status := Running), script);
    var decided := Decide(h, wk, pending, decision);
    var cleared := decided.(session := decided.session.(pending := None));
    if strict && !IsPaused(decided) {
      ModelLoopExtends(h, cleared, script, 0, CallLimit(cleared.session.settings, script));
      OrderKeptBefore(h, decided.session.trace, ResumeTurn(h, s, pending, decision, script).trace);
    }
    DecideKeeps(strict, h, wk, pending, decision);
    if !IsPaused(decided) {
      ModelLoopKeeps(strict, h, cleared, script, 0, CallLimit(cleared.session.settings, script));
    }
  }

  lemma ResumeKeeps<W>(strict: bool, h: Host<W>, s: Session<W>, decision: Decision, script: Script)
    requires Sound(strict, h, s) && DistinctReplies(script) && KeepsQuestionId(h)
    requires ResumeApproval(h, s, decision, script).Resumed?
    requires strict ==> OrderKept(h, ResumeApproval(h, s, decision, script).session.trace)
    ensures Sound(strict, h, ResumeApproval(h, s, decision, script).session)
  {
    ResumeTurnKeeps(strict, h, s, s.pending.value, decision, script);
  }

  // ---- Every run ----

  /** What can happen to a session between turns: a message, a decision, a change of settings. */
  datatype Interaction = Message(input: Option<string>, script: Script) | Decision(decision: TurnSpec.Decision, script: Script) | Configure(settings: Settings)

  function Apply<W>(h: Host<W>, s: Session<W>, step: Interaction): Session<W> {
    match step
    case Message(input, script) => RunTurn(h, s, input, script)
    case Decision(decision, script) =>
      (match ResumeApproval(h, s, decision, script) case Resumed(next) => next case _ => s)
    case Configure(settings) => s.(settings := settings)
  }

  function Run<W>(h: Host<W>, settings: Settings, w: W, steps: seq<Interaction>): Session<W> {
    if steps == [] then Session([], Idle, None, settings, w, [])
    else Apply(h, Run(h, settings, w, steps[..|steps| - 1]), steps[|steps| - 1])
  }

  ghost predicate DistinctIdsThroughout(steps: seq<Interaction>) {
    forall step | step in steps :: !step.Configure? ==> DistinctReplies(step.script)
  }

  lemma PrepareKeepsTrace<W>(s: Session<W>, input: Option<string>, superseded: Option<Pending>, script: Script)
    ensures PrepareHistory(s, input, superseded, script).session.trace == s.trace
  {
  }

  lemma DecideExtends<W>(h: Host<W>, wk: Work<W>, pending: Pending, decision: Decision)
    ensures wk.session.trace <= Decide(h, wk, pending, decision).session.trace
  {
  }

  lemma ResumeTurnExtends<W>(h: Host<W>, s: Session<W>, pending: Pending, decision: Decision, script: Script)
    ensures s.trace <= ResumeTurn(h, s, pending, decision, script).trace
  {
    var wk := LoadWork(s.(status := Running), script);
    DecideExtends(h, wk, pending, decision);
    var decided := Decide(h, wk, pending, decision);
    var cleared := decided.(session := decided.session.(pending := None));
    ModelLoopExtends(h, cleared, script, 0, CallLimit(cleared.session.settings, script));
  }

  lemma RunTurnExtends<W>(h: Host<W>, s: Session<W>, input: Option<string>, script: Script)
    ensures s.trace <= RunTurn(h, s, input, script).trace
  {
    var superseded := Supersedable(s);
    var started := s.(status := Running, pending := if superseded.None? then None else s.pending);
    PrepareKeepsTrace(started, input, superseded, script);
    var wk := PrepareHistory(started, input, superseded, script);
    ModelLoopExtends(h, wk, script, 0, CallLimit(wk.session.settings, script));
  }

  lemma ApplyExtends<W>(h: Host<W>, s: Session<W>, step: Interaction)
    ensures s.trace <= Apply(h, s, step).trace
  {
    match step
    case Message(input, script) => RunTurnExtends(h, s, input, script);
    case Decision(decision, script) =>
      if ResumeApproval(h, s, decision, script).Resumed? {
        ResumeTurnExtends(h, s, s.pending.value, decision, script);
      }
    case Configure(_) =>
  }

  /** Every interaction keeps the session invariant. */
  lemma ApplyKeeps<W>(strict: bool, h: Host<W>, s: Session<W>, step: Interaction)
    requires Sound(strict, h, s) && KeepsQuestionId(h) && (!step.Configure? ==> DistinctReplies(step.script))
    requires strict ==> OrderKept(h, Apply(h, s, step).trace)
    ensures Sound(strict, h, Apply(h, s, step))
  {
    match step
    case Message(input, script) => RunTurnKeeps(strict, h, s, input, script);
    case Decision(decision, script) =>
      if ResumeApproval(h, s, decision, script).Resumed? {
        ResumeKeeps(strict, h, s, decision, script);
      }
    case Configure(_) =>
  }

  lemma {:induction false} EveryRunIsSound<W>(strict: bool, h: Host<W>, settings: Settings, w: W, steps: seq<Interaction>)
    requires strict ==> OrderKept(h, Run(h, settings, w, steps).trace)
    requires KeepsQuestionId(h) && DistinctIdsThroughout(steps)
    ensures Sound(strict, h, Run(h, settings, w, steps))
    decreases |steps|
  {
    if steps != [] {
      var last := |steps| - 1;
      assert steps[last] in steps;
      var before := Run(h, settings, w, steps[..last]);
      if strict {
        ApplyExtends(h, before, steps[last]);
        OrderKeptBefore(h, before.trace, Run(h, settings, w, steps).trace);
      }
      EveryRunIsSound(strict, h, settings, w, steps[..last]);
      ApplyKeeps(strict, h, before, steps[last]);
    }
  }

  /** Main result: over every run of messages, approvals, denials, answers and setting changes, each model
      call is sent a conversation in which every tool call has exactly one result, right after its batch. While
      the session waits, the last batch lacks exactly the pending calls. If every batch that began kept the
      call order (`strict`), all results are in call order too. */
  lemma EveryModelCallIsPaired<W>(strict: bool, h: Host<W>, settings: Settings, w: W, steps: seq<Interaction>)
    requires strict ==> OrderKept(h, Run(h, settings, w, steps).trace)
    requires KeepsQuestionId(h) && DistinctIdsThroughout(steps)
    ensures
      var s := Run(h, settings, w, steps);
      && (forall i | 0 <= i < |s.trace| && s.trace[i].ModelCall? :: AnsweredExcept(strict, s.trace[i].conversation, []))
      && (s.status == WaitingApproval ==>
            s.pending.Some? && AnsweredExcept(strict, Replay(s.log), PendingCalls(s.pending.value)))
      && (s.status != WaitingApproval ==> AnsweredExcept(strict, Replay(s.log), []))
  {
    EveryRunIsSound(strict, h, settings, w, steps);
    var s := Run(h, settings, w, steps);
    forall i | 0 <= i < |s.trace| && s.trace[i].ModelCall?
      ensures AnsweredExcept(strict, s.trace[i].conversation, [])
    {
      OwedMeansAnsweredExcept(strict, s.trace[i].conversation, []);
    }
    OwedMeansAnsweredExcept(strict, Replay(s.log), OpenCalls(s));
  }

  /** Main result: over every run, whatever executed was cleared on every permission key it reports: plan mode
      off, no key forbidden, and each asking key covered by an earlier approval of that very call. */
  lemma EveryExecutionIsCleared<W>(h: Host<W>, settings: Settings, w: W, steps: seq<Interaction>)
    requires KeepsQuestionId(h) && DistinctIdsThroughout(steps)
    ensures
      var trace := Run(h, settings, w, steps).trace;
      forall i | 0 <= i < |trace| && trace[i].Executed? ::
        var call, now := trace[i].call, trace[i].settings;
        h.find(call.name).Some? &&
        forall key | key in Keys(h.find(call.name).value, call) ::
          && !now.planMode
          && PermissionFor(now, key) != Never
          && (PermissionFor(now, key) == Ask ==>
                exists j | 0 <= j < i :: trace[j].UserApproved? && call in trace[j].calls)
  {
    EveryRunIsSound(false, h, settings, w, steps);
  }

  /** Over every run the log reports exactly the executions that happened, as they completed. */
  lemma EveryRunReportsExecutions<W>(h: Host<W>, settings: Settings, w: W, steps: seq<Interaction>)
    requires KeepsQuestionId(h) && DistinctIdsThroughout(steps)
    ensures RanIds(LogResults(Run(h, settings, w, steps).log)) == ExecutedIds(Run(h, settings, w, steps).trace)
  {
    EveryRunIsSound(false, h, settings, w, steps);
  }

  // ---- Memory and log ----

  lemma AddInputIsReplay<W>(wk: Work<W>, input: Option<string>)
    requires BoundariesExist(wk.session.log) && wk.conversation == Replay(wk.session.log)
    ensures AddInput(wk, input).conversation == Replay(AddInput(wk, input).session.log)
  {
    if !IsBlank(input) { ReplayAppend(wk.session.log, UserMessage(input.value)); }
  }

  lemma StoreInputBounds<W>(s: Session<W>, input: Option<string>)
    requires BoundariesExist(s.log)
    ensures BoundariesExist(StoreInput(s, input).log)
  {
    if !IsBlank(input) { ReplayAppend(s.log, UserMessage(input.value)); }
  }

  lemma PreparedIsReplay<W>(s: Session<W>, input: Option<string>, superseded: Option<Pending>, script: Script)
    requires BoundariesExist(s.log)
    ensures
      var wk := PrepareHistory(s, input, superseded, script);
      wk.conversation == Replay(wk.session.log)
  {
    match superseded
    case None =>
      StoreInputBounds(s, input);
      SummaryRoundTrip(StoreInput(s, input).log, script.summary);
    case Some(pending) =>
      SummaryRoundTrip(s.log, script.summary);
      var loaded := LoadWork(s.(pending := None), script);
      var refused := Dismissals(PendingCalls(pending), Superseded);
      ReplayAfterResults(loaded.session.log, refused);
      AddInputIsReplay(AddResults(loaded, refused), input);
  }

  /** After every run, whatever turn comes next, a message with or without superseded calls or a decision, begins with
      the conversation that its log replays to. */
  lemma EveryTurnStartsFromItsLog<W>(h: Host<W>, settings: Settings, w: W, steps: seq<Interaction>, input: Option<string>, script: Script)
    requires KeepsQuestionId(h) && DistinctIdsThroughout(steps)
    ensures
      var s := Run(h, settings, w, steps);
      var started := s.(status := Running, pending := if Supersedable(s).None? then None else s.pending);
      var message, decided := PrepareHistory(started, input, Supersedable(s), script), LoadWork(s.(status := Running), script);
      message.conversation == Replay(message.session.log) && decided.conversation == Replay(decided.session.log)
  {
    EveryRunIsSound(false, h, settings, w, steps);
    var s := Run(h, settings, w, steps);
    var started := s.(status := Running, pending := if Supersedable(s).None? then None else s.pending);
    PreparedIsReplay(started, input, Supersedable(s), script);
    SummaryRoundTrip(s.log, script.summary);
  }
}
