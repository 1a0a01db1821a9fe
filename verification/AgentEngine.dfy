/** The engine as it runs: one object per session whose methods write the store and grow the conversation
    step by step, each proved to do what the turn functions say. */
module TurnEngine {
  import opened Options
  import opened Sequences
  import opened AgentTypes
  import opened Gates
  import opened Pairing
  import opened Permutations
  import opened Batches
  import opened History
  import opened TurnSpec

  /** What the caller of a resume learns at once; the turn itself goes on in the session. */
  datatype ResumeOutcome = NoPending | Stale(name: string) | Continued

  class Engine<W> {
    const host: Host<W>
    var log: seq<Message>
    var status: Status
    var pending: Option<Pending>
    var settings: Settings
    var world: W
    var conversation: seq<Turn>
    var planReady: bool
    ghost var trace: seq<Event>

    ghost function View(): Work<W>
      reads this
    {
      Work(Session(log, status, pending, settings, world, trace), conversation, planReady)
    }

    constructor (host: Host<W>, settings: Settings, world: W)
      ensures this.host == host
      ensures View() == Work(Session([], Idle, None, settings, world, []), [], false)
    {
      this.host, this.settings, this.world := host, settings, world;
      log, status, pending, conversation, planReady, trace := [], Idle, None, [], false, [];
    }

    // ---- Store and results ----

    method AppendMessage(message: Message) returns (seqNo: nat)
      modifies this`log
      ensures View() == Store(old(View()), message)
      ensures seqNo == |log|
    {
      log := log + [message];
      seqNo := |log|;
    }

    method AppendToolResult(info: Result)
      modifies this`log, this`conversation
      ensures View() == AddResults(old(View()), [info])
    {
      log := log + [ToolMessage(info)];
      conversation := conversation + [ToolTurn(info)];
      assert ToolMessages([info]) == [ToolMessage(info)];
      assert ToolTurns([info]) == [ToolTurn(info)];
    }

    /** Refuses a list of calls with the same reason, one result each. */
    method DismissAll(calls: seq<Call>, why: Denial)
      modifies this`log, this`conversation
      ensures View() == AddResults(old(View()), Dismissals(calls, why))
    {
      AddNothing(View());
      assert Dismissals(calls[..0], why) == [];
      for i := 0 to |calls|
        invariant View() == AddResults(old(View()), Dismissals(calls[..i], why))
      {
        AddOneMore(old(View()), Dismissals(calls[..i], why), DeniedResult(calls[i], why));
        assert Dismissals(calls[..i + 1], why) == Dismissals(calls[..i], why) + [DeniedResult(calls[i], why)];
        AppendToolResult(DeniedResult(calls[i], why));
      }
      assert calls[..|calls|] == calls;
    }

    // ---- One batch ----

    method GateNow(call: Call, tool: Tool, approved: set<string>) returns (gate: Gate)
      ensures gate == GateCall(settings, call, tool, approved)
    {
      if !tool.gated {
        match tool.probe(call.args) {
          case Some(notes) => gate := GateProbeDecision(settings, call, notes, approved);
          case None => gate := Allow;
        }
      } else {
        gate := PermissionGate(settings, tool.key, call.id, approved);
      }
    }

    /** Stores the rest of the batch as a question, unless the arguments are not a question. */
    method PauseForQuestion(remaining: seq<Call>) returns (paused: bool)
      requires remaining != []
      modifies this`status, this`pending
      ensures paused == host.ask(remaining[0]).Some?
      ensures paused ==> View() == PauseWith(old(View()), Question(remaining, host.ask(remaining[0]).value))
      ensures !paused ==> View() == old(View())
    {
      match host.ask(remaining[0]) {
        case None => paused := false;
        case Some(id) =>
          status, pending := WaitingApproval, Some(Question(remaining, id));
          paused := true;
      }
    }

    /** Stores the rest of the batch for approval, listing the asking commands of all of it. */
    method PauseForApproval(remaining: seq<Call>, reason: string, notes: seq<Note>)
      requires remaining != []
      modifies this`status, this`pending
      ensures View() == PauseWith(old(View()),
                Approval(remaining, reason, notes + AskNotesOf(host, settings, remaining[1..])))
    {
      var shown := notes;
      var later := remaining[1..];
      for i := 0 to |later|
        invariant shown == notes + AskNotesOf(host, settings, later[..i])
      {
        assert later[..i + 1][..i] == later[..i];
        Associate(notes, AskNotesOf(host, settings, later[..i]), AskNotes(host, settings, later[i]));
        match host.find(later[i].name) {
          case None =>
          case Some(tool) =>
            if !tool.gated {
              match tool.probe(later[i].args) {
                case None =>
                case Some(probed) => shown := shown + NotesAt(settings, probed, Ask);
              }
            }
        }
      }
      assert later[..|later|] == later;
      status, pending := WaitingApproval, Some(Approval(remaining, reason, shown));
    }

    /** Runs one tool against the session itself. */
    method RunOneTool(call: Call) returns (info: Result)
      modifies this`log, this`world, this`planReady, this`trace
      ensures
        var effect := host.exec(call, old(world));
        && info == RanResult(call, effect)
        && log == old(log) + [ToolMessage(info)]
        && world == effect.world
        && planReady == (old(planReady) || DeclaresReady(host, settings, call, effect.ok))
        && trace == old(trace) + [Executed(call, settings)]
    {
      trace := trace + [Executed(call, settings)];
      var effect := host.exec(call, world);
      world := effect.world;
      info := RanResult(call, effect);
      log := log + [ToolMessage(info)];
      if call.name == UPDATE_PLAN && effect.ok && settings.planMode && host.declaresReady(call) {
        planReady := true;
      }
    }

    /** One member of a group completes: it stores its own result and writes its own slot. */
    method CompleteMember(call: Call, index: nat, infos: array<Result>)
      requires index < infos.Length
      modifies this`log, this`trace, infos
      ensures infos[..] == old(infos[..])[index := RanResult(call, host.exec(call, world))]
      ensures log == old(log) + [ToolMessage(RanResult(call, host.exec(call, world)))]
      ensures trace == old(trace) + [Executed(call, settings)]
    {
      var info := RanResult(call, host.exec(call, world));
      trace := trace + [Executed(call, settings)];
      log := log + [ToolMessage(info)];
      infos[index] := info;
    }

    /** The members of a group complete in the given order. */
    method CompleteMembers(group: seq<Call>, order: seq<nat>, infos: array<Result>)
      requires infos.Length == |group| && forall k | 0 <= k < |order| :: order[k] < |group|
      modifies this`log, this`trace, infos
      ensures
        var results := GroupResults(host, group, world);
        && (forall k | 0 <= k < |order| :: infos[order[k]] == results[order[k]])
        && log == old(log) + ToolMessages(Permute(results, order))
        && trace == old(trace) + ExecutedEvents(Permute(group, order), settings)
    {
      ghost var results := GroupResults(host, group, world);
      ghost var logged: seq<Result>, executed: seq<Call> := [], [];
      assert log == log + ToolMessages(logged) && trace == trace + ExecutedEvents(executed, settings);
      for k := 0 to |order|
        invariant |logged| == |executed| == k
        invariant forall j | 0 <= j < k :: infos[order[j]] == logged[j] == results[order[j]] && executed[j] == group[order[j]]
        invariant log == old(log) + ToolMessages(logged) && trace == old(trace) + ExecutedEvents(executed, settings)
      {
        var call := group[order[k]];
        CompleteMember(call, order[k], infos);
        OneCompleted(logged, results[order[k]], executed, call, settings);
        logged, executed := logged + [results[order[k]]], executed + [call];
      }
      assert logged == Permute(results, order) && executed == Permute(group, order);
    }

    /** Runs a group on snapshots of the session; its members complete in the scheduler's order. */
    method RunParallel(group: seq<Call>) returns (infos: array<Result>)
      modifies this`log, this`trace
      ensures fresh(infos) && infos[..] == GroupResults(host, group, world)
      ensures log == old(log) + ToolMessages(TakeGroup(host, group, world).logged)
      ensures trace == old(trace) + ExecutedEvents(TakeGroup(host, group, world).executed, settings)
    {
      infos := new Result[|group|](_ => Result("", "", UnknownTool));
      var order := Order(host, group);
      OrderInRange(order, |group|);
      CompleteMembers(group, order, infos);
      EveryPositionCompletes(order, |group|);
      AllFilled(infos[..], GroupResults(host, group, world), order);
    }

    /** Appends a result that executes nothing. */
    method Refuse(info: Result)
      modifies this`log, this`conversation
      ensures View() == TakeMove(old(View()), TakeOne(info, [], false, old(world)))
    {
      AppendToolResult(info);
      assert ExecutedEvents([], settings) == [] && trace + [] == trace;
    }

    method ExecuteOne(call: Call)
      modifies this`log, this`conversation, this`world, this`planReady, this`trace
      ensures View() == TakeMove(old(View()), RunAlone(host, settings, call, old(world)))
    {
      var info := RunOneTool(call);
      conversation := conversation + [ToolTurn(info)];
      assert ToolMessages([info]) == [ToolMessage(info)] && ToolTurns([info]) == [ToolTurn(info)];
      assert ExecutedEvents([call], settings) == [Executed(call, settings)];
    }

    method AppendToolOutputs(infos: array<Result>)
      modifies this`conversation
      ensures conversation == old(conversation) + ToolTurns(infos[..])
    {
      assert conversation == old(conversation) + ToolTurns(infos[..][..0]);
      for i := 0 to infos.Length
        invariant conversation == old(conversation) + ToolTurns(infos[..][..i])
      {
        assert ToolTurns(infos[..][..i + 1]) == ToolTurns(infos[..][..i]) + [ToolTurn(infos[i])];
        conversation := conversation + [ToolTurn(infos[i])];
      }
      assert infos[..][..infos.Length] == infos[..];
    }

    method ExecuteGroup(group: seq<Call>)
      modifies this`log, this`conversation, this`trace
      ensures View() == TakeMove(old(View()), TakeGroup(host, group, world))
    {
      var infos := RunParallel(group);
      AppendToolOutputs(infos);
    }

    /** The end of the parallel group that starts at `index`. */
    method GroupEnd(calls: seq<Call>, index: nat, approved: set<string>) returns (end: nat)
      requires index < |calls|
      ensures end == index + 1 + LeadingParallel(host, settings, approved, calls[index + 1..])
      ensures index < end <= |calls|
    {
      end := index + 1;
      while end < |calls| && CanRunParallel(host, settings, approved, calls[end])
        invariant index < end <= |calls|
        invariant LeadingParallel(host, settings, approved, calls[index + 1..]) ==
                  end - index - 1 + LeadingParallel(host, settings, approved, calls[end..])
      {
        assert calls[end..][1..] == calls[end + 1..];
        end := end + 1;
      }
    }

    /** Runs the parallel group that starts at `index`. */
    method ExecuteGroupAt(calls: seq<Call>, index: nat, approved: set<string>) returns (next: nat)
      requires index < |calls|
      modifies this`log, this`conversation, this`trace
      ensures
        var move := RunHead(host, settings, approved, calls[index..], true, world);
        next == index + |move.results| && View() == TakeMove(old(View()), move)
    {
      TailOf(calls, index);
      next := GroupEnd(calls, index, approved);
      assert calls[index..next] == calls[index..][..next - index];
      ExecuteGroup(calls[index..next]);
    }

    /** One pass of the batch loop. */
    method ExecuteNext(calls: seq<Call>, index: nat, reason: string, approved: set<string>) returns (paused: bool, next: nat)
      requires index < |calls|
      modifies this`log, this`conversation, this`status, this`pending, this`world, this`planReady, this`trace
      ensures
        var move := NextMove(host, settings, approved, calls[index..], reason, old(world));
        match move
        case Stop(pending) => paused && View() == PauseWith(old(View()), pending)
        case Take(results, _, _, _, _) => !paused && next == index + |results| && View() == TakeMove(old(View()), move)
    {
      var call := calls[index];
      paused, next := false, index + 1;
      if call.name == ASK_USER {
        paused := PauseForQuestion(calls[index..]);
        if paused {
          return;
        }
      }
      match host.find(call.name) {
        case None => Refuse(Result(call.id, call.name, UnknownTool));
        case Some(tool) =>
          var gate := GateNow(call, tool, approved);
          match gate {
            case Deny(why) => Refuse(DeniedResult(call, why));
            case Pause(notes) =>
              PauseForApproval(calls[index..], reason, notes);
              paused := true;
            case Allow =>
              if tool.gated || !tool.concurrentSafe {
                ExecuteOne(call);
              } else {
                next := ExecuteGroupAt(calls, index, approved);
              }
          }
      }
    }

    /** One pass, as seen from the rest of the batch: it ends the batch, or leaves less of it to run. */
    method ExecuteSome(calls: seq<Call>, index: nat, reason: string, approved: set<string>) returns (paused: bool, next: nat)
      requires index < |calls| && status == Running
      modifies this`log, this`conversation, this`status, this`pending, this`world, this`planReady, this`trace
      ensures paused ==> View() == Execute(host, old(View()), approved, calls[index..], reason) && IsPaused(View())
      ensures !paused ==> index < next <= |calls| && status == Running
      ensures !paused ==>
        Execute(host, View(), approved, calls[next..], reason) == Execute(host, old(View()), approved, calls[index..], reason)
    {
      paused, next := ExecuteNext(calls, index, reason, approved);
      if paused {
        StoppedHere(host, old(View()), approved, calls[index..], reason);
      } else {
        DropMore(calls, index, next);
        GoesOn(host, old(View()), approved, calls[index..], calls[next..], reason);
      }
    }

    /** A batch from its first call to its end or its pause. */
    method ExecuteCalls(calls: seq<Call>, reason: string, approved: set<string>) returns (paused: bool)
      requires status == Running
      modifies this`log, this`conversation, this`status, this`pending, this`world, this`planReady, this`trace
      ensures View() == Execute(host, old(View()), approved, calls, reason)
      ensures paused == IsPaused(View())
    {
      var index := 0;
      assert calls[0..] == calls;
      while index < |calls|
        invariant 0 <= index <= |calls| && status == Running
        invariant Execute(host, View(), approved, calls[index..], reason) == Execute(host, old(View()), approved, calls, reason)
      {
        var isPaused, next := ExecuteSome(calls, index, reason, approved);
        if isPaused {
          return true;
        }
        index := next;
      }
      assert calls[index..] == [];
      ExecuteNothing(host, View(), approved, reason);
      paused := false;
    }

    // ---- The model loop ----

    method PrepareModelContext(script: Script)
      modifies this`conversation
      ensures View() == PrepareContext(old(View()), script)
    {
      if script.needsMicro(conversation) {
        var compacted, cleared := MicroCompact(conversation);
        if cleared > 0 {
          conversation := compacted;
        }
      }
    }

    method HandleCallFailure(partial: string, reasoning: string)
      modifies this`log, this`status
      ensures View() == FailCall(old(View()), partial, reasoning)
    {
      if partial != "" || reasoning != "" {
        var _ := AppendMessage(AssistantMessage(true, partial, []));
      }
      var _ := AppendMessage(SystemMessage(true, CALL_FAILED));
      status := Idle;
    }

    method PauseForPlan()
      modifies this`status, this`pending, this`planReady
      ensures View() == PauseWith(old(View()).(planReady := false), Plan)
    {
      planReady := false;
      status, pending := WaitingApproval, Some(Plan);
    }

    method AnswerReply(text: string, calls: seq<Call>) returns (isDone: bool)
      requires status == Running
      modifies this`log, this`conversation, this`status, this`pending, this`world, this`planReady, this`trace
      ensures (View(), isDone) == HandleReply(host, old(View()), text, calls)
      ensures !isDone ==> status == Running
    {
      var _ := AppendMessage(AssistantMessage(false, text, calls));
      if |calls| == 0 {
        status := Idle;
        return true;
      }
      conversation := conversation + [AssistantTurn(text, calls)];
      trace := trace + [BatchStarted(calls, {}, settings)];
      ghost var begun := View();
      var paused := ExecuteCalls(calls, text, {});
      if paused {
        return true;
      }
      if planReady {
        PauseForPlan();
        return true;
      }
      ExecuteStatus(host, begun, {}, calls, text);
      isDone := false;
    }

    /** One round: the call, its reply and the reply's batch. */
    method RunOneRound(script: Script, round: nat) returns (isDone: bool)
      requires status == Running
      modifies this`log, this`conversation, this`status, this`pending, this`world, this`planReady, this`trace
      ensures (View(), isDone) == RunRound(host, old(View()), script, round)
      ensures !isDone ==> status == Running
    {
      match script.round(round) {
        case Cancelled =>
          status, isDone := Idle, true;
        case Failed(partial, reasoning) =>
          CallCaller(script);
          HandleCallFailure(partial, reasoning);
          isDone := true;
        case Reply(text, calls) =>
          CallCaller(script);
          isDone := AnswerReply(text, calls);
      }
    }

    method CallCaller(script: Script)
      modifies this`conversation, this`trace
      ensures View() == CallModel(old(View()), script)
    {
      PrepareModelContext(script);
      trace := trace + [ModelCall(conversation)];
    }

    /** One round, as seen from the rest of the loop. */
    method RunSome(script: Script, round: nat, limit: nat) returns (isDone: bool)
      requires round < limit && status == Running
      modifies this`log, this`conversation, this`status, this`pending, this`world, this`planReady, this`trace
      ensures isDone ==> View() == ModelLoop(host, old(View()), script, round, limit)
      ensures !isDone ==> status == Running
      ensures !isDone ==> ModelLoop(host, View(), script, round + 1, limit) == ModelLoop(host, old(View()), script, round, limit)
    {
      ModelLoopStep(host, View(), script, round, limit);
      isDone := RunOneRound(script, round);
    }

    /** The loop has run as often as it may. */
    method StopAtLimit(script: Script, round: nat, limit: nat)
      requires limit <= round && status == Running
      modifies this`log, this`status
      ensures View() == ModelLoop(host, old(View()), script, round, limit)
    {
      var _ := AppendMessage(SystemMessage(false, LOOP_LIMIT));
      status := Idle;
    }

    method RunModelLoop(script: Script, limit: nat)
      requires status == Running
      modifies this`log, this`conversation, this`status, this`pending, this`world, this`planReady, this`trace
      ensures View() == ModelLoop(host, old(View()), script, 0, limit)
    {
      ghost var goal := ModelLoop(host, View(), script, 0, limit);
      var round := 0;
      while round < limit
        invariant 0 <= round && status == Running
        invariant ModelLoop(host, View(), script, round, limit) == goal
      {
        var isDone := RunSome(script, round, limit);
        if isDone {
          return;
        }
        round := round + 1;
      }
      StopAtLimit(script, round, limit);
    }

    // ---- The start of a turn ----

    method MaybeSummarize(summary: Option<string>, seqs: seq<nat>)
      requires conversation == Replay(log)
      requires |seqs| == |conversation| && forall i | 0 <= i < |seqs| :: seqs[i] == Load(log)[i].seqNo
      modifies this`log, this`conversation
      ensures log == Summarize(old(log), summary).log && conversation == Summarize(old(log), summary).conversation
    {
      if summary.None? || |conversation| < SUMMARY_MIN_MESSAGES {
        return;
      }
      var cut := SummaryCut(conversation);
      if cut < 0 || summary.value == "" {
        return;
      }
      var _ := AppendMessage(SummaryMessage(summary.value, seqs[cut - 1]));
      conversation := [UserTurn(SUMMARY_HEAD + summary.value)] + conversation[cut..];
    }

    /** Reloads the conversation and summarizes it once if it is long. */
    method LoadHistory(script: Script)
      modifies this`log, this`conversation, this`planReady
      ensures View() == LoadWork(old(View()).session, script)
    {
      var loaded, seqs := LoadConversation(log);
      conversation, planReady := loaded, false;
      MaybeSummarize(script.summary, seqs);
    }

    /** A zero number means no message was added. */
    method AppendUserMessage(input: Option<string>) returns (seqNo: nat)
      modifies this`log
      ensures View() == old(View()).(session := StoreInput(old(View()).session, input))
      ensures seqNo == if IsBlank(input) then 0 else |log|
    {
      if input.None? || Trim(input.value) == "" {
        return 0;
      }
      seqNo := AppendMessage(UserMessage(input.value));
    }

    /** Closes superseded calls before adding the next user message. */
    method PrepareTurnHistory(input: Option<string>, superseded: Option<Pending>, script: Script)
      modifies this`log, this`conversation, this`planReady, this`pending
      ensures View() == PrepareHistory(old(View()).session, input, superseded, script)
    {
      if superseded.None? {
        var _ := AppendUserMessage(input);
        LoadHistory(script);
        return;
      }
      pending := None;
      LoadHistory(script);
      DismissAll(PendingCalls(superseded.value), Superseded);
      var seqNo := AppendUserMessage(input);
      if seqNo != 0 {
        conversation := conversation + [UserTurn(input.value)];
      }
    }

    // ---- Decisions on a pending action ----

    /** The answer becomes the question's result; every other call of the batch gets a cancellation. */
    method ResumeQuestion(calls: seq<Call>, callId: string, decision: Decision)
      modifies this`log, this`conversation
      ensures View() == AnswerQuestion(old(View()), calls, callId, decision)
    {
      var answer := Trim(decision.answer);
      if answer == "" {
        answer := Trim(decision.note);
      }
      if answer == "" {
        answer := NO_ANSWER;
      }
      AppendToolResult(Result(callId, ASK_USER, Answered(answer)));
      ghost var base := View();
      AddNothing(base);
      for i := 0 to |calls|
        invariant View() == AddResults(base, Dismissals(Others(calls[..i], callId), CancelledByAnswer))
      {
        assert calls[..i + 1][..i] == calls[..i];
        if calls[i].id != callId {
          ghost var done := Others(calls[..i], callId);
          AddOneMore(base, Dismissals(done, CancelledByAnswer), DeniedResult(calls[i], CancelledByAnswer));
          assert Dismissals(done + [calls[i]], CancelledByAnswer) ==
                 Dismissals(done, CancelledByAnswer) + [DeniedResult(calls[i], CancelledByAnswer)];
          AppendToolResult(DeniedResult(calls[i], CancelledByAnswer));
        }
      }
      assert calls[..|calls|] == calls;
    }

    method ResumePlan(decision: Decision)
      modifies this`log, this`conversation, this`settings
      ensures View() == DecidePlan(old(View()), decision)
    {
      if decision.approved {
        settings := settings.(planMode := false);
        var _ := AppendMessage(SystemMessage(false, PLAN_CONFIRMED));
        conversation := conversation + [UserTurn(PLAN_CONFIRMED)];
        return;
      }
      var feedback := Trim(decision.note);
      if feedback == "" {
        feedback := PLAN_FEEDBACK;
      }
      var _ := AppendMessage(UserMessage(feedback));
      conversation := conversation + [UserTurn(feedback)];
    }

    method ResumeApprovalPrefix(resume: Pending, decision: Decision) returns (paused: bool)
      requires status == Running
      modifies this`log, this`conversation, this`status, this`pending, this`settings, this`world, this`planReady, this`trace
      ensures View() == Decide(host, old(View()), resume, decision)
      ensures paused == IsPaused(View())
      ensures !paused ==> status == Running
    {
      match resume {
        case Question(calls, callId) =>
          ResumeQuestion(calls, callId, decision);
          paused := false;
        case Plan =>
          ResumePlan(decision);
          paused := false;
        case Approval(calls, _, _) =>
          var _ := AppendMessage(ApprovalMessage(decision.approved, Names(calls), decision.note));
          if !decision.approved {
            DismissAll(calls, UserDenied(Trim(decision.note)));
            return false;
          }
          trace := trace + [UserApproved(calls)];
          trace := trace + [BatchStarted(calls, Ids(calls), settings)];
          ghost var granted := View();
          paused := ExecuteCalls(calls, "", Ids(calls));
          ExecuteStatus(host, granted, Ids(calls), calls, "");
      }
    }

    // ---- Whole turns ----

    /** A new user message, or None to continue from the history. */
    method RunNewTurn(input: Option<string>, script: Script)
      modifies this
      ensures View().session == TurnSpec.RunTurn(host, old(View()).session, input, script)
    {
      var superseded := if status == WaitingApproval then pending else None;
      status := Running;
      if superseded.None? {
        pending := None;
      }
      PrepareTurnHistory(input, superseded, script);
      var limit := if settings.maxModelCalls > 0 then settings.maxModelCalls else script.callLimit;
      RunModelLoop(script, limit);
    }

    method CheckTools(resume: Pending) returns (missing: Option<string>)
      ensures missing == CheckPendingTools(host, resume)
    {
      if !resume.Approval? {
        return None;
      }
      var calls := resume.calls;
      assert calls[0..] == calls;
      for i := 0 to |calls|
        invariant FirstMissing(host, calls) == FirstMissing(host, calls[i..])
      {
        assert calls[i..][1..] == calls[i + 1..];
        if host.find(calls[i].name).None? {
          return Some(calls[i].name);
        }
      }
      missing := None;
    }

    /** Consumes the pending action, then continues the model loop. */
    method Resume(decision: Decision, script: Script) returns (outcome: ResumeOutcome)
      modifies this
      ensures outcome == (match TurnSpec.ResumeApproval(host, old(View()).session, decision, script)
                          case NoPendingApproval => NoPending
                          case StalePending(name) => Stale(name)
                          case Resumed(_) => Continued)
      ensures
        var expected := TurnSpec.ResumeApproval(host, old(View()).session, decision, script);
        if expected.Resumed? then View().session == expected.session else View() == old(View())
    {
      outcome := NoPending;
      if status != WaitingApproval || !CanResume(pending) {
        return;
      }
      var resume := pending.value;
      if decision.approved {
        var missing := CheckTools(resume);
        if missing.Some? {
          return Stale(missing.value);
        }
      }
      status := Running;
      LoadHistory(script);
      var paused := ResumeApprovalPrefix(resume, decision);
      if !paused {
        pending := None;
        var limit := if settings.maxModelCalls > 0 then settings.maxModelCalls else script.callLimit;
        RunModelLoop(script, limit);
      }
      outcome := Continued;
    }
  }

  // ---- How the steps compose ----

  lemma AddNothing<W>(wk: Work<W>)
    ensures AddResults(wk, []) == wk
  {
    assert wk.session.log + ToolMessages([]) == wk.session.log;
    assert wk.conversation + ToolTurns([]) == wk.conversation;
  }

  lemma AddOneMore<W>(wk: Work<W>, results: seq<Result>, more: Result)
    ensures AddResults(AddResults(wk, results), [more]) == AddResults(wk, results + [more])
  {
    ToolListsConcat(results, [more]);
    Associate(wk.session.log, ToolMessages(results), ToolMessages([more]));
    Associate(wk.conversation, ToolTurns(results), ToolTurns([more]));
  }

  lemma AllFilled(infos: seq<Result>, results: seq<Result>, order: seq<nat>)
    requires |infos| == |results| && forall i: nat | i < |results| :: i in order
    requires forall k | 0 <= k < |order| :: order[k] < |infos| && infos[order[k]] == results[order[k]]
    ensures infos == results
  {
    forall i: nat | i < |results|
      ensures infos[i] == results[i]
    {
      assert i in order;
      var k :| 0 <= k < |order| && order[k] == i;
    }
  }

  lemma OneCompleted(logged: seq<Result>, result: Result, executed: seq<Call>, call: Call, settings: Settings)
    ensures ToolMessages(logged + [result]) == ToolMessages(logged) + [ToolMessage(result)]
    ensures ExecutedEvents(executed + [call], settings) == ExecutedEvents(executed, settings) + [Executed(call, settings)]
  {
  }

  /** An order visits every position. */
  lemma EveryPositionCompletes(order: seq<nat>, n: nat)
    requires IsOrder(order, n)
    ensures forall i: nat | i < n :: i in order
  {
    forall i: nat | i < n
      ensures i in order
    {
      assert Upto(n)[i] == i;
      assert i in multiset(Upto(n));
      assert i in multiset(order);
    }
  }

  lemma DropMore(calls: seq<Call>, index: nat, next: nat)
    requires index <= next <= |calls|
    ensures calls[index..][next - index..] == calls[next..]
  {
  }

  lemma TailOf(calls: seq<Call>, index: nat)
    requires index < |calls|
    ensures calls[index..][1..] == calls[index + 1..] && calls[index..][0] == calls[index]
  {
  }

  /** One pass of the loop, as a change to the work in progress. */
  function TakeMove<W>(wk: Work<W>, move: Move<W>): Work<W>
    requires move.Take?
  {
    var next := AddBatch(wk, move.logged, move.results);
    next.(session := next.session.(world := move.world, trace := wk.session.trace + ExecutedEvents(move.executed, wk.session.settings)),
          planReady := wk.planReady || move.isReady)
  }

  lemma ToolListsConcat(a: seq<Result>, b: seq<Result>)
    ensures ToolMessages(a + b) == ToolMessages(a) + ToolMessages(b)
    ensures ToolTurns(a + b) == ToolTurns(a) + ToolTurns(b)
  {
  }

  lemma EventsConcat(a: seq<Call>, b: seq<Call>, settings: Settings)
    ensures ExecutedEvents(a + b, settings) == ExecutedEvents(a, settings) + ExecutedEvents(b, settings)
  {
  }

  lemma StoppedHere<W>(h: Host<W>, wk: Work<W>, approved: set<string>, calls: seq<Call>, reason: string)
    requires calls != [] && NextMove(h, wk.session.settings, approved, calls, reason, wk.session.world).Stop?
    ensures
      var stop := NextMove(h, wk.session.settings, approved, calls, reason, wk.session.world);
      Execute(h, wk, approved, calls, reason) == PauseWith(wk, stop.pending)
  {
    ExecuteStep(h, wk, approved, calls, reason);
  }

  lemma GoesOn<W>(h: Host<W>, wk: Work<W>, approved: set<string>, calls: seq<Call>, rest: seq<Call>, reason: string)
    requires calls != [] && NextMove(h, wk.session.settings, approved, calls, reason, wk.session.world).Take?
    requires rest == calls[|NextMove(h, wk.session.settings, approved, calls, reason, wk.session.world).results|..]
    ensures
      var move := NextMove(h, wk.session.settings, approved, calls, reason, wk.session.world);
      Execute(h, TakeMove(wk, move), approved, rest, reason) == Execute(h, wk, approved, calls, reason)
  {
    ExecuteStep(h, wk, approved, calls, reason);
  }

  lemma ModelLoopStep<W>(h: Host<W>, wk: Work<W>, script: Script, round: nat, limit: nat)
    requires round < limit
    ensures
      var (next, isDone) := RunRound(h, wk, script, round);
      ModelLoop(h, wk, script, round, limit) == if isDone then next else ModelLoop(h, next, script, round + 1, limit)
  {
  }

  lemma ExecuteNothing<W>(h: Host<W>, wk: Work<W>, approved: set<string>, reason: string)
    ensures Execute(h, wk, approved, [], reason) == wk
  {
    assert ToolMessages([]) == [] && ToolTurns([]) == [] && ExecutedEvents([], wk.session.settings) == [];
    assert wk.session.log + [] == wk.session.log && wk.conversation + [] == wk.conversation;
    assert wk.session.trace + [] == wk.session.trace;
  }

  lemma ExecuteStatus<W>(h: Host<W>, wk: Work<W>, approved: set<string>, calls: seq<Call>, reason: string)
    requires wk.session.status == Running
    ensures IsPaused(Execute(h, wk, approved, calls, reason)) || Execute(h, wk, approved, calls, reason).session.status == Running
  {
  }

  lemma ApplyAfterMove<W>(wk: Work<W>, move: Move<W>, rest: Batch<W>)
    requires move.Take?
    ensures
      var b := Batch(move.results + rest.results, move.logged + rest.logged, move.executed + rest.executed,
                     rest.pending, rest.world, move.isReady || rest.planReady);
      ApplyBatch(wk, b) == ApplyBatch(TakeMove(wk, move), rest)
  {
    var s := wk.session;
    ToolListsConcat(move.results, rest.results);
    ToolListsConcat(move.logged, rest.logged);
    EventsConcat(move.executed, rest.executed, s.settings);
    Associate(s.log, ToolMessages(move.logged), ToolMessages(rest.logged));
    Associate(wk.conversation, ToolTurns(move.results), ToolTurns(rest.results));
    Associate(s.trace, ExecutedEvents(move.executed, s.settings), ExecutedEvents(rest.executed, s.settings));
  }

  lemma ApplyStop<W>(wk: Work<W>, pending: Pending)
    ensures ApplyBatch(wk, Batch([], [], [], Some(pending), wk.session.world, false)) == PauseWith(wk, pending)
  {
    assert ToolMessages([]) == [] && ToolTurns([]) == [] && ExecutedEvents([], wk.session.settings) == [];
    assert wk.session.log + [] == wk.session.log && wk.conversation + [] == wk.conversation;
    assert wk.session.trace + [] == wk.session.trace;
  }

  /** A batch can be run from its head: a pause ends it, anything else leaves the rest of the batch to run. */
  lemma ExecuteStep<W>(h: Host<W>, wk: Work<W>, approved: set<string>, calls: seq<Call>, reason: string)
    requires calls != []
    ensures
      var move := NextMove(h, wk.session.settings, approved, calls, reason, wk.session.world);
      Execute(h, wk, approved, calls, reason) ==
      match move
      case Stop(pending) => PauseWith(wk, pending)
      case Take(results, _, _, _, _) => Execute(h, TakeMove(wk, move), approved, calls[|results|..], reason)
  {
    var s := wk.session;
    var move := NextMove(h, s.settings, approved, calls, reason, s.world);
    match move
    case Stop(pending) => ApplyStop(wk, pending);
    case Take(results, _, _, _, world) =>
      ApplyAfterMove(wk, move, RunBatch(h, s.settings, approved, calls[|results|..], reason, world));
  }
}
