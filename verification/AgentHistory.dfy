/** The stored log, its replay into a conversation, and the two compactions of that conversation. */
module History {
  import opened Options
  import opened AgentTypes
  import opened Pairing

  const SUMMARY_MIN_MESSAGES := 8
  const SUMMARY_MIN_CUT := 2
  const SUMMARY_KEEP_TAIL := 4
  const MICRO_KEEP_TOOL_RESULTS := 4
  const SUMMARY_HEAD := "Summary of the conversation so far, continue from it:\n"
  const CLEARED_MARK := "[old command result cleared]"

  datatype Stored = Stored(seqNo: nat, message: Message)

  /** One replayed turn and the number of the message it came from; 0 for the summary turn. */
  datatype Entry = Entry(seqNo: nat, turn: Turn)

  function MessageTurn(message: Message): Option<Turn> {
    match message
    case UserMessage(text) => if text == "" then None else Some(UserTurn(text))
    case AssistantMessage(isIncomplete, text, calls) => if isIncomplete then None else Some(AssistantTurn(text, calls))
    case ToolMessage(result) => Some(ToolTurn(result))
    case _ => None
  }

  function MessageEntries(seqNo: nat, message: Message): (r: seq<Entry>)
    ensures |r| <= 1 && (r != [] ==> r[0].seqNo == seqNo)
  {
    match MessageTurn(message) case None => [] case Some(turn) => [Entry(seqNo, turn)]
  }

  /** The turns of the messages numbered above `boundary`, in order. */
  function Visible(log: seq<Message>, boundary: nat): seq<Entry> {
    if log == [] then []
    else
      var last := |log| - 1;
      Visible(log[..last], boundary) + (if |log| > boundary then MessageEntries(|log|, log[last]) else [])
  }

  /** The position of the latest summary, or -1. */
  function LastSummary(log: seq<Message>): (r: int)
    ensures -1 <= r < |log| && (r >= 0 ==> log[r].SummaryMessage?)
    ensures forall i | r < i < |log| :: !log[i].SummaryMessage?
  {
    if log == [] then -1
    else if log[|log| - 1].SummaryMessage? then |log| - 1
    else LastSummary(log[..|log| - 1])
  }

  function Load(log: seq<Message>): seq<Entry> {
    var at := LastSummary(log);
    if at < 0 then Visible(log, 0)
    else [Entry(0, UserTurn(SUMMARY_HEAD + log[at].text))] + Visible(log, log[at].boundary)
  }

  function Turns(entries: seq<Entry>): seq<Turn> {
    seq(|entries|, i requires 0 <= i < |entries| => entries[i].turn)
  }

  /** The conversation a reload rebuilds. */
  function Replay(log: seq<Message>): seq<Turn> {
    Turns(Load(log))
  }

  lemma TurnsConcat(a: seq<Entry>, b: seq<Entry>)
    ensures Turns(a + b) == Turns(a) + Turns(b)
  {
  }

  /** A summary only covers messages that were there before it. */
  predicate BoundariesExist(log: seq<Message>) {
    forall i | 0 <= i < |log| && log[i].SummaryMessage? :: log[i].boundary <= i
  }

  /** Appending a message other than a summary appends its turn, if it has one. */
  lemma ReplayAppend(log: seq<Message>, message: Message)
    requires BoundariesExist(log) && !message.SummaryMessage?
    ensures Load(log + [message]) == Load(log) + MessageEntries(|log| + 1, message)
    ensures Replay(log + [message]) ==
            (match MessageTurn(message) case None => Replay(log) case Some(turn) => Replay(log) + [turn])
    ensures BoundariesExist(log + [message])
  {
    assert (log + [message])[..|log|] == log;
    assert LastSummary(log + [message]) == LastSummary(log);
    TurnsConcat(Load(log), MessageEntries(|log| + 1, message));
  }

  // ---- Reading the log back ----

  function Min(a: nat, b: nat): nat {
    if a < b then a else b
  }

  /** The messages from position `from` on, with their numbers. */
  function StoredFrom(log: seq<Message>, from: nat): (r: seq<Stored>)
    requires from <= |log|
    ensures |r| == |log| - from
    ensures forall k | 0 <= k < |r| :: r[k] == Stored(from + k + 1, log[from + k])
  {
    seq(|log| - from, k requires 0 <= k < |log| - from => Stored(from + k + 1, log[from + k]))
  }

  function Kept(log: seq<Message>): seq<Stored> {
    var at := LastSummary(log);
    if at < 0 then StoredFrom(log, 0)
    else [Stored(0, UserMessage(SUMMARY_HEAD + log[at].text))] + StoredFrom(log, Min(log[at].boundary, |log|))
  }

  /** Drops the history the latest summary covers and puts the summary in front as a user message. */
  method ApplySummaryBoundary(log: seq<Message>) returns (kept: seq<Stored>)
    ensures kept == Kept(log)
  {
    var index := |log| - 1;
    while index >= 0 && !log[index].SummaryMessage?
      invariant -1 <= index < |log|
      invariant forall i | index < i < |log| :: !log[i].SummaryMessage?
    {
      index := index - 1;
    }
    assert index == LastSummary(log);
    if index < 0 {
      return StoredFrom(log, 0);
    }
    var boundary := log[index].boundary;
    ghost var from := Min(boundary, |log|);
    var tail: seq<Stored> := [];
    for i := 0 to |log|
      invariant |tail| == if i > from then i - from else 0
      invariant forall k | 0 <= k < |tail| :: tail[k] == Stored(from + k + 1, log[from + k])
    {
      if i + 1 > boundary {
        tail := tail + [Stored(i + 1, log[i])];
      }
    }
    assert tail == StoredFrom(log, from);
    kept := [Stored(0, UserMessage(SUMMARY_HEAD + log[index].text))] + tail;
  }

  function StoredEntries(kept: seq<Stored>): seq<Entry> {
    if kept == [] then []
    else
      var last := |kept| - 1;
      StoredEntries(kept[..last]) + MessageEntries(kept[last].seqNo, kept[last].message)
  }

  lemma {:induction false} StoredEntriesCons(kept: seq<Stored>)
    requires kept != []
    ensures StoredEntries(kept) == MessageEntries(kept[0].seqNo, kept[0].message) + StoredEntries(kept[1..])
    decreases |kept|
  {
    var last := |kept| - 1;
    if last > 0 {
      StoredEntriesCons(kept[..last]);
      assert kept[1..][..last - 1] == kept[..last][1..];
    }
  }

  lemma {:induction false} StoredFromIsVisible(log: seq<Message>, from: nat)
    requires from <= |log|
    ensures StoredEntries(StoredFrom(log, from)) == Visible(log, from)
    decreases |log|
  {
    if from == |log| {
      VisibleNothing(log, from);
      assert StoredFrom(log, from) == [];
    } else {
      var last := |log| - 1;
      var kept := StoredFrom(log, from);
      var front := StoredFrom(log[..last], from);
      StoredFromIsVisible(log[..last], from);
      assert kept == front + [Stored(|log|, log[last])];
      assert StoredEntries(kept) == StoredEntries(front) + MessageEntries(|log|, log[last]);
    }
  }

  lemma KeptIsLoad(log: seq<Message>)
    ensures StoredEntries(Kept(log)) == Load(log)
  {
    var at := LastSummary(log);
    if at < 0 {
      StoredFromIsVisible(log, 0);
    } else {
      var from := Min(log[at].boundary, |log|);
      StoredFromIsVisible(log, from);
      VisibleBeyondEnd(log, log[at].boundary);
      StoredEntriesCons(Kept(log));
      assert Kept(log)[1..] == StoredFrom(log, from);
    }
  }

  lemma {:induction false} VisibleBeyondEnd(log: seq<Message>, boundary: nat)
    ensures Visible(log, boundary) == Visible(log, Min(boundary, |log|))
    decreases |log|
  {
    if log != [] && boundary > |log| {
      VisibleNothing(log, boundary);
      VisibleNothing(log, |log|);
    }
  }

  lemma {:induction false} VisibleNothing(log: seq<Message>, boundary: nat)
    requires boundary >= |log|
    ensures Visible(log, boundary) == []
    decreases |log|
  {
    if log != [] {
      VisibleNothing(log[..|log| - 1], boundary);
    }
  }

  lemma OneMoreStored(kept: seq<Stored>, i: nat)
    requires i < |kept|
    ensures StoredEntries(kept[..i + 1]) == StoredEntries(kept[..i]) + MessageEntries(kept[i].seqNo, kept[i].message)
  {
    assert kept[..i + 1][..i] == kept[..i];
  }

  /** Turns and their numbers, as the reload collects them. */
  predicate Collected(entries: seq<Entry>, conversation: seq<Turn>, seqs: seq<nat>) {
    conversation == Turns(entries) && |seqs| == |entries| && forall k | 0 <= k < |seqs| :: seqs[k] == entries[k].seqNo
  }

  lemma CollectOne(entries: seq<Entry>, conversation: seq<Turn>, seqs: seq<nat>, e: Entry)
    requires Collected(entries, conversation, seqs)
    ensures Collected(entries + [e], conversation + [e.turn], seqs + [e.seqNo])
  {
  }

  /** The reload of a session, message by message. */
  method LoadConversation(log: seq<Message>) returns (conversation: seq<Turn>, seqs: seq<nat>)
    ensures conversation == Replay(log)
    ensures |seqs| == |conversation| && forall i | 0 <= i < |seqs| :: seqs[i] == Load(log)[i].seqNo
  {
    var kept := ApplySummaryBoundary(log);
    conversation, seqs := [], [];
    for i := 0 to |kept|
      invariant Collected(StoredEntries(kept[..i]), conversation, seqs)
    {
      OneMoreStored(kept, i);
      match MessageTurn(kept[i].message) {
        case None => assert StoredEntries(kept[..i]) + [] == StoredEntries(kept[..i]);
        case Some(turn) =>
          CollectOne(StoredEntries(kept[..i]), conversation, seqs, Entry(kept[i].seqNo, turn));
          conversation := conversation + [turn];
          seqs := seqs + [kept[i].seqNo];
      }
    }
    assert kept[..|kept|] == kept;
    KeptIsLoad(log);
  }

  // ---- Summary compaction ----

  predicate IsCut(conversation: seq<Turn>, cut: int) {
    && SUMMARY_MIN_CUT <= cut <= |conversation| - SUMMARY_KEEP_TAIL
    && cut <= |conversation| / 2
    && conversation[cut].UserTurn?
  }

  /** The last user turn at or before the middle that leaves enough on both sides, or -1. */
  function CutFrom(conversation: seq<Turn>, index: int): (r: int)
    requires index < |conversation|
    decreases index + 1
  {
    if index < SUMMARY_MIN_CUT then -1
    else if conversation[index].UserTurn? then index
    else CutFrom(conversation, index - 1)
  }

  function Cut(conversation: seq<Turn>): int {
    var maxCut := |conversation| - SUMMARY_KEEP_TAIL;
    if maxCut < SUMMARY_MIN_CUT then -1
    else CutFrom(conversation, if |conversation| / 2 > maxCut then maxCut else |conversation| / 2)
  }

  lemma {:induction false} CutFromIsLast(conversation: seq<Turn>, index: int)
    requires index < |conversation|
    ensures var r := CutFrom(conversation, index);
            && (r == -1 || (SUMMARY_MIN_CUT <= r <= index && conversation[r].UserTurn?))
            && forall k | SUMMARY_MIN_CUT <= k <= index && r < k :: !conversation[k].UserTurn?
    decreases index + 1
  {
    if index >= SUMMARY_MIN_CUT && !conversation[index].UserTurn? {
      CutFromIsLast(conversation, index - 1);
    }
  }

  method SummaryCut(conversation: seq<Turn>) returns (cut: int)
    ensures cut == Cut(conversation)
    ensures cut == -1 || IsCut(conversation, cut)
    ensures forall k | IsCut(conversation, k) :: k <= cut
  {
    var maxCut := |conversation| - SUMMARY_KEEP_TAIL;
    if maxCut < SUMMARY_MIN_CUT {
      return -1;
    }
    var center := |conversation| / 2;
    if center > maxCut {
      center := maxCut;
    }
    cut := center;
    CutFromIsLast(conversation, center);
    while cut >= SUMMARY_MIN_CUT
      invariant -1 <= cut <= center
      invariant CutFrom(conversation, cut) == CutFrom(conversation, center)
    {
      if conversation[cut].UserTurn? {
        return;
      }
      cut := cut - 1;
    }
    cut := -1;
  }

  datatype Summarized = Summarized(log: seq<Message>, conversation: seq<Turn>)

  /** One pass over a freshly loaded history. `text` is the summary the model produced, or None when the
      history is small enough or no summary came back. */
  function Summarize(log: seq<Message>, text: Option<string>): Summarized {
    var entries := Load(log);
    var conversation := Turns(entries);
    if text.None? || text.value == "" || |conversation| < SUMMARY_MIN_MESSAGES || Cut(conversation) < 0 then
      Summarized(log, conversation)
    else
      var cut := Cut(conversation);
      CutFromIsLast(conversation,
        if |conversation| / 2 > |conversation| - SUMMARY_KEEP_TAIL then |conversation| - SUMMARY_KEEP_TAIL else |conversation| / 2);
      Summarized(log + [SummaryMessage(text.value, entries[cut - 1].seqNo)],
                 [UserTurn(SUMMARY_HEAD + text.value)] + conversation[cut..])
  }

  /** Entry numbers lie in (low, high] and increase. */
  predicate Numbered(entries: seq<Entry>, low: int, high: int) {
    && (forall i | 0 <= i < |entries| :: low < entries[i].seqNo <= high)
    && (forall i, j | 0 <= i < j < |entries| :: entries[i].seqNo < entries[j].seqNo)
  }

  lemma NumberedConcat(a: seq<Entry>, b: seq<Entry>, low: int, middle: int, high: int)
    requires low <= middle <= high && Numbered(a, low, middle) && Numbered(b, middle, high)
    ensures Numbered(a + b, low, high)
  {
    var c := a + b;
    forall i | 0 <= i < |c|
      ensures low < c[i].seqNo <= high
    {
      if i >= |a| { assert c[i] == b[i - |a|]; }
    }
    forall i, j | 0 <= i < j < |c|
      ensures c[i].seqNo < c[j].seqNo
    {
      if j >= |a| { assert c[j] == b[j - |a|]; }
      if i >= |a| { assert c[i] == b[i - |a|]; }
    }
  }

  lemma {:induction false} VisibleNumbers(log: seq<Message>, boundary: nat)
    ensures Numbered(Visible(log, boundary), boundary, Max(boundary, |log|))
    decreases |log|
  {
    if |log| > boundary {
      var last := |log| - 1;
      VisibleNumbers(log[..last], boundary);
      NumberedConcat(Visible(log[..last], boundary), MessageEntries(|log|, log[last]), boundary, last, |log|);
    } else {
      VisibleNothing(log, boundary);
    }
  }

  function Max(a: nat, b: nat): nat {
    if a < b then b else a
  }

  lemma DropOfConcat<T>(a: seq<T>, b: seq<T>, k: nat)
    requires k <= |a|
    ensures (a + b)[k..] == a[k..] + b && (k < |a| ==> (a + b)[k] == a[k])
  {
  }

  /** Raising the boundary to an entry's number drops exactly the entries up to it. */
  lemma {:induction false} VisibleAbove(log: seq<Message>, boundary: nat, k: nat)
    requires k < |Visible(log, boundary)|
    ensures Visible(log, Visible(log, boundary)[k].seqNo) == Visible(log, boundary)[k + 1..]
    decreases |log|
  {
    if boundary >= |log| {
      VisibleNothing(log, boundary);
      assert false;
    }
    var last := |log| - 1;
    var front, more := Visible(log[..last], boundary), MessageEntries(|log|, log[last]);
    if k < |front| {
      VisibleAbove(log[..last], boundary, k);
      VisibleNumbers(log[..last], boundary);
      DropOfConcat(front, more, k + 1);
      DropOfConcat(front, more, k);
    } else {
      DropOfConcat(front, more, |front|);
      VisibleNothing(log, |log|);
    }
  }

  lemma LoadNumbers(log: seq<Message>)
    requires BoundariesExist(log)
    ensures Numbered(Load(log), -1, |log|)
  {
    var at := LastSummary(log);
    VisibleNumbers(log, if at < 0 then 0 else log[at].boundary);
    if at >= 0 {
      NumberedConcat([Load(log)[0]], Load(log)[1..], -1, 0, |log|);
      assert Load(log) == [Load(log)[0]] + Load(log)[1..];
    }
  }

  lemma LoadAbove(log: seq<Message>, k: nat)
    requires BoundariesExist(log) && 1 <= k < |Load(log)|
    ensures Visible(log, Load(log)[k].seqNo) == Load(log)[k + 1..]
  {
    var at := LastSummary(log);
    if at < 0 {
      VisibleAbove(log, 0, k);
    } else {
      var tail := Visible(log, log[at].boundary);
      SkipHead(Load(log)[0], tail, k);
      VisibleAbove(log, log[at].boundary, k - 1);
    }
  }

  lemma SkipHead<T>(head: T, tail: seq<T>, k: nat)
    requires 1 <= k <= |tail|
    ensures ([head] + tail)[k] == tail[k - 1] && ([head] + tail)[k + 1..] == tail[k..]
  {
  }

  lemma LoadAfterSummary(log: seq<Message>, text: string, k: nat)
    requires BoundariesExist(log) && 1 <= k < |Load(log)|
    ensures
      var summary := SummaryMessage(text, Load(log)[k].seqNo);
      Load(log + [summary]) == [Entry(0, UserTurn(SUMMARY_HEAD + text))] + Load(log)[k + 1..]
  {
    var boundary := Load(log)[k].seqNo;
    var longer := log + [SummaryMessage(text, boundary)];
    assert longer[..|log|] == log;
    assert LastSummary(longer) == |log|;
    LoadAbove(log, k);
    assert Visible(longer, boundary) == Visible(log, boundary);
  }

  lemma TurnsAfterCut(entries: seq<Entry>, cut: nat, head: Entry)
    requires cut <= |entries|
    ensures Turns([head] + entries[cut..]) == [head.turn] + Turns(entries)[cut..]
  {
    assert Turns(entries[cut..]) == Turns(entries)[cut..];
    TurnsConcat([head], entries[cut..]);
  }

  lemma BoundaryStays(log: seq<Message>, text: string, boundary: nat)
    requires BoundariesExist(log) && boundary <= |log|
    ensures BoundariesExist(log + [SummaryMessage(text, boundary)])
  {
  }

  lemma SummaryApplies(log: seq<Message>, text: string, cut: nat)
    requires BoundariesExist(log) && 1 < cut <= |Load(log)|
    ensures
      var longer := log + [SummaryMessage(text, Load(log)[cut - 1].seqNo)];
      Replay(longer) == [UserTurn(SUMMARY_HEAD + text)] + Turns(Load(log))[cut..] && BoundariesExist(longer)
  {
    LoadNumbers(log);
    BoundaryStays(log, text, Load(log)[cut - 1].seqNo);
    LoadAfterSummary(log, text, cut - 1);
    TurnsAfterCut(Load(log), cut, Entry(0, UserTurn(SUMMARY_HEAD + text)));
  }

  /** Main result: what stays in memory after a summary is what a reload rebuilds. */
  lemma SummaryRoundTrip(log: seq<Message>, text: Option<string>)
    requires BoundariesExist(log)
    ensures Replay(Summarize(log, text).log) == Summarize(log, text).conversation
    ensures BoundariesExist(Summarize(log, text).log)
  {
    if Summarize(log, text).log != log {
      CutIsCut(Turns(Load(log)));
      SummaryApplies(log, text.value, Cut(Turns(Load(log))));
    }
  }

  lemma CutIsCut(conversation: seq<Turn>)
    ensures Cut(conversation) == -1 || IsCut(conversation, Cut(conversation))
  {
    var maxCut := |conversation| - SUMMARY_KEEP_TAIL;
    if maxCut >= SUMMARY_MIN_CUT {
      CutFromIsLast(conversation, if |conversation| / 2 > maxCut then maxCut else |conversation| / 2);
    }
  }

  /** Nothing is both summarized and replayed: the boundary separates the two. */
  lemma SummarySeparates(log: seq<Message>, text: string)
    requires BoundariesExist(log) && Summarize(log, Some(text)).log != log
    ensures
      var entries := Load(log);
      var cut := Cut(Turns(entries));
      var boundary := Summarize(log, Some(text)).log[|log|].boundary;
      && SUMMARY_MIN_CUT <= cut < |entries| && entries[cut].turn.UserTurn?
      && (forall i | 0 <= i < |entries| :: i < cut <==> entries[i].seqNo <= boundary)
  {
    CutIsCut(Turns(Load(log)));
    LoadNumbers(log);
  }

  /** A summary never splits a batch from its results, not even the open batch at the end. */
  lemma SummaryKeepsOwed(strict: bool, log: seq<Message>, text: Option<string>)
    requires Owed(strict, Replay(log)).Some?
    ensures Owed(strict, Summarize(log, text).conversation) == Owed(strict, Replay(log))
  {
    var after := Summarize(log, text);
    if after.log != log {
      var conversation := Replay(log);
      CutIsCut(conversation);
      OwedCut(strict, conversation, Cut(conversation), SUMMARY_HEAD + text.value);
    }
  }

  // ---- Any number of summaries ----

  datatype Op = Append(message: Message) | Compact(text: Option<string>)

  datatype Copy = Copy(log: seq<Message>, memory: seq<Turn>)

  /** A session that keeps its conversation in memory: appends are mirrored, summaries replace the memory. */
  function Play(ops: seq<Op>): Copy {
    if ops == [] then Copy([], [])
    else
      var before := Play(ops[..|ops| - 1]);
      match ops[|ops| - 1]
      case Append(message) =>
        Copy(before.log + [message],
             (match MessageTurn(message) case None => before.memory case Some(turn) => before.memory + [turn]))
      case Compact(text) =>
        var after := Summarize(before.log, text);
        Copy(after.log, after.conversation)
  }

  /** Through any number of summaries the reload and the memory stay the same conversation. */
  lemma {:induction false} MemoryIsReplay(ops: seq<Op>)
    requires forall op | op in ops :: op.Append? ==> !op.message.SummaryMessage?
    ensures Replay(Play(ops).log) == Play(ops).memory && BoundariesExist(Play(ops).log)
    decreases |ops|
  {
    if ops != [] {
      var last := |ops| - 1;
      MemoryIsReplay(ops[..last]);
      var before := Play(ops[..last]);
      match ops[last]
      case Append(message) => ReplayAppend(before.log, message);
      case Compact(text) => SummaryRoundTrip(before.log, text);
    }
  }

  // ---- Micro compaction ----

  predicate OccursAt(text: string, part: string, i: nat) {
    i + |part| <= |text| && text[i..i + |part|] == part
  }

  predicate Contains(text: string, part: string) {
    exists i | 0 <= i <= |text| :: OccursAt(text, part, i)
  }

  predicate HasMark(outcome: Outcome) {
    match outcome
    case Cleared => true
    case Ran(_, data) => Contains(data, CLEARED_MARK)
    case Answered(answer) => Contains(answer, CLEARED_MARK)
    case _ => false
  }

  function ToolCount(conversation: seq<Turn>): (n: nat)
    ensures n <= |conversation|
  {
    if conversation == [] then 0
    else ToolCount(conversation[..|conversation| - 1]) + if conversation[|conversation| - 1].ToolTurn? then 1 else 0
  }

  /** An older result: at least MICRO_KEEP_TOOL_RESULTS other results come after it. */
  predicate IsOld(conversation: seq<Turn>, i: nat)
    requires i < |conversation|
  {
    conversation[i].ToolTurn? && ToolCount(conversation[..i]) + MICRO_KEEP_TOOL_RESULTS < ToolCount(conversation)
  }

  function Compacted(conversation: seq<Turn>, i: nat): Turn
    requires i < |conversation|
  {
    if IsOld(conversation, i) && !HasMark(conversation[i].result.outcome) then
      ToolTurn(conversation[i].result.(outcome := Cleared))
    else conversation[i]
  }

  function MicroCompacted(conversation: seq<Turn>): (r: seq<Turn>)
    ensures |r| == |conversation|
    ensures forall i | 0 <= i < |r| :: r[i] == Compacted(conversation, i)
  {
    seq(|conversation|, i requires 0 <= i < |conversation| => Compacted(conversation, i))
  }

  /** How many of the first `n` turns compaction changes. */
  function ChangedCount(conversation: seq<Turn>, n: nat): (count: nat)
    requires n <= |conversation|
    ensures count <= n
  {
    if n == 0 then 0
    else ChangedCount(conversation, n - 1) + if Compacted(conversation, n - 1) != conversation[n - 1] then 1 else 0
  }

  lemma {:induction false} NothingChanged(conversation: seq<Turn>, n: nat)
    requires n <= |conversation| && ChangedCount(conversation, n) == 0
    ensures forall i | 0 <= i < n :: Compacted(conversation, i) == conversation[i]
    decreases n
  {
    if n > 0 {
      NothingChanged(conversation, n - 1);
    }
  }

  lemma {:induction false} NoneOldNoneChanged(conversation: seq<Turn>, n: nat)
    requires n <= |conversation| && forall i | 0 <= i < n :: Compacted(conversation, i) == conversation[i]
    ensures ChangedCount(conversation, n) == 0
    decreases n
  {
    if n > 0 {
      NoneOldNoneChanged(conversation, n - 1);
    }
  }

  lemma {:induction false} ToolCountMonotone(conversation: seq<Turn>, i: nat)
    requires i <= |conversation|
    ensures ToolCount(conversation[..i]) <= ToolCount(conversation)
    ensures i < |conversation| && conversation[i].ToolTurn? ==> ToolCount(conversation[..i]) < ToolCount(conversation)
    decreases |conversation|
  {
    if i < |conversation| {
      var front := conversation[..|conversation| - 1];
      assert front[..i] == conversation[..i];
      if i < |front| {
        ToolCountMonotone(front, i);
      } else {
        assert front[..i] == front;
      }
    } else {
      assert conversation[..i] == conversation;
    }
  }

  /** The positions of the tool results, in order. */
  method ToolPositions(conversation: seq<Turn>) returns (at: seq<nat>)
    ensures |at| == ToolCount(conversation)
    ensures forall k | 0 <= k < |at| ::
      at[k] < |conversation| && conversation[at[k]].ToolTurn? && ToolCount(conversation[..at[k]]) == k
    ensures forall i | 0 <= i < |conversation| && conversation[i].ToolTurn? ::
      ToolCount(conversation[..i]) < |at| && at[ToolCount(conversation[..i])] == i
  {
    at := [];
    for index := 0 to |conversation|
      invariant |at| == ToolCount(conversation[..index])
      invariant forall k | 0 <= k < |at| ::
        at[k] < index && conversation[at[k]].ToolTurn? && ToolCount(conversation[..at[k]]) == k
      invariant forall i | 0 <= i < index && conversation[i].ToolTurn? ::
        ToolCount(conversation[..i]) < |at| && at[ToolCount(conversation[..i])] == i
    {
      assert conversation[..index + 1][..index] == conversation[..index];
      if conversation[index].ToolTurn? {
        at := at + [index];
      }
    }
    assert conversation[..|conversation|] == conversation;
  }

  /** The stale positions are those of the older results. */
  lemma StaleAreOld(conversation: seq<Turn>, toolIndexes: seq<nat>, i: nat)
    requires i < |conversation| && |toolIndexes| == ToolCount(conversation) > MICRO_KEEP_TOOL_RESULTS
    requires forall k | 0 <= k < |toolIndexes| ::
      toolIndexes[k] < |conversation| && conversation[toolIndexes[k]].ToolTurn? && ToolCount(conversation[..toolIndexes[k]]) == k
    requires conversation[i].ToolTurn? ==>
      ToolCount(conversation[..i]) < |toolIndexes| && toolIndexes[ToolCount(conversation[..i])] == i
    ensures i in toolIndexes[..|toolIndexes| - MICRO_KEEP_TOOL_RESULTS] <==> IsOld(conversation, i)
  {
    var stale := toolIndexes[..|toolIndexes| - MICRO_KEEP_TOOL_RESULTS];
    if i in stale {
      var k :| 0 <= k < |stale| && stale[k] == i;
      assert toolIndexes[k] == i;
    }
    if IsOld(conversation, i) {
      assert stale[ToolCount(conversation[..i])] == i;
    }
  }

  lemma FewResults(conversation: seq<Turn>)
    requires ToolCount(conversation) <= MICRO_KEEP_TOOL_RESULTS
    ensures MicroCompacted(conversation) == conversation && ChangedCount(conversation, |conversation|) == 0
  {
    NoneOldNoneChanged(conversation, |conversation|);
  }

  method MicroCompact(conversation: seq<Turn>) returns (out: seq<Turn>, cleared: nat)
    ensures out == MicroCompacted(conversation)
    ensures cleared == ChangedCount(conversation, |conversation|)
    ensures cleared == 0 ==> out == conversation
  {
    var toolIndexes := ToolPositions(conversation);
    if |toolIndexes| <= MICRO_KEEP_TOOL_RESULTS {
      FewResults(conversation);
      return conversation, 0;
    }
    var stale := toolIndexes[..|toolIndexes| - MICRO_KEEP_TOOL_RESULTS];
    out, cleared := [], 0;
    for index := 0 to |conversation|
      invariant |out| == index && cleared == ChangedCount(conversation, index)
      invariant forall i | 0 <= i < index :: out[i] == Compacted(conversation, i)
    {
      var message := conversation[index];
      StaleAreOld(conversation, toolIndexes, index);
      if index !in stale || HasMark(message.result.outcome) {
        out := out + [message];
      } else {
        out := out + [ToolTurn(message.result.(outcome := Cleared))];
        cleared := cleared + 1;
      }
    }
    if cleared == 0 { NothingChanged(conversation, |conversation|); }
  }

  lemma {:induction false} ToolCountSame(a: seq<Turn>, b: seq<Turn>)
    requires |a| == |b| && forall i | 0 <= i < |a| :: SameShape(a[i], b[i])
    ensures ToolCount(a) == ToolCount(b)
    decreases |a|
  {
    if a != [] {
      var last := |a| - 1;
      ToolCountSame(a[..last], b[..last]);
      assert SameShape(a[last], b[last]);
    }
  }

  /** Clearing old results keeps the pairing, the most recent results, and everything that is not a result;
      doing it again changes nothing. */
  lemma MicroCompactKeeps(strict: bool, conversation: seq<Turn>)
    ensures
      var out := MicroCompacted(conversation);
      && Owed(strict, out) == Owed(strict, conversation)
      && (forall i | 0 <= i < |out| && !IsOld(conversation, i) :: out[i] == conversation[i])
      && MicroCompacted(out) == out
  {
    var out := MicroCompacted(conversation);
    assert forall i | 0 <= i < |out| :: SameShape(out[i], conversation[i]);
    OwedSameShape(strict, out, conversation);
    ToolCountSame(out, conversation);
    forall i | 0 <= i < |out|
      ensures Compacted(out, i) == out[i]
    {
      ToolCountSame(out[..i], conversation[..i]);
    }
  }
}
