/** The log writer: a bounded queue with one worker, a synchronous fallback for important events, and a close that
    joins both. Modelled as atomic steps of its threads, in any interleaving. */
module LogWriter {
  import opened Options
  import opened Sequences

  const QUEUE_CAPACITY := 2048
  const QUEUE_BYTES := 16 * 1024 * 1024
  const BATCH_SIZE := 64

  datatype Event = Event(id: nat, size: nat)

  /** Who holds the lock between two steps: nobody, or a caller that admitted an event and is about to send it. */
  datatype Lock = Free | Sending(event: Event)

  datatype Worker =
    | Ready
    | Collecting(batch: seq<Event>)
    | Waiting(batch: seq<Event>)
    | InSink(batch: seq<Event>)
    | Recording(batch: seq<Event>, ok: bool)
    | Releasing(batch: seq<Event>)
    | Ended

  datatype Phase = AtGate | AtSink | AtRecord(ok: bool) | Returned

  /** One synchronous write in progress. */
  datatype SyncCall = SyncCall(event: Event, phase: Phase)

  datatype Closer = Open | AwaitWorker | AwaitFallbacks | Closed

  datatype State = State(
    queue: seq<Event>, lock: Lock, worker: Worker, syncs: seq<SyncCall>, gateTaken: bool, isClosed: bool, closer: Closer,
    retained: int, written: nat, failures: nat, dropped: nat, synchronous: nat)

  /** What happened to the calls that were not refused: all of them in order of admission, and how each ended. */
  datatype Log = Log(sent: seq<Event>, taken: seq<Event>, accepted: seq<Event>, settled: seq<Event>)

  const START := State([], Free, Ready, [], false, false, Open, 0, 0, 0, 0, 0)

  datatype Action =
    | Admit(event: Event, isImportant: bool)
    | Send
    | TakeFirst
    | TakeMore
    | StopCollecting(timerFired: bool)
    | WorkerGate
    | WorkerGiveUp
    | WorkerSink(ok: bool)
    | WorkerRecord
    | WorkerRelease
    | WorkerEnd
    | SyncGate(call: nat)
    | SyncGiveUp(call: nat)
    | SyncSink(call: nat, ok: bool)
    | SyncRecord(call: nat)
    | SyncReturn(call: nat)
    | CloseAdmission
    | SeeWorkerEnd
    | SeeFallbacksEnd

  function Bytes(events: seq<Event>): nat {
    if events == [] then 0 else Bytes(events[..|events| - 1]) + events[|events| - 1].size
  }

  function BatchOf(w: Worker): seq<Event> {
    match w
    case Ready => []
    case Ended => []
    case _ => w.batch
  }

  predicate HasRoom(s: State, e: Event) {
    |s.queue| < QUEUE_CAPACITY && e.size <= QUEUE_BYTES - s.retained
  }

  function RemoveAt<T>(s: seq<T>, i: nat): (r: seq<T>)
    requires i < |s|
    ensures |r| == |s| - 1
  {
    s[..i] + s[i + 1..]
  }

  /** The decision under the lock. Nothing happens on a closed writer. */
  function DoAdmit(s: State, e: Event, isImportant: bool): State {
    if s.isClosed then s
    else if HasRoom(s, e) then s.(retained := s.retained + e.size, lock := Sending(e))
    else if !isImportant then s.(dropped := s.dropped + 1)
    else s.(synchronous := s.synchronous + 1, syncs := s.syncs + [SyncCall(e, AtGate)])
  }

  /** The step's effect, or None while the thread cannot take it. */
  function Next(s: State, a: Action): Option<State> {
    match a
    case Admit(e, isImportant) => if s.lock.Free? then Some(DoAdmit(s, e, isImportant)) else None
    case Send =>
      if s.lock.Sending? && |s.queue| < QUEUE_CAPACITY && !s.isClosed then Some(s.(queue := s.queue + [s.lock.event], lock := Free)) else None
    case TakeFirst =>
      if s.worker.Ready? && s.queue != [] then Some(s.(worker := Collecting([s.queue[0]]), queue := s.queue[1..])) else None
    case TakeMore =>
      if s.worker.Collecting? && |s.worker.batch| < BATCH_SIZE && s.queue != [] then
        Some(s.(worker := Collecting(s.worker.batch + [s.queue[0]]), queue := s.queue[1..]))
      else None
    case StopCollecting(timerFired) =>
      if s.worker.Collecting? && (|s.worker.batch| >= BATCH_SIZE || timerFired || (s.isClosed && s.queue == [])) then
        Some(s.(worker := Waiting(s.worker.batch)))
      else None
    case WorkerGate => if s.worker.Waiting? && !s.gateTaken then Some(s.(worker := InSink(s.worker.batch), gateTaken := true)) else None
    case WorkerGiveUp => if s.worker.Waiting? then Some(s.(worker := Recording(s.worker.batch, false))) else None
    case WorkerSink(ok) => if s.worker.InSink? then Some(s.(worker := Recording(s.worker.batch, ok), gateTaken := false)) else None
    case WorkerRecord =>
      if s.worker.Recording? && s.lock.Free? then
        Some(if s.worker.ok then s.(worker := Releasing(s.worker.batch), written := s.written + |s.worker.batch|)
             else s.(worker := Releasing(s.worker.batch), failures := s.failures + |s.worker.batch|))
      else None
    case WorkerRelease =>
      if s.worker.Releasing? && s.lock.Free? then Some(s.(worker := Ready, retained := s.retained - Bytes(s.worker.batch))) else None
    case WorkerEnd => if s.worker.Ready? && s.isClosed && s.queue == [] then Some(s.(worker := Ended)) else None
    case SyncGate(i) =>
      if i < |s.syncs| && s.syncs[i].phase.AtGate? && !s.gateTaken then
        Some(s.(syncs := s.syncs[i := s.syncs[i].(phase := AtSink)], gateTaken := true))
      else None
    case SyncGiveUp(i) =>
      if i < |s.syncs| && s.syncs[i].phase.AtGate? then Some(s.(syncs := s.syncs[i := s.syncs[i].(phase := AtRecord(false))])) else None
    case SyncSink(i, ok) =>
      if i < |s.syncs| && s.syncs[i].phase.AtSink? then
        Some(s.(syncs := s.syncs[i := s.syncs[i].(phase := AtRecord(ok))], gateTaken := false))
      else None
    case SyncRecord(i) =>
      if i < |s.syncs| && s.syncs[i].phase.AtRecord? && s.lock.Free? then
        var syncs := s.syncs[i := s.syncs[i].(phase := Returned)];
        Some(if s.syncs[i].phase.ok then s.(syncs := syncs, written := s.written + 1) else s.(syncs := syncs, failures := s.failures + 1))
      else None
    case SyncReturn(i) => if i < |s.syncs| && s.syncs[i].phase.Returned? then Some(s.(syncs := RemoveAt(s.syncs, i))) else None
    case CloseAdmission => if s.closer.Open? && s.lock.Free? then Some(s.(isClosed := true, closer := AwaitWorker)) else None
    case SeeWorkerEnd => if s.closer.AwaitWorker? && s.worker.Ended? then Some(s.(closer := AwaitFallbacks)) else None
    case SeeFallbacksEnd => if s.closer.AwaitFallbacks? && s.syncs == [] then Some(s.(closer := Closed)) else None
  }

  function NextLog(s: State, a: Action, log: Log): Log {
    match a
    case Admit(e, isImportant) =>
      if s.isClosed then log
      else if HasRoom(s, e) || isImportant then log.(accepted := log.accepted + [e])
      else log.(accepted := log.accepted + [e], settled := log.settled + [e])
    case Send => if s.lock.Sending? then log.(sent := log.sent + [s.lock.event]) else log
    case TakeFirst => if s.queue != [] then log.(taken := log.taken + [s.queue[0]]) else log
    case TakeMore => if s.queue != [] then log.(taken := log.taken + [s.queue[0]]) else log
    case WorkerRecord => log.(settled := log.settled + BatchOf(s.worker))
    case SyncRecord(i) => if i < |s.syncs| then log.(settled := log.settled + [s.syncs[i].event]) else log
    case _ => log
  }

  // ---- What every interleaving keeps ----

  /** How often an event occurs in a list. */
  function Count(events: seq<Event>, e: Event): nat {
    if events == [] then 0 else Count(events[..|events| - 1], e) + if events[|events| - 1] == e then 1 else 0
  }

  /** How many synchronous calls carry the event without a recorded outcome. */
  function Unsettled(syncs: seq<SyncCall>, e: Event): nat {
    if syncs == [] then 0 else Unsettled(syncs[..|syncs| - 1], e) + One(syncs[|syncs| - 1], e)
  }

  function One(call: SyncCall, e: Event): nat {
    if call.event == e && !call.phase.Returned? then 1 else 0
  }

  function AtSinkCount(syncs: seq<SyncCall>): nat {
    if syncs == [] then 0
    else AtSinkCount(syncs[..|syncs| - 1]) + if syncs[|syncs| - 1].phase.AtSink? then 1 else 0
  }

  /** How many sink calls are running. */
  function SinkCalls(s: State): nat {
    AtSinkCount(s.syncs) + if s.worker.InSink? then 1 else 0
  }

  function Held(lock: Lock): seq<Event> {
    match lock case Free => [] case Sending(e) => [e]
  }

  /** Events of the worker's batch whose outcome is not recorded yet. */
  function Pending(w: Worker): seq<Event> {
    if w.Releasing? then [] else BatchOf(w)
  }

  /** Admitted and on its way: held by a sender, queued, in the worker's hands, or in a synchronous call. */
  function InFlight(s: State, e: Event): nat {
    Count(Held(s.lock), e) + Count(s.queue, e) + Count(Pending(s.worker), e) + Unsettled(s.syncs, e)
  }

  /** Every admission of the event is settled or still on its way, and counted once. */
  predicate Conserved(s: State, log: Log, e: Event) {
    Count(log.accepted, e) == Count(log.settled, e) + InFlight(s, e)
  }

  predicate Counted(s: State, log: Log) {
    s.written + s.failures + s.dropped == |log.settled|
  }

  /** The worker takes the events in the order they were sent. */
  predicate InOrder(s: State, log: Log) {
    log.sent == log.taken + s.queue
  }

  predicate Accounted(s: State) {
    && s.retained == Bytes(s.queue) + Bytes(Held(s.lock)) + Bytes(BatchOf(s.worker))
    && s.retained <= QUEUE_BYTES
    && |s.queue| <= QUEUE_CAPACITY && |BatchOf(s.worker)| <= BATCH_SIZE
    && (s.lock.Sending? ==> |s.queue| < QUEUE_CAPACITY && !s.isClosed)
  }

  predicate Closing(s: State) {
    && (s.isClosed <==> !s.closer.Open?)
    && (s.worker.Ended? ==> s.isClosed && s.queue == [])
    && (s.closer.AwaitFallbacks? || s.closer.Closed? ==> s.worker.Ended?)
    && (s.closer.Closed? ==> s.syncs == [])
  }

  predicate OneSink(s: State) {
    SinkCalls(s) == if s.gateTaken then 1 else 0
  }

  predicate Sound(s: State, log: Log) {
    Counted(s, log) && InOrder(s, log) && Accounted(s) && Closing(s) && OneSink(s)
  }

  lemma {:induction false} BytesConcat(a: seq<Event>, b: seq<Event>)
    ensures Bytes(a + b) == Bytes(a) + Bytes(b)
    decreases |b|
  {
    if b == [] {
      assert a + b == a;
    } else {
      BytesConcat(a, b[..|b| - 1]);
      assert (a + b)[..|a + b| - 1] == a + b[..|b| - 1];
    }
  }

  lemma {:induction false} CountConcat(a: seq<Event>, b: seq<Event>, e: Event)
    ensures Count(a + b, e) == Count(a, e) + Count(b, e)
    decreases |b|
  {
    if b == [] {
      assert a + b == a;
    } else {
      CountConcat(a, b[..|b| - 1], e);
      assert (a + b)[..|a + b| - 1] == a + b[..|b| - 1];
    }
  }

  lemma CountOne(x: Event, e: Event)
    ensures Count([x], e) == (if x == e then 1 else 0) && Bytes([x]) == x.size
  {
    assert [x][..0] == [];
  }

  lemma HeadMoves(queue: seq<Event>, batch: seq<Event>, e: Event)
    requires queue != []
    ensures Count(queue, e) + Count(batch, e) == Count(queue[1..], e) + Count(batch + [queue[0]], e)
  {
    assert queue == [queue[0]] + queue[1..];
    CountConcat([queue[0]], queue[1..], e);
    CountConcat(batch, [queue[0]], e);
  }

  lemma {:induction false} UpdateCall(syncs: seq<SyncCall>, i: nat, call: SyncCall, e: Event)
    requires i < |syncs|
    ensures Unsettled(syncs[i := call], e) + One(syncs[i], e) == Unsettled(syncs, e) + One(call, e)
    ensures AtSinkCount(syncs[i := call]) + (if syncs[i].phase.AtSink? then 1 else 0) ==
            AtSinkCount(syncs) + if call.phase.AtSink? then 1 else 0
    decreases |syncs|
  {
    UpdateFront(syncs, i, call);
    if i < |syncs| - 1 {
      UpdateCall(syncs[..|syncs| - 1], i, call, e);
    }
  }

  lemma RemoveFront<T>(s: seq<T>, i: nat)
    requires i < |s|
    ensures i < |s| - 1 ==> RemoveAt(s, i)[..|s| - 2] == RemoveAt(s[..|s| - 1], i) && RemoveAt(s, i)[|s| - 2] == s[|s| - 1]
    ensures i == |s| - 1 ==> RemoveAt(s, i) == s[..|s| - 1]
  {
  }

  lemma {:induction false} RemoveCall(syncs: seq<SyncCall>, i: nat, e: Event)
    requires i < |syncs| && syncs[i].phase.Returned?
    ensures Unsettled(RemoveAt(syncs, i), e) == Unsettled(syncs, e) && AtSinkCount(RemoveAt(syncs, i)) == AtSinkCount(syncs)
    decreases |syncs|
  {
    RemoveFront(syncs, i);
    if i < |syncs| - 1 {
      RemoveCall(syncs[..|syncs| - 1], i, e);
    }
  }

  lemma PushCall(syncs: seq<SyncCall>, call: SyncCall, e: Event)
    ensures Unsettled(syncs + [call], e) == Unsettled(syncs, e) + One(call, e)
    ensures AtSinkCount(syncs + [call]) == AtSinkCount(syncs) + if call.phase.AtSink? then 1 else 0
  {
    assert (syncs + [call])[..|syncs|] == syncs;
  }

  // ---- Nothing is lost or counted twice ----

  lemma AdmitConserves(s: State, log: Log, x: Event, isImportant: bool, e: Event)
    requires Conserved(s, log, e) && s.lock.Free?
    ensures Conserved(DoAdmit(s, x, isImportant), NextLog(s, Admit(x, isImportant), log), e)
  {
    if !s.isClosed {
      CountPush(log.accepted, x, e);
      if HasRoom(s, x) {
        CountOne(x, e);
      } else if isImportant {
        PushCall(s.syncs, SyncCall(x, AtGate), e);
      } else {
        CountPush(log.settled, x, e);
      }
    }
  }

  lemma CountPush(events: seq<Event>, x: Event, e: Event)
    ensures Count(events + [x], e) == Count(events, e) + if x == e then 1 else 0
  {
    assert (events + [x])[..|events|] == events;
  }

  lemma SendConserves(s: State, log: Log, e: Event)
    requires Conserved(s, log, e) && Next(s, Send).Some?
    ensures Conserved(Next(s, Send).value, NextLog(s, Send, log), e)
  {
    CountConcat(s.queue, [s.lock.event], e);
  }

  lemma TakeConserves(s: State, next: State, log: Log, e: Event)
    requires Conserved(s, log, e) && s.queue != []
    requires next.queue == s.queue[1..] && next.lock == s.lock && next.syncs == s.syncs
    requires Pending(next.worker) == Pending(s.worker) + [s.queue[0]]
    ensures Conserved(next, log.(taken := log.taken + [s.queue[0]]), e)
  {
    HeadMoves(s.queue, Pending(s.worker), e);
  }

  lemma TakeFirstConserves(s: State, log: Log, e: Event)
    requires Conserved(s, log, e) && Next(s, TakeFirst).Some?
    ensures Conserved(Next(s, TakeFirst).value, NextLog(s, TakeFirst, log), e)
  {
    assert Pending(s.worker) + [s.queue[0]] == [s.queue[0]];
    TakeConserves(s, Next(s, TakeFirst).value, log, e);
  }

  lemma TakeMoreConserves(s: State, log: Log, e: Event)
    requires Conserved(s, log, e) && Next(s, TakeMore).Some?
    ensures Conserved(Next(s, TakeMore).value, NextLog(s, TakeMore, log), e)
  {
    TakeConserves(s, Next(s, TakeMore).value, log, e);
  }

  /** A batch is settled: only the worker's state changes. */
  lemma SettleConserves(s: State, next: State, log: Log, batch: seq<Event>, e: Event)
    requires Conserved(s, log, e)
    requires next.lock == s.lock && next.queue == s.queue && next.syncs == s.syncs
    requires Pending(s.worker) == batch && Pending(next.worker) == []
    ensures Conserved(next, log.(settled := log.settled + batch), e)
  {
    CountConcat(log.settled, batch, e);
  }

  lemma RecordConserves(s: State, log: Log, e: Event)
    requires Conserved(s, log, e) && Next(s, WorkerRecord).Some?
    ensures Conserved(Next(s, WorkerRecord).value, NextLog(s, WorkerRecord, log), e)
  {
    SettleConserves(s, Next(s, WorkerRecord).value, log, BatchOf(s.worker), e);
  }

  predicate IsSync(a: Action) {
    a.SyncGate? || a.SyncGiveUp? || a.SyncSink? || a.SyncRecord?
  }

  /** A synchronous call moves on: only its phase changes. */
  lemma PhaseConserves(s: State, next: State, log: Log, i: nat, phase: Phase, e: Event)
    requires Conserved(s, log, e) && i < |s.syncs| && !s.syncs[i].phase.Returned?
    requires next.lock == s.lock && next.queue == s.queue && next.worker == s.worker
    requires next.syncs == s.syncs[i := s.syncs[i].(phase := phase)]
    ensures Conserved(next, if phase.Returned? then log.(settled := log.settled + [s.syncs[i].event]) else log, e)
  {
    UpdateCall(s.syncs, i, s.syncs[i].(phase := phase), e);
    CountPush(log.settled, s.syncs[i].event, e);
  }

  lemma SyncConserves(s: State, log: Log, a: Action, e: Event)
    requires Conserved(s, log, e) && Next(s, a).Some? && IsSync(a)
    ensures Conserved(Next(s, a).value, NextLog(s, a, log), e)
  {
    PhaseConserves(s, Next(s, a).value, log, a.call, NextPhase(a), e);
  }

  function NextPhase(a: Action): Phase
    requires IsSync(a)
  {
    match a
    case SyncGate(_) => AtSink
    case SyncGiveUp(_) => AtRecord(false)
    case SyncSink(_, ok) => AtRecord(ok)
    case SyncRecord(_) => Returned
  }

  /** Steps that neither admit, move nor settle an event. */
  predicate MovesNoEvent(a: Action) {
    MovesNothing(a) && !a.WorkerRecord? && !IsSync(a) && !a.SyncReturn?
  }

  lemma QuietConserves(s: State, log: Log, a: Action, e: Event)
    requires Conserved(s, log, e) && Next(s, a).Some?
    requires MovesNoEvent(a) || a.WorkerRelease? || a.CloseAdmission?
    ensures Conserved(Next(s, a).value, NextLog(s, a, log), e)
  {
    var next := Next(s, a).value;
    assert next.lock == s.lock && next.queue == s.queue && next.syncs == s.syncs && NextLog(s, a, log) == log;
    assert Pending(next.worker) == Pending(s.worker);
  }

  /** Every step keeps each admitted event accounted for. */
  lemma StepConserves(s: State, log: Log, a: Action, e: Event)
    requires Conserved(s, log, e) && Next(s, a).Some?
    ensures Conserved(Next(s, a).value, NextLog(s, a, log), e)
  {
    if IsSync(a) {
      SyncConserves(s, log, a, e);
    } else {
      match a
      case Admit(x, isImportant) => AdmitConserves(s, log, x, isImportant, e);
      case Send => SendConserves(s, log, e);
      case TakeFirst => TakeFirstConserves(s, log, e);
      case TakeMore => TakeMoreConserves(s, log, e);
      case WorkerRecord => RecordConserves(s, log, e);
      case SyncReturn(i) => ReturnConserves(s, log, i, e);
      case _ => QuietConserves(s, log, a, e);
    }
  }

  lemma ReturnConserves(s: State, log: Log, i: nat, e: Event)
    requires Conserved(s, log, e) && Next(s, SyncReturn(i)).Some?
    ensures Conserved(Next(s, SyncReturn(i)).value, NextLog(s, SyncReturn(i), log), e)
  {
    RemoveCall(s.syncs, i, e);
  }

  // ---- Counters, order, bytes, closing and the gate ----

  lemma StepCounts(s: State, log: Log, a: Action)
    requires Counted(s, log) && Next(s, a).Some?
    ensures Counted(Next(s, a).value, NextLog(s, a, log))
  {
  }

  lemma StepKeepsOrder(s: State, log: Log, a: Action)
    requires InOrder(s, log) && Next(s, a).Some?
    ensures InOrder(Next(s, a).value, NextLog(s, a, log))
  {
    match a
    case Send => assert log.sent + [s.lock.event] == log.taken + (s.queue + [s.lock.event]);
    case TakeFirst => assert log.taken + s.queue == log.taken + [s.queue[0]] + s.queue[1..];
    case TakeMore => assert log.taken + s.queue == log.taken + [s.queue[0]] + s.queue[1..];
    case _ =>
  }

  lemma HeadBytes(queue: seq<Event>, batch: seq<Event>)
    requires queue != []
    ensures Bytes(queue) + Bytes(batch) == Bytes(queue[1..]) + Bytes(batch + [queue[0]])
  {
    assert queue == [queue[0]] + queue[1..];
    BytesConcat([queue[0]], queue[1..]);
    BytesConcat(batch, [queue[0]]);
  }

  lemma SendAccounts(s: State)
    requires Accounted(s) && Next(s, Send).Some?
    ensures Accounted(Next(s, Send).value)
  {
    BytesConcat(s.queue, [s.lock.event]);
  }

  /** The worker takes the first event of the queue. */
  lemma TakeAccounts(s: State, next: State)
    requires Accounted(s) && s.queue != [] && |BatchOf(s.worker)| < BATCH_SIZE
    requires next.queue == s.queue[1..] && next.lock == s.lock && next.retained == s.retained && next.isClosed == s.isClosed
    requires BatchOf(next.worker) == BatchOf(s.worker) + [s.queue[0]]
    ensures Accounted(next)
  {
    HeadBytes(s.queue, BatchOf(s.worker));
  }

  lemma TakeFirstAccounts(s: State)
    requires Accounted(s) && Next(s, TakeFirst).Some?
    ensures Accounted(Next(s, TakeFirst).value)
  {
    assert BatchOf(s.worker) + [s.queue[0]] == [s.queue[0]];
    TakeAccounts(s, Next(s, TakeFirst).value);
  }

  lemma TakeMoreAccounts(s: State)
    requires Accounted(s) && Next(s, TakeMore).Some?
    ensures Accounted(Next(s, TakeMore).value)
  {
    TakeAccounts(s, Next(s, TakeMore).value);
  }

  lemma AdmitAccounts(s: State, e: Event, isImportant: bool)
    requires Accounted(s) && s.lock.Free?
    ensures Accounted(DoAdmit(s, e, isImportant))
  {
    CountOne(e, e);
  }

  /** Steps that move no bytes: the worker keeps its batch, or there is none. */
  predicate MovesNothing(a: Action) {
    !a.Admit? && !a.Send? && !a.TakeFirst? && !a.TakeMore? && !a.WorkerRelease? && !a.CloseAdmission?
  }

  lemma QuietAccounts(s: State, a: Action)
    requires Accounted(s) && Next(s, a).Some? && MovesNothing(a)
    ensures Accounted(Next(s, a).value)
  {
    var next := Next(s, a).value;
    assert next.queue == s.queue && next.lock == s.lock && next.retained == s.retained && next.isClosed == s.isClosed;
    assert BatchOf(next.worker) == BatchOf(s.worker);
  }

  lemma StepAccounts(s: State, a: Action)
    requires Accounted(s) && Next(s, a).Some?
    ensures Accounted(Next(s, a).value)
  {
    if MovesNothing(a) {
      QuietAccounts(s, a);
    } else {
      match a
      case Admit(e, isImportant) => AdmitAccounts(s, e, isImportant);
      case Send => SendAccounts(s);
      case TakeFirst => TakeFirstAccounts(s);
      case TakeMore => TakeMoreAccounts(s);
      case _ =>
    }
  }

  lemma StepCloses(s: State, a: Action)
    requires Closing(s) && Accounted(s) && Next(s, a).Some?
    ensures Closing(Next(s, a).value)
  {
  }

  /** A synchronous call moves on and takes or leaves the gate accordingly. */
  lemma PhaseKeepsOneSink(s: State, next: State, i: nat, phase: Phase)
    requires OneSink(s) && i < |s.syncs| && next.worker == s.worker
    requires next.syncs == s.syncs[i := s.syncs[i].(phase := phase)]
    requires
      (if next.gateTaken then 1 else 0) + (if s.syncs[i].phase.AtSink? then 1 else 0) ==
      (if s.gateTaken then 1 else 0) + if phase.AtSink? then 1 else 0
    ensures OneSink(next)
  {
    UpdateCall(s.syncs, i, s.syncs[i].(phase := phase), Event(0, 0));
  }

  lemma SinkHoldsTheGate(syncs: seq<SyncCall>, i: nat)
    requires i < |syncs| && syncs[i].phase.AtSink?
    ensures AtSinkCount(syncs) >= 1
    decreases |syncs|
  {
    if i < |syncs| - 1 {
      SinkHoldsTheGate(syncs[..|syncs| - 1], i);
    }
  }

  lemma SyncKeepsOneSink(s: State, a: Action)
    requires OneSink(s) && Next(s, a).Some? && IsSync(a)
    ensures OneSink(Next(s, a).value)
  {
    if a.SyncSink? {
      SinkHoldsTheGate(s.syncs, a.call);
    }
    PhaseKeepsOneSink(s, Next(s, a).value, a.call, NextPhase(a));
  }

  lemma AdmitKeepsOneSink(s: State, e: Event, isImportant: bool)
    requires OneSink(s)
    ensures OneSink(DoAdmit(s, e, isImportant))
  {
    PushCall(s.syncs, SyncCall(e, AtGate), Event(0, 0));
  }

  lemma ReturnKeepsOneSink(s: State, i: nat)
    requires OneSink(s) && Next(s, SyncReturn(i)).Some?
    ensures OneSink(Next(s, SyncReturn(i)).value)
  {
    RemoveCall(s.syncs, i, Event(0, 0));
  }

  /** Every other step leaves the synchronous calls alone. */
  lemma OthersKeepOneSink(s: State, a: Action)
    requires OneSink(s) && Next(s, a).Some? && !IsSync(a) && !a.Admit? && !a.SyncReturn?
    ensures OneSink(Next(s, a).value)
  {
    assert Next(s, a).value.syncs == s.syncs;
  }

  lemma StepKeepsOneSink(s: State, a: Action)
    requires OneSink(s) && Next(s, a).Some?
    ensures OneSink(Next(s, a).value)
  {
    if IsSync(a) {
      SyncKeepsOneSink(s, a);
    } else if a.Admit? {
      AdmitKeepsOneSink(s, a.event, a.isImportant);
    } else if a.SyncReturn? {
      ReturnKeepsOneSink(s, a.call);
    } else {
      OthersKeepOneSink(s, a);
    }
  }

  lemma StepSound(s: State, log: Log, a: Action)
    requires Sound(s, log) && Next(s, a).Some?
    ensures Sound(Next(s, a).value, NextLog(s, a, log))
  {
    StepCounts(s, log, a);
    StepKeepsOrder(s, log, a);
    StepAccounts(s, a);
    StepCloses(s, a);
    StepKeepsOneSink(s, a);
  }

  // ---- Every interleaving ----

  datatype Run = Run(state: State, log: Log)

  /** The state after some steps, or None if one of them could not be taken. */
  function After(actions: seq<Action>): Option<Run> {
    if actions == [] then Some(Run(START, Log([], [], [], [])))
    else
      var last := |actions| - 1;
      match After(actions[..last])
      case None => None
      case Some(before) =>
        match Next(before.state, actions[last])
        case None => None
        case Some(next) => Some(Run(next, NextLog(before.state, actions[last], before.log)))
  }

  lemma {:induction false} EveryRunIsSound(actions: seq<Action>)
    requires After(actions).Some?
    ensures Sound(After(actions).value.state, After(actions).value.log)
    decreases |actions|
  {
    if actions != [] {
      var last := |actions| - 1;
      EveryRunIsSound(actions[..last]);
      var before := After(actions[..last]).value;
      StepSound(before.state, before.log, actions[last]);
    }
  }

  lemma {:induction false} EveryRunConserves(actions: seq<Action>, e: Event)
    requires After(actions).Some?
    ensures Conserved(After(actions).value.state, After(actions).value.log, e)
    decreases |actions|
  {
    if actions != [] {
      var last := |actions| - 1;
      EveryRunConserves(actions[..last], e);
      var before := After(actions[..last]).value;
      StepConserves(before.state, before.log, actions[last], e);
    }
  }

  lemma {:induction false} CountIsMultiplicity(events: seq<Event>, e: Event)
    ensures Count(events, e) == multiset(events)[e]
    decreases |events|
  {
    if events != [] {
      var front := events[..|events| - 1];
      CountIsMultiplicity(front, e);
      assert events == front + [events[|events| - 1]];
    }
  }

  /** Main result: over all interleavings the retained bytes are those queued, being sent or in the worker's batch and
      stay within the bound; a send under the lock finds room in an open channel; at most one sink call runs; and the
      worker takes events in the order they were sent. */
  lemma EveryInterleavingKeepsTheBounds(actions: seq<Action>)
    requires After(actions).Some?
    ensures
      var s, log := After(actions).value.state, After(actions).value.log;
      && s.retained == Bytes(s.queue) + Bytes(Held(s.lock)) + Bytes(BatchOf(s.worker)) && 0 <= s.retained <= QUEUE_BYTES
      && (s.lock.Sending? ==> |s.queue| < QUEUE_CAPACITY && !s.isClosed && Next(s, Send).Some?)
      && |BatchOf(s.worker)| <= BATCH_SIZE
      && SinkCalls(s) <= 1
      && log.taken <= log.sent
  {
    EveryRunIsSound(actions);
  }

  /** Main result: once Close has returned nothing is queued, no sink runs, and every call that was not refused is
      settled exactly once, as the counters say. */
  lemma CloseSettlesEveryCall(actions: seq<Action>)
    requires After(actions).Some? && After(actions).value.state.closer.Closed?
    ensures
      var s, log := After(actions).value.state, After(actions).value.log;
      && s.queue == [] && s.worker.Ended? && s.syncs == [] && !s.gateTaken && SinkCalls(s) == 0 && s.retained == 0
      && multiset(log.accepted) == multiset(log.settled)
      && s.written + s.failures + s.dropped == |log.accepted|
  {
    EveryRunIsSound(actions);
    var s, log := After(actions).value.state, After(actions).value.log;
    forall e: Event
      ensures multiset(log.accepted)[e] == multiset(log.settled)[e]
    {
      EveryRunConserves(actions, e);
      CountIsMultiplicity(log.accepted, e);
      CountIsMultiplicity(log.settled, e);
    }
    assert multiset(log.accepted) == multiset(log.settled);
    assert |multiset(log.accepted)| == |log.accepted| && |multiset(log.settled)| == |log.settled|;
  }

  /** Nothing is left to do, and nothing new can begin. */
  predicate AtRest(s: State) {
    s.isClosed && s.closer.Closed? && s.worker.Ended? && s.queue == [] && s.syncs == [] && s.lock.Free?
  }

  lemma AtRestRefuses(s: State, log: Log, a: Action)
    requires AtRest(s)
    ensures Next(s, a).Some? ==> a.Admit? && Next(s, a).value == s && NextLog(s, a, log) == log
  {
  }

  lemma ClosedIsAtRest(s: State)
    requires Accounted(s) && Closing(s) && s.closer.Closed?
    ensures AtRest(s)
  {
  }

  /** After Close has returned only refused calls remain possible: nothing changes any more. */
  lemma ClosedIsFinal(actions: seq<Action>, a: Action)
    requires After(actions).Some? && After(actions).value.state.closer.Closed?
    ensures
      var s, log := After(actions).value.state, After(actions).value.log;
      Next(s, a).Some? ==> a.Admit? && Next(s, a).value == s && NextLog(s, a, log) == log
  {
    var r := After(actions).value;
    EveryRunIsSound(actions);
    ClosedIsAtRest(r.state);
    AtRestRefuses(r.state, r.log, a);
  }

  /** A step that the closing writer can take. */
  function ClosingStep(s: State): Action {
    match s.worker
    case Ready => if s.queue == [] then WorkerEnd else TakeFirst
    case Collecting(_) => StopCollecting(true)
    case Waiting(_) => WorkerGiveUp
    case InSink(_) => WorkerSink(false)
    case Recording(_, _) => WorkerRecord
    case Releasing(_) => WorkerRelease
    case Ended =>
      if s.closer.AwaitWorker? then SeeWorkerEnd
      else if s.syncs == [] then SeeFallbacksEnd
      else
        match s.syncs[0].phase
        case AtGate => SyncGiveUp(0)
        case AtSink => SyncSink(0, false)
        case AtRecord(_) => SyncRecord(0)
        case Returned => SyncReturn(0)
  }

  lemma ClosingStepIsEnabled(s: State)
    requires Accounted(s) && Closing(s) && s.isClosed && !s.closer.Closed?
    ensures Next(s, ClosingStep(s)).Some?
  {
    assert s.lock.Free?;
    if s.worker.Ended? && !s.closer.AwaitWorker? {
      assert s.closer.AwaitFallbacks?;
    }
  }

  /** Close never waits for something that cannot happen: until it returns, some thread can move. */
  lemma CloseIsNeverStuck(actions: seq<Action>)
    requires After(actions).Some? && After(actions).value.state.isClosed && !After(actions).value.state.closer.Closed?
    ensures Next(After(actions).value.state, ClosingStep(After(actions).value.state)).Some?
  {
    EveryRunIsSound(actions);
    ClosingStepIsEnabled(After(actions).value.state);
  }

  function WorkerLeft(w: Worker): nat {
    match w
    case Collecting(_) => 6
    case Waiting(_) => 5
    case InSink(_) => 4
    case Recording(_, _) => 3
    case Releasing(_) => 2
    case Ready => 1
    case Ended => 0
  }

  function CloserLeft(c: Closer): nat {
    match c case Open => 3 case AwaitWorker => 2 case AwaitFallbacks => 1 case Closed => 0
  }

  function CallLeft(phase: Phase): nat {
    match phase case AtGate => 3 case AtSink => 2 case AtRecord(_) => 1 case Returned => 0
  }

  /** How many steps the first synchronous call still has before it. */
  function FirstLeft(syncs: seq<SyncCall>): nat {
    if syncs == [] then 0 else CallLeft(syncs[0].phase)
  }

  /** The closing writer is nearer its end. */
  predicate Nearer(next: State, s: State) {
    || |next.queue| < |s.queue|
    || (|next.queue| == |s.queue| && WorkerLeft(next.worker) < WorkerLeft(s.worker))
    || (|next.queue| == |s.queue| && next.worker == s.worker && CloserLeft(next.closer) < CloserLeft(s.closer))
    || (|next.queue| == |s.queue| && next.worker == s.worker && next.closer == s.closer &&
        (|next.syncs| < |s.syncs| || (|next.syncs| == |s.syncs| && FirstLeft(next.syncs) < FirstLeft(s.syncs))))
  }

  /** Steps of the threads that are already there: no new call, no new close. */
  predicate FinishesWork(a: Action) {
    !a.Admit? && !a.CloseAdmission?
  }

  lemma ClosingStepIsNearer(s: State)
    requires s.isClosed && !s.closer.Closed? && Next(s, ClosingStep(s)).Some?
    ensures Nearer(Next(s, ClosingStep(s)).value, s) && FinishesWork(ClosingStep(s))
    ensures Next(s, ClosingStep(s)).value.isClosed
  {
  }

  lemma OneMore(actions: seq<Action>, a: Action)
    requires After(actions).Some? && Next(After(actions).value.state, a).Some?
    ensures After(actions + [a]).Some?
    ensures After(actions + [a]).value.state == Next(After(actions).value.state, a).value
  {
    assert (actions + [a])[..|actions|] == actions;
  }

  predicate Reaches(actions: seq<Action>, s: State) {
    After(actions).Some? && After(actions).value.state == s
  }

  /** The next step towards the return of Close. */
  lemma OneStepNearer(actions: seq<Action>, s: State)
    requires Reaches(actions, s) && s.isClosed && !s.closer.Closed?
    ensures FinishesWork(ClosingStep(s)) && Next(s, ClosingStep(s)).Some?
    ensures Reaches(actions + [ClosingStep(s)], Next(s, ClosingStep(s)).value)
    ensures Next(s, ClosingStep(s)).value.isClosed && Nearer(Next(s, ClosingStep(s)).value, s)
  {
    CloseIsNeverStuck(actions);
    ClosingStepIsNearer(s);
    OneMore(actions, ClosingStep(s));
  }

  lemma OneBefore(actions: seq<Action>, a: Action, more: seq<Action>)
    ensures actions + ([a] + more) == actions + [a] + more && forall b | b in [a] + more :: b == a || b in more
  {
  }

  lemma {:induction false} FinishFrom(actions: seq<Action>, s: State) returns (more: seq<Action>, end: State)
    requires Reaches(actions, s) && s.isClosed
    ensures forall a | a in more :: FinishesWork(a)
    ensures Reaches(actions + more, end) && end.closer.Closed?
    decreases |s.queue|, WorkerLeft(s.worker), CloserLeft(s.closer), |s.syncs|, FirstLeft(s.syncs)
  {
    if s.closer.Closed? {
      more, end := [], s;
      assert actions + more == actions;
    } else {
      OneStepNearer(actions, s);
      var a, next := ClosingStep(s), Next(s, ClosingStep(s)).value;
      more, end := FinishFrom(actions + [a], next);
      OneBefore(actions, a, more);
      more := [a] + more;
    }
  }

  /** Main result: Close can always return. From any reachable state in which it has begun, the threads already there
      have steps, without any further call, after which it has returned. */
  lemma CloseCanFinish(actions: seq<Action>) returns (more: seq<Action>)
    requires After(actions).Some? && After(actions).value.state.isClosed
    ensures forall a | a in more :: FinishesWork(a)
    ensures After(actions + more).Some? && After(actions + more).value.state.closer.Closed?
  {
    var end: State;
    more, end := FinishFrom(actions, After(actions).value.state);
  }

  // ---- The critical sections as they run ----

  datatype Verdict = Refused | Queued | Dropped | MustWrite

  class Writer {
    var queue: seq<Event>
    var isClosed: bool
    var retained: int
    var written: nat
    var failures: nat
    var dropped: nat
    var synchronous: nat

    /** The shared fields, with the threads' own state given. */
    function View(lock: Lock, worker: Worker, syncs: seq<SyncCall>, gateTaken: bool, closer: Closer): State
      reads this
    {
      State(queue, lock, worker, syncs, gateTaken, isClosed, closer, retained, written, failures, dropped, synchronous)
    }

    constructor ()
      ensures View(Free, Ready, [], false, Open) == START
    {
      queue, isClosed, retained, written, failures, dropped, synchronous := [], false, 0, 0, 0, 0, 0;
    }

    /** The section of Enqueue under the lock: admission and send together. */
    method Enqueue(e: Event, isImportant: bool) returns (verdict: Verdict)
      modifies this
      ensures
        var admitted := DoAdmit(old(View(Free, Ready, [], false, Open)), e, isImportant);
        match verdict
        case Queued => Some(View(Free, Ready, [], false, Open)) == Next(admitted, Send)
        case MustWrite => View(Free, Ready, [SyncCall(e, AtGate)], false, Open) == admitted
        case Refused => View(Free, Ready, [], false, Open) == admitted && old(isClosed)
        case Dropped => View(Free, Ready, [], false, Open) == admitted && !old(isClosed) && !isImportant
    {
      if isClosed {
        return Refused;
      }
      if |queue| < QUEUE_CAPACITY && e.size <= QUEUE_BYTES - retained {
        retained := retained + e.size;
        queue := queue + [e];
        return Queued;
      }
      if !isImportant {
        dropped := dropped + 1;
        return Dropped;
      }
      synchronous := synchronous + 1;
      verdict := MustWrite;
    }

    /** One pass of the worker's collecting loop: `ticks` is how many more events arrive before the timer fires. */
    method CollectBatch(ticks: nat) returns (batch: seq<Event>)
      requires queue != []
      modifies this`queue
      ensures 1 <= |batch| <= BATCH_SIZE && old(queue) == batch + queue
      ensures |batch| == BATCH_SIZE || |batch| == 1 + ticks || queue == []
    {
      batch := [queue[0]];
      queue := queue[1..];
      var left := ticks;
      while |batch| < BATCH_SIZE && left > 0 && |queue| > 0
        invariant 1 <= |batch| <= BATCH_SIZE && old(queue) == batch + queue
        invariant |batch| + left == 1 + ticks
      {
        batch, queue := batch + [queue[0]], queue[1..];
        left := left - 1;
      }
    }

    /** The section of write that settles a batch. */
    method RecordWrite(batch: seq<Event>, ok: bool)
      modifies this`written, this`failures
      ensures forall syncs, gateTaken, closer ::
        Some(View(Free, Releasing(batch), syncs, gateTaken, closer)) ==
        Next(old(View(Free, Recording(batch, ok), syncs, gateTaken, closer)), WorkerRecord)
    {
      if ok {
        written := written + |batch|;
      } else {
        failures := failures + |batch|;
      }
    }

    /** Gives the batch's bytes back, event by event. */
    method ReleaseBatch(batch: seq<Event>)
      modifies this`retained
      ensures forall syncs, gateTaken, closer ::
        Some(View(Free, Ready, syncs, gateTaken, closer)) ==
        Next(old(View(Free, Releasing(batch), syncs, gateTaken, closer)), WorkerRelease)
    {
      for i := 0 to |batch|
        invariant retained == old(retained) - Bytes(batch[..i])
      {
        assert batch[..i + 1][..i] == batch[..i];
        retained := retained - batch[i].size;
      }
      assert batch[..|batch|] == batch;
    }
  }
}
