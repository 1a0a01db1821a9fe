/** The guard that gives a session to one turn at a time: begin, end, stop and shutdown as atomic steps of their threads,
    in any interleaving. A step is one section under the lock, one channel close, or one wake-up. */
module TurnGuard {
  import opened Options

  /** A turn holds its session while Active. Then it leaves the table, closes its done channel, closes its events. */
  datatype Phase = Active | Released | Signalled | Ended

  datatype Turn = Turn(session: string, phase: Phase, isStopped: bool, isCancelled: bool)

  datatype StopPhase = Found | Marked | Returned(drained: bool)

  datatype StopCall = StopCall(turn: nat, phase: StopPhase)

  datatype Outcome = Pending | Finished | Expired

  /** A shutdown waits for the turns it found, in the order the table yielded them. */
  datatype ShutdownCall = ShutdownCall(waiting: seq<nat>, seen: nat, outcome: Outcome)

  datatype State = State(
    isClosed: bool, running: map<string, nat>, turns: seq<Turn>, stops: seq<StopCall>, shutdowns: seq<ShutdownCall>)

  const START := State(false, map[], [], [], [])

  datatype Action =
    | Begin(session: string)
    | Leave(turn: nat)
    | Signal(turn: nat)
    | CloseEvents(turn: nat)
    | LookUp(session: string)
    | Mark(stop: nat)
    | Wake(stop: nat, drained: bool)
    | CloseEngine(order: seq<nat>)
    | SeeDone(shutdown: nat)
    | Finish(shutdown: nat)
    | Expire(shutdown: nat)

  datatype Refusal = EngineClosed | SessionRunning

  /** Why a turn cannot begin, if anything stands against it. */
  function RefusalOf(s: State, session: string): Option<Refusal> {
    if s.isClosed then Some(EngineClosed)
    else if session in s.running then Some(SessionRunning)
    else None
  }

  function DoBegin(s: State, session: string): State {
    if RefusalOf(s, session).Some? then s
    else s.(running := s.running[session := |s.turns|], turns := s.turns + [Turn(session, Active, false, false)])
  }

  /** The end of a turn deletes whatever the table holds for the session; it never compares the handle. */
  function DoLeave(s: State, t: nat): State
    requires t < |s.turns|
  {
    s.(running := s.running - {s.turns[t].session}, turns := s.turns[t := s.turns[t].(phase := Released, isCancelled := true)])
  }

  function DoMark(turns: seq<Turn>, t: nat): seq<Turn>
    requires t < |turns|
  {
    turns[t := turns[t].(isStopped := true, isCancelled := true)]
  }

  /** An order in which the table may yield its handles. */
  predicate Lists(order: seq<nat>, running: map<string, nat>) {
    && (forall i, j :: 0 <= i < j < |order| ==> order[i] != order[j])
    && (forall t :: t in order ==> t in running.Values)
    && (forall t :: t in running.Values ==> t in order)
  }

  predicate Names(order: seq<nat>, turns: seq<Turn>) {
    forall i :: 0 <= i < |order| ==> order[i] < |turns|
  }

  function MarkAll(turns: seq<Turn>, order: seq<nat>): (r: seq<Turn>)
    requires Names(order, turns)
    ensures |r| == |turns|
  {
    if order == [] then turns else DoMark(MarkAll(turns, order[..|order| - 1]), order[|order| - 1])
  }

  function DoCloseEngine(s: State, order: seq<nat>): State
    requires Names(order, s.turns)
  {
    s.(isClosed := true, turns := MarkAll(s.turns, order), shutdowns := s.shutdowns + [ShutdownCall(order, 0, Pending)])
  }

  predicate DoneIn(turns: seq<Turn>, t: nat) {
    t < |turns| && (turns[t].phase.Signalled? || turns[t].phase.Ended?)
  }

  predicate Enabled(s: State, a: Action) {
    match a
    case Begin(_) => true
    case Leave(t) => t < |s.turns| && s.turns[t].phase.Active?
    case Signal(t) => t < |s.turns| && s.turns[t].phase.Released?
    case CloseEvents(t) => t < |s.turns| && s.turns[t].phase.Signalled?
    case LookUp(_) => true
    case Mark(i) => i < |s.stops| && s.stops[i].phase.Found? && s.stops[i].turn < |s.turns|
    case Wake(i, drained) => i < |s.stops| && s.stops[i].phase.Marked? && (drained ==> DoneIn(s.turns, s.stops[i].turn))
    case CloseEngine(order) => Lists(order, s.running) && Names(order, s.turns)
    case SeeDone(k) =>
      k < |s.shutdowns| && s.shutdowns[k].outcome.Pending? && s.shutdowns[k].seen < |s.shutdowns[k].waiting|
      && DoneIn(s.turns, s.shutdowns[k].waiting[s.shutdowns[k].seen])
    case Finish(k) =>
      k < |s.shutdowns| && s.shutdowns[k].outcome.Pending? && s.shutdowns[k].seen == |s.shutdowns[k].waiting|
    case Expire(k) =>
      k < |s.shutdowns| && s.shutdowns[k].outcome.Pending? && s.shutdowns[k].seen < |s.shutdowns[k].waiting|
  }

  function Do(s: State, a: Action): State
    requires Enabled(s, a)
  {
    match a
    case Begin(session) => DoBegin(s, session)
    case Leave(t) => DoLeave(s, t)
    case Signal(t) => s.(turns := s.turns[t := s.turns[t].(phase := Signalled)])
    case CloseEvents(t) => s.(turns := s.turns[t := s.turns[t].(phase := Ended)])
    case LookUp(session) =>
      if session in s.running then s.(stops := s.stops + [StopCall(s.running[session], Found)]) else s
    case Mark(i) =>
      s.(turns := DoMark(s.turns, s.stops[i].turn), stops := s.stops[i := s.stops[i].(phase := Marked)])
    case Wake(i, drained) => s.(stops := s.stops[i := s.stops[i].(phase := Returned(drained))])
    case CloseEngine(order) => DoCloseEngine(s, order)
    case SeeDone(k) => s.(shutdowns := s.shutdowns[k := s.shutdowns[k].(seen := s.shutdowns[k].seen + 1)])
    case Finish(k) => s.(shutdowns := s.shutdowns[k := s.shutdowns[k].(outcome := Finished)])
    case Expire(k) => s.(shutdowns := s.shutdowns[k := s.shutdowns[k].(outcome := Expired)])
  }

  predicate CanRun(s: State, actions: seq<Action>)
    decreases |actions|, 0
  {
    actions == [] ||
    (CanRun(s, actions[..|actions| - 1])
     && Enabled(Run(s, actions[..|actions| - 1]), actions[|actions| - 1]))
  }

  function Run(s: State, actions: seq<Action>): State
    requires CanRun(s, actions)
    decreases |actions|, 1
  {
    if actions == [] then s else Do(Run(s, actions[..|actions| - 1]), actions[|actions| - 1])
  }

  predicate InTable(running: map<string, nat>, turns: seq<Turn>, k: string)
    requires k in running
  {
    running[k] < |turns| && turns[running[k]].session == k && turns[running[k]].phase.Active?
  }

  predicate Holds(running: map<string, nat>, turns: seq<Turn>, t: nat)
    requires t < |turns|
  {
    turns[t].session in running && running[turns[t].session] == t
  }

  /** The table and the active turns are the same thing seen from both sides. */
  predicate TableSound(running: map<string, nat>, turns: seq<Turn>) {
    && (forall k {:trigger InTable(running, turns, k)} | k in running :: InTable(running, turns, k))
    && (forall t {:trigger Holds(running, turns, t)} | 0 <= t < |turns| ::
      turns[t].phase.Active? ==> Holds(running, turns, t))
  }

  /** A shutdown has found every turn that is still active, and has passed only finished ones. */
  predicate ShutdownSound(turns: seq<Turn>, c: ShutdownCall) {
    && c.seen <= |c.waiting|
    && (forall t :: t in c.waiting ==> t < |turns| && turns[t].isStopped && turns[t].isCancelled)
    && (forall j :: 0 <= j < c.seen ==> DoneIn(turns, c.waiting[j]))
    && (forall t :: 0 <= t < |turns| && turns[t].phase.Active? ==> t in c.waiting)
    && (c.outcome.Finished? ==> c.seen == |c.waiting|)
  }

  predicate StopSound(turns: seq<Turn>, c: StopCall) {
    && c.turn < |turns|
    && (!c.phase.Found? ==> turns[c.turn].isStopped && turns[c.turn].isCancelled)
    && (c.phase == Returned(true) ==> DoneIn(turns, c.turn))
  }

  predicate Sound(s: State) {
    && TableSound(s.running, s.turns)
    && (forall k {:trigger s.shutdowns[k]} | 0 <= k < |s.shutdowns| :: ShutdownSound(s.turns, s.shutdowns[k]))
    && (forall i {:trigger s.stops[i]} | 0 <= i < |s.stops| :: StopSound(s.turns, s.stops[i]))
    && (s.shutdowns != [] ==> s.isClosed)
  }

  function Rank(p: Phase): nat {
    match p case Active => 0 case Released => 1 case Signalled => 2 case Ended => 3
  }

  predicate Evolved(a: Turn, b: Turn) {
    a.session == b.session && Rank(a.phase) <= Rank(b.phase) && (a.isStopped ==> b.isStopped) && (a.isCancelled ==> b.isCancelled)
  }

  /** How the turns of a later state extend those of an earlier one. */
  predicate Evolves(turns: seq<Turn>, next: seq<Turn>) {
    |turns| <= |next| && forall t {:trigger next[t]} | 0 <= t < |turns| :: Evolved(turns[t], next[t])
  }

  lemma {:induction false} MarksThoseListed(turns: seq<Turn>, order: seq<nat>, t: nat)
    requires Names(order, turns)
    requires t < |turns|
    ensures MarkAll(turns, order)[t] == if t in order then turns[t].(isStopped := true, isCancelled := true) else turns[t]
    decreases |order|
  {
    if order != [] {
      var front := order[..|order| - 1];
      assert order == front + [order[|order| - 1]];
      MarksThoseListed(turns, front, t);
    }
  }

  lemma StepEvolves(s: State, a: Action)
    requires Enabled(s, a)
    ensures Evolves(s.turns, Do(s, a).turns)
    ensures s.isClosed ==> Do(s, a).isClosed && |Do(s, a).turns| == |s.turns|
  {
    if a.CloseEngine? {
      forall t | 0 <= t < |s.turns| ensures Evolved(s.turns[t], MarkAll(s.turns, a.order)[t]) {
        MarksThoseListed(s.turns, a.order, t);
      }
    }
  }

  lemma ShutdownStaysSound(turns: seq<Turn>, next: seq<Turn>, c: ShutdownCall)
    requires ShutdownSound(turns, c) && Evolves(turns, next) && |turns| == |next|
    ensures ShutdownSound(next, c)
  {
    forall t | 0 <= t < |next| && next[t].phase.Active? ensures t in c.waiting {
      assert Evolved(turns[t], next[t]);
    }
    forall t | t in c.waiting ensures t < |next| && next[t].isStopped && next[t].isCancelled {
      assert Evolved(turns[t], next[t]);
    }
    forall j | 0 <= j < c.seen ensures DoneIn(next, c.waiting[j]) {
      assert DoneIn(turns, c.waiting[j]);
      assert Evolved(turns[c.waiting[j]], next[c.waiting[j]]);
    }
  }

  lemma StopStaysSound(turns: seq<Turn>, next: seq<Turn>, c: StopCall)
    requires StopSound(turns, c) && Evolves(turns, next)
    ensures StopSound(next, c)
  {
    assert Evolved(turns[c.turn], next[c.turn]);
  }

  lemma CallsStaySound(s: State, a: Action)
    requires Sound(s) && Enabled(s, a)
    ensures forall k {:trigger s.shutdowns[k]} | 0 <= k < |s.shutdowns| :: ShutdownSound(Do(s, a).turns, s.shutdowns[k])
    ensures forall i {:trigger s.stops[i]} | 0 <= i < |s.stops| :: StopSound(Do(s, a).turns, s.stops[i])
  {
    StepEvolves(s, a);
    forall k {:trigger s.shutdowns[k]} | 0 <= k < |s.shutdowns| ensures ShutdownSound(Do(s, a).turns, s.shutdowns[k]) {
      ShutdownStaysSound(s.turns, Do(s, a).turns, s.shutdowns[k]);
    }
    forall i {:trigger s.stops[i]} | 0 <= i < |s.stops| ensures StopSound(Do(s, a).turns, s.stops[i]) {
      StopStaysSound(s.turns, Do(s, a).turns, s.stops[i]);
    }
  }

  lemma StepKeepsTable(s: State, a: Action)
    requires Sound(s) && Enabled(s, a)
    ensures TableSound(Do(s, a).running, Do(s, a).turns)
  {
    var n := Do(s, a);
    StepEvolves(s, a);
    if a.CloseEngine? {
      forall t | 0 <= t < |s.turns| ensures n.turns[t].phase == s.turns[t].phase && n.turns[t].session == s.turns[t].session {
        MarksThoseListed(s.turns, a.order, t);
      }
    }
    forall k | k in n.running ensures InTable(n.running, n.turns, k) {
      if k in s.running { assert InTable(s.running, s.turns, k); }
    }
    forall t {:trigger Holds(n.running, n.turns, t)} | 0 <= t < |n.turns|
      ensures n.turns[t].phase.Active? ==> Holds(n.running, n.turns, t)
    {
      if t < |s.turns| && n.turns[t].phase.Active? {
        assert Evolved(s.turns[t], n.turns[t]);
        assert Holds(s.running, s.turns, t);
        if a.Leave? { assert Holds(s.running, s.turns, a.turn); }
      }
    }
  }

  lemma ClosingFindsEveryTurn(s: State, order: seq<nat>)
    requires Sound(s) && Enabled(s, CloseEngine(order))
    ensures ShutdownSound(MarkAll(s.turns, order), ShutdownCall(order, 0, Pending))
  {
    var turns := MarkAll(s.turns, order);
    forall t | 0 <= t < |turns| && turns[t].phase.Active? ensures t in order {
      MarksThoseListed(s.turns, order, t);
      assert Holds(s.running, s.turns, t);
      assert s.running[s.turns[t].session] in s.running.Values;
    }
    forall t | t in order ensures turns[t].isStopped && turns[t].isCancelled {
      MarksThoseListed(s.turns, order, t);
    }
  }

  lemma ShutdownsStaySound(s: State, a: Action)
    requires Sound(s) && Enabled(s, a)
    ensures forall k {:trigger Do(s, a).shutdowns[k]} | 0 <= k < |Do(s, a).shutdowns| ::
        ShutdownSound(Do(s, a).turns, Do(s, a).shutdowns[k])
  {
    CallsStaySound(s, a);
    match a
    case CloseEngine(order) => ClosingFindsEveryTurn(s, order);
    case SeeDone(k) => assert ShutdownSound(s.turns, s.shutdowns[k]);
    case Finish(k) => assert ShutdownSound(s.turns, s.shutdowns[k]);
    case Expire(k) => assert ShutdownSound(s.turns, s.shutdowns[k]);
    case _ => assert Do(s, a).shutdowns == s.shutdowns;
  }

  lemma StopsStaySound(s: State, a: Action)
    requires Sound(s) && Enabled(s, a)
    ensures forall i {:trigger Do(s, a).stops[i]} | 0 <= i < |Do(s, a).stops| :: StopSound(Do(s, a).turns, Do(s, a).stops[i])
  {
    CallsStaySound(s, a);
    match a
    case LookUp(session) => if session in s.running { assert InTable(s.running, s.turns, session); }
    case Mark(i) => assert StopSound(s.turns, s.stops[i]);
    case Wake(i, _) => assert StopSound(s.turns, s.stops[i]);
    case _ => assert Do(s, a).stops == s.stops;
  }

  lemma StepIsSound(s: State, a: Action)
    requires Sound(s) && Enabled(s, a)
    ensures Sound(Do(s, a))
  {
    StepKeepsTable(s, a);
    ShutdownsStaySound(s, a);
    StopsStaySound(s, a);
    StepEvolves(s, a);
    assert Do(s, a).shutdowns == [] || s.shutdowns != [] || a.CloseEngine?;
  }

  lemma {:induction false} EveryRunIsSound(actions: seq<Action>)
    requires CanRun(START, actions)
    ensures Sound(Run(START, actions))
    decreases |actions|
  {
    if actions != [] {
      EveryRunIsSound(actions[..|actions| - 1]);
      StepIsSound(Run(START, actions[..|actions| - 1]), actions[|actions| - 1]);
    }
  }

  lemma TableEntry(s: State, session: string)
    requires Sound(s) && session in s.running
    ensures InTable(s.running, s.turns, session)
  {
  }

  lemma Holder(s: State, t: nat)
    requires Sound(s) && t < |s.turns| && s.turns[t].phase.Active?
    ensures Holds(s.running, s.turns, t)
  {
  }

  lemma PassedAll(turns: seq<Turn>, c: ShutdownCall, t: nat)
    requires ShutdownSound(turns, c) && c.outcome.Finished? && t < |turns|
    ensures !turns[t].phase.Active?
  {
    if t in c.waiting {
      var j :| 0 <= j < |c.waiting| && c.waiting[j] == t;
      assert DoneIn(turns, c.waiting[j]);
    }
  }

  lemma NotDoneWhileListed(s: State, t: nat)
    requires Sound(s) && t < |s.turns| && !s.turns[t].phase.Active?
    ensures t !in s.running.Values
  {
    forall k | k in s.running ensures s.running[k] != t {
      TableEntry(s, k);
    }
  }

  /** Two active turns of one session are the same turn. */
  lemma OneTurnPerSession(actions: seq<Action>, t: nat, u: nat)
    requires CanRun(START, actions)
    requires var turns := Run(START, actions).turns;
      t < |turns| && u < |turns| && turns[t].phase.Active? && turns[u].phase.Active? && turns[t].session == turns[u].session
    ensures t == u
  {
    EveryRunIsSound(actions);
    var s := Run(START, actions);
    assert Holds(s.running, s.turns, t) && Holds(s.running, s.turns, u);
  }

  /** A turn is refused exactly when the engine is closed or another turn of the session is active. */
  lemma BeginNeedsAFreeSession(actions: seq<Action>, session: string)
    requires CanRun(START, actions)
    ensures var s := Run(START, actions);
      RefusalOf(s, session).None? <==> !s.isClosed && forall t :: 0 <= t < |s.turns| && s.turns[t].session == session ==> !s.turns[t].phase.Active?
  {
    EveryRunIsSound(actions);
    var s := Run(START, actions);
    if session in s.running {
      assert InTable(s.running, s.turns, session);
    } else {
      forall t | 0 <= t < |s.turns| && s.turns[t].session == session ensures !s.turns[t].phase.Active? {
        if s.turns[t].phase.Active? { Holder(s, t); }
      }
    }
  }

  /** Once a turn's event stream is closed, its done channel was closed before and it no longer holds the session. */
  lemma EofMeansReleased(actions: seq<Action>, t: nat)
    requires CanRun(START, actions)
    requires t < |Run(START, actions).turns| && Run(START, actions).turns[t].phase.Ended?
    ensures t !in Run(START, actions).running.Values
  {
    EveryRunIsSound(actions);
    NotDoneWhileListed(Run(START, actions), t);
  }

  /** A shutdown that returned without error left no turn behind. */
  lemma FinishedShutdownMeansIdle(actions: seq<Action>, k: nat)
    requires CanRun(START, actions)
    requires k < |Run(START, actions).shutdowns| && Run(START, actions).shutdowns[k].outcome.Finished?
    ensures var s := Run(START, actions);
      s.isClosed && s.running == map[] && forall t :: 0 <= t < |s.turns| ==> !s.turns[t].phase.Active?
  {
    EveryRunIsSound(actions);
    var s := Run(START, actions);
    var c := s.shutdowns[k];
    assert ShutdownSound(s.turns, c);
    forall t | 0 <= t < |s.turns| ensures !s.turns[t].phase.Active? {
      PassedAll(s.turns, c, t);
    }
    if s.running != map[] {
      var key :| key in s.running;
      TableEntry(s, key);
    }
  }

  /** After the engine is closed no run begins another turn, and a finished shutdown stays finished. */
  lemma {:induction false} ClosedEngineBeginsNothing(s: State, more: seq<Action>)
    requires s.isClosed && CanRun(s, more)
    ensures Run(s, more).isClosed && |Run(s, more).turns| == |s.turns|
    ensures |Run(s, more).shutdowns| >= |s.shutdowns|
    ensures forall k :: 0 <= k < |s.shutdowns| && s.shutdowns[k].outcome.Finished? ==> Run(s, more).shutdowns[k] == s.shutdowns[k]
    decreases |more|
  {
    if more != [] {
      ClosedEngineBeginsNothing(s, more[..|more| - 1]);
      StepEvolves(Run(s, more[..|more| - 1]), more[|more| - 1]);
    }
  }

  /** What a stop achieves: the turn it found was told to stop, and a drained stop saw that turn finish. */
  lemma StopReachesItsTurn(actions: seq<Action>, i: nat)
    requires CanRun(START, actions) && i < |Run(START, actions).stops| && Run(START, actions).stops[i].phase.Returned?
    ensures var s := Run(START, actions); var c := s.stops[i];
      c.turn < |s.turns| && s.turns[c.turn].isStopped && (c.phase.drained ==> DoneIn(s.turns, c.turn) && c.turn !in s.running.Values)
  {
    EveryRunIsSound(actions);
    var s := Run(START, actions);
    var c := s.stops[i];
    assert StopSound(s.turns, c);
    if c.phase.drained { NotDoneWhileListed(s, c.turn); }
  }

  /** A stop tells only the turn it found, a shutdown only turns in the table. */
  lemma OnlyCallersStopATurn(s: State, a: Action, t: nat)
    requires Sound(s) && Enabled(s, a) && t < |s.turns|
    requires !s.turns[t].isStopped && Do(s, a).turns[t].isStopped
    ensures (a.Mark? && s.stops[a.stop].turn == t) || (a.CloseEngine? && t in s.running.Values && s.turns[t].phase.Active?)
  {
    if a.CloseEngine? {
      MarksThoseListed(s.turns, a.order, t);
      var k :| k in s.running && s.running[k] == t;
      TableEntry(s, k);
    }
  }

  lemma OneMore(s: State, front: seq<Action>, b: Action)
    requires CanRun(s, front) && Enabled(Run(s, front), b)
    ensures CanRun(s, front + [b]) && Run(s, front + [b]) == Do(Run(s, front), b)
  {
    assert (front + [b])[..|front|] == front;
  }

  lemma Shift(a: Action, more: seq<Action>)
    requires more != []
    ensures [a] + more == [a] + more[..|more| - 1] + [more[|more| - 1]]
  {
  }

  lemma {:induction false} Prepend(s: State, a: Action, more: seq<Action>)
    requires Enabled(s, a) && CanRun(Do(s, a), more)
    ensures CanRun(s, [a] + more) && Run(s, [a] + more) == Run(Do(s, a), more)
    decreases |more|
  {
    if more == [] {
      OneMore(s, [], a);
      assert [] + [a] == [a] + more;
    } else {
      Prepend(s, a, more[..|more| - 1]);
      OneMore(s, [a] + more[..|more| - 1], more[|more| - 1]);
      Shift(a, more);
    }
  }

  /** The next thing a pending shutdown needs: its turn's last steps, or its own. */
  function NextOf(s: State, k: nat): Action
    requires Sound(s) && k < |s.shutdowns|
  {
    var c := s.shutdowns[k];
    assert ShutdownSound(s.turns, c);
    if c.seen == |c.waiting| then Finish(k)
    else
      var t := c.waiting[c.seen];
      assert t in c.waiting;
      match s.turns[t].phase case Active => Leave(t) case Released => Signal(t) case _ => SeeDone(k)
  }

  predicate EndsOrSees(a: Action) {
    a.Leave? || a.Signal? || a.SeeDone? || a.Finish?
  }

  function Left(s: State, k: nat): (nat, nat)
    requires Sound(s) && k < |s.shutdowns|
  {
    var c := s.shutdowns[k];
    assert ShutdownSound(s.turns, c);
    assert c.seen < |c.waiting| ==> c.waiting[c.seen] in c.waiting;
    (|c.waiting| - c.seen, if c.seen == |c.waiting| then 0 else 3 - Rank(s.turns[c.waiting[c.seen]].phase))
  }

  lemma NextProgresses(s: State, k: nat)
    requires Sound(s) && k < |s.shutdowns| && s.shutdowns[k].outcome.Pending?
    ensures Enabled(s, NextOf(s, k)) && EndsOrSees(NextOf(s, k)) && Sound(Do(s, NextOf(s, k)))
    ensures var n := Do(s, NextOf(s, k));
      k < |n.shutdowns| &&
      (n.shutdowns[k].outcome.Finished? ||
       (n.shutdowns[k].outcome.Pending? &&
        (Left(n, k).0 < Left(s, k).0 || (Left(n, k).0 == Left(s, k).0 && Left(n, k).1 < Left(s, k).1))))
  {
    StepIsSound(s, NextOf(s, k));
  }

  /** A shutdown waits for nothing but the ends of turns: from any reachable state, letting the turns it found end
      lets it return without error. */
  lemma {:induction false} ShutdownCanFinish(s: State, k: nat) returns (more: seq<Action>)
    requires Sound(s) && k < |s.shutdowns| && s.shutdowns[k].outcome.Pending?
    ensures CanRun(s, more) && forall i :: 0 <= i < |more| ==> EndsOrSees(more[i])
    ensures k < |Run(s, more).shutdowns| && Run(s, more).shutdowns[k].outcome.Finished?
    decreases Left(s, k).0, Left(s, k).1
  {
    var a := NextOf(s, k);
    NextProgresses(s, k);
    var n := Do(s, a);
    if n.shutdowns[k].outcome.Finished? {
      more := [];
      assert CanRun(n, more) && Run(n, more) == n;
    } else {
      more := ShutdownCanFinish(n, k);
    }
    Prepend(s, a, more);
    more := [a] + more;
  }

  /** The locked sections, on the engine's own fields. Waiting calls are ghost: they live on their callers' stacks. */
  class Guard {
    var isClosed: bool
    var running: map<string, nat>
    var turns: seq<Turn>
    ghost var stops: seq<StopCall>
    ghost var shutdowns: seq<ShutdownCall>

    ghost function Now(): State
      reads this
    {
      State(isClosed, running, turns, stops, shutdowns)
    }

    constructor ()
      ensures Now() == START && Sound(Now())
    {
      isClosed, running, turns, stops, shutdowns := false, map[], [], [], [];
    }

    method BeginTurn(session: string) returns (refusal: Option<Refusal>, turn: nat)
      requires Sound(Now())
      modifies this
      ensures refusal == RefusalOf(old(Now()), session)
      ensures Now() == Do(old(Now()), Begin(session)) && Sound(Now())
      ensures refusal.None? ==> turn < |turns| && turns[turn].phase.Active? && turns[turn].session == session
    {
      StepIsSound(Now(), Begin(session));
      turn := |turns|;
      if isClosed { return Some(EngineClosed), turn; }
      if session in running { return Some(SessionRunning), turn; }
      running := running[session := turn];
      turns := turns + [Turn(session, Active, false, false)];
      return None, turn;
    }

    method EndTurn(t: nat)
      requires Sound(Now()) && t < |turns| && turns[t].phase.Active?
      modifies this
      ensures Now() == Do(Do(old(Now()), Leave(t)), Signal(t)) && Sound(Now())
    {
      StepIsSound(Now(), Leave(t));
      StepIsSound(Do(Now(), Leave(t)), Signal(t));
      running := running - {turns[t].session};
      turns := turns[t := turns[t].(phase := Released, isCancelled := true)];
      turns := turns[t := turns[t].(phase := Signalled)];
    }

    method LookUpTurn(session: string) returns (turn: Option<nat>)
      requires Sound(Now())
      modifies this
      ensures Now() == Do(old(Now()), LookUp(session)) && Sound(Now())
      ensures turn.Some? <==> session in running
      ensures turn.Some? ==> turn.value < |turns| && turns[turn.value].session == session && turns[turn.value].phase.Active?
    {
      StepIsSound(Now(), LookUp(session));
      if session !in running { return None; }
      TableEntry(Now(), session);
      stops := stops + [StopCall(running[session], Found)];
      return Some(running[session]);
    }

    /** Marks every handle in the table, in the order the table yields them. */
    method MarkListed() returns (order: seq<nat>)
      requires Sound(Now())
      modifies this`turns
      ensures Enabled(old(Now()), CloseEngine(order))
      ensures turns == MarkAll(old(turns), order)
    {
      ghost var start := Now();
      order := [];
      var todo := running.Keys;
      while todo != {}
        invariant todo <= running.Keys && Names(order, start.turns)
        invariant turns == MarkAll(start.turns, order)
        invariant Yielded(start, order, todo)
        decreases todo
      {
        var k :| k in todo;
        var t := running[k];
        YieldOne(start, order, todo, k);
        turns := turns[t := turns[t].(isStopped := true, isCancelled := true)];
        order := order + [t];
        todo := todo - {k};
      }
      YieldedAll(start, order);
    }

    /** Closes the engine and marks every handle in the table. */
    method CloseAndMark() returns (order: seq<nat>)
      requires Sound(Now())
      modifies this
      ensures Enabled(old(Now()), CloseEngine(order)) && Now() == Do(old(Now()), CloseEngine(order)) && Sound(Now())
    {
      ghost var start := Now();
      order := MarkListed();
      isClosed := true;
      shutdowns := shutdowns + [ShutdownCall(order, 0, Pending)];
      StepIsSound(start, CloseEngine(order));
    }
  }

  predicate ListedOnce(s: State, todo: set<string>, t: nat)
    requires t < |s.turns|
  {
    s.turns[t].session in s.running && s.turns[t].session !in todo && s.running[s.turns[t].session] == t
  }

  /** The handles yielded so far are, once each, those of the sessions not still to come. */
  predicate Yielded(s: State, order: seq<nat>, todo: set<string>) {
    && (forall i, j :: 0 <= i < j < |order| ==> order[i] != order[j])
    && (forall i :: 0 <= i < |order| ==> order[i] < |s.turns| && ListedOnce(s, todo, order[i]))
    && (forall k :: k in s.running && k !in todo ==> s.running[k] in order)
  }

  lemma YieldOne(s: State, order: seq<nat>, todo: set<string>, k: string)
    requires Sound(s) && Names(order, s.turns) && Yielded(s, order, todo) && k in todo && k in s.running
    ensures s.running[k] < |s.turns|
    ensures Names(order + [s.running[k]], s.turns) && Yielded(s, order + [s.running[k]], todo - {k})
    ensures MarkAll(s.turns, order + [s.running[k]]) == DoMark(MarkAll(s.turns, order), s.running[k])
  {
    TableEntry(s, k);
    var t := s.running[k];
    assert (order + [t])[..|order|] == order;
    forall j | j in s.running && j !in todo - {k} ensures s.running[j] in order + [t] {
      if j != k { assert s.running[j] in order; }
    }
  }

  lemma YieldedAll(s: State, order: seq<nat>)
    requires Sound(s) && Yielded(s, order, {})
    ensures Lists(order, s.running)
  {
  }
}
