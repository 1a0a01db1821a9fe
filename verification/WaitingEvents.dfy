/** The waiting buffer of a converted stream: events stay in order behind an item that must be complete before it can
    be sent, response identity is rewritten on the way, and the closing event may be held back for late usage. */
module WaitingEvents {
  import opened Options
  import opened Sequences

  datatype Kind =
    | ResponseStarted | ItemStarted | ItemDelta | ItemFinished | ResponseFinished | OperationFailed | OperationCancelled | Other

  datatype Response = Response(id: string, model: string, usage: Option<string>)

  datatype Entity = Entity(key: string, isComplete: bool)

  /** `key` is the item's identity or index; `carriesState` says that its item holds continuation state. */
  datatype Event = Event(
    kind: Kind, responseId: string, response: Option<Response>, usage: Option<string>,
    key: string, hasItem: bool, carriesState: bool, entity: Option<Entity>)

  /** The compiled conversion: its delivery rules, its policy on which items wait, and the limits. `needsRecovery` is
      None when that question fails; `size` is the encoded size of an event. */
  datatype Config = Config(
    isActive: bool, hasDeliveryRule: bool, hasAnthropicEnvelope: bool,
    prepare: Response -> Response, ensureIdentity: Response -> Response,
    merge: (Option<string>, string) -> string,
    waits: Event -> bool, needsRecovery: Event -> Option<bool>,
    size: Event -> nat, stateItems: nat, nodes: nat, bufferBytes: nat)

  // ---- Identity ----

  datatype Identity = Identity(started: bool, id: string, model: string, usage: Option<string>)

  function WithId(r: Response, id: string): Response {
    if r.id == "" then r.(id := id) else r
  }

  function ResponseOf(e: Event): Response {
    match e.response
    case None => Response(e.responseId, "", None)
    case Some(r) => WithId(r, e.responseId)
  }

  function Stamp(i: Identity, e: Event): Event {
    if i.id == "" then e
    else
      e.(responseId := i.id,
         response := match e.response case None => None case Some(r) => Some(r.(id := i.id, model := i.model)))
  }

  function RewriteDelivery(c: Config, i: Identity, e: Event): (Identity, Event) {
    if !c.hasDeliveryRule then (i, e)
    else if e.kind.ResponseStarted? then
      var r := c.prepare(ResponseOf(e));
      var next := i.(started := true, id := r.id, model := r.model);
      (next, Stamp(next, e.(response := Some(r))))
    else (i, Stamp(i, e))
  }

  function Merged(c: Config, usage: Option<string>, more: Option<string>): Option<string> {
    match more case None => usage case Some(u) => Some(c.merge(usage, u))
  }

  function RewriteAnthropic(c: Config, i: Identity, e: Event): (Identity, Event) {
    if !c.hasAnthropicEnvelope then (i, e)
    else
      var usage := Merged(c, Merged(c, i.usage, e.usage), match e.response case None => None case Some(r) => r.usage);
      if e.kind.ResponseStarted? then
        var r := c.ensureIdentity(ResponseOf(e)).(usage := usage);
        var next := i.(id := r.id, model := r.model, usage := usage);
        (next, Stamp(next, e.(responseId := r.id, response := Some(r))))
      else
        var next := i.(usage := usage);
        (next, Stamp(next, e))
  }

  function Rewrite(c: Config, i: Identity, e: Event): (Identity, Event) {
    var (delivered, first) := RewriteDelivery(c, i, e);
    RewriteAnthropic(c, delivered, first)
  }

  predicate NeedsStart(c: Config, i: Identity, e: Event) {
    c.hasDeliveryRule && !i.started && (e.kind.ItemStarted? || e.kind.ResponseFinished?)
  }

  function StartFor(e: Event): Event {
    Event(ResponseStarted, e.responseId, None, None, "", false, false, None)
  }

  /** One input as the client should see it: rewritten, behind a start of its own if the stream has none yet. */
  function Expected(c: Config, i: Identity, e: Event): (Identity, seq<Event>) {
    if !c.isActive then (i, [e])
    else if NeedsStart(c, i, e) then
      var (started, start) := Rewrite(c, i, StartFor(e));
      var (next, event) := Rewrite(c, started, e);
      (next, [start, event])
    else
      var (next, event) := Rewrite(c, i, e);
      (next, [event])
  }

  // ---- The buffer ----

  datatype Stream = Stream(
    identity: Identity, pending: seq<Event>, open: set<string>, bytes: nat, openBytes: int,
    terminal: Option<Event>, isBuffered: bool, isReleased: bool)

  const FRESH := Stream(Identity(false, "", "", None), [], {}, 0, 0, None, false, false)

  datatype Reason = Released | DuplicateTerminal | WaitingLimit | RecoveryFailed | BufferLimit

  /** Events to send; a failure may come with events that were ready before it. */
  datatype Out = Emit(events: seq<Event>) | Failed(why: Reason, events: seq<Event>)

  function SetOpen(s: Stream, key: string, isOpen: bool): Stream {
    if (key in s.open) == isOpen then s
    else if isOpen then s.(open := s.open + {key}, openBytes := s.openBytes + |key|)
    else s.(open := s.open - {key}, openBytes := s.openBytes - |key|)
  }

  function Opened(s: Stream, key: string): Stream {
    SetOpen(s, key, true).(isBuffered := true)
  }

  /** Starts waiting for an item the policy holds back. */
  function WaitForItem(c: Config, s: Stream, e: Event): (Stream, Option<Reason>) {
    if !(e.kind.ItemStarted? && e.hasItem && c.waits(e)) then (s, None)
    else if |s.open| >= c.stateItems then (s, Some(WaitingLimit))
    else (Opened(s, e.key), None)
  }

  function EntityKey(e: Event): string
    requires e.entity.Some?
  {
    "continuation:" + e.entity.value.key
  }

  /** Starts or stops waiting for an entity that must be complete before its state can be sent. */
  function WaitForEntity(c: Config, s: Stream, e: Event): (Stream, Option<Reason>) {
    if e.entity.None? then (s, None)
    else if e.entity.value.isComplete then (SetOpen(s, EntityKey(e), false), None)
    else if !(e.hasItem && e.carriesState) then (s, None)
    else
      match c.needsRecovery(e)
      case None => (s, Some(RecoveryFailed))
      case Some(needed) =>
        if !needed || EntityKey(e) in s.open then (s, None)
        else if |s.open| >= c.stateItems then (s, Some(WaitingLimit))
        else (Opened(s, EntityKey(e)), None)
  }

  function Flushed(s: Stream): Stream {
    s.(pending := [], bytes := 0)
  }

  function Added(c: Config, s: Stream, e: Event): Stream {
    s.(pending := s.pending + [e], bytes := s.bytes + c.size(e))
  }

  /** A finished item is no longer waited for; a finished response ends all waiting. */
  function CloseBy(s: Stream, e: Event): Stream {
    if e.kind.ItemFinished? then SetOpen(s, e.key, false)
    else if e.kind.ResponseFinished? then s.(open := {}, openBytes := 0)
    else s
  }

  /** Puts an event behind whatever waits, and lets everything go once nothing is open. */
  function Queue(c: Config, s: Stream, e: Event): (Stream, Out) {
    if s.pending == [] && s.open == {} then (s, Emit([e]))
    else if |s.pending| >= c.nodes || s.bytes + c.size(e) > c.bufferBytes then (s, Failed(BufferLimit, []))
    else
      var closed := CloseBy(Added(c, s, e), e);
      if closed.open != {} then (closed, Emit([])) else (Flushed(closed), Emit(closed.pending))
  }

  predicate IsFailure(e: Event) {
    e.kind.OperationFailed? || e.kind.OperationCancelled?
  }

  /** An already rewritten event meets the buffer. */
  function Deliver(c: Config, s: Stream, e: Event): (Stream, Out) {
    if c.hasAnthropicEnvelope && e.kind.ResponseFinished? then
      if s.terminal.Some? then (s, Failed(DuplicateTerminal, []))
      else (Flushed(s).(terminal := Some(e), isBuffered := true, open := {}, openBytes := 0), Emit(s.pending))
    else if IsFailure(e) then (Flushed(s).(terminal := None, open := {}, openBytes := 0), Emit([e]))
    else
      var (waiting, refused) := WaitForItem(c, s, e);
      if refused.Some? then (waiting, Failed(refused.value, []))
      else
        var (ready, failed) := WaitForEntity(c, waiting, e);
        if failed.Some? then (ready, Failed(failed.value, [])) else Queue(c, ready, e)
  }

  function PushOne(c: Config, s: Stream, e: Event): (Stream, Out) {
    var (identity, event) := Rewrite(c, s.identity, e);
    Deliver(c, s.(identity := identity), event)
  }

  function Push(c: Config, s: Stream, e: Event): (Stream, Out) {
    if s.isReleased then (s, Failed(Released, []))
    else if !c.isActive then (s, Emit([e]))
    else if !NeedsStart(c, s.identity, e) then PushOne(c, s, e)
    else
      var (started, start) := PushOne(c, s, StartFor(e));
      if start.Failed? then (started, start)
      else
        var (next, out) := PushOne(c, started.(isBuffered := true), e);
        match out
        case Failed(why, events) => (next, Failed(why, start.events + events))
        case Emit(events) => (next, Emit(start.events + events))
  }

  predicate CanFinish(s: Stream) {
    !s.isReleased && s.pending == [] && s.open == {}
  }

  function Closing(s: Stream, e: Event): Event {
    e.(responseId := s.identity.id, response := Some(Response(s.identity.id, s.identity.model, s.identity.usage)))
  }

  function Drain(s: Stream): (Stream, Option<seq<Event>>) {
    if !CanFinish(s) then (s, None)
    else if s.terminal.None? then (s, Some([]))
    else (s.(terminal := None), Some([Closing(s, s.terminal.value)]))
  }

  // ---- What every push keeps ----

  function Sizes(c: Config, events: seq<Event>): nat {
    if events == [] then 0 else Sizes(c, events[..|events| - 1]) + c.size(events[|events| - 1])
  }

  ghost function KeyBytes(keys: set<string>): nat {
    if keys == {} then 0
    else
      var key :| key in keys;
      |key| + KeyBytes(keys - {key})
  }

  lemma {:induction false} KeyBytesRemove(keys: set<string>, key: string)
    requires key in keys
    ensures KeyBytes(keys) == |key| + KeyBytes(keys - {key})
    decreases |keys|
  {
    var first :| first in keys && KeyBytes(keys) == |first| + KeyBytes(keys - {first});
    if first != key {
      KeyBytesRemove(keys - {first}, key);
      KeyBytesRemove(keys - {key}, first);
      assert keys - {first} - {key} == keys - {key} - {first};
    }
  }

  lemma KeyBytesAdd(keys: set<string>, key: string)
    requires key !in keys
    ensures KeyBytes(keys + {key}) == KeyBytes(keys) + |key|
  {
    KeyBytesRemove(keys + {key}, key);
    assert keys + {key} - {key} == keys;
  }

  lemma SizesPush(c: Config, events: seq<Event>, e: Event)
    ensures Sizes(c, events + [e]) == Sizes(c, events) + c.size(e)
  {
    assert (events + [e])[..|events|] == events;
  }

  /** The accounts are exact and within the limits. */
  ghost predicate Bounded(c: Config, s: Stream) {
    && s.bytes == Sizes(c, s.pending) <= c.bufferBytes && |s.pending| <= c.nodes
    && s.openBytes == KeyBytes(s.open) && |s.open| <= c.stateItems
  }

  /** Between pushes something waits exactly when something is open. */
  ghost predicate Settled(c: Config, s: Stream) {
    Bounded(c, s) && (s.pending == [] <==> s.open == {})
  }

  lemma SetOpenKeeps(c: Config, s: Stream, key: string, isOpen: bool)
    requires Bounded(c, s) && (isOpen && key !in s.open ==> |s.open| < c.stateItems)
    ensures Bounded(c, SetOpen(s, key, isOpen))
    ensures SetOpen(s, key, isOpen).open == if isOpen then s.open + {key} else s.open - {key}
  {
    if isOpen && key !in s.open {
      KeyBytesAdd(s.open, key);
    } else if !isOpen && key in s.open {
      KeyBytesRemove(s.open, key);
    }
  }

  lemma WaitForItemKeeps(c: Config, s: Stream, e: Event)
    requires Bounded(c, s)
    ensures var next := WaitForItem(c, s, e).0;
            Bounded(c, next) && next == s.(open := next.open, openBytes := next.openBytes, isBuffered := next.isBuffered)
  {
    if |s.open| < c.stateItems {
      OpenedKeeps(c, s, e.key);
    }
  }

  lemma OpenedKeeps(c: Config, s: Stream, key: string)
    requires Bounded(c, s) && |s.open| < c.stateItems
    ensures Bounded(c, Opened(s, key))
    ensures var next := Opened(s, key);
            next == s.(open := next.open, openBytes := next.openBytes, isBuffered := next.isBuffered)
  {
    SetOpenKeeps(c, s, key, true);
  }

  lemma ClosedKeeps(c: Config, s: Stream, key: string)
    requires Bounded(c, s)
    ensures Bounded(c, SetOpen(s, key, false))
    ensures var next := SetOpen(s, key, false);
            next == s.(open := next.open, openBytes := next.openBytes, isBuffered := next.isBuffered)
  {
    SetOpenKeeps(c, s, key, false);
  }

  /** Waiting for an entity leaves the stream as it is, closes its key, or opens it if there is room. */
  lemma WaitForEntityCases(c: Config, s: Stream, e: Event)
    requires e.entity.Some?
    ensures
      var next := WaitForEntity(c, s, e).0;
      || next == s || next == SetOpen(s, EntityKey(e), false)
      || (next == Opened(s, EntityKey(e)) && |s.open| < c.stateItems)
  {
  }

  lemma WaitForEntityKeeps(c: Config, s: Stream, e: Event)
    requires Bounded(c, s)
    ensures var next := WaitForEntity(c, s, e).0;
            Bounded(c, next) && next == s.(open := next.open, openBytes := next.openBytes, isBuffered := next.isBuffered)
  {
    if e.entity.Some? {
      WaitForEntityCases(c, s, e);
      var next, key := WaitForEntity(c, s, e).0, EntityKey(e);
      if next == SetOpen(s, key, false) {
        ClosedKeeps(c, s, key);
      } else if next == Opened(s, key) {
        if |s.open| < c.stateItems { OpenedKeeps(c, s, key); }
      }
    }
  }

  lemma QueueKeeps(c: Config, s: Stream, e: Event)
    requires Bounded(c, s) && Queue(c, s, e).1.Emit?
    ensures
      var (next, out) := Queue(c, s, e);
      && Settled(c, next)
      && out.events + next.pending == s.pending + [e]
      && next.identity == s.identity && next.terminal == s.terminal && next.isReleased == s.isReleased
  {
    if s.pending == [] && s.open == {} {
      assert [e] + [] == [] + [e];
    } else {
      AddedKeeps(c, s, e);
      CloseByKeeps(c, Added(c, s, e), e);
      FlushKeeps(c, CloseBy(Added(c, s, e), e));
    }
  }

  lemma AddedKeeps(c: Config, s: Stream, e: Event)
    requires Bounded(c, s) && |s.pending| < c.nodes && s.bytes + c.size(e) <= c.bufferBytes
    ensures Bounded(c, Added(c, s, e))
  {
    SizesPush(c, s.pending, e);
  }

  lemma CloseByKeeps(c: Config, s: Stream, e: Event)
    requires Bounded(c, s)
    ensures var next := CloseBy(s, e);
            Bounded(c, next) && next == s.(open := next.open, openBytes := next.openBytes)
  {
    if e.kind.ItemFinished? {
      SetOpenKeeps(c, s, e.key, false);
    }
  }

  lemma FlushKeeps(c: Config, s: Stream)
    requires Bounded(c, s)
    ensures Bounded(c, Flushed(s)) && s.pending + Flushed(s).pending == s.pending && [] + s.pending == s.pending
  {
  }

  /** An ordinary event: what goes out and what stays is what waited, then the event. */
  lemma DeliverKeepsOrder(c: Config, s: Stream, e: Event)
    requires Bounded(c, s) && !IsFailure(e) && !(c.hasAnthropicEnvelope && e.kind.ResponseFinished?)
    requires Deliver(c, s, e).1.Emit?
    ensures
      var (next, out) := Deliver(c, s, e);
      && Settled(c, next)
      && out.events + next.pending == s.pending + [e]
      && next.identity == s.identity && next.terminal == s.terminal && next.isReleased == s.isReleased
  {
    WaitForItemKeeps(c, s, e);
    var waiting := WaitForItem(c, s, e).0;
    WaitForEntityKeeps(c, waiting, e);
    QueueKeeps(c, WaitForEntity(c, waiting, e).0, e);
  }

  /** The held-back closing event: everything that waited goes out, nothing stays open. */
  lemma DeliverHoldsTerminal(c: Config, s: Stream, e: Event)
    requires Bounded(c, s) && c.hasAnthropicEnvelope && e.kind.ResponseFinished? && s.terminal.None?
    ensures
      var (next, out) := Deliver(c, s, e);
      && Settled(c, next) && out == Emit(s.pending) && next.pending == [] && next.terminal == Some(e)
      && next.identity == s.identity && next.isReleased == s.isReleased
  {
  }

  // ---- Every clean run ----

  predicate HoldsTerminal(c: Config) {
    c.isActive && c.hasAnthropicEnvelope
  }

  /** The sequence without its closing events, if those are held back. */
  function Body(c: Config, events: seq<Event>): seq<Event> {
    if events == [] then []
    else
      var last := events[|events| - 1];
      Body(c, events[..|events| - 1]) + if HoldsTerminal(c) && last.kind.ResponseFinished? then [] else [last]
  }

  function Ends(c: Config, events: seq<Event>): seq<Event> {
    if events == [] then []
    else
      var last := events[|events| - 1];
      Ends(c, events[..|events| - 1]) + if HoldsTerminal(c) && last.kind.ResponseFinished? then [last] else []
  }

  lemma PushEvent(c: Config, events: seq<Event>, e: Event)
    ensures Body(c, events + [e]) == Body(c, events) + if HoldsTerminal(c) && e.kind.ResponseFinished? then [] else [e]
    ensures Ends(c, events + [e]) == Ends(c, events) + if HoldsTerminal(c) && e.kind.ResponseFinished? then [e] else []
  {
    assert (events + [e])[..|events|] == events;
  }

  lemma RewriteKeepsKind(c: Config, i: Identity, e: Event)
    ensures Rewrite(c, i, e).1.kind == e.kind
    ensures c.hasDeliveryRule && e.kind.ResponseStarted? ==> Rewrite(c, i, e).0.started
  {
  }

  /** What a client got, what it should get in order, and whether no error and no failure event occurred. */
  datatype Run = Run(stream: Stream, released: seq<Event>, expected: seq<Event>, identity: Identity, isClean: bool)

  function Next(c: Config, r: Run, e: Event): Run {
    var (stream, out) := Push(c, r.stream, e);
    var (identity, expected) := Expected(c, r.identity, e);
    Run(stream, r.released + (if out.Emit? then out.events else []), r.expected + expected, identity,
        r.isClean && out.Emit? && !IsFailure(e))
  }

  function After(c: Config, events: seq<Event>): Run {
    if events == [] then Run(FRESH, [], [], FRESH.identity, true)
    else Next(c, After(c, events[..|events| - 1]), events[|events| - 1])
  }

  /** Sent and waiting together are the expected sequence; the closing event, if held back, is the one kept. */
  ghost predicate Tracks(c: Config, s: Stream, released: seq<Event>, expected: seq<Event>) {
    && Settled(c, s) && !s.isReleased
    && released + s.pending == Body(c, expected)
    && Ends(c, expected) == (match s.terminal case None => [] case Some(t) => [t])
  }

  lemma KeepsOrderTracks(c: Config, s: Stream, e: Event, released: seq<Event>, expected: seq<Event>)
    requires c.isActive && Tracks(c, s, released, expected) && !IsFailure(e) && Deliver(c, s, e).1.Emit?
    requires !(c.hasAnthropicEnvelope && e.kind.ResponseFinished?)
    ensures Tracks(c, Deliver(c, s, e).0, released + Deliver(c, s, e).1.events, expected + [e])
  {
    var (next, out) := Deliver(c, s, e);
    PushEvent(c, expected, e);
    DeliverKeepsOrder(c, s, e);
    Associate(released, out.events, next.pending);
    Associate(released, s.pending, [e]);
    NothingAdded(Ends(c, expected));
  }

  lemma HeldBackTracks(c: Config, s: Stream, e: Event, released: seq<Event>, expected: seq<Event>)
    requires c.isActive && Tracks(c, s, released, expected) && Deliver(c, s, e).1.Emit?
    requires c.hasAnthropicEnvelope && e.kind.ResponseFinished?
    ensures Tracks(c, Deliver(c, s, e).0, released + Deliver(c, s, e).1.events, expected + [e])
  {
    PushEvent(c, expected, e);
    DeliverHoldsTerminal(c, s, e);
    NothingAdded(released + s.pending);
    NothingAdded(Body(c, expected));
  }

  lemma DeliverTracks(c: Config, s: Stream, e: Event, released: seq<Event>, expected: seq<Event>)
    requires c.isActive && Tracks(c, s, released, expected) && !IsFailure(e) && Deliver(c, s, e).1.Emit?
    ensures
      var (next, out) := Deliver(c, s, e);
      Tracks(c, next, released + out.events, expected + [e]) && next.identity == s.identity
  {
    if c.hasAnthropicEnvelope && e.kind.ResponseFinished? {
      DeliverHoldsTerminal(c, s, e);
      HeldBackTracks(c, s, e, released, expected);
    } else {
      DeliverKeepsOrder(c, s, e);
      KeepsOrderTracks(c, s, e, released, expected);
    }
  }

  lemma PushOneTracks(c: Config, s: Stream, e: Event, released: seq<Event>, expected: seq<Event>)
    requires c.isActive && Tracks(c, s, released, expected) && !IsFailure(e) && PushOne(c, s, e).1.Emit?
    ensures
      var (next, out) := PushOne(c, s, e);
      var (identity, event) := Rewrite(c, s.identity, e);
      Tracks(c, next, released + out.events, expected + [event]) && next.identity == identity
  {
    RewriteKeepsKind(c, s.identity, e);
    var (identity, event) := Rewrite(c, s.identity, e);
    DeliverTracks(c, s.(identity := identity), event, released, expected);
  }

  lemma AppendTwo<T>(s: seq<T>, a: T, b: T)
    ensures s + [a] + [b] == s + [a, b]
  {
  }

  lemma StartedPushTracks(c: Config, ready: Stream, sent: seq<Event>, e: Event,
                          released: seq<Event>, expected: seq<Event>, first: Event)
    requires c.isActive && Tracks(c, ready, released + sent, expected + [first]) && !IsFailure(e)
    requires PushOne(c, ready, e).1.Emit?
    ensures
      var (next, out) := PushOne(c, ready, e);
      var (identity, second) := Rewrite(c, ready.identity, e);
      Tracks(c, next, released + (sent + out.events), expected + [first, second]) && next.identity == identity
  {
    PushOneTracks(c, ready, e, released + sent, expected + [first]);
    Associate(released, sent, PushOne(c, ready, e).1.events);
    AppendTwo(expected, first, Rewrite(c, ready.identity, e).1);
  }

  lemma PushTracks(c: Config, s: Stream, e: Event, released: seq<Event>, expected: seq<Event>)
    requires c.isActive && Tracks(c, s, released, expected) && !IsFailure(e) && Push(c, s, e).1.Emit?
    ensures
      var (next, out) := Push(c, s, e);
      var (identity, events) := Expected(c, s.identity, e);
      Tracks(c, next, released + out.events, expected + events) && next.identity == identity
  {
    if NeedsStart(c, s.identity, e) {
      var (started, start) := PushOne(c, s, StartFor(e));
      PushOneTracks(c, s, StartFor(e), released, expected);
      StartedPushTracks(c, started.(isBuffered := true), start.events, e, released, expected, Rewrite(c, s.identity, StartFor(e)).1);
    } else {
      PushOneTracks(c, s, e, released, expected);
    }
  }

  lemma NothingTracks(c: Config)
    ensures Tracks(c, FRESH, [], [])
  {
    assert KeyBytes({}) == 0;
  }

  lemma {:induction false} CleanRunTracks(c: Config, events: seq<Event>)
    requires After(c, events).isClean
    ensures
      var r := After(c, events);
      if c.isActive then Tracks(c, r.stream, r.released, r.expected) && r.stream.identity == r.identity
      else r.stream == FRESH && r.released == r.expected == events
    decreases |events|
  {
    if events != [] {
      var front, last := events[..|events| - 1], events[|events| - 1];
      CleanRunTracks(c, front);
      var r := After(c, front);
      if c.isActive {
        PushTracks(c, r.stream, last, r.released, r.expected);
      } else {
        assert events == front + [last];
      }
    } else {
      NothingTracks(c);
    }
  }

  /** Main result: without error or failure, what was sent followed by what waits is the rewritten input in its
      order, with at most one synthesized start added and a held-back closing event taken out; something waits exactly
      when something is open; the limits hold; and the closing event comes last. */
  lemma WaitingKeepsOrder(c: Config, events: seq<Event>)
    requires After(c, events).isClean
    ensures
      var r := After(c, events);
      && r.released + r.stream.pending == Body(c, r.expected) && |r.expected| <= |events| + 1
      && (r.stream.pending == [] <==> r.stream.open == {})
      && r.stream.bytes == Sizes(c, r.stream.pending) && r.stream.openBytes == KeyBytes(r.stream.open)
      && (CanFinish(r.stream) ==>
            r.released == Body(c, r.expected) &&
            Drain(r.stream).1 == Some(match r.stream.terminal case None => [] case Some(t) => [Closing(r.stream, t)]) &&
            Ends(c, r.expected) == (match r.stream.terminal case None => [] case Some(t) => [t]))
  {
    CleanRunTracks(c, events);
    AtMostOneStartIsAdded(c, events);
    var r := After(c, events);
    if !c.isActive {
      NothingHeldBack(c, events);
      assert events + [] == events;
    }
  }

  lemma {:induction false} NothingHeldBack(c: Config, events: seq<Event>)
    requires !HoldsTerminal(c)
    ensures Body(c, events) == events && Ends(c, events) == []
    decreases |events|
  {
    if events != [] {
      NothingHeldBack(c, events[..|events| - 1]);
      assert events == events[..|events| - 1] + [events[|events| - 1]];
    }
  }

  /** A synthesized start comes right before its event; afterwards the stream counts as started. */
  lemma StartIsSynthesizedOnce(c: Config, i: Identity, e: Event, later: Event)
    requires c.isActive && NeedsStart(c, i, e)
    ensures
      var (next, expected) := Expected(c, i, e);
      && |expected| == 2 && expected[0].kind.ResponseStarted? && expected[1].kind == e.kind
      && next.started && !NeedsStart(c, next, later)
      && Expected(c, next, later).0.started
  {
    RewriteKeepsKind(c, i, StartFor(e));
    RewriteKeepsKind(c, Rewrite(c, i, StartFor(e)).0, e);
    RewriteKeepsStarted(c, Rewrite(c, i, StartFor(e)).0, e);
    RewriteKeepsStarted(c, Expected(c, i, e).0, later);
  }

  lemma RewriteKeepsStarted(c: Config, i: Identity, e: Event)
    requires i.started
    ensures Rewrite(c, i, e).0.started
  {
  }

  /** Over any run, clean or not, at most one event is added to the input: the synthesized start. */
  lemma {:induction false} AtMostOneStartIsAdded(c: Config, events: seq<Event>)
    ensures
      var r := After(c, events);
      |events| <= |r.expected| <= |events| + (if r.identity.started then 1 else 0)
    decreases |events|
  {
    if events != [] {
      var before, last := After(c, events[..|events| - 1]), events[|events| - 1];
      AtMostOneStartIsAdded(c, events[..|events| - 1]);
      if c.isActive && NeedsStart(c, before.identity, last) {
        StartIsSynthesizedOnce(c, before.identity, last, last);
      } else if c.isActive && before.identity.started {
        RewriteKeepsStarted(c, before.identity, last);
      }
    }
  }

  /** Nothing but the response identity differs: the id an event names, and its response. Only a start may gain a
      response; any other response keeps all but its id and model. */
  predicate SameButIdentity(e: Event, r: Event) {
    && r == e.(responseId := r.responseId, response := r.response)
    && (!e.kind.ResponseStarted? ==> SameResponse(e.response, r.response))
  }

  predicate SameResponse(a: Option<Response>, b: Option<Response>) {
    (a.Some? <==> b.Some?) && (a.Some? ==> b.value == a.value.(id := b.value.id, model := b.value.model))
  }

  lemma StampKeeps(i: Identity, e: Event)
    ensures SameButIdentity(e, Stamp(i, e))
  {
  }

  lemma KeepsTwice(a: Event, b: Event, c: Event)
    requires SameButIdentity(a, b) && SameButIdentity(b, c)
    ensures SameButIdentity(a, c)
  {
  }

  lemma DeliveryKeeps(c: Config, i: Identity, e: Event)
    ensures SameButIdentity(e, RewriteDelivery(c, i, e).1)
  {
    if c.hasDeliveryRule && e.kind.ResponseStarted? {
      var r := c.prepare(ResponseOf(e));
      StampKeeps(i.(started := true, id := r.id, model := r.model), e.(response := Some(r)));
    } else if c.hasDeliveryRule {
      StampKeeps(i, e);
    }
  }

  lemma EnvelopeKeeps(c: Config, i: Identity, e: Event)
    ensures SameButIdentity(e, RewriteAnthropic(c, i, e).1)
  {
    var next, r := RewriteAnthropic(c, i, e).0, c.ensureIdentity(ResponseOf(e)).(usage := RewriteAnthropic(c, i, e).0.usage);
    StampKeeps(next, e);
    if c.hasAnthropicEnvelope && e.kind.ResponseStarted? {
      StampKeeps(next, e.(responseId := r.id, response := Some(r)));
    }
  }

  /** Rewriting touches nothing but the response identity. */
  lemma RewriteTouchesOnlyIdentity(c: Config, i: Identity, e: Event)
    ensures SameButIdentity(e, Rewrite(c, i, e).1)
  {
    var (delivered, first) := RewriteDelivery(c, i, e);
    DeliveryKeeps(c, i, e);
    EnvelopeKeeps(c, delivered, first);
    KeepsTwice(e, first, RewriteAnthropic(c, delivered, first).1);
  }

  /** An event carries an id. */
  predicate Carries(e: Event, id: string, model: string) {
    e.responseId == id && (e.response.Some? ==> e.response.value.id == id && e.response.value.model == model)
  }

  lemma RewriteCarriesId(c: Config, i: Identity, e: Event)
    requires c.isActive && (c.hasDeliveryRule || c.hasAnthropicEnvelope) && !e.kind.ResponseStarted? && i.id != ""
    ensures Rewrite(c, i, e).0.id == i.id && Rewrite(c, i, e).0.model == i.model
    ensures Carries(Rewrite(c, i, e).1, i.id, i.model)
  {
  }

  predicate NoMoreStarts(events: seq<Event>) {
    forall e | e in events :: !e.kind.ResponseStarted?
  }

  predicate HasId(c: Config, r: Run, id: string, model: string) {
    id != "" && r.identity.id == id && r.identity.model == model && (c.hasDeliveryRule ==> r.identity.started)
  }

  /** One more event carries the id. */
  lemma NextCarriesId(c: Config, r: Run, e: Event, id: string, model: string)
    requires c.isActive && (c.hasDeliveryRule || c.hasAnthropicEnvelope) && !e.kind.ResponseStarted? && HasId(c, r, id, model)
    ensures
      var next := Next(c, r, e);
      && HasId(c, next, id, model) && |next.expected| == |r.expected| + 1 && r.expected <= next.expected
      && Carries(next.expected[|r.expected|], id, model)
  {
    RewriteCarriesId(c, r.identity, e);
    if r.identity.started { RewriteKeepsStarted(c, r.identity, e); }
  }

  lemma AfterOneMore(c: Config, events: seq<Event>, more: seq<Event>)
    requires more != []
    ensures After(c, events + more) == Next(c, After(c, events + more[..|more| - 1]), more[|more| - 1])
  {
    assert (events + more)[..|events + more| - 1] == events + more[..|more| - 1];
  }

  /** Main result: once a stream has an id, every event that follows carries it, one for one, until the source itself
      starts another response. */
  lemma {:induction false} OneIdAfterTheStart(c: Config, events: seq<Event>, more: seq<Event>, id: string, model: string)
    requires c.isActive && (c.hasDeliveryRule || c.hasAnthropicEnvelope) && NoMoreStarts(more)
    requires HasId(c, After(c, events), id, model)
    ensures
      var before, after := After(c, events), After(c, events + more);
      && HasId(c, after, id, model)
      && |after.expected| == |before.expected| + |more| && before.expected <= after.expected
      && forall k | |before.expected| <= k < |after.expected| :: Carries(after.expected[k], id, model)
    decreases |more|
  {
    if more == [] {
      assert events + more == events;
    } else {
      var front, last := more[..|more| - 1], more[|more| - 1];
      OneIdAfterTheStart(c, events, front, id, model);
      AfterOneMore(c, events, more);
      assert last in more;
      NextCarriesId(c, After(c, events + front), last, id, model);
    }
  }

  /** A real failure is sent alone; nothing that waited is ever sent. */
  lemma FailureDiscardsTheWaiting(c: Config, s: Stream, e: Event)
    requires c.isActive && !s.isReleased && IsFailure(e)
    ensures
      var (next, out) := Push(c, s, e);
      && out == Emit([Rewrite(c, s.identity, e).1])
      && next.pending == [] && next.open == {} && next.bytes == 0 && next.openBytes == 0 && next.terminal == None
  {
    RewriteKeepsKind(c, s.identity, e);
  }

  // ---- The state as it runs ----

  class ConversionEventState {
    const config: Config
    var identity: Identity
    var pending: seq<Event>
    var open: set<string>
    var bytes: nat
    var openBytes: int
    var terminal: Option<Event>
    var buffered: bool
    var isReleased: bool

    ghost function View(): Stream
      reads this
    {
      Stream(identity, pending, open, bytes, openBytes, terminal, buffered, isReleased)
    }

    constructor (config: Config)
      ensures this.config == config && View() == FRESH
    {
      this.config := config;
      identity, pending, open, bytes, openBytes := Identity(false, "", "", None), [], {}, 0, 0;
      terminal, buffered, isReleased := None, false, false;
    }

    method SetOpenKey(key: string, isOpen: bool)
      modifies this`open, this`openBytes
      ensures View() == SetOpen(old(View()), key, isOpen)
    {
      if (key in open) == isOpen {
        return;
      }
      if isOpen {
        open := open + {key};
        openBytes := openBytes + |key|;
      } else {
        open := open - {key};
        openBytes := openBytes - |key|;
      }
    }

    method RewriteForDelivery(event: Event) returns (e: Event)
      modifies this`identity
      ensures View() == old(View()).(identity := RewriteDelivery(config, old(identity), event).0)
      ensures e == RewriteDelivery(config, old(identity), event).1
    {
      e := event;
      if config.hasDeliveryRule {
        if e.kind.ResponseStarted? {
          var r := config.prepare(ResponseOf(e));
          identity := identity.(started := true, id := r.id, model := r.model);
          e := e.(response := Some(r));
        }
        e := Stamp(identity, e);
      }
    }

    method RewriteIdentity(event: Event) returns (e: Event)
      modifies this`identity
      ensures View() == old(View()).(identity := Rewrite(config, old(identity), event).0)
      ensures e == Rewrite(config, old(identity), event).1
    {
      e := RewriteForDelivery(event);
      e := RewriteForEnvelope(e);
    }

    method RewriteForEnvelope(event: Event) returns (e: Event)
      modifies this`identity
      ensures View() == old(View()).(identity := RewriteAnthropic(config, old(identity), event).0)
      ensures e == RewriteAnthropic(config, old(identity), event).1
    {
      e := event;
      if config.hasAnthropicEnvelope {
        var usage := identity.usage;
        if e.usage.Some? {
          usage := Some(config.merge(usage, e.usage.value));
        }
        if e.response.Some? && e.response.value.usage.Some? {
          usage := Some(config.merge(usage, e.response.value.usage.value));
        }
        identity := identity.(usage := usage);
        if e.kind.ResponseStarted? {
          var r := config.ensureIdentity(ResponseOf(e)).(usage := usage);
          identity := identity.(id := r.id, model := r.model);
          e := e.(responseId := r.id, response := Some(r));
        }
        e := Stamp(identity, e);
      }
    }

    /** Starts or stops waiting because of one event. */
    method UpdateWaiting(e: Event) returns (refused: Option<Reason>)
      modifies this`open, this`openBytes, this`buffered
      ensures
        var (waiting, first) := WaitForItem(config, old(View()), e);
        if first.Some? then View() == waiting && refused == first
        else (View(), refused) == WaitForEntity(config, waiting, e)
    {
      refused := None;
      if e.kind.ItemStarted? && e.hasItem && config.waits(e) {
        if |open| >= config.stateItems {
          return Some(WaitingLimit);
        }
        SetOpenKey(e.key, true);
        buffered := true;
      }
      if e.entity.Some? {
        var key := EntityKey(e);
        if e.entity.value.isComplete {
          SetOpenKey(key, false);
        } else if e.hasItem && e.carriesState {
          var needs := config.needsRecovery(e);
          if needs.None? {
            return Some(RecoveryFailed);
          }
          if needs.value && key !in open {
            if |open| >= config.stateItems {
              return Some(WaitingLimit);
            }
            SetOpenKey(key, true);
            buffered := true;
          }
        }
      }
    }

    method QueueEvent(e: Event) returns (out: Out)
      modifies this`pending, this`bytes, this`open, this`openBytes
      ensures (View(), out) == Queue(config, old(View()), e)
    {
      if |pending| == 0 && open == {} {
        return Emit([e]);
      }
      if |pending| >= config.nodes || bytes + config.size(e) > config.bufferBytes {
        return Failed(BufferLimit, []);
      }
      bytes := bytes + config.size(e);
      pending := pending + [e];
      if e.kind.ItemFinished? {
        SetOpenKey(e.key, false);
      }
      if e.kind.ResponseFinished? {
        open, openBytes := {}, 0;
      }
      if open != {} {
        return Emit([]);
      }
      out := Emit(pending);
      pending, bytes := [], 0;
    }

    method DeliverEvent(e: Event) returns (out: Out)
      modifies this`pending, this`bytes, this`open, this`openBytes, this`terminal, this`buffered
      ensures (View(), out) == Deliver(config, old(View()), e)
    {
      if config.hasAnthropicEnvelope && e.kind.ResponseFinished? {
        if terminal.Some? {
          return Failed(DuplicateTerminal, []);
        }
        terminal, buffered := Some(e), true;
        open, openBytes := {}, 0;
        out := Emit(pending);
        pending, bytes := [], 0;
        return;
      }
      if e.kind.OperationFailed? || e.kind.OperationCancelled? {
        open, openBytes := {}, 0;
        pending, terminal, bytes := [], None, 0;
        return Emit([e]);
      }
      var refused := UpdateWaiting(e);
      if refused.Some? {
        return Failed(refused.value, []);
      }
      out := QueueEvent(e);
    }

    method PushRewritten(event: Event) returns (out: Out)
      modifies this
      ensures (View(), out) == PushOne(config, old(View()), event)
    {
      var e := RewriteIdentity(event);
      out := DeliverEvent(e);
    }

    /** Preserves source order while waiting only for what must be complete first. */
    method PushContext(event: Event) returns (out: Out)
      modifies this
      ensures (View(), out) == Push(config, old(View()), event)
    {
      if isReleased {
        return Failed(Released, []);
      }
      if !config.isActive {
        return Emit([event]);
      }
      if NeedsStart(config, identity, event) {
        var start := PushRewritten(StartFor(event));
        if start.Failed? {
          return start;
        }
        buffered := true;
        out := PushRewritten(event);
        match out {
          case Emit(events) => return Emit(start.events + events);
          case Failed(why, events) => return Failed(why, start.events + events);
        }
      }
      out := PushRewritten(event);
    }

    method Finish() returns (ok: bool)
      ensures ok <==> CanFinish(View())
    {
      ok := !isReleased && |pending| == 0 && open == {};
    }

    /** Hands out the held-back closing event with the usage that arrived after it. */
    method DrainTail() returns (events: Option<seq<Event>>)
      modifies this`terminal
      ensures (View(), events) == Drain(old(View()))
    {
      var ok := Finish();
      if !ok {
        return None;
      }
      if terminal.None? {
        return Some([]);
      }
      var e := terminal.value;
      terminal := None;
      events := Some([e.(responseId := identity.id, response := Some(Response(identity.id, identity.model, identity.usage)))]);
    }

    method Release()
      modifies this
      ensures View() == FRESH.(isReleased := true)
    {
      identity, pending, open, bytes, openBytes := Identity(false, "", "", None), [], {}, 0, 0;
      terminal, buffered, isReleased := None, false, true;
    }
  }
}
