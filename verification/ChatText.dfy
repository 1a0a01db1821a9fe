/** Text of several items delivered through one Chat content field. Citation positions are offsets into an item's
    own text and must be moved to offsets into the one global text. A text is a sequence of units: each element here
    stands for one UTF-16 code unit of the original text. */
module ChatText {
  import opened Options
  import opened Sequences

  datatype Chunk = Chunk(key: string, text: string)

  // ---- The simple picture: everything delivered, in order of arrival ----

  function Global(history: seq<Chunk>): string {
    if history == [] then "" else Global(history[..|history| - 1]) + history[|history| - 1].text
  }

  function ItemText(history: seq<Chunk>, key: string): string {
    if history == [] then ""
    else
      var front, last := history[..|history| - 1], history[|history| - 1];
      if last.key == key then ItemText(front, key) + last.text else ItemText(front, key)
  }

  function Range(from: nat, n: nat): (r: seq<nat>)
    ensures |r| == n && forall i | 0 <= i < n :: r[i] == from + i
  {
    seq(n, i => from + i)
  }

  /** Where each unit of an item's text stands in the global text. */
  function Positions(history: seq<Chunk>, key: string): seq<nat> {
    if history == [] then []
    else
      var front, last := history[..|history| - 1], history[|history| - 1];
      if last.key == key then Positions(front, key) + Range(|Global(front)|, |last.text|) else Positions(front, key)
  }

  /** How often delivery switches from one item to another. */
  function Runs(history: seq<Chunk>): nat {
    if history == [] then 0
    else
      var last := |history| - 1;
      Runs(history[..last]) + if last > 0 && history[last - 1].key == history[last].key then 0 else 1
  }

  lemma PushChunk(history: seq<Chunk>, chunk: Chunk, key: string)
    ensures
      var more := history + [chunk];
      && Global(more) == Global(history) + chunk.text
      && ItemText(more, key) == (if chunk.key == key then ItemText(history, key) + chunk.text else ItemText(history, key))
      && Positions(more, key) ==
           (if chunk.key == key then Positions(history, key) + Range(|Global(history)|, |chunk.text|)
            else Positions(history, key))
      && Runs(more) == Runs(history) + if EndsWith(history, chunk.key) then 0 else 1
  {
    assert (history + [chunk])[..|history|] == history;
  }

  /** The positions really are the item's text: one per unit, each holding that unit, in increasing order. */
  lemma {:induction false} PositionsHoldText(history: seq<Chunk>, key: string)
    ensures
      var at, text := Positions(history, key), ItemText(history, key);
      && |at| == |text|
      && (forall k | 0 <= k < |at| :: at[k] < |Global(history)| && Global(history)[at[k]] == text[k])
      && (forall k, m | 0 <= k < m < |at| :: at[k] < at[m])
    decreases |history|
  {
    if history != [] {
      PositionsHoldText(history[..|history| - 1], key);
    }
  }

  /** The units [start, end) of an item are neighbours in the global text. */
  predicate Contiguous(history: seq<Chunk>, key: string, start: int, end: int)
    requires 0 <= start <= end <= |Positions(history, key)|
  {
    var at := Positions(history, key);
    forall k | start <= k < end :: at[k] == at[start] + (k - start)
  }

  // ---- Spans ----

  datatype Span = Span(local: nat, global: nat, length: nat)

  datatype Item = Item(isText: bool, length: nat, spans: seq<Span>)

  function LocalEnd(span: Span): nat {
    span.local + span.length
  }

  function GlobalEnd(span: Span): nat {
    span.global + span.length
  }

  predicate Joins(before: Span, after: Span) {
    after.local == LocalEnd(before) && GlobalEnd(before) < after.global
  }

  /** Spans follow each other without gap in the item and with a gap in the global text. */
  predicate Tiles(spans: seq<Span>, length: nat) {
    if spans == [] then length == 0
    else
      var front, last := spans[..|spans| - 1], spans[|spans| - 1];
      && last.length > 0 && LocalEnd(last) == length && Tiles(front, last.local)
      && (front != [] ==> GlobalEnd(front[|front| - 1]) < last.global)
  }

  lemma {:induction false} TilesJoin(spans: seq<Span>, length: nat)
    requires Tiles(spans, length)
    ensures forall i | 0 <= i < |spans| :: spans[i].length > 0 && LocalEnd(spans[i]) <= length
    ensures forall i | 0 < i < |spans| :: Joins(spans[i - 1], spans[i])
    ensures spans != [] ==> spans[0].local == 0
    ensures forall i | 0 <= i < |spans| :: GlobalEnd(spans[i]) <= GlobalEnd(spans[|spans| - 1])
  {
    if spans != [] {
      TilesJoin(spans[..|spans| - 1], spans[|spans| - 1].local);
    }
  }

  predicate SpanHolds(span: Span, at: seq<nat>) {
    && LocalEnd(span) <= |at|
    && forall k | span.local <= k < LocalEnd(span) :: at[k] == span.global + (k - span.local)
  }

  predicate SpansHold(spans: seq<Span>, at: seq<nat>) {
    forall i | 0 <= i < |spans| :: SpanHolds(spans[i], at)
  }

  predicate Tracks(item: Item, history: seq<Chunk>, key: string) {
    && item.length == |ItemText(history, key)|
    && Tiles(item.spans, item.length)
    && SpansHold(item.spans, Positions(history, key))
    && (item.spans != [] ==> GlobalEnd(item.spans[|item.spans| - 1]) <= |Global(history)|)
    && (EndsAt(item.spans, |Global(history)|) <==> EndsWith(history, key))
  }

  predicate EndsAt(spans: seq<Span>, global: nat) {
    spans != [] && GlobalEnd(spans[|spans| - 1]) == global
  }

  predicate EndsWith(history: seq<Chunk>, key: string) {
    history != [] && history[|history| - 1].key == key
  }

  function Longer(spans: seq<Span>, n: nat): seq<Span>
    requires spans != []
  {
    var last := |spans| - 1;
    spans[..last] + [spans[last].(length := spans[last].length + n)]
  }

  /** The last span grows if it ends where the global text ends; otherwise a new span starts there. */
  function GrowSpans(spans: seq<Span>, local: nat, global: nat, n: nat): seq<Span> {
    if EndsAt(spans, global) then Longer(spans, n) else spans + [Span(local, global, n)]
  }

  /** The tracked item after `n` more units. */
  function Grow(item: Item, global: nat, n: nat): Item {
    item.(length := item.length + n, spans := GrowSpans(item.spans, item.length, global, n))
  }

  lemma EarlierSpansHold(spans: seq<Span>, at: seq<nat>, more: seq<nat>)
    requires SpansHold(spans, at)
    ensures SpansHold(spans, at + more)
  {
  }

  lemma LongerSpanHolds(span: Span, at: seq<nat>, global: nat, n: nat)
    requires SpanHolds(span, at) && LocalEnd(span) == |at| && GlobalEnd(span) == global
    ensures SpanHolds(span.(length := span.length + n), at + Range(global, n))
  {
  }

  lemma NewSpanHolds(at: seq<nat>, global: nat, n: nat)
    ensures SpanHolds(Span(|at|, global, n), at + Range(global, n))
  {
  }

  lemma PushTiles(spans: seq<Span>, length: nat, span: Span)
    requires Tiles(spans, length) && span.length > 0 && span.local == length
    requires spans != [] ==> GlobalEnd(spans[|spans| - 1]) < span.global
    ensures Tiles(spans + [span], length + span.length)
  {
    assert (spans + [span])[..|spans|] == spans;
  }

  lemma GrowTiles(spans: seq<Span>, length: nat, global: nat, n: nat)
    requires Tiles(spans, length) && n > 0
    requires spans != [] ==> GlobalEnd(spans[|spans| - 1]) <= global
    ensures Tiles(GrowSpans(spans, length, global, n), length + n)
    ensures EndsAt(GrowSpans(spans, length, global, n), global + n)
  {
    if EndsAt(spans, global) {
      LongerTiles(spans, length, n);
    } else {
      PushTiles(spans, length, Span(length, global, n));
    }
  }

  lemma LongerTiles(spans: seq<Span>, length: nat, n: nat)
    requires spans != [] && Tiles(spans, length)
    ensures Tiles(Longer(spans, n), length + n) && Longer(spans, n) != []
    ensures Longer(spans, n)[|spans| - 1] == spans[|spans| - 1].(length := spans[|spans| - 1].length + n)
  {
    var front, last := spans[..|spans| - 1], spans[|spans| - 1];
    PushTiles(front, last.local, last.(length := last.length + n));
  }

  lemma GrowHolds(item: Item, at: seq<nat>, global: nat, n: nat)
    requires Tiles(item.spans, item.length) && item.length == |at| && SpansHold(item.spans, at)
    ensures SpansHold(Grow(item, global, n).spans, at + Range(global, n))
  {
    EarlierSpansHold(item.spans, at, Range(global, n));
    if item.spans != [] && GlobalEnd(item.spans[|item.spans| - 1]) == global {
      LongerSpanHolds(item.spans[|item.spans| - 1], at, global, n);
    } else {
      NewSpanHolds(at, global, n);
    }
  }

  /** Appending text keeps the item tracked. */
  lemma GrowTracks(item: Item, history: seq<Chunk>, key: string, text: string)
    requires Tracks(item, history, key) && text != ""
    ensures Tracks(Grow(item, |Global(history)|, |text|), history + [Chunk(key, text)], key)
  {
    PositionsHoldText(history, key);
    PushChunk(history, Chunk(key, text), key);
    GrowTiles(item.spans, item.length, |Global(history)|, |text|);
    GrowHolds(item, Positions(history, key), |Global(history)|, |text|);
  }

  /** Text of another item leaves it tracked. */
  lemma OthersTrack(item: Item, history: seq<Chunk>, key: string, other: Chunk)
    requires Tracks(item, history, key) && other.key != key && other.text != ""
    ensures Tracks(item, history + [other], key)
  {
    PushChunk(history, other, key);
  }

  // ---- Rebasing one citation ----

  datatype Rebased = InvalidRange | Interleaved | Moved(start: int, end: int)

  /** The first span that holds the whole range. */
  method Rebase(item: Item, start: int, end: int, ghost history: seq<Chunk>, ghost key: string) returns (r: Rebased)
    requires Tracks(item, history, key)
    ensures r.InvalidRange? <==> start < 0 || end < start
    ensures r.Moved? <==>
      && 0 <= start <= end <= item.length && item.length > 0
      && end <= |Positions(history, key)| && Contiguous(history, key, start, end)
    ensures r.Moved? ==>
      && 0 <= r.start <= r.end <= |Global(history)|
      && end <= |ItemText(history, key)| && Global(history)[r.start..r.end] == ItemText(history, key)[start..end]
  {
    if start < 0 || end < start {
      return InvalidRange;
    }
    PositionsHoldText(history, key);
    for i := 0 to |item.spans|
      invariant forall j | 0 <= j < i :: !Covers(item.spans[j], start, end)
    {
      var span := item.spans[i];
      if start >= span.local && end <= span.local + span.length {
        CoveredIsContiguous(item, history, key, i, start, end);
        return Moved(start + span.global - span.local, end + span.global - span.local);
      }
    }
    if end <= item.length && item.length > 0 {
      NotCovered(item, history, key, start, end);
    }
    r := Interleaved;
  }

  predicate Covers(span: Span, start: int, end: int) {
    start >= span.local && end <= LocalEnd(span)
  }

  lemma SpanFacts(item: Item, history: seq<Chunk>, key: string, i: nat)
    requires Tracks(item, history, key) && i < |item.spans|
    ensures LocalEnd(item.spans[i]) <= item.length == |ItemText(history, key)| && GlobalEnd(item.spans[i]) <= |Global(history)|
    ensures SpanHolds(item.spans[i], Positions(history, key))
  {
    TilesJoin(item.spans, item.length);
  }

  lemma CoveredIsContiguous(item: Item, history: seq<Chunk>, key: string, i: nat, start: nat, end: nat)
    requires Tracks(item, history, key) && i < |item.spans| && start <= end && Covers(item.spans[i], start, end)
    ensures end <= item.length == |Positions(history, key)| && Contiguous(history, key, start, end)
    ensures
      var span := item.spans[i];
      var moved := start + span.global - span.local;
      moved + (end - start) <= |Global(history)| &&
      Global(history)[moved..moved + (end - start)] == ItemText(history, key)[start..end]
  {
    PositionsHoldText(history, key);
    SpanFacts(item, history, key, i);
    SpanIsQuoted(item.spans[i], Positions(history, key), Global(history), ItemText(history, key), start, end);
  }

  lemma SpanIsQuoted(span: Span, at: seq<nat>, global: string, text: string, start: nat, end: nat)
    requires |at| == |text| && forall k | 0 <= k < |at| :: at[k] < |global| && global[at[k]] == text[k]
    requires SpanHolds(span, at)
    requires start <= end && Covers(span, start, end) && end <= |at| && GlobalEnd(span) <= |global|
    ensures
      var moved := start + span.global - span.local;
      moved + (end - start) <= |global| && global[moved..moved + (end - start)] == text[start..end]
  {
    var moved := start + span.global - span.local;
    forall k | start <= k < end
      ensures global[moved + (k - start)] == text[k]
    {
      assert at[k] == moved + (k - start);
    }
    assert forall j | 0 <= j < end - start :: text[start..end][j] == text[start + j];
  }

  lemma {:induction false} SpanAt(spans: seq<Span>, length: nat, k: nat) returns (i: nat)
    requires Tiles(spans, length) && k < length
    ensures i < |spans| && spans[i].local <= k < LocalEnd(spans[i])
    decreases |spans|
  {
    var last := |spans| - 1;
    if spans[last].local <= k {
      i := last;
    } else {
      i := SpanAt(spans[..last], spans[last].local, k);
    }
  }

  lemma NotCovered(item: Item, history: seq<Chunk>, key: string, start: nat, end: nat)
    requires Tracks(item, history, key) && start <= end <= item.length && item.length > 0
    requires forall i | 0 <= i < |item.spans| :: !Covers(item.spans[i], start, end)
    ensures |Positions(history, key)| == item.length && !Contiguous(history, key, start, end)
  {
    PositionsHoldText(history, key);
    var at := Positions(history, key);
    var i := SpanAt(item.spans, item.length, if start < item.length then start else start - 1);
    TilesJoin(item.spans, item.length);
    assert start < item.length;
    var edge := LocalEnd(item.spans[i]);
    assert start < edge < end;
    assert SpanHolds(item.spans[i], at) && SpanHolds(item.spans[i + 1], at);
    assert at[edge] == item.spans[i + 1].global;
    assert at[start] == item.spans[i].global + (start - item.spans[i].local);
  }

  // ---- Items that are not interleaved ----

  lemma {:induction false} OtherChunks(history: seq<Chunk>, more: seq<Chunk>, key: string)
    requires forall i | 0 <= i < |more| :: more[i].key != key
    ensures Positions(history + more, key) == Positions(history, key)
    decreases |more|
  {
    if more == [] {
      assert history + more == history;
    } else {
      var front, last := more[..|more| - 1], more[|more| - 1];
      OtherChunks(history, front, key);
      PushChunk(history + front, last, key);
      assert history + more == history + front + [last];
    }
  }

  lemma {:induction false} GlobalConcat(history: seq<Chunk>, more: seq<Chunk>)
    ensures Global(history + more) == Global(history) + Global(more)
    decreases |more|
  {
    if more == [] {
      assert history + more == history;
    } else {
      var front, last := more[..|more| - 1], more[|more| - 1];
      GlobalConcat(history, front);
      PushBack(history, more);
      PushChunk(history + front, last, "");
      PushChunk(front, last, "");
      Associate(Global(history), Global(front), last.text);
    }
  }

  lemma JoinRanges(from: nat, n: nat, m: nat)
    ensures Range(from, n) + Range(from + n, m) == Range(from, n + m)
  {
  }

  lemma {:induction false} OwnChunks(history: seq<Chunk>, own: seq<Chunk>, key: string)
    requires forall i | 0 <= i < |own| :: own[i].key == key
    ensures Positions(history + own, key) == Positions(history, key) + Range(|Global(history)|, |Global(own)|)
    decreases |own|
  {
    if own == [] {
      assert history + own == history;
    } else {
      var front, last := own[..|own| - 1], own[|own| - 1];
      OwnChunks(history, front, key);
      GlobalConcat(history, front);
      JoinRanges(|Global(history)|, |Global(front)|, |last.text|);
      assert (history + own)[..|history + own| - 1] == history + front;
    }
  }

  /** An item delivered in one stretch keeps every citation, moved by the text before it: what a complete
      response does with the same content. */
  lemma StretchMovesByOffset(before: seq<Chunk>, own: seq<Chunk>, after: seq<Chunk>, key: string, start: nat, end: nat)
    requires forall i | 0 <= i < |own| :: own[i].key == key
    requires (forall i | 0 <= i < |before| :: before[i].key != key) && forall i | 0 <= i < |after| :: after[i].key != key
    requires start <= end <= |Global(own)|
    ensures
      var history := before + own + after;
      && |Positions(history, key)| == |Global(own)| && Contiguous(history, key, start, end)
      && (start < |Global(own)| ==> Positions(history, key)[start] == |Global(before)| + start)
  {
    assert [] + before == before;
    OtherChunks([], before, key);
    OwnChunks(before, own, key);
    OtherChunks(before + own, after, key);
  }

  // ---- The projection as it runs ----

  datatype Citation = Citation(start: int, end: int)

  datatype Reason = NoItemStart | ItemLimit | MergeRefused | Shrank | SpanLimit | BadRange | CrossesOthers

  datatype Outcome = Rejected(why: Reason) | Projected(metadata: seq<Citation>, itemMetadata: seq<Citation>)

  /** A started item announces whether it is text; a snapshot carries the item's whole text. */
  datatype Start = Start(isText: bool, payload: Option<string>, metadata: seq<Citation>)

  datatype TextEvent = TextEvent(
    key: string, item: Option<Start>, delta: Option<string>, isSnapshot: bool, metadata: seq<Citation>)

  function EventText(e: TextEvent): Option<string> {
    if e.isSnapshot && e.item.Some? then e.item.value.payload else e.delta
  }

  /** What one citation needs to be moved: an ordered range of delivered text, unbroken in the global text. */
  predicate Movable(history: seq<Chunk>, key: string, c: Citation) {
    && 0 <= c.start <= c.end <= |Positions(history, key)| && |Positions(history, key)| > 0
    && Contiguous(history, key, c.start, c.end)
  }

  /** The moved citation quotes the same text. */
  predicate Quotes(history: seq<Chunk>, key: string, c: Citation, moved: Citation) {
    && 0 <= c.start <= c.end <= |ItemText(history, key)|
    && 0 <= moved.start <= moved.end <= |Global(history)|
    && Global(history)[moved.start..moved.end] == ItemText(history, key)[c.start..c.end]
  }

  predicate AllMovable(history: seq<Chunk>, key: string, citations: seq<Citation>) {
    forall i | 0 <= i < |citations| :: Movable(history, key, citations[i])
  }

  predicate AllQuote(history: seq<Chunk>, key: string, citations: seq<Citation>, moved: seq<Citation>) {
    |moved| == |citations| && forall i | 0 <= i < |moved| :: Quotes(history, key, citations[i], moved[i])
  }

  lemma {:induction false} AbsentItem(history: seq<Chunk>, key: string)
    requires forall i | 0 <= i < |history| :: history[i].key != key
    ensures ItemText(history, key) == "" && Positions(history, key) == []
    decreases |history|
  {
    if history != [] {
      AbsentItem(history[..|history| - 1], key);
    }
  }

  method RebaseAll(item: Item, citations: seq<Citation>, ghost history: seq<Chunk>, ghost key: string)
    returns (r: Option<seq<Citation>>, why: Reason)
    requires Tracks(item, history, key)
    ensures r.Some? <==> AllMovable(history, key, citations)
    ensures r.Some? ==> AllQuote(history, key, citations, r.value)
    ensures why == BadRange || why == CrossesOthers
  {
    var out: seq<Citation> := [];
    PositionsHoldText(history, key);
    for i := 0 to |citations|
      invariant AllMovable(history, key, citations[..i]) && AllQuote(history, key, citations[..i], out)
    {
      var c := citations[i];
      assert citations[..i + 1] == citations[..i] + [c];
      var moved := Rebase(item, c.start, c.end, history, key);
      match moved {
        case InvalidRange => return None, BadRange;
        case Interleaved => return None, CrossesOthers;
        case Moved(start, end) => out := out + [Citation(start, end)];
      }
    }
    assert citations[..|citations|] == citations;
    r, why := Some(out), BadRange;
  }

  function TextKeys(items: map<string, Item>): set<string> {
    set key | key in items && items[key].isText
  }

  /** Each text item is tracked, and all delivered text belongs to a text item. */
  ghost predicate Consistent(items: map<string, Item>, history: seq<Chunk>) {
    && (forall key {:trigger TracksKey(items, history, key)} :: TracksKey(items, history, key))
    && (forall i {:trigger IsTextKey(items, history[i].key)} | 0 <= i < |history| :: IsTextKey(items, history[i].key))
  }

  predicate TracksKey(items: map<string, Item>, history: seq<Chunk>, key: string) {
    key in items && items[key].isText ==> Tracks(items[key], history, key)
  }

  predicate IsTextKey(items: map<string, Item>, key: string) {
    key in items && items[key].isText
  }

  lemma AppendKeepsConsistent(items: map<string, Item>, history: seq<Chunk>, key: string, text: string)
    requires Consistent(items, history) && IsTextKey(items, key) && text != ""
    ensures
      var next := items[key := Grow(items[key], |Global(history)|, |text|)];
      Consistent(next, history + [Chunk(key, text)]) && TextKeys(next) == TextKeys(items)
  {
    var next := items[key := Grow(items[key], |Global(history)|, |text|)];
    var longer := history + [Chunk(key, text)];
    forall other
      ensures TracksKey(next, longer, other)
    {
      assert TracksKey(items, history, other);
      if other == key {
        GrowTracks(items[key], history, key, text);
      } else if other in items && items[other].isText {
        OthersTrack(items[other], history, other, Chunk(key, text));
      }
    }
    KeysStay(items, next, history, key, text);
  }

  lemma KeysStay(items: map<string, Item>, next: map<string, Item>, history: seq<Chunk>, key: string, text: string)
    requires forall i | 0 <= i < |history| :: IsTextKey(items, history[i].key)
    requires IsTextKey(items, key) && next.Keys == items.Keys && forall k | k in items :: next[k].isText == items[k].isText
    ensures TextKeys(next) == TextKeys(items)
    ensures forall i | 0 <= i < |history + [Chunk(key, text)]| :: IsTextKey(next, (history + [Chunk(key, text)])[i].key)
  {
    var longer := history + [Chunk(key, text)];
    forall i | 0 <= i < |longer|
      ensures IsTextKey(next, longer[i].key)
    {
      if i < |history| {
        assert IsTextKey(items, history[i].key);
      }
    }
  }

  lemma StartKeepsConsistent(items: map<string, Item>, history: seq<Chunk>, key: string, isText: bool)
    requires Consistent(items, history) && key !in items
    ensures
      var next := items[key := Item(isText, 0, [])];
      Consistent(next, history) && TextKeys(next) == (if isText then TextKeys(items) + {key} else TextKeys(items))
  {
    var next := items[key := Item(isText, 0, [])];
    forall i | 0 <= i < |history|
      ensures IsTextKey(next, history[i].key) && history[i].key != key
    {
      assert IsTextKey(items, history[i].key);
    }
    AbsentItem(history, key);
    forall other
      ensures TracksKey(next, history, other)
    {
      assert TracksKey(items, history, other);
    }
  }

  ghost predicate Books(items: map<string, Item>, length: nat, spans: nat, textItems: nat, limit: nat, history: seq<Chunk>) {
    && length == |Global(history)| && spans == Runs(history) && spans <= limit && |items| <= limit
    && textItems == |TextKeys(items)| && Consistent(items, history)
  }

  /** The lengths of the listed items, added up. */
  function LengthSum(items: map<string, Item>, keys: seq<string>): nat
    requires forall key | key in keys :: key in items
  {
    if keys == [] then 0 else LengthSum(items, keys[..|keys| - 1]) + items[keys[|keys| - 1]].length
  }

  function TextSum(history: seq<Chunk>, keys: seq<string>): nat {
    if keys == [] then 0 else TextSum(history, keys[..|keys| - 1]) + |ItemText(history, keys[|keys| - 1])|
  }

  /** A chunk makes exactly one of the distinct items longer. */
  lemma {:induction false} OneTextGrows(history: seq<Chunk>, chunk: Chunk, keys: seq<string>)
    requires Distinct(keys)
    ensures TextSum(history + [chunk], keys) == TextSum(history, keys) + if chunk.key in keys then |chunk.text| else 0
    decreases |keys|
  {
    if keys != [] {
      var front, last := keys[..|keys| - 1], keys[|keys| - 1];
      assert keys == front + [last];
      OneTextGrows(history, chunk, front);
      PushChunk(history, chunk, last);
    }
  }

  lemma {:induction false} NothingDelivered(keys: seq<string>)
    ensures TextSum([], keys) == 0
    decreases |keys|
  {
    if keys != [] {
      NothingDelivered(keys[..|keys| - 1]);
    }
  }

  lemma {:induction false} TextsSum(history: seq<Chunk>, keys: seq<string>)
    requires Distinct(keys) && forall i | 0 <= i < |history| :: history[i].key in keys
    ensures TextSum(history, keys) == |Global(history)|
    decreases |history|
  {
    if history == [] {
      NothingDelivered(keys);
    } else {
      var front, last := history[..|history| - 1], history[|history| - 1];
      TextsSum(front, keys);
      OneTextGrows(front, last, keys);
      assert history == front + [last];
    }
  }

  lemma {:induction false} LengthsAreTexts(items: map<string, Item>, history: seq<Chunk>, keys: seq<string>)
    requires Consistent(items, history) && forall key | key in keys :: key in items && IsTextKey(items, key)
    ensures LengthSum(items, keys) == TextSum(history, keys)
    decreases |keys|
  {
    if keys != [] {
      LengthsAreTexts(items, history, keys[..|keys| - 1]);
      assert TracksKey(items, history, keys[|keys| - 1]);
    }
  }

  /** The keys of the text items, once each, in some order. */
  predicate ListsTexts(items: map<string, Item>, keys: seq<string>) {
    && Distinct(keys) && (forall key | key in keys :: key in items && IsTextKey(items, key))
    && (forall key | key in items && IsTextKey(items, key) :: key in keys)
  }

  /** Whatever order the text items are listed in, their lengths add up to the length of the global text. */
  lemma ItemLengthsSum(items: map<string, Item>, length: nat, spans: nat, textItems: nat, limit: nat, history: seq<Chunk>,
                       keys: seq<string>)
    requires Books(items, length, spans, textItems, limit, history)
    requires ListsTexts(items, keys)
    ensures LengthSum(items, keys) == length == |Global(history)|
  {
    LengthsAreTexts(items, history, keys);
    forall i | 0 <= i < |history|
      ensures history[i].key in keys
    {
      assert IsTextKey(items, history[i].key);
    }
    TextsSum(history, keys);
  }

  predicate JoinsLast(item: Item, length: nat) {
    var n := |item.spans|;
    n > 0 && item.spans[n - 1].global + item.spans[n - 1].length == length
  }

  function Grown(items: map<string, Item>, key: string, length: nat, n: nat): map<string, Item>
    requires key in items
  {
    items[key := Grow(items[key], length, n)]
  }

  lemma AppendKeepsBooks(items: map<string, Item>, length: nat, spans: nat, textItems: nat, limit: nat,
                         history: seq<Chunk>, key: string, text: string)
    requires Books(items, length, spans, textItems, limit, history) && IsTextKey(items, key) && text != ""
    ensures JoinsLast(items[key], length) <==> EndsWith(history, key)
    ensures
      var more := if JoinsLast(items[key], length) then spans else spans + 1;
      more <= limit ==>
        Books(Grown(items, key, length, |text|), length + |text|, more, textItems, limit, history + [Chunk(key, text)])
  {
    assert TracksKey(items, history, key);
    AppendKeepsConsistent(items, history, key, text);
    PushChunk(history, Chunk(key, text), key);
    SameSize(items, key, Grow(items[key], length, |text|));
  }

  lemma GrownKeepsKeys(items: map<string, Item>, key: string, length: nat, n: nat)
    requires IsTextKey(items, key)
    ensures Grown(items, key, length, n).Keys == items.Keys && Grown(items, key, length, n)[key].isText
  {
  }

  lemma SameSize(items: map<string, Item>, key: string, item: Item)
    requires key in items
    ensures |items[key := item]| == |items| && items[key := item].Keys == items.Keys
  {
    assert items[key := item].Keys == items.Keys;
    assert |items.Keys| == |items| && |items[key := item].Keys| == |items[key := item]|;
  }

  /** What an event adds to the delivered text: its delta, or what a snapshot has beyond the text delivered before. */
  ghost function Addition(history: seq<Chunk>, e: TextEvent): seq<Chunk> {
    match EventText(e)
    case None => []
    case Some(text) =>
      var from := if e.isSnapshot then |ItemText(history, e.key)| else 0;
      if |text| <= from then [] else [Chunk(e.key, text[from..])]
  }

  /** A snapshot that is long enough makes the delivered text its own exactly if it extends what was delivered before. */
  lemma SnapshotDeliversIffItExtends(history: seq<Chunk>, e: TextEvent)
    requires e.isSnapshot && EventText(e).Some? && |ItemText(history, e.key)| <= |EventText(e).value|
    ensures
      var text, before := EventText(e).value, ItemText(history, e.key);
      ItemText(history + Addition(history, e), e.key) == text <==> text[..|before|] == before
  {
    var text, before := EventText(e).value, ItemText(history, e.key);
    if |text| > |before| {
      PushChunk(history, Chunk(e.key, text[|before|..]), e.key);
      assert text == text[..|before|] + text[|before|..];
    } else {
      assert history + [] == history && text[..|before|] == text;
    }
  }

  /** A snapshot "xy" after "ab" was delivered: nothing is added, and the item's delivered text is not the snapshot. */
  lemma RewritingSnapshotIsLost(key: string)
    ensures
      var history := [Chunk(key, "ab")];
      var e := TextEvent(key, Some(Start(true, Some("xy"), [])), None, true, []);
      && |ItemText(history, key)| <= |EventText(e).value| && Addition(history, e) == []
      && ItemText(history + Addition(history, e), key) == "ab" != EventText(e).value
  {
    var history := [Chunk(key, "ab")];
    PushChunk([], history[0], key);
    assert [] + history == history && history + [] == history && "" + "ab" == "ab";
    assert "ab"[0] != "xy"[0];
  }

  class ChatTextProjection {
    const limit: nat
    var items: map<string, Item>
    var length: nat
    var spans: nat
    var textItems: nat
    ghost var history: seq<Chunk>

    /** The counters and spans are exactly what the simple picture says; switches between items are bounded. */
    ghost predicate Valid()
      reads this
    {
      Books(items, length, spans, textItems, limit, history)
    }

    constructor (limit: nat)
      ensures Valid() && this.limit == limit && history == [] && items == map[]
    {
      this.limit := limit;
      items, length, spans, textItems, history := map[], 0, 0, 0, [];
      new;
      assert TextKeys(items) == {};
    }

    /** The delivered text of an item grows; consecutive text of one item shares a span. */
    method AppendText(key: string, text: string) returns (ok: bool)
      requires Valid() && key in items && items[key].isText && text != ""
      modifies this`items, this`length, this`spans, this`history
      ensures Valid()
      ensures ok <==> old(spans) < limit || EndsWith(old(history), key)
      ensures ok ==> history == old(history) + [Chunk(key, text)] && items == Grown(old(items), key, old(length), |text|)
      ensures !ok ==> history == old(history) && items == old(items)
    {
      var item := items[key];
      AppendKeepsBooks(items, length, spans, textItems, limit, history, key, text);
      var more := if JoinsLast(item, length) then spans else spans + 1;
      if more > limit {
        return false;
      }
      items, length, spans := Grown(items, key, length, |text|), length + |text|, more;
      history := history + [Chunk(key, text)];
      ok := true;
    }

    /** Registers an item at its start. */
    method StartItem(key: string, isText: bool)
      requires Valid() && key !in items && |items| < limit
      modifies this`items, this`textItems
      ensures Valid() && items == old(items)[key := Item(isText, 0, [])]
    {
      StartKeepsConsistent(items, history, key, isText);
      assert key !in TextKeys(items);
      items := items[key := Item(isText, 0, [])];
      if isText {
        textItems := textItems + 1;
      }
    }

    /** Delivers an event's text, if it has any. */
    method Deliver(e: TextEvent) returns (why: Option<Reason>)
      requires Valid() && e.key in items && items[e.key].isText
      modifies this`items, this`length, this`spans, this`history
      ensures Valid() && items.Keys == old(items).Keys && items[e.key].isText
      ensures why == Some(Shrank) <==>
        e.isSnapshot && EventText(e).Some? && |EventText(e).value| < |ItemText(old(history), e.key)|
      ensures why.Some? ==> history == old(history) && (why.value == Shrank || (why.value == SpanLimit && spans == limit))
      ensures why.None? ==> history == old(history) + Addition(old(history), e)
    {
      if EventText(e).None? {
        return None;
      }
      var text := EventText(e).value;
      var item := items[e.key];
      assert TracksKey(items, history, e.key);
      if e.isSnapshot && |text| < item.length {
        return Some(Shrank);
      }
      var added := if e.isSnapshot then text[item.length..] else text;
      if added != "" {
        GrownKeepsKeys(items, e.key, length, |added|);
        var ok := AppendText(e.key, added);
        if !ok {
          return Some(SpanLimit);
        }
      }
      why := None;
    }

    /** Registers the event's item if it is new. `mergeRefused` is the conversion policy's answer when a second text item
        appears. */
    method EnsureItem(e: TextEvent, mergeRefused: bool) returns (why: Option<Reason>)
      requires Valid()
      modifies this`items, this`textItems
      ensures Valid()
      ensures old(e.key in items) ==> items == old(items) && why.None?
      ensures why.None? ==> e.key in items
      ensures why.Some? ==> why.value == NoItemStart || why.value == ItemLimit || why.value == MergeRefused
      ensures why == Some(NoItemStart) <==> e.key !in old(items) && e.item.None?
      ensures why == Some(ItemLimit) <==> e.key !in old(items) && e.item.Some? && |old(items)| == limit
      ensures why == Some(MergeRefused) <==>
        mergeRefused && e.key !in old(items) && e.key in items && items[e.key].isText && |TextKeys(items)| > 1
    {
      if e.key !in items {
        if e.item.None? {
          return Some(NoItemStart);
        }
        if |items| >= limit {
          return Some(ItemLimit);
        }
        StartItem(e.key, e.item.value.isText);
        if items[e.key].isText && textItems > 1 && mergeRefused {
          return Some(MergeRefused);
        }
      }
      why := None;
    }

    /** Moves the event's citations and those of its item. */
    method RebaseBoth(e: TextEvent, itemMetadata: seq<Citation>) returns (r: Outcome)
      requires Valid() && e.key in items && items[e.key].isText
      ensures r.Projected? <==> AllMovable(history, e.key, e.metadata) && AllMovable(history, e.key, itemMetadata)
      ensures r.Projected? ==>
        AllQuote(history, e.key, e.metadata, r.metadata) && AllQuote(history, e.key, itemMetadata, r.itemMetadata)
      ensures r.Rejected? ==> r.why == BadRange || r.why == CrossesOthers
    {
      assert TracksKey(items, history, e.key);
      var metadata, why := RebaseAll(items[e.key], e.metadata, history, e.key);
      if metadata.None? {
        return Rejected(why);
      }
      var moved, itemWhy := RebaseAll(items[e.key], itemMetadata, history, e.key);
      if moved.None? {
        return Rejected(itemWhy);
      }
      r := Projected(metadata.value, moved.value);
    }

    /** One event: registers a new item, delivers its text, moves its citations. */
    method Shape(e: TextEvent, mergeRefused: bool) returns (r: Outcome)
      requires Valid()
      modifies this`items, this`length, this`spans, this`textItems, this`history
      ensures Valid()
      ensures old(history) <= history
      ensures r.Projected? ==> e.key in items
      ensures r.Projected? ==> history == old(history) + if items[e.key].isText then Addition(old(history), e) else []
      ensures r.Projected? && items[e.key].isText ==>
        && AllQuote(history, e.key, e.metadata, r.metadata)
        && (e.item.Some? ==> AllQuote(history, e.key, e.item.value.metadata, r.itemMetadata))
      ensures (r == Rejected(BadRange) || r == Rejected(CrossesOthers)) ==>
        !AllMovable(history, e.key, e.metadata) || (e.item.Some? && !AllMovable(history, e.key, e.item.value.metadata))
      ensures r.Projected? && items[e.key].isText ==>
        AllMovable(history, e.key, e.metadata) && (e.item.Some? ==> AllMovable(history, e.key, e.item.value.metadata))
      ensures r == Rejected(MergeRefused) <==>
        mergeRefused && e.key !in old(items) && e.key in items && items[e.key].isText && |TextKeys(items)| > 1
      ensures r == Rejected(SpanLimit) ==> Runs(history) == limit
      ensures r == Rejected(NoItemStart) <==> e.key !in old(items) && e.item.None?
      ensures r == Rejected(ItemLimit) <==> e.key !in old(items) && e.item.Some? && |old(items)| == limit
    {
      var itemMetadata := if e.item.Some? then e.item.value.metadata else [];
      var refused := EnsureItem(e, mergeRefused);
      if refused.Some? {
        return Rejected(refused.value);
      }
      if !items[e.key].isText {
        return Projected(e.metadata, itemMetadata);
      }
      refused := Deliver(e);
      if refused.Some? {
        return Rejected(refused.value);
      }
      r := RebaseBoth(e, itemMetadata);
    }
  }
}
