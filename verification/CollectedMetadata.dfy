/** Array metadata that arrives in fragments. The collector keeps the fragments and joins them late; what it holds,
    what it charges and what it counts must be what joining each fragment at once would give. Only the explicit
    append contract is modelled. */
module CollectedMetadata {
  import opened Options
  import opened Sequences

  // ---- Values and their compact encoding ----

  /** A JSON value: an array of encoded elements, or something else. `spaces` is white space the compact encoding
      drops. */
  datatype Value = Array(entries: seq<string>, spaces: nat) | Scalar(text: string, spaces: nat)

  datatype Identity = Identity(name: string, codec: string, location: string)

  datatype Metadata = Metadata(id: Identity, path: string, sourceCodec: string, value: Value)

  function TextTotal(entries: seq<string>): nat {
    if entries == [] then 0 else TextTotal(entries[..|entries| - 1]) + |entries[|entries| - 1]|
  }

  function CompactSize(value: Value): nat {
    match value
    case Scalar(text, _) => |text|
    case Array(entries, _) => 2 + TextTotal(entries) + if entries == [] then 0 else |entries| - 1
  }

  function RawSize(value: Value): nat {
    CompactSize(value) + value.spaces
  }

  /** Braces, field names and commas of one encoded entry. */
  const ENTRY_FRAME := 62

  function EntrySize(m: Metadata, textSize: string -> nat): nat {
    ENTRY_FRAME + textSize(m.id.name) + textSize(m.id.codec) + textSize(m.id.location) +
    textSize(m.path) + textSize(m.sourceCodec) + CompactSize(m.value)
  }

  function EntriesSize(list: seq<Metadata>, textSize: string -> nat): nat {
    if list == [] then 0 else EntriesSize(list[..|list| - 1], textSize) + EntrySize(list[|list| - 1], textSize)
  }

  lemma {:induction false} TextTotalConcat(a: seq<string>, b: seq<string>)
    ensures TextTotal(a + b) == TextTotal(a) + TextTotal(b)
    decreases |b|
  {
    if b == [] {
      assert a + b == a;
    } else {
      TextTotalConcat(a, b[..|b| - 1]);
      assert (a + b)[..|a + b| - 1] == a + b[..|b| - 1];
    }
  }

  /** Joining arrays drops one pair of brackets and needs one comma if both have elements. */
  lemma JoinedSize(a: seq<string>, b: seq<string>)
    ensures CompactSize(Array(a + b, 0)) ==
            CompactSize(Array(a, 0)) + CompactSize(Array(b, 0)) - 2 + if a != [] && b != [] then 1 else 0
  {
    TextTotalConcat(a, b);
  }

  lemma PushEntrySize(list: seq<Metadata>, m: Metadata, textSize: string -> nat)
    ensures EntriesSize(list + [m], textSize) == EntriesSize(list, textSize) + EntrySize(m, textSize)
  {
    assert (list + [m])[..|list|] == list;
  }

  lemma {:induction false} ReplaceEntry(list: seq<Metadata>, i: nat, m: Metadata, textSize: string -> nat)
    requires i < |list|
    ensures EntriesSize(list[i := m], textSize) ==
            EntriesSize(list, textSize) - EntrySize(list[i], textSize) + EntrySize(m, textSize)
    decreases |list|
  {
    var front, x := list[..|list| - 1], list[|list| - 1];
    UpdateParts(list, i, m);
    PushEntrySize(front, x, textSize);
    if i == |front| {
      PushEntrySize(front, m, textSize);
    } else {
      ReplaceEntry(front, i, m, textSize);
      PushEntrySize(front[i := m], x, textSize);
    }
  }

  // ---- Joining at once ----

  /** The first entry with an identity, or -1. */
  function PositionFrom(list: seq<Metadata>, id: Identity, from: nat): (r: int)
    requires from <= |list|
    ensures r == -1 || (from <= r < |list| && list[r].id == id)
    ensures forall i | from <= i < |list| && (r == -1 || i < r) :: list[i].id != id
    decreases |list| - from
  {
    if from == |list| then -1 else if list[from].id == id then from else PositionFrom(list, id, from + 1)
  }

  function Position(list: seq<Metadata>, id: Identity): (r: int)
    ensures r == -1 || (0 <= r < |list| && list[r].id == id)
    ensures forall i | 0 <= i < |list| && (r == -1 || i < r) :: list[i].id != id
  {
    PositionFrom(list, id, 0)
  }

  method MetadataPosition(list: seq<Metadata>, id: Identity) returns (r: int)
    ensures r == Position(list, id)
  {
    for i := 0 to |list|
      invariant Position(list, id) == PositionFrom(list, id, i)
    {
      if list[i].id == id {
        return i;
      }
    }
    r := -1;
  }

  /** The entry after one more fragment. */
  function Joined(m: Metadata, delta: Metadata): Metadata
    requires m.value.Array? && delta.value.Array?
  {
    m.(path := delta.path, sourceCodec := delta.sourceCodec, value := Array(m.value.entries + delta.value.entries, 0))
  }

  /** Eager merging of one appended fragment. */
  function EagerAppend(list: seq<Metadata>, delta: Metadata): (r: seq<Metadata>)
    requires delta.value.Array?
  {
    var i := Position(list, delta.id);
    if i < 0 then list + [delta]
    else if list[i].value.Array? then list[i := Joined(list[i], delta)]
    else list
  }

  // ---- Joining late ----

  /** The fragments waiting for the entry at `index`, and what they were charged. */
  datatype Batch = Batch(index: nat, deltas: seq<Metadata>, bytes: nat, charged: int, hasItems: bool)

  function JoinAll(m: Metadata, deltas: seq<Metadata>): (r: Metadata)
    requires m.value.Array? && forall i | 0 <= i < |deltas| :: deltas[i].value.Array?
    ensures r.value.Array? && r.id == m.id
  {
    if deltas == [] then m
    else Joined(JoinAll(m, deltas[..|deltas| - 1]), deltas[|deltas| - 1])
  }

  function RawTotal(deltas: seq<Metadata>): nat {
    if deltas == [] then 0 else RawTotal(deltas[..|deltas| - 1]) + RawSize(deltas[|deltas| - 1].value)
  }

  /** A batch belongs to its entry: identity, bytes, charge and emptiness are those of the joined entry. */
  predicate BatchFits(m: Metadata, b: Batch, textSize: string -> nat) {
    && m.value.Array? && (forall i | 0 <= i < |b.deltas| :: b.deltas[i].value.Array? && b.deltas[i].id == m.id)
    && b.bytes == RawTotal(b.deltas)
    && b.charged == EntrySize(JoinAll(m, b.deltas), textSize) - EntrySize(m, textSize)
    && (b.hasItems <==> JoinAll(m, b.deltas).value.entries != [])
  }

  /** The charge of one fragment is the growth of the compact encoding. */
  function Charge(previous: Metadata, hasItems: bool, delta: Metadata, textSize: string -> nat): int {
    CompactSize(delta.value) - 2 +
    (if delta.value.Array? && delta.value.entries != [] && hasItems then 1 else 0) +
    textSize(delta.path) + textSize(delta.sourceCodec) - textSize(previous.path) - textSize(previous.sourceCodec)
  }

  /** The charge formula is exact, whatever changes: elements, comma, path or codec. */
  lemma ChargeIsGrowth(m: Metadata, delta: Metadata, textSize: string -> nat)
    requires m.value.Array? && delta.value.Array?
    ensures EntrySize(Joined(m, delta), textSize) ==
            EntrySize(m, textSize) + Charge(m, m.value.entries != [], delta, textSize)
  {
    JoinedSize(m.value.entries, delta.value.entries);
  }

  function Extended(b: Batch, delta: Metadata, charge: int): Batch {
    Batch(b.index, b.deltas + [delta], b.bytes + RawSize(delta.value), b.charged + charge,
          Mark(b, delta).hasItems)
  }

  function Mark(b: Batch, delta: Metadata): Batch {
    b.(hasItems := b.hasItems || (delta.value.Array? && delta.value.entries != []))
  }

  lemma JoinOneMore(m: Metadata, deltas: seq<Metadata>, delta: Metadata)
    requires m.value.Array? && delta.value.Array? && forall i | 0 <= i < |deltas| :: deltas[i].value.Array?
    ensures JoinAll(m, deltas + [delta]) == Joined(JoinAll(m, deltas), delta)
    ensures RawTotal(deltas + [delta]) == RawTotal(deltas) + RawSize(delta.value)
  {
    assert (deltas + [delta])[..|deltas|] == deltas;
  }

  lemma ExtendedFits(m: Metadata, b: Batch, delta: Metadata, textSize: string -> nat)
    requires BatchFits(m, b, textSize) && delta.value.Array? && delta.id == m.id
    ensures
      var next := Extended(b, delta, Charge(JoinAll(m, b.deltas), b.hasItems, delta, textSize));
      BatchFits(m, next, textSize) && JoinAll(m, next.deltas) == Joined(JoinAll(m, b.deltas), delta)
  {
    JoinOneMore(m, b.deltas, delta);
    ChargeIsGrowth(JoinAll(m, b.deltas), delta, textSize);
  }

  // ---- One item's entries and batches ----

  function FindFrom(batches: seq<Batch>, index: nat, from: nat): (r: int)
    requires from <= |batches|
    ensures r == -1 || (from <= r < |batches| && batches[r].index == index)
    ensures forall k | from <= k < |batches| && (r == -1 || k < r) :: batches[k].index != index
    decreases |batches| - from
  {
    if from == |batches| then -1 else if batches[from].index == index then from else FindFrom(batches, index, from + 1)
  }

  /** The pending batch of an entry, or -1. */
  function Find(batches: seq<Batch>, index: nat): (r: int)
    ensures r == -1 || (0 <= r < |batches| && batches[r].index == index)
    ensures forall k | 0 <= k < |batches| && (r == -1 || k < r) :: batches[k].index != index
  {
    FindFrom(batches, index, 0)
  }

  method PendingMetadata(batches: seq<Batch>, index: nat) returns (r: int)
    ensures r == Find(batches, index)
  {
    for k := 0 to |batches|
      invariant Find(batches, index) == FindFrom(batches, index, k)
    {
      if batches[k].index == index {
        return k;
      }
    }
    r := -1;
  }

  /** Every batch belongs to an array entry, and no two to the same one. */
  ghost predicate Fits(list: seq<Metadata>, batches: seq<Batch>, textSize: string -> nat) {
    batches == [] ||
    var front, last := batches[..|batches| - 1], batches[|batches| - 1];
    && Fits(list, front, textSize)
    && last.index < |list| && BatchFits(list[last.index], last, textSize) && Find(front, last.index) == -1
  }

  /** What the entries become once everything pending is joined. */
  ghost function View(list: seq<Metadata>, batches: seq<Batch>, textSize: string -> nat): (r: seq<Metadata>)
    requires Fits(list, batches, textSize)
    ensures |r| == |list|
  {
    if batches == [] then list
    else
      var last := batches[|batches| - 1];
      View(list, batches[..|batches| - 1], textSize)[last.index := JoinAll(list[last.index], last.deltas)]
  }

  lemma FindPrefix(batches: seq<Batch>, last: Batch, i: nat)
    ensures Find(batches + [last], i) ==
            if Find(batches, i) >= 0 then Find(batches, i) else if last.index == i then |batches| else -1
  {
    assert forall x | 0 <= x < |batches| :: (batches + [last])[x] == batches[x];
    assert (batches + [last])[|batches|] == last;
  }

  /** The view of one entry: its batch joined, if it has one. */
  lemma {:induction false} ViewAt(list: seq<Metadata>, batches: seq<Batch>, i: nat, textSize: string -> nat)
    requires Fits(list, batches, textSize) && i < |list|
    ensures var k := Find(batches, i);
            View(list, batches, textSize)[i] == (if k < 0 then list[i] else JoinAllOf(list[i], batches[k]))
    ensures View(list, batches, textSize)[i].id == list[i].id
    decreases |batches|
  {
    if batches != [] {
      var front, last := batches[..|batches| - 1], batches[|batches| - 1];
      assert batches == front + [last];
      ViewAt(list, front, i, textSize);
      FindPrefix(front, last, i);
    }
  }

  /** The entry with the batch's fragments, where they can be joined. */
  function JoinAllOf(m: Metadata, b: Batch): Metadata {
    if m.value.Array? && (forall i | 0 <= i < |b.deltas| :: b.deltas[i].value.Array?) then JoinAll(m, b.deltas) else m
  }

  lemma {:induction false} BatchAt(list: seq<Metadata>, batches: seq<Batch>, k: nat, textSize: string -> nat)
    requires Fits(list, batches, textSize) && k < |batches|
    ensures batches[k].index < |list| && BatchFits(list[batches[k].index], batches[k], textSize)
    ensures Find(batches, batches[k].index) == k
    decreases |batches|
  {
    var front, last := batches[..|batches| - 1], batches[|batches| - 1];
    assert batches == front + [last];
    FindPrefix(front, last, batches[k].index);
    if k < |front| {
      BatchAt(list, front, k, textSize);
    }
  }

  lemma ViewKeepsPositions(list: seq<Metadata>, batches: seq<Batch>, id: Identity, textSize: string -> nat)
    requires Fits(list, batches, textSize)
    ensures Position(View(list, batches, textSize), id) == Position(list, id)
  {
    forall i | 0 <= i < |list|
      ensures View(list, batches, textSize)[i].id == list[i].id
    {
      ViewAt(list, batches, i, textSize);
    }
  }

  lemma FitsPush(list: seq<Metadata>, front: seq<Batch>, last: Batch, textSize: string -> nat)
    requires Fits(list, front, textSize)
    requires last.index < |list| && BatchFits(list[last.index], last, textSize) && Find(front, last.index) == -1
    ensures Fits(list, front + [last], textSize)
    ensures View(list, front + [last], textSize) ==
            View(list, front, textSize)[last.index := JoinAll(list[last.index], last.deltas)]
  {
    assert (front + [last])[..|front|] == front;
  }

  lemma FindSame(batches: seq<Batch>, k: nat, b: Batch, i: nat)
    requires k < |batches| && b.index == batches[k].index
    ensures Find(batches[k := b], i) == Find(batches, i)
  {
    assert forall x | 0 <= x < |batches| :: batches[k := b][x].index == batches[x].index;
  }

  lemma SwapUpdates(list: seq<Metadata>, i: nat, a: Metadata, j: nat, b: Metadata)
    requires i < |list| && j < |list| && i != j
    ensures list[i := a][j := b] == list[j := b][i := a]
  {
  }

  lemma OverwriteUpdate(list: seq<Metadata>, i: nat, a: Metadata, b: Metadata)
    requires i < |list|
    ensures list[i := a][i := b] == list[i := b]
  {
  }

  lemma FitsPop(list: seq<Metadata>, front: seq<Batch>, last: Batch, textSize: string -> nat)
    requires Fits(list, front + [last], textSize)
    ensures Fits(list, front, textSize)
    ensures last.index < |list| && BatchFits(list[last.index], last, textSize) && Find(front, last.index) == -1
    ensures View(list, front + [last], textSize) ==
            View(list, front, textSize)[last.index := JoinAll(list[last.index], last.deltas)]
  {
    assert (front + [last])[..|front|] == front;
  }

  /** The view with one entry joined anew. */
  ghost predicate Changes(list: seq<Metadata>, batches: seq<Batch>, next: seq<Batch>, b: Batch, textSize: string -> nat) {
    && b.index < |list| && BatchFits(list[b.index], b, textSize)
    && Fits(list, batches, textSize) && Fits(list, next, textSize)
    && View(list, next, textSize) == View(list, batches, textSize)[b.index := JoinAll(list[b.index], b.deltas)]
  }

  lemma ChangesLast(list: seq<Metadata>, front: seq<Batch>, last: Batch, b: Batch, textSize: string -> nat)
    requires Fits(list, front + [last], textSize) && b.index == last.index < |list|
    requires BatchFits(list[b.index], b, textSize)
    ensures Changes(list, front + [last], front + [b], b, textSize)
  {
    FitsPop(list, front, last, textSize);
    FitsPush(list, front, b, textSize);
    OverwriteUpdate(View(list, front, textSize), b.index, JoinAll(list[b.index], last.deltas), JoinAll(list[b.index], b.deltas));
  }

  lemma ChangesEarlier(list: seq<Metadata>, front: seq<Batch>, last: Batch, next: seq<Batch>, b: Batch, textSize: string -> nat)
    requires Fits(list, front + [last], textSize) && Changes(list, front, next, b, textSize)
    requires last.index != b.index && Find(next, last.index) == Find(front, last.index)
    ensures Changes(list, front + [last], next + [last], b, textSize)
  {
    FitsPop(list, front, last, textSize);
    FitsPush(list, next, last, textSize);
    SwapUpdates(View(list, front, textSize), b.index, JoinAll(list[b.index], b.deltas),
                last.index, JoinAll(list[last.index], last.deltas));
  }

  /** Replacing a batch by one for the same entry changes that entry of the view only. */
  lemma {:induction false} UpdateFits(list: seq<Metadata>, batches: seq<Batch>, k: nat, b: Batch, textSize: string -> nat)
    requires Fits(list, batches, textSize) && k < |batches| && b.index == batches[k].index < |list|
    requires BatchFits(list[b.index], b, textSize)
    ensures Changes(list, batches, batches[k := b], b, textSize)
    decreases |batches|
  {
    var front, last := batches[..|batches| - 1], batches[|batches| - 1];
    SplitUpdate(batches, k, b);
    if k == |front| {
      ChangesLast(list, front, last, b, textSize);
    } else {
      BatchAt(list, front, k, textSize);
      UpdateFits(list, front, k, b, textSize);
      FindSame(front, k, b, last.index);
      ChangesEarlier(list, front, last, front[k := b], b, textSize);
    }
  }

  lemma SplitUpdate(batches: seq<Batch>, k: nat, b: Batch)
    requires k < |batches|
    ensures
      var front, last := batches[..|batches| - 1], batches[|batches| - 1];
      && batches == front + [last]
      && batches[k := b] == (if k == |front| then front + [b] else front[k := b] + [last])
  {
  }

  /** A fragment added to its batch is a fragment joined at once. */
  lemma ExtendedView(list: seq<Metadata>, batches: seq<Batch>, k: nat, delta: Metadata, textSize: string -> nat)
    requires Fits(list, batches, textSize) && k < |batches| && delta.value.Array?
    requires Position(list, delta.id) == batches[k].index
    ensures batches[k].index < |list| && BatchFits(list[batches[k].index], batches[k], textSize)
    ensures
      var m := JoinAll(list[batches[k].index], batches[k].deltas);
      var next := batches[k := Extended(batches[k], delta, Charge(m, batches[k].hasItems, delta, textSize))];
      Fits(list, next, textSize) && View(list, next, textSize) == EagerAppend(View(list, batches, textSize), delta)
  {
    BatchAt(list, batches, k, textSize);
    var index := batches[k].index;
    var m := JoinAll(list[index], batches[k].deltas);
    var b := Extended(batches[k], delta, Charge(m, batches[k].hasItems, delta, textSize));
    ExtendedFits(list[index], batches[k], delta, textSize);
    UpdateFits(list, batches, k, b, textSize);
    ViewKeepsPositions(list, batches, delta.id, textSize);
    ViewAt(list, batches, index, textSize);
  }

  /** A new batch starts empty and changes nothing. */
  lemma EmptyBatchView(list: seq<Metadata>, batches: seq<Batch>, index: nat, textSize: string -> nat)
    requires Fits(list, batches, textSize) && index < |list| && list[index].value.Array? && Find(batches, index) == -1
    ensures
      var next := batches + [Batch(index, [], 0, 0, list[index].value.entries != [])];
      Fits(list, next, textSize) && View(list, next, textSize) == View(list, batches, textSize)
  {
    var next := batches + [Batch(index, [], 0, 0, list[index].value.entries != [])];
    assert next[..|batches|] == batches;
    ViewAt(list, batches, index, textSize);
  }

  // ---- Materializing one item ----

  function ChargedTotal(batches: seq<Batch>): int {
    if batches == [] then 0 else ChargedTotal(batches[..|batches| - 1]) + batches[|batches| - 1].charged
  }

  function DeltaCount(batches: seq<Batch>): nat {
    if batches == [] then 0 else DeltaCount(batches[..|batches| - 1]) + |batches[|batches| - 1].deltas|
  }

  function DeltaBytes(batches: seq<Batch>): nat {
    if batches == [] then 0 else DeltaBytes(batches[..|batches| - 1]) + batches[|batches| - 1].bytes
  }

  lemma PushTotals(batches: seq<Batch>, b: Batch)
    ensures ChargedTotal(batches + [b]) == ChargedTotal(batches) + b.charged
    ensures DeltaCount(batches + [b]) == DeltaCount(batches) + |b.deltas|
    ensures DeltaBytes(batches + [b]) == DeltaBytes(batches) + b.bytes
  {
    assert (batches + [b])[..|batches|] == batches;
  }

  lemma {:induction false} ReplaceTotals(batches: seq<Batch>, k: nat, b: Batch)
    requires k < |batches|
    ensures ChargedTotal(batches[k := b]) == ChargedTotal(batches) - batches[k].charged + b.charged
    ensures DeltaCount(batches[k := b]) == DeltaCount(batches) - |batches[k].deltas| + |b.deltas|
    ensures DeltaBytes(batches[k := b]) == DeltaBytes(batches) - batches[k].bytes + b.bytes
    decreases |batches|
  {
    var last := |batches| - 1;
    UpdateFront(batches, k, b);
    if k < last {
      ReplaceTotals(batches[..last], k, b);
    }
  }

  /** The charges of the pending batches are the growth of the entries they will cause. */
  lemma {:induction false} ChargesAreGrowth(list: seq<Metadata>, batches: seq<Batch>, textSize: string -> nat)
    requires Fits(list, batches, textSize)
    ensures EntriesSize(View(list, batches, textSize), textSize) == EntriesSize(list, textSize) + ChargedTotal(batches)
    decreases |batches|
  {
    if batches != [] {
      var front, last := batches[..|batches| - 1], batches[|batches| - 1];
      ChargesAreGrowth(list, front, textSize);
      ViewAt(list, front, last.index, textSize);
      ReplaceEntry(View(list, front, textSize), last.index, JoinAll(list[last.index], last.deltas), textSize);
    }
  }

  lemma TakeTotals(batches: seq<Batch>, n: nat)
    requires n < |batches|
    ensures ChargedTotal(batches[..n + 1]) == ChargedTotal(batches[..n]) + batches[n].charged
    ensures DeltaCount(batches[..n + 1]) == DeltaCount(batches[..n]) + |batches[n].deltas|
    ensures DeltaBytes(batches[..n + 1]) == DeltaBytes(batches[..n]) + batches[n].bytes
  {
    assert batches[..n + 1] == batches[..n] + [batches[n]];
    PushTotals(batches[..n], batches[n]);
  }

  /** Batches name the first entry of their identity, which is where merging puts the joined value back. */
  predicate NamesFirst(list: seq<Metadata>, batches: seq<Batch>) {
    forall k | 0 <= k < |batches| :: batches[k].index < |list| && Position(list, list[batches[k].index].id) == batches[k].index
  }

  lemma PositionOfSameIds(a: seq<Metadata>, b: seq<Metadata>, id: Identity)
    requires |a| <= |b| && forall i | 0 <= i < |a| :: a[i].id == b[i].id
    requires |a| == |b| || Position(a, id) >= 0
    ensures Position(a, id) == Position(b, id)
  {
  }

  /** A new entry at the end leaves batches and view alone. */
  lemma {:induction false} PushEntry(list: seq<Metadata>, batches: seq<Batch>, m: Metadata, textSize: string -> nat)
    requires Fits(list, batches, textSize)
    ensures Fits(list + [m], batches, textSize) && View(list + [m], batches, textSize) == View(list, batches, textSize) + [m]
    decreases |batches|
  {
    if batches != [] {
      var front, last := batches[..|batches| - 1], batches[|batches| - 1];
      PushEntry(list, front, m, textSize);
      UpdatePushed(View(list, front, textSize), last.index, JoinAll(list[last.index], last.deltas), m);
    }
  }

  lemma UpdatePushed(list: seq<Metadata>, i: nat, a: Metadata, m: Metadata)
    requires i < |list|
    ensures (list + [m])[i := a] == list[i := a] + [m]
  {
  }

  // ---- Totals over all items ----

  function CountAll(deltas: seq<seq<Batch>>): nat {
    if deltas == [] then 0 else CountAll(deltas[..|deltas| - 1]) + DeltaCount(deltas[|deltas| - 1])
  }

  function BytesAll(deltas: seq<seq<Batch>>): nat {
    if deltas == [] then 0 else BytesAll(deltas[..|deltas| - 1]) + DeltaBytes(deltas[|deltas| - 1])
  }

  /** The encoded size of an item: a fixed part that depends only on the number of entries, and the entries. */
  function NodeSize(list: seq<Metadata>, frame: nat -> nat, textSize: string -> nat): int {
    frame(|list|) + EntriesSize(list, textSize)
  }

  function SizeAll(lists: seq<seq<Metadata>>, frame: nat -> nat, textSize: string -> nat): int {
    if lists == [] then 0
    else SizeAll(lists[..|lists| - 1], frame, textSize) + NodeSize(lists[|lists| - 1], frame, textSize)
  }

  lemma {:induction false} UpdatePending(deltas: seq<seq<Batch>>, key: nat, batches: seq<Batch>)
    requires key < |deltas|
    ensures CountAll(deltas[key := batches]) == CountAll(deltas) - DeltaCount(deltas[key]) + DeltaCount(batches)
    ensures BytesAll(deltas[key := batches]) == BytesAll(deltas) - DeltaBytes(deltas[key]) + DeltaBytes(batches)
    decreases |deltas|
  {
    var last := |deltas| - 1;
    UpdateFront(deltas, key, batches);
    if key < last {
      UpdatePending(deltas[..last], key, batches);
    }
  }

  lemma PushSize(lists: seq<seq<Metadata>>, list: seq<Metadata>, frame: nat -> nat, textSize: string -> nat)
    ensures SizeAll(lists + [list], frame, textSize) == SizeAll(lists, frame, textSize) + NodeSize(list, frame, textSize)
  {
    assert (lists + [list])[..|lists|] == lists;
  }

  lemma {:induction false} UpdateSizes(lists: seq<seq<Metadata>>, key: nat, list: seq<Metadata>, frame: nat -> nat, textSize: string -> nat)
    requires key < |lists|
    ensures SizeAll(lists[key := list], frame, textSize) ==
            SizeAll(lists, frame, textSize) - NodeSize(lists[key], frame, textSize) + NodeSize(list, frame, textSize)
    decreases |lists|
  {
    var front, x := lists[..|lists| - 1], lists[|lists| - 1];
    UpdateParts(lists, key, list);
    PushSize(front, x, frame, textSize);
    if key == |front| {
      PushSize(front, list, frame, textSize);
    } else {
      UpdateSizes(front, key, list, frame, textSize);
      PushSize(front[key := list], x, frame, textSize);
    }
  }

  // ---- The books ----

  datatype Reason = NotAnArray | LimitExceeded

  /** All items, numbered as they are registered: what is kept, what is pending, the exact encoded size of each kept
      snapshot, and what joining every fragment at once would have produced. */
  datatype Books = Books(
    items: seq<seq<Metadata>>, deltas: seq<seq<Batch>>, ledger: seq<int>, eager: seq<seq<Metadata>>)

  /** One item: its batches fit, joining them gives the eager entries, its ledger is its exact size. */
  ghost predicate ItemHolds(s: Books, key: nat, frame: nat -> nat, textSize: string -> nat) {
    key < |s.items| == |s.deltas| == |s.ledger| == |s.eager| ==>
    && Fits(s.items[key], s.deltas[key], textSize) && NamesFirst(s.items[key], s.deltas[key])
    && View(s.items[key], s.deltas[key], textSize) == s.eager[key]
    && s.ledger[key] == NodeSize(s.items[key], frame, textSize)
  }

  ghost predicate AllHold(s: Books, frame: nat -> nat, textSize: string -> nat) {
    && |s.items| == |s.deltas| == |s.ledger| == |s.eager|
    && forall key: nat {:trigger ItemHolds(s, key, frame, textSize)} :: ItemHolds(s, key, frame, textSize)
  }

  /** The books and the running totals agree. */
  ghost predicate Balanced(s: Books, bytes: int, count: int, size: int, frame: nat -> nat, textSize: string -> nat) {
    && AllHold(s, frame, textSize)
    && count == CountAll(s.deltas) && size == BytesAll(s.deltas) && bytes == SizeAll(s.eager, frame, textSize)
  }

  /** Changing one item leaves the others in order. */
  lemma OneItemChanges(s: Books, key: nat, list: seq<Metadata>, batches: seq<Batch>, size: int, eager: seq<Metadata>,
                       frame: nat -> nat, textSize: string -> nat)
    requires AllHold(s, frame, textSize) && key < |s.items|
    requires Fits(list, batches, textSize) && NamesFirst(list, batches) && View(list, batches, textSize) == eager
    requires size == NodeSize(list, frame, textSize)
    ensures AllHold(Changed(s, key, list, batches, size, eager), frame, textSize)
  {
    var next := Changed(s, key, list, batches, size, eager);
    forall other: nat
      ensures ItemHolds(next, other, frame, textSize)
    {
      assert ItemHolds(s, other, frame, textSize);
    }
  }

  function Changed(s: Books, key: nat, list: seq<Metadata>, batches: seq<Batch>, size: int, eager: seq<Metadata>): Books
    requires key < |s.items| == |s.deltas| == |s.ledger| == |s.eager|
  {
    Books(s.items[key := list], s.deltas[key := batches], s.ledger[key := size], s.eager[key := eager])
  }

  function Marked(s: Books, key: nat, k: nat, m: Metadata): Books
    requires key < |s.deltas| && k < |s.deltas[key]|
  {
    s.(deltas := s.deltas[key := s.deltas[key][k := Mark(s.deltas[key][k], m)]])
  }

  function Materialized(s: Books, key: nat): Books
    requires key < |s.items| == |s.deltas| == |s.ledger| == |s.eager|
  {
    Books(s.items[key := s.eager[key]], s.deltas[key := []], s.ledger[key := s.ledger[key] + ChargedTotal(s.deltas[key])], s.eager)
  }

  lemma ItemFacts(s: Books, key: nat, frame: nat -> nat, textSize: string -> nat)
    requires AllHold(s, frame, textSize) && key < |s.items|
    ensures Fits(s.items[key], s.deltas[key], textSize) && NamesFirst(s.items[key], s.deltas[key])
    ensures View(s.items[key], s.deltas[key], textSize) == s.eager[key]
    ensures s.ledger[key] == NodeSize(s.items[key], frame, textSize)
  {
    assert ItemHolds(s, key, frame, textSize);
  }

  lemma NothingToJoin(list: seq<Metadata>, textSize: string -> nat)
    ensures Fits(list, [], textSize) && NamesFirst(list, []) && View(list, [], textSize) == list
  {
  }

  lemma MaterializedSize(s: Books, key: nat, frame: nat -> nat, textSize: string -> nat)
    requires AllHold(s, frame, textSize) && key < |s.items|
    ensures s.ledger[key] + ChargedTotal(s.deltas[key]) == NodeSize(s.eager[key], frame, textSize)
  {
    ItemFacts(s, key, frame, textSize);
    ChargesAreGrowth(s.items[key], s.deltas[key], textSize);
  }

  lemma MaterializedKeepsItems(s: Books, key: nat, frame: nat -> nat, textSize: string -> nat)
    requires AllHold(s, frame, textSize) && key < |s.items|
    ensures AllHold(Materialized(s, key), frame, textSize)
  {
    MaterializedSize(s, key, frame, textSize);
    NothingToJoin(s.eager[key], textSize);
    OneItemChanges(s, key, s.eager[key], [], s.ledger[key] + ChargedTotal(s.deltas[key]), s.eager[key], frame, textSize);
    MaterializedIsChange(s, key);
  }

  lemma MaterializedHolds(s: Books, key: nat, bytes: int, count: int, size: int, frame: nat -> nat, textSize: string -> nat)
    requires Balanced(s, bytes, count, size, frame, textSize) && key < |s.items|
    ensures Fits(s.items[key], s.deltas[key], textSize) && NamesFirst(s.items[key], s.deltas[key])
    ensures View(s.items[key], s.deltas[key], textSize) == s.eager[key]
    ensures Balanced(Materialized(s, key), bytes, count - DeltaCount(s.deltas[key]), size - DeltaBytes(s.deltas[key]), frame, textSize)
  {
    ItemFacts(s, key, frame, textSize);
    MaterializedKeepsItems(s, key, frame, textSize);
    UpdatePending(s.deltas, key, []);
  }

  lemma MaterializedIsChange(s: Books, key: nat)
    requires key < |s.items| == |s.deltas| == |s.ledger| == |s.eager|
    ensures Materialized(s, key) ==
            Changed(s, key, s.eager[key], [], s.ledger[key] + ChargedTotal(s.deltas[key]), s.eager[key])
  {
    assert s.eager[key := s.eager[key]] == s.eager;
  }

  // ---- The collector as it runs ----

  class MetadataCollector {
    const limit: nat
    const stateItems: nat
    const frame: nat -> nat
    const textSize: string -> nat
    var items: seq<seq<Metadata>>
    var deltas: seq<seq<Batch>>
    var ledger: seq<int>
    var bytes: int
    var metadataItems: int
    var metadataBytes: int
    ghost var eager: seq<seq<Metadata>>

    ghost function State(): Books
      reads this
    {
      Books(items, deltas, ledger, eager)
    }

    /** Deferred equals eager: every item's view, the bytes charged, and the counters of what is still pending. */
    ghost predicate Valid()
      reads this
    {
      Balanced(State(), bytes, metadataItems, metadataBytes, frame, textSize)
    }

    constructor (limit: nat, stateItems: nat, frame: nat -> nat, textSize: string -> nat)
      ensures Valid() && items == [] && deltas == []
      ensures this.limit == limit && this.stateItems == stateItems && this.frame == frame && this.textSize == textSize
    {
      this.limit, this.stateItems, this.frame, this.textSize := limit, stateItems, frame, textSize;
      items, deltas, ledger, eager, bytes, metadataItems, metadataBytes := [], [], [], [], 0, 0, 0;
    }

    /** Joins everything pending of one item. Nothing changes but where the fragments are kept. */
    method MaterializeItemMetadata(key: nat)
      requires Valid() && key < |items|
      modifies this`items, this`deltas, this`ledger, this`metadataItems, this`metadataBytes
      ensures Valid() && State() == old(Materialized(State(), key))
    {
      MaterializedHolds(State(), key, bytes, metadataItems, metadataBytes, frame, textSize);
      ghost var next := Materialized(State(), key);
      var list, charged, count, size := JoinBatches(items[key], deltas[key], textSize);
      assert items[key := list] == next.items && charged == ChargedTotal(deltas[key]);
      items, ledger, deltas := items[key := list], ledger[key := ledger[key] + charged], deltas[key := []];
      metadataItems, metadataBytes := metadataItems - count, metadataBytes - size;
      assert items == next.items;
      assert ledger == next.ledger;
      assert deltas == next.deltas;
    }

    method MaterializeMetadata()
      requires Valid()
      modifies this`items, this`deltas, this`ledger, this`metadataItems, this`metadataBytes
      ensures Valid() && items == eager && metadataItems == 0 && metadataBytes == 0
    {
      for key := 0 to |items|
        invariant Valid() && |items| == |eager|
        invariant forall k | 0 <= k < key :: items[k] == eager[k] && deltas[k] == []
      {
        MaterializeItemMetadata(key);
      }
      NothingPending(deltas);
    }

    /** A started item brings its first entries; it is charged its exact encoded size. */
    method RegisterItem(list: seq<Metadata>) returns (key: nat)
      requires Valid()
      modifies this`items, this`deltas, this`ledger, this`bytes, this`eager
      ensures Valid() && key == old(|items|)
      ensures items == old(items) + [list] && eager == old(eager) + [list] && deltas == old(deltas) + [[]]
    {
      key := |items|;
      RegisteredHolds(State(), list, frame, textSize);
      ghost var next := Registered(State(), list, frame, textSize);
      var size := NodeSize(list, frame, textSize);
      items, deltas, ledger := items + [list], deltas + [[]], ledger + [size];
      eager, bytes := eager + [list], bytes + size;
      assert State() == next;
    }

    /** A fragment for an identity the item does not have yet becomes an entry; its node is measured again. */
    method AddEntry(key: nat, m: Metadata, otherBytes: nat) returns (failed: Option<Reason>)
      requires Valid() && key < |items| && Position(items[key], m.id) < 0 && m.value.Array?
      modifies this`items, this`ledger, this`bytes, this`eager
      ensures failed.None? ==> Valid() && eager == old(eager)[key := EagerAppend(old(eager)[key], m)]
      ensures failed.None? ==> items == old(items)[key := old(items)[key] + [m]]
      ensures failed.Some? <==> old(bytes) + otherBytes > limit - old(AddedSize(key, m))
      ensures failed.Some? ==> failed.value == LimitExceeded
    {
      AddedEntryHolds(State(), bytes, metadataItems, metadataBytes, key, m, frame, textSize);
      ghost var next := Added(State(), key, m, frame, textSize);
      items := items[key := items[key] + [m]];
      var size := NodeSize(items[key], frame, textSize);
      var retained := bytes - ledger[key] + size;
      if retained + otherBytes > limit {
        return Some(LimitExceeded);
      }
      bytes, ledger := retained, ledger[key := size];
      eager := eager[key := eager[key] + [m]];
      failed := None;
      assert State() == next;
    }

    /** The growth of an item's encoding by one entry. */
    ghost function AddedSize(key: nat, m: Metadata): int
      requires key < |items|
      reads this
    {
      NodeSize(items[key] + [m], frame, textSize) - NodeSize(items[key], frame, textSize)
    }

    /** The pending batch of an entry, created empty if there is none. */
    method EnsureBatch(key: nat, position: nat) returns (k: nat)
      requires Valid() && key < |items| && position < |items[key]| && items[key][position].value.Array?
      requires Position(items[key], items[key][position].id) == position
      modifies this`deltas
      ensures Valid() && |deltas| == |items| && k < |deltas[key]| && deltas[key][k].index == position
    {
      var found := PendingMetadata(deltas[key], position);
      if found >= 0 {
        return found;
      }
      k := |deltas[key]|;
      EmptyBatchBalances(State(), bytes, metadataItems, metadataBytes, key, position, frame, textSize);
      ghost var next := WithEmptyBatch(State(), key, position);
      var hasItems := |items[key][position].value.entries| != 0;
      deltas := deltas[key := deltas[key] + [Batch(position, [], 0, 0, hasItems)]];
      assert State() == next;
    }

    /** Bounds the retained fragments: joins everything pending if one more would be too many. */
    method MakeRoom(key: nat, m: Metadata, otherItems: nat)
      requires Valid() && key < |items|
      modifies this`items, this`deltas, this`ledger, this`metadataItems, this`metadataBytes
      ensures Valid() && |items| == |old(items)|
      ensures StillAppendable(old(items)[key], items[key]) && Position(items[key], m.id) == Position(old(items)[key], m.id)
      ensures old(metadataItems) + otherItems < stateItems && RawSize(m.value) <= limit - old(metadataBytes) ==>
        State() == old(State()) && metadataItems == old(metadataItems) && metadataBytes == old(metadataBytes)
      ensures metadataItems == metadataBytes == 0 ||
        (metadataItems + otherItems < stateItems && RawSize(m.value) <= limit - metadataBytes)
    {
      if metadataItems + otherItems >= stateItems || RawSize(m.value) > limit - metadataBytes {
        MaterializedAppendable(State(), key, frame, textSize);
        MaterializeMetadata();
      }
    }

    /** Appends one fragment to the item: into its batch if everything fits, with the pending fragments joined
        first if they take too much room. `otherItems` and `otherBytes` are what the rest of the collector holds. */
    method AppendMetadataDelta(key: nat, m: Metadata, otherItems: nat, otherBytes: nat) returns (failed: Option<Reason>)
      requires Valid() && key < |items| && m.value.Array? && CanAppend(items[key], m)
      modifies this`items, this`deltas, this`ledger, this`bytes, this`metadataItems, this`metadataBytes, this`eager
      ensures failed.None? ==> Valid() && eager == old(eager)[key := EagerAppend(old(eager)[key], m)]
      ensures failed.None? ==> |items| == |old(items)| && StillAppendable(old(items)[key], items[key])
      ensures failed.Some? ==> failed.value == LimitExceeded
      ensures failed.Some? && Position(old(items)[key], m.id) >= 0 ==> eager == old(eager)
    {
      var position := MetadataPosition(items[key], m.id);
      if position < 0 {
        AddedAppendable(items[key], m);
        failed := AddEntry(key, m, otherBytes);
        return;
      }
      MakeRoom(key, m, otherItems);
      assert CanAppend(items[key], m) && items[key][position].id == m.id;
      if RawSize(m.value) > limit {
        return Some(LimitExceeded);
      }
      var k := EnsureBatch(key, position);
      failed := ExtendBatch(key, k, m, otherBytes);
    }

    /** Adds a fragment to its batch and charges the growth of the encoding. A refused fragment leaves one trace: the
        batch may be marked as holding elements. */
    method ExtendBatch(key: nat, k: nat, m: Metadata, otherBytes: nat) returns (failed: Option<Reason>)
      requires Valid() && key < |items| == |deltas| && k < |deltas[key]| && m.value.Array?
      requires deltas[key][k].index == Position(items[key], m.id)
      modifies this`deltas, this`bytes, this`metadataItems, this`metadataBytes, this`eager
      ensures failed.None? ==> Valid() && eager == old(eager)[key := EagerAppend(old(eager)[key], m)]
      ensures failed.None? ==> bytes <= limit - otherBytes
      ensures failed.Some? ==> failed.value == LimitExceeded && State() == Marked(old(State()), key, k, m)
      ensures failed.Some? ==> (bytes, metadataItems, metadataBytes) == old((bytes, metadataItems, metadataBytes))
    {
      ExtendedHolds(State(), bytes, metadataItems, metadataBytes, key, k, m, frame, textSize);
      var charge := ChargeOf(key, k, m);
      if charge > limit - bytes - otherBytes {
        deltas := deltas[key := deltas[key][k := Mark(deltas[key][k], m)]];
        return Some(LimitExceeded);
      }
      PushFragment(key, k, m, charge);
      failed := None;
    }

    method ChargeOf(key: nat, k: nat, m: Metadata) returns (charge: int)
      requires key < |items| == |deltas| && k < |deltas[key]| && deltas[key][k].index < |items[key]|
      ensures charge == ChargeFor(State(), key, k, m, textSize)
    {
      var pending := deltas[key][k];
      var previous := if |pending.deltas| != 0 then pending.deltas[|pending.deltas| - 1] else items[key][pending.index];
      charge := Charge(previous, pending.hasItems, m, textSize);
    }

    method PushFragment(key: nat, k: nat, m: Metadata, charge: int)
      requires key < |items| == |deltas| == |eager| && k < |deltas[key]| && deltas[key][k].index < |items[key]|
      requires m.value.Array? && CanAppend(eager[key], m) && charge == ChargeFor(State(), key, k, m, textSize)
      modifies this`deltas, this`bytes, this`metadataItems, this`metadataBytes, this`eager
      ensures State() == ExtendedBy(old(State()), key, k, m, textSize) && bytes == old(bytes) + charge
      ensures metadataItems == old(metadataItems) + 1 && metadataBytes == old(metadataBytes) + RawSize(m.value)
    {
      bytes := bytes + charge;
      deltas := deltas[key := deltas[key][k := Extended(deltas[key][k], m, charge)]];
      metadataItems, metadataBytes := metadataItems + 1, metadataBytes + RawSize(m.value);
      eager := eager[key := EagerAppend(eager[key], m)];
    }

    /** Whether every metadata of an event is an array that can be appended; nothing is changed. */
    method CheckDeferrable(key: nat, ms: seq<Metadata>) returns (ok: bool, failed: Option<Reason>)
      requires Valid() && key < |items|
      ensures ok <==> AllArrays(ms) && forall j | 0 <= j < |ms| :: CanAppend(items[key], ms[j])
      ensures failed.Some? ==> failed.value == NotAnArray && exists i :: 0 <= i < |ms| && !CanAppend(items[key], ms[i])
    {
      ItemFits(State(), key, frame, textSize);
      for i := 0 to |ms|
        invariant forall j | 0 <= j < i :: ms[j].value.Array? && CanAppend(items[key], ms[j])
      {
        if !ms[i].value.Array? {
          return false, None;
        }
        var position := MetadataPosition(items[key], ms[i].id);
        if position >= 0 {
          var pending := PendingMetadata(deltas[key], position);
          if pending >= 0 && |deltas[key][pending].deltas| != 0 {
            BatchAt(items[key], deltas[key], pending, textSize);
          } else if !items[key][position].value.Array? {
            return false, Some(NotAnArray);
          }
        }
      }
      ok, failed := true, None;
    }

    /** Appends the fragments one by one. */
    method AppendAll(key: nat, ms: seq<Metadata>, otherItems: nat, otherBytes: nat) returns (failed: Option<Reason>)
      requires Valid() && key < |items| && AllArrays(ms) && AppendableFrom(items[key], ms, 0)
      modifies this`items, this`deltas, this`ledger, this`bytes, this`metadataItems, this`metadataBytes, this`eager
      ensures failed.None? ==> Valid() && eager == old(eager)[key := EagerAll(old(eager)[key], ms)]
      ensures failed.Some? ==> failed.value == LimitExceeded
    {
      ghost var start := eager;
      for i := 0 to |ms|
        invariant Valid() && key < |items| && AppendableFrom(items[key], ms, i)
        invariant AppendedSoFar(start, eager, key, ms, i)
      {
        ghost var before := items[key];
        failed := AppendMetadataDelta(key, ms[i], otherItems, otherBytes);
        if failed.Some? {
          return;
        }
        StillAppendableFrom(before, items[key], ms, i);
        OneMoreAppended(start, key, ms, i);
      }
      AllAppended(start, eager, key, ms);
      failed := None;
    }

    /** One event's appended arrays: deferred fragment by fragment, unless one of them cannot be appended. */
    method DeferMetadataDelta(key: nat, ms: seq<Metadata>, isPlainDelta: bool, otherItems: nat, otherBytes: nat)
      returns (isDeferred: bool, failed: Option<Reason>)
      requires Valid() && key < |items|
      modifies this`items, this`deltas, this`ledger, this`bytes, this`metadataItems, this`metadataBytes, this`eager
      ensures isDeferred && failed.None? ==>
        Valid() && AllArrays(ms) && eager == old(eager)[key := EagerAll(old(eager)[key], ms)]
      ensures !isDeferred && failed != Some(LimitExceeded) ==> Valid() && State() == old(State())
      ensures failed == Some(NotAnArray) ==> exists i :: 0 <= i < |ms| && !CanAppend(old(items)[key], ms[i])
    {
      if !isPlainDelta || |ms| == 0 {
        return false, None;
      }
      isDeferred, failed := CheckDeferrable(key, ms);
      if !isDeferred {
        return;
      }
      failed := AppendAll(key, ms, otherItems, otherBytes);
      isDeferred := failed.None?;
    }
  }

  predicate AppendableFrom(list: seq<Metadata>, ms: seq<Metadata>, from: nat) {
    forall j | from <= j < |ms| :: CanAppend(list, ms[j])
  }

  lemma StillAppendableFrom(a: seq<Metadata>, b: seq<Metadata>, ms: seq<Metadata>, from: nat)
    requires AppendableFrom(a, ms, from) && StillAppendable(a, b)
    ensures AppendableFrom(b, ms, from + 1)
  {
    forall j | from + 1 <= j < |ms|
      ensures CanAppend(b, ms[j])
    {
      assert CanAppend(a, ms[j]);
    }
  }

  /** The eager entries of the item are the start's with the first fragments merged. */
  predicate AppendedSoFar(start: seq<seq<Metadata>>, eager: seq<seq<Metadata>>, key: nat, ms: seq<Metadata>, i: nat) {
    && key < |start| && i <= |ms| && AllArrays(ms)
    && eager == start[key := EagerAll(start[key], ms[..i])]
  }

  lemma OneMoreAppended(start: seq<seq<Metadata>>, key: nat, ms: seq<Metadata>, i: nat)
    requires key < |start| && i < |ms| && AllArrays(ms)
    ensures
      var before := start[key := EagerAll(start[key], ms[..i])];
      AppendedSoFar(start, before[key := EagerAppend(before[key], ms[i])], key, ms, i + 1)
  {
    assert ms[..i + 1] == ms[..i] + [ms[i]];
    EagerOneMore(start[key], ms[..i], ms[i]);
  }

  lemma AllAppended(start: seq<seq<Metadata>>, eager: seq<seq<Metadata>>, key: nat, ms: seq<Metadata>)
    requires AppendedSoFar(start, eager, key, ms, |ms|)
    ensures eager == start[key := EagerAll(start[key], ms)]
  {
    assert ms[..|ms|] == ms;
  }

  predicate CanAppend(list: seq<Metadata>, m: Metadata) {
    Position(list, m.id) < 0 || list[Position(list, m.id)].value.Array?
  }

  /** Whatever could be appended to `a` can be appended to `b`. */
  ghost predicate StillAppendable(a: seq<Metadata>, b: seq<Metadata>) {
    forall m: Metadata {:trigger CanAppend(b, m)} :: CanAppend(a, m) ==> CanAppend(b, m)
  }

  predicate AllArrays(ms: seq<Metadata>) {
    forall i | 0 <= i < |ms| :: ms[i].value.Array?
  }

  /** The left fold of eager merging. */
  function EagerAll(list: seq<Metadata>, ms: seq<Metadata>): seq<Metadata>
    requires AllArrays(ms)
  {
    if ms == [] then list else EagerAppend(EagerAll(list, ms[..|ms| - 1]), ms[|ms| - 1])
  }

  lemma EagerOneMore(list: seq<Metadata>, ms: seq<Metadata>, m: Metadata)
    requires AllArrays(ms) && m.value.Array?
    ensures AllArrays(ms + [m]) && EagerAll(list, ms + [m]) == EagerAppend(EagerAll(list, ms), m)
  {
    assert (ms + [m])[..|ms|] == ms;
  }

  lemma AddedAppendable(list: seq<Metadata>, m: Metadata)
    requires Position(list, m.id) < 0 && m.value.Array?
    ensures StillAppendable(list, list + [m])
  {
    forall x: Metadata | CanAppend(list, x)
      ensures CanAppend(list + [m], x)
    {
      if Position(list, x.id) >= 0 {
        PositionOfSameIds(list, list + [m], x.id);
      }
    }
  }

  lemma MaterializedAppendable(s: Books, key: nat, frame: nat -> nat, textSize: string -> nat)
    requires AllHold(s, frame, textSize) && key < |s.items|
    ensures StillAppendable(s.items[key], s.eager[key])
    ensures forall id :: Position(s.eager[key], id) == Position(s.items[key], id)
  {
    assert ItemHolds(s, key, frame, textSize);
    var list, batches := s.items[key], s.deltas[key];
    forall id
      ensures Position(s.eager[key], id) == Position(list, id)
    {
      ViewKeepsPositions(list, batches, id, textSize);
    }
    forall i | 0 <= i < |list| && list[i].value.Array?
      ensures s.eager[key][i].value.Array?
    {
      ViewAt(list, batches, i, textSize);
    }
  }

  lemma ItemFits(s: Books, key: nat, frame: nat -> nat, textSize: string -> nat)
    requires AllHold(s, frame, textSize) && key < |s.items|
    ensures Fits(s.items[key], s.deltas[key], textSize)
  {
    assert ItemHolds(s, key, frame, textSize);
  }

  lemma UnchangedItem(s: Books, key: nat)
    requires key < |s.items| == |s.ledger|
    ensures s.items[key := s.items[key]] == s.items && s.ledger[key := s.ledger[key]] == s.ledger
  {
  }

  /** The charge only looks at strings the last fragment left behind. */
  lemma ChargeOfPrevious(m: Metadata, b: Batch, delta: Metadata, textSize: string -> nat)
    requires BatchFits(m, b, textSize)
    ensures
      var previous := if |b.deltas| != 0 then b.deltas[|b.deltas| - 1] else m;
      Charge(previous, b.hasItems, delta, textSize) == Charge(JoinAll(m, b.deltas), b.hasItems, delta, textSize)
  {
  }

  lemma AppendGrowth(view: seq<Metadata>, i: nat, delta: Metadata, hasItems: bool, frame: nat -> nat, textSize: string -> nat)
    requires i < |view| && view[i].value.Array? && delta.value.Array? && Position(view, delta.id) == i
    requires hasItems <==> view[i].value.entries != []
    ensures NodeSize(EagerAppend(view, delta), frame, textSize) ==
            NodeSize(view, frame, textSize) + Charge(view[i], hasItems, delta, textSize)
  {
    ReplaceEntry(view, i, Joined(view[i], delta), textSize);
    ChargeIsGrowth(view[i], delta, textSize);
  }

  /** What the fragment is charged: the strings it replaces are those of the last fragment, or of the entry. */
  ghost function ChargeFor(s: Books, key: nat, k: nat, m: Metadata, textSize: string -> nat): int
    requires key < |s.items| == |s.deltas| && k < |s.deltas[key]| && s.deltas[key][k].index < |s.items[key]|
  {
    var pending := s.deltas[key][k];
    Charge(if |pending.deltas| != 0 then pending.deltas[|pending.deltas| - 1] else s.items[key][pending.index],
           pending.hasItems, m, textSize)
  }

  ghost function ExtendedBy(s: Books, key: nat, k: nat, m: Metadata, textSize: string -> nat): Books
    requires key < |s.items| == |s.deltas| == |s.eager| && k < |s.deltas[key]| && s.deltas[key][k].index < |s.items[key]|
    requires m.value.Array? && CanAppend(s.eager[key], m)
  {
    var b := Extended(s.deltas[key][k], m, ChargeFor(s, key, k, m, textSize));
    s.(deltas := s.deltas[key := s.deltas[key][k := b]], eager := s.eager[key := EagerAppend(s.eager[key], m)])
  }

  lemma ExtendedIsChange(s: Books, key: nat, batches: seq<Batch>, eager: seq<Metadata>)
    requires key < |s.items| == |s.deltas| == |s.ledger| == |s.eager|
    ensures Changed(s, key, s.items[key], batches, s.ledger[key], eager) ==
            s.(deltas := s.deltas[key := batches], eager := s.eager[key := eager])
  {
    UnchangedItem(s, key);
  }

  /** The extended batch, charged against the entry as joined so far. */
  lemma ChargedAsJoined(s: Books, key: nat, k: nat, m: Metadata, frame: nat -> nat, textSize: string -> nat)
    requires AllHold(s, frame, textSize) && key < |s.items| && k < |s.deltas[key]| && m.value.Array?
    requires s.deltas[key][k].index == Position(s.items[key], m.id)
    ensures s.deltas[key][k].index < |s.items[key]| && BatchFits(s.items[key][s.deltas[key][k].index], s.deltas[key][k], textSize)
    ensures
      var pending := s.deltas[key][k];
      ChargeFor(s, key, k, m, textSize) ==
      Charge(JoinAll(s.items[key][pending.index], pending.deltas), pending.hasItems, m, textSize)
  {
    var list, batches, pending := s.items[key], s.deltas[key], s.deltas[key][k];
    ItemFacts(s, key, frame, textSize);
    BatchAt(list, batches, k, textSize);
    ChargeOfPrevious(list[pending.index], pending, m, textSize);
  }

  lemma ExtendedItem(list: seq<Metadata>, batches: seq<Batch>, k: nat, m: Metadata, eager: seq<Metadata>, b: Batch,
                     textSize: string -> nat)
    requires Fits(list, batches, textSize) && NamesFirst(list, batches) && View(list, batches, textSize) == eager
    requires k < |batches| && m.value.Array? && batches[k].index == Position(list, m.id)
    requires batches[k].index < |list| && BatchFits(list[batches[k].index], batches[k], textSize)
    requires b == Extended(batches[k], m, Charge(JoinAll(list[batches[k].index], batches[k].deltas), batches[k].hasItems, m, textSize))
    ensures CanAppend(eager, m)
    ensures Fits(list, batches[k := b], textSize) && NamesFirst(list, batches[k := b])
    ensures View(list, batches[k := b], textSize) == EagerAppend(eager, m)
  {
    ExtendedView(list, batches, k, m, textSize);
    ViewAt(list, batches, batches[k].index, textSize);
    ViewKeepsPositions(list, batches, m.id, textSize);
    NamesFirstAfterUpdate(list, batches, k, b);
  }

  lemma ExtendedKeepsItems(s: Books, key: nat, k: nat, m: Metadata, frame: nat -> nat, textSize: string -> nat)
    requires AllHold(s, frame, textSize) && key < |s.items| && k < |s.deltas[key]| && m.value.Array?
    requires s.deltas[key][k].index == Position(s.items[key], m.id)
    ensures s.deltas[key][k].index < |s.items[key]| && CanAppend(s.eager[key], m)
    ensures AllHold(ExtendedBy(s, key, k, m, textSize), frame, textSize)
  {
    ChargedAsJoined(s, key, k, m, frame, textSize);
    ItemFacts(s, key, frame, textSize);
    var list, batches := s.items[key], s.deltas[key];
    var b := Extended(batches[k], m, ChargeFor(s, key, k, m, textSize));
    ExtendedItem(list, batches, k, m, s.eager[key], b, textSize);
    OneItemChanges(s, key, list, batches[k := b], s.ledger[key], EagerAppend(s.eager[key], m), frame, textSize);
    ExtendedIsChange(s, key, batches[k := b], EagerAppend(s.eager[key], m));
  }

  /** The eager entries grow by exactly the charge. */
  lemma ExtendedGrows(s: Books, key: nat, k: nat, m: Metadata, frame: nat -> nat, textSize: string -> nat)
    requires AllHold(s, frame, textSize) && key < |s.items| && k < |s.deltas[key]| && m.value.Array?
    requires s.deltas[key][k].index == Position(s.items[key], m.id)
    ensures s.deltas[key][k].index < |s.items[key]|
    ensures SizeAll(s.eager[key := EagerAppend(s.eager[key], m)], frame, textSize) ==
            SizeAll(s.eager, frame, textSize) + ChargeFor(s, key, k, m, textSize)
  {
    ChargedAsJoined(s, key, k, m, frame, textSize);
    ItemFacts(s, key, frame, textSize);
    var list, batches, pending := s.items[key], s.deltas[key], s.deltas[key][k];
    BatchAt(list, batches, k, textSize);
    ViewAt(list, batches, pending.index, textSize);
    ViewKeepsPositions(list, batches, m.id, textSize);
    AppendGrowth(s.eager[key], pending.index, m, pending.hasItems, frame, textSize);
    UpdateSizes(s.eager, key, EagerAppend(s.eager[key], m), frame, textSize);
  }

  lemma ExtendedHolds(s: Books, bytes: int, count: int, size: int, key: nat, k: nat, m: Metadata,
                      frame: nat -> nat, textSize: string -> nat)
    requires Balanced(s, bytes, count, size, frame, textSize) && key < |s.items| && k < |s.deltas[key]| && m.value.Array?
    requires s.deltas[key][k].index == Position(s.items[key], m.id)
    ensures s.deltas[key][k].index < |s.items[key]| && CanAppend(s.eager[key], m)
    ensures Balanced(ExtendedBy(s, key, k, m, textSize), bytes + ChargeFor(s, key, k, m, textSize), count + 1,
                     size + RawSize(m.value), frame, textSize)
  {
    ExtendedKeepsItems(s, key, k, m, frame, textSize);
    ExtendedGrows(s, key, k, m, frame, textSize);
    var b := Extended(s.deltas[key][k], m, ChargeFor(s, key, k, m, textSize));
    UpdatePending(s.deltas, key, s.deltas[key][k := b]);
    ReplaceTotals(s.deltas[key], k, b);
  }

  lemma NamesFirstAfterUpdate(list: seq<Metadata>, batches: seq<Batch>, k: nat, b: Batch)
    requires NamesFirst(list, batches) && k < |batches| && b.index == batches[k].index
    ensures NamesFirst(list, batches[k := b])
  {
    assert forall x | 0 <= x < |batches| :: batches[k := b][x].index == batches[x].index;
  }

  /** Eager merging, as it runs when an event cannot be deferred. */
  method MergeEventMetadata(list: seq<Metadata>, ms: seq<Metadata>) returns (r: Option<seq<Metadata>>)
    requires AllArrays(ms)
    ensures r.Some? ==> r.value == EagerAll(list, ms)
    ensures (forall i | 0 <= i < |ms| :: CanAppend(list, ms[i])) ==> r.Some?
  {
    r := Some(list);
    for i := 0 to |ms|
      invariant r.Some? && AllArrays(ms[..i]) && r.value == EagerAll(list, ms[..i])
      invariant (forall j | 0 <= j < |ms| :: CanAppend(list, ms[j])) ==> forall j | 0 <= j < |ms| :: CanAppend(r.value, ms[j])
    {
      var m := ms[i];
      assert ms[..i + 1] == ms[..i] + [m];
      EagerOneMore(list, ms[..i], m);
      var position := MetadataPosition(r.value, m.id);
      if position < 0 {
        AddedAppendable(r.value, m);
        r := Some(r.value + [m]);
      } else {
        if !r.value[position].value.Array? {
          return None;
        }
        JoinedAppendable(r.value, position, m);
        r := Some(r.value[position := Joined(r.value[position], m)]);
      }
    }
    assert ms[..|ms|] == ms;
  }

  lemma JoinedAppendable(list: seq<Metadata>, i: nat, m: Metadata)
    requires i < |list| && list[i].value.Array? && m.value.Array?
    ensures StillAppendable(list, list[i := Joined(list[i], m)])
  {
    var next := list[i := Joined(list[i], m)];
    forall x: Metadata | CanAppend(list, x)
      ensures CanAppend(next, x)
    {
      PositionOfSameIds(list, next, x.id);
    }
  }

  lemma {:induction false} NothingPending(deltas: seq<seq<Batch>>)
    requires forall k | 0 <= k < |deltas| :: deltas[k] == []
    ensures CountAll(deltas) == 0 && BytesAll(deltas) == 0
    decreases |deltas|
  {
    if deltas != [] {
      NothingPending(deltas[..|deltas| - 1]);
    }
  }

  function Registered(s: Books, list: seq<Metadata>, frame: nat -> nat, textSize: string -> nat): Books {
    Books(s.items + [list], s.deltas + [[]], s.ledger + [NodeSize(list, frame, textSize)], s.eager + [list])
  }

  lemma RegisteredHolds(s: Books, list: seq<Metadata>, frame: nat -> nat, textSize: string -> nat)
    requires AllHold(s, frame, textSize)
    ensures
      var next := Registered(s, list, frame, textSize);
      && AllHold(next, frame, textSize)
      && CountAll(next.deltas) == CountAll(s.deltas) && BytesAll(next.deltas) == BytesAll(s.deltas)
      && SizeAll(next.eager, frame, textSize) == SizeAll(s.eager, frame, textSize) + NodeSize(list, frame, textSize)
  {
    var next := Registered(s, list, frame, textSize);
    PushNothing(s.deltas);
    PushSize(s.eager, list, frame, textSize);
    forall other: nat
      ensures ItemHolds(next, other, frame, textSize)
    {
      assert ItemHolds(s, other, frame, textSize);
    }
  }

  lemma PushNothing(deltas: seq<seq<Batch>>)
    ensures CountAll(deltas + [[]]) == CountAll(deltas) && BytesAll(deltas + [[]]) == BytesAll(deltas)
  {
    assert (deltas + [[]])[..|deltas|] == deltas;
  }

  lemma UnchangedDeltas(s: Books, key: nat)
    requires key < |s.deltas|
    ensures s.deltas[key := s.deltas[key]] == s.deltas
  {
  }

  lemma NamesFirstAfterPush(list: seq<Metadata>, batches: seq<Batch>, m: Metadata)
    requires NamesFirst(list, batches)
    ensures NamesFirst(list + [m], batches)
  {
    forall k | 0 <= k < |batches|
      ensures Position(list + [m], (list + [m])[batches[k].index].id) == batches[k].index
    {
      PositionOfSameIds(list, list + [m], list[batches[k].index].id);
    }
  }

  function Added(s: Books, key: nat, m: Metadata, frame: nat -> nat, textSize: string -> nat): Books
    requires key < |s.items| == |s.deltas| == |s.ledger| == |s.eager|
  {
    var list := s.items[key] + [m];
    Books(s.items[key := list], s.deltas, s.ledger[key := NodeSize(list, frame, textSize)], s.eager[key := s.eager[key] + [m]])
  }

  lemma AddedEntryHolds(s: Books, bytes: int, count: int, size: int, key: nat, m: Metadata, frame: nat -> nat, textSize: string -> nat)
    requires Balanced(s, bytes, count, size, frame, textSize) && key < |s.items|
    requires Position(s.items[key], m.id) < 0 && m.value.Array?
    ensures s.ledger[key] == NodeSize(s.items[key], frame, textSize)
    ensures EagerAppend(s.eager[key], m) == s.eager[key] + [m]
    ensures
      var grown := NodeSize(s.items[key] + [m], frame, textSize);
      Balanced(Added(s, key, m, frame, textSize), bytes - s.ledger[key] + grown, count, size, frame, textSize)
  {
    assert ItemHolds(s, key, frame, textSize);
    var list, batches := s.items[key], s.deltas[key];
    PushEntry(list, batches, m, textSize);
    PushEntrySize(list, m, textSize);
    PushEntrySize(s.eager[key], m, textSize);
    ViewKeepsPositions(list, batches, m.id, textSize);
    NamesFirstAfterPush(list, batches, m);
    OneItemChanges(s, key, list + [m], batches, NodeSize(list + [m], frame, textSize), s.eager[key] + [m], frame, textSize);
    UnchangedDeltas(s, key);
    UpdateSizes(s.eager, key, s.eager[key] + [m], frame, textSize);
  }

  function EmptyBatch(list: seq<Metadata>, position: nat): Batch
    requires position < |list| && list[position].value.Array?
  {
    Batch(position, [], 0, 0, list[position].value.entries != [])
  }

  function WithEmptyBatch(s: Books, key: nat, position: nat): Books
    requires key < |s.items| == |s.deltas| && position < |s.items[key]| && s.items[key][position].value.Array?
  {
    s.(deltas := s.deltas[key := s.deltas[key] + [EmptyBatch(s.items[key], position)]])
  }

  lemma OneMoreName(list: seq<Metadata>, batches: seq<Batch>, b: Batch)
    requires NamesFirst(list, batches) && b.index < |list| && Position(list, list[b.index].id) == b.index
    ensures NamesFirst(list, batches + [b])
  {
    assert forall k | 0 <= k < |batches| :: (batches + [b])[k] == batches[k];
  }

  lemma EmptyBatchFits(list: seq<Metadata>, batches: seq<Batch>, position: nat, textSize: string -> nat)
    requires Fits(list, batches, textSize) && NamesFirst(list, batches) && position < |list| && list[position].value.Array?
    requires Find(batches, position) == -1 && Position(list, list[position].id) == position
    ensures
      var next := batches + [EmptyBatch(list, position)];
      Fits(list, next, textSize) && NamesFirst(list, next) && View(list, next, textSize) == View(list, batches, textSize)
  {
    EmptyBatchView(list, batches, position, textSize);
    OneMoreName(list, batches, EmptyBatch(list, position));
  }

  lemma WithEmptyBatchIsChange(s: Books, key: nat, position: nat)
    requires key < |s.items| == |s.deltas| == |s.ledger| == |s.eager|
    requires position < |s.items[key]| && s.items[key][position].value.Array?
    ensures
      var batches := s.deltas[key] + [EmptyBatch(s.items[key], position)];
      WithEmptyBatch(s, key, position) == Changed(s, key, s.items[key], batches, s.ledger[key], s.eager[key])
  {
    UnchangedItem(s, key);
    assert s.eager[key := s.eager[key]] == s.eager;
  }

  lemma EmptyBatchHolds(s: Books, key: nat, position: nat, frame: nat -> nat, textSize: string -> nat)
    requires AllHold(s, frame, textSize) && key < |s.items| && position < |s.items[key]|
    requires s.items[key][position].value.Array? && Find(s.deltas[key], position) == -1
    requires Position(s.items[key], s.items[key][position].id) == position
    ensures AllHold(WithEmptyBatch(s, key, position), frame, textSize)
  {
    ItemFacts(s, key, frame, textSize);
    EmptyBatchFits(s.items[key], s.deltas[key], position, textSize);
    OneItemChanges(s, key, s.items[key], s.deltas[key] + [EmptyBatch(s.items[key], position)], s.ledger[key], s.eager[key],
                   frame, textSize);
    WithEmptyBatchIsChange(s, key, position);
  }

  lemma EmptyBatchBalances(s: Books, bytes: int, count: int, size: int, key: nat, position: nat,
                           frame: nat -> nat, textSize: string -> nat)
    requires Balanced(s, bytes, count, size, frame, textSize) && key < |s.items| && position < |s.items[key]|
    requires s.items[key][position].value.Array? && Find(s.deltas[key], position) == -1
    requires Position(s.items[key], s.items[key][position].id) == position
    ensures Balanced(WithEmptyBatch(s, key, position), bytes, count, size, frame, textSize)
  {
    var b := EmptyBatch(s.items[key], position);
    EmptyBatchHolds(s, key, position, frame, textSize);
    UpdatePending(s.deltas, key, s.deltas[key] + [b]);
    PushTotals(s.deltas[key], b);
  }

  /** The joined entries of one item, and what leaves the pending books. */
  method JoinBatches(list: seq<Metadata>, batches: seq<Batch>, textSize: string -> nat)
    returns (joined: seq<Metadata>, charged: int, count: nat, size: nat)
    requires Fits(list, batches, textSize) && NamesFirst(list, batches)
    ensures joined == View(list, batches, textSize)
    ensures charged == ChargedTotal(batches) && count == DeltaCount(batches) && size == DeltaBytes(batches)
  {
    joined, charged, count, size := list, 0, 0, 0;
    for n := 0 to |batches|
      invariant Fits(list, batches[..n], textSize) && joined == View(list, batches[..n], textSize)
      invariant charged == ChargedTotal(batches[..n]) && count == DeltaCount(batches[..n]) && size == DeltaBytes(batches[..n])
    {
      JoinStep(list, batches, n, textSize);
      TakeTotals(batches, n);
      ViewKeepsPositions(list, batches[..n], list[batches[n].index].id, textSize);
      joined := MergeBatch(joined, batches[n]);
      charged, count, size := charged + batches[n].charged, count + |batches[n].deltas|, size + batches[n].bytes;
    }
    assert batches[..|batches|] == batches;
  }

  /** Puts one joined entry back where its identity first stands. */
  method MergeBatch(list: seq<Metadata>, b: Batch) returns (r: seq<Metadata>)
    requires b.index < |list| && list[b.index].value.Array? && forall i | 0 <= i < |b.deltas| :: b.deltas[i].value.Array?
    requires Position(list, list[b.index].id) == b.index
    ensures r == list[b.index := JoinAll(list[b.index], b.deltas)]
  {
    var joined := list[b.index];
    for i := 0 to |b.deltas|
      invariant joined.value.Array? && joined == JoinAll(list[b.index], b.deltas[..i])
    {
      assert b.deltas[..i + 1][..i] == b.deltas[..i];
      joined := Joined(joined, b.deltas[i]);
    }
    assert b.deltas[..|b.deltas|] == b.deltas;
    var position := MetadataPosition(list, joined.id);
    r := list[position := joined];
  }

  lemma {:induction false} FitsTake(list: seq<Metadata>, batches: seq<Batch>, n: nat, textSize: string -> nat)
    requires Fits(list, batches, textSize) && n <= |batches|
    ensures Fits(list, batches[..n], textSize)
    decreases |batches|
  {
    if n < |batches| {
      FitsTake(list, batches[..|batches| - 1], n, textSize);
      assert batches[..|batches| - 1][..n] == batches[..n];
    } else {
      assert batches[..n] == batches;
    }
  }

  lemma TakeOneMore(batches: seq<Batch>, n: nat)
    requires n < |batches|
    ensures batches[..n + 1] == batches[..n] + [batches[n]]
  {
  }

  lemma JoinStep(list: seq<Metadata>, batches: seq<Batch>, n: nat, textSize: string -> nat)
    requires Fits(list, batches, textSize) && n < |batches|
    ensures Fits(list, batches[..n], textSize) && Fits(list, batches[..n + 1], textSize)
    ensures batches[n].index < |list| && BatchFits(list[batches[n].index], batches[n], textSize)
    ensures
      var b, view := batches[n], View(list, batches[..n], textSize);
      && view[b.index] == list[b.index]
      && View(list, batches[..n + 1], textSize) == view[b.index := JoinAll(list[b.index], b.deltas)]
  {
    FitsTake(list, batches, n, textSize);
    FitsTake(list, batches, n + 1, textSize);
    TakeOneMore(batches, n);
    FitsPop(list, batches[..n], batches[n], textSize);
    ViewAt(list, batches[..n], batches[n].index, textSize);
  }
}
