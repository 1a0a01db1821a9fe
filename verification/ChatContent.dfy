/** A complete response in Chat form: all text blocks become one, standing where the first one stood, and their
    citations move with them. */
module ChatContent {
  import opened Options
  import opened Sequences
  import opened ChatText

  const ANNOTATIONS := "annotations"
  const LOGPROBS := "logprobs"
  const OPENAI_CHAT := "openai-chat"

  /** An element of an annotation list: a public citation with both its offsets, or anything else. */
  datatype Entry = Public(citation: Citation) | Foreign(encoded: string)

  /** A value as far as merging looks at it. */
  datatype Value = List(entries: seq<Entry>) | Null | Other(encoded: string)

  datatype Slot = Slot(name: string, codec: string)

  datatype Metadata = Metadata(slot: Slot, value: Value)

  /** The slot of the public citations: only they are moved with the text. */
  const PUBLIC := Slot(ANNOTATIONS, OPENAI_CHAT)

  datatype Node =
    | TextNode(text: string, metadata: seq<Metadata>, isScoped: bool)
    | OtherNode(id: string)

  datatype Refusal = ScopedState | PolicyRefuses | BadCitation | NoConcatenation

  datatype Shaped = Refused(why: Refusal) | Shaped(nodes: seq<Node>)

  // ---- Citations ----

  function Moved(e: Entry, offset: int): Entry {
    match e
    case Public(c) => Public(Citation(c.start + offset, c.end + offset))
    case Foreign(_) => e
  }

  function Shift(entries: seq<Entry>, offset: int): (r: seq<Entry>)
    ensures |r| == |entries| && forall i | 0 <= i < |r| :: r[i] == Moved(entries[i], offset)
  {
    seq(|entries|, i requires 0 <= i < |entries| => Moved(entries[i], offset))
  }

  /** Public citations that cannot be moved: no list, or an element without two offsets. A missing list is fine. */
  predicate IsBad(m: Metadata) {
    m.slot == PUBLIC && (m.value.Other? || (m.value.List? && exists i | 0 <= i < |m.value.entries| :: m.value.entries[i].Foreign?))
  }

  predicate AnyBad(metadata: seq<Metadata>) {
    exists i | 0 <= i < |metadata| :: IsBad(metadata[i])
  }

  function Rebased(m: Metadata, offset: int): Metadata {
    if m.slot == PUBLIC && m.value.List? then m.(value := List(Shift(m.value.entries, offset))) else m
  }

  function RebasedAll(metadata: seq<Metadata>, offset: int): (r: seq<Metadata>)
    ensures |r| == |metadata| && forall i | 0 <= i < |r| :: r[i] == Rebased(metadata[i], offset)
  {
    seq(|metadata|, i requires 0 <= i < |metadata| => Rebased(metadata[i], offset))
  }

  /** Rebases only the public URL form. */
  method RebaseURLMetadata(items: seq<Metadata>, offset: int) returns (out: Option<seq<Metadata>>)
    ensures out.None? <==> AnyBad(items)
    ensures out.Some? ==> out.value == RebasedAll(items, offset)
  {
    var moved: seq<Metadata> := [];
    for i := 0 to |items|
      invariant |moved| == i && forall k | 0 <= k < i :: !IsBad(items[k]) && moved[k] == Rebased(items[k], offset)
    {
      var m := items[i];
      if m.slot == PUBLIC && !m.value.Null? {
        if m.value.Other? {
          return None;
        }
        var entries := RebaseEntries(m.value.entries, offset);
        if entries.None? {
          return None;
        }
        m := m.(value := List(entries.value));
      }
      moved := moved + [m];
    }
    assert moved == RebasedAll(items, offset);
    out := Some(moved);
  }

  method RebaseEntries(entries: seq<Entry>, offset: int) returns (out: Option<seq<Entry>>)
    ensures out.None? <==> exists j | 0 <= j < |entries| :: entries[j].Foreign?
    ensures out.Some? ==> out.value == Shift(entries, offset)
  {
    var moved: seq<Entry> := [];
    for j := 0 to |entries|
      invariant moved == Shift(entries, offset)[..j] && forall k | 0 <= k < j :: entries[k].Public?
    {
      if entries[j].Foreign? {
        return None;
      }
      var c := entries[j].citation;
      moved := moved + [Public(Citation(c.start + offset, c.end + offset))];
    }
    assert moved == Shift(entries, offset);
    out := Some(moved);
  }

  // ---- The value of a slot ----

  /** The value of the first entry with the slot. */
  function ValueAt(metadata: seq<Metadata>, s: Slot): Option<Value> {
    if metadata == [] then None
    else
      var front, last := metadata[..|metadata| - 1], metadata[|metadata| - 1];
      match ValueAt(front, s)
      case Some(v) => Some(v)
      case None => if last.slot == s then Some(last.value) else None
  }

  function Slots(metadata: seq<Metadata>): set<Slot> {
    set m | m in metadata :: m.slot
  }

  lemma PushValue(metadata: seq<Metadata>, m: Metadata, s: Slot)
    ensures ValueAt(metadata + [m], s) ==
            if ValueAt(metadata, s).Some? then ValueAt(metadata, s) else if m.slot == s then Some(m.value) else None
  {
    assert (metadata + [m])[..|metadata|] == metadata;
  }

  lemma PushSlot(metadata: seq<Metadata>, m: Metadata)
    ensures Slots(metadata + [m]) == Slots(metadata) + {m.slot}
  {
    assert m in metadata + [m];
    assert forall x | x in metadata :: x in metadata + [m];
  }

  lemma {:induction false} SlotHasValue(metadata: seq<Metadata>, s: Slot)
    ensures ValueAt(metadata, s).Some? <==> s in Slots(metadata)
    decreases |metadata|
  {
    if metadata != [] {
      var front, last := metadata[..|metadata| - 1], metadata[|metadata| - 1];
      SlotHasValue(front, s);
      assert metadata == front + [last];
      PushSlot(front, last);
    }
  }

  /** Only the first entry of a slot counts. */
  predicate IsFirst(metadata: seq<Metadata>, j: nat)
    requires j < |metadata|
  {
    forall k | 0 <= k < j :: metadata[k].slot != metadata[j].slot
  }

  lemma {:induction false} FirstValue(metadata: seq<Metadata>, j: nat, v: Value, s: Slot)
    requires j < |metadata| && IsFirst(metadata, j)
    ensures ValueAt(metadata, metadata[j].slot) == Some(metadata[j].value)
    ensures ValueAt(metadata[j := metadata[j].(value := v)], s) == if s == metadata[j].slot then Some(v) else ValueAt(metadata, s)
    decreases |metadata|
  {
    var front, last := metadata[..|metadata| - 1], metadata[|metadata| - 1];
    var next := metadata[j].(value := v);
    UpdateParts(metadata, j, next);
    if j == |front| {
      PushValue(front, next, s);
      NoValue(front, last.slot);
    } else {
      FirstValue(front, j, v, s);
      PushValue(front[j := next], last, s);
    }
  }

  lemma {:induction false} NoValue(metadata: seq<Metadata>, s: Slot)
    requires forall k | 0 <= k < |metadata| :: metadata[k].slot != s
    ensures ValueAt(metadata, s) == None
    decreases |metadata|
  {
    if metadata != [] {
      NoValue(metadata[..|metadata| - 1], s);
    }
  }

  lemma UpdatedSlots(metadata: seq<Metadata>, j: nat, v: Value)
    requires j < |metadata|
    ensures Slots(metadata[j := metadata[j].(value := v)]) == Slots(metadata)
  {
    var next := metadata[j := metadata[j].(value := v)];
    forall s
      ensures s in Slots(next) <==> s in Slots(metadata)
    {
      if s in Slots(next) {
        var k :| 0 <= k < |next| && next[k].slot == s;
        assert metadata[k] in metadata && metadata[k].slot == s;
      }
      if s in Slots(metadata) {
        var k :| 0 <= k < |metadata| && metadata[k].slot == s;
        assert next[k] in next && next[k].slot == s;
      }
    }
  }

  // ---- Merging one text block into the first ----

  predicate Joinable(s: Slot) {
    s.name == ANNOTATIONS || s.name == LOGPROBS
  }

  function Entries(v: Value): seq<Entry> {
    if v.List? then v.entries else []
  }

  /** Two annotation lists, anything that is no list counting as a missing one. */
  function JoinLists(a: Value, b: Value): Value {
    if !a.List? && Entries(b) == [] then Null else List(Entries(a) + Entries(b))
  }

  function Combine(s: Slot, a: Value, b: Value, join: (Value, Value, string) -> Value): Value {
    if s.name == ANNOTATIONS then JoinLists(a, b) else join(a, b, s.codec)
  }

  /** The value of a slot after one more entry. */
  function Taken(value: Option<Value>, m: Metadata, s: Slot, join: (Value, Value, string) -> Value): Option<Value> {
    if m.slot != s then value
    else match value case None => Some(m.value) case Some(v) => Some(Combine(s, v, m.value, join))
  }

  function Folded(value: Option<Value>, more: seq<Metadata>, s: Slot, join: (Value, Value, string) -> Value): Option<Value> {
    if more == [] then value else Taken(Folded(value, more[..|more| - 1], s, join), more[|more| - 1], s, join)
  }

  lemma FoldOneMore(value: Option<Value>, more: seq<Metadata>, m: Metadata, s: Slot, join: (Value, Value, string) -> Value)
    ensures Folded(value, more + [m], s, join) == Taken(Folded(value, more, s, join), m, s, join)
  {
    assert (more + [m])[..|more|] == more;
  }

  /** Earlier entries stay where they are, and all but the first of a slot as they are. */
  predicate Keeps(a: seq<Metadata>, b: seq<Metadata>) {
    |a| <= |b| && forall k | 0 <= k < |a| :: b[k].slot == a[k].slot && (IsFirst(a, k) || b[k] == a[k])
  }

  lemma KeepsTwice(a: seq<Metadata>, b: seq<Metadata>, c: seq<Metadata>)
    requires Keeps(a, b) && Keeps(b, c)
    ensures Keeps(a, c)
  {
    forall k | 0 <= k < |a|
      ensures c[k].slot == a[k].slot && (IsFirst(a, k) || c[k] == a[k])
    {
      if !IsFirst(a, k) {
        var j :| 0 <= j < k && a[j].slot == a[k].slot;
        assert b[j].slot == b[k].slot;
      }
    }
  }

  /** The slots hold what merging one entry after the other gives. */
  ghost predicate Holds(before: seq<Metadata>, more: seq<Metadata>, after: seq<Metadata>, join: (Value, Value, string) -> Value) {
    && Keeps(before, after) && Slots(after) == Slots(before) + Slots(more)
    && forall s :: ValueAt(after, s) == Folded(ValueAt(before, s), more, s, join)
  }

  /** Adds one entry: joined to the first entry of its slot, or appended. */
  method MergeEntry(metadata: seq<Metadata>, m: Metadata, join: (Value, Value, string) -> Value) returns (r: Option<seq<Metadata>>)
    ensures r.None? <==> !Joinable(m.slot) && m.slot in Slots(metadata)
    ensures r.Some? ==> Holds(metadata, [m], r.value, join)
  {
    for j := 0 to |metadata|
      invariant forall k | 0 <= k < j :: metadata[k].slot != m.slot
    {
      var earlier := metadata[j];
      if earlier.slot == m.slot {
        if m.slot.name != ANNOTATIONS && m.slot.name != LOGPROBS {
          return None;
        }
        var value := if m.slot.name == ANNOTATIONS then JoinLists(earlier.value, m.value) else join(earlier.value, m.value, m.slot.codec);
        JoinedHolds(metadata, j, m, join);
        return Some(metadata[j := m.(value := value)]);
      }
    }
    NewHolds(metadata, m, join);
    r := Some(metadata + [m]);
  }

  lemma OneEntry(m: Metadata)
    ensures [m][..0] == [] && Slots([m]) == {m.slot}
  {
    assert m in [m];
  }

  lemma JoinedHolds(metadata: seq<Metadata>, j: nat, m: Metadata, join: (Value, Value, string) -> Value)
    requires j < |metadata| && IsFirst(metadata, j) && metadata[j].slot == m.slot
    ensures Holds(metadata, [m], metadata[j := m.(value := Combine(m.slot, metadata[j].value, m.value, join))], join)
  {
    var v := Combine(m.slot, metadata[j].value, m.value, join);
    assert metadata[j].(value := v) == m.(value := v);
    var next := metadata[j := metadata[j].(value := v)];
    OneEntry(m);
    UpdatedSlots(metadata, j, v);
    assert metadata[j] in metadata;
    forall s
      ensures ValueAt(next, s) == Folded(ValueAt(metadata, s), [m], s, join)
    {
      FirstValue(metadata, j, v, s);
      FoldOne(ValueAt(metadata, s), m, s, join);
    }
  }

  lemma NewHolds(metadata: seq<Metadata>, m: Metadata, join: (Value, Value, string) -> Value)
    requires forall k | 0 <= k < |metadata| :: metadata[k].slot != m.slot
    ensures Holds(metadata, [m], metadata + [m], join) && m.slot !in Slots(metadata)
  {
    OneEntry(m);
    PushSlot(metadata, m);
    NoValue(metadata, m.slot);
    forall s
      ensures ValueAt(metadata + [m], s) == Folded(ValueAt(metadata, s), [m], s, join)
    {
      PushValue(metadata, m, s);
      FoldOne(ValueAt(metadata, s), m, s, join);
    }
  }

  /** Some entry has a slot that was there before it and cannot be joined. */
  predicate Clash(known: set<Slot>, more: seq<Metadata>) {
    exists i | 0 <= i < |more| :: !Joinable(more[i].slot) && more[i].slot in known + Slots(more[..i])
  }

  lemma SlotHolds(before: seq<Metadata>, more: seq<Metadata>, after: seq<Metadata>, s: Slot, join: (Value, Value, string) -> Value)
    requires Holds(before, more, after, join)
    ensures ValueAt(after, s) == Folded(ValueAt(before, s), more, s, join)
  {
  }

  lemma FoldOne(value: Option<Value>, m: Metadata, s: Slot, join: (Value, Value, string) -> Value)
    ensures Folded(value, [m], s, join) == Taken(value, m, s, join)
  {
    OneEntry(m);
    assert Folded(value, [], s, join) == value;
  }

  lemma HoldsTwice(a: seq<Metadata>, more: seq<Metadata>, b: seq<Metadata>, m: Metadata, c: seq<Metadata>,
                   join: (Value, Value, string) -> Value)
    requires Holds(a, more, b, join) && Holds(b, [m], c, join)
    ensures Holds(a, more + [m], c, join)
  {
    KeepsTwice(a, b, c);
    PushSlot(more, m);
    OneEntry(m);
    forall s
      ensures ValueAt(c, s) == Folded(ValueAt(a, s), more + [m], s, join)
    {
      SlotHolds(a, more, b, s, join);
      SlotHolds(b, [m], c, s, join);
      FoldOne(ValueAt(b, s), m, s, join);
      FoldOneMore(ValueAt(a, s), more, m, s, join);
    }
  }

  lemma NothingHolds(metadata: seq<Metadata>, join: (Value, Value, string) -> Value)
    ensures Holds(metadata, [], metadata, join)
  {
  }

  /** None of the first `n` entries clashes. */
  predicate Fine(known: set<Slot>, more: seq<Metadata>, n: nat) {
    forall k | 0 <= k < n && k < |more| :: Joinable(more[k].slot) || more[k].slot !in known + Slots(more[..k])
  }

  lemma OneMoreHolds(metadata: seq<Metadata>, more: seq<Metadata>, i: nat, merged: seq<Metadata>, next: seq<Metadata>,
                     join: (Value, Value, string) -> Value)
    requires i < |more| && Holds(metadata, more[..i], merged, join) && Holds(merged, [more[i]], next, join)
    ensures Holds(metadata, more[..i + 1], next, join)
  {
    HoldsTwice(metadata, more[..i], merged, more[i], next, join);
    assert more[..i + 1] == more[..i] + [more[i]];
  }

  lemma OneMoreFine(known: set<Slot>, more: seq<Metadata>, i: nat)
    requires i < |more| && Fine(known, more, i) && (Joinable(more[i].slot) || more[i].slot !in known + Slots(more[..i]))
    ensures Fine(known, more, i + 1)
  {
  }

  lemma ClashAt(known: set<Slot>, more: seq<Metadata>, i: nat)
    requires i < |more| && !Joinable(more[i].slot) && more[i].slot in known + Slots(more[..i])
    ensures Clash(known, more)
  {
  }

  lemma AllFine(known: set<Slot>, more: seq<Metadata>)
    requires Fine(known, more, |more|)
    ensures !Clash(known, more)
  {
  }

  method MergeEntries(metadata: seq<Metadata>, more: seq<Metadata>, join: (Value, Value, string) -> Value) returns (r: Option<seq<Metadata>>)
    ensures r.None? <==> Clash(Slots(metadata), more)
    ensures r.Some? ==> Holds(metadata, more, r.value, join)
  {
    var merged := metadata;
    NothingHolds(metadata, join);
    for i := 0 to |more|
      invariant Holds(metadata, more[..i], merged, join) && Fine(Slots(metadata), more, i)
    {
      var next := MergeEntry(merged, more[i], join);
      if next.None? {
        ClashAt(Slots(metadata), more, i);
        return None;
      }
      OneMoreFine(Slots(metadata), more, i);
      OneMoreHolds(metadata, more, i, merged, next.value, join);
      merged := next.value;
    }
    AllFine(Slots(metadata), more);
    assert more[..|more|] == more;
    r := Some(merged);
  }

  lemma RebasedSlots(metadata: seq<Metadata>, offset: int)
    ensures Slots(RebasedAll(metadata, offset)) == Slots(metadata)
  {
    var moved := RebasedAll(metadata, offset);
    forall s
      ensures s in Slots(moved) <==> s in Slots(metadata)
    {
      if s in Slots(moved) {
        var k :| 0 <= k < |moved| && moved[k].slot == s;
        assert metadata[k] in metadata && metadata[k].slot == s;
      }
      if s in Slots(metadata) {
        var k :| 0 <= k < |metadata| && metadata[k].slot == s;
        assert moved[k] in moved && moved[k].slot == s;
      }
    }
  }

  lemma RebasedClash(known: set<Slot>, metadata: seq<Metadata>, offset: int)
    ensures Clash(known, RebasedAll(metadata, offset)) <==> Clash(known, metadata)
  {
    var moved := RebasedAll(metadata, offset);
    forall i | 0 <= i < |metadata|
      ensures moved[i].slot == metadata[i].slot && Slots(moved[..i]) == Slots(metadata[..i])
    {
      RebasedSlots(metadata[..i], offset);
      assert RebasedAll(metadata[..i], offset) == moved[..i];
    }
  }

  // ---- The whole content ----

  function AllText(nodes: seq<Node>): string {
    if nodes == [] then ""
    else
      var last := nodes[|nodes| - 1];
      AllText(nodes[..|nodes| - 1]) + if last.TextNode? then last.text else ""
  }

  /** The slots of all text blocks. */
  function TextSlots(nodes: seq<Node>): set<Slot> {
    if nodes == [] then {}
    else
      var last := nodes[|nodes| - 1];
      TextSlots(nodes[..|nodes| - 1]) + if last.TextNode? then Slots(last.metadata) else {}
  }

  /** What a slot of the joined text holds: the first block's value and, joined to it one after the other, those of the
      later blocks, public citations moved by the text before their block. */
  function ContentValue(nodes: seq<Node>, s: Slot, join: (Value, Value, string) -> Value): Option<Value> {
    if nodes == [] then None
    else
      var front, last := nodes[..|nodes| - 1], nodes[|nodes| - 1];
      var value := ContentValue(front, s, join);
      if !last.TextNode? then value
      else if HasNoText(front) then ValueAt(last.metadata, s)
      else Folded(value, RebasedAll(last.metadata, |AllText(front)|), s, join)
  }

  function WithoutText(nodes: seq<Node>): seq<Node> {
    if nodes == [] then []
    else
      var last := nodes[|nodes| - 1];
      WithoutText(nodes[..|nodes| - 1]) + if last.TextNode? then [] else [last]
  }

  predicate HasNoText(nodes: seq<Node>) {
    forall i | 0 <= i < |nodes| :: !nodes[i].TextNode?
  }

  /** The content with its texts joined: everything before the first text, the text, everything else after it. */
  function Placed(nodes: seq<Node>, at: nat, text: Node): seq<Node>
    requires at < |nodes|
  {
    nodes[..at] + [text] + WithoutText(nodes[at + 1..])
  }

  predicate FirstText(nodes: seq<Node>, at: nat) {
    at < |nodes| && nodes[at].TextNode? && HasNoText(nodes[..at])
  }

  lemma PushNode(nodes: seq<Node>, node: Node)
    ensures AllText(nodes + [node]) == AllText(nodes) + if node.TextNode? then node.text else ""
    ensures TextSlots(nodes + [node]) == TextSlots(nodes) + if node.TextNode? then Slots(node.metadata) else {}
    ensures WithoutText(nodes + [node]) == WithoutText(nodes) + if node.TextNode? then [] else [node]
  {
    assert (nodes + [node])[..|nodes|] == nodes;
  }

  lemma PushContentValue(nodes: seq<Node>, node: Node, s: Slot, join: (Value, Value, string) -> Value)
    ensures ContentValue(nodes + [node], s, join) ==
            if !node.TextNode? then ContentValue(nodes, s, join)
            else if HasNoText(nodes) then ValueAt(node.metadata, s)
            else Folded(ContentValue(nodes, s, join), RebasedAll(node.metadata, |AllText(nodes)|), s, join)
  {
    assert (nodes + [node])[..|nodes|] == nodes;
  }

  lemma {:induction false} NoTextYet(nodes: seq<Node>)
    requires HasNoText(nodes)
    ensures AllText(nodes) == "" && TextSlots(nodes) == {} && WithoutText(nodes) == nodes
    decreases |nodes|
  {
    if nodes != [] {
      NoTextYet(nodes[..|nodes| - 1]);
      assert nodes == nodes[..|nodes| - 1] + [nodes[|nodes| - 1]];
    }
  }

  /** The first block with the later ones joined into it. */
  ghost predicate Joined(nodes: seq<Node>, text: Node, join: (Value, Value, string) -> Value) {
    && text.TextNode? && text.text == AllText(nodes) && Slots(text.metadata) == TextSlots(nodes)
    && forall s :: ValueAt(text.metadata, s) == ContentValue(nodes, s, join)
  }

  /** What joining leaves of the first block as it was. */
  predicate Grew(first: Node, text: Node) {
    first.TextNode? && text.TextNode? && first.isScoped == text.isScoped && Keeps(first.metadata, text.metadata)
  }

  predicate LaterText(nodes: seq<Node>, i: nat) {
    i < |nodes| && nodes[i].TextNode? && !HasNoText(nodes[..i])
  }

  /** Why a later text cannot be joined, if anything stands against it. */
  function RefusalOf(nodes: seq<Node>, i: nat, policyRefuses: bool): Option<Refusal>
    requires i < |nodes|
  {
    if !LaterText(nodes, i) then None
    else if nodes[i].isScoped then Some(ScopedState)
    else if policyRefuses then Some(PolicyRefuses)
    else if AnyBad(nodes[i].metadata) then Some(BadCitation)
    else if Clash(TextSlots(nodes[..i]), nodes[i].metadata) then Some(NoConcatenation)
    else None
  }

  /** The refusal of the first block among the first `n` that cannot be joined. */
  function FirstRefusal(nodes: seq<Node>, n: nat, policyRefuses: bool): Option<Refusal>
    requires n <= |nodes|
  {
    if n == 0 then None
    else if FirstRefusal(nodes, n - 1, policyRefuses).Some? then FirstRefusal(nodes, n - 1, policyRefuses)
    else RefusalOf(nodes, n - 1, policyRefuses)
  }

  /** One more text is joined to the first. */
  method JoinText(first: Node, node: Node, offset: nat, join: (Value, Value, string) -> Value, ghost before: seq<Node>)
    returns (r: Option<Node>, why: Refusal)
    requires Joined(before, first, join) && !HasNoText(before) && node.TextNode? && offset == |AllText(before)|
    ensures r.None? <==> AnyBad(node.metadata) || Clash(TextSlots(before), node.metadata)
    ensures r.None? ==> why == if AnyBad(node.metadata) then BadCitation else NoConcatenation
    ensures r.Some? ==> Joined(before + [node], r.value, join) && Grew(first, r.value)
  {
    var moved := RebaseURLMetadata(node.metadata, offset);
    if moved.None? {
      return None, BadCitation;
    }
    RebasedClash(TextSlots(before), node.metadata, offset);
    var merged := MergeEntries(first.metadata, moved.value, join);
    if merged.None? {
      return None, NoConcatenation;
    }
    JoinedText(before, first, node, merged.value, join);
    return Some(first.(text := first.text + node.text, metadata := merged.value)), NoConcatenation;
  }

  lemma JoinedText(before: seq<Node>, first: Node, node: Node, merged: seq<Metadata>, join: (Value, Value, string) -> Value)
    requires Joined(before, first, join) && !HasNoText(before) && node.TextNode?
    requires Holds(first.metadata, RebasedAll(node.metadata, |AllText(before)|), merged, join)
    ensures Joined(before + [node], first.(text := first.text + node.text, metadata := merged), join)
  {
    PushNode(before, node);
    RebasedSlots(node.metadata, |AllText(before)|);
    forall s
      ensures ValueAt(merged, s) == ContentValue(before + [node], s, join)
    {
      PushContentValue(before, node, s, join);
    }
  }

  /** Where the loop stands after `i` nodes: no text seen yet, or the first text with all texts joined into it. */
  ghost predicate Progress(nodes: seq<Node>, out: seq<Node>, textIndex: int, offset: nat, join: (Value, Value, string) -> Value) {
    && offset == |AllText(nodes)|
    && if textIndex < 0 then HasNoText(nodes) && out == nodes
       else
         && textIndex < |nodes| && textIndex < |out| && FirstText(nodes, textIndex)
         && out == Placed(nodes, textIndex, out[textIndex]) && Joined(nodes, out[textIndex], join)
         && Grew(nodes[textIndex], out[textIndex])
  }

  lemma OtherNodeProgress(nodes: seq<Node>, node: Node, out: seq<Node>, textIndex: int, offset: nat,
                          join: (Value, Value, string) -> Value)
    requires Progress(nodes, out, textIndex, offset, join) && !node.TextNode?
    ensures Progress(nodes + [node], out + [node], textIndex, offset, join)
  {
    PushNode(nodes, node);
    if textIndex >= 0 {
      FirstTextStays(nodes, node, textIndex);
      PlacedPush(nodes, node, textIndex, out[textIndex]);
      OtherNodeJoined(nodes, node, out[textIndex], join);
    }
  }

  lemma OtherNodeJoined(nodes: seq<Node>, node: Node, text: Node, join: (Value, Value, string) -> Value)
    requires Joined(nodes, text, join) && !node.TextNode?
    ensures Joined(nodes + [node], text, join)
  {
    PushNode(nodes, node);
    forall s
      ensures ValueAt(text.metadata, s) == ContentValue(nodes + [node], s, join)
    {
      PushContentValue(nodes, node, s, join);
    }
  }

  lemma FirstTextStays(nodes: seq<Node>, node: Node, at: nat)
    requires FirstText(nodes, at)
    ensures FirstText(nodes + [node], at)
  {
    assert (nodes + [node])[..at] == nodes[..at];
  }

  lemma PlacedPush(nodes: seq<Node>, node: Node, at: nat, text: Node)
    requires at < |nodes|
    ensures Placed(nodes + [node], at, text) == Placed(nodes, at, text) + if node.TextNode? then [] else [node]
  {
    assert (nodes + [node])[..at] == nodes[..at];
    assert (nodes + [node])[at + 1..] == nodes[at + 1..] + [node];
    PushNode(nodes[at + 1..], node);
  }

  lemma PlacedReplace(nodes: seq<Node>, at: nat, a: Node, b: Node)
    requires at < |nodes|
    ensures |Placed(nodes, at, a)| > at && Placed(nodes, at, a)[at := b] == Placed(nodes, at, b)
  {
  }

  lemma FirstTextProgress(nodes: seq<Node>, node: Node, join: (Value, Value, string) -> Value)
    requires HasNoText(nodes) && node.TextNode?
    ensures Progress(nodes + [node], nodes + [node], |nodes|, |node.text|, join)
  {
    PushNode(nodes, node);
    NoTextYet(nodes);
    assert (nodes + [node])[..|nodes|] == nodes && (nodes + [node])[|nodes| + 1..] == [];
    assert Placed(nodes + [node], |nodes|, node) == nodes + [node] + [];
    forall s
      ensures ValueAt(node.metadata, s) == ContentValue(nodes + [node], s, join)
    {
      PushContentValue(nodes, node, s, join);
    }
  }

  lemma GrewTwice(first: Node, text: Node, joined: Node)
    requires Grew(first, text) && Grew(text, joined)
    ensures Grew(first, joined)
  {
    KeepsTwice(first.metadata, text.metadata, joined.metadata);
  }

  lemma JoinedTextProgress(nodes: seq<Node>, node: Node, out: seq<Node>, textIndex: nat, offset: nat, joined: Node,
                           join: (Value, Value, string) -> Value)
    requires Progress(nodes, out, textIndex, offset, join) && node.TextNode?
    requires Joined(nodes + [node], joined, join) && Grew(out[textIndex], joined)
    ensures Progress(nodes + [node], out[textIndex := joined], textIndex, offset + |node.text|, join)
  {
    PushNode(nodes, node);
    FirstTextStays(nodes, node, textIndex);
    GrewTwice(nodes[textIndex], out[textIndex], joined);
    PlacedReplace(nodes, textIndex, out[textIndex], joined);
    PlacedPush(nodes, node, textIndex, joined);
  }

  datatype Step = Stop(reason: Refusal) | Go(out: seq<Node>, textIndex: int, offset: nat)

  lemma SomeText(nodes: seq<Node>, at: nat)
    requires FirstText(nodes, at)
    ensures !HasNoText(nodes)
  {
    assert nodes[at].TextNode?;
  }

  /** One turn of the loop: any other block is appended, the first text is remembered, a later text is joined to it. */
  method AddNode(ghost before: seq<Node>, n: Node, out: seq<Node>, textIndex: int, offset: nat, policyRefuses: bool,
                 join: (Value, Value, string) -> Value) returns (r: Step)
    requires Progress(before, out, textIndex, offset, join)
    ensures r.Go? ==> Progress(before + [n], r.out, r.textIndex, r.offset, join)
    ensures RefusalOf(before + [n], |before|, policyRefuses) == match r case Stop(why) => Some(why) case Go(_, _, _) => None
  {
    assert (before + [n])[..|before|] == before;
    if !n.TextNode? {
      OtherNodeProgress(before, n, out, textIndex, offset, join);
      return Go(out + [n], textIndex, offset);
    }
    if textIndex < 0 {
      FirstTextProgress(before, n, join);
      return Go(out + [n], |out|, |n.text|);
    }
    SomeText(before, textIndex);
    if n.isScoped {
      return Stop(ScopedState);
    }
    if policyRefuses {
      return Stop(PolicyRefuses);
    }
    var joined, why := JoinText(out[textIndex], n, offset, join, before);
    if joined.None? {
      return Stop(why);
    }
    JoinedTextProgress(before, n, out, textIndex, offset, joined.value, join);
    return Go(out[textIndex := joined.value], textIndex, offset + |n.text|);
  }

  /** All blocks are in, and the first text is where it was. */
  ghost predicate ShapedWell(nodes: seq<Node>, out: seq<Node>, at: nat, join: (Value, Value, string) -> Value) {
    && FirstText(nodes, at) && at < |out| && out == Placed(nodes, at, out[at])
    && Joined(nodes, out[at], join) && Grew(nodes[at], out[at])
  }

  /** Joins all text blocks. The result keeps everything else in order, the text is the concatenation of the blocks, and
      each slot holds the blocks' values joined in order, public citations moved by exactly the text before their
      block. Refused exactly for the first block that cannot be joined. */
  method ChatContentShape(nodes: seq<Node>, policyRefuses: bool, join: (Value, Value, string) -> Value) returns (r: Shaped)
    ensures FirstRefusal(nodes, |nodes|, policyRefuses) == match r case Refused(why) => Some(why) case Shaped(_) => None
    ensures r.Shaped? && HasNoText(nodes) ==> r.nodes == nodes
    ensures r.Shaped? && !HasNoText(nodes) ==> exists at: nat :: ShapedWell(nodes, r.nodes, at, join)
  {
    var out: seq<Node>, textIndex: int, offset: nat := [], -1, 0;
    for i := 0 to |nodes|
      invariant Progress(nodes[..i], out, textIndex, offset, join) && FirstRefusal(nodes, i, policyRefuses) == None
    {
      assert nodes[..i + 1] == nodes[..i] + [nodes[i]];
      var step := AddNode(nodes[..i], nodes[i], out, textIndex, offset, policyRefuses, join);
      SameRefusal(nodes, i, policyRefuses);
      if step.Stop? {
        RefusalStays(nodes, i + 1, |nodes|, policyRefuses);
        return Refused(step.reason);
      }
      out, textIndex, offset := step.out, step.textIndex, step.offset;
    }
    assert nodes[..|nodes|] == nodes;
    if textIndex >= 0 {
      SomeText(nodes, textIndex);
      assert ShapedWell(nodes, out, textIndex, join);
    }
    r := Shaped(out);
  }

  lemma SameRefusal(nodes: seq<Node>, i: nat, policyRefuses: bool)
    requires i < |nodes|
    ensures RefusalOf(nodes[..i] + [nodes[i]], i, policyRefuses) == RefusalOf(nodes, i, policyRefuses)
  {
    assert (nodes[..i] + [nodes[i]])[..i] == nodes[..i];
  }

  lemma {:induction false} RefusalStays(nodes: seq<Node>, k: nat, n: nat, policyRefuses: bool)
    requires k <= n <= |nodes| && FirstRefusal(nodes, k, policyRefuses).Some?
    ensures FirstRefusal(nodes, n, policyRefuses) == FirstRefusal(nodes, k, policyRefuses)
    decreases n
  {
    if k < n {
      RefusalStays(nodes, k, n - 1, policyRefuses);
    }
  }

  // ---- The public citations ----

  /** The elements of a slot's value. */
  function EntriesOf(value: Option<Value>): seq<Entry> {
    if value.Some? then Entries(value.value) else []
  }

  /** All public citations of a block. */
  function AllPublic(metadata: seq<Metadata>): seq<Entry> {
    if metadata == [] then []
    else
      var last := metadata[|metadata| - 1];
      AllPublic(metadata[..|metadata| - 1]) + if last.slot == PUBLIC then Entries(last.value) else []
  }

  /** The first block's public citations, then those of the later blocks, each moved by the text before its block. */
  function PublicCitations(nodes: seq<Node>): seq<Entry> {
    if nodes == [] then []
    else
      var front, last := nodes[..|nodes| - 1], nodes[|nodes| - 1];
      PublicCitations(front) +
      if !last.TextNode? then []
      else if HasNoText(front) then EntriesOf(ValueAt(last.metadata, PUBLIC))
      else Shift(AllPublic(last.metadata), |AllText(front)|)
  }

  lemma ShiftJoin(a: seq<Entry>, b: seq<Entry>, offset: int)
    ensures Shift(a + b, offset) == Shift(a, offset) + Shift(b, offset) && Shift([], offset) == []
  {
  }

  lemma TakenPublic(value: Option<Value>, m: Metadata, offset: int, join: (Value, Value, string) -> Value)
    ensures EntriesOf(Taken(value, Rebased(m, offset), PUBLIC, join)) ==
            EntriesOf(value) + if m.slot == PUBLIC then Shift(Entries(m.value), offset) else []
  {
    NothingAdded(EntriesOf(value));
    NothingAdded(Shift(Entries(m.value), offset));
  }

  lemma {:induction false} FoldedPublic(value: Option<Value>, more: seq<Metadata>, offset: int, join: (Value, Value, string) -> Value)
    ensures EntriesOf(Folded(value, RebasedAll(more, offset), PUBLIC, join)) == EntriesOf(value) + Shift(AllPublic(more), offset)
    decreases |more|
  {
    if more == [] {
      ShiftJoin([], [], offset);
    } else {
      var front, last := more[..|more| - 1], more[|more| - 1];
      FoldedPublic(value, front, offset, join);
      assert RebasedAll(more, offset) == RebasedAll(front, offset) + [Rebased(last, offset)];
      FoldOneMore(value, RebasedAll(front, offset), Rebased(last, offset), PUBLIC, join);
      TakenPublic(Folded(value, RebasedAll(front, offset), PUBLIC, join), last, offset, join);
      ShiftJoin(AllPublic(front), if last.slot == PUBLIC then Entries(last.value) else [], offset);
      Associate(EntriesOf(value), Shift(AllPublic(front), offset), if last.slot == PUBLIC then Shift(Entries(last.value), offset) else []);
    }
  }

  /** Main result: the joined text's public citations are those of all blocks, in order, none lost or added, each moved
      by the text before its block. */
  lemma {:induction false} CitationsMoveInOrder(nodes: seq<Node>, join: (Value, Value, string) -> Value)
    ensures EntriesOf(ContentValue(nodes, PUBLIC, join)) == PublicCitations(nodes)
    decreases |nodes|
  {
    if nodes != [] {
      var front, last := nodes[..|nodes| - 1], nodes[|nodes| - 1];
      CitationsMoveInOrder(front, join);
      if last.TextNode? && HasNoText(front) {
        NothingBefore(front);
      } else if last.TextNode? {
        FoldedPublic(ContentValue(front, PUBLIC, join), last.metadata, |AllText(front)|, join);
      }
    }
  }

  lemma {:induction false} NothingBefore(nodes: seq<Node>)
    requires HasNoText(nodes)
    ensures PublicCitations(nodes) == []
    decreases |nodes|
  {
    if nodes != [] {
      NothingBefore(nodes[..|nodes| - 1]);
    }
  }

  /** A moved citation quotes from the joined text what it quoted from its own block. */
  lemma {:induction false} MovedCitationQuotesTheSame(nodes: seq<Node>, i: nat, start: nat, end: nat)
    requires i < |nodes| && nodes[i].TextNode? && start <= end <= |nodes[i].text|
    ensures
      var offset := |AllText(nodes[..i])|;
      offset + end <= |AllText(nodes)| && AllText(nodes)[offset + start..offset + end] == nodes[i].text[start..end]
    decreases |nodes|
  {
    var front := nodes[..|nodes| - 1];
    if i == |front| {
      assert AllText(nodes) == AllText(front) + nodes[i].text;
    } else {
      MovedCitationQuotesTheSame(front, i, start, end);
      assert front[..i] == nodes[..i];
      assert AllText(front) <= AllText(nodes);
    }
  }
}
