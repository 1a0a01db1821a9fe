/** Delivery of continuation carriers to a client: sealed entries are handed out in batches, each batch counts only
    after every one of its tokens was seen in the output exactly once and the host confirmed the write. */
module CarrierDelivery {
  import opened Sequences

  datatype Sealed = Sealed(token: string, id: string, owner: string, keys: seq<string>, bytes: nat)

  /** What is fixed when a response is bound: the owner, whether a client plan exists, and the budgets. `viewSize`
      measures the rendered list of a batch. */
  datatype Config = Config(owner: string, hasPlan: bool, stateItems: nat, bufferBytes: nat, viewSize: seq<Sealed> -> nat)

  datatype Binding = Binding(
    entries: seq<Sealed>, resources: map<string, Sealed>, bytes: nat, viewBytes: nat,
    committed: nat, batchEnd: nat, confirmed: nat,
    isRendering: bool, isAborted: bool, emitted: map<string, bool>)

  const EMPTY := Binding([], map[], 0, 0, 0, 0, 0, false, false, map[])

  function Tokens(entries: seq<Sealed>): (r: seq<string>)
    ensures |r| == |entries| && forall i | 0 <= i < |r| :: r[i] == entries[i].token
  {
    seq(|entries|, i requires 0 <= i < |entries| => entries[i].token)
  }

  /** The entries of the batch that is being rendered. */
  function BatchOf(b: Binding): seq<Sealed>
    requires b.committed <= b.batchEnd <= |b.entries|
  {
    b.entries[b.committed..b.batchEnd]
  }

  predicate HasPending(c: Config, b: Binding) {
    c.hasPlan && b.committed < |b.entries|
  }

  predicate CanFinish(c: Config, b: Binding) {
    !b.isAborted && !HasPending(c, b)
  }

  // ---- One operation ----

  datatype Op =
    | Append(state: Sealed)
    | Encode(atBoundary: bool, builds: bool)
    | Observe(tokens: seq<string>)
    | Commit
    | Abort
    | Release

  function Index(resources: map<string, Sealed>, keys: seq<string>, state: Sealed): map<string, Sealed> {
    if keys == [] then resources else Index(resources, keys[..|keys| - 1], state)[keys[|keys| - 1] := state]
  }

  predicate CanAppend(c: Config, b: Binding, state: Sealed) {
    && !b.isAborted && state.token != "" && state.owner == c.owner && !b.isRendering
    && |b.entries| < c.stateItems && b.bytes + state.bytes <= c.bufferBytes
  }

  function DoAppend(c: Config, b: Binding, state: Sealed): (Binding, bool) {
    if !CanAppend(c, b, state) then (b, false)
    else (b.(entries := b.entries + [state], resources := Index(b.resources, state.keys, state), bytes := b.bytes + state.bytes), true)
  }

  function Unseen(tokens: seq<string>): map<string, bool> {
    map token | token in tokens :: false
  }

  /** Starts a batch at a carrier boundary, if anything is pending. A carrier program that then fails leaves it started. */
  function DoEncode(c: Config, b: Binding, atBoundary: bool, builds: bool): (Binding, bool) {
    if b.isAborted then (b, false)
    else if !HasPending(c, b) then (b, true)
    else if b.isRendering then (b, false)
    else if !atBoundary then (b, true)
    else
      var batch := b.entries[b.committed..];
      var view := c.viewSize(batch);
      if b.bytes + view > c.bufferBytes then (b, false)
      else (b.(batchEnd := |b.entries|, confirmed := 0, emitted := Unseen(Tokens(batch)), viewBytes := view, isRendering := true), builds)
  }

  /** Confirms the tokens one by one until one is unknown or repeated. */
  function Confirm(b: Binding, tokens: seq<string>): (Binding, bool)
    decreases |tokens|
  {
    if tokens == [] then (b, true)
    else
      var last := |tokens| - 1;
      var (before, ok) := Confirm(b, tokens[..last]);
      if !ok || tokens[last] !in before.emitted || before.emitted[tokens[last]] then (before, false)
      else (before.(emitted := before.emitted[tokens[last] := true], confirmed := before.confirmed + 1), true)
  }

  function DoObserve(b: Binding, tokens: seq<string>): (Binding, bool) {
    if !b.isRendering then (b, true) else Confirm(b, tokens)
  }

  function DoCommit(b: Binding): (Binding, bool) {
    if b.isAborted then (b, false)
    else if !b.isRendering then (b, true)
    else if b.confirmed != b.batchEnd - b.committed then (b, false)
    else (b.(committed := b.batchEnd, confirmed := 0, isRendering := false, emitted := map[], viewBytes := 0), true)
  }

  function DoAbort(b: Binding): Binding {
    b.(isAborted := true, isRendering := false, confirmed := 0, emitted := map[], viewBytes := 0)
  }

  function DoRelease(b: Binding): Binding {
    DoAbort(b).(entries := [], resources := map[], bytes := 0)
  }

  function Step(c: Config, b: Binding, op: Op): (Binding, bool) {
    match op
    case Append(state) => DoAppend(c, b, state)
    case Encode(atBoundary, builds) => DoEncode(c, b, atBoundary, builds)
    case Observe(tokens) => DoObserve(b, tokens)
    case Commit => DoCommit(b)
    case Abort => (DoAbort(b), true)
    case Release => (DoRelease(b), true)
  }

  // ---- Every run ----

  /** What happened so far: all entries ever accepted and the batches delivered; and for the current batch the tokens
      confirmed, all tokens that were in the output, and whether some output was refused. */
  datatype Log = Log(
    accepted: seq<Sealed>, delivered: seq<seq<string>>, seen: seq<string>, output: seq<string>, isRefused: bool)

  datatype Run = Run(binding: Binding, log: Log)

  /** The tokens an observation confirms: those before the first unknown or repeated one. */
  function Confirmed(b: Binding, tokens: seq<string>): seq<string>
    decreases |tokens|
  {
    if tokens == [] then []
    else
      var last := |tokens| - 1;
      if Confirm(b, tokens).1 then Confirmed(b, tokens[..last]) + [tokens[last]] else Confirmed(b, tokens[..last])
  }

  function NextLog(c: Config, r: Run, op: Op): Log {
    var (next, ok) := Step(c, r.binding, op);
    match op
    case Append(state) => if ok then r.log.(accepted := r.log.accepted + [state]) else r.log
    case Encode(_, _) =>
      if next.isRendering && !r.binding.isRendering then r.log.(seen := [], output := [], isRefused := false) else r.log
    case Observe(tokens) =>
      if r.binding.isRendering then
        r.log.(seen := r.log.seen + Confirmed(r.binding, tokens), output := r.log.output + tokens, isRefused := r.log.isRefused || !ok)
      else r.log
    case Commit =>
      if next.committed != r.binding.committed && r.binding.batchEnd <= |r.binding.entries| && r.binding.committed <= r.binding.batchEnd
      then Log(r.log.accepted, r.log.delivered + [Tokens(BatchOf(r.binding))], [], [], false)
      else r.log
    case _ => r.log
  }

  function After(c: Config, ops: seq<Op>): Run {
    if ops == [] then Run(EMPTY, Log([], [], [], [], false))
    else
      var before := After(c, ops[..|ops| - 1]);
      Run(Step(c, before.binding, ops[|ops| - 1]).0, NextLog(c, before, ops[|ops| - 1]))
  }

  function Flatten(batches: seq<seq<string>>): seq<string> {
    if batches == [] then [] else Flatten(batches[..|batches| - 1]) + batches[|batches| - 1]
  }

  function TotalBytes(entries: seq<Sealed>): nat {
    if entries == [] then 0 else TotalBytes(entries[..|entries| - 1]) + entries[|entries| - 1].bytes
  }

  function SetOf(tokens: seq<string>): set<string> {
    set token | token in tokens
  }

  /** The current batch: its end is fixed, its tokens are the ones tracked, and exactly the seen ones are marked. */
  ghost predicate Rendering(b: Binding, seen: seq<string>) {
    && b.committed < b.batchEnd == |b.entries| && !b.isAborted
    && b.emitted.Keys == SetOf(Tokens(BatchOf(b)))
    && Distinct(seen) && b.confirmed == |seen|
    && (forall token {:trigger b.emitted[token]} | token in b.emitted :: b.emitted[token] <==> token in seen)
    && (forall i {:trigger seen[i]} | 0 <= i < |seen| :: seen[i] in b.emitted)
  }

  ghost predicate Sound(c: Config, r: Run) {
    var b := r.binding;
    && |b.entries| <= c.stateItems && b.bytes == TotalBytes(b.entries) && b.bytes + b.viewBytes <= c.bufferBytes
    && (b.entries == r.log.accepted || (b.isAborted && b.entries == []))
    && b.committed <= |r.log.accepted|
    && Flatten(r.log.delivered) == Tokens(r.log.accepted[..b.committed])
    && (b.isRendering ==> c.hasPlan && Rendering(b, r.log.seen))
    && (!b.isRendering ==> b.viewBytes == 0)
  }

  lemma TokensConcat(a: seq<Sealed>, b: seq<Sealed>)
    ensures Tokens(a + b) == Tokens(a) + Tokens(b)
  {
  }

  lemma AppendSound(c: Config, r: Run, state: Sealed)
    requires Sound(c, r)
    ensures Sound(c, Run(Step(c, r.binding, Append(state)).0, NextLog(c, r, Append(state))))
  {
    if CanAppend(c, r.binding, state) {
      assert (r.binding.entries + [state])[..|r.binding.entries|] == r.binding.entries;
      assert (r.log.accepted + [state])[..r.binding.committed] == r.log.accepted[..r.binding.committed];
    }
  }

  lemma EncodeSound(c: Config, r: Run, atBoundary: bool, builds: bool)
    requires Sound(c, r)
    ensures Sound(c, Run(Step(c, r.binding, Encode(atBoundary, builds)).0, NextLog(c, r, Encode(atBoundary, builds))))
  {
    var next := Step(c, r.binding, Encode(atBoundary, builds)).0;
    if next.isRendering && !r.binding.isRendering {
      assert r.binding.entries[r.binding.committed..] == BatchOf(next);
    }
  }

  /** Each confirmation marks a token that was not seen before. */
  lemma {:induction false} ConfirmKeeps(b: Binding, seen: seq<string>, tokens: seq<string>)
    requires Rendering(b, seen)
    ensures
      var next := Confirm(b, tokens).0;
      && Rendering(next, seen + Confirmed(b, tokens))
      && next == b.(emitted := next.emitted, confirmed := next.confirmed)
    decreases |tokens|
  {
    if tokens == [] {
      assert seen + Confirmed(b, tokens) == seen;
    } else {
      var last := |tokens| - 1;
      ConfirmKeeps(b, seen, tokens[..last]);
      var (before, ok) := Confirm(b, tokens[..last]);
      if Confirm(b, tokens).1 {
        ConfirmOne(before, seen + Confirmed(b, tokens[..last]), tokens[last]);
        assert seen + Confirmed(b, tokens) == seen + Confirmed(b, tokens[..last]) + [tokens[last]];
      }
    }
  }

  lemma ConfirmOne(b: Binding, seen: seq<string>, token: string)
    requires Rendering(b, seen) && token in b.emitted && !b.emitted[token]
    ensures Rendering(b.(emitted := b.emitted[token := true], confirmed := b.confirmed + 1), seen + [token])
  {
    assert token !in seen;
    assert b.emitted[token := true].Keys == b.emitted.Keys;
  }

  lemma ObserveSound(c: Config, r: Run, tokens: seq<string>)
    requires Sound(c, r)
    ensures Sound(c, Run(Step(c, r.binding, Observe(tokens)).0, NextLog(c, r, Observe(tokens))))
  {
    if r.binding.isRendering {
      ConfirmKeeps(r.binding, r.log.seen, tokens);
    }
  }

  lemma CommitSound(c: Config, r: Run)
    requires Sound(c, r)
    ensures Sound(c, Run(Step(c, r.binding, Commit).0, NextLog(c, r, Commit)))
  {
    var b := r.binding;
    if DoCommit(b).0.committed != b.committed {
      var batch := Tokens(BatchOf(b));
      assert (r.log.delivered + [batch])[..|r.log.delivered|] == r.log.delivered;
      assert b.entries[..b.batchEnd] == b.entries[..b.committed] + BatchOf(b);
      TokensConcat(b.entries[..b.committed], BatchOf(b));
    }
  }

  lemma {:induction false} EveryRunIsSound(c: Config, ops: seq<Op>)
    ensures Sound(c, After(c, ops))
    decreases |ops|
  {
    if ops != [] {
      var before, op := After(c, ops[..|ops| - 1]), ops[|ops| - 1];
      EveryRunIsSound(c, ops[..|ops| - 1]);
      match op
      case Append(state) => AppendSound(c, before, state);
      case Encode(atBoundary, builds) => EncodeSound(c, before, atBoundary, builds);
      case Observe(tokens) => ObserveSound(c, before, tokens);
      case Commit => CommitSound(c, before);
      case _ =>
    }
  }

  // ---- What follows for the client ----

  /** Main result: over every run, what was delivered is a prefix of what was accepted, token by token, in order and
      once; the budgets hold; and a binding that may finish has delivered everything its plan accepted. */
  lemma DeliveryIsExactlyOnceInOrder(c: Config, ops: seq<Op>)
    ensures
      var r := After(c, ops);
      && r.binding.committed <= |r.log.accepted|
      && Flatten(r.log.delivered) == Tokens(r.log.accepted)[..r.binding.committed]
      && |r.binding.entries| <= c.stateItems && TotalBytes(r.binding.entries) + r.binding.viewBytes <= c.bufferBytes
      && (CanFinish(c, r.binding) && c.hasPlan ==> Flatten(r.log.delivered) == Tokens(r.log.accepted))
  {
    EveryRunIsSound(c, ops);
    var r := After(c, ops);
    assert Tokens(r.log.accepted[..r.binding.committed]) == Tokens(r.log.accepted)[..r.binding.committed];
    assert Tokens(r.log.accepted)[..|r.log.accepted|] == Tokens(r.log.accepted);
  }

  lemma RemoveAt(tokens: seq<string>, i: nat)
    requires i < |tokens|
    ensures multiset(tokens) == multiset(tokens[..i] + tokens[i + 1..]) + multiset{tokens[i]}
  {
    assert tokens == tokens[..i] + ([tokens[i]] + tokens[i + 1..]);
  }

  lemma {:induction false} Pigeonhole(a: seq<string>, b: seq<string>)
    requires Distinct(a) && |a| == |b| && forall token | token in a :: token in b
    ensures multiset(a) == multiset(b)
    decreases |a|
  {
    if a != [] {
      var front, x := a[..|a| - 1], a[|a| - 1];
      assert x in a;
      var i :| 0 <= i < |b| && b[i] == x;
      var rest := b[..i] + b[i + 1..];
      forall token | token in front
        ensures token in rest
      {
        var k :| 0 <= k < |front| && front[k] == token;
        assert a[k] == token && a[k] in b;
        var j :| 0 <= j < |b| && b[j] == token;
        assert rest[if j < i then j else j - 1] == token;
      }
      Pigeonhole(front, rest);
      RemoveAt(b, i);
      assert a == front + [x];
    }
  }

  /** A batch is committed exactly when the confirmed tokens are its tokens, each once. */
  lemma CommitExactlyWhenSeen(c: Config, r: Run)
    requires Sound(c, r) && r.binding.isRendering
    ensures DoCommit(r.binding).1 <==> multiset(r.log.seen) == multiset(Tokens(BatchOf(r.binding)))
    ensures DoCommit(r.binding).1 ==> DoCommit(r.binding).0.committed == |r.binding.entries|
    ensures !DoCommit(r.binding).1 ==> DoCommit(r.binding).0 == r.binding
  {
    var seen, batch := r.log.seen, Tokens(BatchOf(r.binding));
    if r.binding.confirmed == |batch| {
      Pigeonhole(seen, batch);
    }
    if multiset(seen) == multiset(batch) {
      assert |multiset(seen)| == |seen| && |multiset(batch)| == |batch|;
    }
  }

  /** While a batch is rendered nothing is added and nothing is committed but the whole batch. */
  lemma BatchIsFrozen(c: Config, r: Run, op: Op)
    requires Sound(c, r) && r.binding.isRendering && !op.Release?
    ensures
      var next := Step(c, r.binding, op).0;
      && next.entries == r.binding.entries
      && (next.committed == r.binding.committed || (op.Commit? && next.committed == r.binding.batchEnd && !next.isRendering))
  {
    if op.Observe? {
      ConfirmKeeps(r.binding, r.log.seen, op.tokens);
    }
  }

  /** An aborted binding delivers nothing more and can never finish. */
  lemma AbortIsFinal(c: Config, b: Binding, op: Op)
    requires b.isAborted && !b.isRendering
    ensures
      var (next, ok) := Step(c, b, op);
      && next.isAborted && !next.isRendering && next.committed == b.committed && !CanFinish(c, next)
      && (op.Append? || op.Encode? || op.Commit? ==> !ok && next == b)
  {
  }

  lemma {:induction false} NeverAfterAbort(c: Config, ops: seq<Op>, more: seq<Op>)
    requires After(c, ops).binding.isAborted && !After(c, ops).binding.isRendering
    ensures
      var b := After(c, ops + more).binding;
      b.isAborted && !b.isRendering && b.committed == After(c, ops).binding.committed && !CanFinish(c, b)
    decreases |more|
  {
    if more == [] {
      assert ops + more == ops;
    } else {
      var front := more[..|more| - 1];
      NeverAfterAbort(c, ops, front);
      assert (ops + more)[..|ops + more| - 1] == ops + front;
      AbortIsFinal(c, After(c, ops + front).binding, more[|more| - 1]);
    }
  }

  // ---- What one output confirms ----

  lemma {:induction false} ConfirmedIsAll(b: Binding, tokens: seq<string>)
    requires Confirm(b, tokens).1
    ensures Confirmed(b, tokens) == tokens
    decreases |tokens|
  {
    if tokens != [] {
      ConfirmedIsAll(b, tokens[..|tokens| - 1]);
      assert tokens == tokens[..|tokens| - 1] + [tokens[|tokens| - 1]];
    }
  }

  lemma {:induction false} DistinctConfirms(b: Binding, tokens: seq<string>)
    requires Rendering(b, []) && Distinct(tokens) && forall token | token in tokens :: token in b.emitted
    ensures Confirm(b, tokens).1
    decreases |tokens|
  {
    if tokens != [] {
      var front, last := tokens[..|tokens| - 1], tokens[|tokens| - 1];
      DistinctConfirms(b, front);
      ConfirmKeeps(b, [], front);
      ConfirmedIsAll(b, front);
      assert [] + front == front;
      assert last in tokens && last !in front;
    }
  }

  lemma AcceptedOutput(b: Binding, tokens: seq<string>)
    requires Rendering(b, []) && Confirm(b, tokens).1
    ensures
      var next, batch := Confirm(b, tokens).0, Tokens(BatchOf(b));
      && next.committed == b.committed && next.batchEnd == b.batchEnd && next.isRendering == b.isRendering && !next.isAborted
      && (next.confirmed == |batch| <==> multiset(tokens) == multiset(batch) && Distinct(batch))
  {
    ConfirmedFresh(b, tokens);
    CountDecides(tokens, Tokens(BatchOf(b)));
  }

  lemma ConfirmedFresh(b: Binding, tokens: seq<string>)
    requires Rendering(b, []) && Confirm(b, tokens).1
    ensures
      var next := Confirm(b, tokens).0;
      && next == b.(emitted := next.emitted, confirmed := |tokens|)
      && Distinct(tokens) && forall token | token in tokens :: token in Tokens(BatchOf(b))
  {
    ConfirmKeeps(b, [], tokens);
    ConfirmedIsAll(b, tokens);
    assert [] + tokens == tokens;
    forall token | token in tokens
      ensures token in Tokens(BatchOf(b))
    {
      assert token in b.emitted.Keys;
    }
  }

  /** Distinct tokens of a batch are all of it exactly when there are as many. */
  lemma CountDecides(tokens: seq<string>, batch: seq<string>)
    requires Distinct(tokens) && forall token | token in tokens :: token in batch
    ensures |tokens| == |batch| <==> multiset(tokens) == multiset(batch) && Distinct(batch)
  {
    if |tokens| == |batch| {
      Pigeonhole(tokens, batch);
      DistinctByMultiset(tokens, batch);
    }
    if multiset(tokens) == multiset(batch) {
      SameSizeByMultiset(tokens, batch);
    }
  }

  lemma MatchingOutputIsAccepted(b: Binding, tokens: seq<string>)
    requires Rendering(b, []) && multiset(tokens) == multiset(Tokens(BatchOf(b))) && Distinct(Tokens(BatchOf(b)))
    ensures Confirm(b, tokens).1
  {
    var batch := Tokens(BatchOf(b));
    DistinctByMultiset(batch, tokens);
    forall token | token in tokens
      ensures token in b.emitted
    {
      assert token in multiset(batch);
    }
    DistinctConfirms(b, tokens);
  }

  /** One whole output delivers a fresh batch exactly when its tokens are the batch's tokens, each once; a token
      planned twice can never be delivered. */
  lemma OutputDeliversExactly(c: Config, r: Run, tokens: seq<string>)
    requires Sound(c, r) && r.binding.isRendering && r.log.seen == []
    ensures
      var (next, ok) := DoObserve(r.binding, tokens);
      var batch := Tokens(BatchOf(r.binding));
      ok && DoCommit(next).1 <==> multiset(tokens) == multiset(batch) && Distinct(batch)
  {
    if Confirm(r.binding, tokens).1 {
      AcceptedOutput(r.binding, tokens);
    } else if multiset(tokens) == multiset(Tokens(BatchOf(r.binding))) && Distinct(Tokens(BatchOf(r.binding))) {
      MatchingOutputIsAccepted(r.binding, tokens);
    }
  }

  /** Observes the outputs of a batch one after the other; true if none is refused. */
  function ObserveAll(b: Binding, outputs: seq<seq<string>>): (Binding, bool) {
    if outputs == [] then (b, true)
    else
      var (before, ok) := ObserveAll(b, outputs[..|outputs| - 1]);
      var (next, last) := DoObserve(before, outputs[|outputs| - 1]);
      (next, ok && last)
  }

  lemma {:induction false} ConfirmConcat(b: Binding, first: seq<string>, second: seq<string>)
    ensures Confirm(b, first + second) ==
      if Confirm(b, first).1 then Confirm(Confirm(b, first).0, second) else Confirm(b, first)
    decreases |second|
  {
    if second == [] {
      assert first + second == first;
    } else {
      var front := second[..|second| - 1];
      assert (first + second)[..|first + second| - 1] == first + front;
      ConfirmConcat(b, first, front);
      if !Confirm(b, first).1 {
        assert (first + second)[..|first|] == first;
        RefusedRest(b, first + second, |first|);
      }
    }
  }

  lemma {:induction false} ConfirmKeepsRendering(b: Binding, tokens: seq<string>)
    ensures Confirm(b, tokens).0.isRendering == b.isRendering
    decreases |tokens|
  {
    if tokens != [] { ConfirmKeepsRendering(b, tokens[..|tokens| - 1]); }
  }

  /** Frame by frame or all at once: the same is confirmed, and refusals are the same. */
  lemma {:induction false} AllAsOne(b: Binding, outputs: seq<seq<string>>)
    requires b.isRendering
    ensures ObserveAll(b, outputs).0.isRendering
    ensures ObserveAll(b, outputs).1 == Confirm(b, Flatten(outputs)).1
    ensures ObserveAll(b, outputs).1 ==> ObserveAll(b, outputs).0 == Confirm(b, Flatten(outputs)).0
    decreases |outputs|
  {
    if outputs != [] {
      var front, last := outputs[..|outputs| - 1], outputs[|outputs| - 1];
      AllAsOne(b, front);
      ConfirmConcat(b, Flatten(front), last);
      ConfirmKeepsRendering(ObserveAll(b, front).0, last);
    }
  }

  /** Main result: whatever frames the output comes in, all of them are accepted and a fresh batch is committed exactly
      when their tokens are the batch's tokens, each once. */
  lemma OutputsDeliverExactly(c: Config, r: Run, outputs: seq<seq<string>>)
    requires Sound(c, r) && r.binding.isRendering && r.log.seen == []
    ensures
      var (next, ok) := ObserveAll(r.binding, outputs);
      var batch := Tokens(BatchOf(r.binding));
      ok && DoCommit(next).1 <==> multiset(Flatten(outputs)) == multiset(batch) && Distinct(batch)
  {
    AllAsOne(r.binding, outputs);
    OutputDeliversExactly(c, r, Flatten(outputs));
  }

  /** Some token is foreign to the batch or stands in the output twice. */
  predicate IsFlawed(output: seq<string>, batch: seq<string>) {
    !Distinct(output) || exists token | token in output :: token !in batch
  }

  lemma FlawStays(output: seq<string>, more: seq<string>, batch: seq<string>)
    requires IsFlawed(output, batch)
    ensures IsFlawed(output + more, batch)
  {
    if !Distinct(output) {
      var i, j :| 0 <= i < j < |output| && output[i] == output[j];
      assert (output + more)[i] == (output + more)[j];
    } else {
      var token :| token in output && token !in batch;
      assert token in output + more;
    }
  }

  lemma RepeatIsFlaw(output: seq<string>, token: string, batch: seq<string>)
    requires token in output || token !in batch
    ensures IsFlawed(output + [token], batch)
  {
    var longer := output + [token];
    assert longer[|output|] == token && token in longer;
    if token in output {
      var i :| 0 <= i < |output| && output[i] == token;
      assert longer[i] == longer[|output|];
    }
  }

  /** A refusal always has a flaw in the output to show for it. */
  lemma {:induction false} RefusalShowsFlaw(b: Binding, seen: seq<string>, output: seq<string>, tokens: seq<string>)
    requires Rendering(b, seen) && (forall token | token in seen :: token in output) && !Confirm(b, tokens).1
    ensures IsFlawed(output + tokens, Tokens(BatchOf(b)))
    decreases |tokens|
  {
    var front, last := tokens[..|tokens| - 1], tokens[|tokens| - 1];
    var batch := Tokens(BatchOf(b));
    assert output + tokens == output + front + [last];
    if !Confirm(b, front).1 {
      RefusalShowsFlaw(b, seen, output, front);
      FlawStays(output + front, [last], batch);
    } else {
      ConfirmKeeps(b, seen, front);
      ConfirmedIsAll(b, front);
      var before := Confirm(b, front).0;
      if last in before.emitted {
        assert last in seen + front;
      } else {
        assert last !in batch;
      }
      RepeatIsFlaw(output + front, last, batch);
    }
  }

  /** The output so far and what was confirmed of it. */
  ghost predicate OutputKnown(r: Run) {
    r.binding.isRendering && r.binding.committed <= r.binding.batchEnd <= |r.binding.entries| ==>
      && (forall token | token in r.log.seen :: token in r.log.output)
      && (!r.log.isRefused ==> r.log.output == r.log.seen)
      && (r.log.isRefused ==> IsFlawed(r.log.output, Tokens(BatchOf(r.binding))))
  }

  lemma ObserveKnows(c: Config, r: Run, tokens: seq<string>)
    requires Sound(c, r) && OutputKnown(r) && r.binding.isRendering
    ensures OutputKnown(Run(Step(c, r.binding, Observe(tokens)).0, NextLog(c, r, Observe(tokens))))
  {
    var b, log := r.binding, r.log;
    ConfirmKeeps(b, log.seen, tokens);
    ConfirmedAreTokens(b, tokens);
    if Confirm(b, tokens).1 { ConfirmedIsAll(b, tokens); }
    if log.isRefused {
      FlawStays(log.output, tokens, Tokens(BatchOf(b)));
    } else if !Confirm(b, tokens).1 {
      RefusalShowsFlaw(b, log.seen, log.output, tokens);
    }
  }

  lemma {:induction false} ConfirmedAreTokens(b: Binding, tokens: seq<string>)
    ensures forall token | token in Confirmed(b, tokens) :: token in tokens
    decreases |tokens|
  {
    if tokens != [] { ConfirmedAreTokens(b, tokens[..|tokens| - 1]); }
  }

  lemma OthersKnow(c: Config, r: Run, op: Op)
    requires Sound(c, r) && OutputKnown(r) && !op.Observe?
    ensures OutputKnown(Run(Step(c, r.binding, op).0, NextLog(c, r, op)))
  {
    if r.binding.isRendering && !op.Release? { BatchIsFrozen(c, r, op); }
  }

  lemma {:induction false} EveryRunKnowsItsOutput(c: Config, ops: seq<Op>)
    ensures OutputKnown(After(c, ops))
    decreases |ops|
  {
    if ops != [] {
      var before, op := After(c, ops[..|ops| - 1]), ops[|ops| - 1];
      EveryRunKnowsItsOutput(c, ops[..|ops| - 1]);
      EveryRunIsSound(c, ops[..|ops| - 1]);
      if op.Observe? && before.binding.isRendering {
        ObserveKnows(c, before, op.tokens);
      } else if !op.Observe? {
        OthersKnow(c, before, op);
      }
    }
  }

  /** Main result: over every run, a batch can be committed without a refusal since it started exactly when the tokens
      in the output since then are the batch's tokens, each once. After a refusal a commit is never over exactly the
      tokens that were in the output. */
  lemma CommitIsOverTheOutput(c: Config, ops: seq<Op>)
    requires After(c, ops).binding.isRendering
    ensures
      var r := After(c, ops);
      r.binding.committed <= r.binding.batchEnd <= |r.binding.entries| &&
      var batch, isWhole := Tokens(BatchOf(r.binding)), multiset(r.log.output) == multiset(Tokens(BatchOf(r.binding)));
      && (!r.log.isRefused && DoCommit(r.binding).1 <==> isWhole && Distinct(batch))
      && (DoCommit(r.binding).1 ==> (isWhole <==> !r.log.isRefused))
  {
    EveryRunIsSound(c, ops);
    EveryRunKnowsItsOutput(c, ops);
    var r := After(c, ops);
    var batch := Tokens(BatchOf(r.binding));
    CommitExactlyWhenSeen(c, r);
    if multiset(r.log.output) == multiset(batch) {
      forall token | token in r.log.output
        ensures token in batch
      {
        assert token in multiset(batch);
      }
      if Distinct(batch) { DistinctByMultiset(batch, r.log.output); }
    }
    if DoCommit(r.binding).1 { DistinctByMultiset(r.log.seen, batch); }
  }

  /** The input that shows a refusal must stop the host: an output with a foreign token is refused, but nothing in the
      binding remembers it, and the batch can still be committed afterwards. */
  lemma RefusalIsNotRemembered(c: Config, state: Sealed)
    requires c.hasPlan && state.owner == c.owner && state.token == "a" && c.stateItems > 0
    requires state.bytes + c.viewSize([state]) <= c.bufferBytes
    ensures
      var rendering := After(c, [Append(state), Encode(true, true)]).binding;
      var refused := DoObserve(rendering, ["b"]);
      var seen := DoObserve(refused.0, ["a"]);
      rendering.isRendering && !refused.1 && seen.1 && DoCommit(seen.0).1
  {
    RenderedOne(c, state);
    var rendering := After(c, [Append(state), Encode(true, true)]).binding;
    ConfirmSingle(rendering, "b");
    ConfirmSingle(rendering, "a");
  }

  lemma ConfirmSingle(b: Binding, token: string)
    requires b.isRendering
    ensures DoObserve(b, [token]) ==
      if token !in b.emitted || b.emitted[token] then (b, false)
      else (b.(emitted := b.emitted[token := true], confirmed := b.confirmed + 1), true)
  {
    assert [token][..0] == [];
    assert Confirm(b, []) == (b, true);
  }

  lemma RenderedOne(c: Config, state: Sealed)
    requires c.hasPlan && state.owner == c.owner && state.token != "" && c.stateItems > 0
    requires state.bytes + c.viewSize([state]) <= c.bufferBytes
    ensures
      var b := After(c, [Append(state), Encode(true, true)]).binding;
      && b.isRendering && !b.isAborted && b.committed == 0 && b.batchEnd == 1 && b.confirmed == 0
      && b.emitted == map[state.token := false]
  {
    var ops := [Append(state), Encode(true, true)];
    var one := DoAppend(c, EMPTY, state).0;
    assert ops[..1] == [Append(state)] && ops[..1][..0] == [];
    assert After(c, ops[..1][..0]).binding == EMPTY;
    assert After(c, ops[..1]).binding == one;
    assert one.entries[0..] == [state];
    assert Tokens([state]) == [state.token];
  }

  // ---- The binding as it runs ----

  class ContinuationBinding {
    const config: Config
    var entries: seq<Sealed>
    var resources: map<string, Sealed>
    var bytes: nat
    var viewBytes: nat
    var committed: nat
    var batchEnd: nat
    var confirmed: nat
    var isRendering: bool
    var deliveryAborted: bool
    var emitted: map<string, bool>

    ghost function View(): Binding
      reads this
    {
      Binding(entries, resources, bytes, viewBytes, committed, batchEnd, confirmed, isRendering, deliveryAborted, emitted)
    }

    constructor (config: Config)
      ensures this.config == config && View() == EMPTY
    {
      this.config := config;
      entries, resources, bytes, viewBytes := [], map[], 0, 0;
      committed, batchEnd, confirmed, isRendering, deliveryAborted, emitted := 0, 0, 0, false, false, map[];
    }

    method Append(state: Sealed) returns (ok: bool)
      modifies this
      ensures (View(), ok) == Step(config, old(View()), Op.Append(state))
    {
      if deliveryAborted || state.token == "" || state.owner != config.owner || isRendering {
        return false;
      }
      if |entries| >= config.stateItems || bytes + state.bytes > config.bufferBytes {
        return false;
      }
      for i := 0 to |state.keys|
        invariant View() == old(View()).(resources := Index(old(resources), state.keys[..i], state))
      {
        assert state.keys[..i + 1][..i] == state.keys[..i];
        resources := resources[state.keys[i] := state];
      }
      assert state.keys[..|state.keys|] == state.keys;
      entries := entries + [state];
      bytes := bytes + state.bytes;
      ok := true;
    }

    method EncodeContinuation(atBoundary: bool, builds: bool) returns (ok: bool)
      modifies this
      ensures (View(), ok) == Step(config, old(View()), Encode(atBoundary, builds))
    {
      if deliveryAborted {
        return false;
      }
      if !(config.hasPlan && committed < |entries|) {
        return true;
      }
      if isRendering {
        return false;
      }
      if !atBoundary {
        return true;
      }
      ok := StartBatch();
      ok := ok && builds;
    }

    /** Every token of the batch, not seen yet. */
    static method TrackTokens(batch: seq<Sealed>) returns (emitted: map<string, bool>)
      ensures emitted == Unseen(Tokens(batch))
    {
      emitted := map[];
      for i := 0 to |batch|
        invariant emitted == Unseen(Tokens(batch)[..i])
      {
        assert Tokens(batch)[..i + 1] == Tokens(batch)[..i] + [batch[i].token];
        emitted := emitted[batch[i].token := false];
      }
      assert Tokens(batch)[..|batch|] == Tokens(batch);
    }

    method StartBatch() returns (ok: bool)
      requires committed < |entries|
      modifies this
      ensures
        var batch := old(entries)[old(committed)..];
        var view := config.viewSize(batch);
        if old(bytes) + view > config.bufferBytes then !ok && View() == old(View())
        else ok && View() == old(View()).(
          batchEnd := |old(entries)|, confirmed := 0, emitted := Unseen(Tokens(batch)), viewBytes := view, isRendering := true)
    {
      var batch := entries[committed..];
      var view := config.viewSize(batch);
      if bytes + view > config.bufferBytes {
        return false;
      }
      batchEnd, confirmed := |entries|, 0;
      emitted := TrackTokens(batch);
      viewBytes := view;
      isRendering := true;
      ok := true;
    }

    method Observe(tokens: seq<string>) returns (ok: bool)
      modifies this`emitted, this`confirmed
      ensures (View(), ok) == Step(config, old(View()), Op.Observe(tokens))
    {
      if !isRendering {
        return true;
      }
      for i := 0 to |tokens|
        invariant (View(), true) == Confirm(old(View()), tokens[..i])
      {
        assert tokens[..i + 1][..i] == tokens[..i];
        var token := tokens[i];
        if token !in emitted || emitted[token] {
          RefusedRest(old(View()), tokens, i + 1);
          return false;
        }
        emitted := emitted[token := true];
        confirmed := confirmed + 1;
      }
      assert tokens[..|tokens|] == tokens;
      ok := true;
    }

    method CommitDelivery() returns (ok: bool)
      modifies this
      ensures (View(), ok) == Step(config, old(View()), Commit)
    {
      if deliveryAborted {
        return false;
      }
      if !isRendering {
        return true;
      }
      if confirmed != batchEnd - committed {
        return false;
      }
      committed, confirmed, isRendering, emitted, viewBytes := batchEnd, 0, false, map[], 0;
      ok := true;
    }

    method AbortDelivery()
      modifies this
      ensures View() == Step(config, old(View()), Abort).0
    {
      deliveryAborted, isRendering, confirmed, emitted, viewBytes := true, false, 0, map[], 0;
    }

    method Finish() returns (ok: bool)
      ensures ok <==> CanFinish(config, View())
    {
      ok := !deliveryAborted && !(config.hasPlan && committed < |entries|);
    }

    method Release()
      modifies this
      ensures View() == Step(config, old(View()), Op.Release).0
    {
      AbortDelivery();
      entries, resources, bytes := [], map[], 0;
    }
  }

  /** After a refusal the rest of the output is not looked at. */
  lemma {:induction false} RefusedRest(b: Binding, tokens: seq<string>, n: nat)
    requires n <= |tokens| && !Confirm(b, tokens[..n]).1
    ensures Confirm(b, tokens) == Confirm(b, tokens[..n])
    decreases |tokens|
  {
    if n == |tokens| {
      assert tokens[..n] == tokens;
    } else {
      assert tokens[..|tokens| - 1][..n] == tokens[..n];
      RefusedRest(b, tokens[..|tokens| - 1], n);
    }
  }
}
