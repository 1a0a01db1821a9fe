/** Masking known secret values in a text: every run of positions covered by some occurrence of some secret becomes
    one mask, everything else is copied. */
module SecretMasking {

  const SECRET_VALUE_MASK := "***"

  datatype Span = Span(start: nat, end: nat)

  predicate OccursAt(text: string, secret: string, at: nat) {
    at + |secret| <= |text| && text[at..at + |secret|] == secret
  }

  // ---- The specification, position by position ----

  /** Some occurrence of some nonempty secret covers the position; occurrences may overlap. */
  predicate IsCovered(text: string, secrets: seq<string>, i: nat) {
    exists secret, at {:trigger OccursAt(text, secret, at)} |
      secret in secrets && secret != "" && 0 <= at <= i :: OccursAt(text, secret, at) && i < at + |secret|
  }

  function CoveredPositions(text: string, secrets: seq<string>): set<nat> {
    set i: nat | i < |text| && IsCovered(text, secrets, i)
  }

  /** The first `n` positions: uncovered ones copied, each run of covered ones replaced by one mask. */
  function Masked(text: string, covered: set<nat>, n: nat): string
    requires n <= |text|
  {
    if n == 0 then ""
    else
      Masked(text, covered, n - 1) +
      if n - 1 !in covered then [text[n - 1]]
      else if n == 1 || n - 2 !in covered then SECRET_VALUE_MASK
      else ""
  }

  function MaskSpec(text: string, secrets: seq<string>): string {
    Masked(text, CoveredPositions(text, secrets), |text|)
  }

  /** The result depends only on which nonempty secrets there are, not on their order or repetition. */
  lemma OrderAndRepetitionDoNotMatter(text: string, a: seq<string>, b: seq<string>)
    requires forall secret | secret != "" :: secret in a <==> secret in b
    ensures MaskSpec(text, a) == MaskSpec(text, b)
  {
    forall i: nat | i < |text|
      ensures IsCovered(text, a, i) <==> IsCovered(text, b, i)
    {
    }
    assert CoveredPositions(text, a) == CoveredPositions(text, b);
  }

  lemma {:induction false} CopyUncovered(text: string, covered: set<nat>, a: nat, b: nat)
    requires a <= b <= |text| && forall i | a <= i < b :: i !in covered
    ensures Masked(text, covered, b) == Masked(text, covered, a) + text[a..b]
    decreases b - a
  {
    if a < b {
      CopyUncovered(text, covered, a, b - 1);
      assert text[a..b] == text[a..b - 1] + [text[b - 1]];
    }
  }

  lemma {:induction false} MaskCovered(text: string, covered: set<nat>, a: nat, b: nat)
    requires a < b <= |text| && (forall i | a <= i < b :: i in covered) && (a == 0 || a - 1 !in covered)
    ensures Masked(text, covered, b) == Masked(text, covered, a) + SECRET_VALUE_MASK
    decreases b - a
  {
    if a + 1 < b {
      MaskCovered(text, covered, a, b - 1);
    }
  }

  /** A text without any covered position is unchanged. */
  lemma NothingToMask(text: string)
    ensures Masked(text, {}, |text|) == text
  {
    CopyUncovered(text, {}, 0, |text|);
  }

  // ---- Finding the occurrences ----

  /** The first occurrence at or after `offset`, or -1. */
  function IndexFrom(text: string, secret: string, offset: nat): (r: int)
    requires offset <= |text|
    ensures r == -1 || (offset <= r && OccursAt(text, secret, r))
    ensures forall at: nat | offset <= at && (r == -1 || at < r) :: !OccursAt(text, secret, at)
    decreases |text| - offset
  {
    if OccursAt(text, secret, offset) then offset
    else if offset == |text| then -1
    else IndexFrom(text, secret, offset + 1)
  }

  /** Every span is an occurrence of some nonempty secret. */
  predicate AreOccurrences(text: string, secrets: seq<string>, spans: seq<Span>) {
    forall k | 0 <= k < |spans| :: IsOccurrence(text, secrets, spans[k])
  }

  predicate IsOccurrence(text: string, secrets: seq<string>, span: Span) {
    exists secret | secret in secrets && secret != "" :: OccursAt(text, secret, span.start) && span.end == span.start + |secret|
  }

  /** Every occurrence of the secret that starts before `offset` is among the spans. */
  ghost predicate HasAll(text: string, secret: string, spans: seq<Span>, offset: nat) {
    forall at: nat | at < offset && OccursAt(text, secret, at) :: Span(at, at + |secret|) in spans
  }

  method FindOccurrences(text: string, secret: string, found: seq<Span>, ghost secrets: seq<string>) returns (spans: seq<Span>)
    requires secret != "" && secret in secrets && AreOccurrences(text, secrets, found)
    ensures found <= spans && AreOccurrences(text, secrets, spans) && HasAll(text, secret, spans, |text|)
  {
    spans := found;
    var offset := 0;
    while offset < |text|
      invariant 0 <= offset <= |text| && found <= spans
      invariant AreOccurrences(text, secrets, spans) && HasAll(text, secret, spans, offset)
    {
      var start := IndexFrom(text, secret, offset);
      if start < 0 {
        return;
      }
      assert IsOccurrence(text, secrets, Span(start, start + |secret|));
      assert Span(start, start + |secret|) in spans + [Span(start, start + |secret|)];
      spans := spans + [Span(start, start + |secret|)];
      offset := start + 1;
    }
  }

  method FindAll(text: string, secrets: seq<string>) returns (spans: seq<Span>)
    ensures AreOccurrences(text, secrets, spans)
    ensures forall secret | secret in secrets && secret != "" :: HasAll(text, secret, spans, |text|)
  {
    spans := [];
    for i := 0 to |secrets|
      invariant AreOccurrences(text, secrets, spans)
      invariant forall j | 0 <= j < i && secrets[j] != "" :: HasAll(text, secrets[j], spans, |text|)
    {
      if secrets[i] != "" {
        var before := spans;
        spans := FindOccurrences(text, secrets[i], spans, secrets);
        forall j | 0 <= j < i && secrets[j] != ""
          ensures HasAll(text, secrets[j], spans, |text|)
        {
          assert forall s | s in before :: s in spans;
        }
      }
    }
  }

  predicate InSpans(spans: seq<Span>, i: nat) {
    exists k :: 0 <= k < |spans| && spans[k].start <= i < spans[k].end
  }

  lemma SpansCover(text: string, secrets: seq<string>, spans: seq<Span>, i: nat)
    requires AreOccurrences(text, secrets, spans)
    requires forall secret | secret in secrets && secret != "" :: HasAll(text, secret, spans, |text|)
    ensures i in CoveredPositions(text, secrets) <==> InSpans(spans, i)
  {
    if i in CoveredPositions(text, secrets) {
      var secret, at :| secret in secrets && secret != "" && 0 <= at <= i && OccursAt(text, secret, at) && i < at + |secret|;
      assert HasAll(text, secret, spans, |text|);
      assert Span(at, at + |secret|) in spans;
    }
    if InSpans(spans, i) {
      var k :| 0 <= k < |spans| && spans[k].start <= i < spans[k].end;
      assert IsOccurrence(text, secrets, spans[k]);
    }
  }

  // ---- Sorting ----

  predicate SortedByStart(spans: seq<Span>) {
    forall i, j | 0 <= i < j < |spans| :: spans[i].start <= spans[j].start
  }

  method SortByStart(spans: seq<Span>) returns (sorted: seq<Span>)
    ensures SortedByStart(sorted) && |sorted| == |spans|
    ensures forall span :: span in sorted <==> span in spans
  {
    sorted := [];
    for i := 0 to |spans|
      invariant |sorted| == i && SortedByStart(sorted)
      invariant forall span :: span in sorted <==> span in spans[..i]
    {
      var x := spans[i];
      var j := i;
      while j > 0 && x.start < sorted[j - 1].start
        invariant 0 <= j <= i
        invariant forall k | j <= k < i :: x.start < sorted[k].start
      {
        j := j - 1;
      }
      sorted := InsertAt(sorted, j, x);
      assert spans[..i + 1] == spans[..i] + [x];
    }
    assert spans[..|spans|] == spans;
  }

  function InsertAt(spans: seq<Span>, j: nat, x: Span): (r: seq<Span>)
    requires j <= |spans|
    ensures |r| == |spans| + 1
    ensures forall k | 0 <= k < |r| :: r[k] == if k < j then spans[k] else if k == j then x else spans[k - 1]
    ensures forall span :: span in r <==> span in spans || span == x
  {
    var r := spans[..j] + [x] + spans[j..];
    assert forall k | 0 <= k < |spans| :: spans[k] == r[if k < j then k else k + 1];
    assert r[j] == x;
    r
  }

  // ---- Merging ----

  /** Position by position: in the text, and covered exactly by the spans. */
  ghost predicate CoveredBy(text: string, covered: set<nat>, spans: seq<Span>) {
    && (forall k | 0 <= k < |spans| :: spans[k].start < spans[k].end <= |text|)
    && forall i: nat :: i in covered <==> InSpans(spans, i)
  }

  /** The run being built after `n` spans: fully covered, nothing covered between the last emitted run and it, and
      no earlier span reaches beyond it. */
  ghost predicate Merging(text: string, covered: set<nat>, spans: seq<Span>, n: nat, previous: nat, current: Span) {
    && 1 <= n <= |spans|
    && previous <= current.start < current.end <= |text| && (previous < current.start || current.start == 0)
    && (forall k | 0 <= k < n :: spans[k].end <= current.end)
    && current.start <= spans[n - 1].start
    && (forall i: nat | current.start <= i < current.end :: i in covered)
    && (forall i: nat | previous <= i < current.start :: i !in covered)
  }

  lemma SpanIsCovered(text: string, covered: set<nat>, spans: seq<Span>, n: nat)
    requires CoveredBy(text, covered, spans) && n < |spans|
    ensures forall i: nat | spans[n].start <= i < spans[n].end :: i in covered
  {
    assert forall i: nat | spans[n].start <= i < spans[n].end :: InSpans(spans, i);
  }

  /** The next span touches the run: they merge. */
  lemma NextTouches(text: string, covered: set<nat>, spans: seq<Span>, n: nat, previous: nat, current: Span)
    requires SortedByStart(spans) && CoveredBy(text, covered, spans)
    requires n < |spans| && Merging(text, covered, spans, n, previous, current) && spans[n].start <= current.end
    ensures
      var end := if current.end < spans[n].end then spans[n].end else current.end;
      Merging(text, covered, spans, n + 1, previous, Span(current.start, end))
  {
    SpanIsCovered(text, covered, spans, n);
  }

  /** Nothing between the run and a span that starts beyond it is covered. */
  lemma GapIsUncovered(text: string, covered: set<nat>, spans: seq<Span>, n: nat, previous: nat, current: Span)
    requires SortedByStart(spans) && CoveredBy(text, covered, spans)
    requires Merging(text, covered, spans, n, previous, current)
    ensures forall i: nat | current.end <= i && (n < |spans| ==> i < spans[n].start) :: i !in covered
  {
    assert forall k | 0 <= k < |spans| :: spans[k].end <= current.end || (n < |spans| && spans[n].start <= spans[k].start);
    forall i: nat | current.end <= i && (n < |spans| ==> i < spans[n].start)
      ensures !InSpans(spans, i)
    {
    }
  }

  lemma NextIsApart(text: string, covered: set<nat>, spans: seq<Span>, n: nat, previous: nat, current: Span)
    requires SortedByStart(spans) && CoveredBy(text, covered, spans)
    requires n < |spans| && Merging(text, covered, spans, n, previous, current) && current.end < spans[n].start
    ensures Merging(text, covered, spans, n + 1, current.end, spans[n])
  {
    SpanIsCovered(text, covered, spans, n);
    GapIsUncovered(text, covered, spans, n, previous, current);
  }

  lemma EmitRun(text: string, covered: set<nat>, spans: seq<Span>, n: nat, previous: nat, current: Span)
    requires Merging(text, covered, spans, n, previous, current)
    ensures Masked(text, covered, current.end) ==
            Masked(text, covered, previous) + text[previous..current.start] + SECRET_VALUE_MASK
  {
    CopyUncovered(text, covered, previous, current.start);
    MaskCovered(text, covered, current.start, current.end);
  }

  method MergeSpans(text: string, spans: seq<Span>, ghost covered: set<nat>) returns (masked: string)
    requires spans != [] && SortedByStart(spans) && CoveredBy(text, covered, spans)
    ensures masked == Masked(text, covered, |text|)
  {
    masked := "";
    var previous: nat, current: Span := 0, spans[0];
    FirstRun(text, covered, spans);
    for n := 1 to |spans|
      invariant Merging(text, covered, spans, n, previous, current) && masked == Masked(text, covered, previous)
    {
      var next := spans[n];
      if next.start <= current.end {
        NextTouches(text, covered, spans, n, previous, current);
        current := Span(current.start, if current.end < next.end then next.end else current.end);
      } else {
        EmitRun(text, covered, spans, n, previous, current);
        NextIsApart(text, covered, spans, n, previous, current);
        masked := masked + text[previous..current.start] + SECRET_VALUE_MASK;
        previous, current := current.end, next;
      }
    }
    EmitRun(text, covered, spans, |spans|, previous, current);
    GapIsUncovered(text, covered, spans, |spans|, previous, current);
    CopyUncovered(text, covered, current.end, |text|);
    masked := masked + text[previous..current.start] + SECRET_VALUE_MASK + text[current.end..];
  }

  lemma FirstRun(text: string, covered: set<nat>, spans: seq<Span>)
    requires spans != [] && SortedByStart(spans) && CoveredBy(text, covered, spans)
    ensures Merging(text, covered, spans, 1, 0, spans[0])
  {
    SpanIsCovered(text, covered, spans, 0);
  }

  /** Main result: whatever the order and overlap of the secrets, the output is the position-by-position
      specification. */
  method MaskSecretText(text: string, secrets: seq<string>) returns (masked: string)
    ensures masked == MaskSpec(text, secrets)
  {
    var spans := FindAll(text, secrets);
    ghost var covered := CoveredPositions(text, secrets);
    forall i: nat
      ensures i in covered <==> InSpans(spans, i)
    {
      SpansCover(text, secrets, spans, i);
    }
    if |spans| == 0 {
      assert covered == {};
      NothingToMask(text);
      return text;
    }
    var sorted := SortByStart(spans);
    forall k | 0 <= k < |sorted|
      ensures sorted[k].start < sorted[k].end <= |text|
    {
      assert sorted[k] in spans;
      var j :| 0 <= j < |spans| && spans[j] == sorted[k];
      assert IsOccurrence(text, secrets, spans[j]);
    }
    forall i: nat
      ensures InSpans(sorted, i) <==> InSpans(spans, i)
    {
      SameSpans(sorted, spans, i);
      SameSpans(spans, sorted, i);
    }
    masked := MergeSpans(text, sorted, covered);
  }

  lemma SameSpans(a: seq<Span>, b: seq<Span>, i: nat)
    requires forall span | span in a :: span in b
    ensures InSpans(a, i) ==> InSpans(b, i)
  {
    if InSpans(a, i) {
      var k :| 0 <= k < |a| && a[k].start <= i < a[k].end;
      assert a[k] in b;
    }
  }
}
