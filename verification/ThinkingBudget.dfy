/** Resolving a manual thinking budget against the output limit: the 64-bit steps of the code, proved against the same
    arithmetic on unbounded integers, and what that arithmetic promises. */
module ThinkingBudget {

  newtype int64 = x: int | -0x8000_0000_0000_0000 <= x < 0x8000_0000_0000_0000

  const MIN_REASONING_BUDGET: int64 := 1024
  const DEFAULT_OUTPUT_LIMIT: int64 := 8192

  datatype Effort = Minimal | Low | Medium | High | XHigh | Max | Unset

  /** An optional control: missing, not a number of this width, or a number. */
  datatype Control = Missing | Malformed | Number(value: int64)

  /** The confirmed capabilities; zero means unknown for both maxima. */
  datatype Capabilities = Capabilities(minBudget: int64, maxBudget: int64, maxOutputTokens: int64)

  /** What the capability check has already established. */
  predicate Validated(cap: Capabilities) {
    cap.minBudget >= 0 && cap.maxBudget >= 0 && cap.maxOutputTokens >= 0 && (cap.maxBudget > 0 ==> cap.maxBudget >= cap.minBudget)
  }

  datatype LimitOutcome = NoLimit | InvalidInput | OverHardLimit | Limit(n: int, isDefault: bool)

  datatype BudgetOutcome = CannotFit | TooLossy | Fits(budget: int, limit: int)

  function MaxOf(a: int, b: int): int { if a < b then b else a }

  function MinOf(a: int, b: int): int { if a < b then a else b }

  function Minimum(cap: Capabilities): int {
    MaxOf(MIN_REASONING_BUDGET as int, cap.minBudget as int)
  }

  function Percent(e: Effort): int {
    match e
    case Minimal => 5
    case Low => 20
    case Medium => 50
    case XHigh => 95
    case Max => 95
    case High => 80
    case Unset => 80
  }

  function Hard(cap: Capabilities): int { cap.maxOutputTokens as int }

  /** The output limit a target needs: explicit limits are never changed, defaults are cut to the hard limit. */
  function OutputLimit(raw: Control, isDefault: bool, isAnthropic: bool, cap: Capabilities): LimitOutcome {
    match raw
    case Malformed => InvalidInput
    case Number(n) => if n < 0 then InvalidInput else Capped(n as int, isDefault, cap)
    case Missing => if isAnthropic then Capped(DEFAULT_OUTPUT_LIMIT as int, true, cap) else NoLimit
  }

  function Capped(n: int, isDefault: bool, cap: Capabilities): LimitOutcome {
    if 0 < Hard(cap) < n then if isDefault then Limit(Hard(cap), true) else OverHardLimit
    else Limit(n, isDefault)
  }

  /** What a resolution works from. A requested budget of zero or less asks for none. */
  datatype Intent = Intent(limit: int, isDefault: bool, isInterleaved: bool, requested: int, effort: Effort, isStrict: bool)

  /** A system default may grow to hold the minimum; nothing else may. */
  function RoomForMinimum(i: Intent, cap: Capabilities): int {
    if !i.isInterleaved && i.limit <= Minimum(cap) then Minimum(cap) + 1 else i.limit
  }

  function Wanted(i: Intent, cap: Capabilities): int {
    if i.requested > 0 then i.requested else MaxOf(Minimum(cap), RoomForMinimum(i, cap) * Percent(i.effort) / 100)
  }

  function RoomForBudget(i: Intent, cap: Capabilities): int {
    if i.isDefault && !i.isInterleaved && RoomForMinimum(i, cap) <= Wanted(i, cap) < Hard(cap) then Wanted(i, cap) + 1
    else RoomForMinimum(i, cap)
  }

  function Adjusted(wanted: int, limit: int, isInterleaved: bool, cap: Capabilities): int {
    var atLeast := MaxOf(wanted, Minimum(cap));
    var atMost := if cap.maxBudget > 0 then MinOf(atLeast, cap.maxBudget as int) else atLeast;
    if isInterleaved then atMost else MinOf(atMost, limit - 1)
  }

  function ManualBudget(i: Intent, cap: Capabilities): BudgetOutcome {
    if !i.isInterleaved && i.limit <= Minimum(cap) && (!i.isDefault || Hard(cap) <= Minimum(cap)) then CannotFit
    else if i.isStrict && i.requested <= 0 then TooLossy
    else
      var budget := Adjusted(Wanted(i, cap), RoomForBudget(i, cap), i.isInterleaved, cap);
      if i.isStrict && budget != i.requested then TooLossy else Fits(budget, RoomForBudget(i, cap))
  }

  /** The limits the resolution may settle on. */
  predicate MaySettleOn(i: Intent, cap: Capabilities, limit: int) {
    limit == i.limit || (i.isDefault && i.limit < limit <= Hard(cap))
  }

  /** The budgets a target accepts under a limit. */
  predicate Accepted(cap: Capabilities, isInterleaved: bool, limit: int, budget: int) {
    Minimum(cap) <= budget && (cap.maxBudget > 0 ==> budget <= cap.maxBudget as int) && (isInterleaved || budget < limit)
  }

  function Distance(a: int, b: int): int { if a < b then b - a else a - b }

  /** Splitting off the last two digits before multiplying gives the floor of the exact percentage. */
  lemma PercentIsFloor(limit: int, percent: int)
    requires 0 <= limit && 0 <= percent <= 100
    ensures limit / 100 * percent + limit % 100 * percent / 100 == limit * percent / 100
    ensures 0 <= limit / 100 * percent <= limit && 0 <= limit * percent / 100 <= limit
    ensures limit / 100 * percent + limit % 100 * percent / 100 <= limit
    ensures 0 <= limit % 100 * percent <= 9900
  {
    var q, r := limit / 100, limit % 100;
    assert limit * percent == 100 * (q * percent) + r * percent by {
      assert limit == 100 * q + r;
      Distribute(q, r, percent);
    }
    Scale(r, percent, 99);
    Scale(q, percent, q);
    ShiftQuotient(q * percent, r * percent);
    Scale(limit, percent, limit);
  }

  lemma Distribute(q: int, r: int, percent: int)
    ensures (100 * q + r) * percent == 100 * (q * percent) + r * percent
  {
  }

  lemma Scale(r: int, percent: int, bound: int)
    requires 0 <= r <= bound && 0 <= percent <= 100
    ensures 0 <= r * percent <= 100 * bound
  {
    assert r * percent <= r * 100;
  }

  lemma ShiftQuotient(a: int, b: int)
    ensures (100 * a + b) / 100 == a + b / 100
  {
  }

  lemma WantedIsPositive(i: Intent, cap: Capabilities)
    requires i.limit >= 0
    ensures Wanted(i, cap) > 0
    ensures i.requested <= 0 ==> Wanted(i, cap) >= Minimum(cap)
    ensures i.requested <= 0 && Minimum(cap) < RoomForMinimum(i, cap) ==> Wanted(i, cap) < RoomForMinimum(i, cap)
  {
    var room := RoomForMinimum(i, cap);
    if i.requested <= 0 && Minimum(cap) < room {
      PercentIsFloor(room, Percent(i.effort));
      BelowWhole(room, Percent(i.effort));
    }
  }

  lemma BelowWhole(limit: int, percent: int)
    requires 0 < limit && 0 <= percent <= 95
    ensures limit * percent / 100 < limit
  {
    assert limit * percent <= limit * 95;
  }

  /** The resolution fails to fit exactly when no limit it may settle on leaves room for the minimum. */
  lemma CannotFitMeansNoRoom(i: Intent, cap: Capabilities)
    requires Validated(cap) && !i.isInterleaved
    ensures ManualBudget(i, cap).CannotFit? <==> forall limit :: MaySettleOn(i, cap, limit) ==> limit <= Minimum(cap)
  {
    assert MaySettleOn(i, cap, i.limit);
    if i.isDefault && i.limit < Hard(cap) { assert MaySettleOn(i, cap, Hard(cap)); }
  }

  /** An interleaved budget spans several outputs and always fits. */
  lemma InterleavedAlwaysFits(i: Intent, cap: Capabilities)
    requires i.isInterleaved
    ensures !ManualBudget(i, cap).CannotFit?
    ensures ManualBudget(i, cap).Fits? ==> ManualBudget(i, cap).limit == i.limit
  {
  }

  /** The limit settled on: explicit ones unchanged, defaults within the hard limit, grown no further than needed. */
  lemma LimitIsAllowed(i: Intent, cap: Capabilities)
    requires Validated(cap) && i.limit >= 0 && ManualBudget(i, cap).Fits?
    ensures var l := ManualBudget(i, cap).limit;
      MaySettleOn(i, cap, l) && (!i.isInterleaved ==> Minimum(cap) < l) && (l == i.limit || l == Minimum(cap) + 1 || l == Wanted(i, cap) + 1)
  {
  }

  /** The budget is accepted under the settled limit exactly when the capabilities leave room between their bounds. */
  lemma BudgetIsAccepted(i: Intent, cap: Capabilities)
    requires Validated(cap) && i.limit >= 0 && ManualBudget(i, cap).Fits?
    ensures var r := ManualBudget(i, cap);
      (Accepted(cap, i.isInterleaved, r.limit, r.budget) <==> cap.maxBudget == 0 || Minimum(cap) <= cap.maxBudget as int)
      && (!i.isInterleaved ==> r.budget < r.limit) && r.budget > 0
  {
    WantedIsPositive(i, cap);
  }

  /** No accepted budget is closer to the wanted one. */
  lemma BudgetIsClosest(i: Intent, cap: Capabilities, other: int)
    requires Validated(cap) && ManualBudget(i, cap).Fits?
    requires Accepted(cap, i.isInterleaved, ManualBudget(i, cap).limit, other)
    ensures Distance(ManualBudget(i, cap).budget, Wanted(i, cap)) <= Distance(other, Wanted(i, cap))
  {
  }

  /** A strict policy resolves only a request that already asks for an accepted budget, and changes neither number of
      an explicit request. */
  lemma StrictChangesNoBudget(i: Intent, cap: Capabilities)
    requires Validated(cap) && i.limit >= 0 && i.isStrict && (cap.maxBudget == 0 || Minimum(cap) <= cap.maxBudget as int)
    requires !ManualBudget(i, cap).CannotFit?
    ensures ManualBudget(i, cap).Fits? <==> i.requested > 0 && Accepted(cap, i.isInterleaved, RoomForBudget(i, cap), i.requested)
    ensures ManualBudget(i, cap).Fits? ==> ManualBudget(i, cap).budget == i.requested
  {
  }

  /** The resolved request is a fixed point, also under a strict policy. */
  lemma ResolvingTwiceChangesNothing(i: Intent, cap: Capabilities, isStrict: bool)
    requires Validated(cap) && i.limit >= 0 && ManualBudget(i, cap).Fits?
    ensures var r := ManualBudget(i, cap);
      r.limit >= 0 && ManualBudget(i.(limit := r.limit, requested := r.budget, isStrict := isStrict), cap) == r
  {
    WantedIsPositive(i, cap);
    LimitIsAllowed(i, cap);
    BudgetIsAccepted(i, cap);
  }

  /** Both stages together: a limit the caller set is never changed, and one the system chose never exceeds the
      confirmed hard limit. */
  lemma LimitsAreRespected(raw: Control, isDefault: bool, i: Intent, cap: Capabilities)
    requires Validated(cap) && OutputLimit(raw, isDefault, true, cap) == Limit(i.limit, i.isDefault)
    requires ManualBudget(i, cap).Fits?
    ensures raw.Number? && !isDefault ==> ManualBudget(i, cap).limit == raw.value as int
    ensures raw.Missing? ==> i.isDefault
    ensures i.isDefault && Hard(cap) > 0 ==> ManualBudget(i, cap).limit <= Hard(cap)
    ensures i.isDefault && Hard(cap) == 0 ==> ManualBudget(i, cap).limit == i.limit
  {
    LimitIsAllowed(i, cap);
  }

  /** The request controls the two steps update. */
  class Request {
    var limit: Control
    var isDefault: bool
    var budget: Control
    var isEnabled: bool
    const effort: Effort
    const isInterleaved: bool
    const isStrict: bool

    constructor (limit: Control, isDefault: bool, budget: Control, effort: Effort, isInterleaved: bool, isStrict: bool)
      ensures this.limit == limit && this.isDefault == isDefault && this.budget == budget && !isEnabled
      ensures this.effort == effort && this.isInterleaved == isInterleaved && this.isStrict == isStrict
    {
      this.limit, this.isDefault, this.budget, this.isEnabled := limit, isDefault, budget, false;
      this.effort, this.isInterleaved, this.isStrict := effort, isInterleaved, isStrict;
    }

    function IntentNow(): Intent
      reads this
      requires limit.Number?
    {
      Intent(limit.value as int, isDefault, isInterleaved, if budget.Number? then budget.value as int else 0, effort, isStrict)
    }

    method ReasoningOutputLimit(cap: Capabilities, isAnthropic: bool) returns (outcome: LimitOutcome)
      requires Validated(cap)
      modifies this`limit, this`isDefault
      ensures outcome == OutputLimit(old(limit), old(isDefault), isAnthropic, cap)
      ensures outcome.Limit? ==> limit.Number? && limit.value as int == outcome.n && isDefault == outcome.isDefault
      ensures !outcome.Limit? ==> limit == old(limit) && isDefault == old(isDefault)
    {
      if limit.Malformed? || (limit.Number? && limit.value < 0) { return InvalidInput; }
      if limit.Missing? && !isAnthropic { return NoLimit; }
      var n: int64 := if limit.Number? then limit.value else 0;
      var byDefault := isDefault;
      if limit.Missing? { n, byDefault := DEFAULT_OUTPUT_LIMIT, true; }
      if cap.maxOutputTokens > 0 && n > cap.maxOutputTokens {
        if !byDefault { return OverHardLimit; }
        n := cap.maxOutputTokens;
      }
      limit, isDefault := Number(n), byDefault;
      return Limit(n as int, byDefault);
    }

    /** Every step stays within 64 bits and agrees with the arithmetic on unbounded integers. */
    method ManualReasoningBudget(cap: Capabilities) returns (outcome: BudgetOutcome)
      requires Validated(cap) && limit.Number? && limit.value >= 0
      modifies this`limit, this`budget, this`isEnabled
      ensures outcome == ManualBudget(old(IntentNow()), cap)
      ensures outcome.Fits? ==> isEnabled && limit.Number? && budget.Number?
      ensures outcome.Fits? ==> limit.value as int == outcome.limit && budget.value as int == outcome.budget
      ensures !outcome.Fits? ==> limit == old(limit) && budget == old(budget) && isEnabled == old(isEnabled)
    {
      ghost var i := IntentNow();
      var maxOutput := limit.value;
      var minimum := LeastBudget(cap);
      if !isInterleaved && maxOutput <= minimum {
        if !isDefault || cap.maxOutputTokens <= minimum { return CannotFit; }
        maxOutput := minimum + 1;
      }
      var requested: int64 := if budget.Number? then budget.value else 0;
      var tokens := WantedTokens(i, requested, maxOutput, effort, cap);
      if requested <= 0 && isStrict { return TooLossy; }
      if isDefault && !isInterleaved && tokens >= maxOutput && cap.maxOutputTokens > tokens {
        maxOutput := tokens + 1;
      }
      var after := Adjust(tokens, maxOutput, isInterleaved, cap);
      if after != tokens && isStrict { return TooLossy; }
      isEnabled, budget, limit := true, Number(after), Number(maxOutput);
      return Fits(after as int, maxOutput as int);
    }
  }

  /** The requested budget, or the share of the limit that the effort stands for. */
  method WantedTokens(ghost i: Intent, requested: int64, maxOutput: int64, effort: Effort, cap: Capabilities) returns (tokens: int64)
    requires maxOutput >= 0 && maxOutput as int == RoomForMinimum(i, cap) && requested as int == i.requested && effort == i.effort
    ensures tokens as int == Wanted(i, cap) && tokens > 0
  {
    tokens := requested;
    if tokens <= 0 {
      var minimum := LeastBudget(cap);
      var share := Share(maxOutput, effort);
      tokens := if minimum < share then share else minimum;
    }
  }

  method Adjust(tokens: int64, maxOutput: int64, isInterleaved: bool, cap: Capabilities) returns (after: int64)
    requires maxOutput >= 0
    ensures after as int == Adjusted(tokens as int, maxOutput as int, isInterleaved, cap)
  {
    var minimum := LeastBudget(cap);
    after := if tokens < minimum then minimum else tokens;
    if cap.maxBudget > 0 && cap.maxBudget < after { after := cap.maxBudget; }
    if !isInterleaved && maxOutput - 1 < after { after := maxOutput - 1; }
  }

  function LeastBudget(cap: Capabilities): (r: int64)
    ensures r as int == Minimum(cap)
  {
    if MIN_REASONING_BUDGET < cap.minBudget then cap.minBudget else MIN_REASONING_BUDGET
  }

  /** The percentage of a limit that an effort stands for, without leaving 64 bits. */
  method Share(maxOutput: int64, effort: Effort) returns (share: int64)
    requires maxOutput >= 0
    ensures share as int == maxOutput as int * Percent(effort) / 100
  {
    var percent: int64 := 80;
    match effort {
      case Minimal => percent := 5;
      case Low => percent := 20;
      case Medium => percent := 50;
      case XHigh => percent := 95;
      case Max => percent := 95;
      case High =>
      case Unset =>
    }
    PercentIsFloor(maxOutput as int, percent as int);
    return maxOutput / 100 * percent + maxOutput % 100 * percent / 100;
  }
}
