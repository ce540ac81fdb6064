/** Meters, pools and the arithmetic of charging them
    (internal/quota/meter.go, limits.go, budgets.go). */
module Quota {
  import opened Prelude

  datatype Meter = Executions | GBSeconds | CPUSeconds | Seconds

  datatype Period = Daily | Monthly

  /** A moment, in nanoseconds, with the two calendar keys it falls under. */
  datatype Instant = Instant(nanos: int, day: string, month: string)

  /** What a task declared, or what a run used. The duration is in nanoseconds. */
  datatype Execution = Execution(cpu: int, memory: int, duration: int)

  const NANOS_PER_MILLI := 1_000_000
  const MAX_INT64 := 0x7FFF_FFFF_FFFF_FFFF

  function PeriodKey(p: Period, now: Instant): string {
    match p
    case Daily => now.day
    case Monthly => now.month
  }

  function Scale(m: Meter): int {
    match m
    case Executions => 1
    case GBSeconds => 1024 * 1000
    case CPUSeconds => 1000 * 1000
    case Seconds => 1000
  }

  /** Whole milliseconds, rounded up. */
  function Millis(e: Execution): nat {
    if e.duration <= 0 then 0 else (e.duration + NANOS_PER_MILLI - 1) / NANOS_PER_MILLI
  }

  function Cost(m: Meter, e: Execution): nat {
    match m
    case Executions => 1
    case GBSeconds => Floor0(e.memory) * Millis(e)
    case CPUSeconds => Floor0(e.cpu) * Millis(e)
    case Seconds => Millis(e)
  }

  // ----- the arithmetic never under-counts

  /** What a time meter multiplies the duration by; -1 for the meter that counts
      executions and not time. */
  function Shape(m: Meter, e: Execution): int {
    match m
    case Executions => -1
    case GBSeconds => Floor0(e.memory)
    case CPUSeconds => Floor0(e.cpu)
    case Seconds => 1
  }

  lemma MillisBounds(e: Execution)
    ensures e.duration <= Millis(e) * NANOS_PER_MILLI
    ensures Millis(e) * NANOS_PER_MILLI < Floor0(e.duration) + NANOS_PER_MILLI
  {
  }

  /** A time meter charges at least shape x duration. The excess stays below one
      millisecond of shape exactly when there is a shape to charge: for a shape
      of zero both sides are zero, and the strict bound fails. */
  lemma NeverUnderCounts(m: Meter, e: Execution)
    requires m != Executions
    ensures Cost(m, e) * NANOS_PER_MILLI >= Shape(m, e) * Floor0(e.duration)
    ensures Cost(m, e) * NANOS_PER_MILLI < Shape(m, e) * Floor0(e.duration) + Shape(m, e) * NANOS_PER_MILLI
            <==> Shape(m, e) > 0
  {
    MillisBounds(e);
    var s, d, ms := Shape(m, e), Floor0(e.duration), Millis(e);
    assert Cost(m, e) == s * ms;
    assert s * ms * NANOS_PER_MILLI == s * (ms * NANOS_PER_MILLI);
    Scaled(s, d, ms * NANOS_PER_MILLI);
    if s > 0 {
      ScaledStrictly(s, ms * NANOS_PER_MILLI, d + NANOS_PER_MILLI);
      assert s * (d + NANOS_PER_MILLI) == s * d + s * NANOS_PER_MILLI;
    }
  }

  lemma Scaled(s: int, a: int, b: int)
    requires 0 <= s && a <= b
    ensures s * a <= s * b
  {
    assert s * (b - a) >= 0;
  }

  lemma ScaledStrictly(s: int, a: int, b: int)
    requires 0 < s && a < b
    ensures s * a < s * b
  {
    assert s * (b - a) > 0;
  }

  ghost predicate Within(a: Execution, b: Execution) {
    a.cpu <= b.cpu && a.memory <= b.memory && a.duration <= b.duration
  }

  /** A run inside its declared shape never costs more than was declared. */
  lemma CostMonotone(m: Meter, a: Execution, b: Execution)
    requires Within(a, b)
    ensures Cost(m, a) <= Cost(m, b)
  {
    assert Millis(a) <= Millis(b);
    match m
    case Executions =>
    case Seconds =>
    case GBSeconds => Products(Floor0(a.memory), Floor0(b.memory), Millis(a), Millis(b));
    case CPUSeconds => Products(Floor0(a.cpu), Floor0(b.cpu), Millis(a), Millis(b));
  }

  lemma Products(a: nat, b: nat, x: nat, y: nat)
    requires a <= b && x <= y
    ensures a * x <= b * y
  {
    Scaled(a, x, y);
    Scaled(y, a, b);
  }

  lemma MillisSubadditive(e: Execution, first: int, rest: int)
    requires e.duration == first + rest
    ensures Millis(e) <= Millis(e.(duration := first)) + Millis(e.(duration := rest))
  {
    MillisBounds(e);
    MillisBounds(e.(duration := first));
    MillisBounds(e.(duration := rest));
  }

  lemma ScaledSum(s: int, a: int, x: int, y: int)
    requires 0 <= s && a <= x + y
    ensures s * a <= s * x + s * y
  {
    Scaled(s, a, x + y);
    assert s * (x + y) == s * x + s * y;
  }

  /** Splitting a run in two never makes it cheaper, whatever the signs. */
  lemma CostSubadditive(m: Meter, e: Execution, first: int, rest: int)
    requires e.duration == first + rest
    ensures Cost(m, e) <= Cost(m, e.(duration := first)) + Cost(m, e.(duration := rest))
  {
    MillisSubadditive(e, first, rest);
    var x, y := Millis(e.(duration := first)), Millis(e.(duration := rest));
    match m
    case Executions =>
    case Seconds =>
    case GBSeconds => ScaledSum(Floor0(e.memory), Millis(e), x, y);
    case CPUSeconds => ScaledSum(Floor0(e.cpu), Millis(e), x, y);
  }

  /** The units an operator writes limits in: one run, a second, a gibibyte for a second,
      a vCPU for a second. So many of a unit cost so many times the meter's scale,
      whatever else the run used. */
  lemma UnitsAgree(n: nat, seconds: nat, cpu: int, memory: int)
    ensures Cost(Executions, Execution(cpu, memory, seconds)) == Scale(Executions)
    ensures Cost(Seconds, Execution(cpu, memory, seconds * 1_000_000_000)) == seconds * Scale(Seconds)
    ensures Cost(GBSeconds, Execution(cpu, n * 1024, seconds * 1_000_000_000)) == n * seconds * Scale(GBSeconds)
    ensures Cost(CPUSeconds, Execution(n * 1000, memory, seconds * 1_000_000_000)) == n * seconds * Scale(CPUSeconds)
  {
    WholeSeconds(cpu, memory, seconds);
    WholeSeconds(cpu, n * 1024, seconds);
    WholeSeconds(n * 1000, memory, seconds);
    Regroup(n, 1024, seconds);
    Regroup(n, 1000, seconds);
  }

  lemma WholeSeconds(cpu: int, memory: int, seconds: nat)
    ensures Millis(Execution(cpu, memory, seconds * 1_000_000_000)) == seconds * 1000
  {
    MillisBounds(Execution(cpu, memory, seconds * 1_000_000_000));
  }

  lemma Regroup(n: nat, unit: nat, seconds: nat)
    ensures n * unit * (seconds * 1000) == n * seconds * (unit * 1000)
  {
    assert n * unit * (seconds * 1000) == n * (unit * (seconds * 1000)) == n * (seconds * (unit * 1000));
  }

  // ----- compiled limits

  datatype PoolSpec = PoolSpec(name: string, meter: Meter, limit: int, period: Period)

  datatype Pool = Pool(name: string, meter: Meter, period: Period, limit: int)

  type Limits = seq<Pool>

  datatype ConfigError = Unnamed | DeclaredTwice(name: string) | NotPositive(name: string) | TooLarge(name: string)

  datatype Compiled<+T> = Ok(value: T) | Err(error: ConfigError)

  /** Go's integer division; both operands are positive here. */
  function BaseLimit(spec: PoolSpec): (r: Compiled<int>)
    requires spec.limit > 0
    ensures r.Ok? <==> spec.limit * Scale(spec.meter) <= MAX_INT64
    ensures r.Ok? ==> r.value == spec.limit * Scale(spec.meter)
  {
    if spec.limit > MAX_INT64 / Scale(spec.meter) then Err(TooLarge(spec.name))
    else Ok(spec.limit * Scale(spec.meter))
  }

  /** What NewLimits guarantees about the pools it returns, and so what the rest
      of the broker may rely on. */
  ghost predicate Valid(limits: Limits) {
    && (forall i, j :: 0 <= i < j < |limits| ==> limits[i].name != limits[j].name)
    && (forall i :: 0 <= i < |limits| ==> 0 < limits[i].limit <= MAX_INT64)
  }

  /** A pool whose limit can be enforced on its own. */
  ghost predicate Fair(spec: PoolSpec) {
    spec.name != "" && spec.limit > 0 && spec.limit * Scale(spec.meter) <= MAX_INT64
  }

  ghost predicate Enforceable(specs: seq<PoolSpec>) {
    && (forall i :: 0 <= i < |specs| ==> Fair(specs[i]))
    && (forall i, j :: 0 <= i < j < |specs| ==> specs[i].name != specs[j].name)
  }

  function PoolOf(spec: PoolSpec): Pool {
    Pool(spec.name, spec.meter, spec.period, spec.limit * Scale(spec.meter))
  }

  /** The first i pools, compiled. */
  ghost predicate Compiles(specs: seq<PoolSpec>, i: nat, pools: Limits) {
    && i <= |specs| && |pools| == i
    && (forall j :: 0 <= j < i ==> Fair(specs[j]) && pools[j] == PoolOf(specs[j]))
    && (forall j, k :: 0 <= j < k < i ==> specs[j].name != specs[k].name)
  }

  lemma CompiledSnoc(specs: seq<PoolSpec>, i: nat, pools: Limits)
    requires i < |specs| && Compiles(specs, i, pools) && Fair(specs[i])
    requires forall j :: 0 <= j < i ==> specs[j].name != specs[i].name
    ensures Compiles(specs, i + 1, pools + [PoolOf(specs[i])])
  {
  }

  lemma CompiledValid(specs: seq<PoolSpec>, pools: Limits)
    requires Compiles(specs, |specs|, pools)
    ensures Enforceable(specs) && Valid(pools)
  {
    forall i | 0 <= i < |pools| ensures 0 < pools[i].limit <= MAX_INT64 {
      assert Fair(specs[i]) && pools[i] == PoolOf(specs[i]);
    }
  }

  /** Compilation succeeds exactly on the configurations it can enforce, and a
      success keeps every pool in order with its limit in base units. */
  method NewLimits(specs: seq<PoolSpec>) returns (r: Compiled<Limits>)
    ensures r.Ok? <==> Enforceable(specs)
    ensures r.Ok? ==> |r.value| == |specs| && Valid(r.value)
    ensures r.Ok? ==> forall i :: 0 <= i < |specs| ==> r.value[i] == PoolOf(specs[i])
  {
    var pools: Limits := [];
    var seen: set<string> := {};
    for i := 0 to |specs|
      invariant Compiles(specs, i, pools)
      invariant forall name :: name in seen <==> exists j :: 0 <= j < i && specs[j].name == name
    {
      var spec := specs[i];
      if spec.name == "" { return Err(Unnamed); }
      if spec.name in seen { return Err(DeclaredTwice(spec.name)); }
      if spec.limit <= 0 { return Err(NotPositive(spec.name)); }
      var limit := BaseLimit(spec);
      if limit.Err? { return Err(limit.error); }
      CompiledSnoc(specs, i, pools);
      pools := pools + [Pool(spec.name, spec.meter, spec.period, limit.value)];
      seen := seen + {spec.name};
    }
    CompiledValid(specs, pools);
    r := Ok(pools);
  }

  // ----- charging a provider's pools

  /** What e charges the pool named name: the Go map read of Deltas, where a pool
      the execution does not touch is missing and reads as zero. */
  function Delta(limits: Limits, name: string, e: Execution): nat {
    if limits == [] then 0
    else if limits[0].name == name then Cost(limits[0].meter, e)
    else Delta(limits[1..], name, e)
  }

  lemma {:induction false} DeltaAt(limits: Limits, i: nat, e: Execution)
    requires Valid(limits) && i < |limits|
    ensures Delta(limits, limits[i].name, e) == Cost(limits[i].meter, e)
  {
    if i > 0 {
      DeltaAt(limits[1..], i - 1, e);
    }
  }

  lemma {:induction false} DeltaMissing(limits: Limits, name: string, e: Execution)
    requires forall i :: 0 <= i < |limits| ==> limits[i].name != name
    ensures Delta(limits, name, e) == 0
  {
    if limits != [] {
      DeltaMissing(limits[1..], name, e);
    }
  }

  lemma {:induction false} DeltaMonotone(limits: Limits, name: string, a: Execution, b: Execution)
    requires Within(a, b)
    ensures Delta(limits, name, a) <= Delta(limits, name, b)
  {
    if limits != [] {
      CostMonotone(limits[0].meter, a, b);
      DeltaMonotone(limits[1..], name, a, b);
    }
  }

  method Deltas(limits: Limits, e: Execution) returns (deltas: map<string, int>)
    requires Valid(limits)
    ensures forall name :: Get(deltas, name) == Delta(limits, name, e)
    ensures forall name :: name in deltas ==> deltas[name] > 0
  {
    deltas := map[];
    for i := 0 to |limits|
      invariant forall name :: name in deltas ==> deltas[name] > 0 && deltas[name] == Delta(limits, name, e)
      invariant forall j :: 0 <= j < i ==> Get(deltas, limits[j].name) == Cost(limits[j].meter, e)
      invariant forall name :: name in deltas ==> exists j :: 0 <= j < i && limits[j].name == name
    {
      DeltaAt(limits, i, e);
      var cost := Cost(limits[i].meter, e);
      if cost > 0 {
        deltas := deltas[limits[i].name := cost];
      }
    }
    forall name ensures Get(deltas, name) == Delta(limits, name, e) {
      if j :| 0 <= j < |limits| && limits[j].name == name {
        DeltaAt(limits, j, e);
      } else {
        DeltaMissing(limits, name, e);
      }
    }
  }

  type PoolUsage = map<string, int>

  /** The first pool e does not fit in. */
  method Exceeded(limits: Limits, usage: PoolUsage, e: Execution) returns (pool: Option<Pool>)
    ensures pool == FirstExceeded(limits, usage, e)
  {
    for i := 0 to |limits|
      invariant FirstExceeded(limits, usage, e) == FirstExceeded(limits[i..], usage, e)
    {
      var cost := Cost(limits[i].meter, e);
      if cost == 0 { continue; }
      if Get(usage, limits[i].name) + cost > limits[i].limit { return Some(limits[i]); }
    }
    pool := None;
  }

  ghost predicate Over(pool: Pool, usage: PoolUsage, e: Execution) {
    Cost(pool.meter, e) > 0 && Get(usage, pool.name) + Cost(pool.meter, e) > pool.limit
  }

  function FirstExceeded(limits: Limits, usage: PoolUsage, e: Execution): (pool: Option<Pool>)
    ensures pool.None? <==> forall i :: 0 <= i < |limits| ==> !Over(limits[i], usage, e)
    ensures pool.Some? ==> exists i :: 0 <= i < |limits| && limits[i] == pool.value && Over(limits[i], usage, e)
                                  && forall j :: 0 <= j < i ==> !Over(limits[j], usage, e)
  {
    if limits == [] then None
    else if Cost(limits[0].meter, e) != 0 && Get(usage, limits[0].name) + Cost(limits[0].meter, e) > limits[0].limit
    then Some(limits[0])
    else
      var rest := FirstExceeded(limits[1..], usage, e);
      assert rest.None? ==> forall i :: 0 < i < |limits| ==> limits[i] == limits[1..][i - 1];
      assert rest.Some? ==> forall i :: 0 <= i < |limits| - 1 ==> limits[1..][i] == limits[i + 1];
      rest
  }

  /** The tightest remaining percentage among the pools e charges. */
  function TightestPercent(limits: Limits, usage: PoolUsage, e: Execution): (percent: int)
    requires Valid(limits)
    ensures 0 <= percent <= 100
  {
    if limits == [] then 100 else
      var rest := TightestPercent(limits[1..], usage, e);
      if Cost(limits[0].meter, e) == 0 then rest
      else Min(PoolFreePercent(limits[0], Get(usage, limits[0].name)), rest)
  }

  ghost predicate Charges(limits: Limits, e: Execution, i: nat) {
    i < |limits| && Cost(limits[i].meter, e) != 0
  }

  /** No pool e charges has less left, and one of them has just that; pools it does
      not charge have no say, and where it charges none all is free. */
  lemma {:induction false} TightestOfCharged(limits: Limits, usage: PoolUsage, e: Execution)
    requires Valid(limits)
    ensures var percent := TightestPercent(limits, usage, e);
      && (forall i: nat :: Charges(limits, e, i) ==>
            percent <= PoolFreePercent(limits[i], Get(usage, limits[i].name)))
      && (if exists i: nat :: Charges(limits, e, i) then
            exists i: nat ::
              Charges(limits, e, i) && percent == PoolFreePercent(limits[i], Get(usage, limits[i].name))
          else percent == 100)
  {
    if limits != [] {
      var rest := limits[1..];
      TightestOfCharged(rest, usage, e);
      assert forall i: nat :: Charges(limits, e, i) && i > 0 ==> Charges(rest, e, i - 1);
      assert forall i: nat :: Charges(rest, e, i) ==> Charges(limits, e, i + 1);
      assert Charges(limits, e, 0) <==> Cost(limits[0].meter, e) != 0;
    }
  }

  method FreePercent(limits: Limits, usage: PoolUsage, e: Execution) returns (percent: int)
    requires Valid(limits)
    ensures percent == TightestPercent(limits, usage, e)
  {
    percent := 100;
    for i := 0 to |limits|
      invariant 0 <= percent <= 100
      invariant Min(percent, TightestPercent(limits[i..], usage, e)) == TightestPercent(limits, usage, e)
    {
      assert limits[i..][0] == limits[i] && limits[i..][1..] == limits[i + 1..];
      if Cost(limits[i].meter, e) == 0 { continue; }
      percent := Min(percent, PoolFreePercent(limits[i], Get(usage, limits[i].name)));
    }
  }

  function PoolFreePercent(pool: Pool, used: int): (percent: int)
    requires pool.limit > 0
    ensures 0 <= percent <= 100
  {
    if used <= 0 then 100 else
      var remaining := Max(pool.limit - used, 0);
      assert 0 <= remaining * 100 <= pool.limit * 100;
      PercentOf(remaining, pool.limit);
      remaining * 100 / pool.limit
  }

  /** The percentage is of what remains, rounded down: a sliver reads as none, and
      only an untouched pool as all. */
  lemma PercentFloors(pool: Pool, used: int)
    requires pool.limit > 0
    ensures var percent, remaining := PoolFreePercent(pool, used), pool.limit - used;
      && (used > 0 && remaining > 0 ==>
            percent * pool.limit <= remaining * 100 < (percent + 1) * pool.limit)
      && (percent == 100 <==> used <= 0)
      && (percent == 0 <==> remaining * 100 < pool.limit)
  {
    if used > 0 {
      FloorOf(Max(pool.limit - used, 0) * 100, pool.limit);
    }
  }

  lemma FloorOf(part: int, whole: int)
    requires 0 <= part && whole > 0
    ensures whole * (part / whole) <= part < whole * (part / whole) + whole
    ensures part / whole == 0 <==> part < whole
    ensures part / whole == 100 ==> part >= 100 * whole
  {
  }

  lemma PercentOf(part: int, whole: int)
    requires 0 <= part <= whole && whole > 0
    ensures 0 <= part * 100 / whole <= 100
  {
    var q := part * 100 / whole;
    assert whole * q <= part * 100 <= whole * 100;
  }

  // ----- two layers of pools

  datatype Budgets = Budgets(totals: map<string, Limits>, namespaces: map<string, map<string, Limits>>)

  function Total(b: Budgets, provider: string): Limits {
    if provider in b.totals then b.totals[provider] else []
  }

  function Share(b: Budgets, namespace: string, provider: string): Limits {
    if namespace in b.namespaces && provider in b.namespaces[namespace]
    then b.namespaces[namespace][provider] else []
  }

  ghost predicate ValidBudgets(b: Budgets) {
    && (forall provider :: Valid(Total(b, provider)))
    && (forall namespace, provider :: Valid(Share(b, namespace, provider)))
  }
}
