/** A node's room for workloads (internal/agent/executions_endpoint.go). Starts run
    outside the lock, so a workload may be reserved, held by the executor, or both. */
module AgentRoom {
  import opened Prelude
  import Sums

  datatype Size = Size(cpu: nat, memory: nat)

  datatype Workload = Workload(size: Size, running: bool)

  /** What the executor holds, what is reserved for starts in flight, and which
      start each submission in flight is at work on. */
  datatype Node = Node(held: map<Id, Workload>, reserved: map<Id, Size>, flights: map<nat, Id>)

  /** CPU or memory. */
  type Measure = Size -> nat

  const CPU: Measure := (s: Size) => s.cpu
  const MEMORY: Measure := (s: Size) => s.memory

  function Running(n: Node): set<Id> {
    set id | id in n.held && n.held[id].running
  }

  // ----- the room in use, and the room a submission sees in use

  /** Workloads running, and starts in flight that are not held yet. */
  function Live(n: Node): set<Id> { Running(n) + (n.reserved.Keys - n.held.Keys) }

  ghost function Used(n: Node, m: Measure): int {
    Sums.Sum(Live(n), UsedSize(n, m))
  }

  ghost function UsedSize(n: Node, m: Measure): Id -> int {
    id => if id in n.held then m(n.held[id].size) else if id in n.reserved then m(n.reserved[id]) else 0
  }

  /** What a submission adds up: each reserved or running workload once, at its
      reserved size when it is both. */
  ghost function Counted(n: Node, m: Measure): int {
    Sums.Sum(Running(n) + n.reserved.Keys, SizeSeen(n, m))
  }

  ghost function SizeSeen(n: Node, m: Measure): Id -> int {
    id => if id in n.reserved then m(n.reserved[id]) else if id in n.held then m(n.held[id].size) else 0
  }

  /** fits: a workload already held is a resubmission and always fits. */
  ghost predicate Fits(n: Node, id: Id, size: Size, capacity: Size) {
    || id in n.held
    || (Counted(n, CPU) + size.cpu <= capacity.cpu && Counted(n, MEMORY) + size.memory <= capacity.memory)
  }

  // ----- every step a node can take

  datatype Step =
    | Claim(flight: nat, id: Id, size: Size)
    | Start(flight: nat)
    | Unclaim(flight: nat)
    | Exit(id: Id)
    | Release(id: Id)

  /** A claim of an ID in flight waits, and one that does not fit is refused: neither
      changes anything. Starting a workload the executor holds is a no-op. */
  ghost function Do(n: Node, step: Step, capacity: Size): Node {
    match step
    case Claim(flight, id, size) =>
      if flight in n.flights || id in n.reserved || !Fits(n, id, size, capacity) then n
      else n.(reserved := n.reserved[id := size], flights := n.flights[flight := id])
    case Start(flight) =>
      if flight !in n.flights || n.flights[flight] in n.held || n.flights[flight] !in n.reserved then n
      else n.(held := n.held[n.flights[flight] := Workload(n.reserved[n.flights[flight]], true)])
    case Unclaim(flight) =>
      if flight !in n.flights then n
      else n.(reserved := n.reserved - {n.flights[flight]}, flights := n.flights - {flight})
    case Exit(id) =>
      if id !in n.held then n else n.(held := n.held[id := n.held[id].(running := false)])
    case Release(id) => n.(held := n.held - {id})
  }

  ghost function Run(n: Node, steps: seq<Step>, capacity: Size): Node
    decreases |steps|
  {
    if steps == [] then n else Run(Do(n, steps[0], capacity), steps[1..], capacity)
  }

  ghost predicate RoomFor(n: Node, size: Size, capacity: Size) {
    Used(n, CPU) + size.cpu <= capacity.cpu && Used(n, MEMORY) + size.memory <= capacity.memory
  }

  /** A release that cannot overbook the node: none of a finished workload with a start
      in flight, unless there is room for it to run again. Releasing only what has no
      start in flight is always harmless. */
  ghost predicate Harmless(n: Node, id: Id, capacity: Size, declared: Id -> Size) {
    || !(id in n.reserved && id in n.held && !n.held[id].running)
    || RoomFor(n, declared(id), capacity)
  }

  /** What a node's peers must keep to: one declared size for each ID, and releases
      that are harmless. */
  ghost predicate InOrder(n: Node, step: Step, capacity: Size, declared: Id -> Size) {
    && (step.Claim? ==> step.size == declared(step.id))
    && (step.Release? ==> Harmless(n, step.id, capacity, declared))
  }

  ghost predicate Orderly(n: Node, steps: seq<Step>, capacity: Size, declared: Id -> Size)
    decreases |steps|
  {
    steps != [] ==>
      && InOrder(n, steps[0], capacity, declared)
      && Orderly(Do(n, steps[0], capacity), steps[1..], capacity, declared)
  }

  /** Every start in flight holds a reservation of its own. */
  ghost predicate OneEach(n: Node) {
    && (forall t :: t in n.flights ==> n.flights[t] in n.reserved)
    && (forall t, u :: t in n.flights && u in n.flights && n.flights[t] == n.flights[u] ==> t == u)
  }

  ghost predicate AsDeclared(n: Node, declared: Id -> Size) {
    && (forall id :: id in n.held ==> n.held[id].size == declared(id))
    && (forall id :: id in n.reserved ==> n.reserved[id] == declared(id))
  }

  /** What is in use stays within capacity, in CPU and in memory. */
  ghost predicate Roomy(n: Node, capacity: Size) {
    Used(n, CPU) <= capacity.cpu && Used(n, MEMORY) <= capacity.memory
  }

  // ----- sums over sets of workloads

  lemma SumSubset(s: set<Id>, t: set<Id>, f: Id -> int, g: Id -> int)
    requires s <= t && forall id :: id in s ==> f(id) <= g(id)
    requires forall id :: id in t ==> g(id) >= 0
    ensures Sums.Sum(s, f) <= Sums.Sum(t, g)
  {
    Sums.Below(s, f, g);
    Sums.Split(s, t - s, g);
    assert s + (t - s) == t;
    Sums.Zero(t - s, _ => 0);
    Sums.Below(t - s, _ => 0, g);
  }

  ghost function Declared(declared: Id -> Size, m: Measure): Id -> int { (id: Id) => m(declared(id)) }

  /** As declared, what is used and what a submission counts are sums of the same
      sizes, over sets that differ only by finished workloads being resubmitted. */
  lemma Sizes(n: Node, m: Measure, declared: Id -> Size)
    requires AsDeclared(n, declared)
    ensures Used(n, m) == Sums.Sum(Live(n), Declared(declared, m))
    ensures Counted(n, m) == Sums.Sum(Running(n) + n.reserved.Keys, Declared(declared, m))
    ensures Used(n, m) <= Counted(n, m)
  {
    var d := Declared(declared, m);
    Sums.Same(Live(n), UsedSize(n, m), d);
    Sums.Same(Running(n) + n.reserved.Keys, SizeSeen(n, m), d);
    SumSubset(Live(n), Running(n) + n.reserved.Keys, d, d);
  }

  lemma StepOnce(n: Node, step: Step, capacity: Size, declared: Id -> Size)
    requires AsDeclared(n, declared) && OneEach(n)
    requires step.Claim? ==> step.size == declared(step.id)
    ensures AsDeclared(Do(n, step, capacity), declared) && OneEach(Do(n, step, capacity))
  {
  }

  /** The workload a step adds to what is in use: a new one claimed, or a finished one
      whose start goes on after its release. */
  ghost predicate Adds(n: Node, step: Step, capacity: Size, id: Id) {
    || (step.Claim? && step.id == id && id !in n.held && Do(n, step, capacity) != n)
    || (step.Release? && step.id == id && id in n.reserved && id in n.held && !n.held[id].running)
  }

  lemma StepLive(n: Node, step: Step, capacity: Size)
    ensures forall id :: id in Live(Do(n, step, capacity)) ==> id in Live(n) || Adds(n, step, capacity, id)
    ensures forall id :: Adds(n, step, capacity, id) ==>
      id !in Live(n) && Live(Do(n, step, capacity)) == Live(n) + {id}
  {
  }

  /** What a step makes of the room in use. */
  lemma StepUsed(n: Node, step: Step, capacity: Size, declared: Id -> Size, m: Measure)
    requires AsDeclared(n, declared) && OneEach(n)
    requires step.Claim? ==> step.size == declared(step.id)
    ensures forall id :: Adds(n, step, capacity, id) ==>
      Used(Do(n, step, capacity), m) == Used(n, m) + m(declared(id))
    ensures (forall id :: !Adds(n, step, capacity, id)) ==> Used(Do(n, step, capacity), m) <= Used(n, m)
  {
    var next := Do(n, step, capacity);
    var d := Declared(declared, m);
    StepOnce(n, step, capacity, declared);
    StepLive(n, step, capacity);
    Sizes(n, m, declared);
    Sizes(next, m, declared);
    if id :| Adds(n, step, capacity, id) {
      Sums.Put(Live(n), d, id);
      assert forall other :: Adds(n, step, capacity, other) ==> other == id;
    } else {
      SumSubset(Live(next), Live(n), d, d);
    }
  }

  lemma Added(n: Node, step: Step, capacity: Size, declared: Id -> Size, id: Id)
    requires AsDeclared(n, declared) && OneEach(n) && Adds(n, step, capacity, id)
    requires step.Claim? ==> step.size == declared(step.id)
    ensures Roomy(Do(n, step, capacity), capacity) <==> RoomFor(n, declared(id), capacity)
  {
    StepUsed(n, step, capacity, declared, CPU);
    StepUsed(n, step, capacity, declared, MEMORY);
  }

  lemma NothingAdded(n: Node, step: Step, capacity: Size, declared: Id -> Size)
    requires AsDeclared(n, declared) && OneEach(n) && Roomy(n, capacity)
    requires step.Claim? ==> step.size == declared(step.id)
    requires forall id :: !Adds(n, step, capacity, id)
    ensures Roomy(Do(n, step, capacity), capacity)
  {
    StepUsed(n, step, capacity, declared, CPU);
    StepUsed(n, step, capacity, declared, MEMORY);
  }

  /** An admitted workload fits what is in use, which is no more than what is counted. */
  lemma AdmittedFits(n: Node, flight: nat, id: Id, capacity: Size, declared: Id -> Size)
    requires AsDeclared(n, declared) && Adds(n, Claim(flight, id, declared(id)), capacity, id)
    ensures RoomFor(n, declared(id), capacity)
  {
    Sizes(n, CPU, declared);
    Sizes(n, MEMORY, declared);
    assert Fits(n, id, declared(id), capacity);
  }

  /** A step keeps the node within its capacity, exactly when it is in order. */
  lemma StepExactly(n: Node, step: Step, capacity: Size, declared: Id -> Size)
    requires AsDeclared(n, declared) && OneEach(n) && Roomy(n, capacity)
    requires step.Claim? ==> step.size == declared(step.id)
    ensures Roomy(Do(n, step, capacity), capacity) <==> InOrder(n, step, capacity, declared)
  {
    if id :| Adds(n, step, capacity, id) {
      Added(n, step, capacity, declared, id);
      if step.Claim? { AdmittedFits(n, step.flight, id, capacity, declared); }
    } else {
      NothingAdded(n, step, capacity, declared);
      if step.Release? { assert !Adds(n, step, capacity, step.id); }
    }
  }

  lemma StepKeeps(n: Node, step: Step, capacity: Size, declared: Id -> Size)
    requires AsDeclared(n, declared) && OneEach(n) && Roomy(n, capacity)
    requires InOrder(n, step, capacity, declared)
    ensures var next := Do(n, step, capacity);
      AsDeclared(next, declared) && OneEach(next) && Roomy(next, capacity)
  {
    StepOnce(n, step, capacity, declared);
    StepExactly(n, step, capacity, declared);
  }

  /** Over every interleaving of submissions, exits and releases, what runs and what
      is about to run never exceeds the node in CPU or memory, and no ID ever has
      two starts in flight. */
  lemma {:induction false} RoomHolds(n: Node, steps: seq<Step>, capacity: Size, declared: Id -> Size)
    requires AsDeclared(n, declared) && OneEach(n) && Roomy(n, capacity)
    requires Orderly(n, steps, capacity, declared)
    ensures Roomy(Run(n, steps, capacity), capacity) && OneEach(Run(n, steps, capacity))
    decreases |steps|
  {
    if steps != [] {
      StepKeeps(n, steps[0], capacity, declared);
      RoomHolds(Do(n, steps[0], capacity), steps[1..], capacity, declared);
    }
  }

  /** The node is within its capacity after every step. */
  ghost predicate AlwaysRoomy(n: Node, steps: seq<Step>, capacity: Size)
    decreases |steps|
  {
    && Roomy(n, capacity)
    && (steps != [] ==> AlwaysRoomy(Do(n, steps[0], capacity), steps[1..], capacity))
  }

  /** And of submissions at declared sizes only, it never does exactly when every
      release was harmless at its moment. */
  lemma {:induction false} RoomHoldsExactly(n: Node, steps: seq<Step>, capacity: Size, declared: Id -> Size)
    requires AsDeclared(n, declared) && OneEach(n) && Roomy(n, capacity)
    requires forall step :: step in steps && step.Claim? ==> step.size == declared(step.id)
    ensures AlwaysRoomy(n, steps, capacity) <==> Orderly(n, steps, capacity, declared)
    decreases |steps|
  {
    if steps != [] {
      var next := Do(n, steps[0], capacity);
      StepExactly(n, steps[0], capacity, declared);
      StepOnce(n, steps[0], capacity, declared);
      if Roomy(next, capacity) { RoomHoldsExactly(next, steps[1..], capacity, declared); }
    }
  }

  // ----- what a submission comes to

  lemma RunThree(n: Node, a: Step, b: Step, c: Step, capacity: Size)
    ensures Run(n, [a, b, c], capacity) == Do(Do(Do(n, a, capacity), b, capacity), c, capacity)
  {
    assert [a, b, c][1..] == [b, c] && [b, c][1..] == [c] && [c][1..] == [];
    assert Run(n, [a, b, c], capacity) == Run(Do(n, a, capacity), [b, c], capacity);
    assert Run(Do(n, a, capacity), [b, c], capacity) == Run(Do(Do(n, a, capacity), b, capacity), [c], capacity);
  }

  /** A submission left to itself ends with its workload running and nothing reserved
      when it is new and fits, and changes nothing when it does not fit, or when the
      node holds the workload already. */
  lemma SubmissionRuns(n: Node, flight: nat, id: Id, size: Size, capacity: Size)
    requires flight !in n.flights && id !in n.reserved
    ensures var end := Run(n, [Claim(flight, id, size), Start(flight), Unclaim(flight)], capacity);
      if && id !in n.held
         && Counted(n, CPU) + size.cpu <= capacity.cpu && Counted(n, MEMORY) + size.memory <= capacity.memory
      then end == n.(held := n.held[id := Workload(size, true)])
      else end == n
  {
    RunThree(n, Claim(flight, id, size), Start(flight), Unclaim(flight), capacity);
    assert n.reserved[id := size] - {id} == n.reserved && n.flights[flight := id] - {flight} == n.flights;
  }

  /** A workload that exits gives back its size, and one released that no start is at
      work on is gone. */
  lemma ExitFrees(n: Node, id: Id, capacity: Size, m: Measure)
    requires id in Running(n)
    ensures Used(Do(n, Exit(id), capacity), m) == Used(n, m) - m(n.held[id].size)
    ensures id !in n.reserved ==> id !in Live(Do(n, Release(id), capacity))
    ensures Do(n, Release(id), capacity).held == n.held - {id}
  {
    var next := Do(n, Exit(id), capacity);
    assert Live(next) == Live(n) - {id};
    Sums.Take(Live(n), UsedSize(n, m), id);
    Sums.Same(Live(next), UsedSize(next, m), UsedSize(n, m));
  }

  // ----- when sizes differ

  ghost predicate Fresh(n: Node, flight: nat, id: Id) {
    flight !in n.flights && id !in n.held && id !in n.reserved
  }

  /** Whatever the next new workload asks for, admitting it overbooks nothing. */
  ghost predicate Safe(n: Node, flight: nat, id: Id, capacity: Size) {
    forall size :: Roomy(Do(n, Claim(flight, id, size), capacity), capacity)
  }

  /** What a submission counts is either all that is in use, or too much to admit
      anything. */
  ghost predicate CountsEnough(n: Node, capacity: Size) {
    || Counted(n, CPU) > capacity.cpu || Counted(n, MEMORY) > capacity.memory
    || (Used(n, CPU) <= Counted(n, CPU) && Used(n, MEMORY) <= Counted(n, MEMORY))
  }

  lemma ClaimUsed(n: Node, flight: nat, id: Id, size: Size, capacity: Size, m: Measure)
    requires Fresh(n, flight, id) && Fits(n, id, size, capacity)
    ensures Used(Do(n, Claim(flight, id, size), capacity), m) == Used(n, m) + m(size)
  {
    var next := Do(n, Claim(flight, id, size), capacity);
    assert Live(next) == Live(n) + {id};
    Sums.Put(Live(n), UsedSize(next, m), id);
    Sums.Same(Live(n), UsedSize(next, m), UsedSize(n, m));
  }

  lemma FitsSafely(n: Node, flight: nat, id: Id, size: Size, capacity: Size)
    requires Fresh(n, flight, id) && Roomy(n, capacity) && CountsEnough(n, capacity)
    ensures Roomy(Do(n, Claim(flight, id, size), capacity), capacity)
  {
    if Fits(n, id, size, capacity) {
      ClaimUsed(n, flight, id, size, capacity, CPU);
      ClaimUsed(n, flight, id, size, capacity, MEMORY);
    }
  }

  /** Admission by counting is sound exactly when it counts enough, whatever sizes
      IDs were submitted at. */
  lemma CountingExactly(n: Node, flight: nat, id: Id, capacity: Size)
    requires Fresh(n, flight, id) && Roomy(n, capacity)
    ensures Safe(n, flight, id, capacity) <==> CountsEnough(n, capacity)
  {
    if CountsEnough(n, capacity) {
      forall size ensures Roomy(Do(n, Claim(flight, id, size), capacity), capacity) {
        FitsSafely(n, flight, id, size, capacity);
      }
    } else if Used(n, CPU) > Counted(n, CPU) {
      var rest := Size(capacity.cpu - Counted(n, CPU), 0);
      ClaimUsed(n, flight, id, rest, capacity, CPU);
      assert !Roomy(Do(n, Claim(flight, id, rest), capacity), capacity);
    } else {
      var rest := Size(0, capacity.memory - Counted(n, MEMORY));
      ClaimUsed(n, flight, id, rest, capacity, MEMORY);
      assert !Roomy(Do(n, Claim(flight, id, rest), capacity), capacity);
    }
  }

  /** Resubmitting a running workload uses nothing more, and replaces its size in
      what is counted by the size resubmitted. */
  lemma Resubmitted(n: Node, flight: nat, id: Id, size: Size, capacity: Size, m: Measure)
    requires flight !in n.flights && id in Running(n) && id !in n.reserved
    ensures var next := Do(n, Claim(flight, id, size), capacity);
      && Used(next, m) == Used(n, m)
      && Counted(next, m) == Counted(n, m) - m(n.held[id].size) + m(size)
  {
    var next := Do(n, Claim(flight, id, size), capacity);
    assert Live(next) == Live(n);
    Sums.Same(Live(n), UsedSize(next, m), UsedSize(n, m));
    var counted := Running(n) + n.reserved.Keys;
    assert Running(next) + next.reserved.Keys == counted;
    Sums.Take(counted, SizeSeen(n, m), id);
    Sums.Take(counted, SizeSeen(next, m), id);
    Sums.Same(counted - {id}, SizeSeen(next, m), SizeSeen(n, m));
  }

  lemma NothingResubmitted(n: Node, m: Measure)
    requires n.reserved.Keys !! n.held.Keys
    ensures Counted(n, m) == Used(n, m)
  {
    assert Live(n) == Running(n) + n.reserved.Keys;
    Sums.Same(Live(n), UsedSize(n, m), SizeSeen(n, m));
  }

  /** What a resubmission leaves to count on. */
  ghost predicate StillEnough(n: Node, was: Size, size: Size, capacity: Size) {
    || (was.cpu <= size.cpu && was.memory <= size.memory)
    || Used(n, CPU) - was.cpu + size.cpu > capacity.cpu
    || Used(n, MEMORY) - was.memory + size.memory > capacity.memory
  }

  lemma EnoughThen(n: Node, next: Node, was: Size, size: Size, capacity: Size)
    requires Used(next, CPU) == Used(n, CPU) && Counted(next, CPU) == Used(n, CPU) - was.cpu + size.cpu
    requires Used(next, MEMORY) == Used(n, MEMORY)
    requires Counted(next, MEMORY) == Used(n, MEMORY) - was.memory + size.memory
    ensures CountsEnough(next, capacity) <==> StillEnough(n, was, size, capacity)
  {
  }

  lemma ResubmittedCounts(n: Node, flight: nat, id: Id, size: Size, capacity: Size)
    requires Roomy(n, capacity) && n.reserved.Keys !! n.held.Keys
    requires flight !in n.flights && id in Running(n)
    ensures var resubmitted := Do(n, Claim(flight, id, size), capacity);
      && Roomy(resubmitted, capacity)
      && (CountsEnough(resubmitted, capacity) <==> StillEnough(n, n.held[id].size, size, capacity))
  {
    NothingResubmitted(n, CPU);
    NothingResubmitted(n, MEMORY);
    Resubmitted(n, flight, id, size, capacity, CPU);
    Resubmitted(n, flight, id, size, capacity, MEMORY);
    EnoughThen(n, Do(n, Claim(flight, id, size), capacity), n.held[id].size, size, capacity);
  }

  lemma StillFresh(n: Node, flight: nat, id: Id, size: Size, next: nat, other: Id, capacity: Size)
    requires flight != next && id != other && Fresh(n, next, other)
    ensures Fresh(Do(n, Claim(flight, id, size), capacity), next, other)
  {
  }

  /** Resubmitting a running workload leaves admission sound exactly when the size
      resubmitted is no smaller than the one running, or fills the node as it is. */
  lemma TwoSizesExactly(n: Node, flight: nat, id: Id, size: Size, next: nat, other: Id, capacity: Size)
    requires Roomy(n, capacity) && n.reserved.Keys !! n.held.Keys
    requires flight !in n.flights && id in Running(n)
    requires flight != next && Fresh(n, next, other)
    ensures Safe(Do(n, Claim(flight, id, size), capacity), next, other, capacity)
       <==> StillEnough(n, n.held[id].size, size, capacity)
  {
    ResubmittedCounts(n, flight, id, size, capacity);
    StillFresh(n, flight, id, size, next, other, capacity);
    CountingExactly(Do(n, Claim(flight, id, size), capacity), next, other, capacity);
  }

  // ----- the two rules are needed

  lemma SumOne(f: Id -> int, a: Id)
    ensures Sums.Sum({a}, f) == f(a)
  {
    Sums.Take({a}, f, a);
    assert {a} - {a} == {};
  }

  lemma SumTwo(f: Id -> int, a: Id, b: Id)
    requires a != b
    ensures Sums.Sum({a, b}, f) == f(a) + f(b)
  {
    Sums.Take({a, b}, f, a);
    assert {a, b} - {a} == {b};
    SumOne(f, b);
  }

  const ONE := Size(1, 1)
  const TWO := Size(2, 2)
  const THREE := Size(3, 3)

  /** A finished workload, and one running that fills the node. */
  const FULL := Node(map[1 := Workload(ONE, false), 2 := Workload(ONE, true)], map[], map[])

  lemma FullIsRoomy(declared: Id -> Size)
    requires forall id :: declared(id) == ONE
    ensures AsDeclared(FULL, declared) && OneEach(FULL) && Roomy(FULL, ONE)
  {
    assert Live(FULL) == {2};
    Sizes(FULL, CPU, declared);
    Sizes(FULL, MEMORY, declared);
    SumOne(Declared(declared, CPU), 2);
    SumOne(Declared(declared, MEMORY), 2);
  }

  lemma ReleasedOver(n: Node, id: Id, capacity: Size, declared: Id -> Size)
    requires AsDeclared(n, declared) && OneEach(n) && Roomy(n, capacity)
    requires !Harmless(n, id, capacity, declared)
    ensures !Roomy(Do(n, Release(id), capacity), capacity)
  {
    StepExactly(n, Release(id), capacity, declared);
  }

  lemma FullClaims()
    ensures var claimed := Do(FULL, Claim(0, 1, ONE), ONE);
      && claimed == Node(FULL.held, map[1 := ONE], map[0 := 1])
      && Live(claimed) == {2}
  {
    assert map[][1 := ONE] == map[1 := ONE];
  }

  /** A release that races a resubmission turns a start that needed no room into
      one that does: on a full node the finished workload is about to run again. */
  lemma ReleaseRaces(declared: Id -> Size)
    requires forall id :: declared(id) == ONE
    ensures AsDeclared(FULL, declared) && OneEach(FULL) && Roomy(FULL, ONE)
    ensures !Roomy(Do(Do(FULL, Claim(0, 1, ONE), ONE), Release(1), ONE), ONE)
  {
    FullIsRoomy(declared);
    FullClaims();
    var claimed := Do(FULL, Claim(0, 1, ONE), ONE);
    StepKeeps(FULL, Claim(0, 1, ONE), ONE, declared);
    assert Used(claimed, CPU) == 1 by {
      Sizes(claimed, CPU, declared);
      SumOne(Declared(declared, CPU), 2);
    }
    ReleasedOver(claimed, 1, ONE, declared);
  }

  const RESUBMITTED := Node(map[1 := Workload(TWO, true)], map[], map[])

  /** Resubmitting a running workload at a smaller size hides part of it, and the
      next workload takes the room that seems free. */
  lemma TwoSizesHide()
    ensures Used(RESUBMITTED, CPU) == 2
    ensures !Roomy(Do(Do(RESUBMITTED, Claim(0, 1, ONE), THREE), Claim(1, 2, TWO), THREE), THREE)
  {
    assert Live(RESUBMITTED) == {1};
    SumOne(UsedSize(RESUBMITTED, CPU), 1);
    var hidden := Do(RESUBMITTED, Claim(0, 1, ONE), THREE);
    assert hidden == RESUBMITTED.(reserved := map[1 := ONE], flights := map[0 := 1]);
    assert Running(hidden) + hidden.reserved.Keys == {1};
    SumOne(SizeSeen(hidden, CPU), 1);
    SumOne(SizeSeen(hidden, MEMORY), 1);
    var end := Do(hidden, Claim(1, 2, TWO), THREE);
    assert end.reserved == map[1 := ONE, 2 := TWO] && end.held == RESUBMITTED.held;
    assert Live(end) == {1, 2};
    SumTwo(UsedSize(end, CPU), 1, 2);
  }

  // ----- the endpoint

  datatype Held = Held(id: Id, workload: Workload)

  /** The executor lists every workload it holds, once. */
  ghost predicate Lists(listed: seq<Held>, held: map<Id, Workload>) {
    && (forall i :: 0 <= i < |listed| ==> listed[i].id in held && held[listed[i].id] == listed[i].workload)
    && (forall i, j :: 0 <= i < j < |listed| ==> listed[i].id != listed[j].id)
    && (forall id :: id in held ==> exists i :: 0 <= i < |listed| && listed[i].id == id)
  }

  /** Of the first i listed, those running and not reserved. */
  ghost predicate Scanned(listed: seq<Held>, n: Node, i: nat, seen: set<Id>) {
    && i <= |listed| && seen <= Running(n) - n.reserved.Keys
    && (forall j :: 0 <= j < i && listed[j].workload.running && listed[j].id !in n.reserved ==> listed[j].id in seen)
    && (forall j :: i <= j < |listed| ==> listed[j].id !in seen)
  }

  lemma ScanNext(listed: seq<Held>, n: Node, i: nat, seen: set<Id>)
    requires Lists(listed, n.held) && i < |listed| && Scanned(listed, n, i, seen)
    ensures var h := listed[i];
      && h.id !in seen && h.id in n.held && n.held[h.id] == h.workload
      && Scanned(listed, n, i + 1, if h.workload.running && h.id !in n.reserved then seen + {h.id} else seen)
  {
  }

  lemma CountNext(n: Node, seen: set<Id>, id: Id, size: Size)
    requires id !in seen
    requires if id in n.reserved then size == n.reserved[id] else id in n.held && size == n.held[id].size
    ensures Sums.Sum(seen + {id}, SizeSeen(n, CPU)) == Sums.Sum(seen, SizeSeen(n, CPU)) + size.cpu
    ensures Sums.Sum(seen + {id}, SizeSeen(n, MEMORY)) == Sums.Sum(seen, SizeSeen(n, MEMORY)) + size.memory
  {
    Sums.Put(seen, SizeSeen(n, CPU), id);
    Sums.Put(seen, SizeSeen(n, MEMORY), id);
  }

  lemma ScanEnds(listed: seq<Held>, n: Node, seen: set<Id>)
    requires Lists(listed, n.held) && Scanned(listed, n, |listed|, seen)
    ensures seen == Running(n) - n.reserved.Keys
  {
  }

  datatype Claimed = Mine | InFlight | NoRoom | NotListed

  class Endpoint {
    const capacity: Size
    var reserved: map<Id, Size>

    constructor (capacity: Size)
      ensures this.capacity == capacity && reserved == map[]
    {
      this.capacity := capacity;
      reserved := map[];
    }

    /** What the running workloads use that no start in flight accounts for, unless
        id is among those held. */
    method SumHeld(listed: seq<Held>, id: Id, ghost n: Node) returns (resubmitted: bool, cpu: nat, memory: nat)
      requires Lists(listed, n.held) && n.reserved == reserved
      ensures resubmitted <==> id in n.held
      ensures !resubmitted ==>
        && cpu == Sums.Sum(Running(n) - reserved.Keys, SizeSeen(n, CPU))
        && memory == Sums.Sum(Running(n) - reserved.Keys, SizeSeen(n, MEMORY))
    {
      cpu, memory := 0, 0;
      ghost var seen: set<Id> := {};
      for i := 0 to |listed|
        invariant forall j :: 0 <= j < i ==> listed[j].id != id
        invariant Scanned(listed, n, i, seen)
        invariant cpu == Sums.Sum(seen, SizeSeen(n, CPU)) && memory == Sums.Sum(seen, SizeSeen(n, MEMORY))
      {
        ScanNext(listed, n, i, seen);
        var h := listed[i];
        if h.id == id { return true, 0, 0; }
        if h.workload.running && h.id !in reserved {
          CountNext(n, seen, h.id, h.workload.size);
          cpu, memory := cpu + h.workload.size.cpu, memory + h.workload.size.memory;
          seen := seen + {h.id};
        }
      }
      ScanEnds(listed, n, seen);
      resubmitted := false;
    }

    /** Whether the running and reserved workloads leave room, each counted once. */
    method HasRoom(listed: seq<Held>, id: Id, size: Size, ghost n: Node) returns (fits: bool)
      requires Lists(listed, n.held) && n.reserved == reserved
      ensures fits <==> Fits(n, id, size, capacity)
    {
      var resubmitted, cpu, memory := SumHeld(listed, id, n);
      if resubmitted { return true; }
      ghost var seen := Running(n) - reserved.Keys;
      var todo := reserved.Keys;
      while todo != {}
        invariant todo <= reserved.Keys && seen == (Running(n) + reserved.Keys) - todo
        invariant cpu == Sums.Sum(seen, SizeSeen(n, CPU)) && memory == Sums.Sum(seen, SizeSeen(n, MEMORY))
        decreases todo
      {
        var r :| r in todo;
        todo := todo - {r};
        CountNext(n, seen, r, reserved[r]);
        cpu, memory := cpu + reserved[r].cpu, memory + reserved[r].memory;
        seen := seen + {r};
      }
      assert seen == Running(n) + reserved.Keys;
      fits := cpu + size.cpu <= capacity.cpu && memory + size.memory <= capacity.memory;
    }

    /** One attempt to reserve room, for a submission on a flight of its own. */
    method TryClaim(
      listed: Option<seq<Held>>, id: Id, size: Size, ghost n: Node, ghost flight: nat) returns (claimed: Claimed)
      requires n.reserved == reserved && (listed.Some? ==> Lists(listed.value, n.held)) && flight !in n.flights
      modifies this`reserved
      ensures claimed == InFlight <==> id in old(reserved)
      ensures claimed == NotListed <==> id !in old(reserved) && listed.None?
      ensures claimed == Mine ==> Fits(n, id, size, capacity) && reserved == old(reserved)[id := size]
      ensures claimed == NoRoom ==> !Fits(n, id, size, capacity)
      ensures listed.Some? ==> reserved == Do(n, Claim(flight, id, size), capacity).reserved
      ensures claimed != Mine ==> reserved == old(reserved)
    {
      if id in reserved { return InFlight; }
      if listed.None? { return NotListed; }
      var fits := HasRoom(listed.value, id, size, n);
      if !fits { return NoRoom; }
      reserved := reserved[id := size];
      claimed := Mine;
    }

    /** What a claim hands back, to be called once its start is over. */
    method Release(id: Id, ghost n: Node, ghost flight: nat)
      requires n.reserved == reserved && OneEach(n) && flight in n.flights && n.flights[flight] == id
      modifies this`reserved
      ensures reserved == Do(n, Unclaim(flight), capacity).reserved && id !in reserved
      ensures forall other :: other in n.flights && other != flight ==> n.flights[other] in reserved
    {
      reserved := reserved - {id};
    }
  }
}
