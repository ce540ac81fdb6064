/** Placing work on a pool's nodes (internal/providers/pool/pool.go). Between a
    node's reports, reservations stand for what it has been sent. */
module PoolPlacement {
  import opened Prelude
  import Sums

  const RESERVATION_TTL := 120_000_000_000 // two minutes

  datatype Resource = Cpu | Memory

  datatype Size = Size(cpu: nat, memory: nat)

  function Amount(s: Size, what: Resource): nat {
    if what == Cpu then s.cpu else s.memory
  }

  /** A node as last reported: its capacity less what its running workloads
      declared, and every workload it holds. */
  datatype Node = Node(name: string, spareCpu: int, spareMemory: int, reported: set<Id>)

  function Spare(n: Node, what: Resource): int {
    if what == Cpu then n.spareCpu else n.spareMemory
  }

  datatype Reservation = Reservation(node: string, size: Size, at: int)

  type Reservations = map<Id, Reservation>

  /** A reservation takes room on its node until the node reports the workload, or
      the time to live has passed. */
  predicate Counts(n: Node, id: Id, r: Reservation, now: int) {
    r.node == n.name && id !in n.reported && now - r.at <= RESERVATION_TTL
  }

  ghost function TakenBy(n: Node, reserved: Reservations, now: int, what: Resource): Id -> int {
    id => if id in reserved && Counts(n, id, reserved[id], now) then Amount(reserved[id].size, what) else 0
  }

  ghost function Free(n: Node, reserved: Reservations, now: int, what: Resource): int {
    Spare(n, what) - Sums.Sum(reserved.Keys, TakenBy(n, reserved, now, what))
  }

  // ----- choosing a node

  /** What the caller asks for: room for size, on one of members unless there are
      none, and on no node already tried. */
  datatype Ask = Ask(size: Size, members: seq<string>, tried: seq<string>)

  ghost predicate Eligible(n: Node, reserved: Reservations, now: int, ask: Ask) {
    && (ask.members == [] || n.name in ask.members) && n.name !in ask.tried
    && Free(n, reserved, now, Cpu) >= ask.size.cpu && Free(n, reserved, now, Memory) >= ask.size.memory
  }

  /** k is the first of the eligible nodes with the most free memory. */
  ghost predicate Roomiest(nodes: seq<Node>, reserved: Reservations, now: int, ask: Ask, k: nat) {
    && k < |nodes| && Eligible(nodes[k], reserved, now, ask)
    && forall j :: 0 <= j < |nodes| && j != k && Eligible(nodes[j], reserved, now, ask) ==>
         var a, b := Free(nodes[j], reserved, now, Memory), Free(nodes[k], reserved, now, Memory);
         a < b || (a == b && k < j)
  }

  ghost function Pick(nodes: seq<Node>, reserved: Reservations, now: int, ask: Ask): Option<nat> {
    if k: nat :| Roomiest(nodes, reserved, now, ask, k) then Some(k) else None
  }

  lemma PickIs(nodes: seq<Node>, reserved: Reservations, now: int, ask: Ask, k: nat)
    requires Roomiest(nodes, reserved, now, ask, k)
    ensures Pick(nodes, reserved, now, ask) == Some(k)
  {
    var j: nat :| Pick(nodes, reserved, now, ask) == Some(j) && Roomiest(nodes, reserved, now, ask, j);
  }

  lemma PickNone(nodes: seq<Node>, reserved: Reservations, now: int, ask: Ask)
    requires forall k :: 0 <= k < |nodes| ==> !Eligible(nodes[k], reserved, now, ask)
    ensures Pick(nodes, reserved, now, ask) == None
  {
  }

  /** The workload may go to n: it is among those asked for, if any are, has not been
      tried, and has as much CPU and memory free as the workload declares. */
  ghost predicate Fit(n: Node, reserved: Reservations, now: int, ask: Ask) {
    && (forall i :: 0 <= i < |ask.tried| ==> ask.tried[i] != n.name)
    && (ask.members == [] || exists i :: 0 <= i < |ask.members| && ask.members[i] == n.name)
    && Free(n, reserved, now, Cpu) - ask.size.cpu >= 0 && Free(n, reserved, now, Memory) - ask.size.memory >= 0
  }

  ghost predicate Best(nodes: seq<Node>, reserved: Reservations, now: int, ask: Ask, k: nat) {
    && k < |nodes| && Fit(nodes[k], reserved, now, ask)
    && forall j: nat :: j < |nodes| && Fit(nodes[j], reserved, now, ask) ==>
         var (mine, theirs) := (Free(nodes[k], reserved, now, Memory), Free(nodes[j], reserved, now, Memory));
         theirs <= mine && (j < k ==> theirs < mine)
  }

  lemma FitIsEligible(n: Node, reserved: Reservations, now: int, ask: Ask)
    ensures Fit(n, reserved, now, ask) <==> Eligible(n, reserved, now, ask)
  {
  }

  lemma RoomiestIsBest(nodes: seq<Node>, reserved: Reservations, now: int, ask: Ask, k: nat)
    requires Roomiest(nodes, reserved, now, ask, k)
    ensures Best(nodes, reserved, now, ask, k)
  {
    forall j: nat | j < |nodes|
      ensures Fit(nodes[j], reserved, now, ask) <==> Eligible(nodes[j], reserved, now, ask)
    {
      FitIsEligible(nodes[j], reserved, now, ask);
    }
  }

  // ----- every step between reports

  datatype Step =
    | Reserve(id: Id, ask: Ask)
    | Unreserve(id: Id)
    | Tick(now: int)

  datatype Pool = Pool(reserved: Reservations, now: int)

  ghost function Do(nodes: seq<Node>, p: Pool, step: Step): Pool {
    match step
    case Reserve(id, ask) =>
      (match Pick(nodes, p.reserved, p.now, ask)
       case None => p
       case Some(k) => p.(reserved := p.reserved[id := Reservation(nodes[k].name, ask.size, p.now)]))
    case Unreserve(id) => p.(reserved := p.reserved - {id})
    case Tick(now) => p.(now := Max(p.now, now))
  }

  ghost function Run(nodes: seq<Node>, p: Pool, steps: seq<Step>): Pool
    decreases |steps|
  {
    if steps == [] then p else Run(nodes, Do(nodes, p, steps[0]), steps[1..])
  }

  ghost predicate Roomy(nodes: seq<Node>, p: Pool) {
    forall i, what: Resource :: 0 <= i < |nodes| ==> Free(nodes[i], p.reserved, p.now, what) >= 0
  }

  ghost predicate DistinctNames(nodes: seq<Node>) {
    forall i, j :: 0 <= i < j < |nodes| ==> nodes[i].name != nodes[j].name
  }

  lemma UnreserveFrees(n: Node, reserved: Reservations, now: int, what: Resource, id: Id)
    ensures Free(n, reserved - {id}, now, what) >= Free(n, reserved, now, what)
  {
    var rest := reserved - {id};
    if id in reserved {
      Sums.Take(reserved.Keys, TakenBy(n, reserved, now, what), id);
      assert rest.Keys == reserved.Keys - {id};
      Sums.Same(rest.Keys, TakenBy(n, rest, now, what), TakenBy(n, reserved, now, what));
    } else {
      assert rest == reserved;
    }
  }

  lemma ReserveTakes(n: Node, reserved: Reservations, now: int, what: Resource, id: Id, r: Reservation)
    ensures Free(n, reserved[id := r], now, what)
         == Free(n, reserved - {id}, now, what) - if Counts(n, id, r, now) then Amount(r.size, what) else 0
  {
    var next, rest := reserved[id := r], reserved - {id};
    Sums.Take(next.Keys, TakenBy(n, next, now, what), id);
    assert next.Keys - {id} == rest.Keys;
    Sums.Same(rest.Keys, TakenBy(n, next, now, what), TakenBy(n, rest, now, what));
  }

  /** A reservation on this node that the node has not reported takes its size for two
      minutes. One the node reports is in the node's own numbers; that one, one on
      another node and an older one take nothing. */
  lemma FreshTakesRoom(n: Node, reserved: Reservations, now: int, what: Resource, id: Id)
    requires id in reserved
    ensures var (r, without) := (reserved[id], Free(n, reserved - {id}, now, what));
      && (r.node == n.name && id !in n.reported && now - r.at <= 120_000_000_000 ==>
            Free(n, reserved, now, what) == without - if what == Cpu then r.size.cpu else r.size.memory)
      && (r.node != n.name || id in n.reported || now - r.at > 120_000_000_000 ==>
            Free(n, reserved, now, what) == without)
  {
    ReserveTakes(n, reserved, now, what, id, reserved[id]);
    assert reserved[id := reserved[id]] == reserved;
  }

  /** What has been sent to a node and shows nowhere in its own numbers. */
  ghost function Sent(n: Node, reserved: Reservations, now: int): set<Id> {
    set id | id in reserved && reserved[id].node == n.name && id !in n.reported
             && now - reserved[id].at <= 120_000_000_000
  }

  ghost function SizeSent(reserved: Reservations, what: Resource): Id -> int {
    id => if id !in reserved then 0 else if what == Cpu then reserved[id].size.cpu else reserved[id].size.memory
  }

  /** A node has free what it has to spare less all that was sent to it. */
  lemma FreeIsUnsent(n: Node, reserved: Reservations, now: int, what: Resource)
    ensures Free(n, reserved, now, what)
         == (if what == Cpu then n.spareCpu else n.spareMemory)
            - Sums.Sum(Sent(n, reserved, now), SizeSent(reserved, what))
  {
    var sent, taken := Sent(n, reserved, now), TakenBy(n, reserved, now, what);
    Sums.Split(sent, reserved.Keys - sent, taken);
    assert sent + (reserved.Keys - sent) == reserved.Keys;
    Sums.Zero(reserved.Keys - sent, taken);
    Sums.Same(sent, taken, SizeSent(reserved, what));
  }

  lemma TickFrees(n: Node, reserved: Reservations, now: int, later: int, what: Resource)
    requires now <= later
    ensures Free(n, reserved, later, what) >= Free(n, reserved, now, what)
  {
    Sums.Below(reserved.Keys, TakenBy(n, reserved, later, what), TakenBy(n, reserved, now, what));
  }

  lemma StepKeeps(nodes: seq<Node>, p: Pool, step: Step)
    requires DistinctNames(nodes) && Roomy(nodes, p)
    ensures Roomy(nodes, Do(nodes, p, step))
  {
    var next := Do(nodes, p, step);
    forall i, what: Resource | 0 <= i < |nodes| ensures Free(nodes[i], next.reserved, next.now, what) >= 0 {
      assert Free(nodes[i], p.reserved, p.now, what) >= 0;
      match step
      case Reserve(id, ask) =>
        if Pick(nodes, p.reserved, p.now, ask).Some? {
          var k: nat :| Pick(nodes, p.reserved, p.now, ask) == Some(k) && Roomiest(nodes, p.reserved, p.now, ask, k);
          UnreserveFrees(nodes[i], p.reserved, p.now, what, id);
          ReserveTakes(nodes[i], p.reserved, p.now, what, id, next.reserved[id]);
          assert i != k ==> nodes[i].name != nodes[k].name;
        }
      case Unreserve(id) => UnreserveFrees(nodes[i], p.reserved, p.now, what, id);
      case Tick(now) => TickFrees(nodes[i], p.reserved, p.now, next.now, what);
    }
  }

  /** Between reports, no interleaving of placements, withdrawals and time
      overbooks a node, in CPU or in memory. */
  lemma {:induction false} NeverOverbooked(nodes: seq<Node>, p: Pool, steps: seq<Step>)
    requires DistinctNames(nodes) && Roomy(nodes, p)
    ensures Roomy(nodes, Run(nodes, p, steps))
    decreases |steps|
  {
    if steps != [] {
      StepKeeps(nodes, p, steps[0]);
      NeverOverbooked(nodes, Do(nodes, p, steps[0]), steps[1..]);
    }
  }

  /** What was sent to each node fits what it had to spare, in CPU and in memory. */
  ghost predicate SentFits(nodes: seq<Node>, p: Pool) {
    forall i :: 0 <= i < |nodes| ==>
      && Sums.Sum(Sent(nodes[i], p.reserved, p.now), SizeSent(p.reserved, Cpu)) <= nodes[i].spareCpu
      && Sums.Sum(Sent(nodes[i], p.reserved, p.now), SizeSent(p.reserved, Memory)) <= nodes[i].spareMemory
  }

  lemma RoomyIsFits(nodes: seq<Node>, p: Pool)
    ensures Roomy(nodes, p) <==> SentFits(nodes, p)
  {
    forall i, what: Resource | 0 <= i < |nodes| ensures
      Free(nodes[i], p.reserved, p.now, what)
      == (if what == Cpu then nodes[i].spareCpu else nodes[i].spareMemory)
         - Sums.Sum(Sent(nodes[i], p.reserved, p.now), SizeSent(p.reserved, what))
    {
      FreeIsUnsent(nodes[i], p.reserved, p.now, what);
    }
    if Roomy(nodes, p) {
      forall i | 0 <= i < |nodes| ensures
        && Sums.Sum(Sent(nodes[i], p.reserved, p.now), SizeSent(p.reserved, Cpu)) <= nodes[i].spareCpu
        && Sums.Sum(Sent(nodes[i], p.reserved, p.now), SizeSent(p.reserved, Memory)) <= nodes[i].spareMemory
      {
        assert Free(nodes[i], p.reserved, p.now, Cpu) >= 0 && Free(nodes[i], p.reserved, p.now, Memory) >= 0;
      }
    }
  }

  /** Between reports, whatever placements, withdrawals and time are interleaved, what
      was sent to a node and not reported back by it never exceeds what it had to
      spare. */
  lemma SentNeverExceeds(nodes: seq<Node>, p: Pool, steps: seq<Step>)
    requires DistinctNames(nodes) && SentFits(nodes, p)
    ensures SentFits(nodes, Run(nodes, p, steps))
  {
    RoomyIsFits(nodes, p);
    NeverOverbooked(nodes, p, steps);
    RoomyIsFits(nodes, Run(nodes, p, steps));
  }

  // ----- the provider

  /** What sending a workload to a node comes to. */
  datatype Reply = Taken | NoRoom | Failed

  ghost function Names(nodes: seq<Node>): set<string> {
    set i | 0 <= i < |nodes| :: nodes[i].name
  }

  class Provider {
    var nodes: seq<Node>
    var reserved: Reservations
    var placed: map<Id, string>
    var now: int

    constructor (nodes: seq<Node>)
      ensures this.nodes == nodes && reserved == map[] && placed == map[]
    {
      this.nodes := nodes;
      reserved := map[];
      placed := map[];
      now := 0;
    }

    /** The room a node has left. */
    method FreeOn(n: Node) returns (cpu: int, memory: int)
      ensures cpu == Free(n, reserved, now, Cpu) && memory == Free(n, reserved, now, Memory)
    {
      cpu, memory := n.spareCpu, n.spareMemory;
      var todo := reserved.Keys;
      while todo != {}
        invariant todo <= reserved.Keys
        invariant cpu == n.spareCpu - Sums.Sum(reserved.Keys - todo, TakenBy(n, reserved, now, Cpu))
        invariant memory == n.spareMemory - Sums.Sum(reserved.Keys - todo, TakenBy(n, reserved, now, Memory))
        decreases todo
      {
        var id :| id in todo;
        Sums.Put(reserved.Keys - todo, TakenBy(n, reserved, now, Cpu), id);
        Sums.Put(reserved.Keys - todo, TakenBy(n, reserved, now, Memory), id);
        assert reserved.Keys - (todo - {id}) == reserved.Keys - todo + {id};
        todo := todo - {id};
        var r := reserved[id];
        if !Counts(n, id, r, now) { continue; }
        cpu, memory := cpu - r.size.cpu, memory - r.size.memory;
      }
      assert reserved.Keys - todo == reserved.Keys;
    }

    /** Picks the node with the most free memory that fits, and holds that room. */
    method ReserveRoom(id: Id, ask: Ask) returns (node: Option<string>)
      modifies this`reserved
      ensures Pool(reserved, now) == Do(nodes, Pool(old(reserved), now), Reserve(id, ask))
      ensures node.None? ==>
        reserved == old(reserved) && forall k :: 0 <= k < |nodes| ==> !Eligible(nodes[k], reserved, now, ask)
      ensures node.Some? ==> reserved == old(reserved)[id := Reservation(node.value, ask.size, now)]
      ensures node.Some? <==> Pick(nodes, old(reserved), now, ask).Some?
      ensures node.Some? ==>
        exists k: nat :: Roomiest(nodes, old(reserved), now, ask, k) && nodes[k].name == node.value
      // a node asked for, not tried, with room, none such with more memory free nor as much and earlier
      ensures node.Some? ==>
        exists k: nat :: k < |nodes| && nodes[k].name == node.value && Best(nodes, old(reserved), now, ask, k)
      ensures node.None? ==> forall k: nat :: k < |nodes| ==> !Fit(nodes[k], old(reserved), now, ask)
    {
      var best: Option<nat> := None;
      var bestFree := -1;
      for i := 0 to |nodes|
        invariant reserved == old(reserved)
        invariant best.None? ==> bestFree == -1 && forall j :: 0 <= j < i ==> !Eligible(nodes[j], reserved, now, ask)
        invariant best.Some? ==>
          && bestFree >= 0 && best.value < i && Roomiest(nodes[..i], reserved, now, ask, best.value)
          && bestFree == Free(nodes[best.value], reserved, now, Memory)
      {
        ghost var seen := nodes[..i];
        assert nodes[..i + 1] == seen + [nodes[i]];
        var name := nodes[i].name;
        if (ask.members != [] && name !in ask.members) || name in ask.tried { continue; }
        var cpu, memory := FreeOn(nodes[i]);
        if cpu < ask.size.cpu || memory < ask.size.memory { continue; }
        if memory > bestFree { best, bestFree := Some(i), memory; }
      }
      assert nodes[..|nodes|] == nodes;
      if best.None? {
        PickNone(nodes, reserved, now, ask);
        return None;
      }
      PickIs(nodes, reserved, now, ask, best.value);
      RoomiestIsBest(nodes, reserved, now, ask, best.value);
      node := Some(nodes[best.value].name);
      reserved := reserved[id := Reservation(node.value, ask.size, now)];
    }

    method Withdraw(id: Id)
      modifies this`reserved
      ensures Pool(reserved, now) == Do(nodes, Pool(old(reserved), now), Unreserve(id))
    {
      reserved := reserved - {id};
    }

    /** Other submissions at work, nodes joining, leaving and reporting, and time
        passing. */
    method Meanwhile(id: Id, world: World)
      modifies this`nodes, this`reserved, this`now
      ensures nodes == world.nodes && reserved == Met(world.pool, old(reserved), id) && now == world.pool.now
    {
      nodes := world.nodes;
      var others := world.pool.reserved - {id};
      reserved := if id in reserved then others[id := reserved[id]] else others;
      now := world.pool.now;
    }

    /** One look for room, in the pool as it is by then. */
    method Look(id: Id, world: World, ask: Ask) returns (node: Option<string>)
      modifies this`nodes, this`reserved, this`now
      ensures var met := Met(world.pool, old(reserved), id);
        && (node.Some? <==> Pick(world.nodes, met, world.pool.now, ask).Some?)
        && (node.None? ==> reserved == met)
        && (node.Some? ==>
              && Offered(node.value, world.nodes, ask.members, ask.tried)
              && reserved == met[id := Reservation(node.value, ask.size, world.pool.now)])
    {
      Meanwhile(id, world);
      node := ReserveRoom(id, ask);
    }

    /** Places a task on one of members, roomiest first, passing over each node that
        refuses for room; worlds is what it meets each time it looks. Whatever other
        submissions and the nodes do meanwhile, it ends once every node there is has
        been tried, tries no node twice, and on an error leaves the execution a
        reservation exactly when it came with one and no node was even picked: its
        workload was malformed, or none had room at the first look. */
    method SubmitTo(
      id: Id, workload: Option<Size>, members: seq<string>, replies: string -> Reply, worlds: nat -> World,
      ghost everyone: set<string>)
      returns (node: Option<string>, ghost tried: seq<string>)
      requires Among(worlds, everyone)
      modifies this
      ensures PassedOver(tried, worlds, members, replies)
      ensures node.Some? ==>
        && Offered(node.value, worlds(|tried|).nodes, members, tried) && replies(node.value) == Taken
        && id in reserved && reserved[id].node == node.value && workload == Some(reserved[id].size)
        && placed == old(placed)[id := node.value]
      ensures node.None? ==> placed == old(placed)
      ensures node.None? ==>
        (id in reserved <==>
           id in old(reserved) && (workload.None? || !FirstPick(old(reserved), worlds(0), id, workload, members)))
      ensures node.None? && id in reserved ==> reserved[id] == old(reserved)[id]
    {
      tried := [];
      if workload.None? { return None, []; }
      var refusals: seq<string> := [];
      var round := 0;
      while true
        invariant refusals == tried && round == |tried|
        invariant PassedOver(tried, worlds, members, replies) && placed == old(placed)
        invariant round == 0 ==> tried == [] && reserved == old(reserved)
        invariant round > 0 ==> id !in reserved && FirstPick(old(reserved), worlds(0), id, workload, members)
        decreases everyone - NameSet(tried)
      {
        node := Look(id, worlds(round), Ask(workload.value, members, refusals));
        if node.None? { return None, tried; }
        match replies(node.value) {
          case Taken =>
            placed := placed[id := node.value];
            return node, tried;
          case NoRoom =>
            Withdraw(id);
            PassedOverSnoc(tried, worlds, members, replies, node.value, everyone);
            refusals := refusals + [node.value];
            tried := refusals;
            round := round + 1;
          case Failed =>
            Withdraw(id);
            return None, tried;
        }
      }
    }
  }

  /** What a submission finds when it looks: the nodes as they are, and the
      reservations and the time as other submissions leave them. */
  datatype World = World(nodes: seq<Node>, pool: Pool)

  /** Every node that is ever there is among everyone. */
  ghost predicate Among(worlds: nat -> World, everyone: set<string>) {
    forall round: nat :: Names(worlds(round).nodes) <= everyone
  }

  /** A node of the pool that was asked for and has not been tried. */
  ghost predicate Offered(name: string, nodes: seq<Node>, members: seq<string>, tried: seq<string>) {
    name in Names(nodes) && (members != [] ==> name in members) && name !in tried
  }

  /** The nodes that were tried: each of them one asked for and there at the time, none
      twice, and each refused for room. */
  ghost predicate PassedOver(tried: seq<string>, worlds: nat -> World, members: seq<string>, replies: string -> Reply) {
    forall i: nat :: i < |tried| ==>
      Offered(tried[i], worlds(i).nodes, members, tried[..i]) && replies(tried[i]) == NoRoom
  }

  ghost function NameSet(names: seq<string>): set<string> {
    set name | name in names
  }

  lemma PassedOverSnoc(
    tried: seq<string>, worlds: nat -> World, members: seq<string>, replies: string -> Reply, name: string,
    everyone: set<string>)
    requires PassedOver(tried, worlds, members, replies) && Among(worlds, everyone)
    requires Offered(name, worlds(|tried|).nodes, members, tried) && replies(name) == NoRoom
    ensures PassedOver(tried + [name], worlds, members, replies)
    ensures everyone - NameSet(tried + [name]) < everyone - NameSet(tried)
  {
    var next := tried + [name];
    forall i: nat | i < |next|
      ensures Offered(next[i], worlds(i).nodes, members, next[..i]) && replies(next[i]) == NoRoom
    {
      assert next[..i] == tried[..i];
    }
    assert name in next;
    assert name in everyone - NameSet(tried) && name !in everyone - NameSet(next);
    assert forall x :: x in tried ==> x in next;
  }

  /** Some node had room when the submission first looked. */
  ghost predicate FirstPick(
    reserved: Reservations, world: World, id: Id, workload: Option<Size>, members: seq<string>)
  {
    && workload.Some?
    && Pick(world.nodes, Met(world.pool, reserved, id), world.pool.now, Ask(workload.value, members, [])).Some?
  }

  /** The reservations as other submissions leave them: every one but id's own. */
  function Met(others: Pool, reserved: Reservations, id: Id): Reservations {
    if id in reserved then (others.reserved - {id})[id := reserved[id]] else others.reserved - {id}
  }
}
