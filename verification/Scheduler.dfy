/** Admission and ranking (internal/scheduler): which providers can run a task, and
    in what order to try them. */
module Scheduler {
  import opened Prelude
  import Quota

  datatype Reason =
    | DriverUnsupported | ArchUnsupported | ResourcesExceeded | DurationExceeded | NetworkUnsupported
    | ImageUnsupported | AttributeUnknown | ConstraintUnmet
    | NotAllowlisted | CostPolicy
    | QuotaExhausted | ProviderDisabled | Unhealthy

  predicate Transient(r: Reason) { r == QuotaExhausted || r == ProviderDisabled || r == Unhealthy }

  datatype Capabilities = Capabilities(attributes: map<string, string>, members: seq<Member>)

  datatype Member = Member(name: string, labels: map<string, string>, capabilities: Capabilities)

  datatype Input = Input(
    provider: string, capabilities: Capabilities, labels: map<string, string>,
    limits: Quota.Limits, usage: Quota.PoolUsage, share: Quota.Limits, shareUsage: Quota.PoolUsage,
    tier: int, enabled: bool, healthy: bool)

  /** A checker is a pure function of the request, which is fixed here, and an input. */
  type Checker = Input -> Option<Reason>

  /** closest names the pool member the rejection was taken from. */
  datatype Rejection = Rejection(provider: string, reason: Reason, also: seq<Reason>, closest: Option<string>)

  datatype Candidate = Candidate(input: Input, members: seq<string>)

  datatype Affinity = Affinity(weight: int, matches: Input -> bool)

  datatype Request = Request(strict: bool, execution: Quota.Execution, affinities: seq<Affinity>, rules: seq<Checker>)

  // ----- provider names

  /** strings.Compare is negative. */
  predicate Less(a: string, b: string)
    decreases |a|
  {
    b != [] && (a == [] || a[0] < b[0] || (a[0] == b[0] && Less(a[1..], b[1..])))
  }

  lemma {:induction false} LessTotal(a: string, b: string)
    ensures a == b || Less(a, b) || Less(b, a)
    decreases |a|
  {
    if a != [] && b != [] && a[0] == b[0] {
      LessTotal(a[1..], b[1..]);
      assert a == [a[0]] + a[1..] && b == [b[0]] + b[1..];
    }
  }

  /** The order of names is the dictionary's: a proper prefix comes first, and else the
      first character that differs decides. */
  lemma {:induction false} LessIsLexicographic(a: string, b: string)
    ensures Less(a, b) <==>
      || (|a| < |b| && a == b[..|a|])
      || exists k: nat :: k < |a| && k < |b| && a[..k] == b[..k] && a[k] < b[k]
    decreases |a|
  {
    if a != [] && b != [] && a[0] == b[0] {
      LessIsLexicographic(a[1..], b[1..]);
      if k: nat :| k < |a| && k < |b| && a[..k] == b[..k] && a[k] < b[k] {
        assert k > 0 && a[1..][..k - 1] == a[..k][1..] && b[1..][..k - 1] == b[..k][1..];
        assert a[1..][k - 1] < b[1..][k - 1];
      }
      if k: nat :| k < |a[1..]| && k < |b[1..]| && a[1..][..k] == b[1..][..k] && a[1..][k] < b[1..][k] {
        assert a[..k + 1] == [a[0]] + a[1..][..k] && b[..k + 1] == [b[0]] + b[1..][..k];
        assert a[k + 1] < b[k + 1];
      }
      if |a| < |b| && a == b[..|a|] { assert a[1..] == b[1..][..|a| - 1]; }
      if |a[1..]| < |b[1..]| && a[1..] == b[1..][..|a| - 1] { assert a == [a[0]] + a[1..] == b[..|a|]; }
    } else if a != [] && b != [] {
      assert |a| < |b| ==> b[..|a|][0] == b[0];
      assert forall k: nat :: 0 < k < |a| && k < |b| ==> a[..k][0] == a[0] && b[..k][0] == b[0];
      assert a[..0] == b[..0];
    }
  }

  lemma {:induction false} LessStrict(a: string, b: string)
    ensures !(Less(a, b) && Less(b, a))
    decreases |a|
  {
    if a != [] && b != [] && a[0] == b[0] { LessStrict(a[1..], b[1..]); }
  }

  lemma {:induction false} LessTransitive(a: string, b: string, c: string)
    requires Less(a, b) && Less(b, c)
    ensures Less(a, c)
    decreases |a|
  {
    if a != [] && a[0] == b[0] && b[0] == c[0] { LessTransitive(a[1..], b[1..], c[1..]); }
  }

  // ----- one order for one set of elements

  ghost predicate Ordered<T(!new)>(s: seq<T>, before: (T, T) -> bool) {
    forall i, j :: 0 <= i < j < |s| ==> before(s[i], s[j])
  }

  lemma SameHead<T(!new)>(a: seq<T>, b: seq<T>, before: (T, T) -> bool)
    requires Ordered(a, before) && Ordered(b, before) && a != [] && b != []
    requires forall x, y :: x in a && y in a ==> !(before(x, y) && before(y, x))
    requires forall x :: x in a <==> x in b
    ensures a[0] == b[0]
  {
    assert a[0] in b && b[0] in a;
    var i :| 0 <= i < |a| && a[i] == b[0];
    var j :| 0 <= j < |b| && b[j] == a[0];
    assert i > 0 ==> before(a[0], b[0]);
    assert j > 0 ==> before(b[0], a[0]);
  }

  lemma InTail<T(!new)>(a: seq<T>, before: (T, T) -> bool, x: T)
    requires Ordered(a, before) && a != [] && !before(a[0], a[0])
    ensures x in a[1..] <==> x in a && x != a[0]
  {
    if x in a[1..] {
      var k :| 0 <= k < |a[1..]| && a[1..][k] == x;
      assert before(a[0], a[k + 1]);
    }
    if x in a && x != a[0] {
      var k :| 0 <= k < |a| && a[k] == x;
      assert a[1..][k - 1] == x;
    }
  }

  /** Two sequences of the same elements, each ordered, are the same sequence. */
  lemma {:induction false} OneOrder<T(!new)>(a: seq<T>, b: seq<T>, before: (T, T) -> bool)
    requires Ordered(a, before) && Ordered(b, before)
    requires forall x, y :: x in a && y in a ==> !(before(x, y) && before(y, x))
    requires forall x :: x in a <==> x in b
    ensures a == b
    decreases |a|
  {
    assert |b| > 0 ==> b[0] in b;
    if a != [] {
      assert a[0] in a;
      SameHead(a, b, before);
      forall x ensures x in a[1..] <==> x in b[1..] {
        InTail(a, before, x);
        InTail(b, before, x);
      }
      OneOrder(a[1..], b[1..], before);
      assert a == [a[0]] + a[1..] && b == [b[0]] + b[1..];
    }
  }

  // ----- judging one provider

  /** The reasons the rules give, in order. */
  function Failures(input: Input, rules: seq<Checker>): seq<Reason> {
    if rules == [] then []
    else Failures(input, rules[..|rules| - 1])
         + match rules[|rules| - 1](input) { case None => [] case Some(reason) => [reason] }
  }

  predicate Passes(input: Input, rules: seq<Checker>) {
    forall i :: 0 <= i < |rules| ==> rules[i](input).None?
  }

  lemma {:induction false} PassesIff(input: Input, rules: seq<Checker>)
    ensures Failures(input, rules) == [] <==> Passes(input, rules)
  {
    if rules != [] {
      var n := |rules| - 1;
      PassesIff(input, rules[..n]);
      if Passes(input, rules[..n]) && rules[n](input).None? {
        forall i | 0 <= i < |rules| ensures rules[i](input).None? {
          if i < n { assert rules[..n][i] == rules[i]; }
        }
      }
      if Passes(input, rules) {
        forall i | 0 <= i < n ensures rules[..n][i](input).None? {
          assert rules[..n][i] == rules[i];
        }
      }
    }
  }

  /** The reasons of two lists of rules, one after the other, are those of the first and
      then those of the second. */
  lemma {:induction false} FailuresConcat(input: Input, one: seq<Checker>, two: seq<Checker>)
    ensures Failures(input, one + two) == Failures(input, one) + Failures(input, two)
  {
    if two == [] {
      assert one + two == one;
    } else {
      assert (one + two)[..|one + two| - 1] == one + two[..|two| - 1];
      FailuresConcat(input, one, two[..|two| - 1]);
    }
  }

  lemma FailuresOfOne(input: Input, rule: Checker)
    ensures Failures(input, [rule]) == match rule(input) case None => [] case Some(reason) => [reason]
  {
    assert [rule][..0] == [];
  }

  function Judge(input: Input, rules: seq<Checker>): Option<Rejection> {
    var failures := Failures(input, rules);
    if failures == [] then None else Some(Rejection(input.provider, failures[0], failures[1..], None))
  }

  lemma JudgeNext(input: Input, rules: seq<Checker>, i: nat)
    requires i < |rules|
    ensures var was, next := Judge(input, rules[..i]), Judge(input, rules[..i + 1]);
      match rules[i](input)
      case None => next == was
      case Some(reason) =>
        next == Some(if was.None? then Rejection(input.provider, reason, [], None)
                     else was.value.(also := was.value.also + [reason]))
  {
    assert rules[..i + 1][..i] == rules[..i] && rules[..i + 1][i] == rules[i];
    var failures := Failures(input, rules[..i]);
    match rules[i](input)
    case None => assert Failures(input, rules[..i + 1]) == failures + [] == failures;
    case Some(reason) =>
      assert Failures(input, rules[..i + 1]) == failures + [reason];
      if failures == [] {
        assert failures + [reason] == [reason] && [reason][1..] == [];
      } else {
        assert (failures + [reason])[0] == failures[0] && (failures + [reason])[1..] == failures[1..] + [reason];
      }
  }

  /** admitOne: every rule runs; the first rejection is the answer, the rest ride along. */
  method AdmitOne(input: Input, rules: seq<Checker>) returns (first: Option<Rejection>)
    ensures first == Judge(input, rules)
    ensures first.None? <==> Passes(input, rules)
    ensures first.Some? ==> [first.value.reason] + first.value.also == Failures(input, rules)
  {
    first := None;
    for i := 0 to |rules|
      invariant first == Judge(input, rules[..i])
    {
      JudgeNext(input, rules, i);
      match rules[i](input) {
        case None =>
        case Some(reason) =>
          if first.None? {
            first := Some(Rejection(input.provider, reason, [], None));
          } else {
            first := Some(first.value.(also := first.value.also + [reason]));
          }
      }
    }
    assert rules[..|rules|] == rules;
    PassesIff(input, rules);
  }

  /** A member judged as if it were the whole provider. */
  function As(input: Input, m: Member): Input {
    input.(capabilities := m.capabilities, labels := m.labels)
  }

  predicate MemberPasses(input: Input, rules: seq<Checker>, i: nat)
    requires i < |input.capabilities.members|
  {
    Passes(As(input, input.capabilities.members[i]), rules)
  }

  /** How many checks beyond the first a member failed. */
  function Extra(input: Input, rules: seq<Checker>, i: nat): int
    requires i < |input.capabilities.members|
  {
    |Failures(As(input, input.capabilities.members[i]), rules)| - 1
  }

  /** The names of the first n members that pass, in order. */
  function Passing(input: Input, rules: seq<Checker>, n: nat): seq<string>
    requires n <= |input.capabilities.members|
  {
    if n == 0 then []
    else Passing(input, rules, n - 1)
         + if MemberPasses(input, rules, n - 1) then [input.capabilities.members[n - 1].name] else []
  }

  /** One of the first n members passes and has this name. */
  ghost predicate SomePasses(input: Input, rules: seq<Checker>, n: nat, name: string)
    requires n <= |input.capabilities.members|
  {
    exists i :: 0 <= i < n && input.capabilities.members[i].name == name && MemberPasses(input, rules, i)
  }

  lemma SomePassesNext(input: Input, rules: seq<Checker>, n: nat, name: string)
    requires n < |input.capabilities.members|
    ensures SomePasses(input, rules, n + 1, name) <==>
      SomePasses(input, rules, n, name) || (input.capabilities.members[n].name == name && MemberPasses(input, rules, n))
  {
  }

  lemma {:induction false} PassingIff(input: Input, rules: seq<Checker>, n: nat)
    requires n <= |input.capabilities.members|
    ensures forall name :: name in Passing(input, rules, n) <==> SomePasses(input, rules, n, name)
  {
    if n > 0 {
      PassingIff(input, rules, n - 1);
      forall name ensures name in Passing(input, rules, n) <==> SomePasses(input, rules, n, name) {
        SomePassesNext(input, rules, n - 1, name);
      }
    }
  }

  /** A member is judged by itself: by its own capabilities and labels, not the pool's. */
  lemma MembersStandAlone(input: Input, rules: seq<Checker>)
    ensures var pool := input.capabilities.members;
      forall name :: name in Passing(input, rules, |pool|) <==>
        exists i :: 0 <= i < |pool| && pool[i].name == name && StandsAlone(input, rules, pool[i])
  {
    var pool := input.capabilities.members;
    PassingIff(input, rules, |pool|);
    assert forall i :: 0 <= i < |pool| ==> (MemberPasses(input, rules, i) <==> StandsAlone(input, rules, pool[i]));
  }

  ghost predicate StandsAlone(input: Input, rules: seq<Checker>, m: Member) {
    var alone := input.(capabilities := m.capabilities, labels := m.labels);
    forall k :: 0 <= k < |rules| ==> rules[k](alone).None?
  }

  lemma {:induction false} NonePassing(input: Input, rules: seq<Checker>, n: nat)
    requires n <= |input.capabilities.members|
    ensures Passing(input, rules, n) == [] <==> forall i :: 0 <= i < n ==> !MemberPasses(input, rules, i)
  {
    if n > 0 { NonePassing(input, rules, n - 1); }
  }

  /** c is the first of the failing members that failed the fewest checks. */
  ghost predicate Closest(input: Input, rules: seq<Checker>, c: nat) {
    && c < |input.capabilities.members|
    && forall i :: 0 <= i < |input.capabilities.members| ==>
         if i < c then Extra(input, rules, c) < Extra(input, rules, i)
         else Extra(input, rules, c) <= Extra(input, rules, i)
  }

  ghost function MemberRejection(input: Input, rules: seq<Checker>, c: nat): Option<Rejection>
    requires c < |input.capabilities.members|
  {
    var m := input.capabilities.members[c];
    match Judge(As(input, m), rules)
    case None => None
    case Some(r) => Some(r.(closest := Some(m.name)))
  }

  /** A plain provider is judged as it is. A pool is admitted exactly when some
      member passes every check by itself, with exactly the members that do;
      otherwise its closest member speaks for it. */
  ghost predicate Decided(input: Input, rules: seq<Checker>, members: seq<string>, rejection: Option<Rejection>) {
    var pool := input.capabilities.members;
    if pool == [] then members == [] && rejection == Judge(input, rules)
    else if exists i :: 0 <= i < |pool| && MemberPasses(input, rules, i) then
      rejection.None? && members == Passing(input, rules, |pool|)
    else
      && members == [] && rejection.Some?
      && exists c: nat :: Closest(input, rules, c) && rejection == MemberRejection(input, rules, c)
  }

  lemma ClosestOnce(input: Input, rules: seq<Checker>, c: nat, d: nat)
    requires Closest(input, rules, c) && Closest(input, rules, d)
    ensures c == d
  {
    var x, y := Extra(input, rules, c), Extra(input, rules, d);
  }

  lemma DecidedOnce(
    input: Input, rules: seq<Checker>, m: seq<string>, r: Option<Rejection>, n: seq<string>, s: Option<Rejection>)
    requires Decided(input, rules, m, r) && Decided(input, rules, n, s)
    ensures m == n && r == s
  {
    var pool := input.capabilities.members;
    if pool != [] && forall i :: 0 <= i < |pool| ==> !MemberPasses(input, rules, i) {
      var c: nat :| Closest(input, rules, c) && r == MemberRejection(input, rules, c);
      var d: nat :| Closest(input, rules, d) && s == MemberRejection(input, rules, d);
      ClosestOnce(input, rules, c, d);
    }
  }

  /** Of the first i members, the closest of those that fail, or none when all pass. */
  ghost predicate ClosestYet(input: Input, rules: seq<Checker>, i: nat, closest: Option<Rejection>, best: nat) {
    var pool := input.capabilities.members;
    && i <= |pool|
    && (closest.None? ==> forall j :: 0 <= j < i ==> MemberPasses(input, rules, j))
    && (closest.Some? ==>
          && best < i && !MemberPasses(input, rules, best) && closest == MemberRejection(input, rules, best)
          && |closest.value.also| == Extra(input, rules, best)
          && forall j :: 0 <= j < i && !MemberPasses(input, rules, j) ==>
               if j < best then Extra(input, rules, best) < Extra(input, rules, j)
               else Extra(input, rules, best) <= Extra(input, rules, j))
  }

  lemma MemberJudged(input: Input, rules: seq<Checker>, i: nat)
    requires i < |input.capabilities.members|
    ensures MemberPasses(input, rules, i) <==> MemberRejection(input, rules, i).None?
    ensures !MemberPasses(input, rules, i) ==> |MemberRejection(input, rules, i).value.also| == Extra(input, rules, i)
  {
    PassesIff(As(input, input.capabilities.members[i]), rules);
  }

  lemma ClosestPasses(input: Input, rules: seq<Checker>, i: nat, closest: Option<Rejection>, best: nat)
    requires i < |input.capabilities.members| && ClosestYet(input, rules, i, closest, best)
    requires MemberPasses(input, rules, i)
    ensures ClosestYet(input, rules, i + 1, closest, best)
  {
  }

  lemma ClosestFails(input: Input, rules: seq<Checker>, i: nat, closest: Option<Rejection>, best: nat)
    requires i < |input.capabilities.members| && ClosestYet(input, rules, i, closest, best)
    requires !MemberPasses(input, rules, i)
    ensures if closest.None? || Extra(input, rules, i) < |closest.value.also|
            then ClosestYet(input, rules, i + 1, MemberRejection(input, rules, i), i)
            else ClosestYet(input, rules, i + 1, closest, best)
  {
    MemberJudged(input, rules, i);
  }

  lemma ClosestDecides(input: Input, rules: seq<Checker>, closest: Option<Rejection>, best: nat)
    requires input.capabilities.members != []
    requires ClosestYet(input, rules, |input.capabilities.members|, closest, best)
    requires forall j :: 0 <= j < |input.capabilities.members| ==> !MemberPasses(input, rules, j)
    ensures closest.Some? && Decided(input, rules, [], closest)
  {
    assert !MemberPasses(input, rules, 0);
    assert Closest(input, rules, best);
  }

  method AdmitProvider(input: Input, rules: seq<Checker>) returns (members: seq<string>, rejection: Option<Rejection>)
    ensures Decided(input, rules, members, rejection)
    ensures input.capabilities.members != [] && rejection.None? ==> members != []
    // a rejected pool is spoken for by a member, by name
    ensures input.capabilities.members != [] && rejection.Some? ==>
      && rejection.value.provider == input.provider
      && exists i :: 0 <= i < |input.capabilities.members|
           && rejection.value.closest == Some(input.capabilities.members[i].name)
           && [rejection.value.reason] + rejection.value.also
              == Failures(As(input, input.capabilities.members[i]), rules)
  {
    var pool := input.capabilities.members;
    if pool == [] {
      rejection := AdmitOne(input, rules);
      return [], rejection;
    }
    members := [];
    var closest: Option<Rejection> := None;
    ghost var best: nat := 0;
    for i := 0 to |pool|
      invariant members == Passing(input, rules, i)
      invariant ClosestYet(input, rules, i, closest, best)
    {
      var r := AdmitOne(As(input, pool[i]), rules);
      if r.None? {
        ClosestPasses(input, rules, i, closest, best);
        members := members + [pool[i].name];
        continue;
      }
      ClosestFails(input, rules, i, closest, best);
      if closest.None? || |r.value.also| < |closest.value.also| {
        closest := Some(r.value.(closest := Some(pool[i].name)));
        best := i;
      }
    }
    NonePassing(input, rules, |pool|);
    if |members| > 0 { return members, None; }
    ClosestDecides(input, rules, closest, best);
    return [], closest;
  }

  // ----- judging every provider

  datatype Result = Result(candidates: seq<Candidate>, rejections: seq<Rejection>)

  ghost predicate DistinctProviders(inputs: seq<Input>) {
    forall i, j :: 0 <= i < j < |inputs| ==> inputs[i].provider != inputs[j].provider
  }

  ghost function CandidateFirst(): (Candidate, Candidate) -> bool {
    (a: Candidate, b: Candidate) => Less(a.input.provider, b.input.provider)
  }

  ghost function RejectionFirst(): (Rejection, Rejection) -> bool {
    (a: Rejection, b: Rejection) => Less(a.provider, b.provider)
  }

  ghost predicate Admits(rules: seq<Checker>, input: Input, c: Candidate) {
    c.input == input && Decided(input, rules, c.members, None)
  }

  ghost predicate Rejects(rules: seq<Checker>, input: Input, r: Rejection) {
    Decided(input, rules, [], Some(r))
  }

  /** One of the first n inputs is the candidate, or was rejected so. */
  ghost predicate SomeAdmits(rules: seq<Checker>, inputs: seq<Input>, n: nat, c: Candidate)
    requires n <= |inputs|
  {
    exists i :: 0 <= i < n && Admits(rules, inputs[i], c)
  }

  ghost predicate SomeRejects(rules: seq<Checker>, inputs: seq<Input>, n: nat, r: Rejection)
    requires n <= |inputs|
  {
    exists i :: 0 <= i < n && Rejects(rules, inputs[i], r)
  }

  /** The verdict on every input, each list ordered by provider name. */
  ghost predicate IsAdmission(rules: seq<Checker>, inputs: seq<Input>, result: Result) {
    && Ordered(result.candidates, CandidateFirst()) && Ordered(result.rejections, RejectionFirst())
    && (forall c :: c in result.candidates <==> SomeAdmits(rules, inputs, |inputs|, c))
    && (forall r :: r in result.rejections <==> SomeRejects(rules, inputs, |inputs|, r))
  }

  /** Result.Sort on one list: any sort leaves distinct names in this order. */
  method SortByName<T(!new)>(s: seq<T>, name: T -> string, ghost first: (T, T) -> bool) returns (sorted: seq<T>)
    requires forall i, j :: 0 <= i < j < |s| ==> name(s[i]) != name(s[j])
    requires forall x, y :: first(x, y) == Less(name(x), name(y))
    ensures Ordered(sorted, first) && multiset(sorted) == multiset(s)
  {
    sorted := [];
    for i := 0 to |s|
      invariant Ordered(sorted, first) && multiset(sorted) == multiset(s[..i])
    {
      var j := |sorted|;
      while j > 0 && Less(name(s[i]), name(sorted[j - 1]))
        invariant 0 <= j <= |sorted|
        invariant forall k :: j <= k < |sorted| ==> Less(name(s[i]), name(sorted[k]))
      {
        j := j - 1;
      }
      assert s[..i + 1] == s[..i] + [s[i]];
      forall k | 0 <= k < j ensures first(sorted[k], s[i]) {
        NamedBefore(s, i, sorted, j, name, first, k);
      }
      OrderedInsert(sorted, j, s[i], first);
      sorted := sorted[..j] + [s[i]] + sorted[j..];
    }
    assert s[..|s|] == s;
  }

  lemma OrderedInsert<T(!new)>(sorted: seq<T>, j: nat, x: T, before: (T, T) -> bool)
    requires j <= |sorted| && Ordered(sorted, before)
    requires forall k :: 0 <= k < j ==> before(sorted[k], x)
    requires forall k :: j <= k < |sorted| ==> before(x, sorted[k])
    ensures Ordered(sorted[..j] + [x] + sorted[j..], before)
    ensures multiset(sorted[..j] + [x] + sorted[j..]) == multiset(sorted) + multiset{x}
  {
    assert sorted == sorted[..j] + sorted[j..];
    var next := sorted[..j] + [x] + sorted[j..];
    forall a, b | 0 <= a < b < |next| ensures before(next[a], next[b]) {
      if b < j {
        assert next[a] == sorted[a] && next[b] == sorted[b];
      } else if b == j {
        assert next[a] == sorted[a];
      } else if a < j {
        assert next[a] == sorted[a] && next[b] == sorted[b - 1];
      } else if a == j {
        assert next[b] == sorted[b - 1];
      } else {
        assert next[a] == sorted[a - 1] && next[b] == sorted[b - 1];
      }
    }
  }

  lemma NamedBefore<T(!new)>(
    s: seq<T>, i: nat, sorted: seq<T>, j: nat, name: T -> string, first: (T, T) -> bool, k: nat)
    requires i < |s| && k < j <= |sorted| && Ordered(sorted, first) && multiset(sorted) == multiset(s[..i])
    requires forall i, j :: 0 <= i < j < |s| ==> name(s[i]) != name(s[j])
    requires forall x, y :: first(x, y) == Less(name(x), name(y))
    requires !Less(name(s[i]), name(sorted[j - 1]))
    ensures first(sorted[k], s[i])
  {
    assert sorted[j - 1] in multiset(s[..i]);
    var l :| 0 <= l < i && s[..i][l] == sorted[j - 1];
    assert name(s[l]) != name(s[i]);
    LessTotal(name(sorted[j - 1]), name(s[i]));
    if k < j - 1 {
      assert first(sorted[k], sorted[j - 1]);
      LessTransitive(name(sorted[k]), name(sorted[j - 1]), name(s[i]));
    }
  }

  /** The verdicts on the first n inputs, before sorting: each input is on exactly
      one of the two lists. */
  ghost predicate Collected(rules: seq<Checker>, inputs: seq<Input>, n: nat, cs: seq<Candidate>, rs: seq<Rejection>) {
    |cs| + |rs| == n && AdmittedOf(rules, inputs, n, cs) && RejectedOf(rules, inputs, n, rs)
  }

  ghost predicate AdmittedOf(rules: seq<Checker>, inputs: seq<Input>, n: nat, cs: seq<Candidate>) {
    && n <= |inputs|
    && (forall c :: c in cs <==> SomeAdmits(rules, inputs, n, c))
    && (forall i, j :: 0 <= i < j < |cs| ==> cs[i].input.provider != cs[j].input.provider)
  }

  ghost predicate RejectedOf(rules: seq<Checker>, inputs: seq<Input>, n: nat, rs: seq<Rejection>) {
    && n <= |inputs|
    && (forall r :: r in rs <==> SomeRejects(rules, inputs, n, r))
    && (forall i, j :: 0 <= i < j < |rs| ==> rs[i].provider != rs[j].provider)
  }

  lemma RejectionNames(rules: seq<Checker>, input: Input, r: Rejection)
    requires Rejects(rules, input, r)
    ensures r.provider == input.provider
  {
  }

  lemma AdmittedSnoc(rules: seq<Checker>, inputs: seq<Input>, n: nat, cs: seq<Candidate>,
                     members: seq<string>, rejection: Option<Rejection>)
    requires n < |inputs| && DistinctProviders(inputs) && AdmittedOf(rules, inputs, n, cs)
    requires Decided(inputs[n], rules, members, rejection)
    ensures AdmittedOf(rules, inputs, n + 1, if rejection.None? then cs + [Candidate(inputs[n], members)] else cs)
  {
    var next := if rejection.None? then cs + [Candidate(inputs[n], members)] else cs;
    forall c ensures c in next <==> SomeAdmits(rules, inputs, n + 1, c) {
      assert SomeAdmits(rules, inputs, n + 1, c) <==> SomeAdmits(rules, inputs, n, c) || Admits(rules, inputs[n], c);
      AdmitsOnly(rules, inputs[n], members, rejection, c);
    }
    forall c | c in cs ensures c.input.provider != inputs[n].provider {
      assert SomeAdmits(rules, inputs, n, c);
      var i :| 0 <= i < n && Admits(rules, inputs[i], c);
    }
  }

  lemma AdmitsOnly(rules: seq<Checker>, input: Input, members: seq<string>, rejection: Option<Rejection>, c: Candidate)
    requires Decided(input, rules, members, rejection)
    ensures Admits(rules, input, c) <==> rejection.None? && c == Candidate(input, members)
  {
    if Admits(rules, input, c) { DecidedOnce(input, rules, members, rejection, c.members, None); }
  }

  lemma RejectsOnly(rules: seq<Checker>, input: Input, members: seq<string>, rejection: Option<Rejection>, r: Rejection)
    requires Decided(input, rules, members, rejection)
    ensures Rejects(rules, input, r) <==> rejection == Some(r)
  {
    if Rejects(rules, input, r) { DecidedOnce(input, rules, members, rejection, [], Some(r)); }
  }

  lemma RejectedSnoc(rules: seq<Checker>, inputs: seq<Input>, n: nat, rs: seq<Rejection>,
                     members: seq<string>, rejection: Option<Rejection>)
    requires n < |inputs| && DistinctProviders(inputs) && RejectedOf(rules, inputs, n, rs)
    requires Decided(inputs[n], rules, members, rejection)
    ensures RejectedOf(rules, inputs, n + 1, if rejection.None? then rs else rs + [rejection.value])
  {
    var next := if rejection.None? then rs else rs + [rejection.value];
    forall r ensures r in next <==> SomeRejects(rules, inputs, n + 1, r) {
      assert SomeRejects(rules, inputs, n + 1, r) <==> SomeRejects(rules, inputs, n, r) || Rejects(rules, inputs[n], r);
      RejectsOnly(rules, inputs[n], members, rejection, r);
    }
    forall r | r in rs ensures r.provider != inputs[n].provider {
      assert SomeRejects(rules, inputs, n, r);
      var i :| 0 <= i < n && Rejects(rules, inputs[i], r);
      RejectionNames(rules, inputs[i], r);
    }
    if rejection.Some? { RejectionNames(rules, inputs[n], rejection.value); }
  }

  /** Admit: every provider is judged, and is either a candidate or a rejection. */
  method Admit(rules: seq<Checker>, inputs: seq<Input>) returns (result: Result)
    requires DistinctProviders(inputs)
    ensures IsAdmission(rules, inputs, result)
    ensures |result.candidates| + |result.rejections| == |inputs|
  {
    var candidates, rejections := [], [];
    for i := 0 to |inputs|
      invariant Collected(rules, inputs, i, candidates, rejections)
    {
      var members, rejection := AdmitProvider(inputs[i], rules);
      AdmittedSnoc(rules, inputs, i, candidates, members, rejection);
      RejectedSnoc(rules, inputs, i, rejections, members, rejection);
      if rejection.Some? {
        rejections := rejections + [rejection.value];
      } else {
        candidates := candidates + [Candidate(inputs[i], members)];
      }
    }
    var cs := SortByName(candidates, (c: Candidate) => c.input.provider, CandidateFirst());
    var rs := SortByName(rejections, (r: Rejection) => r.provider, RejectionFirst());
    SameElements(cs, candidates);
    SameElements(rs, rejections);
    result := Result(cs, rs);
  }

  lemma SameElements<T>(a: seq<T>, b: seq<T>)
    requires multiset(a) == multiset(b)
    ensures |a| == |b| && forall x :: x in a <==> x in b
  {
    assert |multiset(a)| == |multiset(b)|;
    assert forall x :: x in a <==> x in multiset(a);
  }

  /** What admission says depends on which inputs there are, not on their order. */
  lemma AdmissionOnce(rules: seq<Checker>, a: seq<Input>, b: seq<Input>, x: Result, y: Result)
    requires IsAdmission(rules, a, x) && IsAdmission(rules, b, y)
    requires forall input :: input in a <==> input in b
    ensures x == y
  {
    forall c ensures c in x.candidates <==> c in y.candidates {
      SomeIn(a, b, input => Admits(rules, input, c));
    }
    forall r ensures r in x.rejections <==> r in y.rejections {
      SomeIn(a, b, input => Rejects(rules, input, r));
    }
    forall c, d ensures !(CandidateFirst()(c, d) && CandidateFirst()(d, c)) {
      LessStrict(c.input.provider, d.input.provider);
    }
    forall r, s ensures !(RejectionFirst()(r, s) && RejectionFirst()(s, r)) {
      LessStrict(r.provider, s.provider);
    }
    OneOrder(x.candidates, y.candidates, CandidateFirst());
    OneOrder(x.rejections, y.rejections, RejectionFirst());
  }

  lemma SomeIn(a: seq<Input>, b: seq<Input>, holds: Input -> bool)
    requires forall input :: input in a <==> input in b
    ensures (exists i :: 0 <= i < |a| && holds(a[i])) <==> (exists i :: 0 <= i < |b| && holds(b[i]))
  {
    if i :| 0 <= i < |a| && holds(a[i]) {
      assert a[i] in b;
      var j :| 0 <= j < |b| && b[j] == a[i];
    }
    if i :| 0 <= i < |b| && holds(b[i]) {
      assert b[i] in a;
      var j :| 0 <= j < |a| && a[j] == b[i];
    }
  }

  // ----- scoring

  datatype Scorer = Headroom | Tier | Preference

  datatype Score = Score(name: Scorer, value: real)

  datatype Scored = Scored(candidate: Candidate, score: real, scores: seq<Score>)

  datatype Span = Span(low: int, high: int)

  function Clamp(value: real): real {
    if value < 0.0 then 0.0 else if value > 1.0 then 1.0 else value
  }

  ghost predicate Configured(input: Input) { Quota.Valid(input.limits) && Quota.Valid(input.share) }

  /** The tightest allowance left, of the provider's total and the namespace's share. */
  function FreePercent(input: Input, e: Quota.Execution): int
    requires Configured(input)
  {
    Min(Quota.TightestPercent(input.limits, input.usage, e), Quota.TightestPercent(input.share, input.shareUsage, e))
  }

  function HeadroomScore(c: Candidate, e: Quota.Execution): real
    requires Configured(c.input)
  {
    Clamp(FreePercent(c.input, e) as real / 100.0)
  }

  function Low(cs: seq<Candidate>): int
    requires cs != []
  {
    if |cs| == 1 then cs[0].input.tier else Min(Low(cs[..|cs| - 1]), cs[|cs| - 1].input.tier)
  }

  function High(cs: seq<Candidate>): int
    requires cs != []
  {
    if |cs| == 1 then cs[0].input.tier else Max(High(cs[..|cs| - 1]), cs[|cs| - 1].input.tier)
  }

  function SpanOf(cs: seq<Candidate>): Span {
    if cs == [] then Span(0, 0) else Span(Low(cs), High(cs))
  }

  /** tierSpanOf. */
  method MeasureTiers(cs: seq<Candidate>) returns (span: Span)
    ensures span == SpanOf(cs)
    ensures forall i :: 0 <= i < |cs| ==> span.low <= cs[i].input.tier <= span.high
    ensures cs != [] ==> exists i, j ::
      0 <= i < |cs| && 0 <= j < |cs| && cs[i].input.tier == span.low && cs[j].input.tier == span.high
  {
    if cs == [] { return Span(0, 0); }
    span := Span(cs[0].input.tier, cs[0].input.tier);
    ghost var low, high := 0, 0;
    for i := 1 to |cs|
      invariant span == SpanOf(cs[..i])
      invariant forall j :: 0 <= j < i ==> span.low <= cs[j].input.tier <= span.high
      invariant 0 <= low < |cs| && 0 <= high < |cs|
      invariant cs[low].input.tier == span.low && cs[high].input.tier == span.high
    {
      assert cs[..i + 1][..i] == cs[..i];
      if cs[i].input.tier < span.low { low := i; }
      if cs[i].input.tier > span.high { high := i; }
      span := Span(Min(span.low, cs[i].input.tier), Max(span.high, cs[i].input.tier));
    }
    assert cs[..|cs|] == cs;
  }

  function TierScore(span: Span, tier: int): real {
    if span.high == span.low then 1.0
    else Clamp((span.high - tier) as real / (span.high - span.low) as real)
  }

  function TotalWeight(affinities: seq<Affinity>): int {
    if affinities == [] then 0 else TotalWeight(affinities[1..]) + affinities[0].weight
  }

  function MatchedWeight(affinities: seq<Affinity>, input: Input): int {
    if affinities == [] then 0
    else MatchedWeight(affinities[1..], input) + if affinities[0].matches(input) then affinities[0].weight else 0
  }

  function AffinityScore(affinities: seq<Affinity>, input: Input): real {
    if TotalWeight(affinities) == 0 then 0.0
    else MatchedWeight(affinities, input) as real / TotalWeight(affinities) as real
  }

  function Parts(req: Request, c: Candidate, span: Span): seq<Score>
    requires Configured(c.input)
  {
    [Score(Headroom, HeadroomScore(c, req.execution))]
    + (if req.strict then [] else [Score(Tier, TierScore(span, c.input.tier))])
    + (if req.affinities == [] then [] else [Score(Preference, AffinityScore(req.affinities, c.input))])
  }

  function SumOf(scores: seq<Score>): real {
    if scores == [] then 0.0 else SumOf(scores[..|scores| - 1]) + scores[|scores| - 1].value
  }

  function Mean(scores: seq<Score>): real {
    if scores == [] then 0.0 else SumOf(scores) / |scores| as real
  }

  function ScoreOf(req: Request, c: Candidate, span: Span): Scored
    requires Configured(c.input)
  {
    Scored(c, Mean(Parts(req, c, span)), Parts(req, c, span))
  }

  ghost predicate Positive(affinities: seq<Affinity>) {
    forall i :: 0 <= i < |affinities| ==> affinities[i].weight > 0
  }

  lemma {:induction false} WeightsInRange(affinities: seq<Affinity>, input: Input)
    requires Positive(affinities)
    ensures 0 <= MatchedWeight(affinities, input) <= TotalWeight(affinities)
    ensures affinities != [] ==> TotalWeight(affinities) > 0
  {
    if affinities != [] {
      assert forall i :: 0 <= i < |affinities| - 1 ==> affinities[1..][i] == affinities[i + 1];
      WeightsInRange(affinities[1..], input);
    }
  }

  lemma {:induction false} SumInRange(scores: seq<Score>)
    requires forall i :: 0 <= i < |scores| ==> 0.0 <= scores[i].value <= 1.0
    ensures 0.0 <= SumOf(scores) <= |scores| as real
  {
    if scores != [] { SumInRange(scores[..|scores| - 1]); }
  }

  lemma RatioInRange(part: real, whole: real)
    requires 0.0 <= part <= whole && whole > 0.0
    ensures 0.0 <= part / whole <= 1.0
  {
    var q := part / whole;
    assert q * whole == part;
    assert q > 1.0 ==> q * whole > whole;
    assert q < 0.0 ==> q * whole < 0.0;
  }

  lemma RatioGrows(x: real, y: real, whole: real)
    requires x <= y && whole > 0.0
    ensures x / whole <= y / whole
  {
    var p, q := x / whole, y / whole;
    assert p * whole == x && q * whole == y;
    assert p > q ==> p * whole > q * whole;
  }

  /** Every scorer, and so the mean a plan prints as a percentage, stays between
      zero and one. */
  lemma ScoreInRange(req: Request, c: Candidate, span: Span)
    requires Configured(c.input) && Positive(req.affinities)
    ensures 0.0 <= ScoreOf(req, c, span).score <= 1.0
    ensures forall i :: 0 <= i < |ScoreOf(req, c, span).scores| ==> 0.0 <= ScoreOf(req, c, span).scores[i].value <= 1.0
  {
    var parts := Parts(req, c, span);
    WeightsInRange(req.affinities, c.input);
    if req.affinities != [] {
      RatioInRange(MatchedWeight(req.affinities, c.input) as real, TotalWeight(req.affinities) as real);
    }
    SumInRange(parts);
    RatioInRange(SumOf(parts), |parts| as real);
  }

  /** Under weighted tiers the lowest tier admitted scores one and the highest zero,
      and a lower tier never scores less. */
  lemma TierScoreFalls(span: Span, tier: int, other: int)
    requires span.low <= tier <= other <= span.high
    ensures TierScore(span, other) <= TierScore(span, tier)
    ensures TierScore(span, span.low) == 1.0
    ensures span.low < span.high ==> TierScore(span, span.high) == 0.0
  {
    if span.low < span.high {
      var width := (span.high - span.low) as real;
      assert (span.high - span.low) as real / width == 1.0;
      var x, y := (span.high - other) as real, (span.high - tier) as real;
      RatioInRange(x, width);
      RatioInRange(y, width);
      RatioGrows(x, y, width);
    }
  }

  // ----- ranking

  /** Strict tiers order before scores do, a better score before a worse, and the
      provider's name settles what is left. */
  predicate RanksBefore(strict: bool, a: Scored, b: Scored) {
    if strict && a.candidate.input.tier != b.candidate.input.tier then a.candidate.input.tier < b.candidate.input.tier
    else if a.score != b.score then a.score > b.score
    else Less(a.candidate.input.provider, b.candidate.input.provider)
  }

  /** The comparison the sort is given: negative. */
  predicate Ahead(strict: bool, a: Scored, b: Scored) {
    if strict && a.candidate.input.tier != b.candidate.input.tier then a.candidate.input.tier < b.candidate.input.tier
    else a.score > b.score
  }

  ghost function RankedFirst(strict: bool): (Scored, Scored) -> bool {
    (a: Scored, b: Scored) => RanksBefore(strict, a, b)
  }

  ghost predicate AllConfigured(cs: seq<Candidate>) {
    forall i :: 0 <= i < |cs| ==> Configured(cs[i].input)
  }

  ghost function AllScored(req: Request, cs: seq<Candidate>, span: Span, n: nat): seq<Scored>
    requires n <= |cs| && AllConfigured(cs)
  {
    if n == 0 then [] else AllScored(req, cs, span, n - 1) + [ScoreOf(req, cs[n - 1], span)]
  }

  lemma {:induction false} AllScoredLength(req: Request, cs: seq<Candidate>, span: Span, n: nat)
    requires n <= |cs| && AllConfigured(cs)
    ensures |AllScored(req, cs, span, n)| == n
  {
    if n > 0 { AllScoredLength(req, cs, span, n - 1); }
  }

  lemma {:induction false} AllScoredAre(req: Request, cs: seq<Candidate>, span: Span, n: nat, x: Scored)
    requires n <= |cs| && AllConfigured(cs)
    ensures x in AllScored(req, cs, span, n) ==>
      exists l :: 0 <= l < n && cs[l] == x.candidate && Configured(cs[l].input) && x == ScoreOf(req, cs[l], span)
  {
    if n > 0 { AllScoredAre(req, cs, span, n - 1, x); }
  }

  /** The candidates scored, each once, best first. */
  ghost predicate IsRanking(req: Request, cs: seq<Candidate>, ranking: seq<Scored>)
    requires AllConfigured(cs)
  {
    Ordered(ranking, RankedFirst(req.strict)) && multiset(ranking) == multiset(AllScored(req, cs, SpanOf(cs), |cs|))
  }

  /** Where a stable sort puts x: behind everything it is not ahead of. */
  method Place(strict: bool, ranking: seq<Scored>, x: Scored) returns (j: nat)
    ensures j <= |ranking| && (j > 0 ==> !Ahead(strict, x, ranking[j - 1]))
    ensures forall k :: j <= k < |ranking| ==> Ahead(strict, x, ranking[k])
  {
    j := |ranking|;
    while j > 0 && Ahead(strict, x, ranking[j - 1])
      invariant j <= |ranking|
      invariant forall k :: j <= k < |ranking| ==> Ahead(strict, x, ranking[k])
    {
      j := j - 1;
    }
  }

  /** Rank: a stable sort by comparison alone, of candidates already in name order. */
  method Rank(req: Request, cs: seq<Candidate>) returns (ranking: seq<Scored>)
    requires AllConfigured(cs) && Ordered(cs, CandidateFirst())
    ensures IsRanking(req, cs, ranking)
  {
    var span := MeasureTiers(cs);
    ranking := [];
    for i := 0 to |cs|
      invariant Ordered(ranking, RankedFirst(req.strict))
      invariant multiset(ranking) == multiset(AllScored(req, cs, span, i))
    {
      var j := Place(req.strict, ranking, ScoreOf(req, cs[i], span));
      RankedInsert(req, cs, span, i, ranking, j);
      ranking := ranking[..j] + [ScoreOf(req, cs[i], span)] + ranking[j..];
    }
  }

  lemma NotAheadThenBefore(strict: bool, a: Scored, b: Scored, x: Scored)
    requires a == b || RanksBefore(strict, a, b)
    requires !Ahead(strict, x, b) && Less(a.candidate.input.provider, x.candidate.input.provider)
    ensures RanksBefore(strict, a, x)
  {
  }

  lemma RankedBefore(
    req: Request, cs: seq<Candidate>, span: Span, i: nat, ranking: seq<Scored>, j: nat, k: nat, x: Scored)
    requires AllConfigured(cs) && Ordered(cs, CandidateFirst()) && i < |cs| && k < j <= |ranking|
      && x.candidate == cs[i]
    requires Ordered(ranking, RankedFirst(req.strict)) && multiset(ranking) == multiset(AllScored(req, cs, span, i))
    requires !Ahead(req.strict, x, ranking[j - 1])
    ensures RanksBefore(req.strict, ranking[k], x)
  {
    assert ranking[k] in multiset(AllScored(req, cs, span, i));
    AllScoredAre(req, cs, span, i, ranking[k]);
    var l :| 0 <= l < i && cs[l] == ranking[k].candidate;
    assert CandidateFirst()(cs[l], cs[i]);
    assert k < j - 1 ==> RankedFirst(req.strict)(ranking[k], ranking[j - 1]);
    NotAheadThenBefore(req.strict, ranking[k], ranking[j - 1], x);
  }

  lemma RankedInsert(req: Request, cs: seq<Candidate>, span: Span, i: nat, ranking: seq<Scored>, j: nat)
    requires AllConfigured(cs) && Ordered(cs, CandidateFirst()) && i < |cs| && j <= |ranking|
    requires Ordered(ranking, RankedFirst(req.strict)) && multiset(ranking) == multiset(AllScored(req, cs, span, i))
    requires j > 0 ==> !Ahead(req.strict, ScoreOf(req, cs[i], span), ranking[j - 1])
    requires forall k :: j <= k < |ranking| ==> Ahead(req.strict, ScoreOf(req, cs[i], span), ranking[k])
    ensures var next := ranking[..j] + [ScoreOf(req, cs[i], span)] + ranking[j..];
      Ordered(next, RankedFirst(req.strict)) && multiset(next) == multiset(AllScored(req, cs, span, i + 1))
  {
    var x := ScoreOf(req, cs[i], span);
    forall k | 0 <= k < j ensures RankedFirst(req.strict)(ranking[k], x) {
      RankedBefore(req, cs, span, i, ranking, j, k, x);
    }
    OrderedInsert(ranking, j, x, RankedFirst(req.strict));
    assert AllScored(req, cs, span, i + 1) == AllScored(req, cs, span, i) + [x];
  }

  lemma {:induction false} SumConcat(a: seq<Score>, b: seq<Score>)
    ensures SumOf(a + b) == SumOf(a) + SumOf(b)
  {
    if b == [] {
      assert a + b == a;
    } else {
      assert (a + b)[..|a + b| - 1] == a + b[..|b| - 1];
      SumConcat(a, b[..|b| - 1]);
    }
  }

  /** With the same tier and preferences, only headroom tells two candidates apart. */
  lemma PartsDiffer(req: Request, a: Candidate, b: Candidate, span: Span)
    requires Configured(a.input) && Configured(b.input) && a.input.tier == b.input.tier
    requires AffinityScore(req.affinities, a.input) == AffinityScore(req.affinities, b.input)
    ensures var p, q := Parts(req, a, span), Parts(req, b, span);
      && |p| == |q| > 0
      && SumOf(p) - SumOf(q) == HeadroomScore(a, req.execution) - HeadroomScore(b, req.execution)
  {
    var p, q := Parts(req, a, span), Parts(req, b, span);
    assert p[1..] == q[1..];
    SumConcat([p[0]], p[1..]);
    SumConcat([q[0]], q[1..]);
    assert p == [p[0]] + p[1..] && q == [q[0]] + q[1..];
  }

  lemma HeadroomOrder(a: Candidate, b: Candidate, e: Quota.Execution)
    requires Configured(a.input) && Configured(b.input)
    ensures HeadroomScore(a, e) > HeadroomScore(b, e) <==> FreePercent(a.input, e) > FreePercent(b.input, e)
    ensures HeadroomScore(a, e) == HeadroomScore(b, e) <==> FreePercent(a.input, e) == FreePercent(b.input, e)
  {
    var x, y := FreePercent(a.input, e), FreePercent(b.input, e);
    RatioOrder(x as real, y as real, 100.0);
    RatioInRange(x as real, 100.0);
    RatioInRange(y as real, 100.0);
  }

  lemma MeanOrder(p: seq<Score>, q: seq<Score>)
    requires |p| == |q| > 0
    ensures Mean(p) > Mean(q) <==> SumOf(p) > SumOf(q)
    ensures Mean(p) == Mean(q) <==> SumOf(p) == SumOf(q)
  {
    RatioOrder(SumOf(p), SumOf(q), |p| as real);
  }

  /** Free first: between two candidates of one tier that match the same preferences,
      the one with more of its tightest allowance left ranks before the other, in
      either tier mode, and equal allowances leave it to the name. */
  lemma FreeFirst(req: Request, a: Candidate, b: Candidate, span: Span)
    requires Configured(a.input) && Configured(b.input) && a.input.tier == b.input.tier
    requires AffinityScore(req.affinities, a.input) == AffinityScore(req.affinities, b.input)
    ensures var x, y := FreePercent(a.input, req.execution), FreePercent(b.input, req.execution);
      RanksBefore(req.strict, ScoreOf(req, a, span), ScoreOf(req, b, span)) <==>
        x > y || (x == y && Less(a.input.provider, b.input.provider))
  {
    PartsDiffer(req, a, b, span);
    MeanOrder(Parts(req, a, span), Parts(req, b, span));
    HeadroomOrder(a, b, req.execution);
  }

  lemma RatioOrder(x: real, y: real, whole: real)
    requires whole > 0.0
    ensures x / whole > y / whole <==> x > y
    ensures x / whole == y / whole <==> x == y
  {
    var p, q := x / whole, y / whole;
    assert p * whole == x && q * whole == y;
    assert p > q ==> p * whole > q * whole;
    assert p < q ==> p * whole < q * whole;
  }

  // ----- a better candidate is tried first

  /** a matches every preference b does. */
  ghost predicate MatchesAll(affinities: seq<Affinity>, a: Input, b: Input) {
    forall i :: 0 <= i < |affinities| && affinities[i].matches(b) ==> affinities[i].matches(a)
  }

  /** a matches some preference b does not. */
  ghost predicate MatchesMore(affinities: seq<Affinity>, a: Input, b: Input) {
    exists i :: 0 <= i < |affinities| && affinities[i].matches(a) && !affinities[i].matches(b)
  }

  lemma {:induction false} MatchedOrder(affinities: seq<Affinity>, a: Input, b: Input)
    requires Positive(affinities) && MatchesAll(affinities, a, b)
    ensures MatchedWeight(affinities, a) >= MatchedWeight(affinities, b)
    ensures MatchesMore(affinities, a, b) ==> MatchedWeight(affinities, a) > MatchedWeight(affinities, b)
  {
    if affinities != [] {
      var rest := affinities[1..];
      assert forall i :: 0 <= i < |rest| ==> rest[i] == affinities[i + 1];
      MatchedOrder(rest, a, b);
      if MatchesMore(affinities, a, b) && !(affinities[0].matches(a) && !affinities[0].matches(b)) {
        var i :| 0 <= i < |affinities| && affinities[i].matches(a) && !affinities[i].matches(b);
        assert rest[i - 1] == affinities[i];
      }
    }
  }

  lemma AffinityOrder(affinities: seq<Affinity>, a: Input, b: Input)
    requires Positive(affinities) && affinities != [] && MatchesAll(affinities, a, b)
    ensures AffinityScore(affinities, a) >= AffinityScore(affinities, b)
    ensures MatchesMore(affinities, a, b) ==> AffinityScore(affinities, a) > AffinityScore(affinities, b)
  {
    MatchedOrder(affinities, a, b);
    WeightsInRange(affinities, a);
    var x, y := MatchedWeight(affinities, a), MatchedWeight(affinities, b);
    RatioOrder(x as real, y as real, TotalWeight(affinities) as real);
  }

  lemma {:induction false} MatchedEnds(affinities: seq<Affinity>, input: Input)
    ensures (forall i :: 0 <= i < |affinities| ==> affinities[i].matches(input)) ==>
      MatchedWeight(affinities, input) == TotalWeight(affinities)
    ensures (forall i :: 0 <= i < |affinities| ==> !affinities[i].matches(input)) ==>
      MatchedWeight(affinities, input) == 0
  {
    if affinities != [] {
      assert forall i :: 0 <= i < |affinities[1..]| ==> affinities[1..][i] == affinities[i + 1];
      MatchedEnds(affinities[1..], input);
    }
  }

  /** A candidate that matches every stated preference scores one for it, and one that
      matches none scores zero; where none is stated there is no such score. */
  lemma PreferenceEnds(req: Request, c: Candidate, span: Span)
    requires Configured(c.input) && Positive(req.affinities)
    ensures var (scores, stated) := (ScoreOf(req, c, span).scores, req.affinities);
      && (stated != [] && (forall i :: 0 <= i < |stated| ==> stated[i].matches(c.input)) ==>
            Score(Preference, 1.0) in scores)
      && (stated != [] && (forall i :: 0 <= i < |stated| ==> !stated[i].matches(c.input)) ==>
            Score(Preference, 0.0) in scores)
      && (stated == [] ==> forall x :: x in scores ==> x.name != Preference)
  {
    var parts := Parts(req, c, span);
    if req.affinities != [] {
      MatchedEnds(req.affinities, c.input);
      WeightsInRange(req.affinities, c.input);
      RatioEnds(TotalWeight(req.affinities) as real);
      assert parts[|parts| - 1] == Score(Preference, AffinityScore(req.affinities, c.input));
    }
  }

  lemma RatioEnds(whole: real)
    requires whole > 0.0
    ensures whole / whole == 1.0 && 0.0 / whole == 0.0
  {
  }

  /** A lower tier scores more, strictly. */
  lemma TierOrder(span: Span, tier: int, other: int)
    requires span.low <= tier < other <= span.high
    ensures TierScore(span, tier) > TierScore(span, other)
  {
    var width, x, y := (span.high - span.low) as real, (span.high - other) as real, (span.high - tier) as real;
    RatioInRange(x, width);
    RatioInRange(y, width);
    RatioOrder(x, y, width);
  }

  lemma {:induction false} SumOrder(p: seq<Score>, q: seq<Score>)
    requires |p| == |q| && forall i :: 0 <= i < |p| ==> p[i].value >= q[i].value
    ensures SumOf(p) >= SumOf(q)
    ensures (exists i :: 0 <= i < |p| && p[i].value > q[i].value) ==> SumOf(p) > SumOf(q)
  {
    if p != [] { SumOrder(p[..|p| - 1], q[..|q| - 1]); }
  }

  /** a is no worse than b: in tier, in the allowance it has left, in preferences met. */
  ghost predicate NoWorse(req: Request, a: Input, b: Input)
    requires Configured(a) && Configured(b)
  {
    && a.tier <= b.tier && FreePercent(a, req.execution) >= FreePercent(b, req.execution)
    && MatchesAll(req.affinities, a, b)
  }

  /** And better in one of them. Under strict tiers the tier is no score. */
  ghost predicate Better(req: Request, a: Input, b: Input)
    requires Configured(a) && Configured(b)
  {
    || (!req.strict && a.tier < b.tier) || FreePercent(a, req.execution) > FreePercent(b, req.execution)
    || MatchesMore(req.affinities, a, b)
  }

  lemma PartsOrder(req: Request, a: Candidate, b: Candidate, span: Span)
    requires Configured(a.input) && Configured(b.input) && Positive(req.affinities)
    requires span.low <= a.input.tier <= b.input.tier <= span.high && NoWorse(req, a.input, b.input)
    ensures var p, q := Parts(req, a, span), Parts(req, b, span);
      && |p| == |q| > 0 && (forall i :: 0 <= i < |p| ==> p[i].value >= q[i].value)
      && (Better(req, a.input, b.input) ==> exists i :: 0 <= i < |p| && p[i].value > q[i].value)
  {
    var p, q := Parts(req, a, span), Parts(req, b, span);
    HeadroomOrder(a, b, req.execution);
    assert p[0] == Score(Headroom, HeadroomScore(a, req.execution));
    assert q[0] == Score(Headroom, HeadroomScore(b, req.execution));
    if !req.strict {
      if a.input.tier < b.input.tier { TierOrder(span, a.input.tier, b.input.tier); }
      assert p[1] == Score(Tier, TierScore(span, a.input.tier)) && q[1] == Score(Tier, TierScore(span, b.input.tier));
    }
    if req.affinities != [] {
      AffinityOrder(req.affinities, a.input, b.input);
      var last := |p| - 1;
      assert p[last] == Score(Preference, AffinityScore(req.affinities, a.input));
      assert q[last] == Score(Preference, AffinityScore(req.affinities, b.input));
    }
  }

  /** What decides between two candidates: under strict tiers the tier alone where it
      differs; else being better at something and worse at nothing. */
  ghost predicate Preferred(req: Request, a: Input, b: Input)
    requires Configured(a) && Configured(b)
  {
    if req.strict && a.tier != b.tier then a.tier < b.tier
    else NoWorse(req, a, b) && Better(req, a, b)
  }

  lemma PreferredRanksBefore(req: Request, a: Candidate, b: Candidate, span: Span)
    requires Configured(a.input) && Configured(b.input) && Positive(req.affinities)
    requires span.low <= a.input.tier <= span.high && span.low <= b.input.tier <= span.high
    requires Preferred(req, a.input, b.input)
    ensures RanksBefore(req.strict, ScoreOf(req, a, span), ScoreOf(req, b, span))
  {
    if !(req.strict && a.input.tier != b.input.tier) {
      PartsOrder(req, a, b, span);
      SumOrder(Parts(req, a, span), Parts(req, b, span));
      MeanOrder(Parts(req, a, span), Parts(req, b, span));
    }
  }

  lemma RankedAre(req: Request, cs: seq<Candidate>, ranking: seq<Scored>, i: nat)
    requires AllConfigured(cs) && IsRanking(req, cs, ranking) && i < |ranking|
    ensures ranking[i].candidate in cs && Configured(ranking[i].candidate.input)
    ensures ranking[i] == ScoreOf(req, ranking[i].candidate, SpanOf(cs))
    ensures SpanOf(cs).low <= ranking[i].candidate.input.tier <= SpanOf(cs).high
  {
    assert ranking[i] in multiset(AllScored(req, cs, SpanOf(cs), |cs|));
    AllScoredAre(req, cs, SpanOf(cs), |cs|, ranking[i]);
    var l :| 0 <= l < |cs| && cs[l] == ranking[i].candidate;
    SpanCovers(cs, l);
  }

  lemma {:induction false} SpanCovers(cs: seq<Candidate>, l: nat)
    requires l < |cs|
    ensures SpanOf(cs).low <= cs[l].input.tier <= SpanOf(cs).high
  {
    if |cs| > 1 && l < |cs| - 1 {
      SpanCovers(cs[..|cs| - 1], l);
    }
  }

  /** In a ranking a candidate that is preferred stands ahead: a lower tier under
      strict tiers, more of the allowance left, a lower tier that scores, or a
      preference more, where nothing else is worse. */
  lemma PreferredStandsAhead(req: Request, cs: seq<Candidate>, ranking: seq<Scored>, i: nat, j: nat)
    requires AllConfigured(cs) && IsRanking(req, cs, ranking) && i < |ranking| && j < |ranking|
    requires Positive(req.affinities)
    requires Configured(ranking[i].candidate.input) && Configured(ranking[j].candidate.input)
    requires Preferred(req, ranking[i].candidate.input, ranking[j].candidate.input)
    ensures i < j
  {
    RankedAre(req, cs, ranking, i);
    RankedAre(req, cs, ranking, j);
    PreferredRanksBefore(req, ranking[i].candidate, ranking[j].candidate, SpanOf(cs));
    if j < i {
      assert RankedFirst(req.strict)(ranking[j], ranking[i]);
      LessStrict(ranking[i].candidate.input.provider, ranking[j].candidate.input.provider);
    }
  }

  /** The free allowance compared is that of the tightest pool, of the provider's total
      or of the namespace's share, that the execution charges. */
  lemma FreeIsTightest(input: Input, e: Quota.Execution)
    requires Configured(input)
    ensures var free := FreePercent(input, e);
      && (forall i: nat :: Quota.Charges(input.limits, e, i) ==>
            free <= Quota.PoolFreePercent(input.limits[i], Get(input.usage, input.limits[i].name)))
      && (forall i: nat :: Quota.Charges(input.share, e, i) ==>
            free <= Quota.PoolFreePercent(input.share[i], Get(input.shareUsage, input.share[i].name)))
      && (|| free == 100
          || (exists i: nat :: Quota.Charges(input.limits, e, i)
                && free == Quota.PoolFreePercent(input.limits[i], Get(input.usage, input.limits[i].name)))
          || (exists i: nat :: Quota.Charges(input.share, e, i)
                && free == Quota.PoolFreePercent(input.share[i], Get(input.shareUsage, input.share[i].name))))
  {
    Quota.TightestOfCharged(input.limits, input.usage, e);
    Quota.TightestOfCharged(input.share, input.shareUsage, e);
  }

  // ----- planning one task

  datatype Plan = Plan(ranking: seq<Scored>, rejections: seq<Rejection>, retryable: bool, strict: bool)

  predicate Retryable(result: Result) {
    result.candidates == [] && exists i :: 0 <= i < |result.rejections| && Transient(result.rejections[i].reason)
  }

  ghost predicate AllInputsConfigured(inputs: seq<Input>) {
    forall input :: input in inputs ==> Configured(input)
  }

  lemma AdmittedConfigured(rules: seq<Checker>, inputs: seq<Input>, result: Result)
    requires AllInputsConfigured(inputs) && IsAdmission(rules, inputs, result)
    ensures AllConfigured(result.candidates)
  {
    forall i | 0 <= i < |result.candidates| ensures Configured(result.candidates[i].input) {
      assert result.candidates[i] in result.candidates;
    }
  }

  ghost predicate PlanFrom(req: Request, inputs: seq<Input>, result: Result, plan: Plan) {
    && IsAdmission(req.rules, inputs, result) && AllConfigured(result.candidates)
    && IsRanking(req, result.candidates, plan.ranking)
    && plan.rejections == result.rejections && plan.retryable == Retryable(result) && plan.strict == req.strict
  }

  ghost predicate IsPlan(req: Request, inputs: seq<Input>, plan: Plan) {
    exists result :: PlanFrom(req, inputs, result, plan)
  }

  method PlanTask(req: Request, inputs: seq<Input>) returns (plan: Plan)
    requires DistinctProviders(inputs) && AllInputsConfigured(inputs)
    ensures IsPlan(req, inputs, plan)
    ensures |plan.ranking| + |plan.rejections| == |inputs|
    // worth retrying exactly when nothing was admitted and some rejection may pass with time
    ensures plan.retryable <==>
      && plan.ranking == []
      && exists r :: r in plan.rejections && r.reason in {QuotaExhausted, ProviderDisabled, Unhealthy}
  {
    var result := Admit(req.rules, inputs);
    AdmittedConfigured(req.rules, inputs, result);
    var ranking := Rank(req, result.candidates);
    ghost var n := |result.candidates|;
    SameElements(ranking, AllScored(req, result.candidates, SpanOf(result.candidates), n));
    AllScoredLength(req, result.candidates, SpanOf(result.candidates), n);
    plan := Plan(ranking, result.rejections, Retryable(result), req.strict);
    assert PlanFrom(req, inputs, result, plan);
  }

  lemma RankingOnce(req: Request, cs: seq<Candidate>, x: seq<Scored>, y: seq<Scored>)
    requires AllConfigured(cs) && IsRanking(req, cs, x) && IsRanking(req, cs, y)
    ensures x == y
  {
    SameElements(x, y);
    forall a, b ensures !(RankedFirst(req.strict)(a, b) && RankedFirst(req.strict)(b, a)) {
      LessStrict(a.candidate.input.provider, b.candidate.input.provider);
    }
    OneOrder(x, y, RankedFirst(req.strict));
  }

  /** A plan does not depend on the order the providers were listed in: every
      permutation of the inputs gives the same ranking, the same rejections and
      the same answer to whether waiting could help. */
  lemma PlanIgnoresOrder(req: Request, a: seq<Input>, b: seq<Input>, p: Plan, q: Plan)
    requires multiset(a) == multiset(b) && IsPlan(req, a, p) && IsPlan(req, b, q)
    ensures p == q
  {
    var x :| PlanFrom(req, a, x, p);
    var y :| PlanFrom(req, b, y, q);
    SameElements(a, b);
    AdmissionOnce(req.rules, a, b, x, y);
    RankingOnce(req, x.candidates, p.ranking, q.ranking);
  }

  /** Providers that are rejected have no say in how the others rank. */
  lemma RejectedDoNotMatter(req: Request, a: seq<Input>, b: seq<Input>, p: Plan, q: Plan)
    requires IsPlan(req, a, p) && IsPlan(req, b, q)
    requires forall input, c: Candidate :: Admits(req.rules, input, c) ==> (input in a <==> input in b)
    ensures p.ranking == q.ranking
  {
    var x :| PlanFrom(req, a, x, p);
    var y :| PlanFrom(req, b, y, q);
    forall c ensures c in x.candidates <==> c in y.candidates {
      if i :| 0 <= i < |a| && Admits(req.rules, a[i], c) {
        assert a[i] in a && a[i] in b;
        var j :| 0 <= j < |b| && b[j] == a[i];
      }
      if i :| 0 <= i < |b| && Admits(req.rules, b[i], c) {
        assert b[i] in b && b[i] in a;
        var j :| 0 <= j < |a| && a[j] == b[i];
      }
    }
    forall c, d ensures !(CandidateFirst()(c, d) && CandidateFirst()(d, c)) {
      LessStrict(c.input.provider, d.input.provider);
    }
    OneOrder(x.candidates, y.candidates, CandidateFirst());
    RankingOnce(req, x.candidates, p.ranking, q.ranking);
  }
}
