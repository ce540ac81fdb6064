/** Vocabulary every other module shares: optional values, identifiers and the
    finite sums that counters and capacities are stated with. */
module Prelude {

  datatype Option<+T> = None | Some(value: T)

  /** Identifiers are minted in increasing order, as UUIDv7 values are
      (section 5.7 of RFC 9562). */
  type Id = nat

  function Max(a: int, b: int): int { if a < b then b else a }

  function Min(a: int, b: int): int { if a < b then a else b }

  function Floor0(a: int): int { Max(a, 0) }

  /** Reading a Go map of counters: a missing key reads as zero. */
  function Get<K>(m: map<K, int>, k: K): int { if k in m then m[k] else 0 }

  /** No element occurs twice. */
  ghost predicate Distinct<T>(s: seq<T>) {
    forall i, j :: 0 <= i < j < |s| ==> s[i] != s[j]
  }
}

/** Sums over finite sets, independent of the order the set is visited in. */
module Sums {

  ghost function Sum<T>(s: set<T>, f: T -> int): int {
    if s == {} then 0 else
      var x :| x in s;
      f(x) + Sum(s - {x}, f)
  }

  /** Any element can be taken out first. */
  lemma {:induction false} Take<T>(s: set<T>, f: T -> int, x: T)
    requires x in s
    ensures Sum(s, f) == f(x) + Sum(s - {x}, f)
    decreases s
  {
    var y :| y in s && Sum(s, f) == f(y) + Sum(s - {y}, f);
    if y != x {
      Take(s - {y}, f, x);
      Take(s - {x}, f, y);
      assert s - {y} - {x} == s - {x} - {y};
    }
  }

  lemma Put<T>(s: set<T>, f: T -> int, x: T)
    requires x !in s
    ensures Sum(s + {x}, f) == f(x) + Sum(s, f)
  {
    Take(s + {x}, f, x);
    assert s + {x} - {x} == s;
  }

  /** A termwise bound is a bound on the sums. */
  lemma {:induction false} Below<T>(s: set<T>, f: T -> int, g: T -> int)
    requires forall x :: x in s ==> f(x) <= g(x)
    ensures Sum(s, f) <= Sum(s, g)
  {
    if s != {} {
      var x :| x in s;
      Take(s, f, x);
      Take(s, g, x);
      Below(s - {x}, f, g);
    }
  }

  lemma Same<T>(s: set<T>, f: T -> int, g: T -> int)
    requires forall x :: x in s ==> f(x) == g(x)
    ensures Sum(s, f) == Sum(s, g)
  {
    Below(s, f, g);
    Below(s, g, f);
  }

  lemma {:induction false} Zero<T>(s: set<T>, f: T -> int)
    requires forall x :: x in s ==> f(x) == 0
    ensures Sum(s, f) == 0
  {
    if s != {} {
      var x :| x in s;
      Take(s, f, x);
      Zero(s - {x}, f);
    }
  }

  lemma {:induction false} Split<T>(s: set<T>, t: set<T>, f: T -> int)
    requires s !! t
    ensures Sum(s + t, f) == Sum(s, f) + Sum(t, f)
    decreases t
  {
    if t == {} {
      assert s + t == s;
    } else {
      var x :| x in t;
      Take(t, f, x);
      Split(s, t - {x}, f);
      Put(s + (t - {x}), f, x);
      assert s + (t - {x}) + {x} == s + t;
    }
  }
}
