/** The cache of seen message identifiers: a bounded LRU in place of the full history. */
module Lru {
  import opened Basics

  function Without(s: seq<Uuid>, x: Uuid): (r: seq<Uuid>)
    ensures |r| <= |s| && x !in r && (x !in s ==> r == s)
  {
    if s == [] then [] else if s[0] == x then Without(s[1..], x) else [s[0]] + Without(s[1..], x)
  }

  function Suffix(s: seq<Uuid>, n: nat): seq<Uuid> {
    if |s| > n then s[|s| - n..] else s
  }

  /** `put` makes `x` the most recent entry and, when the cache overflows, drops the oldest. */
  function Put(cache: seq<Uuid>, x: Uuid, capacity: nat): seq<Uuid> {
    Suffix(Without(cache, x) + [x], capacity)
  }

  /** The cache after a history of puts. */
  function Cache(puts: seq<Uuid>, capacity: nat): seq<Uuid> {
    if puts == [] then [] else Put(Cache(puts[..|puts| - 1], capacity), puts[|puts| - 1], capacity)
  }

  /** The distinct identifiers of a history, ordered by their last put. */
  function Distinct(puts: seq<Uuid>): seq<Uuid> {
    if puts == [] then [] else Without(Distinct(puts[..|puts| - 1]), puts[|puts| - 1]) + [puts[|puts| - 1]]
  }

  /** The other identifiers put after the last put of `x`. */
  function Since(puts: seq<Uuid>, x: Uuid): set<Uuid> {
    if puts == [] || puts[|puts| - 1] == x then {} else Since(puts[..|puts| - 1], x) + {puts[|puts| - 1]}
  }

  lemma {:induction false} WithoutAppend(a: seq<Uuid>, b: seq<Uuid>, x: Uuid)
    ensures Without(a + b, x) == Without(a, x) + Without(b, x)
  {
    if a == [] {
      assert a + b == b;
    } else {
      assert (a + b)[1..] == a[1..] + b;
      WithoutAppend(a[1..], b, x);
    }
  }

  lemma {:induction false} WithoutFacts(s: seq<Uuid>, x: Uuid)
    requires NoDuplicates(s)
    ensures NoDuplicates(Without(s, x)) && Elements(Without(s, x)) == Elements(s) - {x}
    ensures |Without(s, x)| == if x in s then |s| - 1 else |s|
  {
    if s != [] {
      var rest := s[1..];
      assert s == [s[0]] + rest && s[0] !in rest;
      WithoutFacts(rest, x);
      assert Elements(s) == {s[0]} + Elements(rest);
      var r := Without(s, x);
      if s[0] != x {
        assert r == [s[0]] + Without(rest, x);
        assert Elements(r) == {s[0]} + Elements(Without(rest, x));
        assert s[0] !in Elements(Without(rest, x));
      }
    }
  }

  lemma {:induction false} DistinctFacts(puts: seq<Uuid>)
    ensures NoDuplicates(Distinct(puts)) && Elements(Distinct(puts)) == Elements(puts)
  {
    if puts != [] {
      var before, x := puts[..|puts| - 1], puts[|puts| - 1];
      DistinctFacts(before);
      WithoutFacts(Distinct(before), x);
      assert puts == before + [x];
      assert Elements(puts) == Elements(before) + {x};
      assert Elements(Distinct(puts)) == Elements(Without(Distinct(before), x)) + {x};
    }
  }

  /** Behind an identifier come exactly those put since. */
  lemma {:induction false} Position(puts: seq<Uuid>, x: Uuid) returns (older: seq<Uuid>, newer: seq<Uuid>)
    requires x in puts
    ensures Distinct(puts) == older + [x] + newer
    ensures NoDuplicates(newer) && Elements(newer) == Since(puts, x)
  {
    hide Without, NoDuplicates;
    var before, last := puts[..|puts| - 1], puts[|puts| - 1];
    if last == x {
      NothingNewer();
      older, newer := Without(Distinct(before), x), [];
    } else {
      assert x in before;
      older, newer := Position(before, x);
      MovedBehind(older, x, newer, last);
      older, newer := Without(older, last), Without(newer, last) + [last];
    }
  }

  lemma NothingNewer()
    ensures NoDuplicates<Uuid>([]) && Elements<Uuid>([]) == {}
  {
  }

  /** Putting another identifier moves it behind all others. */
  lemma {:induction false} MovedBehind(older: seq<Uuid>, x: Uuid, newer: seq<Uuid>, last: Uuid)
    requires last != x && NoDuplicates(newer)
    ensures var newer' := Without(newer, last) + [last];
            && Without(older + [x] + newer, last) + [last] == Without(older, last) + [x] + newer'
            && NoDuplicates(newer') && Elements(newer') == Elements(newer) + {last}
  {
    WithoutAppend(older + [x], newer, last);
    WithoutAppend(older, [x], last);
    assert Without([x], last) == [x];
    WithoutFacts(newer, last);
    NoDuplicatesAppend(Without(newer, last), last);
    assert Elements(Without(newer, last) + [last]) == Elements(Without(newer, last)) + {last};
  }

  /** The cache holds the most recently put distinct identifiers, in order, up to its capacity. */
  lemma {:induction false} CacheIsRecent(puts: seq<Uuid>, capacity: nat)
    requires capacity > 0
    ensures Cache(puts, capacity) == Suffix(Distinct(puts), capacity)
  {
    if puts != [] {
      var before, x := puts[..|puts| - 1], puts[|puts| - 1];
      CacheIsRecent(before, capacity);
      DistinctFacts(before);
      SuffixWithout(Distinct(before), x, capacity);
    }
  }

  lemma {:induction false} SuffixWithout(d: seq<Uuid>, x: Uuid, capacity: nat)
    requires NoDuplicates(d) && capacity > 0
    ensures Suffix(Without(Suffix(d, capacity), x) + [x], capacity) == Suffix(Without(d, x) + [x], capacity)
  {
    if |d| > capacity {
      var older, kept := d[..|d| - capacity], d[|d| - capacity..];
      assert d == older + kept;
      WithoutAppend(older, kept, x);
      WithoutFacts(kept, x) by { assert forall i :: 0 <= i < |kept| ==> kept[i] == d[|older| + i]; }
      SuffixAppend(Without(older, x), Without(kept, x) + [x], capacity);
      assert Without(d, x) + [x] == Without(older, x) + (Without(kept, x) + [x]);
    }
  }

  lemma {:induction false} SuffixAppend(a: seq<Uuid>, b: seq<Uuid>, n: nat)
    requires n <= |b|
    ensures Suffix(a + b, n) == Suffix(b, n)
  {
  }

  /** The cache answers like the full history for exactly those identifiers after which fewer than
      `capacity` other ones were put. */
  lemma {:induction false} HoldsIff(puts: seq<Uuid>, x: Uuid, capacity: nat)
    requires capacity > 0
    ensures x in Cache(puts, capacity) <==> x in puts && |Since(puts, x)| < capacity
  {
    CacheIsRecent(puts, capacity);
    DistinctFacts(puts);
    var d := Distinct(puts);
    if x in puts {
      var older, newer := Position(puts, x);
      SizeOfElements(newer);
      assert d[|older|] == x;
      if |newer| < capacity {
        assert Suffix(d, capacity)[|Suffix(d, capacity)| - 1 - |newer|] == x;
      } else {
        forall i | |d| - capacity <= i < |d| ensures d[i] != x {}
      }
    } else {
      assert x !in Elements(d);
    }
  }
}
