/** Values shared by the three actors: optional values, bytes, identifiers and keys. */
module Basics {

  datatype Option<+T> = None | Some(value: T)

  newtype Byte = x: int | 0 <= x < 256

  type Bytes = seq<Byte>

  type Uuid = b: Bytes | |b| == 16 witness seq(16, _ => 0)

  type PublicKey = b: Bytes | |b| == 32 witness seq(32, _ => 0)

  datatype KeyPair = KeyPair(publicKey: PublicKey, secretKey: Bytes)

  /** A socket address. */
  type Addr = nat

  /** A point in time, in nanoseconds (handshakes) or milliseconds (watchdogs). */
  type Time = int

  const NIL_UUID: Uuid := [0, 0, 0, 0, 0, 0, 0, 0, 0, 0, 0, 0, 0, 0, 0, 0]

  /** The 32-bit counters of the source, which wrap around. */
  type u32 = x: int | 0 <= x < 0x1_0000_0000 witness 0

  function Wrap(x: nat): u32 {
    x % 0x1_0000_0000
  }

  lemma WrapPlus(x: nat, y: u32)
    ensures WrapAdd(Wrap(x), y) == Wrap(x + y) && Wrap(y) == y
  {
  }

  function WrapAdd(x: u32, y: u32): u32 {
    (x + y) % 0x1_0000_0000
  }

  function WrapSub(x: u32, y: u32): u32 {
    (x - y) % 0x1_0000_0000
  }

  ghost predicate NoDuplicates<T(!new)>(s: seq<T>) {
    forall i, j :: 0 <= i < j < |s| ==> s[i] != s[j]
  }

  function Elements<T>(s: seq<T>): set<T> {
    set x | x in s
  }

  lemma {:induction false} SizeOfElements<T(!new)>(s: seq<T>)
    requires NoDuplicates(s)
    ensures |Elements(s)| == |s|
  {
    if s != [] {
      var rest := s[..|s| - 1];
      SizeOfElements(rest);
      assert s == rest + [s[|s| - 1]];
      assert Elements(s) == Elements(rest) + {s[|s| - 1]};
    }
  }

  lemma NoDuplicatesAppend<T(!new)>(s: seq<T>, x: T)
    ensures NoDuplicates(s + [x]) <==> NoDuplicates(s) && x !in s
  {
    var t := s + [x];
    if NoDuplicates(t) {
      assert forall i :: 0 <= i < |s| ==> t[i] == s[i] && t[i] != t[|s|];
    }
  }

  lemma {:induction false} CountAtMostOne<T(!new)>(s: seq<T>, x: T)
    requires NoDuplicates(s)
    ensures multiset(s)[x] <= 1
  {
    if s != [] {
      CountAtMostOne(s[..|s| - 1], x);
      assert s == s[..|s| - 1] + [s[|s| - 1]];
    }
  }

  /** A selection from a sequence without duplicates has none either. */
  lemma {:induction false} SelectionHasNoDuplicates<T(!new)>(s: seq<T>, t: seq<T>)
    requires multiset(s) <= multiset(t) && NoDuplicates(t)
    ensures NoDuplicates(s)
  {
    forall i, j | 0 <= i < j < |s| ensures s[i] != s[j] {
      CountAtMostOne(t, s[i]);
      assert s == s[..j] + [s[j]] + s[j + 1..];
      assert s[i] in s[..j];
      assert multiset(s)[s[j]] >= multiset(s[..j])[s[j]] + 1;
    }
  }
}
