/** Gaps between sequence numbers, and what they tell about lost packets. */
module LossReports {
  import opened Basics

  const WRAP: nat := 0x1_0000_0000

  datatype Range = Range(start: u32, end: u32)

  /** The last value when `s` followed `prev`. */
  function Last<T>(prev: Option<T>, s: seq<T>): Option<T> {
    if s == [] then prev else Some(s[|s| - 1])
  }

  /** The ranges the receiver complains about: one for every packet it can open, from whatever packet of
      that address came just before. A packet it cannot open, such as a handshake, counts as come but
      causes no complaint. */
  function Gaps(prev: Option<u32>, ss: seq<u32>, opens: seq<bool>): seq<Range>
    requires |opens| == |ss|
  {
    if ss == [] then []
    else
      var (n, p) := (|ss| - 1, Last(prev, ss[..|ss| - 1]));
      Gaps(prev, ss[..n], opens[..n]) + if p.Some? && opens[n] then [Range(WrapAdd(p.value, 1), ss[n])] else []
  }

  function Size(r: Range): u32 {
    WrapSub(r.end, r.start)
  }

  /** What the sender adds to its count for these ranges. */
  function Total(ranges: seq<Range>): nat {
    if ranges == [] then 0 else Total(ranges[..|ranges| - 1]) + Size(ranges[|ranges| - 1])
  }

  lemma TotalMore(ranges: seq<Range>, r: Range)
    ensures Total(ranges + [r]) == Total(ranges) + Size(r)
  {
    assert (ranges + [r])[..|ranges|] == ranges;
  }

  // ---------------------------------------------------------------- what is reported

  /** The numbers of the n-th packets: the counter starts over every 2^32 packets. */
  function Wraps(ns: seq<nat>): seq<u32> {
    seq(|ns|, i requires 0 <= i < |ns| => Wrap(ns[i]))
  }

  function LastOf(prev: nat, ns: seq<nat>): nat {
    if ns == [] then prev else ns[|ns| - 1]
  }

  /** The gap between packet `n` and packet `k`, as the handler computes it. */
  function Jump(n: nat, k: nat): Range {
    Range(WrapAdd(Wrap(n), 1), Wrap(k))
  }

  /** How many turns of the counter the jump from packet `n` to packet `k` is misread by: none if `k`
      is one of the next 2^32 packets, one if it is an earlier packet, and so on. */
  function Misread(n: nat, k: nat): int {
    -((k - n - 1) / WRAP)
  }

  function Turns(prev: nat, ns: seq<nat>): int {
    if ns == [] then 0
    else Turns(prev, ns[..|ns| - 1]) + Misread(LastOf(prev, ns[..|ns| - 1]), ns[|ns| - 1])
  }

  lemma {:induction false} SizeOfJump(n: nat, k: nat)
    ensures Size(Jump(n, k)) == k - n - 1 + WRAP * Misread(n, k)
  {
    var q, r := (k - n - 1) / WRAP, (k - n - 1) % WRAP;
    assert k - n - 1 == WRAP * q + r;
    assert WRAP * Misread(n, k) == -(WRAP * q);
    SameRemainder(Wrap(k) - WrapAdd(Wrap(n), 1), k - n - 1, k / WRAP, n / WRAP);
  }

  lemma SameRemainder(x: int, y: int, a: nat, b: nat)
    requires x == y - WRAP * a + WRAP * b || x == y - WRAP * a + WRAP * b + WRAP
    ensures x % WRAP == y % WRAP
  {
  }

  function GapsOf(prev: nat, ns: seq<nat>, opens: seq<bool>): seq<Range>
    requires |opens| == |ns|
  {
    Gaps(Some(Wrap(prev)), Wraps(ns), opens)
  }

  /** The last arrival adds its jump, if it opens. */
  lemma {:induction false} GapsStep(prev: nat, ns: seq<nat>, opens: seq<bool>)
    requires ns != [] && |opens| == |ns|
    ensures var n := |ns| - 1;
            GapsOf(prev, ns, opens)
            == GapsOf(prev, ns[..n], opens[..n]) + if opens[n] then [Jump(LastOf(prev, ns[..n]), ns[n])] else []
  {
    hide Wrap, WrapAdd;
    var before := ns[..|ns| - 1];
    assert Wraps(ns)[..|ns| - 1] == Wraps(before);
    assert Last(Some(Wrap(prev)), Wraps(before)) == Some(Wrap(LastOf(prev, before)));
  }

  function TotalOf(prev: nat, ns: seq<nat>, opens: seq<bool>): nat
    requires |opens| == |ns|
  {
    Total(GapsOf(prev, ns, opens))
  }

  lemma {:induction false} TotalStep(prev: nat, ns: seq<nat>, opens: seq<bool>)
    requires ns != [] && |opens| == |ns|
    ensures var (n, last) := (|ns| - 1, LastOf(prev, ns[..|ns| - 1]));
            TotalOf(prev, ns, opens)
            == TotalOf(prev, ns[..n], opens[..n])
             + if opens[n] then ns[n] - last - 1 + WRAP * Misread(last, ns[n]) else 0
  {
    hide Size, GapsOf, Misread, Jump;
    var n := |ns| - 1;
    GapsStep(prev, ns, opens);
    SizeOfJump(LastOf(prev, ns[..n]), ns[n]);
    TotalMore(GapsOf(prev, ns[..n], opens[..n]), Jump(LastOf(prev, ns[..n]), ns[n]));
    assert GapsOf(prev, ns[..n], opens[..n]) + [] == GapsOf(prev, ns[..n], opens[..n]);
  }

  function Not(bs: seq<bool>): seq<bool> {
    seq(|bs|, i requires 0 <= i < |bs| => !bs[i])
  }

  /** For arrivals in any order, what is reported and what is passed over in silence add up to the
      packets passed over, plus 2^32 for every turn that a jump was misread by. */
  lemma {:induction false} TotalOfGaps(prev: nat, ns: seq<nat>, opens: seq<bool>)
    requires |opens| == |ns|
    ensures TotalOf(prev, ns, opens) + TotalOf(prev, ns, Not(opens))
         == LastOf(prev, ns) - prev - |ns| + WRAP * Turns(prev, ns)
  {
    hide Misread, TotalOf;
    if ns == [] {
      NothingCame(prev);
      assert opens == [] && Not(opens) == [];
    } else {
      var n := |ns| - 1;
      TotalOfGaps(prev, ns[..n], opens[..n]);
      TotalStep(prev, ns, opens);
      TotalStep(prev, ns, Not(opens));
      assert Not(opens)[..n] == Not(opens[..n]);
      Distribute(Turns(prev, ns[..n]), Misread(LastOf(prev, ns[..n]), ns[n]));
    }
  }

  lemma Distribute(a: int, b: int)
    ensures WRAP * (a + b) == WRAP * a + WRAP * b
  {
  }

  // ---------------------------------------------------------------- what is lost

  ghost predicate Increasing(prev: nat, ns: seq<nat>) {
    && (ns != [] ==> prev < ns[0])
    && forall i, j :: 0 <= i < j < |ns| ==> ns[i] < ns[j]
  }

  /** The packet that arrived before the i-th. */
  function Before(prev: nat, ns: seq<nat>, i: nat): nat
    requires i < |ns|
  {
    if i == 0 then prev else ns[i - 1]
  }

  /** Packets arrive in the order in which they were sent, and never 2^32 of them are lost in a row. */
  ghost predicate Steady(prev: nat, ns: seq<nat>) {
    Increasing(prev, ns) && forall i :: 0 <= i < |ns| ==> ns[i] - Before(prev, ns, i) <= WRAP
  }

  function Highest(prev: nat, ns: seq<nat>): nat {
    if ns == [] then prev
    else
      var h := Highest(prev, ns[..|ns| - 1]);
      if ns[|ns| - 1] > h then ns[|ns| - 1] else h
  }

  function Lowest(prev: nat, ns: seq<nat>): nat {
    if ns == [] then prev
    else
      var l := Lowest(prev, ns[..|ns| - 1]);
      if ns[|ns| - 1] < l then ns[|ns| - 1] else l
  }

  /** The packets before the latest one that did not arrive. */
  ghost function Lost(prev: nat, ns: seq<nat>): set<nat> {
    set x | prev < x < Highest(prev, ns) && x !in ns
  }

  predicate IsBetween(a: nat, x: nat, b: nat) {
    a < x < b
  }

  ghost function Between(a: nat, b: nat): set<nat> {
    set x | a < x < b && IsBetween(a, x, b)
  }

  lemma {:induction false} SizeOfBetween(a: nat, b: nat)
    requires a < b
    ensures |Between(a, b)| == b - a - 1
    decreases b - a
  {
    if a + 1 == b {
      assert Between(a, b) == {};
    } else {
      SizeOfBetween(a, b - 1);
      assert Between(a, b) == Between(a, b - 1) + {b - 1};
    }
  }

  lemma {:induction false} Extremes(prev: nat, ns: seq<nat>)
    ensures Lowest(prev, ns) <= prev <= Highest(prev, ns)
    ensures forall n :: n in ns ==> Lowest(prev, ns) <= n <= Highest(prev, ns)
    ensures Increasing(prev, ns) ==> Highest(prev, ns) == LastOf(prev, ns) && forall n :: n in ns ==> prev < n
  {
    if ns != [] {
      var before, n := ns[..|ns| - 1], ns[|ns| - 1];
      Extremes(prev, before);
      assert ns == before + [n];
      if Increasing(prev, ns) {
        assert before != [] ==> before[|before| - 1] < n;
      }
    }
  }

  lemma {:induction false} LostGrows(prev: nat, ns: seq<nat>)
    requires ns != [] && Increasing(prev, ns)
    ensures var (before, last) := (ns[..|ns| - 1], LastOf(prev, ns[..|ns| - 1]));
            && Increasing(prev, before) && last < ns[|ns| - 1]
            && Lost(prev, ns) == Lost(prev, before) + Between(last, ns[|ns| - 1])
            && Lost(prev, before) !! Between(last, ns[|ns| - 1])
  {
    var before, n := ns[..|ns| - 1], ns[|ns| - 1];
    Extremes(prev, before);
    Extremes(prev, ns);
    assert ns == before + [n];
  }

  lemma {:induction false} SizeOfLost(prev: nat, ns: seq<nat>)
    requires Increasing(prev, ns)
    ensures |Lost(prev, ns)| == LastOf(prev, ns) - prev - |ns|
  {
    if ns == [] {
      assert Lost(prev, ns) == {};
    } else {
      hide Lost, Increasing, Between;
      LostGrows(prev, ns);
      SizeOfLost(prev, ns[..|ns| - 1]);
      SizeOfBetween(LastOf(prev, ns[..|ns| - 1]), ns[|ns| - 1]);
    }
  }

  /** The packets passed over just before an arrival that does not open: nobody complains about them. */
  ghost function Hidden(prev: nat, ns: seq<nat>, opens: seq<bool>): set<nat>
    requires |opens| == |ns|
  {
    if ns == [] then {}
    else
      var n := |ns| - 1;
      Hidden(prev, ns[..n], opens[..n]) + if opens[n] then {} else Between(LastOf(prev, ns[..n]), ns[n])
  }

  lemma {:induction false} HiddenGrows(prev: nat, ns: seq<nat>, opens: seq<bool>)
    requires ns != [] && |opens| == |ns| && Increasing(prev, ns)
    ensures var (n, last) := (|ns| - 1, LastOf(prev, ns[..|ns| - 1]));
            && Increasing(prev, ns[..n]) && last < ns[n]
            && |Hidden(prev, ns, opens)|
               == |Hidden(prev, ns[..n], opens[..n])| + if opens[n] then 0 else ns[n] - last - 1
  {
    hide Lost, Increasing, Between;
    var n := |ns| - 1;
    LostGrows(prev, ns);
    HiddenIsLost(prev, ns[..n], opens[..n]);
    SizeOfBetween(LastOf(prev, ns[..n]), ns[n]);
    var (hidden, more) := (Hidden(prev, ns[..n], opens[..n]), Between(LastOf(prev, ns[..n]), ns[n]));
    assert hidden !! more;
    assert hidden + {} == hidden;
  }

  /** What nobody complains about is lost. */
  lemma {:induction false} HiddenIsLost(prev: nat, ns: seq<nat>, opens: seq<bool>)
    requires |opens| == |ns| && Increasing(prev, ns)
    ensures Hidden(prev, ns, opens) <= Lost(prev, ns)
  {
    hide Lost, Increasing, Between;
    if ns != [] {
      LostGrows(prev, ns);
      HiddenIsLost(prev, ns[..|ns| - 1], opens[..|ns| - 1]);
    }
  }

  lemma {:induction false} SteadyStep(prev: nat, ns: seq<nat>)
    requires ns != [] && Steady(prev, ns)
    ensures var (n, last) := (|ns| - 1, LastOf(prev, ns[..|ns| - 1]));
            Steady(prev, ns[..n]) && Misread(last, ns[n]) == 0
  {
    hide Misread, Increasing;
    var n := |ns| - 1;
    var before := ns[..n];
    IncreasingLess(prev, ns);
    forall i | 0 <= i < n ensures before[i] - Before(prev, before, i) <= WRAP {
      assert ns[i] - Before(prev, ns, i) <= WRAP;
    }
    assert ns[n] - Before(prev, ns, n) <= WRAP;
    MisreadNext(LastOf(prev, before), ns[n]);
  }

  lemma {:induction false} IncreasingLess(prev: nat, ns: seq<nat>)
    requires ns != [] && Increasing(prev, ns)
    ensures Increasing(prev, ns[..|ns| - 1]) && LastOf(prev, ns[..|ns| - 1]) < ns[|ns| - 1]
  {
  }

  lemma MisreadNext(n: nat, k: nat)
    requires n < k <= n + WRAP
    ensures Misread(n, k) == 0
  {
  }

  /** When packets arrive steadily the reported total and the hidden packets make up the lost ones,
      however often the counter has started over. */
  lemma {:induction false} TotalIsLost(prev: nat, ns: seq<nat>, opens: seq<bool>)
    requires |opens| == |ns| && Steady(prev, ns)
    ensures Hidden(prev, ns, opens) <= Lost(prev, ns)
    ensures TotalOf(prev, ns, opens) + |Hidden(prev, ns, opens)| == |Lost(prev, ns)|
    ensures TotalOf(prev, ns, opens) == |Lost(prev, ns) - Hidden(prev, ns, opens)|
  {
    SteadyParts(prev, ns);
    hide Total, Lost, Misread, Increasing, GapsOf, Steady, Hidden;
    HiddenIsLost(prev, ns, opens);
    SizeOfLost(prev, ns);
    TotalAndHidden(prev, ns, opens);
    assert Lost(prev, ns) == (Lost(prev, ns) - Hidden(prev, ns, opens)) + Hidden(prev, ns, opens);
  }

  lemma SteadyParts(prev: nat, ns: seq<nat>)
    requires Steady(prev, ns)
    ensures Increasing(prev, ns)
  {
  }

  lemma NothingCame(prev: nat)
    ensures TotalOf(prev, [], []) == 0 && Hidden(prev, [], []) == {}
  {
  }

  lemma {:induction false} TotalAndHidden(prev: nat, ns: seq<nat>, opens: seq<bool>)
    requires |opens| == |ns| && Steady(prev, ns)
    ensures TotalOf(prev, ns, opens) + |Hidden(prev, ns, opens)| == LastOf(prev, ns) - prev - |ns|
  {
    SteadyParts(prev, ns);
    hide TotalOf, Misread, Increasing, Steady, Hidden;
    if ns == [] {
      NothingCame(prev);
      assert opens == [];
    } else {
      var n := |ns| - 1;
      SteadyStep(prev, ns);
      TotalAndHidden(prev, ns[..n], opens[..n]);
      TotalStep(prev, ns, opens);
      HiddenGrows(prev, ns, opens);
    }
  }

  // ---------------------------------------------------------------- when the report is right

  ghost predicate AllOpen(opens: seq<bool>) {
    forall i :: 0 <= i < |opens| ==> opens[i]
  }

  /** All packets concerned lie within half a turn of the counter; or, if all open, within one turn with
      room for as many as arrived. */
  ghost predicate InWindow(prev: nat, ns: seq<nat>, opens: seq<bool>) {
    var span := Highest(prev, ns) - Lowest(prev, ns);
    2 * span + 1 < WRAP || (AllOpen(opens) && span + |ns| < WRAP)
  }

  /** An arrival that does not open comes after everything that was sent before it and arrived. */
  ghost predicate BlindGoForward(prev: nat, ns: seq<nat>, opens: seq<bool>)
    requires |opens| == |ns|
  {
    forall i :: 0 <= i < |ns| && !opens[i] ==> Before(prev, ns, i) < ns[i]
  }

  lemma {:induction false} WindowIsSteady(prev: nat, ns: seq<nat>)
    requires Highest(prev, ns) - Lowest(prev, ns) < WRAP && Increasing(prev, ns)
    ensures Steady(prev, ns)
  {
    Extremes(prev, ns);
    forall i | 0 <= i < |ns| ensures ns[i] - Before(prev, ns, i) <= WRAP {
      assert i > 0 ==> ns[i - 1] in ns;
      assert ns[i] in ns;
    }
  }

  /** Within a window no jump is misread by less than nothing; if one goes back, by a whole turn. */
  lemma {:induction false} SomeTurn(prev: nat, ns: seq<nat>, lo: nat, hi: nat)
    requires lo <= prev <= hi && (forall n :: n in ns ==> lo <= n <= hi) && hi - lo < WRAP
    ensures Turns(prev, ns) >= if Increasing(prev, ns) then 0 else 1
  {
    if ns != [] {
      var before, n := ns[..|ns| - 1], ns[|ns| - 1];
      assert ns == before + [n];
      assert forall x :: x in before ==> x in ns;
      SomeTurn(prev, before, lo, hi);
      var last := LastOf(prev, before);
      assert before != [] ==> last in ns;
      assert n in ns;
      MisreadBack(last, n);
      if Increasing(prev, before) && last < n { IncreasingMore(prev, before, n); }
    }
  }

  lemma MisreadBack(n: nat, k: nat)
    requires -(WRAP as int) < k - n < WRAP
    ensures Misread(n, k) == if k <= n then 1 else 0
  {
  }

  lemma {:induction false} IncreasingMore(prev: nat, ns: seq<nat>, n: nat)
    requires Increasing(prev, ns) && LastOf(prev, ns) < n
    ensures Increasing(prev, ns + [n])
  {
  }

  lemma {:induction false} LostBound(prev: nat, ns: seq<nat>)
    ensures |Lost(prev, ns)| <= Highest(prev, ns) - prev
  {
    Extremes(prev, ns);
    var h := Highest(prev, ns);
    if prev < h {
      SizeOfBetween(prev, h);
      assert Lost(prev, ns) <= Between(prev, h);
      Smaller(Lost(prev, ns), Between(prev, h));
    } else {
      assert Lost(prev, ns) == {};
    }
  }

  lemma Smaller(a: set<nat>, b: set<nat>)
    requires a <= b
    ensures |a| <= |b|
  {
    assert b == a + (b - a);
  }

  lemma {:induction false} BlindStep(prev: nat, ns: seq<nat>, opens: seq<bool>)
    requires ns != [] && |opens| == |ns| && BlindGoForward(prev, ns, opens)
    ensures var (n, last) := (|ns| - 1, LastOf(prev, ns[..|ns| - 1]));
            BlindGoForward(prev, ns[..n], opens[..n]) && (!opens[n] ==> last < ns[n])
  {
    var n := |ns| - 1;
    forall i | 0 <= i < n && !opens[i] ensures Before(prev, ns[..n], i) < ns[i] {
      assert Before(prev, ns, i) == Before(prev, ns[..n], i);
    }
    assert Before(prev, ns, n) == LastOf(prev, ns[..n]);
  }

  lemma {:induction false} BoundsStep(prev: nat, ns: seq<nat>, lo: nat, hi: nat)
    requires ns != [] && lo <= prev <= hi && forall n :: n in ns ==> lo <= n <= hi
    ensures var n := |ns| - 1;
            lo <= ns[n] <= hi && lo <= LastOf(prev, ns[..n]) <= hi && forall x :: x in ns[..n] ==> lo <= x <= hi
  {
    var n := |ns| - 1;
    assert forall x :: x in ns[..n] ==> x in ns;
    assert ns[n] in ns && (n > 0 ==> ns[n - 1] in ns);
  }

  /** Within half a turn, an arrival that goes back and opens is reported as almost a whole turn. */
  lemma {:induction false} BackIsMuch(prev: nat, ns: seq<nat>, opens: seq<bool>, lo: nat, hi: nat)
    requires |opens| == |ns| && BlindGoForward(prev, ns, opens) && !Increasing(prev, ns)
    requires lo <= prev <= hi && (forall n :: n in ns ==> lo <= n <= hi) && hi - lo < WRAP
    ensures TotalOf(prev, ns, opens) >= WRAP - 1 - (hi - lo)
  {
    assert ns != [];
    hide TotalOf, Misread, BlindGoForward, Increasing;
    var n := |ns| - 1;
    var before, last := ns[..n], LastOf(prev, ns[..n]);
    BlindStep(prev, ns, opens);
    BoundsStep(prev, ns, lo, hi);
    TotalStep(prev, ns, opens);
    MisreadBack(last, ns[n]);
    if Increasing(prev, before) {
      assert before + [ns[n]] == ns;
      if last < ns[n] { IncreasingMore(prev, before, ns[n]); }
    } else {
      BackIsMuch(prev, before, opens[..n], lo, hi);
    }
  }

  lemma {:induction false} NoneSilent(prev: nat, ns: seq<nat>, opens: seq<bool>)
    requires |opens| == |ns| && AllOpen(opens)
    ensures TotalOf(prev, ns, Not(opens)) == 0
  {
    hide Misread;
    if ns != [] {
      NoneSilent(prev, ns[..|ns| - 1], opens[..|ns| - 1]);
      TotalStep(prev, ns, Not(opens));
      assert Not(opens)[..|ns| - 1] == Not(opens[..|ns| - 1]);
    }
  }

  lemma {:induction false} NotInOrder(prev: nat, ns: seq<nat>, opens: seq<bool>)
    requires |opens| == |ns| && InWindow(prev, ns, opens) && BlindGoForward(prev, ns, opens) && !Increasing(prev, ns)
    ensures TotalOf(prev, ns, opens) > |Lost(prev, ns)|
  {
    hide TotalOf, Lost, Turns, Increasing, BlindGoForward;
    var lo, hi := Lowest(prev, ns), Highest(prev, ns);
    Extremes(prev, ns);
    LostBound(prev, ns);
    if 2 * (hi - lo) + 1 < WRAP {
      BackIsMuch(prev, ns, opens, lo, hi);
    } else {
      SomeTurn(prev, ns, lo, hi);
      TotalOfGaps(prev, ns, opens);
      NoneSilent(prev, ns, opens);
      assert ns != [] ==> LastOf(prev, ns) in ns;
      assert WRAP * Turns(prev, ns) >= WRAP;
    }
  }

  /** Within a window of the counter, which may start over in it, the sender is told the right number if
      and only if the packets arrived in the order in which they were sent, none twice, and none was
      lost just before one that does not open. */
  lemma {:induction false} ReportIsExactIff(prev: nat, ns: seq<nat>, opens: seq<bool>)
    requires |opens| == |ns| && InWindow(prev, ns, opens) && BlindGoForward(prev, ns, opens)
    ensures TotalOf(prev, ns, opens) == |Lost(prev, ns)| <==> Increasing(prev, ns) && Hidden(prev, ns, opens) == {}
  {
    hide TotalOf, Lost, Increasing, BlindGoForward, Hidden;
    if Increasing(prev, ns) {
      Extremes(prev, ns);
      WindowIsSteady(prev, ns);
      TotalIsLost(prev, ns, opens);
    } else {
      NotInOrder(prev, ns, opens);
    }
  }

  lemma {:induction false} OneArrival(prev: nat, n: nat)
    ensures Highest(prev, [n]) == (if n > prev then n else prev) && Turns(prev, [n]) == Misread(prev, n)
  {
    hide Misread;
    assert [n][..0] == [];
  }

  lemma {:induction false} TwoArrivals(prev: nat, n: nat, k: nat)
    ensures Highest(prev, [n, k]) == (if k > Highest(prev, [n]) then k else Highest(prev, [n]))
    ensures Turns(prev, [n, k]) == Misread(prev, n) + Misread(n, k)
  {
    hide Misread;
    assert [n, k][..1] == [n];
    OneArrival(prev, n);
  }

  lemma {:induction false} TotalOfOne(prev: nat, n: nat, opens: bool)
    ensures TotalOf(prev, [n], [opens]) == if opens then n - prev - 1 + WRAP * Misread(prev, n) else 0
  {
    hide Misread;
    assert [n][..0] == [] && [opens][..0] == [];
    TotalStep(prev, [n], [opens]);
  }

  lemma {:induction false} TotalOfTwo(prev: nat, n: nat, k: nat, opens1: bool, opens2: bool)
    ensures TotalOf(prev, [n, k], [opens1, opens2])
         == TotalOf(prev, [n], [opens1]) + if opens2 then k - n - 1 + WRAP * Misread(n, k) else 0
  {
    hide Misread, TotalOf;
    assert [n, k][..1] == [n] && [opens1, opens2][..1] == [opens1];
    TotalStep(prev, [n, k], [opens1, opens2]);
  }

  /** Two packets that swap places: nothing is lost, and 2^32 - 1 packets are reported missing. */
  lemma {:induction false} Swapped()
    ensures Lost(1, [3, 2]) == {} && TotalOf(1, [3, 2], [true, true]) == WRAP - 1
  {
    hide TotalOf, Misread, Turns, Highest;
    OneArrival(1, 3);
    TwoArrivals(1, 3, 2);
    MisreadBack(1, 3);
    MisreadBack(3, 2);
    TotalOfOne(1, 3, true);
    TotalOfTwo(1, 3, 2, true, true);
    assert 2 in [3, 2];
  }

  /** The same when a packet comes twice. */
  lemma {:induction false} Duplicated()
    ensures Lost(1, [2, 2]) == {} && TotalOf(1, [2, 2], [true, true]) == WRAP - 1
  {
    hide TotalOf, Misread, Turns, Highest;
    OneArrival(1, 2);
    TwoArrivals(1, 2, 2);
    MisreadBack(1, 2);
    MisreadBack(2, 2);
    TotalOfOne(1, 2, true);
    TotalOfTwo(1, 2, 2, true, true);
  }

  /** A packet lost just before a handshake: the packets arrive in order, and nothing is reported. */
  lemma {:induction false} Silenced()
    ensures Increasing(1, [3, 4]) && Lost(1, [3, 4]) == Hidden(1, [3, 4], [false, true]) == {2}
    ensures TotalOf(1, [3, 4], [false, true]) == 0
  {
    hide TotalOf, Misread, Turns, Highest;
    OneArrival(1, 3);
    TwoArrivals(1, 3, 4);
    MisreadBack(3, 4);
    TotalOfOne(1, 3, false);
    TotalOfTwo(1, 3, 4, false, true);
    assert [3, 4][..1] == [3] && [false, true][..1] == [false] && [3][..0] == [] && [false][..0] == [];
    assert Lost(1, [3, 4]) == {2} by { assert 3 in [3, 4]; }
    assert Hidden(1, [3], [false]) == Between(1, 3) == {2} by { assert IsBetween(1, 2, 3); }
  }

  /** Two handshakes that swap places: packets 2 and 4 are lost, 4 and 5 are reported, and the number is
      right by accident. Hence the demand that arrivals that do not open go forward. */
  lemma {:induction false} RightByAccident()
    ensures var (ns, opens) := ([5, 3, 6], [false, false, true]);
            && !Increasing(1, ns) && !BlindGoForward(1, ns, opens)
            && Lost(1, ns) == {2, 4} && TotalOf(1, ns, opens) == 2
  {
    var ns, opens := [5, 3, 6], [false, false, true];
    assert ns[0] > ns[1] && Before(1, ns, 1) == 5;
    assert ns[..2] == [5, 3] && opens[..2] == [false, false];
    assert Lost(1, ns) == {2, 4} by {
      hide TotalOf, Misread, Turns;
      OneArrival(1, 5);
      TwoArrivals(1, 5, 3);
      assert Highest(1, ns) == 6;
      assert 3 in ns && 5 in ns;
    }
    TotalOfOne(1, 5, false);
    TotalOfTwo(1, 5, 3, false, false);
    TotalStep(1, ns, opens);
    MisreadBack(3, 6);
  }

  // ---------------------------------------------------------------- which ranges are reported

  /** The range covers this number, counting from its start and around the end of the counter. */
  predicate Covers(r: Range, s: u32) {
    WrapSub(s, r.start) < Size(r)
  }

  /** How many of the ranges cover it. */
  function Covering(ranges: seq<Range>, s: u32): nat {
    if ranges == [] then 0
    else Covering(ranges[..|ranges| - 1], s) + if Covers(ranges[|ranges| - 1], s) then 1 else 0
  }

  lemma CoveringMore(ranges: seq<Range>, r: Range, s: u32)
    ensures Covering(ranges + [r], s) == Covering(ranges, s) + if Covers(r, s) then 1 else 0
  {
    assert (ranges + [r])[..|ranges|] == ranges;
  }

  lemma {:induction false} CoversIff(n: nat, k: nat, x: nat)
    requires n < k <= n + WRAP && n <= x + WRAP && x < n + WRAP && k <= x + WRAP
    ensures Covers(Jump(n, k), Wrap(x)) <==> n < x < k
  {
    SizeOfJump(n, k);
    SizeOfJump(n, x);
    assert Misread(n, k) == 0;
    assert Misread(n, x) == if x <= n then 1 else 0;
  }

  lemma {:induction false} IsItLost(prev: nat, ns: seq<nat>, opens: seq<bool>, x: nat)
    requires ns != [] && |opens| == |ns| && Increasing(prev, ns)
    ensures var (n, last) := (|ns| - 1, LastOf(prev, ns[..|ns| - 1]));
            && prev <= last < ns[n] && Increasing(prev, ns[..n])
            && (x in Lost(prev, ns) <==> x in Lost(prev, ns[..n]) || last < x < ns[n])
            && (x in Hidden(prev, ns, opens) <==>
                  x in Hidden(prev, ns[..n], opens[..n]) || (!opens[n] && last < x < ns[n]))
            && (x in Lost(prev, ns[..n]) ==> x < last) && (x in Hidden(prev, ns[..n], opens[..n]) ==> x < last)
  {
    var n := |ns| - 1;
    LostGrows(prev, ns);
    HiddenIsLost(prev, ns[..n], opens[..n]);
    Extremes(prev, ns[..n]);
    assert x in Between(LastOf(prev, ns[..n]), ns[n]) <==> LastOf(prev, ns[..n]) < x < ns[n];
  }

  /** Within one turn of the counter, wherever it starts: the number of every lost packet that is not
      hidden is covered by exactly one of the reported ranges, and that of no other packet by any. */
  lemma {:induction false} GapsAreTheLost(prev: nat, ns: seq<nat>, opens: seq<bool>, x: nat)
    requires |opens| == |ns| && Increasing(prev, ns) && LastOf(prev, ns) - prev <= WRAP && prev < x < prev + WRAP
    ensures Covering(GapsOf(prev, ns, opens), Wrap(x))
         == if x in Lost(prev, ns) && x !in Hidden(prev, ns, opens) then 1 else 0
  {
    hide Lost, Hidden, Wrap, Covers, GapsOf, Increasing, Jump;
    if ns == [] {
      NothingLost(prev, x);
      assert opens == [];
    } else {
      var n, last := |ns| - 1, LastOf(prev, ns[..|ns| - 1]);
      IsItLost(prev, ns, opens, x);
      GapsAreTheLost(prev, ns[..n], opens[..n], x);
      GapsStep(prev, ns, opens);
      CoversIff(last, ns[n], x);
      CoveringMore(GapsOf(prev, ns[..n], opens[..n]), Jump(last, ns[n]), Wrap(x));
      assert GapsOf(prev, ns[..n], opens[..n]) + [] == GapsOf(prev, ns[..n], opens[..n]);
    }
  }

  lemma NothingLost(prev: nat, x: nat)
    ensures x !in Lost(prev, []) && GapsOf(prev, [], []) == []
  {
  }
}
