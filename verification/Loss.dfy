/** Do NAKs account for lost packets? Gaps and NAK counts over whole runs of two packet handlers. */
module LossAccounting {
  import opened Basics
  import opened Messages
  import opened PacketHandling
  import opened LossReports
  import HandlerRuns
  import Lru

  // ---------------------------------------------------------------- the receiver

  function NakRanges(letters: seq<Letter>): seq<Range> {
    if letters == [] then []
    else
      var body := letters[|letters| - 1].box.content.body;
      NakRanges(letters[..|letters| - 1]) + if body.Nak? then [Range(body.start, body.end)] else []
  }

  lemma {:induction false} RangesAppend(a: seq<Letter>, b: seq<Letter>)
    ensures NakRanges(a + b) == NakRanges(a) + NakRanges(b)
  {
    if b == [] {
      assert a + b == a;
    } else {
      assert (a + b)[..|a + b| - 1] == a + b[..|b| - 1];
      RangesAppend(a, b[..|b| - 1]);
    }
  }

  lemma {:induction false} NoRangesInMail(links: seq<Link>, me: Uuid, m: Message)
    requires Forwardable(m)
    ensures NakRanges(Mail(links, me, m)) == []
  {
    var letters := Mail(links, me, m);
    if links != [] {
      NoRangesInMail(links[..|links| - 1], me, m);
      assert letters[..|letters| - 1] == Mail(links[..|links| - 1], me, m);
    }
  }

  lemma {:induction false} RangeInNak(keys: Keys, me: Uuid, id: Uuid, nak: Message)
    requires id in keys && nak.body.Nak?
    ensures NakRanges(Mail(Links(keys, [id]), me, nak)) == [Range(nak.body.start, nak.body.end)]
  {
    assert [id][..0] == [];
    assert Links(keys, [id]) == [keys[id]];
    var letters := Mail([keys[id]], me, nak);
    assert letters[..0] == [];
  }

  lemma {:induction false} RecvReports(h: Handler, packet: Packet, from: Addr, draw: Draw)
    requires h.started
    ensures var prev := Get(h.rx, from);
            NakRanges(Letters(Recv(h, packet, from, draw).outs))
            == if prev.Some? && Opened(h, packet).Some? then [Range(WrapAdd(prev.value, 1), packet.s)] else []
  {
    hide Recv, Letters, NakRanges, Mail, Links, Seen, WrapAdd;
    RecvSends(h, packet, from, draw);
    NoRanges();
    if Opened(h, packet).Some? {
      var m, prev := Opened(h, packet).value, Get(h.rx, from);
      var links := Links(h.keys, h.subscribers);
      var forwards := if !Seen(h.puts, m.id) && Forwardable(m) then Mail(links, h.me, m) else [];
      if Forwardable(m) { NoRangesInMail(links, h.me, m); }
      if prev.Some? {
        var nak := NakFor(prev.value, packet.s, draw.nakId);
        RangeInNak(h.keys, h.me, packet.id, nak);
        RangesAppend(forwards, Mail(Links(h.keys, [packet.id]), h.me, nak));
      } else {
        assert forwards + [] == forwards;
      }
    }
  }

  lemma NoRanges()
    ensures NakRanges([]) == []
  {
  }

  predicate IsFrom(input: Input, a: Addr) {
    input.Receive? && input.from == a
  }

  /** The numbers of the packets that a run receives from address `a`. */
  function Numbers(inputs: seq<Input>, a: Addr): seq<u32> {
    if inputs == [] then []
    else
      var last := inputs[|inputs| - 1];
      Numbers(inputs[..|inputs| - 1], a) + if IsFrom(last, a) then [last.packet.s] else []
  }

  /** Which of them the handler can open, with the keys it has at that time. */
  function Opens(h: Handler, inputs: seq<Input>, a: Addr): (r: seq<bool>)
    ensures |r| == |Numbers(inputs, a)|
  {
    if inputs == [] then []
    else
      var before, last := inputs[..|inputs| - 1], inputs[|inputs| - 1];
      Opens(h, before, a) + if IsFrom(last, a) then [Opened(Run(h, before).h, last.packet).Some?] else []
  }

  /** The ranges in the NAKs they make the handler send. */
  function Reports(h: Handler, inputs: seq<Input>, a: Addr): seq<Range> {
    if inputs == [] then []
    else
      var before, last := inputs[..|inputs| - 1], inputs[|inputs| - 1];
      Reports(h, before, a)
      + if IsFrom(last, a) then NakRanges(Letters(HandleInput(Run(h, before).h, last).outs)) else []
  }

  lemma {:induction false} StepReceives(h: Handler, input: Input, a: Addr)
    ensures h.started ==> HandleInput(h, input).h.started
    ensures Get(HandleInput(h, input).h.rx, a) == if IsFrom(input, a) then Some(input.packet.s) else Get(h.rx, a)
  {
    hide Recv, TransmitAll, Parcels;
    match input
    case Receive(from, packet, draw) => RecvKeeps(h, packet, from, draw);
    case SendMessage(target, m) => TransmitKeeps(h.(puts := h.puts + [m.id]), Parcels(Links(h.keys, [target]), m));
    case SendToSubscribers(m) => TransmitKeeps(h.(puts := h.puts + [m.id]), Parcels(Links(h.keys, h.subscribers), m));
    case _ =>
  }

  lemma {:induction false} GapsMore(prev: Option<u32>, ss: seq<u32>, opens: seq<bool>, s: u32, o: bool)
    requires |opens| == |ss|
    ensures var p := Last(prev, ss);
            Gaps(prev, ss + [s], opens + [o])
            == Gaps(prev, ss, opens) + if p.Some? && o then [Range(WrapAdd(p.value, 1), s)] else []
  {
    hide WrapAdd;
    assert (ss + [s])[..|ss|] == ss && (opens + [o])[..|ss|] == opens;
  }

  /** In every run, whatever else it receives and sends: the NAKs that the packets from one address make
      a handler send are the gaps before those of them that it can open. */
  lemma {:induction false} ReceiverReports(h: Handler, inputs: seq<Input>, a: Addr)
    requires h.started
    ensures Run(h, inputs).h.started && Get(Run(h, inputs).h.rx, a) == Last(Get(h.rx, a), Numbers(inputs, a))
    ensures Reports(h, inputs, a) == Gaps(Get(h.rx, a), Numbers(inputs, a), Opens(h, inputs, a))
  {
    hide Recv, Letters, NakRanges, Opened, WrapAdd, Gaps;
    if inputs == [] {
      NoGaps(Get(h.rx, a));
    } else {
      var before, last := inputs[..|inputs| - 1], inputs[|inputs| - 1];
      var r := Run(h, before).h;
      ReceiverReports(h, before, a);
      StepReceives(r, last, a);
      if IsFrom(last, a) {
        RecvReports(r, last.packet, a, last.draw);
        GapsMore(Get(h.rx, a), Numbers(before, a), Opens(h, before, a), last.packet.s, Opened(r, last.packet).Some?);
      } else {
        assert Numbers(before, a) + [] == Numbers(before, a) && Opens(h, before, a) + [] == Opens(h, before, a);
        assert Reports(h, before, a) + [] == Reports(h, before, a);
      }
    }
  }

  lemma NoGaps(prev: Option<u32>)
    ensures Gaps(prev, [], []) == []
  {
  }

  // ---------------------------------------------------------------- the sender

  /** The ranges of the NAKs that this input brings from address `a`. */
  function NakIn(h: Handler, input: Input, a: Addr): seq<Range> {
    if !IsFrom(input, a) then []
    else
      var m := Opened(h, input.packet);
      if m.Some? && m.value.body.Nak? then [Range(m.value.body.start, m.value.body.end)] else []
  }

  /** Those of them whose identifier the handler does not remember. */
  function NewNakIn(h: Handler, input: Input, a: Addr): seq<Range> {
    if IsFrom(input, a) && Opened(h, input.packet).Some? && Seen(h.puts, Opened(h, input.packet).value.id) then []
    else NakIn(h, input, a)
  }

  function Naks(h: Handler, inputs: seq<Input>, a: Addr): seq<Range> {
    if inputs == [] then []
    else Naks(h, inputs[..|inputs| - 1], a) + NakIn(Run(h, inputs[..|inputs| - 1]).h, inputs[|inputs| - 1], a)
  }

  function NewNaks(h: Handler, inputs: seq<Input>, a: Addr): seq<Range> {
    if inputs == [] then []
    else NewNaks(h, inputs[..|inputs| - 1], a) + NewNakIn(Run(h, inputs[..|inputs| - 1]).h, inputs[|inputs| - 1], a)
  }

  function CountFrom(h: Handler, a: Addr): nat {
    GetOr(h.naks, a)
  }

  lemma {:induction false} StepCounts(h: Handler, input: Input, a: Addr)
    ensures |NewNakIn(h, input, a)| <= 1
    ensures var naks := NewNakIn(h, input, a);
            CountFrom(HandleInput(h, input).h, a)
            == if naks == [] then CountFrom(h, a) else WrapAdd(CountFrom(h, a), Size(naks[0]))
  {
    hide Recv, TransmitAll, Parcels, Seen, Decrypt, WrapAdd, WrapSub;
    match input
    case Receive(from, packet, draw) => RecvKeeps(h, packet, from, draw);
    case SendMessage(target, m) => TransmitKeeps(h.(puts := h.puts + [m.id]), Parcels(Links(h.keys, [target]), m));
    case SendToSubscribers(m) => TransmitKeeps(h.(puts := h.puts + [m.id]), Parcels(Links(h.keys, h.subscribers), m));
    case _ =>
  }

  lemma {:induction false} NoneOrOne(ranges: seq<Range>, more: seq<Range>)
    requires |more| <= 1
    ensures Total(ranges + more) == Total(ranges) + if more == [] then 0 else Size(more[0])
  {
    hide Size;
    if more == [] {
      assert ranges + more == ranges;
    } else {
      assert more == [more[0]];
      TotalMore(ranges, more[0]);
    }
  }

  lemma CountIsWrapped(h: Handler, a: Addr)
    ensures Wrap(CountFrom(h, a)) == CountFrom(h, a)
  {
  }

  lemma {:induction false} CountsMore(h: Handler, r: Handler, input: Input, a: Addr, total: nat)
    requires CountFrom(r, a) == Wrap(CountFrom(h, a) + total)
    ensures var naks := NewNakIn(r, input, a);
            |naks| <= 1 &&
            CountFrom(HandleInput(r, input).h, a)
            == Wrap(CountFrom(h, a) + total + if naks == [] then 0 else Size(naks[0]))
  {
    hide HandleInput, NewNakIn, Wrap, WrapAdd, Size, CountFrom;
    StepCounts(r, input, a);
    var naks := NewNakIn(r, input, a);
    if naks != [] { WrapPlus(CountFrom(h, a) + total, Size(naks[0])); }
  }

  lemma NoNewNaks(h: Handler, a: Addr)
    ensures Run(h, []).h == h && Total(NewNaks(h, [], a)) == 0
  {
  }

  /** In every run the NAK count of an address rises by the total of the new NAKs from it, modulo 2^32,
      whatever else the handler is given. */
  lemma {:induction false} SenderCounts(h: Handler, inputs: seq<Input>, a: Addr)
    ensures CountFrom(Run(h, inputs).h, a) == Wrap(CountFrom(h, a) + Total(NewNaks(h, inputs, a)))
  {
    hide HandleInput, NewNakIn, Wrap, Size, CountFrom, Total;
    if inputs == [] {
      NoNewNaks(h, a);
      CountIsWrapped(h, a);
    } else {
      var before, last := inputs[..|inputs| - 1], inputs[|inputs| - 1];
      SenderCounts(h, before, a);
      CountsMore(h, Run(h, before).h, last, a, Total(NewNaks(h, before, a)));
      NoneOrOne(NewNaks(h, before, a), NewNakIn(Run(h, before).h, last, a));
    }
  }

  /** From the start, the table holds the total of all new NAKs from an address, modulo 2^32. */
  lemma {:induction false} CountFromTheStart(me: Uuid, inputs: seq<Input>, a: Addr)
    ensures var naks := Run(Fresh(me), inputs).h.naks;
            (if a in naks then naks[a] else 0) == Total(NewNaks(Fresh(me), inputs, a)) % 0x1_0000_0000
  {
    hide Run, NewNaks, Total;
    SenderCounts(Fresh(me), inputs, a);
  }

  /** The identifiers that handling this input may put in the cache. */
  function Puts(input: Input): set<Uuid> {
    match input
    case Receive(_, packet, draw) =>
      {draw.nakId} + if packet.p.B? && Forwardable(packet.p.box.content) then {packet.p.box.content.id} else {}
    case SendMessage(_, m) => {m.id}
    case SendToSubscribers(m) => {m.id}
    case _ => {}
  }

  lemma {:induction false} StepPuts(h: Handler, input: Input, id: Uuid)
    requires id !in h.puts && id !in Puts(input)
    ensures id !in HandleInput(h, input).h.puts
  {
    hide Recv, TransmitAll, Parcels, Seen;
    match input
    case Receive(from, packet, draw) => RecvKeeps(h, packet, from, draw);
    case SendMessage(target, m) => TransmitKeeps(h.(puts := h.puts + [m.id]), Parcels(Links(h.keys, [target]), m));
    case SendToSubscribers(m) => TransmitKeeps(h.(puts := h.puts + [m.id]), Parcels(Links(h.keys, h.subscribers), m));
    case _ =>
  }

  ghost predicate NeverPut(h: Handler, inputs: seq<Input>, id: Uuid) {
    id !in h.puts && forall j :: 0 <= j < |inputs| ==> id !in Puts(inputs[j])
  }

  lemma {:induction false} RunPuts(h: Handler, inputs: seq<Input>, id: Uuid)
    requires NeverPut(h, inputs, id)
    ensures id !in Run(h, inputs).h.puts
  {
    hide HandleInput, Puts;
    if inputs != [] {
      var before := inputs[..|inputs| - 1];
      assert forall j :: 0 <= j < |before| ==> before[j] == inputs[j];
      RunPuts(h, before, id);
      StepPuts(Run(h, before).h, inputs[|inputs| - 1], id);
    }
  }

  predicate BringsNak(input: Input, a: Addr) {
    IsFrom(input, a) && input.packet.p.B? && input.packet.p.box.content.body.Nak?
  }

  /** The NAKs from `a` carry identifiers that the node has for nothing else. */
  ghost predicate FreshNaks(h: Handler, inputs: seq<Input>, a: Addr) {
    forall i :: 0 <= i < |inputs| && BringsNak(inputs[i], a) ==>
      NeverPut(h, inputs, inputs[i].packet.p.box.content.id)
  }

  lemma {:induction false} FreshIsNew(h: Handler, inputs: seq<Input>, a: Addr)
    requires inputs != [] && FreshNaks(h, inputs, a)
    ensures FreshNaks(h, inputs[..|inputs| - 1], a)
    ensures var (r, last) := (Run(h, inputs[..|inputs| - 1]).h, inputs[|inputs| - 1]);
            NewNakIn(r, last, a) == NakIn(r, last, a)
  {
    hide Run, Puts, Seen;
    var before, last := inputs[..|inputs| - 1], inputs[|inputs| - 1];
    assert forall j :: 0 <= j < |before| ==> before[j] == inputs[j];
    assert forall id :: NeverPut(h, inputs, id) ==> NeverPut(h, before, id);
    if NakIn(Run(h, before).h, last, a) != [] {
      var id := last.packet.p.box.content.id;
      assert NeverPut(h, inputs, id);
      RunPuts(h, before, id);
      NotSeen(Run(h, before).h.puts, id);
    }
  }

  lemma NotSeen(puts: seq<Uuid>, id: Uuid)
    requires id !in puts
    ensures !Seen(puts, id)
  {
    Lru.HoldsIff(puts, id, SEEN_CAPACITY);
  }

  lemma {:induction false} FreshAreNew(h: Handler, inputs: seq<Input>, a: Addr)
    requires FreshNaks(h, inputs, a)
    ensures NewNaks(h, inputs, a) == Naks(h, inputs, a)
  {
    hide Run, FreshNaks, NakIn, NewNakIn;
    if inputs != [] {
      FreshIsNew(h, inputs, a);
      FreshAreNew(h, inputs[..|inputs| - 1], a);
    }
  }

  lemma {:induction false} TotalOfUpdate(ranges: seq<Range>, i: nat)
    requires i < |ranges|
    ensures Total(ranges) == Total(ranges[..i] + ranges[i + 1..]) + Size(ranges[i])
  {
    hide Size;
    var n := |ranges| - 1;
    if i == n {
      assert ranges[..i] + ranges[i + 1..] == ranges[..n];
    } else {
      TotalOfUpdate(ranges[..n], i);
      var rest := ranges[..i] + ranges[i + 1..];
      assert rest[..n - 1] == ranges[..n][..i] + ranges[..n][i + 1..];
      assert rest[n - 1] == ranges[n];
    }
  }

  lemma TakeOut(ranges: seq<Range>, i: nat)
    requires i < |ranges|
    ensures multiset(ranges[..i] + ranges[i + 1..]) == multiset(ranges) - multiset{ranges[i]}
  {
    assert ranges == ranges[..i] + [ranges[i]] + ranges[i + 1..];
  }

  /** The total does not depend on the order of the ranges. */
  lemma {:induction false} TotalOfPermutation(a: seq<Range>, b: seq<Range>)
    requires multiset(a) == multiset(b)
    ensures Total(a) == Total(b)
  {
    hide Size;
    if a != [] {
      var last := a[|a| - 1];
      TakeOut(a, |a| - 1);
      assert a[..|a| - 1] + a[|a|..] == a[..|a| - 1];
      assert last in multiset(a);
      var i :| 0 <= i < |b| && b[i] == last;
      TotalOfUpdate(b, i);
      TakeOut(b, i);
      TotalOfPermutation(a[..|a| - 1], b[..i] + b[i + 1..]);
    } else {
      assert |multiset(b)| == 0;
    }
  }

  // ---------------------------------------------------------------- end to end

  /** The first packet of an address is the reference for the rest. */
  lemma {:induction false} GapsFromFirst(ss: seq<u32>, opens: seq<bool>)
    requires ss != [] && |opens| == |ss|
    ensures Gaps(None, ss, opens) == Gaps(Some(ss[0]), ss[1..], opens[1..])
  {
    hide WrapAdd;
    var n := |ss| - 1;
    if n > 0 {
      GapsFromFirst(ss[..n], opens[..n]);
      assert ss[..n][1..] == ss[1..][..n - 1] && opens[..n][1..] == opens[1..][..n - 1];
      assert ss[1..][n - 1] == ss[n] && opens[1..][n - 1] == opens[n];
    }
  }

  ghost predicate SteadySince(prev: Option<nat>, ns: seq<nat>) {
    if prev.Some? then Steady(prev.value, ns) else ns != [] ==> Steady(ns[0], ns[1..])
  }

  /** The packets lost since the last one, or since the first one if there was none before. */
  ghost function LostSince(prev: Option<nat>, ns: seq<nat>): set<nat> {
    if prev.Some? then Lost(prev.value, ns) else if ns == [] then {} else Lost(ns[0], ns[1..])
  }

  /** Those of them that nobody complains about. */
  ghost function HiddenSince(prev: Option<nat>, ns: seq<nat>, opens: seq<bool>): set<nat>
    requires |opens| == |ns|
  {
    if prev.Some? then Hidden(prev.value, ns, opens)
    else if ns == [] then {} else Hidden(ns[0], ns[1..], opens[1..])
  }

  function WrapOption(n: Option<nat>): Option<u32> {
    if n.Some? then Some(Wrap(n.value)) else None
  }

  lemma {:induction false} ReportedIsLost(prev: Option<nat>, ns: seq<nat>, opens: seq<bool>)
    requires |opens| == |ns| && SteadySince(prev, ns)
    ensures Total(Gaps(WrapOption(prev), Wraps(ns), opens)) == |LostSince(prev, ns) - HiddenSince(prev, ns, opens)|
    ensures HiddenSince(prev, ns, opens) <= LostSince(prev, ns)
  {
    hide Steady, Wrap, Lost, Hidden;
    if prev.Some? {
      TotalIsLost(prev.value, ns, opens);
    } else if ns != [] {
      GapsFromFirst(Wraps(ns), opens);
      assert Wraps(ns)[1..] == Wraps(ns[1..]);
      TotalIsLost(ns[0], ns[1..], opens[1..]);
    }
  }

  /** Two nodes, each in a run of its own with any other traffic. The packets numbered `ns` reach the
      receiver steadily, some lost, the counter starting over as it may, handshakes among them; the
      NAKs they cause reach the sender, each once, in any order. Then the sender's NAK count for the
      receiver rises by exactly the number of packets lost that are not hidden. */
  lemma {:induction false} LossConservation(
      receiver: Handler, arrivals: seq<Input>, from: Addr, prev: Option<nat>, ns: seq<nat>,
      sender: Handler, inputs: seq<Input>, back: Addr)
    requires receiver.started && SteadySince(prev, ns)
    requires Get(receiver.rx, from) == WrapOption(prev) && Numbers(arrivals, from) == Wraps(ns)
    requires FreshNaks(sender, inputs, back)
    requires multiset(Naks(sender, inputs, back)) == multiset(Reports(receiver, arrivals, from))
    ensures var hidden := HiddenSince(prev, ns, Opens(receiver, arrivals, from));
            && hidden <= LostSince(prev, ns)
            && CountFrom(Run(sender, inputs).h, back) == Wrap(CountFrom(sender, back) + |LostSince(prev, ns) - hidden|)
  {
    hide Run, Reports, Naks, NewNaks, FreshNaks, LostSince, HiddenSince, SteadySince, Total, Wrap, Gaps, Numbers, Opens,
         CountFrom;
    ReceiverReports(receiver, arrivals, from);
    ReportedIsLost(prev, ns, Opens(receiver, arrivals, from));
    SenderCounts(sender, inputs, back);
    FreshAreNew(sender, inputs, back);
    TotalOfPermutation(Naks(sender, inputs, back), Reports(receiver, arrivals, from));
  }

  // ---------------------------------------------------------------- packets that were really sent

  function Shifted(c: nat, ks: seq<nat>): seq<nat> {
    seq(|ks|, i requires 0 <= i < |ks| => c + ks[i])
  }

  function ShiftOption(c: nat, k: Option<nat>): Option<nat> {
    if k.Some? then Some(c + k.value) else None
  }

  lemma {:induction false} ShiftIncreasing(c: nat, prev: nat, ks: seq<nat>)
    requires Increasing(prev, ks)
    ensures Increasing(c + prev, Shifted(c, ks)) && LastOf(c + prev, Shifted(c, ks)) == c + LastOf(prev, ks)
  {
  }

  lemma {:induction false} ShiftSteady(c: nat, prev: nat, ks: seq<nat>)
    requires Steady(prev, ks)
    ensures Steady(c + prev, Shifted(c, ks)) && |Lost(c + prev, Shifted(c, ks))| == |Lost(prev, ks)|
  {
    hide Lost, Increasing;
    var ns := Shifted(c, ks);
    ShiftIncreasing(c, prev, ks);
    forall i | 0 <= i < |ns| ensures ns[i] - Before(c + prev, ns, i) <= WRAP {
      assert ks[i] - Before(prev, ks, i) <= WRAP;
    }
    SizeOfLost(prev, ks);
    SizeOfLost(c + prev, ns);
  }

  lemma {:induction false} ShiftHidden(c: nat, prev: nat, ks: seq<nat>, opens: seq<bool>)
    requires |opens| == |ks| && Increasing(prev, ks)
    ensures |Hidden(c + prev, Shifted(c, ks), opens)| == |Hidden(prev, ks, opens)|
  {
    hide Hidden, Increasing, TotalOf;
    ShiftIncreasing(c, prev, ks);
    if ks == [] {
      NothingCame(prev);
      NothingCame(c + prev);
      assert opens == [] && Shifted(c, ks) == [];
    } else {
      var n := |ks| - 1;
      HiddenGrows(prev, ks, opens);
      HiddenGrows(c + prev, Shifted(c, ks), opens);
      ShiftIncreasing(c, prev, ks[..n]);
      assert Shifted(c, ks)[..n] == Shifted(c, ks[..n]);
      ShiftHidden(c, prev, ks[..n], opens[..n]);
    }
  }

  lemma {:induction false} ShiftReported(c: nat, prev: nat, ks: seq<nat>, opens: seq<bool>)
    requires |opens| == |ks| && Steady(prev, ks)
    ensures Steady(c + prev, Shifted(c, ks))
    ensures Hidden(prev, ks, opens) <= Lost(prev, ks)
    ensures |Lost(c + prev, Shifted(c, ks)) - Hidden(c + prev, Shifted(c, ks), opens)|
         == |Lost(prev, ks) - Hidden(prev, ks, opens)|
  {
    SteadyParts(prev, ks);
    hide Lost, Hidden, Increasing, Steady, TotalOf;
    ShiftSteady(c, prev, ks);
    ShiftHidden(c, prev, ks, opens);
    TotalIsLost(prev, ks, opens);
    TotalIsLost(c + prev, Shifted(c, ks), opens);
  }

  lemma {:induction false} ShiftSince(c: nat, prev: Option<nat>, ks: seq<nat>, opens: seq<bool>)
    requires |opens| == |ks| && SteadySince(prev, ks)
    ensures SteadySince(ShiftOption(c, prev), Shifted(c, ks)) && HiddenSince(prev, ks, opens) <= LostSince(prev, ks)
    ensures var (prev', ns) := (ShiftOption(c, prev), Shifted(c, ks));
            |LostSince(prev', ns) - HiddenSince(prev', ns, opens)|
            == |LostSince(prev, ks) - HiddenSince(prev, ks, opens)|
  {
    hide Steady, Lost, Hidden;
    if prev.Some? {
      ShiftReported(c, prev.value, ks, opens);
    } else if ks != [] {
      ShiftReported(c, ks[0], ks[1..], opens[1..]);
      assert Shifted(c, ks)[1..] == Shifted(c, ks[1..]);
    }
  }

  /** The packets a run receives from address `a`. */
  function PacketsFrom(inputs: seq<Input>, a: Addr): (r: seq<Packet>)
    ensures |r| == |Numbers(inputs, a)| && forall i :: 0 <= i < |r| ==> r[i].s == Numbers(inputs, a)[i]
  {
    if inputs == [] then []
    else
      var last := inputs[|inputs| - 1];
      PacketsFrom(inputs[..|inputs| - 1], a) + if IsFrom(last, a) then [last.packet] else []
  }

  /** From sending to counting: of the packets that a node sends to an address in a run, handshakes
      included, those at the positions `ks` arrive, in order. In the same run the node's NAK count for
      that address rises by exactly the number of packets in between that did not arrive and are not
      hidden, if the run brings it each of the NAKs once. */
  lemma {:induction false} SentLostAndCounted(
      sender: Handler, inputs: seq<Input>, to: Addr, prev: Option<nat>, ks: seq<nat>,
      receiver: Handler, arrivals: seq<Input>, from: Addr)
    requires var (packets, came) := (PacketsTo(Run(sender, inputs).outs, to), PacketsFrom(arrivals, from));
             && |came| == |ks| && SteadySince(prev, ks)
             && (forall i :: 0 <= i < |ks| ==> ks[i] < |packets| && came[i] == packets[ks[i]])
             && (prev.Some? ==> prev.value < |packets|)
             && Get(receiver.rx, from) == if prev.Some? then Some(packets[prev.value].s) else None
    requires receiver.started && FreshNaks(sender, inputs, to)
    requires multiset(Naks(sender, inputs, to)) == multiset(Reports(receiver, arrivals, from))
    ensures var hidden := HiddenSince(prev, ks, Opens(receiver, arrivals, from));
            && hidden <= LostSince(prev, ks)
            && CountFrom(Run(sender, inputs).h, to) == Wrap(CountFrom(sender, to) + |LostSince(prev, ks) - hidden|)
  {
    hide Run, PacketsTo, PacketsFrom, Reports, Naks, FreshNaks, LostSince, HiddenSince, SteadySince, Wrap, Numbers,
         Opens, CountFrom;
    var c := GetOr(sender.tx, to) + 1;
    HandlerRuns.RunNumbering(sender, inputs, to);
    ShiftSince(c, prev, ks, Opens(receiver, arrivals, from));
    assert Numbers(arrivals, from) == Wraps(Shifted(c, ks));
    LossConservation(receiver, arrivals, from, ShiftOption(c, prev), Shifted(c, ks), sender, inputs, to);
  }
}
