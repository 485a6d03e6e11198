/** The packet handler of one node (src/packet_handler.rs). */
module PacketHandling {
  import opened Basics
  import opened Handshaking
  import opened Messages
  import opened RateControl
  import Lru

  const SEEN_CAPACITY: nat := 10_000

  /** What the handler makes happen. */
  datatype Out =
    | Wire(to: Addr, packet: Packet)
    | ToHandshaker(from: Addr, handshake: Handshake, nodeId: Uuid)
    | ToPeerManager(fromId: Uuid, request: PeerRequest)
    | ToApplication(data: Bytes)

  /** The state, with the history of all identifiers put in the cache instead of the cache. */
  datatype Handler = Handler(
    me: Uuid, started: bool, listens: bool, tx: map<Addr, u32>, rx: map<Addr, u32>, naks: map<Addr, u32>,
    delay: map<Addr, nat>, keys: Keys, subscribers: seq<Uuid>, puts: seq<Uuid>)

  datatype Stepped = Stepped(h: Handler, outs: seq<Out>)

  /** The random draws of one step: the identifier of a NAK and the stretch of the delay. */
  datatype Draw = Draw(nakId: Uuid, factor: Factor)

  function Get<V>(m: map<Addr, V>, a: Addr): Option<V> {
    if a in m then Some(m[a]) else None
  }

  function GetOr(m: map<Addr, u32>, a: Addr): u32 {
    if a in m then m[a] else 0
  }

  predicate Seen(puts: seq<Uuid>, id: Uuid) {
    id in Lru.Cache(puts, SEEN_CAPACITY)
  }

  /** A message counts as seen if and only if its identifier was put and fewer than 10,000 others since. */
  lemma {:induction false} SeenIff(puts: seq<Uuid>, id: Uuid)
    ensures Seen(puts, id) <==> id in puts && |Lru.Since(puts, id)| < 10_000
  {
    Lru.HoldsIff(puts, id, SEEN_CAPACITY);
  }

  // ---------------------------------------------------------------- sending

  /** One packet: the counter for its address advances, wrapping around, and numbers it. */
  function Transmit(h: Handler, payload: Payload, to: Addr): Stepped {
    if !h.started then Stepped(h, [])
    else
      var s := WrapAdd(GetOr(h.tx, to), 1);
      Stepped(h.(tx := h.tx[to := s]), [Wire(to, Packet(s, h.me, payload))])
  }

  datatype Parcel = Parcel(payload: Payload, to: Addr)

  function TransmitAll(h: Handler, parcels: seq<Parcel>): Stepped {
    if parcels == [] then Stepped(h, [])
    else
      var before := TransmitAll(h, parcels[..|parcels| - 1]);
      var last := Transmit(before.h, parcels[|parcels| - 1].payload, parcels[|parcels| - 1].to);
      Stepped(last.h, before.outs + last.outs)
  }

  /** What is known about the targets whose keys are known, in order. */
  function Links(keys: Keys, targets: seq<Uuid>): seq<Link> {
    if targets == [] then []
    else
      var last := targets[|targets| - 1];
      Links(keys, targets[..|targets| - 1]) + if last in keys then [keys[last]] else []
  }

  /** The message sealed for each of them. */
  function Parcels(links: seq<Link>, m: Message): seq<Parcel> {
    seq(|links|, i requires 0 <= i < |links| => Parcel(B(Encrypt(links[i], m)), links[i].addr))
  }

  function SendMessages(h: Handler, targets: seq<Uuid>, m: Message): Stepped {
    TransmitAll(h.(puts := h.puts + [m.id]), Parcels(Links(h.keys, targets), m))
  }

  function Forward(h: Handler, m: Message): Stepped {
    SendMessages(h, h.subscribers, m)
  }

  // ---------------------------------------------------------------- receiving

  function OnNakFrom(h: Handler, from: Addr, start: u32, end: u32, factor: Factor): Handler {
    h.(naks := h.naks[from := WrapAdd(GetOr(h.naks, from), WrapSub(end, start))],
       delay := h.delay[from := OnNak(Get(h.delay, from), factor)])
  }

  /** The message is remembered once when it is forwarded and once more afterwards. */
  function ForwardAndRemember(h: Handler, m: Message): Stepped {
    var r := Forward(h, m);
    Stepped(r.h.(puts := r.h.puts + [m.id]), r.outs)
  }

  /** A message that was not seen before. */
  function OnMessage(h: Handler, from: Addr, sender: Uuid, m: Message, factor: Factor): Stepped {
    match m.body
    case Broadcast(data) =>
      var r := ForwardAndRemember(h, m);
      Stepped(r.h, (if h.listens then [ToApplication(data)] else []) + r.outs)
    case Request(request) =>
      var r := ForwardAndRemember(h, m);
      Stepped(r.h, r.outs + [ToPeerManager(sender, request)])
    case Frame(_) => Stepped(h, [])
    case Nak(start, end) => Stepped(OnNakFrom(h, from, start, end, factor), [])
  }

  /** The complaint about everything between the previous and this packet of an address. */
  function NakFor(prev: u32, s: u32, id: Uuid): Message {
    Message(id, Nak(WrapAdd(prev, 1), s))
  }

  function Complain(h: Handler, prev: Option<u32>, packet: Packet, nakId: Uuid): Stepped {
    if prev.None? then Stepped(h, []) else SendMessages(h, [packet.id], NakFor(prev.value, packet.s, nakId))
  }

  function OnDecrypted(h: Handler, prev: Option<u32>, packet: Packet, from: Addr, m: Message, draw: Draw): Stepped {
    var r := if Seen(h.puts, m.id) then Stepped(h, []) else OnMessage(h, from, packet.id, m, draw.factor);
    var nak := Complain(r.h, prev, packet, draw.nakId);
    Stepped(nak.h, r.outs + nak.outs)
  }

  function Recv(h: Handler, packet: Packet, from: Addr, draw: Draw): Stepped {
    var h' := h.(rx := h.rx[from := packet.s]);
    match packet.p
    case H(handshake) => Stepped(h', [ToHandshaker(from, handshake, packet.id)])
    case B(box) =>
      var m := Decrypt(h.keys, packet.id, box);
      if m.None? then Stepped(h', []) else OnDecrypted(h', Get(h.rx, from), packet, from, m.value, draw)
  }

  // ---------------------------------------------------------------- the timer

  predicate LowLossAt(h: Handler, a: Addr) {
    a in h.tx && LowLoss(GetOr(h.naks, a), h.tx[a])
  }

  function UpdateRateControl(h: Handler): Handler {
    h.(delay := map a | a in h.delay.Keys + h.tx.Keys && (a in h.delay || LowLossAt(h, a)) ::
                  if LowLossAt(h, a) then OnTick(Get(h.delay, a)) else h.delay[a])
  }

  // ---------------------------------------------------------------- all messages to the actor

  datatype Input =
    | Start
    | Send(to: Addr, payload: Payload)
    | Receive(from: Addr, packet: Packet, draw: Draw)
    | SetBroadcastHandler(listens: bool)
    | KeysUpdated(keys: Keys)
    | SendMessage(target: Uuid, message: Message)
    | SubscribersUpdated(subscribers: seq<Uuid>)
    | SendToSubscribers(message: Message)
    | RateControl

  function HandleInput(h: Handler, input: Input): Stepped {
    match input
    case Start => Stepped(h.(started := true), [])
    case Send(to, payload) => Transmit(h, payload, to)
    case Receive(from, packet, draw) => Recv(h, packet, from, draw)
    case SetBroadcastHandler(listens) => Stepped(h.(listens := listens), [])
    case KeysUpdated(keys) => Stepped(h.(keys := keys), [])
    case SendMessage(target, message) => SendMessages(h, [target], message)
    case SubscribersUpdated(subscribers) => Stepped(h.(subscribers := subscribers), [])
    case SendToSubscribers(message) => Forward(h, message)
    case RateControl => Stepped(UpdateRateControl(h), [])
  }

  function Run(h: Handler, inputs: seq<Input>): Stepped {
    if inputs == [] then Stepped(h, [])
    else
      var before := Run(h, inputs[..|inputs| - 1]);
      var last := HandleInput(before.h, inputs[|inputs| - 1]);
      Stepped(last.h, before.outs + last.outs)
  }

  function Fresh(me: Uuid): Handler {
    Handler(me, false, false, map[], map[], map[], map[], map[], [], [])
  }

  // ---------------------------------------------------------------- what sending amounts to

  /** The positions of the targets whose keys are known. */
  function KeyedAt(keys: Keys, targets: seq<Uuid>): set<int> {
    set i | 0 <= i < |targets| && targets[i] in keys
  }

  /** Those of them with this link. */
  function LinkedAt(keys: Keys, targets: seq<Uuid>, link: Link): set<int> {
    set i | 0 <= i < |targets| && targets[i] in keys && keys[targets[i]] == link
  }

  lemma {:induction false} KeyedAtGrows(keys: Keys, targets: seq<Uuid>)
    requires targets != []
    ensures var n := |targets| - 1;
            |KeyedAt(keys, targets)| == |KeyedAt(keys, targets[..n])| + (if targets[n] in keys then 1 else 0)
  {
    var n := |targets| - 1;
    if targets[n] in keys {
      assert KeyedAt(keys, targets) == KeyedAt(keys, targets[..n]) + {n};
    } else {
      assert KeyedAt(keys, targets) == KeyedAt(keys, targets[..n]);
    }
  }

  lemma {:induction false} LinkedAtGrows(keys: Keys, targets: seq<Uuid>, link: Link)
    requires targets != []
    ensures var n := |targets| - 1;
            |LinkedAt(keys, targets, link)|
            == |LinkedAt(keys, targets[..n], link)| + (if targets[n] in keys && keys[targets[n]] == link then 1 else 0)
  {
    var n := |targets| - 1;
    if targets[n] in keys && keys[targets[n]] == link {
      assert LinkedAt(keys, targets, link) == LinkedAt(keys, targets[..n], link) + {n};
    } else {
      assert LinkedAt(keys, targets, link) == LinkedAt(keys, targets[..n], link);
    }
  }

  /** No target whose keys are known is left out, and none counts twice. */
  lemma {:induction false} LinksCounted(keys: Keys, targets: seq<Uuid>, link: Link)
    ensures multiset(Links(keys, targets))[link] == |LinkedAt(keys, targets, link)|
  {
    if targets == [] {
      assert LinkedAt(keys, targets, link) == {};
    } else {
      hide LinkedAt;
      LinksCounted(keys, targets[..|targets| - 1], link);
      LinkedAtGrows(keys, targets, link);
    }
  }

  lemma {:induction false} LinksAreAll(keys: Keys, targets: seq<Uuid>)
    ensures |Links(keys, targets)| == |KeyedAt(keys, targets)|
  {
    if targets == [] {
      assert KeyedAt(keys, targets) == {};
    } else {
      hide KeyedAt;
      LinksAreAll(keys, targets[..|targets| - 1]);
      KeyedAtGrows(keys, targets);
    }
  }

  /** The link of a target stands behind those of the targets before it whose keys are known. */
  lemma {:induction false} LinksInOrder(keys: Keys, targets: seq<Uuid>, i: nat)
    requires i < |targets| && targets[i] in keys
    ensures var k := |KeyedAt(keys, targets[..i])|;
            k < |Links(keys, targets)| && Links(keys, targets)[k] == keys[targets[i]]
  {
    var n := |targets| - 1;
    if i == n {
      LinksAreAll(keys, targets[..n]);
    } else {
      assert targets[..n][..i] == targets[..i];
      LinksInOrder(keys, targets[..n], i);
    }
  }

  lemma {:induction false} LinksAreKeyed(keys: Keys, targets: seq<Uuid>, link: Link)
    ensures link in Links(keys, targets) <==> exists t :: t in targets && t in keys && keys[t] == link
  {
    LinksCounted(keys, targets, link);
    if link in Links(keys, targets) {
      assert link in multiset(Links(keys, targets));
      assert LinkedAt(keys, targets, link) != {};
      var i :| i in LinkedAt(keys, targets, link);
      assert targets[i] in targets;
    }
    if t :| t in targets && t in keys && keys[t] == link {
      var i :| 0 <= i < |targets| && targets[i] == t;
      assert i in LinkedAt(keys, targets, link);
      assert link in multiset(Links(keys, targets));
    }
  }

  lemma {:induction false} TransmitKeeps(h: Handler, parcels: seq<Parcel>)
    ensures TransmitAll(h, parcels).h == h.(tx := TransmitAll(h, parcels).h.tx)
  {
    if parcels != [] { TransmitKeeps(h, parcels[..|parcels| - 1]); }
  }

  /** Every parcel goes out once, in order, to its address. */
  lemma {:induction false} TransmitFacts(h: Handler, parcels: seq<Parcel>)
    requires h.started
    ensures var r := TransmitAll(h, parcels);
            && r.h == h.(tx := r.h.tx) && |r.outs| == |parcels|
            && forall i :: 0 <= i < |parcels| ==>
                 && r.outs[i].Wire? && r.outs[i].to == parcels[i].to
                 && r.outs[i].packet.p == parcels[i].payload && r.outs[i].packet.id == h.me
  {
    if parcels != [] {
      TransmitFacts(h, parcels[..|parcels| - 1]);
    }
  }

  /** The packets for address `a`. */
  function PacketsTo(outs: seq<Out>, a: Addr): seq<Packet> {
    if outs == [] then []
    else
      var last := outs[|outs| - 1];
      PacketsTo(outs[..|outs| - 1], a) + if last.Wire? && last.to == a then [last.packet] else []
  }

  lemma {:induction false} PacketsAppend(x: seq<Out>, y: seq<Out>, a: Addr)
    ensures PacketsTo(x + y, a) == PacketsTo(x, a) + PacketsTo(y, a)
  {
    if y == [] {
      assert x + y == x;
    } else {
      assert (x + y)[..|x + y| - 1] == x + y[..|y| - 1];
      PacketsAppend(x, y[..|y| - 1], a);
    }
  }

  /** The packets for `a` carry consecutive numbers, modulo 2^32, from the counter before to the one after;
      there is a counter only for an address that something was sent to. */
  ghost predicate Numbered(before: map<Addr, u32>, after: map<Addr, u32>, me: Uuid, outs: seq<Out>, a: Addr) {
    var packets := PacketsTo(outs, a);
    && GetOr(after, a) == Wrap(GetOr(before, a) + |packets|) && (a in after <==> a in before || packets != [])
    && forall i :: 0 <= i < |packets| ==> packets[i].s == Wrap(GetOr(before, a) + i + 1) && packets[i].id == me
  }

  lemma WrapTwice(x: u32, n: nat, k: nat)
    ensures Wrap(Wrap(x + n) + k) == Wrap(x + (n + k)) && Wrap(x) == x
  {
  }

  lemma {:induction false} NumberedThen(t0: map<Addr, u32>, t1: map<Addr, u32>, t2: map<Addr, u32>, me: Uuid,
                                        x: seq<Out>, y: seq<Out>, a: Addr)
    requires Numbered(t0, t1, me, x, a) && Numbered(t1, t2, me, y, a)
    ensures Numbered(t0, t2, me, x + y, a)
  {
    hide Wrap;
    PacketsAppend(x, y, a);
    var n, c := |PacketsTo(x, a)|, GetOr(t0, a);
    WrapTwice(c, n, |PacketsTo(y, a)|);
    forall i | n <= i < n + |PacketsTo(y, a)| ensures PacketsTo(x + y, a)[i].s == Wrap(c + i + 1) {
      assert PacketsTo(x + y, a)[i] == PacketsTo(y, a)[i - n];
      WrapTwice(c, n, i - n + 1);
    }
  }

  lemma {:induction false} NothingNumbered(t: map<Addr, u32>, me: Uuid, outs: seq<Out>, a: Addr)
    requires forall i :: 0 <= i < |outs| ==> !outs[i].Wire?
    ensures Numbered(t, t, me, outs, a)
  {
    if outs != [] { NothingNumbered(t, me, outs[..|outs| - 1], a); }
  }

  lemma {:induction false} TransmitNumbered(h: Handler, payload: Payload, to: Addr, a: Addr)
    ensures var r := Transmit(h, payload, to);
            Numbered(h.tx, r.h.tx, h.me, r.outs, a)
  {
    var outs := Transmit(h, payload, to).outs;
    if outs != [] { assert outs[..0] == []; }
  }

  lemma {:induction false} TransmitAllNumbered(h: Handler, parcels: seq<Parcel>, a: Addr)
    ensures var r := TransmitAll(h, parcels);
            Numbered(h.tx, r.h.tx, h.me, r.outs, a)
  {
    if parcels == [] {
      NothingNumbered(h.tx, h.me, [], a);
    } else {
      hide Numbered, Transmit;
      var before, last := TransmitAll(h, parcels[..|parcels| - 1]), parcels[|parcels| - 1];
      TransmitKeeps(h, parcels[..|parcels| - 1]);
      TransmitAllNumbered(h, parcels[..|parcels| - 1], a);
      TransmitNumbered(before.h, last.payload, last.to, a);
      NumberedThen(h.tx, before.h.tx, Transmit(before.h, last.payload, last.to).h.tx, h.me, before.outs,
                   Transmit(before.h, last.payload, last.to).outs, a);
    }
  }

  lemma {:induction false} OnMessageNumbered(h: Handler, from: Addr, sender: Uuid, m: Message, factor: Factor, a: Addr)
    ensures var r := OnMessage(h, from, sender, m, factor);
            Numbered(h.tx, r.h.tx, h.me, r.outs, a)
  {
    hide Numbered, TransmitAll, Parcels;
    var sent := Forward(h, m);
    TransmitAllNumbered(h.(puts := h.puts + [m.id]), Parcels(Links(h.keys, h.subscribers), m), a);
    match m.body
    case Broadcast(data) =>
      var first := if h.listens then [ToApplication(data)] else [];
      NothingNumbered(h.tx, h.me, first, a);
      NumberedThen(h.tx, h.tx, sent.h.tx, h.me, first, sent.outs, a);
    case Request(request) =>
      NothingNumbered(sent.h.tx, h.me, [ToPeerManager(sender, request)], a);
      NumberedThen(h.tx, sent.h.tx, sent.h.tx, h.me, sent.outs, [ToPeerManager(sender, request)], a);
    case _ => NothingNumbered(h.tx, h.me, [], a);
  }

  lemma {:induction false} ComplainNumbered(h: Handler, prev: Option<u32>, packet: Packet, nakId: Uuid, a: Addr)
    ensures var r := Complain(h, prev, packet, nakId);
            Numbered(h.tx, r.h.tx, h.me, r.outs, a)
  {
    hide Numbered, TransmitAll, Parcels;
    if prev.Some? {
      var nak := NakFor(prev.value, packet.s, nakId);
      TransmitAllNumbered(h.(puts := h.puts + [nak.id]), Parcels(Links(h.keys, [packet.id]), nak), a);
    } else {
      NothingNumbered(h.tx, h.me, [], a);
    }
  }

  lemma {:induction false} RecvNumbered(h: Handler, packet: Packet, from: Addr, draw: Draw, a: Addr)
    ensures var r := Recv(h, packet, from, draw);
            Numbered(h.tx, r.h.tx, h.me, r.outs, a)
  {
    hide Numbered, OnMessage, Complain, Seen, Decrypt;
    var m, prev, h' := Opened(h, packet), Get(h.rx, from), h.(rx := h.rx[from := packet.s]);
    if m.Some? {
      NothingNumbered(h'.tx, h'.me, [], a);
      OnMessageNumbered(h', from, packet.id, m.value, draw.factor, a);
      OnMessageKeeps(h', from, packet.id, m.value, draw.factor);
      var r := if Seen(h'.puts, m.value.id) then Stepped(h', [])
            else OnMessage(h', from, packet.id, m.value, draw.factor);
      ComplainNumbered(r.h, prev, packet, draw.nakId, a);
      NumberedThen(h.tx, r.h.tx, Complain(r.h, prev, packet, draw.nakId).h.tx, h.me, r.outs,
                   Complain(r.h, prev, packet, draw.nakId).outs, a);
    } else {
      NothingNumbered(h.tx, h.me, Recv(h, packet, from, draw).outs, a);
    }
  }

  /** Whatever the handler is given, the packets it sends to an address in that step continue its numbers. */
  lemma {:induction false} HandleNumbered(h: Handler, input: Input, a: Addr)
    ensures var r := HandleInput(h, input);
            Numbered(h.tx, r.h.tx, h.me, r.outs, a)
  {
    hide Numbered, Recv, TransmitAll, Transmit, Parcels;
    match input
    case Send(to, payload) => TransmitNumbered(h, payload, to, a);
    case Receive(from, packet, draw) => RecvNumbered(h, packet, from, draw, a);
    case SendMessage(target, m) =>
      TransmitAllNumbered(h.(puts := h.puts + [m.id]), Parcels(Links(h.keys, [target]), m), a);
    case SendToSubscribers(m) =>
      TransmitAllNumbered(h.(puts := h.puts + [m.id]), Parcels(Links(h.keys, h.subscribers), m), a);
    case _ => NothingNumbered(h.tx, h.me, [], a);
  }

  // ---------------------------------------------------------------- what receiving leaves alone

  predicate Forwardable(m: Message) {
    m.body.Broadcast? || m.body.Request?
  }

  lemma {:induction false} OnMessageKeeps(h: Handler, from: Addr, sender: Uuid, m: Message, factor: Factor)
    ensures var r := OnMessage(h, from, sender, m, factor).h;
            && r == Handler(h.me, h.started, h.listens, r.tx, h.rx, r.naks, r.delay, h.keys, h.subscribers, r.puts)
            && r.puts == (if Forwardable(m) then h.puts + [m.id] + [m.id] else h.puts)
            && r.delay == (if m.body.Nak? then h.delay[from := OnNak(Get(h.delay, from), factor)] else h.delay)
            && r.naks == (if m.body.Nak?
                          then h.naks[from := WrapAdd(GetOr(h.naks, from), WrapSub(m.body.end, m.body.start))]
                          else h.naks)
  {
    hide ForwardAndRemember, OnNak, WrapAdd, WrapSub;
    ForwardKeeps(h, m);
  }

  lemma {:induction false} ForwardKeeps(h: Handler, m: Message)
    ensures var r := ForwardAndRemember(h, m).h;
            r == Handler(h.me, h.started, h.listens, r.tx, h.rx, h.naks, h.delay, h.keys, h.subscribers,
                         h.puts + [m.id] + [m.id])
  {
    hide TransmitAll, Parcels, Links;
    TransmitKeeps(h.(puts := h.puts + [m.id]), Parcels(Links(h.keys, h.subscribers), m));
  }

  lemma {:induction false} ComplainKeeps(h: Handler, prev: Option<u32>, packet: Packet, nakId: Uuid)
    ensures var r := Complain(h, prev, packet, nakId).h;
            && r == h.(tx := r.tx, puts := r.puts)
            && r.puts == (if prev.Some? then h.puts + [nakId] else h.puts)
  {
    if prev.Some? {
      TransmitKeeps(h.(puts := h.puts + [nakId]),
                    Parcels(Links(h.keys, [packet.id]), NakFor(prev.value, packet.s, nakId)));
    }
  }

  /** The message inside a packet, if this handler can open it. */
  function Opened(h: Handler, packet: Packet): Option<Message> {
    if packet.p.B? then Decrypt(h.keys, packet.id, packet.p.box) else None
  }

  /** Everything a received packet does to the state, except to the transmit counters. */
  lemma {:induction false} RecvKeeps(h: Handler, packet: Packet, from: Addr, draw: Draw)
    ensures var (r, m, prev) := (Recv(h, packet, from, draw).h, Opened(h, packet), Get(h.rx, from));
            var unseen := m.Some? && !Seen(h.puts, m.value.id);
            && r == Handler(h.me, h.started, h.listens, r.tx, h.rx[from := packet.s], r.naks, r.delay,
                            h.keys, h.subscribers, r.puts)
            && r.puts == h.puts + (if unseen && Forwardable(m.value) then [m.value.id] + [m.value.id] else [])
                                + (if m.Some? && prev.Some? then [draw.nakId] else [])
            && r.delay == (if unseen && m.value.body.Nak?
                           then h.delay[from := OnNak(Get(h.delay, from), draw.factor)] else h.delay)
            && r.naks == (if unseen && m.value.body.Nak?
                          then var missed := WrapSub(m.value.body.end, m.value.body.start);
                               h.naks[from := WrapAdd(GetOr(h.naks, from), missed)]
                          else h.naks)
  {
    hide OnMessage, Complain, Seen, Decrypt;
    var m, h' := Opened(h, packet), h.(rx := h.rx[from := packet.s]);
    if m.Some? {
      OnMessageKeeps(h', from, packet.id, m.value, draw.factor);
      var r := if Seen(h'.puts, m.value.id) then Stepped(h', [])
            else OnMessage(h', from, packet.id, m.value, draw.factor);
      ComplainKeeps(r.h, Get(h.rx, from), packet, draw.nakId);
    }
  }

  // ---------------------------------------------------------------- what receiving sends

  /** A sealed message on its way, without the sequence number of its packet. */
  datatype Letter = Letter(to: Addr, id: Uuid, box: SealedBox)

  function Letters(outs: seq<Out>): seq<Letter> {
    if outs == [] then []
    else
      var last := outs[|outs| - 1];
      Letters(outs[..|outs| - 1])
      + if last.Wire? && last.packet.p.B? then [Letter(last.to, last.packet.id, last.packet.p.box)] else []
  }

  /** `m` sealed for each of these. */
  function Mail(links: seq<Link>, me: Uuid, m: Message): seq<Letter> {
    seq(|links|, i requires 0 <= i < |links| => Letter(links[i].addr, me, Encrypt(links[i], m)))
  }

  lemma {:induction false} LettersAppend(a: seq<Out>, b: seq<Out>)
    ensures Letters(a + b) == Letters(a) + Letters(b)
  {
    if b == [] {
      assert a + b == a;
    } else {
      assert (a + b)[..|a + b| - 1] == a + b[..|b| - 1];
      LettersAppend(a, b[..|b| - 1]);
    }
  }

  lemma {:induction false} OneLetter(h: Handler, box: SealedBox, to: Addr)
    requires h.started
    ensures Letters(Transmit(h, B(box), to).outs) == [Letter(to, h.me, box)]
  {
    assert Transmit(h, B(box), to).outs[..0] == [];
  }

  lemma {:induction false} MailIsSent(h: Handler, links: seq<Link>, m: Message)
    requires h.started
    ensures Letters(TransmitAll(h, Parcels(links, m)).outs) == Mail(links, h.me, m)
  {
    hide Encrypt, Transmit;
    if links != [] {
      var before, last := links[..|links| - 1], links[|links| - 1];
      var sent := TransmitAll(h, Parcels(before, m));
      MailIsSent(h, before, m);
      TransmitFacts(h, Parcels(before, m));
      assert Parcels(links, m)[..|links| - 1] == Parcels(before, m);
      OneLetter(sent.h, Encrypt(last, m), last.addr);
      LettersAppend(sent.outs, Transmit(sent.h, B(Encrypt(last, m)), last.addr).outs);
      assert Mail(links, h.me, m) == Mail(before, h.me, m) + [Letter(last.addr, h.me, Encrypt(last, m))];
    }
  }

  /** Sending means: one letter for every target whose keys are known, in the order of the targets, sealed for
      that target, addressed to it and signed with the node's own identifier; and nothing for anybody else. */
  lemma {:induction false} EveryKeyedTargetIsSent(h: Handler, targets: seq<Uuid>, m: Message)
    requires h.started
    ensures var letters := Letters(SendMessages(h, targets, m).outs);
            && |letters| == |KeyedAt(h.keys, targets)|
            && (forall i: nat :: i < |targets| && targets[i] in h.keys ==>
                  var k := |KeyedAt(h.keys, targets[..i])|;
                  && k < |letters|
                  && letters[k] == Letter(h.keys[targets[i]].addr, h.me, Encrypt(h.keys[targets[i]], m)))
            && (forall letter :: letter in letters ==> exists t ::
                  t in targets && t in h.keys && letter == Letter(h.keys[t].addr, h.me, Encrypt(h.keys[t], m)))
  {
    hide Links, TransmitAll, Letters, Parcels, Encrypt, KeyedAt;
    var links := Links(h.keys, targets);
    MailIsSent(h.(puts := h.puts + [m.id]), links, m);
    LinksAreAll(h.keys, targets);
    forall i: nat | i < |targets| && targets[i] in h.keys
      ensures var k := |KeyedAt(h.keys, targets[..i])|;
              k < |links| && links[k] == h.keys[targets[i]]
    {
      LinksInOrder(h.keys, targets, i);
    }
    forall letter | letter in Mail(links, h.me, m)
      ensures exists t :: t in targets && t in h.keys && letter == Letter(h.keys[t].addr, h.me, Encrypt(h.keys[t], m))
    {
      var i :| 0 <= i < |links| && Mail(links, h.me, m)[i] == letter;
      LinksAreKeyed(h.keys, targets, links[i]);
    }
  }

  lemma {:induction false} OnMessageSends(h: Handler, from: Addr, sender: Uuid, m: Message, factor: Factor)
    requires h.started
    ensures Letters(OnMessage(h, from, sender, m, factor).outs)
         == if Forwardable(m) then Mail(Links(h.keys, h.subscribers), h.me, m) else []
  {
    var sent := Forward(h, m).outs;
    MailIsSent(h.(puts := h.puts + [m.id]), Links(h.keys, h.subscribers), m);
    if m.body.Broadcast? { LettersAppend(if h.listens then [ToApplication(m.body.data)] else [], sent); }
    if m.body.Request? { LettersAppend(sent, [ToPeerManager(sender, m.body.request)]); }
  }

  /** A received packet makes the handler forward an unseen broadcast or request to its subscribers,
      and complain to the sender about the gap before it; it sends nothing else. */
  lemma {:induction false} RecvSends(h: Handler, packet: Packet, from: Addr, draw: Draw)
    requires h.started
    ensures var (m, prev) := (Opened(h, packet), Get(h.rx, from));
            Letters(Recv(h, packet, from, draw).outs)
            == (if m.Some? && !Seen(h.puts, m.value.id) && Forwardable(m.value)
                then Mail(Links(h.keys, h.subscribers), h.me, m.value) else [])
             + (if m.Some? && prev.Some?
                then Mail(Links(h.keys, [packet.id]), h.me, NakFor(prev.value, packet.s, draw.nakId)) else [])
  {
    hide OnMessage, Seen, Decrypt, Mail;
    var m, prev, h' := Opened(h, packet), Get(h.rx, from), h.(rx := h.rx[from := packet.s]);
    if m.Some? {
      OnMessageKeeps(h', from, packet.id, m.value, draw.factor);
      OnMessageSends(h', from, packet.id, m.value, draw.factor);
      var r := if Seen(h'.puts, m.value.id) then Stepped(h', [])
            else OnMessage(h', from, packet.id, m.value, draw.factor);
      if prev.Some? {
        MailIsSent(r.h.(puts := r.h.puts + [draw.nakId]), Links(r.h.keys, [packet.id]),
                   NakFor(prev.value, packet.s, draw.nakId));
      }
      LettersAppend(r.outs, Complain(r.h, prev, packet, draw.nakId).outs);
    }
  }

  /** Whatever goes on the wire is a sealed message, and nothing does before the socket is open. */
  ghost predicate OnlyBoxes(started: bool, outs: seq<Out>) {
    forall i :: 0 <= i < |outs| && outs[i].Wire? ==> started && outs[i].packet.p.B?
  }

  lemma {:induction false} BoxesAreSent(h: Handler, links: seq<Link>, m: Message)
    ensures OnlyBoxes(h.started, TransmitAll(h, Parcels(links, m)).outs)
  {
    hide Encrypt;
    if links != [] {
      var before := links[..|links| - 1];
      BoxesAreSent(h, before, m);
      TransmitKeeps(h, Parcels(before, m));
      assert Parcels(links, m)[..|links| - 1] == Parcels(before, m);
    }
  }

  /** A received packet never makes the handler send anything but letters, and none before it was started. */
  lemma {:induction false} RecvSendsBoxes(h: Handler, packet: Packet, from: Addr, draw: Draw)
    ensures OnlyBoxes(h.started, Recv(h, packet, from, draw).outs)
  {
    hide Seen, Decrypt, TransmitAll, Parcels, Links;
    var m, prev, h' := Opened(h, packet), Get(h.rx, from), h.(rx := h.rx[from := packet.s]);
    if m.Some? {
      OnMessageKeeps(h', from, packet.id, m.value, draw.factor);
      BoxesAreSent(h'.(puts := h'.puts + [m.value.id]), Links(h'.keys, h'.subscribers), m.value);
      var r := if Seen(h'.puts, m.value.id) then Stepped(h', [])
            else OnMessage(h', from, packet.id, m.value, draw.factor);
      if prev.Some? {
        BoxesAreSent(r.h.(puts := r.h.puts + [draw.nakId]), Links(r.h.keys, [packet.id]),
                     NakFor(prev.value, packet.s, draw.nakId));
      }
    }
  }

  /** What goes to the handshaker, the peer manager and the application, in order. */
  function HandOvers(outs: seq<Out>): seq<Out> {
    if outs == [] then []
    else HandOvers(outs[..|outs| - 1]) + if outs[|outs| - 1].Wire? then [] else [outs[|outs| - 1]]
  }

  /** The packet opens to a broadcast or request that was not seen before. */
  predicate Takes(h: Handler, packet: Packet) {
    Opened(h, packet).Some? && !Seen(h.puts, Opened(h, packet).value.id) && Forwardable(Opened(h, packet).value)
  }

  lemma {:induction false} HandOversAppend(a: seq<Out>, b: seq<Out>)
    ensures HandOvers(a + b) == HandOvers(a) + HandOvers(b)
  {
    if b == [] {
      assert a + b == a;
    } else {
      assert (a + b)[..|a + b| - 1] == a + b[..|b| - 1];
      HandOversAppend(a, b[..|b| - 1]);
    }
  }

  lemma HandOversOne(out: Out)
    ensures HandOvers([]) == [] && HandOvers([out]) == if out.Wire? then [] else [out]
  {
    assert [out][..0] == [];
  }

  lemma {:induction false} OnlyWires(h: Handler, parcels: seq<Parcel>)
    ensures HandOvers(TransmitAll(h, parcels).outs) == []
  {
    if parcels != [] {
      var before, last := TransmitAll(h, parcels[..|parcels| - 1]), parcels[|parcels| - 1];
      OnlyWires(h, parcels[..|parcels| - 1]);
      HandOversAppend(before.outs, Transmit(before.h, last.payload, last.to).outs);
      HandOversOne(Wire(last.to, Packet(WrapAdd(GetOr(before.h.tx, last.to), 1), before.h.me, last.payload)));
    }
  }

  lemma {:induction false} OnMessageHandsOver(h: Handler, from: Addr, sender: Uuid, m: Message, factor: Factor)
    ensures HandOvers(OnMessage(h, from, sender, m, factor).outs)
         == match m.body
            case Broadcast(data) => if h.listens then [ToApplication(data)] else []
            case Request(request) => [ToPeerManager(sender, request)]
            case _ => []
  {
    hide TransmitAll, Parcels, HandOvers;
    OnlyWires(h.(puts := h.puts + [m.id]), Parcels(Links(h.keys, h.subscribers), m));
    var sent := Forward(h, m).outs;
    HandOversOne(ToApplication([]));
    match m.body
    case Broadcast(data) =>
      HandOversOne(ToApplication(data));
      HandOversAppend(if h.listens then [ToApplication(data)] else [], sent);
    case Request(request) =>
      HandOversOne(ToPeerManager(sender, request));
      HandOversAppend(sent, [ToPeerManager(sender, request)]);
    case _ =>
  }

  lemma {:induction false} ComplainHandsOver(h: Handler, prev: Option<u32>, packet: Packet, nakId: Uuid)
    ensures HandOvers(Complain(h, prev, packet, nakId).outs) == []
  {
    if prev.Some? {
      var nak := NakFor(prev.value, packet.s, nakId);
      OnlyWires(h.(puts := h.puts + [nakId]), Parcels(Links(h.keys, [packet.id]), nak));
    }
  }

  /** What a received packet makes the handler hand over, exactly: a handshake to the handshaker; the data
      of an unseen broadcast to the application, if it listens; an unseen request to the peer
      manager, as coming from whoever sent the packet; and nothing else. */
  lemma {:induction false} RecvHandsOver(h: Handler, packet: Packet, from: Addr, draw: Draw)
    ensures HandOvers(Recv(h, packet, from, draw).outs)
         == match packet.p
            case H(handshake) => [ToHandshaker(from, handshake, packet.id)]
            case B(box) =>
              var m := Decrypt(h.keys, packet.id, box);
              if m.None? || Seen(h.puts, m.value.id) then []
              else match m.value.body
                case Broadcast(data) => if h.listens then [ToApplication(data)] else []
                case Request(request) => [ToPeerManager(packet.id, request)]
                case _ => []
  {
    hide Seen, Decrypt, OnMessage, Complain, HandOvers;
    var m, prev, h' := Opened(h, packet), Get(h.rx, from), h.(rx := h.rx[from := packet.s]);
    HandOversOne(if packet.p.H? then ToHandshaker(from, packet.p.handshake, packet.id) else ToApplication([]));
    if m.Some? {
      OnMessageHandsOver(h', from, packet.id, m.value, draw.factor);
      var r := if Seen(h'.puts, m.value.id) then Stepped(h', [])
            else OnMessage(h', from, packet.id, m.value, draw.factor);
      ComplainHandsOver(r.h, prev, packet, draw.nakId);
      HandOversAppend(r.outs, Complain(r.h, prev, packet, draw.nakId).outs);
    }
  }

  /** Nothing but a received packet makes the handler hand anything over: not even the node's own broadcasts. */
  lemma {:induction false} OnlyReceptionsHandOver(h: Handler, input: Input)
    requires !input.Receive?
    ensures HandOvers(HandleInput(h, input).outs) == []
  {
    hide TransmitAll, Parcels, HandOvers;
    HandOversOne(ToApplication([]));
    match input
    case Send(to, payload) => HandOversOne(Wire(to, Packet(WrapAdd(GetOr(h.tx, to), 1), h.me, payload)));
    case SendMessage(target, m) => OnlyWires(h.(puts := h.puts + [m.id]), Parcels(Links(h.keys, [target]), m));
    case SendToSubscribers(m) => OnlyWires(h.(puts := h.puts + [m.id]), Parcels(Links(h.keys, h.subscribers), m));
    case _ =>
  }

  /** The application hears of a broadcast before anybody it is forwarded to. */
  lemma {:induction false} ApplicationFirst(h: Handler, packet: Packet, from: Addr, draw: Draw)
    requires Takes(h, packet) && h.listens && Opened(h, packet).value.body.Broadcast?
    ensures var outs := Recv(h, packet, from, draw).outs;
            outs != [] && outs[0] == ToApplication(Opened(h, packet).value.body.data)
  {
    hide Seen, Decrypt, TransmitAll;
  }

  /** The peer manager hears of a request after it went out to every subscriber whose keys are known. */
  lemma {:induction false} ManagerAfterForwards(h: Handler, packet: Packet, from: Addr, draw: Draw)
    requires h.started && Takes(h, packet) && Opened(h, packet).value.body.Request?
    ensures var (outs, n) := (Recv(h, packet, from, draw).outs, |KeyedAt(h.keys, h.subscribers)|);
            && n < |outs| && outs[n] == ToPeerManager(packet.id, Opened(h, packet).value.body.request)
            && forall i :: 0 <= i < n ==> outs[i].Wire?
  {
    hide Seen, Decrypt, TransmitAll, Links, KeyedAt, Complain;
    var m := Opened(h, packet).value;
    LinksAreAll(h.keys, h.subscribers);
    TransmitFacts(h.(rx := h.rx[from := packet.s], puts := h.puts + [m.id]), Parcels(Links(h.keys, h.subscribers), m));
  }

  // ---------------------------------------------------------------- the actor

  class PacketHandler {
    const me: Uuid
    var started: bool
    var listens: bool
    var tx: map<Addr, u32>
    var rx: map<Addr, u32>
    var naks: map<Addr, u32>
    var delay: map<Addr, nat>
    var keys: Keys
    var subscribers: seq<Uuid>
    var seen: seq<Uuid>
    ghost var puts: seq<Uuid>

    ghost function State(): Handler
      reads this
    {
      Handler(me, started, listens, tx, rx, naks, delay, keys, subscribers, puts)
    }

    /** The bounded cache is what the whole history of puts leaves in it. */
    ghost predicate Valid()
      reads this
    {
      seen == Lru.Cache(puts, SEEN_CAPACITY)
    }

    constructor (me: Uuid)
      ensures Valid() && State() == Fresh(me)
    {
      this.me := me;
      started, listens, tx, rx, naks, delay := false, false, map[], map[], map[], map[];
      keys, subscribers, seen, puts := map[], [], [], [];
    }

    method PutSeen(id: Uuid)
      requires Valid()
      modifies this`seen, this`puts
      ensures Valid() && State() == old(State()).(puts := old(puts) + [id])
    {
      seen := Lru.Put(seen, id, SEEN_CAPACITY);
      puts := puts + [id];
      assert puts[..|puts| - 1] == old(puts);
    }

    method SendOne(payload: Payload, to: Addr) returns (outs: seq<Out>)
      requires Valid()
      modifies this`tx
      ensures Valid() && Stepped(State(), outs) == Transmit(old(State()), payload, to)
    {
      outs := [];
      if started {
        var s := WrapAdd(GetOr(tx, to), 1);
        tx := tx[to := s];
        outs := [Wire(to, Packet(s, me, payload))];
      }
    }

    method Multisend(parcels: seq<Parcel>) returns (outs: seq<Out>)
      requires Valid()
      modifies this`tx
      ensures Valid() && Stepped(State(), outs) == TransmitAll(old(State()), parcels)
    {
      outs := [];
      for i := 0 to |parcels|
        invariant Stepped(State(), outs) == TransmitAll(old(State()), parcels[..i]) && seen == old(seen)
      {
        assert parcels[..i + 1][..i] == parcels[..i];
        var more := SendOne(parcels[i].payload, parcels[i].to);
        outs := outs + more;
      }
      assert parcels[..|parcels|] == parcels;
    }

    method EncryptAndSendMessages(targets: seq<Uuid>, m: Message) returns (outs: seq<Out>)
      requires Valid()
      modifies this`seen, this`puts, this`tx
      ensures Valid() && Stepped(State(), outs) == SendMessages(old(State()), targets, m)
    {
      PutSeen(m.id);
      var parcels: seq<Parcel> := [];
      for i := 0 to |targets|
        invariant parcels == Parcels(Links(keys, targets[..i]), m)
      {
        assert targets[..i + 1][..i] == targets[..i];
        if targets[i] in keys {
          parcels := parcels + [Parcel(B(Encrypt(keys[targets[i]], m)), keys[targets[i]].addr)];
        }
      }
      assert targets[..|targets|] == targets;
      outs := Multisend(parcels);
    }

    method RecvBroadcast(m: Message, data: Bytes) returns (outs: seq<Out>)
      requires Valid()
      modifies this`seen, this`puts, this`tx
      ensures Valid() && State() == ForwardAndRemember(old(State()), m).h
      ensures outs == (if listens then [ToApplication(data)] else []) + ForwardAndRemember(old(State()), m).outs
    {
      outs := [];
      if listens {
        outs := [ToApplication(data)];
      }
      var sent := EncryptAndSendMessages(subscribers, m);
      PutSeen(m.id);
      outs := outs + sent;
    }

    method RecvPeerRequest(m: Message, sender: Uuid, request: PeerRequest) returns (outs: seq<Out>)
      requires Valid()
      modifies this`seen, this`puts, this`tx
      ensures Valid() && State() == ForwardAndRemember(old(State()), m).h
      ensures outs == ForwardAndRemember(old(State()), m).outs + [ToPeerManager(sender, request)]
    {
      var sent := EncryptAndSendMessages(subscribers, m);
      PutSeen(m.id);
      outs := sent + [ToPeerManager(sender, request)];
    }

    method RecvNak(from: Addr, start: u32, end: u32, factor: Factor)
      requires Valid()
      modifies this`naks, this`delay
      ensures Valid() && State() == OnNakFrom(old(State()), from, start, end, factor)
    {
      var missed := WrapSub(end, start);
      WrapPlus(0, missed);
      if from in naks {
        naks := naks[from := WrapAdd(naks[from], missed)];
      } else {
        naks := naks[from := missed];
      }
      if from in delay {
        delay := delay[from := Stretched(delay[from], factor)];
      } else {
        delay := delay[from := DEFAULT_INTERVAL_NANOS];
      }
    }

    method RecvMessage(from: Addr, sender: Uuid, m: Message, factor: Factor) returns (outs: seq<Out>)
      requires Valid()
      modifies this
      ensures Valid() && Stepped(State(), outs) == OnMessage(old(State()), from, sender, m, factor)
    {
      outs := [];
      match m.body {
        case Broadcast(data) => outs := RecvBroadcast(m, data);
        case Request(request) => outs := RecvPeerRequest(m, sender, request);
        case Frame(_) =>
        case Nak(start, end) => RecvNak(from, start, end, factor);
      }
    }

    method Receive(packet: Packet, from: Addr, draw: Draw) returns (outs: seq<Out>)
      requires Valid()
      modifies this
      ensures Valid() && Stepped(State(), outs) == Recv(old(State()), packet, from, draw)
    {
      outs := [];
      var prev := Get(rx, from);
      rx := rx[from := packet.s];
      match packet.p {
        case H(handshake) =>
          outs := [ToHandshaker(from, handshake, packet.id)];
        case B(box) =>
          var m := Decrypt(keys, packet.id, box);
          if m.Some? {
            if m.value.id !in seen {
              outs := RecvMessage(from, packet.id, m.value, draw.factor);
            }
            if prev.Some? {
              var nak := EncryptAndSendMessages([packet.id], NakFor(prev.value, packet.s, draw.nakId));
              outs := outs + nak;
            }
          }
      }
    }

    /** Everything the actor can be given. */
    method HandleMessage(input: Input) returns (outs: seq<Out>)
      requires Valid()
      modifies this
      ensures Valid() && Stepped(State(), outs) == HandleInput(old(State()), input)
      ensures !input.Receive? ==> HandOvers(outs) == []
    {
      if !input.Receive? { OnlyReceptionsHandOver(State(), input); }
      outs := [];
      match input {
        case Start => started := true;
        case Send(to, payload) => outs := SendOne(payload, to);
        case Receive(from, packet, draw) => outs := Receive(packet, from, draw);
        case SetBroadcastHandler(value) => listens := value;
        case KeysUpdated(value) => keys := value;
        case SendMessage(target, message) => outs := EncryptAndSendMessages([target], message);
        case SubscribersUpdated(value) => subscribers := value;
        case SendToSubscribers(message) => outs := EncryptAndSendMessages(subscribers, message);
        case RateControl => RateControlTick();
      }
    }

    method RateControlTick()
      requires Valid()
      modifies this`delay
      ensures Valid() && State() == UpdateRateControl(old(State()))
    {
      var todo := tx.Keys;
      while todo != {}
        invariant todo <= tx.Keys
        invariant forall a :: a in delay <==> a in old(delay) || (a in tx.Keys - todo && LowLossAt(old(State()), a))
        invariant forall a :: a in delay ==>
                    delay[a] == if a in tx.Keys - todo && LowLossAt(old(State()), a)
                                then OnTick(Get(old(delay), a)) else old(delay)[a]
      {
        var a :| a in todo;
        if LowLoss(GetOr(naks, a), tx[a]) {
          delay := delay[a := OnTick(Get(delay, a))];
        }
        todo := todo - {a};
      }
      assert delay == UpdateRateControl(old(State())).delay;
    }
  }
}
