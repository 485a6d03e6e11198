/** Broadcasts on a network of packet handlers: each one floods the graph of keyed subscribers. */
module FloodNetwork {
  import opened Basics
  import opened Messages
  import opened PacketHandling
  import Flood
  import Lru

  /** A letter on its way from the node at address `from`. */
  datatype Flight = Flight(from: Addr, letter: Letter)

  /** The nodes, what is in flight, and the history: which node took which message, and how many
      copies of the message under study were sent, delivered, made by the network, and lost on
      their way to whom. */
  datatype World = World(
    nodes: map<Addr, Handler>, flights: seq<Flight>, log: seq<(Addr, Uuid)>,
    sent: nat, delivered: nat, repeated: nat, lost: multiset<Addr>)

  datatype Step =
    | Deliver(i: nat, s: u32, draw: Draw)
    | Lose(i: nat)
    | Repeat(i: nat)
    | Local(node: Addr, input: Input)

  function Post(from: Addr, letters: seq<Letter>): seq<Flight> {
    seq(|letters|, i requires 0 <= i < |letters| => Flight(from, letters[i]))
  }

  function Id(f: Flight): Uuid {
    f.letter.box.content.id
  }

  /** The destinations of the copies of message `m`. */
  function Destinations(flights: seq<Flight>, m: Uuid): multiset<Addr> {
    if flights == [] then multiset{}
    else
      var last := flights[|flights| - 1];
      Destinations(flights[..|flights| - 1], m) + if Id(last) == m then multiset{last.letter.to} else multiset{}
  }

  /** What a node may do on its own account while `m` spreads: start other messages, shake hands,
      tick, gain or lose its broadcast handler. Keys and subscribers stay. */
  predicate Unrelated(input: Input, m: Uuid) {
    match input
    case Start => true
    case Send(_, payload) => payload.H?
    case Receive(_, packet, _) => packet.p.H?
    case SendMessage(_, message) => message.id != m
    case SendToSubscribers(message) => message.id != m
    case SetBroadcastHandler(_) => true
    case RateControl => true
    case _ => false
  }

  /** Letters, copies of `m` among them, may be delivered in any order, lost and repeated. Copies of
      `m` arrive before the cache has dropped `m`. Identifiers drawn for NAKs are not `m`. */
  predicate Enabled(w: World, m: Uuid, step: Step) {
    match step
    case Deliver(i, s, draw) =>
      && i < |w.flights| && draw.nakId != m
      && var (f, to) := (w.flights[i], w.flights[i].letter.to);
         Id(f) == m && to in w.nodes && m in w.nodes[to].puts ==> |Lru.Since(w.nodes[to].puts, m)| < 10_000
    case Lose(i) => i < |w.flights|
    case Repeat(i) => i < |w.flights|
    case Local(node, input) => node in w.nodes && Unrelated(input, m)
  }

  function Remove(flights: seq<Flight>, i: nat): seq<Flight>
    requires i < |flights|
  {
    flights[..i] + flights[i + 1..]
  }

  function One(f: Flight, m: Uuid): nat {
    if Id(f) == m then 1 else 0
  }

  function Arriving(f: Flight, s: u32): Packet {
    Packet(s, f.letter.id, B(f.letter.box))
  }

  function Apply(w: World, m: Uuid, step: Step): World
    requires Enabled(w, m, step)
  {
    match step
    case Deliver(i, s, draw) =>
      var f, rest := w.flights[i], Remove(w.flights, i);
      if f.letter.to !in w.nodes then w.(flights := rest, delivered := w.delivered + One(f, m))
      else
        var to, packet := f.letter.to, Arriving(f, s);
        var r := Recv(w.nodes[to], packet, f.from, draw);
        var posted := Post(to, Letters(r.outs));
        World(w.nodes[to := r.h], rest + posted,
              if Takes(w.nodes[to], packet) then w.log + [(to, Id(f))] else w.log,
              w.sent + |Destinations(posted, m)|, w.delivered + One(f, m), w.repeated, w.lost)
    case Lose(i) =>
      var f := w.flights[i];
      w.(flights := Remove(w.flights, i), lost := w.lost + if Id(f) == m then multiset{f.letter.to} else multiset{})
    case Repeat(i) =>
      w.(flights := w.flights + [w.flights[i]], repeated := w.repeated + One(w.flights[i], m))
    case Local(node, input) =>
      var r := HandleInput(w.nodes[node], input);
      var posted := Post(node, Letters(r.outs));
      w.(nodes := w.nodes[node := r.h], flights := w.flights + posted, sent := w.sent + |Destinations(posted, m)|)
  }

  /** `origin` broadcasts a message nobody has heard of. */
  function Broadcasted(w: World, origin: Addr, message: Message): World
    requires origin in w.nodes
  {
    var r := HandleInput(w.nodes[origin], SendToSubscribers(message));
    var posted := Post(origin, Letters(r.outs));
    World(w.nodes[origin := r.h], w.flights + posted, [], |Destinations(posted, message.id)|, 0, 0, multiset{})
  }

  ghost function Exec(w: World, m: Uuid, steps: seq<Step>): Option<World> {
    if steps == [] then Some(w)
    else
      var before := Exec(w, m, steps[..|steps| - 1]);
      if before.Some? && Enabled(before.value, m, steps[|steps| - 1])
      then Some(Apply(before.value, m, steps[|steps| - 1]))
      else None
  }

  // ---------------------------------------------------------------- the graph

  function Targets(links: seq<Link>): seq<Addr> {
    seq(|links|, i requires 0 <= i < |links| => links[i].addr)
  }

  /** The addresses of each node's subscribers whose keys it holds. */
  function Topology(nodes: map<Addr, Handler>): Flood.Graph {
    map a | a in nodes :: Targets(Links(nodes[a].keys, nodes[a].subscribers))
  }

  /** Every node runs, and shares a completed handshake with each subscriber whose keys it holds. */
  ghost predicate Linked(nodes: map<Addr, Handler>) {
    && (forall a :: a in nodes ==> nodes[a].started)
    && (forall a, t :: a in nodes && t in nodes[a].subscribers && t in nodes[a].keys ==>
          LinkedTo(nodes, nodes[a].me, nodes[a].keys[t]))
  }

  /** What node `me` seals for this link can be opened where it arrives. */
  ghost predicate LinkedTo(nodes: map<Addr, Handler>, me: Uuid, link: Link) {
    link.addr in nodes && me in nodes[link.addr].keys && Mirrored(link, nodes[link.addr].keys[me])
  }

  /** Nobody has heard of `m` yet. */
  ghost predicate Unheard(w: World, m: Uuid) {
    && (forall a :: a in w.nodes ==> m !in w.nodes[a].puts)
    && (forall i :: 0 <= i < |w.flights| ==> Id(w.flights[i]) != m)
  }

  // ---------------------------------------------------------------- the graph in terms of the nodes

  /** The node at `a` has a subscriber whose keys it holds at address `b`. */
  ghost predicate Forwards(nodes: map<Addr, Handler>, a: Addr, b: Addr) {
    a in nodes && exists t :: t in nodes[a].subscribers && t in nodes[a].keys && nodes[a].keys[t].addr == b
  }

  ghost predicate IsRoute(nodes: map<Addr, Handler>, route: seq<Addr>) {
    route != [] && forall i :: 0 <= i < |route| - 1 ==> Forwards(nodes, route[i], route[i + 1])
  }

  /** From `a` there is a way to `b` along subscribers whose keys are held. */
  ghost predicate Reaches(nodes: map<Addr, Handler>, a: Addr, b: Addr) {
    exists route :: IsRoute(nodes, route) && route[0] == a && route[|route| - 1] == b
  }

  /** What it takes for each of these nodes to send to all of its subscribers whose keys it holds. */
  function Sends(nodes: map<Addr, Handler>, order: seq<Addr>): nat {
    if order == [] then 0
    else
      var last := order[|order| - 1];
      Sends(nodes, order[..|order| - 1])
      + if last in nodes then |KeyedAt(nodes[last].keys, nodes[last].subscribers)| else 0
  }

  lemma {:induction false} EdgesAre(nodes: map<Addr, Handler>, a: Addr, b: Addr)
    requires a in nodes
    ensures b in Topology(nodes)[a] <==> Forwards(nodes, a, b)
  {
    hide Links;
    var keys, subscribers := nodes[a].keys, nodes[a].subscribers;
    var links := Links(keys, subscribers);
    if b in Topology(nodes)[a] {
      var i :| 0 <= i < |links| && Targets(links)[i] == b;
      LinksAreKeyed(keys, subscribers, links[i]);
    }
    if Forwards(nodes, a, b) {
      var t :| t in subscribers && t in keys && keys[t].addr == b;
      LinksAreKeyed(keys, subscribers, keys[t]);
      var i :| 0 <= i < |links| && links[i] == keys[t];
      assert Targets(links)[i] == b;
    }
  }

  lemma {:induction false} RoutesArePaths(nodes: map<Addr, Handler>, route: seq<Addr>)
    requires route != [] && route[0] in nodes
    ensures IsRoute(nodes, route) <==> Flood.IsPath(Topology(nodes), route)
  {
    hide Topology;
    SameKeys(nodes);
    if IsRoute(nodes, route) {
      forall i | 0 <= i < |route| - 1
        ensures route[i] in nodes && route[i + 1] in Topology(nodes)[route[i]]
      {
        assert Forwards(nodes, route[i], route[i + 1]);
        EdgesAre(nodes, route[i], route[i + 1]);
      }
    }
    if Flood.IsPath(Topology(nodes), route) {
      forall i | 0 <= i < |route| - 1 ensures Forwards(nodes, route[i], route[i + 1]) {
        EdgesAre(nodes, route[i], route[i + 1]);
      }
    }
  }

  lemma SameKeys(nodes: map<Addr, Handler>)
    ensures Topology(nodes).Keys == nodes.Keys
  {
  }

  lemma {:induction false} ReachesIff(nodes: map<Addr, Handler>, a: Addr, b: Addr)
    requires a in nodes
    ensures Reaches(nodes, a, b) <==> Flood.Reachable(Topology(nodes), a, b)
  {
    hide Topology, Forwards;
    if Reaches(nodes, a, b) {
      var route :| IsRoute(nodes, route) && route[0] == a && route[|route| - 1] == b;
      RoutesArePaths(nodes, route);
    }
    if Flood.Reachable(Topology(nodes), a, b) {
      var route :| Flood.IsPath(Topology(nodes), route) && route[0] == a && route[|route| - 1] == b;
      RoutesArePaths(nodes, route);
    }
  }

  lemma {:induction false} CostIs(nodes: map<Addr, Handler>, order: seq<Addr>)
    ensures Flood.Cost(Topology(nodes), order) == Sends(nodes, order)
  {
    hide Links, KeyedAt;
    if order != [] {
      var last := order[|order| - 1];
      CostIs(nodes, order[..|order| - 1]);
      if last in nodes {
        LinksAreAll(nodes[last].keys, nodes[last].subscribers);
      }
    }
  }

  // ---------------------------------------------------------------- from the network to the graph

  function Nodes(log: seq<(Addr, Uuid)>, m: Uuid): seq<Addr> {
    if log == [] then [] else Nodes(log[..|log| - 1], m) + if log[|log| - 1].1 == m then [log[|log| - 1].0] else []
  }

  ghost function Abstract(w: World, m: Uuid, origin: Addr): Flood.State {
    Flood.State([origin] + Nodes(w.log, m), Destinations(w.flights, m), w.lost, w.sent, w.delivered, w.repeated)
  }

  /** What a step means for the flood of message `m`: a step of the flood if it is about a copy, and
      nothing otherwise. */
  ghost function FloodStep(g: Flood.Graph, s: Flood.State, w: World, m: Uuid, step: Step): Flood.State
    requires Enabled(w, m, step)
  {
    if step.Local? || Id(w.flights[step.i]) != m then s
    else
      var to := w.flights[step.i].letter.to;
      match step
      case Deliver(_, _, _) => if to in g then Flood.Deliver(g, s, to) else s
      case Lose(_) => Flood.Lose(s, to)
      case Repeat(_) => Flood.Repeat(s, to)
  }

  lemma {:induction false} DestinationsAppend(a: seq<Flight>, b: seq<Flight>, m: Uuid)
    ensures Destinations(a + b, m) == Destinations(a, m) + Destinations(b, m)
  {
    if b == [] {
      assert a + b == a;
    } else {
      assert (a + b)[..|a + b| - 1] == a + b[..|b| - 1];
      DestinationsAppend(a, b[..|b| - 1], m);
    }
  }

  lemma DestinationsOne(f: Flight, m: Uuid)
    ensures Destinations([f], m) == if Id(f) == m then multiset{f.letter.to} else multiset{}
  {
    assert [f][..0] == [];
  }

  lemma {:induction false} DestinationsRemove(flights: seq<Flight>, i: nat, m: Uuid)
    requires i < |flights|
    ensures Destinations(flights, m) == Destinations(Remove(flights, i), m) + Destinations([flights[i]], m)
  {
    hide Destinations;
    assert flights == flights[..i] + ([flights[i]] + flights[i + 1..]);
    DestinationsAppend(flights[..i], [flights[i]] + flights[i + 1..], m);
    DestinationsAppend([flights[i]], flights[i + 1..], m);
    DestinationsAppend(flights[..i], flights[i + 1..], m);
  }

  lemma {:induction false} NoCopies(flights: seq<Flight>, m: Uuid)
    requires forall i :: 0 <= i < |flights| ==> Id(flights[i]) != m
    ensures Destinations(flights, m) == multiset{}
  {
    if flights != [] { NoCopies(flights[..|flights| - 1], m); }
  }

  lemma {:induction false} PostAppend(from: Addr, a: seq<Letter>, b: seq<Letter>)
    ensures Post(from, a + b) == Post(from, a) + Post(from, b)
  {
  }

  /** Mailing a message means one copy to each target. */
  lemma {:induction false} MailedCopies(from: Addr, links: seq<Link>, me: Uuid, message: Message)
    ensures Destinations(Post(from, Mail(links, me, message)), message.id) == multiset(Targets(links))
  {
    var flights := Post(from, Mail(links, me, message));
    if links != [] {
      var before, last := links[..|links| - 1], links[|links| - 1];
      MailedCopies(from, before, me, message);
      assert flights[..|flights| - 1] == Post(from, Mail(before, me, message));
      assert flights[|flights| - 1] == Flight(from, Letter(last.addr, me, Encrypt(last, message)));
      assert Targets(links) == Targets(before) + [last.addr];
    }
  }

  // ---------------------------------------------------------------- what every step keeps

  ghost predicate SameNet(base: map<Addr, Handler>, nodes: map<Addr, Handler>) {
    && nodes.Keys == base.Keys
    && forall a :: a in base ==>
         && nodes[a].keys == base[a].keys && nodes[a].subscribers == base[a].subscribers
         && nodes[a].me == base[a].me && nodes[a].started == base[a].started
  }

  /** A copy of `message` that its destination can open. */
  ghost predicate CopyOk(base: map<Addr, Handler>, message: Message, f: Flight) {
    && f.letter.to in base && f.letter.box.content == message.OverTheWire()
    && Decrypt(base[f.letter.to].keys, f.letter.id, f.letter.box) == Some(message.OverTheWire())
  }

  ghost predicate CopiesOk(base: map<Addr, Handler>, message: Message, flights: seq<Flight>) {
    forall i :: 0 <= i < |flights| && Id(flights[i]) == message.id ==> CopyOk(base, message, flights[i])
  }

  /** Exactly the nodes that saw the message remember it. */
  ghost predicate Remembered(nodes: map<Addr, Handler>, m: Uuid, order: seq<Addr>) {
    forall a :: a in nodes ==> (m in nodes[a].puts <==> a in order)
  }

  ghost predicate Inv(base: map<Addr, Handler>, message: Message, origin: Addr, w: World) {
    && SameNet(base, w.nodes) && CopiesOk(base, message, w.flights)
    && Remembered(w.nodes, message.id, Abstract(w, message.id, origin).order)
    && Flood.Inv(Topology(base), origin, Abstract(w, message.id, origin))
  }

  lemma WireTwice(message: Message)
    ensures message.OverTheWire().OverTheWire() == message.OverTheWire() && message.OverTheWire().id == message.id
    ensures Forwardable(message.OverTheWire()) == Forwardable(message)
  {
    if message.body.Request? && message.body.request.Peers? {
      var ps := message.body.request.peers;
      assert WirePeers(WirePeers(ps)) == WirePeers(ps);
    }
  }

  lemma {:induction false} SubscribersLinked(base: map<Addr, Handler>, a: Addr, link: Link)
    requires Linked(base) && a in base && link in Links(base[a].keys, base[a].subscribers)
    ensures LinkedTo(base, base[a].me, link)
  {
    LinksAreKeyed(base[a].keys, base[a].subscribers, link);
  }

  /** The graph is closed, because every target is a node. */
  lemma {:induction false} TopologyClosed(base: map<Addr, Handler>)
    requires Linked(base)
    ensures Flood.Closed(Topology(base))
  {
    hide Links;
    forall a, t | a in base && t in Topology(base)[a] ensures t in base {
      var links := Links(base[a].keys, base[a].subscribers);
      var i :| 0 <= i < |links| && Targets(links)[i] == t;
      SubscribersLinked(base, a, links[i]);
    }
  }

  /** What mailing `m` adds concerning `message`: nothing, or copies that can be opened. */
  lemma {:induction false} MailFacts(base: map<Addr, Handler>, a: Addr, me: Uuid, links: seq<Link>, message: Message,
                                     m: Message)
    requires m.id == message.id ==>
               m.OverTheWire() == message.OverTheWire() && forall link :: link in links ==> LinkedTo(base, me, link)
    ensures var posted := Post(a, Mail(links, me, m));
            && CopiesOk(base, message, posted)
            && Destinations(posted, message.id) == (if m.id == message.id then multiset(Targets(links)) else multiset{})
  {
    var posted := Post(a, Mail(links, me, m));
    assert forall i :: 0 <= i < |posted| ==> Id(posted[i]) == m.id && links[i] in links;
    if m.id == message.id {
      MailedCopies(a, links, me, m);
    } else {
      NoCopies(posted, message.id);
    }
  }

  lemma {:induction false} PostBoth(base: map<Addr, Handler>, a: Addr, x: seq<Letter>, y: seq<Letter>, message: Message)
    requires CopiesOk(base, message, Post(a, x)) && CopiesOk(base, message, Post(a, y))
    ensures CopiesOk(base, message, Post(a, x + y))
    ensures Destinations(Post(a, x + y), message.id)
         == Destinations(Post(a, x), message.id) + Destinations(Post(a, y), message.id)
  {
    PostAppend(a, x, y);
    DestinationsAppend(Post(a, x), Post(a, y), message.id);
  }

  lemma NoPost(base: map<Addr, Handler>, a: Addr, message: Message)
    ensures CopiesOk(base, message, Post(a, [])) && Destinations(Post(a, []), message.id) == multiset{}
  {
  }

  /** This packet is the first copy of the message that reaches the node. */
  ghost predicate IsNews(h: Handler, packet: Packet, m: Uuid) {
    Takes(h, packet) && Opened(h, packet).value.id == m
  }

  /** Receiving at node `to`: what it posts concerning `message`. */
  lemma {:induction false} RecvPosts(base: map<Addr, Handler>, to: Addr, h: Handler, packet: Packet, from: Addr,
                                     draw: Draw, message: Message)
    requires Linked(base) && to in base && h.keys == base[to].keys && h.subscribers == base[to].subscribers
    requires h.me == base[to].me && h.started && draw.nakId != message.id
    requires Opened(h, packet).Some? && Opened(h, packet).value.id == message.id ==>
               Opened(h, packet).value == message.OverTheWire()
    ensures var posted := Post(to, Letters(Recv(h, packet, from, draw).outs));
            && CopiesOk(base, message, posted)
            && Destinations(posted, message.id)
               == (if IsNews(h, packet, message.id) then multiset(Topology(base)[to]) else multiset{})
  {
    hide Recv, Letters, Seen, Opened, Linked, CopiesOk, Destinations, Post, Mail, Links, Targets, LinkedTo;
    var m, prev := Opened(h, packet), Get(h.rx, from);
    var links := Links(h.keys, h.subscribers);
    RecvSends(h, packet, from, draw);
    NoPost(base, to, message);
    WireTwice(message);
    forall link | link in links ensures LinkedTo(base, h.me, link) { SubscribersLinked(base, to, link); }
    var forwards := if m.Some? && !Seen(h.puts, m.value.id) && Forwardable(m.value)
                    then Mail(links, h.me, m.value) else [];
    var naks := if m.Some? && prev.Some?
                then Mail(Links(h.keys, [packet.id]), h.me, NakFor(prev.value, packet.s, draw.nakId)) else [];
    if m.Some? {
      MailFacts(base, to, h.me, links, message, m.value);
      if prev.Some? {
        MailFacts(base, to, h.me, Links(h.keys, [packet.id]), message, NakFor(prev.value, packet.s, draw.nakId));
      }
    }
    PostBoth(base, to, forwards, naks, message);
  }

  lemma {:induction false} RecvRemembers(h: Handler, packet: Packet, from: Addr, draw: Draw, m: Uuid)
    requires draw.nakId != m
    ensures m in Recv(h, packet, from, draw).h.puts <==> m in h.puts || IsNews(h, packet, m)
  {
    hide Recv, Seen;
    RecvKeeps(h, packet, from, draw);
  }

  lemma {:induction false} CopiesKept(base: map<Addr, Handler>, message: Message, flights: seq<Flight>, i: nat,
                                      posted: seq<Flight>)
    requires CopiesOk(base, message, flights) && CopiesOk(base, message, posted) && i < |flights|
    ensures CopiesOk(base, message, Remove(flights, i) + posted) && CopiesOk(base, message, flights + posted)
    ensures CopiesOk(base, message, Remove(flights, i)) && CopiesOk(base, message, [flights[i]])
  {
  }

  /** The node at the end of flight `f` and the packet it gets. */
  ghost predicate Arrives(w: World, f: Flight, s: u32, h: Handler, packet: Packet) {
    f.letter.to in w.nodes && h == w.nodes[f.letter.to] && packet == Arriving(f, s)
  }

  /** A copy is news exactly at a node that did not see the message before. */
  lemma {:induction false} NewsIff(base: map<Addr, Handler>, message: Message, order: seq<Addr>, w: World, f: Flight,
                                   s: u32, h: Handler, packet: Packet)
    requires Forwardable(message) && SameNet(base, w.nodes) && Arrives(w, f, s, h, packet)
    requires Remembered(w.nodes, message.id, order)
    requires Id(f) == message.id ==> CopyOk(base, message, f)
    requires Id(f) == message.id && message.id in h.puts ==> |Lru.Since(h.puts, message.id)| < 10_000
    ensures Opened(h, packet).Some? ==> Opened(h, packet).value == f.letter.box.content
    ensures IsNews(h, packet, message.id) <==> Id(f) == message.id && f.letter.to !in order
  {
    WireTwice(message);
    SeenIff(h.puts, message.id);
  }

  lemma RunsAt(base: map<Addr, Handler>, nodes: map<Addr, Handler>, a: Addr)
    requires Linked(base) && SameNet(base, nodes) && a in nodes
    ensures nodes[a].started
  {
  }

  lemma {:induction false} DeliverEffects(base: map<Addr, Handler>, message: Message, order: seq<Addr>, w: World,
                                          f: Flight, s: u32, h: Handler, packet: Packet, draw: Draw)
    requires Linked(base) && SameNet(base, w.nodes) && Arrives(w, f, s, h, packet) && draw.nakId != message.id
    requires IsNews(h, packet, message.id) <==> Id(f) == message.id && f.letter.to !in order
    requires Opened(h, packet).Some? ==> Opened(h, packet).value == f.letter.box.content
    requires Id(f) == message.id ==> CopyOk(base, message, f)
    ensures var r := Recv(h, packet, f.from, draw);
            var (posted, news) := (Post(f.letter.to, Letters(r.outs)), Id(f) == message.id && f.letter.to !in order);
            && SameNet(base, w.nodes[f.letter.to := r.h]) && CopiesOk(base, message, posted)
            && Destinations(posted, message.id) == (if news then multiset(Topology(base)[f.letter.to]) else multiset{})
            && (message.id in r.h.puts <==> message.id in h.puts || news)
            && (Id(f) == message.id ==> (Takes(h, packet) <==> news))
  {
    RunsAt(base, w.nodes, f.letter.to);
    hide Recv, Letters, Seen, Linked, Post, Mail, Forwardable, Targets, Decrypt;
    RecvKeeps(h, packet, f.from, draw);
    RecvPosts(base, f.letter.to, h, packet, f.from, draw, message);
    RecvRemembers(h, packet, f.from, draw, message.id);
  }

  /** Taking flight `i` out and posting what news makes the node post is one step of the flood. */
  lemma {:induction false} AbstractAfter(g: Flood.Graph, m: Uuid, origin: Addr, w: World, w': World, i: nat,
                                         posted: seq<Flight>)
    requires i < |w.flights| && w.flights[i].letter.to in g
    requires var (f, order) := (w.flights[i], Abstract(w, m, origin).order);
             var news := Id(f) == m && f.letter.to !in order;
             && Destinations(posted, m) == (if news then multiset(g[f.letter.to]) else multiset{})
             && w'.flights == Remove(w.flights, i) + posted
             && Nodes(w'.log, m) == (if news then Nodes(w.log, m) + [f.letter.to] else Nodes(w.log, m))
             && w'.sent == w.sent + |Destinations(posted, m)| && w'.delivered == w.delivered + One(f, m)
             && w'.repeated == w.repeated && w'.lost == w.lost
    ensures var (f, abs) := (w.flights[i], Abstract(w, m, origin));
            Abstract(w', m, origin) == if Id(f) == m then Flood.Deliver(g, abs, f.letter.to) else abs
  {
    hide Destinations, Nodes, Remove, Id;
    var f, abs := w.flights[i], Abstract(w, m, origin);
    var rest, more := Destinations(Remove(w.flights, i), m), Destinations(posted, m);
    DestinationsRemove(w.flights, i, m);
    DestinationsOne(f, m);
    DestinationsAppend(Remove(w.flights, i), posted, m);
    assert Id(f) == m ==> rest == abs.inflight - multiset{f.letter.to};
    assert [origin] + (Nodes(w.log, m) + [f.letter.to]) == abs.order + [f.letter.to];
  }

  lemma {:induction false} LogAfter(log: seq<(Addr, Uuid)>, to: Addr, id: Uuid, m: Uuid, taken: bool)
    ensures Nodes(if taken then log + [(to, id)] else log, m)
         == if taken && id == m then Nodes(log, m) + [to] else Nodes(log, m)
  {
    assert (log + [(to, id)])[..|log|] == log;
    assert Nodes(log, m) + [] == Nodes(log, m);
  }

  lemma {:induction false} DeliverKeeps(base: map<Addr, Handler>, message: Message, origin: Addr, w: World, i: nat,
                                        s: u32, draw: Draw)
    requires Linked(base) && Forwardable(message) && Inv(base, message, origin, w)
    requires Enabled(w, message.id, Deliver(i, s, draw)) && w.flights[i].letter.to in w.nodes
    ensures var (w', abs) := (Apply(w, message.id, Deliver(i, s, draw)), Abstract(w, message.id, origin));
            && Inv(base, message, origin, w')
            && Abstract(w', message.id, origin)
               == FloodStep(Topology(base), abs, w, message.id, Deliver(i, s, draw))
  {
    hide Recv, Letters, Seen, Opened, Linked, Post, Mail, Flood.Inv, Lru.Since, CopyOk, Forwardable, Targets, Takes,
         SameNet, CopiesOk, Destinations, Nodes, Remove;
    var f, w', abs := w.flights[i], Apply(w, message.id, Deliver(i, s, draw)), Abstract(w, message.id, origin);
    var to := f.letter.to;
    var h, packet := w.nodes[to], Arriving(f, s);
    var r := Recv(h, packet, f.from, draw);
    SameNodes(base, w.nodes, to);
    CopyAt(base, message, w.flights, i);
    NewsIff(base, message, abs.order, w, f, s, h, packet);
    DeliverEffects(base, message, abs.order, w, f, s, h, packet, draw);
    LogAfter(w.log, to, Id(f), message.id, Takes(h, packet));
    CopiesKept(base, message, w.flights, i, Post(to, Letters(r.outs)));
    AbstractAfter(Topology(base), message.id, origin, w, w', i, Post(to, Letters(r.outs)));
    TopologyClosed(base);
    if Id(f) == message.id {
      InFlight(w.flights, i, message.id);
      Flood.DeliverOk(Topology(base), origin, abs, to);
    }
  }

  lemma SameNodes(base: map<Addr, Handler>, nodes: map<Addr, Handler>, a: Addr)
    requires SameNet(base, nodes)
    ensures a in nodes <==> a in Topology(base)
  {
  }

  lemma {:induction false} InFlight(flights: seq<Flight>, i: nat, m: Uuid)
    requires i < |flights| && Id(flights[i]) == m
    ensures flights[i].letter.to in Destinations(flights, m)
  {
    DestinationsRemove(flights, i, m);
    DestinationsOne(flights[i], m);
  }

  lemma CopyAt(base: map<Addr, Handler>, message: Message, flights: seq<Flight>, i: nat)
    requires CopiesOk(base, message, flights) && i < |flights|
    ensures Id(flights[i]) == message.id ==> CopyOk(base, message, flights[i])
  {
  }

  /** Receiving aside, a node mails a message of its own, or nothing. */
  lemma {:induction false} LocalSends(h: Handler, input: Input, targets: seq<Uuid>)
    requires h.started && (input.SendMessage? || input.SendToSubscribers?)
    requires targets == if input.SendMessage? then [input.target] else h.subscribers
    ensures var r := HandleInput(h, input);
            && Letters(r.outs) == Mail(Links(h.keys, targets), h.me, input.message) && HandOvers(r.outs) == []
            && r.h == h.(puts := h.puts + [input.message.id], tx := r.h.tx)
  {
    hide TransmitAll, Mail, Parcels, Letters, Links, HandOvers;
    OnlyReceptionsHandOver(h, input);
    TransmitKeeps(h.(puts := h.puts + [input.message.id]), Parcels(Links(h.keys, targets), input.message));
    MailIsSent(h.(puts := h.puts + [input.message.id]), Links(h.keys, targets), input.message);
  }

  lemma {:induction false} LocalSilent(h: Handler, input: Input, m: Uuid)
    requires h.started && Unrelated(input, m) && !input.SendMessage? && !input.SendToSubscribers?
    ensures var r := HandleInput(h, input);
            && Letters(r.outs) == []
            && r.h == h.(listens := r.h.listens, delay := r.h.delay, tx := r.h.tx, rx := r.h.rx)
  {
    var outs := HandleInput(h, input).outs;
    if outs != [] { assert outs[..0] == []; }
  }

  lemma {:induction false} LocalEffects(base: map<Addr, Handler>, message: Message, w: World, node: Addr, input: Input)
    requires Linked(base) && SameNet(base, w.nodes) && node in w.nodes && Unrelated(input, message.id)
    ensures var r := HandleInput(w.nodes[node], input);
            var posted := Post(node, Letters(r.outs));
            && SameNet(base, w.nodes[node := r.h])
            && CopiesOk(base, message, posted) && Destinations(posted, message.id) == multiset{}
            && (message.id in r.h.puts <==> message.id in w.nodes[node].puts)
  {
    hide Linked, HandleInput, Letters, Post, Mail, CopiesOk, Destinations, Links, LinkedTo;
    var h := w.nodes[node];
    RunsAt(base, w.nodes, node);
    if input.SendMessage? || input.SendToSubscribers? {
      var targets := if input.SendMessage? then [input.target] else h.subscribers;
      LocalSends(h, input, targets);
      MailFacts(base, node, h.me, Links(h.keys, targets), message, input.message);
    } else {
      LocalSilent(h, input, message.id);
      NoPost(base, node, message);
    }
  }

  lemma {:induction false} LocalKeeps(base: map<Addr, Handler>, message: Message, origin: Addr, w: World, node: Addr,
                                      input: Input)
    requires Linked(base) && Inv(base, message, origin, w) && Enabled(w, message.id, Local(node, input))
    ensures Inv(base, message, origin, Apply(w, message.id, Local(node, input)))
    ensures Abstract(Apply(w, message.id, Local(node, input)), message.id, origin) == Abstract(w, message.id, origin)
  {
    hide HandleInput, Letters, Linked, Post, Flood.Inv, SameNet, CopiesOk, Destinations, Nodes;
    LocalEffects(base, message, w, node, input);
    var posted := Post(node, Letters(HandleInput(w.nodes[node], input).outs));
    CopiesTogether(base, message, w.flights, posted);
    DestinationsAppend(w.flights, posted, message.id);
    assert Abstract(Apply(w, message.id, Local(node, input)), message.id, origin) == Abstract(w, message.id, origin);
  }

  lemma CopiesTogether(base: map<Addr, Handler>, message: Message, a: seq<Flight>, b: seq<Flight>)
    requires CopiesOk(base, message, a) && CopiesOk(base, message, b)
    ensures CopiesOk(base, message, a + b)
  {
  }

  /** A letter addressed to nobody is no copy. */
  lemma StrayIsNoCopy(base: map<Addr, Handler>, message: Message, w: World, i: nat)
    requires SameNet(base, w.nodes) && CopiesOk(base, message, w.flights) && i < |w.flights|
    requires w.flights[i].letter.to !in w.nodes
    ensures Id(w.flights[i]) != message.id
  {
  }

  lemma {:induction false} StrayKeeps(base: map<Addr, Handler>, message: Message, origin: Addr, w: World, step: Step)
    requires Inv(base, message, origin, w) && Enabled(w, message.id, step)
    requires step.Deliver? && w.flights[step.i].letter.to !in w.nodes
    ensures Inv(base, message, origin, Apply(w, message.id, step))
    ensures Abstract(Apply(w, message.id, step), message.id, origin)
         == FloodStep(Topology(base), Abstract(w, message.id, origin), w, message.id, step)
  {
    hide Flood.Inv, Nodes, Destinations, CopiesOk, Recv, Remove, SameNet, Remembered, Topology, Lru.Since, Id;
    StrayIsNoCopy(base, message, w, step.i);
    NoPost(base, 0, message);
    CopiesKept(base, message, w.flights, step.i, []);
    DestinationsRemove(w.flights, step.i, message.id);
    DestinationsOne(w.flights[step.i], message.id);
    assert Destinations(Remove(w.flights, step.i), message.id) == Destinations(w.flights, message.id);
  }

  /** Taking flight `i` out and recording its loss is a step of the flood, or none. */
  lemma {:induction false} AbstractLost(g: Flood.Graph, m: Uuid, origin: Addr, w: World, i: nat)
    requires Enabled(w, m, Lose(i))
    ensures Abstract(Apply(w, m, Lose(i)), m, origin) == FloodStep(g, Abstract(w, m, origin), w, m, Lose(i))
  {
    hide Nodes, Destinations, Remove, Id;
    var f, abs, rest := w.flights[i], Abstract(w, m, origin), Destinations(Remove(w.flights, i), m);
    DestinationsRemove(w.flights, i, m);
    DestinationsOne(f, m);
    if Id(f) == m {
      assert rest == abs.inflight - multiset{f.letter.to};
    } else {
      assert rest == abs.inflight && w.lost + multiset{} == w.lost;
    }
  }

  lemma {:induction false} LoseKeeps(base: map<Addr, Handler>, message: Message, origin: Addr, w: World, i: nat)
    requires Inv(base, message, origin, w) && Enabled(w, message.id, Lose(i))
    ensures var w' := Apply(w, message.id, Lose(i));
            && Inv(base, message, origin, w')
            && Abstract(w', message.id, origin)
               == FloodStep(Topology(base), Abstract(w, message.id, origin), w, message.id, Lose(i))
  {
    hide Flood.Inv, Nodes, Destinations, CopiesOk, Remove, SameNet, Remembered, Topology, Id, Flood.Lose;
    var f, abs := w.flights[i], Abstract(w, message.id, origin);
    AbstractLost(Topology(base), message.id, origin, w, i);
    NoPost(base, 0, message);
    CopiesKept(base, message, w.flights, i, []);
    if Id(f) == message.id {
      InFlight(w.flights, i, message.id);
      Flood.LoseOk(Topology(base), origin, abs, f.letter.to);
    }
  }

  lemma {:induction false} RepeatKeeps(base: map<Addr, Handler>, message: Message, origin: Addr, w: World, i: nat)
    requires Inv(base, message, origin, w) && Enabled(w, message.id, Repeat(i))
    ensures var w' := Apply(w, message.id, Repeat(i));
            && Inv(base, message, origin, w')
            && Abstract(w', message.id, origin)
               == FloodStep(Topology(base), Abstract(w, message.id, origin), w, message.id, Repeat(i))
  {
    hide Flood.Inv, Nodes, Destinations, CopiesOk, SameNet, Remembered, Topology, Id;
    var f, abs := w.flights[i], Abstract(w, message.id, origin);
    NoPost(base, 0, message);
    CopiesKept(base, message, w.flights, i, []);
    CopiesTogether(base, message, w.flights, [f]);
    DestinationsAppend(w.flights, [f], message.id);
    DestinationsOne(f, message.id);
    if Id(f) == message.id {
      InFlight(w.flights, i, message.id);
      Flood.RepeatOk(Topology(base), origin, abs, f.letter.to);
    } else {
      assert abs.inflight + multiset{} == abs.inflight;
    }
  }

  /** Every step of the network is a step of the flood, or none; and it keeps the invariant. */
  lemma {:induction false} StepKeeps(base: map<Addr, Handler>, message: Message, origin: Addr, w: World, step: Step)
    requires Linked(base) && Forwardable(message) && Inv(base, message, origin, w) && Enabled(w, message.id, step)
    ensures Inv(base, message, origin, Apply(w, message.id, step))
    ensures Abstract(Apply(w, message.id, step), message.id, origin)
         == FloodStep(Topology(base), Abstract(w, message.id, origin), w, message.id, step)
  {
    hide Inv, Linked, Abstract, Apply, Flood.Deliver, Topology;
    match step
    case Deliver(i, s, draw) =>
      if w.flights[i].letter.to in w.nodes { DeliverKeeps(base, message, origin, w, i, s, draw); }
      else { StrayKeeps(base, message, origin, w, step); }
    case Local(node, input) => LocalKeeps(base, message, origin, w, node, input);
    case Lose(i) => LoseKeeps(base, message, origin, w, i);
    case Repeat(i) => RepeatKeeps(base, message, origin, w, i);
  }

  lemma {:induction false} BroadcastPosts(w: World, origin: Addr, message: Message)
    requires Linked(w.nodes) && Unheard(w, message.id) && origin in w.nodes
    ensures var w' := Broadcasted(w, origin, message);
            && SameNet(w.nodes, w'.nodes) && CopiesOk(w.nodes, message, w'.flights)
            && Remembered(w'.nodes, message.id, [origin])
            && Destinations(w'.flights, message.id) == multiset(Topology(w.nodes)[origin])
            && w'.sent == |Topology(w.nodes)[origin]|
  {
    hide HandleInput, Letters, Post, Mail, Targets, CopyOk, Destinations, Links, LinkedTo;
    var h := w.nodes[origin];
    var links := Links(h.keys, h.subscribers);
    LocalSends(h, SendToSubscribers(message), h.subscribers);
    forall link | link in links ensures LinkedTo(w.nodes, h.me, link) { SubscribersLinked(w.nodes, origin, link); }
    MailFacts(w.nodes, origin, h.me, links, message, message);
    NoCopies(w.flights, message.id);
    var posted := Post(origin, Letters(HandleInput(h, SendToSubscribers(message)).outs));
    CopiesTogether(w.nodes, message, w.flights, posted);
    DestinationsAppend(w.flights, posted, message.id);
  }

  /** The broadcast itself is the beginning of a flood. */
  lemma {:induction false} BroadcastBegins(w: World, origin: Addr, message: Message)
    requires Linked(w.nodes) && Unheard(w, message.id) && origin in w.nodes
    ensures Inv(w.nodes, message, origin, Broadcasted(w, origin, message))
  {
    hide Linked, Unheard, HandleInput, SameNet, CopiesOk, Remembered, Destinations, Flood.Inv;
    BroadcastPosts(w, origin, message);
    TopologyClosed(w.nodes);
    Flood.BeginOk(Topology(w.nodes), origin);
    assert [origin] + [] == [origin];
    assert Abstract(Broadcasted(w, origin, message), message.id, origin) == Flood.Begin(Topology(w.nodes), origin);
  }

  lemma {:induction false} RunKeeps(base: map<Addr, Handler>, message: Message, origin: Addr, w: World,
                                    steps: seq<Step>)
    requires Linked(base) && Forwardable(message) && Inv(base, message, origin, w) && Exec(w, message.id, steps).Some?
    ensures Inv(base, message, origin, Exec(w, message.id, steps).value)
  {
    hide Inv, Linked, Apply, FloodStep;
    if steps != [] {
      RunKeeps(base, message, origin, w, steps[..|steps| - 1]);
      StepKeeps(base, message, origin, Exec(w, message.id, steps[..|steps| - 1]).value, steps[|steps| - 1]);
    }
  }

  // ---------------------------------------------------------------- what holds of every broadcast

  /** The run of a broadcast by `origin`, amid any other traffic, ended in `v`. */
  ghost predicate Spread(w: World, origin: Addr, message: Message, steps: seq<Step>, v: World) {
    && Linked(w.nodes) && Unheard(w, message.id) && origin in w.nodes && Forwardable(message)
    && Exec(Broadcasted(w, origin, message), message.id, steps) == Some(v)
  }

  lemma {:induction false} SpreadIsFlood(w: World, origin: Addr, message: Message, steps: seq<Step>, v: World)
    requires Spread(w, origin, message, steps, v)
    ensures Inv(w.nodes, message, origin, v)
  {
    hide Inv, Linked, Unheard;
    BroadcastBegins(w, origin, message);
    RunKeeps(w.nodes, message, origin, Broadcasted(w, origin, message), steps);
  }

  /** At any time, whatever the network loses and duplicates: no node took the message twice, the
      origin never, only reachable nodes did; every copy sent or duplicated was delivered, was lost or
      is in flight; and each node that has the message sent one copy to each keyed subscriber. */
  lemma {:induction false} AtMostOnceAndCost(w: World, origin: Addr, message: Message, steps: seq<Step>, v: World)
    requires Spread(w, origin, message, steps, v)
    ensures var takers := Nodes(v.log, message.id);
            && NoDuplicates(takers) && origin !in takers
            && (forall n :: n in takers ==> Reaches(w.nodes, origin, n))
            && v.sent + v.repeated == v.delivered + |v.lost| + |Destinations(v.flights, message.id)|
            && v.sent == Sends(w.nodes, [origin] + takers)
  {
    hide Spread, SameNet, CopiesOk, Remembered, Topology, Destinations, Nodes, NoDuplicates, Flood.Cost, Flood.Reachable,
         Reaches, Sends;
    SpreadIsFlood(w, origin, message, steps, v);
    SpreadLinked(w, origin, message, steps, v);
    TailOf(origin, Nodes(v.log, message.id));
    CostIs(w.nodes, [origin] + Nodes(v.log, message.id));
    forall n ensures Reaches(w.nodes, origin, n) <==> Flood.Reachable(Topology(w.nodes), origin, n) {
      ReachesIff(w.nodes, origin, n);
    }
  }

  lemma {:induction false} TailOf(x: Addr, rest: seq<Addr>)
    ensures NoDuplicates([x] + rest) ==> NoDuplicates(rest) && x !in rest
    ensures forall n :: n in [x] + rest <==> n == x || n in rest
  {
    var s := [x] + rest;
    assert s[0] == x;
    assert forall i :: 0 <= i < |rest| ==> rest[i] == s[i + 1];
  }

  /** When no copy is in flight any more, whatever was duplicated: the nodes that took the message are
      exactly those other than the origin that can be reached from it along keyed subscriptions, if
      and only if every node a lost copy was meant for has it all the same. */
  lemma {:induction false} Coverage(w: World, origin: Addr, message: Message, steps: seq<Step>, v: World)
    requires Spread(w, origin, message, steps, v) && Destinations(v.flights, message.id) == multiset{}
    ensures var takers := Nodes(v.log, message.id);
            (forall n :: n in takers <==> n != origin && Reaches(w.nodes, origin, n))
            <==> (forall n :: n in v.lost ==> n == origin || n in takers)
  {
    hide Spread, SameNet, CopiesOk, Remembered, Topology, Destinations, Nodes, Flood.Cost, Flood.Reachable, Reaches,
         Sends;
    SpreadIsFlood(w, origin, message, steps, v);
    SpreadLinked(w, origin, message, steps, v);
    forall n ensures Reaches(w.nodes, origin, n) <==> Flood.Reachable(Topology(w.nodes), origin, n) {
      ReachesIff(w.nodes, origin, n);
    }
    AtMostOnceAndCost(w, origin, message, steps, v);
    Flood.Coverage(Topology(w.nodes), origin, Abstract(v, message.id, origin));
    TailOf(origin, Nodes(v.log, message.id));
  }

  /** Nodes yet to be reached. */
  ghost function Unreached(g: Flood.Graph, s: Flood.State): set<Addr> {
    g.Keys - Elements(s.order)
  }

  /** The spreading ends as soon as the network stops duplicating: delivering a copy leaves fewer nodes
      to reach, or as many and fewer copies in flight; losing one leaves fewer in flight; a
      duplicate adds one; and nothing else touches the copies. */
  lemma {:induction false} SpreadingEnds(w: World, origin: Addr, message: Message, steps: seq<Step>, v: World,
                                         step: Step)
    requires Spread(w, origin, message, steps, v) && Enabled(v, message.id, step)
    ensures var (s, s') := (Abstract(v, message.id, origin), Abstract(Apply(v, message.id, step), message.id, origin));
            var g := Topology(w.nodes);
            if step.Local? || Id(v.flights[step.i]) != message.id then s' == s
            else match step
              case Deliver(_, _, _) =>
                || |Unreached(g, s')| < |Unreached(g, s)|
                || (Unreached(g, s') == Unreached(g, s) && |s'.inflight| < |s.inflight|)
              case Lose(_) => Unreached(g, s') == Unreached(g, s) && |s'.inflight| == |s.inflight| - 1
              case Repeat(_) => Unreached(g, s') == Unreached(g, s) && |s'.inflight| == |s.inflight| + 1
  {
    hide Spread, CopiesOk, Remembered, Abstract, Flood.Inv, Flood.Deliver, Flood.Closed, Linked, SameNet, Apply,
         Lru.Since;
    SpreadIsFlood(w, origin, message, steps, v);
    SpreadLinked(w, origin, message, steps, v);
    StepKeeps(w.nodes, message, origin, v, step);
    if !step.Local? && Id(v.flights[step.i]) == message.id {
      CopyAt(w.nodes, message, v.flights, step.i);
      AbstractInFlight(v, message.id, origin, step.i);
      var s, to := Abstract(v, message.id, origin), v.flights[step.i].letter.to;
      assert s.inflight == s.inflight - multiset{to} + multiset{to};
      Flood.Progress(Topology(w.nodes), origin, s, to);
    }
  }

  /** However long the run and whatever else is going on, no more than n * d copies of the message are
      sent in a network of n nodes with at most d keyed subscribers each; what arrives, gets lost or is
      in flight beyond that was made by the network. */
  lemma {:induction false} CopiesBounded(w: World, origin: Addr, message: Message, steps: seq<Step>, v: World, d: nat)
    requires Spread(w, origin, message, steps, v)
    requires forall a :: a in w.nodes ==> |KeyedAt(w.nodes[a].keys, w.nodes[a].subscribers)| <= d
    ensures v.sent <= |w.nodes.Keys| * d
    ensures v.delivered + |v.lost| + |Destinations(v.flights, message.id)| <= |w.nodes.Keys| * d + v.repeated
  {
    hide Spread, SameNet, CopiesOk, Remembered, Destinations, Nodes, Flood.Inv, Links, KeyedAt;
    SpreadIsFlood(w, origin, message, steps, v);
    forall a | a in w.nodes ensures |Topology(w.nodes)[a]| <= d {
      LinksAreAll(w.nodes[a].keys, w.nodes[a].subscribers);
    }
    assert Topology(w.nodes).Keys == w.nodes.Keys;
    Flood.SentBound(Topology(w.nodes), origin, Abstract(v, message.id, origin), d);
  }

  lemma {:induction false} AbstractInFlight(v: World, m: Uuid, origin: Addr, i: nat)
    requires i < |v.flights| && Id(v.flights[i]) == m
    ensures v.flights[i].letter.to in Abstract(v, m, origin).inflight
  {
    InFlight(v.flights, i, m);
  }

  lemma {:induction false} SpreadLinked(w: World, origin: Addr, message: Message, steps: seq<Step>, v: World)
    requires Spread(w, origin, message, steps, v)
    ensures Linked(w.nodes) && Forwardable(message) && Flood.Closed(Topology(w.nodes)) && origin in w.nodes
  {
    TopologyClosed(w.nodes);
  }
}
