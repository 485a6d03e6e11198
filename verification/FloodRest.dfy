/** Broadcasts do come to rest, and then everybody who can be reached has the message. */
module FloodRest {
  import opened Basics
  import opened Messages
  import opened PacketHandling
  import opened FloodNetwork
  import opened FloodHearing
  import Flood
  import Lru

  /** What the nodes draw and which numbers the packets carry, delivery by delivery. */
  datatype Luck = Luck(draws: nat -> Draw, numbers: nat -> u32)

  ghost predicate Harmless(luck: Luck, m: Uuid) {
    forall k: nat :: luck.draws(k).nakId != m
  }

  /** The copies that these nodes address to `a`, each forwarding once. */
  function Into(g: Flood.Graph, nodes: seq<Addr>, a: Addr): nat {
    if nodes == [] then 0
    else
      var last := nodes[|nodes| - 1];
      Into(g, nodes[..|nodes| - 1], a) + if last in g then multiset(g[last])[a] else 0
  }

  /** The positions of the subscribers whose keys are held and who are at this address. */
  function KeyedAtAddress(keys: Keys, targets: seq<Uuid>, a: Addr): set<int> {
    set i | 0 <= i < |targets| && targets[i] in keys && keys[targets[i]].addr == a
  }

  /** How many subscribers at `a` these nodes have between them. */
  function Addressed(nodes: map<Addr, Handler>, order: seq<Addr>, a: Addr): nat {
    if order == [] then 0
    else
      var last := order[|order| - 1];
      Addressed(nodes, order[..|order| - 1], a)
      + if last in nodes then |KeyedAtAddress(nodes[last].keys, nodes[last].subscribers, a)| else 0
  }

  /** However many nodes forward, nobody is addressed more than 10,000 times. */
  ghost predicate FewCopies(nodes: map<Addr, Handler>) {
    forall order: seq<Addr>, a :: NoDuplicates(order) && (forall n :: n in order ==> n in nodes) ==>
      Addressed(nodes, order, a) <= 10_000
  }

  lemma {:induction false} AddressGrows(keys: Keys, targets: seq<Uuid>, a: Addr)
    requires targets != []
    ensures var n := |targets| - 1;
            |KeyedAtAddress(keys, targets, a)|
            == |KeyedAtAddress(keys, targets[..n], a)|
               + (if targets[n] in keys && keys[targets[n]].addr == a then 1 else 0)
  {
    var n := |targets| - 1;
    if targets[n] in keys && keys[targets[n]].addr == a {
      assert KeyedAtAddress(keys, targets, a) == KeyedAtAddress(keys, targets[..n], a) + {n};
    } else {
      assert KeyedAtAddress(keys, targets, a) == KeyedAtAddress(keys, targets[..n], a);
    }
  }

  lemma {:induction false} EdgesCounted(keys: Keys, targets: seq<Uuid>, a: Addr)
    ensures multiset(Targets(Links(keys, targets)))[a] == |KeyedAtAddress(keys, targets, a)|
  {
    if targets == [] {
      assert KeyedAtAddress(keys, targets, a) == {};
    } else {
      hide KeyedAtAddress;
      var n := |targets| - 1;
      EdgesCounted(keys, targets[..n], a);
      AddressGrows(keys, targets, a);
      if targets[n] in keys {
        assert Targets(Links(keys, targets)) == Targets(Links(keys, targets[..n])) + [keys[targets[n]].addr];
      } else {
        assert Links(keys, targets) == Links(keys, targets[..n]);
      }
    }
  }

  lemma {:induction false} IntoIs(nodes: map<Addr, Handler>, order: seq<Addr>, a: Addr)
    ensures Into(Topology(nodes), order, a) == Addressed(nodes, order, a)
  {
    hide Links, Targets, KeyedAtAddress;
    if order != [] {
      var last := order[|order| - 1];
      IntoIs(nodes, order[..|order| - 1], a);
      if last in nodes { EdgesCounted(nodes[last].keys, nodes[last].subscribers, a); }
    }
  }

  /** How many other identifiers a node has put since the message; none if it does not have it. */
  function Age(puts: seq<Uuid>, m: Uuid): nat {
    if m in puts then |Lru.Since(puts, m)| else 0
  }

  /** At every node, what was put since the message and the copies on their way to it make up no more
      than the copies that were addressed to it. */
  ghost predicate Recent(g: Flood.Graph, nodes: map<Addr, Handler>, s: Flood.State, m: Uuid) {
    forall a :: a in nodes ==> Age(nodes[a].puts, m) + s.inflight[a] <= Into(g, s.order, a)
  }

  lemma SinceAppend(puts: seq<Uuid>, x: Uuid, m: Uuid)
    ensures Lru.Since(puts + [x], m) == if x == m then {} else Lru.Since(puts, m) + {x}
  {
    assert (puts + [x])[..|puts|] == puts;
  }

  lemma {:induction false} RecvRecent(h: Handler, packet: Packet, from: Addr, draw: Draw, m: Uuid)
    requires Opened(h, packet).Some? && Opened(h, packet).value.id == m && draw.nakId != m
    ensures Age(Recv(h, packet, from, draw).h.puts, m) <= Age(h.puts, m) + 1
  {
    hide Recv, Seen;
    RecvKeeps(h, packet, from, draw);
    var news := !Seen(h.puts, m) && Forwardable(Opened(h, packet).value);
    var puts := if news then h.puts + [m] + [m] else h.puts;
    SinceAppend(h.puts + [m], m, m);
    SinceAppend(puts, draw.nakId, m);
    assert h.puts + ([m] + [m]) == h.puts + [m] + [m];
    assert puts + [] == puts;
  }

  /** A node that forwards addresses as many copies as it puts in flight. */
  lemma {:induction false} DeliverBalance(g: Flood.Graph, s: Flood.State, to: Addr, a: Addr)
    requires to in g && to in s.inflight
    ensures var s' := Flood.Deliver(g, s, to);
            s'.inflight[a] + Into(g, s.order, a) + (if a == to then 1 else 0) == s.inflight[a] + Into(g, s'.order, a)
  {
    if to !in s.order { assert (s.order + [to])[..|s.order|] == s.order; }
  }

  /** Delivering a copy to a node that is one put older afterwards. */
  lemma {:induction false} DeliverRecent(g: Flood.Graph, nodes: map<Addr, Handler>, s: Flood.State, m: Uuid, to: Addr,
                                         h: Handler)
    requires Recent(g, nodes, s, m) && to in g && to in s.inflight && to in nodes
    requires Age(h.puts, m) <= Age(nodes[to].puts, m) + 1
    ensures Recent(g, nodes[to := h], Flood.Deliver(g, s, to), m)
  {
    hide Age, Into, Flood.Deliver;
    forall a | a in nodes { DeliverBalance(g, s, to, a); }
  }

  lemma {:induction false} FindCopy(flights: seq<Flight>, m: Uuid) returns (i: nat)
    requires Destinations(flights, m) != multiset{}
    ensures i < |flights| && Id(flights[i]) == m
  {
    i := |flights| - 1;
    if Id(flights[i]) != m {
      assert Destinations(flights[..i], m) + multiset{} == Destinations(flights[..i], m);
      i := FindCopy(flights[..i], m);
    }
  }

  /** A broadcast so far, undisturbed: nothing lost or duplicated, and the cache has room. */
  ghost predicate Undisturbed(w: World, origin: Addr, message: Message, steps: seq<Step>, v: World) {
    && Spread(w, origin, message, steps, v) && v.repeated == 0 && v.lost == multiset{}
    && (forall i :: 0 <= i < |steps| ==> steps[i].Deliver?)
    && Recent(Topology(w.nodes), v.nodes, Abstract(v, message.id, origin), message.id)
  }

  lemma {:induction false} Begins(w: World, origin: Addr, message: Message)
    requires Linked(w.nodes) && Unheard(w, message.id) && origin in w.nodes && Forwardable(message)
    ensures Undisturbed(w, origin, message, [], Broadcasted(w, origin, message))
  {
    hide Letters, Links, Mail, Linked, HandleInput, Destinations, Topology, Abstract, Age;
    var h, v, g := w.nodes[origin], Broadcasted(w, origin, message), Topology(w.nodes);
    SpreadLinkedAt(w.nodes, origin);
    LocalSends(h, SendToSubscribers(message), h.subscribers);
    BeginsAs(w, origin, message);
    forall a | a in v.nodes
      ensures Age(v.nodes[a].puts, message.id) + Flood.Begin(g, origin).inflight[a] <= Into(g, [origin], a)
    {
      NewAge(w.nodes[a].puts, message.id);
      assert [origin][..0] == [];
    }
  }

  lemma SpreadLinkedAt(nodes: map<Addr, Handler>, a: Addr)
    requires Linked(nodes) && a in nodes
    ensures nodes[a].started && a in Topology(nodes)
  {
  }

  lemma NewAge(puts: seq<Uuid>, m: Uuid)
    requires m !in puts
    ensures Age(puts, m) == 0 && Age(puts + [m], m) == 0
  {
    SinceAppend(puts, m, m);
  }

  lemma {:induction false} BeginsAs(w: World, origin: Addr, message: Message)
    requires Linked(w.nodes) && Unheard(w, message.id) && origin in w.nodes
    ensures origin in Topology(w.nodes)
    ensures Abstract(Broadcasted(w, origin, message), message.id, origin) == Flood.Begin(Topology(w.nodes), origin)
  {
    hide Linked, Unheard, HandleInput, SameNet, CopiesOk, Remembered, Destinations;
    BroadcastPosts(w, origin, message);
    assert [origin] + [] == [origin];
  }

  /** The cache of the node a copy is addressed to still has the message, if it ever had it. */
  lemma {:induction false} HasRoom(base: map<Addr, Handler>, nodes: map<Addr, Handler>, origin: Addr, s: Flood.State,
                                   m: Uuid, to: Addr)
    requires FewCopies(base) && Flood.Inv(Topology(base), origin, s) && Recent(Topology(base), nodes, s, m)
    requires to in s.inflight && to in nodes
    ensures to in Topology(base) && Age(nodes[to].puts, m) < 10_000
  {
    hide Age, Flood.Reachable, Flood.Cost, Topology, Into, Addressed;
    SameKeys(base);
    IntoIs(base, s.order, to);
  }

  /** One more copy can be delivered. */
  lemma {:induction false} GoesOn(w: World, origin: Addr, message: Message, steps: seq<Step>, v: World, luck: Luck)
    returns (step: Step)
    requires Undisturbed(w, origin, message, steps, v) && FewCopies(w.nodes) && Harmless(luck, message.id)
    requires Destinations(v.flights, message.id) != multiset{}
    ensures step.Deliver? && Enabled(v, message.id, step) && Id(v.flights[step.i]) == message.id
    ensures Undisturbed(w, origin, message, steps + [step], Apply(v, message.id, step))
  {
    hide Linked, Unheard, Topology, Destinations, Flood.Inv, Flood.Deliver, SameNet, CopiesOk, CopyOk, Remembered,
         Lru.Since, Broadcasted, Recv, Letters, Post, Takes, Remove, Abstract, FewCopies, Recent, Opened;
    var i := FindCopy(v.flights, message.id);
    var f, s, draw := v.flights[i], Abstract(v, message.id, origin), luck.draws(v.delivered);
    step := Deliver(i, luck.numbers(v.delivered), draw);
    SpreadIsFlood(w, origin, message, steps, v);
    SpreadLinked(w, origin, message, steps, v);
    AbstractInFlight(v, message.id, origin, i);
    CopyAt(w.nodes, message, v.flights, i);
    CopyOpens(w.nodes, message, v.nodes, f, luck.numbers(v.delivered));
    HasRoom(w.nodes, v.nodes, origin, s, message.id, f.letter.to);
    StepKeeps(w.nodes, message, origin, v, step);
    RecvRecent(v.nodes[f.letter.to], Arriving(f, luck.numbers(v.delivered)), f.from, draw, message.id);
    DeliverRecent(Topology(w.nodes), v.nodes, s, message.id, f.letter.to,
                  Recv(v.nodes[f.letter.to], Arriving(f, luck.numbers(v.delivered)), f.from, draw).h);
    assert (steps + [step])[..|steps|] == steps;
  }

  lemma {:induction false} CopyOpens(base: map<Addr, Handler>, message: Message, nodes: map<Addr, Handler>, f: Flight,
                                     s: u32)
    requires SameNet(base, nodes) && CopyOk(base, message, f)
    ensures f.letter.to in nodes
    ensures var m := Opened(nodes[f.letter.to], Arriving(f, s));
            m.Some? && m.value.id == message.id
  {
    WireTwice(message);
  }

  /** Copies can be delivered until none is left. */
  lemma {:induction false} EndsUp(w: World, origin: Addr, message: Message, steps: seq<Step>, v: World, luck: Luck)
    returns (steps': seq<Step>, v': World)
    requires Undisturbed(w, origin, message, steps, v) && FewCopies(w.nodes) && Harmless(luck, message.id)
    ensures Undisturbed(w, origin, message, steps', v') && Destinations(v'.flights, message.id) == multiset{}
    decreases |Unreached(Topology(w.nodes), Abstract(v, message.id, origin))|, |Destinations(v.flights, message.id)|
  {
    hide Spread, Recent, FewCopies, Harmless, Apply, Topology, Destinations, Enabled, Unreached;
    if Destinations(v.flights, message.id) == multiset{} {
      steps', v' := steps, v;
    } else {
      var step := GoesOn(w, origin, message, steps, v, luck);
      SpreadingEnds(w, origin, message, steps, v, step);
      steps', v' := EndsUp(w, origin, message, steps + [step], Apply(v, message.id, step), luck);
    }
  }

  /** Whatever the graph of subscriptions, cycles included, and whatever is drawn: if nobody is addressed
      too often, the copies of a broadcast can be delivered until none is left, and then exactly the
      reachable nodes have taken the message, each once, and handed its contents over, if all listen. */
  lemma {:induction false} BroadcastReachesAll(w: World, origin: Addr, message: Message, luck: Luck)
    returns (steps: seq<Step>, v: World)
    requires Linked(w.nodes) && Unheard(w, message.id) && origin in w.nodes && Forwardable(message)
    requires FewCopies(w.nodes) && Harmless(luck, message.id)
    ensures Spread(w, origin, message, steps, v) && Destinations(v.flights, message.id) == multiset{}
    ensures NoDuplicates(Nodes(v.log, message.id))
    ensures forall n :: n in Nodes(v.log, message.id) <==> n != origin && Reaches(w.nodes, origin, n)
    ensures Listening(w.nodes) ==>
              AllConvey(Heard(w, origin, message, steps), Nodes(v.log, message.id), message)
  {
    hide Linked, Unheard, FewCopies, Harmless, Spread, Destinations, Nodes, Recent, Topology, Reaches,
         NoDuplicates, Sends, Listening, AllConvey, Heard;
    Begins(w, origin, message);
    steps, v := EndsUp(w, origin, message, [], Broadcasted(w, origin, message), luck);
    AtMostOnceAndCost(w, origin, message, steps, v);
    Coverage(w, origin, message, steps, v);
    if Listening(w.nodes) { TakersHear(w, origin, message, steps, v); }
  }

  // ---------------------------------------------------------------- when nobody is addressed too often

  lemma {:induction false} OnceEach(nodes: map<Addr, Handler>, order: seq<Addr>, a: Addr)
    requires forall n :: n in nodes ==> |KeyedAtAddress(nodes[n].keys, nodes[n].subscribers, a)| <= 1
    ensures Addressed(nodes, order, a) <= |order|
  {
    hide KeyedAtAddress;
    if order != [] { OnceEach(nodes, order[..|order| - 1], a); }
  }

  /** Up to 10,000 nodes, however they subscribe to each other, as long as nobody has two subscribers at
      one address. */
  lemma {:induction false} SmallNetwork(nodes: map<Addr, Handler>)
    requires |nodes.Keys| <= 10_000
    requires forall n, a :: n in nodes ==> |KeyedAtAddress(nodes[n].keys, nodes[n].subscribers, a)| <= 1
    ensures FewCopies(nodes)
  {
    hide Addressed, NoDuplicates, KeyedAtAddress, Topology;
    SameKeys(nodes);
    forall order: seq<Addr>, a | NoDuplicates(order) && (forall n :: n in order ==> n in nodes)
      ensures Addressed(nodes, order, a) <= 10_000
    {
      OnceEach(nodes, order, a);
      Flood.AtMostAllNodes(Topology(nodes), order);
    }
  }
}
