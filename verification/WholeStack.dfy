/** From handshakes to broadcasts: what the managers learned is what the flood runs on. */
module WholeStack {
  import opened Basics
  import opened Peers
  import opened Messages
  import opened PeerTable
  import opened PacketHandling
  import opened Convergence
  import opened FloodNetwork
  import opened FloodHearing
  import FloodRest
  import Net = HandshakeNetwork
  import Runs = ManagerRuns
  import Shake = HandshakeCompletion

  /** For every node of a cluster, the messages its manager was given. */
  type Minutes = map<Addr, seq<Runs.Event>>

  /** Every manager was told of exactly the handshakes of its node, and of nobody's going down. */
  ghost predicate Informed(c: Net.Cluster, w: Net.World, minutes: Minutes) {
    minutes.Keys == c.Keys && forall a :: a in c ==>
      && Runs.Exec(minutes[a]).Some? && NobodyDown(minutes[a])
      && Handshakes(TableEvents(minutes[a])) == UpsAt(w, a)
  }

  /** No GoTeam is lost for good, and no two handshakes of a pair have the same timestamp. */
  ghost predicate AllSettled(c: Net.Cluster, w: Net.World) {
    forall a, b :: a in c && b in c ==> Settled(w, a, b) && DistinctTimes(w, a, b)
  }

  /** The packet handlers run, with the keys their managers gave them; their subscribers are anybody. */
  ghost predicate Equipped(c: Net.Cluster, minutes: Minutes, nodes: map<Addr, Handler>) {
    nodes.Keys == c.Keys == minutes.Keys && forall a :: a in c ==>
      && nodes[a].started && nodes[a].me == c[a].id && Runs.Exec(minutes[a]).Some?
      && nodes[a].keys == Runs.Exec(minutes[a]).value.handlerKeys
  }

  /** Keys a packet handler holds stem from a handshake that came up at its node. */
  lemma {:induction false} KeysStemFrom(c: Net.Cluster, steps: seq<Net.Step>, a: Addr, events: seq<Runs.Event>, t: Uuid)
    returns (b: Addr)
    requires Net.DistinctIds(c) && Net.Exec(c, steps).Some? && Runs.Exec(events).Some? && NobodyDown(events)
    requires Handshakes(TableEvents(events)) == UpsAt(Net.Exec(c, steps).value, a)
    requires t in Runs.Exec(events).value.handlerKeys
    ensures b in c && b != a && t == c[b].id && Runs.Exec(events).value.handlerKeys[t].addr == b
    ensures exists i: nat :: UpBetween(Net.Exec(c, steps).value, i, a, b)
  {
    hide Net.Exec, Runs.Exec, Replay, Handshakes, TableEvents, Net.DistinctIds, NobodyDown;
    KnownIsReplay(events);
    Runs.HandlerMirrors(events);
    TableHoldsLatest(TableEvents(events), t);
    var w, peer := Net.Exec(c, steps).value, Replay(TableEvents(events))[t];
    assert peer in UpsAt(w, a);
    var i: nat :| i < |w.past.log| && w.past.log[i].Up? && w.past.log[i].node == a && w.past.log[i].peer == peer;
    UpFacts(c, steps, i);
    b := peer.sockaddr;
    assert UpBetween(w, i, a, b);
  }

  /** One link: the node at its end holds its mirror image. */
  lemma {:induction false} LinkMirrored(c: Net.Cluster, steps: seq<Net.Step>, a: Addr, eventsA: seq<Runs.Event>, b: Addr,
                                        eventsB: seq<Runs.Event>)
    requires Net.DistinctIds(c) && Net.Exec(c, steps).Some? && a in c && b in c
    requires Runs.Exec(eventsA).Some? && NobodyDown(eventsA) && Runs.Exec(eventsB).Some? && NobodyDown(eventsB)
    requires var w := Net.Exec(c, steps).value;
             && Settled(w, a, b) && Settled(w, b, a) && DistinctTimes(w, a, b)
             && Handshakes(TableEvents(eventsA)) == UpsAt(w, a) && Handshakes(TableEvents(eventsB)) == UpsAt(w, b)
             && exists k: nat :: UpBetween(w, k, a, b)
    ensures var (keysA, keysB) := (Runs.Exec(eventsA).value.handlerKeys, Runs.Exec(eventsB).value.handlerKeys);
            && c[b].id in keysA && c[a].id in keysB && keysA[c[b].id].addr == b
            && Mirrored(keysA[c[b].id], keysB[c[a].id])
  {
    hide Net.Exec, Runs.Exec, Replay, Handshakes, UpsAt, TableEvents, IsLatestPair, Net.DistinctIds;
    KnownIsReplay(eventsA);
    KnownIsReplay(eventsB);
    TablesConverge(c, steps, a, b, TableEvents(eventsA), TableEvents(eventsB));
    Runs.HandlerMirrors(eventsA);
    Runs.HandlerMirrors(eventsB);
  }

  /** After any run of the network, once the handshakes have settled and the managers know of them, the
      network is fit for broadcasts, whoever subscribes to whom. */
  lemma {:induction false} HandshakesLink(c: Net.Cluster, steps: seq<Net.Step>, minutes: Minutes,
                                          nodes: map<Addr, Handler>)
    requires Net.DistinctIds(c) && Net.Exec(c, steps).Some?
    requires Informed(c, Net.Exec(c, steps).value, minutes) && AllSettled(c, Net.Exec(c, steps).value)
    requires Equipped(c, minutes, nodes)
    ensures Linked(nodes)
  {
    hide Net.Exec, Runs.Exec, Handshakes, UpsAt, TableEvents, Net.DistinctIds, NobodyDown, Mirrored, Settled,
         DistinctTimes;
    forall a, t | a in nodes && t in nodes[a].subscribers && t in nodes[a].keys
      ensures LinkedTo(nodes, nodes[a].me, nodes[a].keys[t])
    {
      var b := KeysStemFrom(c, steps, a, minutes[a], t);
      LinkMirrored(c, steps, a, minutes[a], b, minutes[b]);
    }
  }

  /** The whole stack: in a network whose handshakes have settled and where nobody is addressed too
      often, a broadcast can come to rest, and then exactly the nodes reachable along keyed
      subscriptions have taken it, each once, and handed it over, if all listen. */
  lemma {:induction false} BroadcastAfterHandshakes(
      c: Net.Cluster, steps: seq<Net.Step>, minutes: Minutes, w: World, origin: Addr, message: Message,
      luck: FloodRest.Luck) returns (spread: seq<Step>, v: World)
    requires Net.DistinctIds(c) && Net.Exec(c, steps).Some?
    requires Informed(c, Net.Exec(c, steps).value, minutes) && AllSettled(c, Net.Exec(c, steps).value)
    requires Equipped(c, minutes, w.nodes) && origin in c && Unheard(w, message.id) && Forwardable(message)
    requires FloodRest.FewCopies(w.nodes) && FloodRest.Harmless(luck, message.id)
    ensures Spread(w, origin, message, spread, v) && Destinations(v.flights, message.id) == multiset{}
    ensures NoDuplicates(Nodes(v.log, message.id))
    ensures forall n :: n in Nodes(v.log, message.id) <==> n != origin && Reaches(w.nodes, origin, n)
    ensures Listening(w.nodes) ==>
              AllConvey(Heard(w, origin, message, spread), Nodes(v.log, message.id), message)
  {
    hide Net.Exec, Runs.Exec, Informed, AllSettled, Linked, Unheard, FloodRest.FewCopies, Spread, Destinations, Nodes,
         Topology, Reaches, NoDuplicates, Listening, AllConvey, Heard;
    HandshakesLink(c, steps, minutes, w.nodes);
    spread, v := FloodRest.BroadcastReachesAll(w, origin, message, luck);
  }

  // ---------------------------------------------------------------- the smallest stack

  /** A packet handler that was started and given these keys and subscribers. */
  function Ready(me: Uuid, keys: Keys, subscribers: seq<Uuid>): Handler {
    Handler(me, true, true, map[], map[], map[], map[], keys, subscribers, [])
  }

  ghost function TwoNodes(c: Net.Cluster, p: Shake.Plan, minutes: Minutes): map<Addr, Handler>
    requires p.a in c && p.b in c && minutes.Keys == {p.a, p.b}
    requires Runs.Exec(minutes[p.a]).Some? && Runs.Exec(minutes[p.b]).Some?
  {
    map[p.a := Ready(c[p.a].id, Runs.Exec(minutes[p.a]).value.handlerKeys, [c[p.b].id]),
        p.b := Ready(c[p.b].id, Runs.Exec(minutes[p.b]).value.handlerKeys, [c[p.a].id])]
  }

  /** What the two managers were told after the first handshake. */
  ghost function FirstMinutes(c: Net.Cluster, p: Shake.Plan, now: Time): Minutes
    requires p.a in c && p.b in c
  {
    map[p.a := Told(c[p.a].id, Shake.PeerAtA(c, p), now), p.b := Told(c[p.b].id, Shake.PeerAtB(c, p), now)]
  }

  lemma {:induction false} FirstSettled(c: Net.Cluster, p: Shake.Plan, now: Time, w: Net.World)
    requires c.Keys == {p.a, p.b} && p.a != p.b
    requires FirstLog(w.past.log, p.a, p.b, p.hid, Shake.PeerAtA(c, p), Shake.PeerAtB(c, p))
    ensures Informed(c, w, FirstMinutes(c, p, now)) && AllSettled(c, w) && exists k: nat :: UpBetween(w, k, p.a, p.b)
  {
    hide Runs.Exec, Handshakes, TableEvents, Told, NobodyDown, Settled, DistinctTimes, UpsAt;
    var atA, atB := Shake.PeerAtA(c, p), Shake.PeerAtB(c, p);
    AfterOneHandshake(w, p.a, p.b, p.hid, atA, atB);
    NoLoops(w, p.a, p.b, p.hid, atA, atB);
    ToldOnce(c[p.a].id, atA, now);
    ToldOnce(c[p.b].id, atB, now);
  }

  /** Two nodes that subscribe to each other, after their first handshake: what one broadcasts, the
      other takes, and the copy that comes back is recognised. */
  lemma {:induction false} FirstBroadcast(c: Net.Cluster, p: Shake.Plan, now: Time, message: Message,
                                          luck: FloodRest.Luck)
    returns (w: World, spread: seq<Step>, v: World)
    requires c.Keys == {p.a, p.b} && Net.DistinctIds(c) && Shake.Fits(c, Net.Init(c), p)
    requires Forwardable(message) && FloodRest.Harmless(luck, message.id)
    ensures Spread(w, p.a, message, spread, v) && Destinations(v.flights, message.id) == multiset{}
    ensures p.b in Nodes(v.log, message.id) && p.a !in Nodes(v.log, message.id)
  {
    hide Net.Exec, Runs.Exec, Handshakes, TableEvents, Shake.Steps, Shake.PeerAtA, Shake.PeerAtB, NobodyDown,
         Net.DistinctIds, Shake.Fits, Spread, Destinations, Nodes, FloodRest.Harmless, FloodRest.FewCopies, AllSettled,
         Reaches, Topology, UpsAt, FirstMinutes, UpBetween, NoDuplicates, Equipped;
    var steps := [Net.Boot(p.a), Net.Boot(p.b)] + Shake.Steps(c, p);
    FitsFacts(c, p);
    Shake.FirstHandshake(c, p);
    var net, minutes := Net.Exec(c, steps).value, FirstMinutes(c, p, now);
    FirstSettled(c, p, now, net);
    w := World(TwoNodes(c, p, minutes), [], [], 0, 0, 0, multiset{});
    BothFlood(c, p, steps, minutes);
    spread, v := BroadcastAfterHandshakes(c, steps, minutes, w, p.a, message, luck);
  }

  lemma {:induction false} BothFlood(c: Net.Cluster, p: Shake.Plan, steps: seq<Net.Step>, minutes: Minutes)
    requires Net.DistinctIds(c) && Net.Exec(c, steps).Some? && p.a != p.b && c.Keys == {p.a, p.b}
    requires Informed(c, Net.Exec(c, steps).value, minutes) && AllSettled(c, Net.Exec(c, steps).value)
    requires exists k: nat :: UpBetween(Net.Exec(c, steps).value, k, p.a, p.b)
    ensures var nodes := TwoNodes(c, p, minutes);
            Equipped(c, minutes, nodes) && FloodRest.FewCopies(nodes) && Reaches(nodes, p.a, p.b)
  {
    hide Net.Exec, Runs.Exec, Handshakes, TableEvents, NobodyDown, Net.DistinctIds, AllSettled, FloodRest.FewCopies,
         Reaches, UpsAt, Mirrored;
    SettledBoth(c, Net.Exec(c, steps).value, p.a, p.b);
    LinkMirrored(c, steps, p.a, minutes[p.a], p.b, minutes[p.b]);
    TwoNodeGraph(TwoNodes(c, p, minutes), p.a, p.b, c[p.a].id, c[p.b].id);
  }

  lemma SettledBoth(c: Net.Cluster, w: Net.World, a: Addr, b: Addr)
    requires AllSettled(c, w) && a in c && b in c
    ensures Settled(w, a, b) && Settled(w, b, a) && DistinctTimes(w, a, b)
  {
  }

  lemma FitsFacts(c: Net.Cluster, p: Shake.Plan)
    requires Shake.Fits(c, Net.Init(c), p)
    ensures p.a in c && p.b in c && p.a != p.b
  {
  }

  lemma {:induction false} NoLoops(w: Net.World, a: Addr, b: Addr, hid: Uuid, atA: Peer, atB: Peer)
    requires a != b && atA.sockaddr == b && atB.sockaddr == a
    requires FirstLog(w.past.log, a, b, hid, atA, atB)
    ensures Settled(w, a, a) && Settled(w, b, b) && DistinctTimes(w, a, a) && DistinctTimes(w, b, b)
    ensures DistinctTimes(w, b, a)
  {
  }

  lemma {:induction false} TwoNodeGraph(nodes: map<Addr, Handler>, a: Addr, b: Addr, idA: Uuid, idB: Uuid)
    requires nodes.Keys == {a, b} && a != b && nodes[a].subscribers == [idB] && nodes[b].subscribers == [idA]
    requires idB in nodes[a].keys && nodes[a].keys[idB].addr == b
    ensures FloodRest.FewCopies(nodes) && Reaches(nodes, a, b)
  {
    hide FloodRest.FewCopies;
    forall n, x | n in nodes ensures |FloodRest.KeyedAtAddress(nodes[n].keys, nodes[n].subscribers, x)| <= 1 {
      OneSubscriber(nodes[n].keys, nodes[n].subscribers, x);
    }
    FloodRest.SmallNetwork(nodes);
    var route := [a, b];
    assert idB in nodes[a].subscribers;
    assert IsRoute(nodes, route) && route[0] == a && route[|route| - 1] == b;
  }

  lemma OneSubscriber(keys: Keys, targets: seq<Uuid>, a: Addr)
    requires |targets| == 1
    ensures |FloodRest.KeyedAtAddress(keys, targets, a)| <= 1
  {
    var s := FloodRest.KeyedAtAddress(keys, targets, a);
    assert s == {} || s == {0};
  }
}
