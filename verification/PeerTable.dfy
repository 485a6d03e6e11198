/** The table of known peers (src/peer_manager.rs): last write wins, gossip never does. */
module PeerTable {
  import opened Basics
  import opened Peers

  type Known = map<Uuid, Peer>

  function AddPeer(known: Known, peer: Peer): Known {
    if peer.id in known then
      var existing := known[peer.id];
      if existing.handshakeTimestamp.Some? && peer.handshakeTimestamp.Some? then
        if peer.handshakeTimestamp.value > existing.handshakeTimestamp.value then known[peer.id := peer] else known
      else if peer.IsHandshaken() then known[peer.id := peer]
      else known
    else known[peer.id := peer]
  }

  function TryInsert(known: Known, peer: Peer): Known {
    if peer.id in known then known else known[peer.id := peer]
  }

  function UpdatePeers(known: Known, peers: seq<Peer>): Known {
    if peers == [] then known
    else TryInsert(UpdatePeers(known, peers[..|peers| - 1]), peers[|peers| - 1])
  }

  /** What fills the table: peer status messages, and peer lists from the network. */
  datatype TableEvent = Add(peer: Peer) | Gossip(peers: seq<Peer>)

  function After(known: Known, event: TableEvent): Known {
    match event
    case Add(peer) => AddPeer(known, peer)
    case Gossip(peers) => UpdatePeers(known, peers)
  }

  function Replay(events: seq<TableEvent>): Known {
    if events == [] then map[] else After(Replay(events[..|events| - 1]), events[|events| - 1])
  }

  /** Peers are sound; those in a peer list crossed the network. */
  ghost predicate SoundEvent(event: TableEvent) {
    match event
    case Add(peer) => peer.IsSound()
    case Gossip(peers) => forall p :: p in peers ==> p.IsWire()
  }

  ghost predicate SoundEvents(events: seq<TableEvent>) {
    forall i :: 0 <= i < |events| ==> SoundEvent(events[i])
  }

  ghost predicate TableOk(known: Known) {
    forall id :: id in known ==> known[id].id == id && known[id].IsSound()
  }

  predicate IsLater(p: Peer, q: Peer) {
    p.handshakeTimestamp.Some? && q.handshakeTimestamp.Some? && p.handshakeTimestamp.value > q.handshakeTimestamp.value
  }

  /** Nothing is forgotten: identifiers stay, keys stay or give way to those of a later handshake. */
  ghost predicate NotBefore(known: Known, known': Known) {
    forall id :: id in known ==>
      && id in known'
      && (known[id].IsHandshaken() ==>
            && known'[id].IsHandshaken()
            && (known'[id] == known[id] || IsLater(known'[id], known[id])))
  }

  lemma {:induction false} UpdateInserts(known: Known, peers: seq<Peer>)
    ensures forall id :: id in known ==> id in UpdatePeers(known, peers) && UpdatePeers(known, peers)[id] == known[id]
    ensures forall id :: id in UpdatePeers(known, peers) && id !in known ==>
              UpdatePeers(known, peers)[id] in peers && UpdatePeers(known, peers)[id].id == id
    ensures forall p :: p in peers ==> p.id in UpdatePeers(known, peers)
    ensures forall i :: 0 <= i < |peers| && peers[i].id !in known ==>
              (forall j :: 0 <= j < i ==> peers[j].id != peers[i].id) ==>
              UpdatePeers(known, peers)[peers[i].id] == peers[i]
  {
    if peers != [] {
      UpdateInserts(known, peers[..|peers| - 1]);
      assert peers == peers[..|peers| - 1] + [peers[|peers| - 1]];
    }
  }

  /** One event keeps the table sound and forgets nothing. */
  lemma {:induction false} EventKeeps(known: Known, event: TableEvent)
    requires TableOk(known) && SoundEvent(event)
    ensures TableOk(After(known, event)) && NotBefore(known, After(known, event))
  {
    if event.Gossip? { UpdateInserts(known, event.peers); }
  }

  /** Over whole runs: a handshaken entry never loses its keys except to a strictly later handshake. */
  lemma {:induction false} ReplayGrows(events: seq<TableEvent>, n: nat)
    requires SoundEvents(events) && n <= |events|
    ensures TableOk(Replay(events)) && NotBefore(Replay(events[..n]), Replay(events))
  {
    if n == |events| {
      assert events[..n] == events;
      if events != [] {
        ReplayGrows(events[..|events| - 1], 0);
        EventKeeps(Replay(events[..|events| - 1]), events[|events| - 1]);
      }
    } else {
      var before := events[..|events| - 1];
      ReplayGrows(before, n);
      assert before[..n] == events[..n];
      EventKeeps(Replay(before), events[|events| - 1]);
    }
  }

  /** A peer that crossed the network changes nothing but an identifier that was not known. */
  lemma {:induction false} WireNeverOverwrites(known: Known, peer: Peer)
    requires peer.IsWire() && peer.id in known
    ensures AddPeer(known, peer) == known && UpdatePeers(known, [peer]) == known
  {
    assert UpdatePeers(known, [peer][..0]) == known;
  }

  /** The completed handshakes among the events. */
  ghost function Handshakes(events: seq<TableEvent>): set<Peer> {
    set i | 0 <= i < |events| && events[i].Add? && events[i].peer.IsHandshaken() :: events[i].peer
  }

  lemma {:induction false} HandshakesStep(events: seq<TableEvent>)
    requires events != []
    ensures var last := events[|events| - 1];
            Handshakes(events) == Handshakes(events[..|events| - 1])
              + (if last.Add? && last.peer.IsHandshaken() then {last.peer} else {})
  {
    var before := events[..|events| - 1];
    forall p | p in Handshakes(events) && !(events[|events| - 1].Add? && events[|events| - 1].peer == p)
      ensures p in Handshakes(before)
    {
      var i :| 0 <= i < |events| && events[i].Add? && events[i].peer.IsHandshaken() && events[i].peer == p;
      assert before[i] == events[i];
    }
    forall p | p in Handshakes(before) ensures p in Handshakes(events) {
      var i :| 0 <= i < |before| && before[i].Add? && before[i].peer.IsHandshaken() && before[i].peer == p;
      assert before[i] == events[i];
    }
  }

  /** `best` is the latest of the handshakes with peer `id`. */
  ghost predicate Latest(peers: set<Peer>, id: Uuid, best: Peer) {
    && best in peers && best.id == id && best.handshakeTimestamp.Some?
    && forall p :: p in peers && p.id == id && p.handshakeTimestamp.Some? ==>
         p.handshakeTimestamp.value <= best.handshakeTimestamp.value
  }

  /** The table holds the latest handshake with a peer if there was one, whatever came in between. */
  lemma {:induction false} TableHoldsLatest(events: seq<TableEvent>, id: Uuid)
    requires SoundEvents(events)
    ensures var known := Replay(events);
            if exists p :: p in Handshakes(events) && p.id == id
            then id in known && known[id].IsHandshaken() && Latest(Handshakes(events), id, known[id])
            else id in known ==> known[id].IsWire()
  {
    if events != [] {
      var before, last := events[..|events| - 1], events[|events| - 1];
      TableHoldsLatest(before, id);
      ReplayGrows(before, 0);
      HandshakesStep(events);
      if last.Gossip? { UpdateInserts(Replay(before), last.peers); }
    }
  }

  function Lookup(known: Known, id: Uuid): Option<Peer> {
    if id in known then Some(known[id]) else None
  }

  lemma {:induction false} GossipApart(known1: Known, known2: Known, peers: seq<Peer>, id: Uuid)
    requires Lookup(known1, id) == Lookup(known2, id)
    ensures Lookup(UpdatePeers(known1, peers), id) == Lookup(UpdatePeers(known2, peers), id)
  {
    if peers != [] { GossipApart(known1, known2, peers[..|peers| - 1], id); }
  }

  /** What becomes of an entry depends on that entry alone. */
  lemma {:induction false} EntriesApart(known1: Known, known2: Known, event: TableEvent, id: Uuid)
    requires Lookup(known1, id) == Lookup(known2, id)
    ensures Lookup(After(known1, event), id) == Lookup(After(known2, event), id)
  {
    if event.Gossip? { GossipApart(known1, known2, event.peers, id); }
  }

  predicate Mentions(event: TableEvent, id: Uuid) {
    match event
    case Add(peer) => peer.id == id
    case Gossip(peers) => exists p :: p in peers && p.id == id
  }

  /** A peer is known if and only if some event mentioned it. */
  lemma {:induction false} KnownIffMentioned(events: seq<TableEvent>, id: Uuid)
    ensures id in Replay(events) <==> exists i :: 0 <= i < |events| && Mentions(events[i], id)
  {
    hide Mentions;
    if events != [] {
      var n := |events| - 1;
      KnownIffMentioned(events[..n], id);
      NewIffMentioned(Replay(events[..n]), events[n], id);
      if i :| 0 <= i < n && Mentions(events[..n][i], id) { assert Mentions(events[i], id); }
      if i :| 0 <= i < n && Mentions(events[i], id) { assert Mentions(events[..n][i], id); }
    }
  }

  lemma {:induction false} NewIffMentioned(known: Known, event: TableEvent, id: Uuid)
    ensures id in After(known, event) <==> id in known || Mentions(event, id)
  {
    if event.Gossip? { UpdateInserts(known, event.peers); }
  }

  /** With distinct timestamps the order of the events, and all gossip, is immaterial to the keys. */
  lemma {:induction false} OrderIrrelevant(events1: seq<TableEvent>, events2: seq<TableEvent>, id: Uuid)
    requires SoundEvents(events1) && SoundEvents(events2) && Handshakes(events1) == Handshakes(events2)
    requires forall p, q :: p in Handshakes(events1) && q in Handshakes(events1) && p.id == q.id == id && p != q ==>
                              p.handshakeTimestamp != q.handshakeTimestamp
    requires exists p :: p in Handshakes(events1) && p.id == id
    ensures id in Replay(events1) && id in Replay(events2) && Replay(events1)[id] == Replay(events2)[id]
  {
    TableHoldsLatest(events1, id);
    TableHoldsLatest(events2, id);
  }

  /** Distinctness is needed: of two handshakes with one peer, the order is immaterial exactly when
      they are the same or carry different timestamps. */
  lemma {:induction false} TiesDependOnOrder(p: Peer, q: Peer)
    requires p.IsSound() && q.IsSound() && p.IsHandshaken() && q.IsHandshaken() && p.id == q.id
    ensures Replay([Add(p), Add(q)]) == Replay([Add(q), Add(p)])
       <==> p == q || p.handshakeTimestamp != q.handshakeTimestamp
  {
    TwoAdds(p, q);
    TwoAdds(q, p);
    assert AddPeer(map[p.id := p], q)[p.id] == AddPeer(map[q.id := q], p)[p.id] ==>
             AddPeer(map[p.id := p], q) == AddPeer(map[q.id := q], p);
  }

  lemma TwoAdds(p: Peer, q: Peer)
    ensures Replay([Add(p), Add(q)]) == AddPeer(map[p.id := p], q)
  {
    assert [Add(p), Add(q)][..1] == [Add(p)] && [Add(p)][..0] == [];
    assert Replay([Add(p)]) == map[p.id := p];
  }
}
