/** From handshakes to traffic: the two ends of a link end up with the same session. */
module Convergence {
  import opened Basics
  import opened Peers
  import opened Messages
  import opened PeerTable
  import opened PeerManagement
  import Net = HandshakeNetwork
  import Runs = ManagerRuns
  import Shake = HandshakeCompletion

  // ---------------------------------------------------------------- what a manager is told

  /** What a message adds to the manager's table. */
  function TableEffect(what: Runs.What): seq<TableEvent> {
    if what.Request? && what.request.Peers? then [Gossip(what.request.peers)]
    else if what.Request? && what.request.Status? && what.request.state.Up? then [Add(what.request.peer)]
    else []
  }

  function TableEvents(events: seq<Runs.Event>): seq<TableEvent> {
    if events == [] then [] else TableEvents(events[..|events| - 1]) + TableEffect(events[|events| - 1].what)
  }

  predicate TakesDown(what: Runs.What) {
    what.Request? && what.request.Status? && what.request.state.Down?
  }

  ghost predicate NobodyDown(events: seq<Runs.Event>) {
    forall i :: 0 <= i < |events| ==> !TakesDown(events[i].what)
  }

  lemma {:induction false} EffectOnKnown(s: Manager, event: Runs.Event)
    requires !TakesDown(event.what)
    ensures var effect := TableEffect(event.what);
            Runs.After(s, event).known == if effect == [] then s.known else PeerTable.After(s.known, effect[0])
  {
    hide AddPeer, UpdatePeers, Projection;
  }

  lemma {:induction false} ReplayMore(table: seq<TableEvent>, effect: seq<TableEvent>)
    requires |effect| <= 1
    ensures Replay(table + effect) == if effect == [] then Replay(table) else PeerTable.After(Replay(table), effect[0])
  {
    hide PeerTable.After;
    assert (table + effect)[..|table|] == table;
    if effect == [] { assert table + effect == table; }
  }

  lemma EffectSize(what: Runs.What)
    ensures |TableEffect(what)| <= 1
    ensures Runs.SoundWhat(what) ==> SoundEvents(TableEffect(what))
  {
  }

  lemma {:induction false} ToldSoundly(events: seq<Runs.Event>)
    requires Runs.Exec(events).Some? && NobodyDown(events)
    ensures SoundEvents(TableEvents(events))
  {
    hide Runs.After, TakesDown, TableEffect, Runs.SoundWhat, SoundEvent;
    if events != [] {
      ToldSoundly(events[..|events| - 1]);
      EffectSize(events[|events| - 1].what);
    }
  }

  /** A manager's table is what the messages about peers make of it, if none takes a peer down. */
  lemma {:induction false} KnownIsReplay(events: seq<Runs.Event>)
    requires Runs.Exec(events).Some? && NobodyDown(events)
    ensures Runs.Exec(events).value.known == Replay(TableEvents(events)) && SoundEvents(TableEvents(events))
  {
    hide Runs.After, PeerTable.After, TakesDown, TableEffect, Runs.SoundWhat, SoundEvents, Replay;
    ToldSoundly(events);
    if events == [] {
      NothingTold();
    } else {
      var before, last := events[..|events| - 1], events[|events| - 1];
      KnownIsReplay(before);
      EffectSize(last.what);
      EffectOnKnown(Runs.Exec(before).value, last);
      ReplayMore(TableEvents(before), TableEffect(last.what));
    }
  }

  lemma NothingTold()
    ensures Replay([]) == map[]
  {
  }

  // ---------------------------------------------------------------- what a manager is told after a peer went down

  /** The messages since peer `id` went down last, or all of them. */
  function SinceDown(events: seq<Runs.Event>, id: Uuid): seq<Runs.Event> {
    if events == [] || Runs.GoesDown(events[|events| - 1], id) then []
    else SinceDown(events[..|events| - 1], id) + [events[|events| - 1]]
  }

  /** What the manager was told about peer `id` that still counts. */
  function ToldSince(events: seq<Runs.Event>, id: Uuid): seq<TableEvent> {
    TableEvents(SinceDown(events, id))
  }

  lemma {:induction false} ToldMore(events: seq<Runs.Event>, id: Uuid)
    requires events != []
    ensures var last := events[|events| - 1];
            ToldSince(events, id)
            == if Runs.GoesDown(last, id) then [] else ToldSince(events[..|events| - 1], id) + TableEffect(last.what)
  {
    hide TableEffect, Runs.GoesDown;
    var before := SinceDown(events[..|events| - 1], id);
    assert (before + [events[|events| - 1]])[..|before|] == before;
  }

  lemma {:induction false} ToldSinceSoundly(events: seq<Runs.Event>, id: Uuid)
    requires Runs.Exec(events).Some?
    ensures SoundEvents(ToldSince(events, id))
  {
    hide Runs.After, TableEffect, Runs.SoundWhat, SoundEvent, ToldSince;
    if events == [] {
      NothingSince(id);
    } else {
      ToldSinceSoundly(events[..|events| - 1], id);
      ToldMore(events, id);
      EffectSize(events[|events| - 1].what);
    }
  }

  lemma NothingSince(id: Uuid)
    ensures ToldSince([], id) == []
  {
  }

  lemma {:induction false} EffectOnEntry(s: Manager, known: Known, event: Runs.Event, id: Uuid)
    requires !Runs.GoesDown(event, id) && Lookup(s.known, id) == Lookup(known, id)
    ensures var effect := TableEffect(event.what);
            Lookup(Runs.After(s, event).known, id)
            == if effect == [] then Lookup(known, id) else Lookup(PeerTable.After(known, effect[0]), id)
  {
    hide AddPeer, UpdatePeers, Projection;
    var effect := TableEffect(event.what);
    if effect != [] { EntriesApart(s.known, known, effect[0], id); }
    if !TakesDown(event.what) { EffectOnKnown(s, event); }
  }

  /** In every run, with peers going down and coming back: the entry of a peer is what the messages since
      it went down last make of it. */
  lemma {:induction false} EntryIsReplay(events: seq<Runs.Event>, id: Uuid)
    requires Runs.Exec(events).Some?
    ensures Lookup(Runs.Exec(events).value.known, id) == Lookup(Replay(ToldSince(events, id)), id)
  {
    hide Runs.After, PeerTable.After, TableEffect, Runs.SoundWhat, Replay, ToldSince, Runs.GoesDown, Runs.Enabled;
    NothingTold();
    if events == [] {
      NothingSince(id);
    } else {
      var before, last := events[..|events| - 1], events[|events| - 1];
      EntryIsReplay(before, id);
      ToldMore(events, id);
      EffectSize(last.what);
      if Runs.GoesDown(last, id) {
        DownIsGone(Runs.Exec(before).value, last, id);
      } else {
        EffectOnEntry(Runs.Exec(before).value, Replay(ToldSince(before, id)), last, id);
        ReplayMore(ToldSince(before, id), TableEffect(last.what));
      }
    }
  }

  lemma DownIsGone(s: Manager, event: Runs.Event, id: Uuid)
    requires Runs.GoesDown(event, id)
    ensures id !in Runs.After(s, event).known
  {
  }

  /** In every run: a peer is known if and only if it was mentioned since it went down last; and its entry
      is that of the latest handshake with it since then, if there was one. */
  lemma {:induction false} KnownSinceDown(events: seq<Runs.Event>, id: Uuid)
    requires Runs.Exec(events).Some?
    ensures var (known, told) := (Runs.Exec(events).value.known, ToldSince(events, id));
            && (id in known <==> exists i :: 0 <= i < |told| && Mentions(told[i], id))
            && (if exists p :: p in Handshakes(told) && p.id == id
                then id in known && known[id].IsHandshaken() && Latest(Handshakes(told), id, known[id])
                else id in known ==> known[id].IsWire())
  {
    hide Runs.Exec, ToldSince, Replay, Mentions, Handshakes, Latest;
    EntryIsReplay(events, id);
    ToldSinceSoundly(events, id);
    KnownIffMentioned(ToldSince(events, id), id);
    TableHoldsLatest(ToldSince(events, id), id);
  }

  // ---------------------------------------------------------------- what the handshakes produced

  /** The handshakes that came up at a node. */
  ghost function UpsAt(w: Net.World, a: Addr): set<Peer> {
    set i | 0 <= i < |w.past.log| && w.past.log[i].Up? && w.past.log[i].node == a :: w.past.log[i].peer
  }

  /** The i-th event is a handshake with `b` coming up at `a`. */
  ghost predicate UpBetween(w: Net.World, i: nat, a: Addr, b: Addr) {
    i < |w.past.log| && w.past.log[i].Up? && w.past.log[i].node == a && w.past.log[i].peer.sockaddr == b
  }

  /** No GoTeam got lost for good: where a responder came up, the initiator did too. */
  ghost predicate Settled(w: Net.World, a: Addr, b: Addr) {
    forall j: nat :: UpBetween(w, j, a, b) && w.past.log[j].role.Responder? ==>
      exists i: nat :: Net.IsUp(w, i, Net.Initiator, w.past.log[j].hid)
  }

  /** Different handshakes of the two nodes carry different timestamps. */
  ghost predicate DistinctTimes(w: Net.World, a: Addr, b: Addr) {
    forall i: nat, j: nat ::
      UpBetween(w, i, a, b) && UpBetween(w, j, b, a) && w.past.log[i].hid != w.past.log[j].hid ==>
      w.past.log[i].peer.handshakeTimestamp != w.past.log[j].peer.handshakeTimestamp
  }

  ghost predicate MirrorPeers(p: Peer, q: Peer) {
    && p.IsHandshaken() && q.IsHandshaken() && p.handshakeTimestamp == q.handshakeTimestamp
    && Mirrored(LinkOf(p), LinkOf(q))
  }

  lemma {:induction false} UpFacts(c: Net.Cluster, steps: seq<Net.Step>, i: nat)
    requires Net.DistinctIds(c) && Net.Exec(c, steps).Some?
    requires i < |Net.Exec(c, steps).value.past.log| && Net.Exec(c, steps).value.past.log[i].Up?
    ensures var event := Net.Exec(c, steps).value.past.log[i];
            var (a, p) := (event.node, event.peer);
            && a in c && p.sockaddr in c && a != p.sockaddr && p.id == c[p.sockaddr].id
            && p.IsHandshaken() && p.handshakeTimestamp.Some?
  {
    hide Net.Exec, Net.PastOk, Net.NodesOk, Net.PacketsOk;
    Net.RunKeeps(c, steps);
    UpRecorded(c, Net.Exec(c, steps).value.past, i);
  }

  lemma {:induction false} UpRecorded(c: Net.Cluster, past: Net.History, i: nat)
    requires Net.PastOk(c, past) && i < |past.log| && past.log[i].Up?
    ensures var (a, p) := (past.log[i].node, past.log[i].peer);
            && a in c && p.sockaddr in c && a != p.sockaddr && p.id == c[p.sockaddr].id
            && p.IsHandshaken() && p.handshakeTimestamp.Some?
  {
    assert Net.EventOk(past, i);
    var hid := past.log[i].hid;
    if past.log[i].role.Responder? {
      assert Net.AcceptedOk(c, past, hid);
    } else {
      assert Net.CompletedOk(c, past, hid);
    }
  }

  /** The other end of a handshake came up as well, with the mirrored record. */
  lemma {:induction false} OtherEnd(c: Net.Cluster, steps: seq<Net.Step>, a: Addr, b: Addr, i: nat) returns (j: nat)
    requires Net.DistinctIds(c) && Net.Exec(c, steps).Some? && Settled(Net.Exec(c, steps).value, a, b)
    requires UpBetween(Net.Exec(c, steps).value, i, a, b)
    ensures var w := Net.Exec(c, steps).value;
            && UpBetween(w, j, b, a) && w.past.log[j].hid == w.past.log[i].hid
            && w.past.log[j].role != w.past.log[i].role
            && MirrorPeers(w.past.log[i].peer, w.past.log[j].peer)
  {
    hide Net.Exec;
    var w := Net.Exec(c, steps).value;
    var hid := w.past.log[i].hid;
    if w.past.log[i].role.Responder? {
      j :| Net.IsUp(w, j, Net.Initiator, hid);
      Net.KeyAgreement(c, steps, j, i, hid);
    } else {
      Net.ResponderFirst(c, steps, i, hid);
      j :| 0 <= j < i && Net.IsUp(w, j, Net.Responder, hid);
      Net.KeyAgreement(c, steps, i, j, hid);
    }
  }

  /** No handshake with `b` that came up at `a` is later than the i-th event. */
  ghost predicate IsLatest(w: Net.World, a: Addr, b: Addr, i: nat)
    requires UpBetween(w, i, a, b)
  {
    && w.past.log[i].peer.handshakeTimestamp.Some?
    && forall k: nat :: UpBetween(w, k, a, b) && w.past.log[k].peer.handshakeTimestamp.Some? ==>
         w.past.log[k].peer.handshakeTimestamp.value <= w.past.log[i].peer.handshakeTimestamp.value
  }

  /** The entry for `b` in the table of `a` stems from the latest handshake of the two. */
  lemma {:induction false} EntryStemsFrom(c: Net.Cluster, steps: seq<Net.Step>, a: Addr, b: Addr,
                                          events: seq<TableEvent>)
    returns (i: nat)
    requires Net.DistinctIds(c) && Net.Exec(c, steps).Some? && b in c
    requires SoundEvents(events) && Handshakes(events) == UpsAt(Net.Exec(c, steps).value, a)
    requires exists k: nat :: UpBetween(Net.Exec(c, steps).value, k, a, b)
    ensures var w := Net.Exec(c, steps).value;
            Holds(c, w, a, b, Replay(events), i) && IsLatest(w, a, b, i)
  {
    hide Net.Exec, Replay, Handshakes;
    var w, id := Net.Exec(c, steps).value, c[b].id;
    var k: nat :| UpBetween(w, k, a, b);
    UpFacts(c, steps, k);
    assert w.past.log[k].peer in UpsAt(w, a);
    TableHoldsLatest(events, id);
    var best := Replay(events)[id];
    assert best in UpsAt(w, a);
    i :| 0 <= i < |w.past.log| && w.past.log[i].Up? && w.past.log[i].node == a && w.past.log[i].peer == best;
    UpFacts(c, steps, i);
    forall k: nat | UpBetween(w, k, a, b) && w.past.log[k].peer.handshakeTimestamp.Some?
      ensures w.past.log[k].peer.handshakeTimestamp.value <= best.handshakeTimestamp.value
    {
      UpFacts(c, steps, k);
      assert w.past.log[k].peer in UpsAt(w, a);
    }
  }

  ghost predicate NoLater(p: Peer, q: Peer) {
    p.handshakeTimestamp.Some? && q.handshakeTimestamp.Some? && p.handshakeTimestamp.value <= q.handshakeTimestamp.value
  }

  /** The i-th and the j-th event are the two ends of one handshake of `a` and `b`, and no other
      handshake of the two is later. */
  ghost predicate IsLatestPair(w: Net.World, a: Addr, b: Addr, i: nat, j: nat) {
    && UpBetween(w, i, a, b) && UpBetween(w, j, b, a) && w.past.log[i].hid == w.past.log[j].hid
    && (forall k: nat :: UpBetween(w, k, a, b) ==> NoLater(w.past.log[k].peer, w.past.log[i].peer))
    && (forall k: nat :: UpBetween(w, k, b, a) ==> NoLater(w.past.log[k].peer, w.past.log[j].peer))
  }

  /** The table of `a` holds for `b` what came up with the i-th event. */
  ghost predicate Holds(c: Net.Cluster, w: Net.World, a: Addr, b: Addr, known: Known, i: nat) {
    && UpBetween(w, i, a, b)
    && b in c && c[b].id in known && known[c[b].id] == w.past.log[i].peer
  }

  /** The two tables hold, for each other, the two ends of one handshake. */
  ghost predicate SameSession(c: Net.Cluster, w: Net.World, a: Addr, b: Addr, knownA: Known, knownB: Known) {
    exists i: nat, j: nat :: Holds(c, w, a, b, knownA, i) && Holds(c, w, b, a, knownB, j) &&
                             w.past.log[i].hid == w.past.log[j].hid
  }

  /** And that handshake is the latest of the two nodes. */
  ghost predicate LatestSession(c: Net.Cluster, w: Net.World, a: Addr, b: Addr, knownA: Known, knownB: Known) {
    exists i: nat, j: nat :: Holds(c, w, a, b, knownA, i) && Holds(c, w, b, a, knownB, j) && IsLatestPair(w, a, b, i, j)
  }

  /** What two managers learned: all handshakes of their nodes, in whatever order, amid whatever gossip. */
  ghost predicate Learned(c: Net.Cluster, w: Net.World, a: Addr, b: Addr, eventsA: seq<TableEvent>,
                          eventsB: seq<TableEvent>) {
    && a in c && b in c && SoundEvents(eventsA) && SoundEvents(eventsB)
    && Handshakes(eventsA) == UpsAt(w, a) && Handshakes(eventsB) == UpsAt(w, b)
  }

  /** However the two managers learned of their handshakes, their entries for each other are the two
      ends of the latest handshake of the two nodes, with mirrored keys. */
  lemma {:induction false} TablesConverge(c: Net.Cluster, steps: seq<Net.Step>, a: Addr, b: Addr,
                                          eventsA: seq<TableEvent>, eventsB: seq<TableEvent>)
    requires Net.DistinctIds(c) && Net.Exec(c, steps).Some?
    requires var w := Net.Exec(c, steps).value;
             && Learned(c, w, a, b, eventsA, eventsB)
             && Settled(w, a, b) && Settled(w, b, a) && DistinctTimes(w, a, b)
             && exists k: nat :: UpBetween(w, k, a, b)
    ensures LatestSession(c, Net.Exec(c, steps).value, a, b, Replay(eventsA), Replay(eventsB))
    ensures c[b].id in Replay(eventsA) && c[a].id in Replay(eventsB)
    ensures MirrorPeers(Replay(eventsA)[c[b].id], Replay(eventsB)[c[a].id])
  {
    hide Net.Exec, Replay, Handshakes, UpsAt, MirrorPeers, SoundEvents, Net.DistinctIds;
    var w := Net.Exec(c, steps).value;
    var k: nat :| UpBetween(w, k, a, b);
    var k' := OtherEnd(c, steps, a, b, k);
    var i := EntryStemsFrom(c, steps, a, b, eventsA);
    var j := EntryStemsFrom(c, steps, b, a, eventsB);
    var i' := OtherEnd(c, steps, a, b, i);
    var j' := OtherEnd(c, steps, b, a, j);
    SameTimes(w, i, j, i', j');
    assert w.past.log[i].hid == w.past.log[j].hid;
    TwoEnds(c, steps, a, b, i, j);
    LatestPair(c, steps, a, b, i, j);
  }

  lemma {:induction false} LatestPair(c: Net.Cluster, steps: seq<Net.Step>, a: Addr, b: Addr, i: nat, j: nat)
    requires Net.DistinctIds(c) && Net.Exec(c, steps).Some?
    requires var w := Net.Exec(c, steps).value;
             && UpBetween(w, i, a, b) && UpBetween(w, j, b, a) && w.past.log[i].hid == w.past.log[j].hid
             && IsLatest(w, a, b, i) && IsLatest(w, b, a, j)
    ensures IsLatestPair(Net.Exec(c, steps).value, a, b, i, j)
  {
    hide Net.Exec;
    var w := Net.Exec(c, steps).value;
    forall k: nat | UpBetween(w, k, a, b) ensures NoLater(w.past.log[k].peer, w.past.log[i].peer) {
      UpFacts(c, steps, k);
    }
    forall k: nat | UpBetween(w, k, b, a) ensures NoLater(w.past.log[k].peer, w.past.log[j].peer) {
      UpFacts(c, steps, k);
    }
  }

  lemma {:induction false} SameTimes(w: Net.World, i: nat, j: nat, i': nat, j': nat)
    requires i < |w.past.log| && j < |w.past.log| && i' < |w.past.log| && j' < |w.past.log|
    requires w.past.log[i].Up? && w.past.log[j].Up? && w.past.log[i'].Up? && w.past.log[j'].Up?
    requires MirrorPeers(w.past.log[i].peer, w.past.log[i'].peer)
               && MirrorPeers(w.past.log[j].peer, w.past.log[j'].peer)
    requires w.past.log[i].peer.handshakeTimestamp.Some? && w.past.log[j].peer.handshakeTimestamp.Some?
    requires w.past.log[i'].peer.handshakeTimestamp.Some? ==>
               w.past.log[i'].peer.handshakeTimestamp.value <= w.past.log[j].peer.handshakeTimestamp.value
    requires w.past.log[j'].peer.handshakeTimestamp.Some? ==>
               w.past.log[j'].peer.handshakeTimestamp.value <= w.past.log[i].peer.handshakeTimestamp.value
    ensures w.past.log[i].peer.handshakeTimestamp == w.past.log[j].peer.handshakeTimestamp
  {
  }

  /** The two ends of a handshake lie at different nodes, in different roles, with mirrored records. */
  lemma {:induction false} TwoEnds(c: Net.Cluster, steps: seq<Net.Step>, a: Addr, b: Addr, i: nat, j: nat)
    requires Net.DistinctIds(c) && Net.Exec(c, steps).Some?
    requires var w := Net.Exec(c, steps).value;
             UpBetween(w, i, a, b) && UpBetween(w, j, b, a) && w.past.log[i].hid == w.past.log[j].hid
    ensures MirrorPeers(Net.Exec(c, steps).value.past.log[i].peer, Net.Exec(c, steps).value.past.log[j].peer)
  {
    hide Net.Exec;
    var w := Net.Exec(c, steps).value;
    var hid := w.past.log[i].hid;
    UpFacts(c, steps, i);
    if w.past.log[i].role == w.past.log[j].role {
      Net.AtMostOnce(c, steps, i, j, w.past.log[i].role, hid);
    } else if w.past.log[i].role.Initiator? {
      Net.KeyAgreement(c, steps, i, j, hid);
    } else {
      Net.KeyAgreement(c, steps, j, i, hid);
    }
  }

  /** The latest handshake of the two nodes came up at both. */
  ghost predicate LatestIsComplete(w: Net.World, a: Addr, b: Addr) {
    exists i: nat, j: nat :: IsLatestPair(w, a, b, i, j)
  }

  /** In general, with any GoTeam lost: the two managers hold the two ends of one handshake if and
      only if the latest handshake of the two nodes came up at both; and then it is that one. */
  lemma {:induction false} SameSessionIff(c: Net.Cluster, steps: seq<Net.Step>, a: Addr, b: Addr,
                                          eventsA: seq<TableEvent>, eventsB: seq<TableEvent>)
    requires Net.DistinctIds(c) && Net.Exec(c, steps).Some?
    requires var w := Net.Exec(c, steps).value;
             && Learned(c, w, a, b, eventsA, eventsB) && DistinctTimes(w, a, b)
             && (exists k: nat :: UpBetween(w, k, a, b)) && (exists k: nat :: UpBetween(w, k, b, a))
    ensures var w := Net.Exec(c, steps).value;
            && (SameSession(c, w, a, b, Replay(eventsA), Replay(eventsB)) <==> LatestIsComplete(w, a, b))
            && (SameSession(c, w, a, b, Replay(eventsA), Replay(eventsB)) ==>
                  LatestSession(c, w, a, b, Replay(eventsA), Replay(eventsB)))
  {
    hide Net.Exec, Replay, Handshakes, UpsAt, SoundEvents, Net.DistinctIds, IsLatestPair, MirrorPeers;
    var w := Net.Exec(c, steps).value;
    var i := EntryStemsFrom(c, steps, a, b, eventsA);
    var j := EntryStemsFrom(c, steps, b, a, eventsB);
    if i': nat, j': nat :| Holds(c, w, a, b, Replay(eventsA), i') && Holds(c, w, b, a, Replay(eventsB), j') &&
                           w.past.log[i'].hid == w.past.log[j'].hid {
      LatestPair(c, steps, a, b, i', j');
    }
    if i': nat, j': nat :| IsLatestPair(w, a, b, i', j') {
      SameTimeAsLatest(c, steps, a, b, i, j, i', j');
      assert w.past.log[i].hid == w.past.log[j].hid;
    }
  }

  lemma {:induction false} SameTimeAsLatest(c: Net.Cluster, steps: seq<Net.Step>, a: Addr, b: Addr, i: nat, j: nat,
                                            i': nat, j': nat)
    requires Net.DistinctIds(c) && Net.Exec(c, steps).Some?
    requires var w := Net.Exec(c, steps).value;
             && UpBetween(w, i, a, b) && UpBetween(w, j, b, a) && IsLatest(w, a, b, i) && IsLatest(w, b, a, j)
             && IsLatestPair(w, a, b, i', j')
    ensures var w := Net.Exec(c, steps).value;
            w.past.log[i].peer.handshakeTimestamp == w.past.log[j].peer.handshakeTimestamp
  {
    hide Net.Exec;
    var w := Net.Exec(c, steps).value;
    TwoEnds(c, steps, a, b, i', j');
    assert NoLater(w.past.log[i].peer, w.past.log[i'].peer) && NoLater(w.past.log[j].peer, w.past.log[j'].peer);
  }

  // ---------------------------------------------------------------- the whole stack

  /** Two nodes shook hands, once or often; each manager was told of its handshakes and of nobody's
      going down. Then whatever either packet handler encrypts for the other, the other decrypts. */
  lemma {:induction false} MessagesGetThrough(c: Net.Cluster, steps: seq<Net.Step>, a: Addr, b: Addr,
                                             eventsA: seq<Runs.Event>, eventsB: seq<Runs.Event>, m: Message)
    requires Net.DistinctIds(c) && Net.Exec(c, steps).Some? && a in c && b in c
    requires Runs.Exec(eventsA).Some? && NobodyDown(eventsA) && Runs.Exec(eventsB).Some? && NobodyDown(eventsB)
    requires var w := Net.Exec(c, steps).value;
             && Settled(w, a, b) && Settled(w, b, a) && DistinctTimes(w, a, b)
             && Handshakes(TableEvents(eventsA)) == UpsAt(w, a) && Handshakes(TableEvents(eventsB)) == UpsAt(w, b)
             && exists k: nat :: UpBetween(w, k, a, b)
    ensures var (keysA, keysB) := (Runs.Exec(eventsA).value.handlerKeys, Runs.Exec(eventsB).value.handlerKeys);
            && c[b].id in keysA && c[a].id in keysB
            && Decrypt(keysB, c[a].id, Encrypt(keysA[c[b].id], m)) == Some(m.OverTheWire())
            && Decrypt(keysA, c[b].id, Encrypt(keysB[c[a].id], m)) == Some(m.OverTheWire())
  {
    hide Net.Exec, Runs.Exec, Replay, Handshakes, UpsAt, TableEvents;
    KnownIsReplay(eventsA);
    KnownIsReplay(eventsB);
    TablesConverge(c, steps, a, b, TableEvents(eventsA), TableEvents(eventsB));
    Runs.HandlerMirrors(eventsA);
    Runs.HandlerMirrors(eventsB);
  }

  /** Since `b` went down last, the manager of `a` was told of this handshake with it, and of no invented one. */
  ghost predicate Knows(c: Net.Cluster, w: Net.World, a: Addr, b: Addr, events: seq<Runs.Event>, i: nat)
    requires b in c && UpBetween(w, i, a, b)
  {
    var told := Handshakes(ToldSince(events, c[b].id));
    w.past.log[i].peer in told && forall p :: p in told && p.id == c[b].id ==> p in UpsAt(w, a)
  }

  /** Then its table holds a record as late as that one. */
  lemma {:induction false} EntryAsLate(c: Net.Cluster, steps: seq<Net.Step>, a: Addr, b: Addr, events: seq<Runs.Event>,
                                       i: nat) returns (k: nat)
    requires Net.DistinctIds(c) && Net.Exec(c, steps).Some? && b in c && Runs.Exec(events).Some?
    requires var w := Net.Exec(c, steps).value;
             && UpBetween(w, i, a, b) && Knows(c, w, a, b, events, i)
             && forall k: nat :: UpBetween(w, k, a, b) ==> NoLater(w.past.log[k].peer, w.past.log[i].peer)
    ensures var w := Net.Exec(c, steps).value;
            && Holds(c, w, a, b, Runs.Exec(events).value.known, k) && w.past.log[k].peer.IsHandshaken()
            && w.past.log[k].peer.handshakeTimestamp == w.past.log[i].peer.handshakeTimestamp
  {
    hide Net.Exec, Runs.Exec, Handshakes, ToldSince;
    var w, id := Net.Exec(c, steps).value, c[b].id;
    UpFacts(c, steps, i);
    KnownSinceDown(events, id);
    var best := Runs.Exec(events).value.known[id];
    k :| 0 <= k < |w.past.log| && w.past.log[k].Up? && w.past.log[k].node == a && w.past.log[k].peer == best;
    UpFacts(c, steps, k);
    assert UpBetween(w, k, a, b);
  }

  /** Peers may go down and come back, at either end and any number of times. If the latest handshake of two
      nodes came up at both, and each manager was told of its end of it since the other went down last,
      then whatever either packet handler encrypts for the other, the other decrypts. */
  lemma {:induction false} RecoversAfterDown(c: Net.Cluster, steps: seq<Net.Step>, a: Addr, b: Addr,
                                             eventsA: seq<Runs.Event>, eventsB: seq<Runs.Event>, i: nat, j: nat,
                                             m: Message)
    requires Net.DistinctIds(c) && Net.Exec(c, steps).Some? && a in c && b in c
    requires Runs.Exec(eventsA).Some? && Runs.Exec(eventsB).Some?
    requires var w := Net.Exec(c, steps).value;
             && IsLatestPair(w, a, b, i, j) && DistinctTimes(w, a, b)
             && Knows(c, w, a, b, eventsA, i) && Knows(c, w, b, a, eventsB, j)
    ensures var (keysA, keysB) := (Runs.Exec(eventsA).value.handlerKeys, Runs.Exec(eventsB).value.handlerKeys);
            && c[b].id in keysA && c[a].id in keysB
            && Decrypt(keysB, c[a].id, Encrypt(keysA[c[b].id], m)) == Some(m.OverTheWire())
            && Decrypt(keysA, c[b].id, Encrypt(keysB[c[a].id], m)) == Some(m.OverTheWire())
  {
    hide Net.Exec, Runs.Exec, Knows;
    var w := Net.Exec(c, steps).value;
    var k := EntryAsLate(c, steps, a, b, eventsA, i);
    var l := EntryAsLate(c, steps, b, a, eventsB, j);
    TwoEnds(c, steps, a, b, i, j);
    assert w.past.log[k].hid == w.past.log[j].hid && w.past.log[i].hid == w.past.log[l].hid;
    TwoEnds(c, steps, a, b, k, l);
    Runs.HandlerMirrors(eventsA);
    Runs.HandlerMirrors(eventsB);
  }

  /** A manager that was told of one peer coming up. */
  function Told(from: Uuid, peer: Peer, now: Time): seq<Runs.Event> {
    [Runs.Event(now, Runs.What.Request(from, Status(peer, Up)))]
  }

  /** And of another one, or of the same one once more. */
  function ToldAgain(from: Uuid, first: Peer, second: Peer, now: Time): seq<Runs.Event> {
    Told(from, first, now) + Told(from, second, now)
  }

  lemma {:induction false} ToldOnce(from: Uuid, peer: Peer, now: Time)
    requires peer.IsSound() && peer.IsHandshaken()
    ensures Runs.Exec(Told(from, peer, now)).Some? && NobodyDown(Told(from, peer, now))
    ensures TableEvents(Told(from, peer, now)) == [Add(peer)] && Handshakes([Add(peer)]) == {peer}
  {
    var events := Told(from, peer, now);
    assert events[..0] == [];
    assert [Add(peer)][0] == Add(peer);
  }

  lemma {:induction false} ToldTwice(from: Uuid, first: Peer, second: Peer, now: Time)
    requires first.IsSound() && first.IsHandshaken() && second.IsSound() && second.IsHandshaken()
    ensures Runs.Exec(ToldAgain(from, first, second, now)).Some? && NobodyDown(ToldAgain(from, first, second, now))
    ensures TableEvents(ToldAgain(from, first, second, now)) == [Add(first), Add(second)]
    ensures Handshakes([Add(first), Add(second)]) == {first, second}
  {
    var events := ToldAgain(from, first, second, now);
    ToldOnce(from, first, now);
    assert events[..1] == Told(from, first, now);
    var adds := [Add(first), Add(second)];
    assert adds[0] == Add(first) && adds[1] == Add(second);
    assert Handshakes(adds) == {first, second} by {
      assert forall i :: 0 <= i < |adds| ==> adds[i].peer in {first, second};
    }
  }

  /** The conditions are met after the first handshake on a new network, so the very next message in
      either direction gets through. */
  lemma {:induction false} FirstContact(c: Net.Cluster, p: Shake.Plan, now: Time, m: Message)
    requires Net.DistinctIds(c) && Shake.Fits(c, Net.Init(c), p)
    ensures var steps := [Net.Boot(p.a), Net.Boot(p.b)] + Shake.Steps(c, p);
            var eventsA := Told(c[p.a].id, Shake.PeerAtA(c, p), now);
            var eventsB := Told(c[p.b].id, Shake.PeerAtB(c, p), now);
            && Net.Exec(c, steps).Some? && Runs.Exec(eventsA).Some? && Runs.Exec(eventsB).Some?
            && var (keysA, keysB) := (Runs.Exec(eventsA).value.handlerKeys, Runs.Exec(eventsB).value.handlerKeys);
               && c[p.b].id in keysA && c[p.a].id in keysB
               && Decrypt(keysB, c[p.a].id, Encrypt(keysA[c[p.b].id], m)) == Some(m.OverTheWire())
               && Decrypt(keysA, c[p.b].id, Encrypt(keysB[c[p.a].id], m)) == Some(m.OverTheWire())
  {
    hide Net.Exec, Runs.Exec, Handshakes, TableEvents, Told, Shake.Steps, NobodyDown, Encrypt, Decrypt,
         Net.DistinctIds;
    var steps := [Net.Boot(p.a), Net.Boot(p.b)] + Shake.Steps(c, p);
    Shake.FirstHandshake(c, p);
    var w := Net.Exec(c, steps).value;
    AfterOneHandshake(w, p.a, p.b, p.hid, Shake.PeerAtA(c, p), Shake.PeerAtB(c, p));
    ToldOnce(c[p.a].id, Shake.PeerAtA(c, p), now);
    ToldOnce(c[p.b].id, Shake.PeerAtB(c, p), now);
    MessagesGetThrough(c, steps, p.a, p.b, Told(c[p.a].id, Shake.PeerAtA(c, p), now),
                       Told(c[p.b].id, Shake.PeerAtB(c, p), now), m);
  }

  /** The responder came up, then the initiator, and after that only a continuation ran, if anything. */
  ghost predicate FirstLog(log: seq<Net.Event>, a: Addr, b: Addr, hid: Uuid, atA: Peer, atB: Peer) {
    && |log| >= 2 && log[0] == Net.Up(b, Net.Responder, hid, atB) && log[1] == Net.Up(a, Net.Initiator, hid, atA)
    && forall i :: 2 <= i < |log| ==> log[i].Ran?
  }

  lemma {:induction false} AfterOneHandshake(w: Net.World, a: Addr, b: Addr, hid: Uuid, atA: Peer, atB: Peer)
    requires a != b && atA.sockaddr == b && atB.sockaddr == a
    requires FirstLog(w.past.log, a, b, hid, atA, atB)
    ensures Settled(w, a, b) && Settled(w, b, a) && DistinctTimes(w, a, b)
    ensures UpsAt(w, a) == {atA} && UpsAt(w, b) == {atB} && exists k: nat :: UpBetween(w, k, a, b)
  {
    assert Net.IsUp(w, 1, Net.Initiator, hid) && UpBetween(w, 1, a, b);
    assert w.past.log[0].Up? && w.past.log[1].Up?;
  }

  // ---------------------------------------------------------------- a session that splits

  /** What a manager that was told of these peers gives its packet handler. */
  lemma {:induction false} KeysAfter(events: seq<Runs.Event>, id: Uuid, peer: Peer)
    requires Runs.Exec(events).Some? && NobodyDown(events) && peer.IsHandshaken()
    requires id in Replay(TableEvents(events)) && Replay(TableEvents(events))[id] == peer
    ensures id in Runs.Exec(events).value.handlerKeys && Runs.Exec(events).value.handlerKeys[id] == LinkOf(peer)
  {
    hide Runs.Exec, Replay, TableEvents;
    KnownIsReplay(events);
    Runs.HandlerMirrors(events);
  }

  lemma {:induction false} LogOfThree(w: Net.World, a: Addr, b: Addr, hid1: Uuid, hid2: Uuid, atA: Peer, atB: Peer,
                                      later: Peer)
    requires a != b && atA.sockaddr == b && atB.sockaddr == a && later.sockaddr == a && hid1 != hid2
    requires atB.handshakeTimestamp.Some? && later.handshakeTimestamp.Some?
    requires atB.handshakeTimestamp.value < later.handshakeTimestamp.value
    requires w.past.log != [] && FirstLog(w.past.log[..|w.past.log| - 1], a, b, hid1, atA, atB)
    requires w.past.log[|w.past.log| - 1] == Net.Up(b, Net.Responder, hid2, later)
    ensures !LatestIsComplete(w, a, b) && UpsAt(w, a) == {atA} && UpsAt(w, b) == {atB, later}
  {
    var n := |w.past.log| - 1;
    assert UpBetween(w, 1, a, b) && UpBetween(w, 0, b, a) && UpBetween(w, n, b, a);
    assert w.past.log[0].Up? && w.past.log[1].Up? && w.past.log[n].Up?;
    assert !NoLater(w.past.log[n].peer, w.past.log[0].peer);
    assert UpsAt(w, b) == {atB, later} by {
      assert atB in UpsAt(w, b) && later in UpsAt(w, b);
    }
  }

  /** A run in which the session splits: two handshakes, the GoTeam of the second lost. Both managers
      learned of everything that came up at their nodes, the latest handshake is not complete, and
      when the second one has fresh keys neither packet handler can open what the other seals. */
  lemma {:induction false} SplitSession(c: Net.Cluster, p: Shake.Plan, q: Shake.Plan, now: Time, m: Message)
    requires Net.DistinctIds(c) && Shake.Fits(c, Net.Init(c), p) && Shake.Follows(p, q)
    requires q.mine.keypair.publicKey !in {p.mine.keypair.publicKey, p.theirs.keypair.publicKey}
    ensures var steps := [Net.Boot(p.a), Net.Boot(p.b)] + Shake.Steps(c, p) + Shake.Opening(c, q);
            var eventsA := Told(c[p.a].id, Shake.PeerAtA(c, p), now);
            var eventsB := ToldAgain(c[p.b].id, Shake.PeerAtB(c, p), Shake.PeerAtB(c, q), now);
            && Net.Exec(c, steps).Some? && Runs.Exec(eventsA).Some? && Runs.Exec(eventsB).Some?
            && Handshakes(TableEvents(eventsA)) == UpsAt(Net.Exec(c, steps).value, p.a)
            && Handshakes(TableEvents(eventsB)) == UpsAt(Net.Exec(c, steps).value, p.b)
            && !LatestIsComplete(Net.Exec(c, steps).value, p.a, p.b)
            && var (keysA, keysB) := (Runs.Exec(eventsA).value.handlerKeys, Runs.Exec(eventsB).value.handlerKeys);
               && c[p.b].id in keysA && c[p.a].id in keysB
               && Decrypt(keysB, c[p.a].id, Encrypt(keysA[c[p.b].id], m)) == None
               && Decrypt(keysA, c[p.b].id, Encrypt(keysB[c[p.a].id], m)) == None
  {
    hide Net.Exec, Runs.Exec, Handshakes, TableEvents, Told, ToldAgain, Shake.Steps, Shake.Opening, NobodyDown, UpsAt,
         LatestIsComplete, Net.DistinctIds;
    Shake.SecondGoTeamLost(c, p, q);
    var atA, atB, later := Shake.PeerAtA(c, p), Shake.PeerAtB(c, p), Shake.PeerAtB(c, q);
    LogOfThree(Net.Exec(c, [Net.Boot(p.a), Net.Boot(p.b)] + Shake.Steps(c, p) + Shake.Opening(c, q)).value, p.a, p.b,
               p.hid, q.hid, atA, atB, later);
    ToldOnce(c[p.a].id, atA, now);
    ToldTwice(c[p.b].id, atB, later, now);
    OneAdd(atA);
    TwoAdds(atB, later);
    KeysAfter(Told(c[p.a].id, atA, now), c[p.b].id, atA);
    KeysAfter(ToldAgain(c[p.b].id, atB, later, now), c[p.a].id, later);
    assert q.mine.keypair.publicKey in {later.ourKeypair.value.publicKey, later.theirPublicKey.value};
  }

  lemma OneAdd(peer: Peer)
    ensures Replay([Add(peer)]) == map[peer.id := peer]
  {
    assert [Add(peer)][..0] == [];
  }
}
