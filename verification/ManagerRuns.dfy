/** What holds of a peer manager over every sequence of messages it is given. */
module ManagerRuns {
  import opened Basics
  import opened Peers
  import opened Messages
  import opened PeerTable
  import opened PeerManagement

  /** A message to the manager, or a watchdog that goes off and queues a Down for its peer. */
  datatype What =
    | Request(from: Uuid, request: PeerRequest)
    | Reassign(chosen: set<Uuid>)
    | SendHeartbeat
    | Shutdown
    | WatchdogFires(id: Uuid)

  datatype Event = Event(now: Time, what: What)

  /** Peers in requests are sound, and those in peer lists crossed the network. */
  ghost predicate SoundWhat(what: What) {
    && (what.Request? && what.request.Status? ==> what.request.peer.IsSound())
    && (what.Request? && what.request.Peers? ==> forall p :: p in what.request.peers ==> p.IsWire())
  }

  predicate Enabled(s: Manager, event: Event) {
    event.what.WatchdogFires? ==>
      event.what.id in s.watchdogs && event.now - s.watchdogs[event.what.id] >= HEARTBEAT_MISSED_INTERVAL_MILLIS
  }

  function After(s: Manager, event: Event): Manager {
    match event.what
    case Request(from, request) => (
      match request
      case PeerList => s
      case Peers(peers) => s.(known := UpdatePeers(s.known, peers))
      case Status(peer, Up) => PeerAdded(s, peer)
      case Status(peer, Down) => PeerRemoved(s, peer.id)
      case StartSubscription => SubscriberStarted(s, from)
      case SubscriptionStarted => Acknowledged(s, from, event.now)
      case EndSubscription => SubscriberEnded(s, from)
      case Heartbeat => WatchdogReset(s, from, event.now))
    case Reassign(chosen) => Reassigned(s, chosen)
    case SendHeartbeat => s
    case Shutdown => s.(subscribedTo := {})
    case WatchdogFires(_) => s
  }

  /** What a node `me` in state `s` asks of the other actors when this message comes: an answer to whoever asks
      for a subscription or for its peers; its own news for everybody; the starts and ends of subscriptions that
      a choice or a shutdown makes; and its heartbeats. Nothing else, ever. */
  predicate Wanted(s: Manager, me: Uuid, event: Event, out: Out) {
    match out
    case SendTo(id, SubscriptionStarted) => event.what == What.Request(id, StartSubscription)
    case SendTo(id, StartSubscription) => IsAdded(s, event, id) && s.known[id].IsHandshaken()
    case SendTo(id, EndSubscription) =>
      id in s.subscribedTo && (event.what.Shutdown? || (event.what.Reassign? && id !in event.what.chosen))
    case SendTo(id, Heartbeat) => event.what.SendHeartbeat? && id in s.subscribers
    case SendTo(_, _) => false
    case SendKnown(id, peers) => event.what == What.Request(id, PeerList) && peers == s.known.Values
    case GreetThenSubscribe(addr, id) =>
      IsAdded(s, event, id) && !s.known[id].IsHandshaken() && s.known[id].sockaddr == addr
    case BroadcastStatus(peer, state) => event.what == What.Request(me, Status(peer, state))
    case Bootstrap => event.what.SendHeartbeat? && s.subscribedTo == {}
  }

  /** A choice adds a known peer. */
  predicate IsAdded(s: Manager, event: Event, id: Uuid) {
    event.what.Reassign? && id in event.what.chosen && id !in s.subscribedTo && id in s.known
  }

  /** Each of them once. */
  ghost predicate SendsExactly(s: Manager, me: Uuid, event: Event, outs: seq<Out>) {
    forall out :: multiset(outs)[out] == if Wanted(s, me, event, out) then 1 else 0
  }

  predicate IsEnd(out: Out) {
    out.SendTo? && out.request.EndSubscription?
  }

  /** Starts before ends, and the bootstrap before the heartbeats. */
  ghost predicate InOrder(outs: seq<Out>) {
    && (forall i, j :: 0 <= i < j < |outs| && IsEnd(outs[i]) ==> IsEnd(outs[j]))
    && (forall i :: 0 < i < |outs| ==> outs[i] != Bootstrap)
  }

  lemma {:induction false} Exactly(s: Manager, me: Uuid, event: Event, outs: seq<Out>)
    requires NoDuplicates(outs) && forall out :: out in outs <==> Wanted(s, me, event, out)
    ensures SendsExactly(s, me, event, outs)
  {
    hide Wanted;
    forall out ensures multiset(outs)[out] == if Wanted(s, me, event, out) then 1 else 0 {
      CountAtMostOne(outs, out);
    }
  }

  /** What is sent for one message, message by message. */
  ghost predicate SentFor(s: Manager, me: Uuid, event: Event, outs: seq<Out>) {
    match event.what
    case Request(from, request) => (
      match request
      case PeerList => outs == [SendKnown(from, set id | id in s.known :: s.known[id])]
      case Status(peer, state) => outs == if from == me then [BroadcastStatus(peer, state)] else []
      case StartSubscription => outs == [SendTo(from, SubscriptionStarted)]
      case _ => outs == [])
    case Reassign(chosen) => Enumerates(outs, Starts(s.known, chosen - s.subscribedTo) + Ends(s.subscribedTo - chosen))
    case SendHeartbeat => Enumerates(outs, (if s.subscribedTo == {} then {Bootstrap} else {}) + Beats(s.subscribers))
    case Shutdown => Enumerates(outs, Ends(s.subscribedTo))
    case WatchdogFires(_) => outs == []
  }

  lemma Apart(starts: seq<Out>, ends: seq<Out>)
    requires NoDuplicates(starts) && NoDuplicates(ends) && forall out :: out in starts ==> out !in ends
    ensures NoDuplicates(starts + ends)
  {
    var outs := starts + ends;
    forall i, j | 0 <= i < j < |outs| ensures outs[i] != outs[j] {
      if i < |starts| <= j { assert outs[i] in starts && outs[j] in ends; }
    }
  }

  lemma {:induction false} ReassignSends(s: Manager, me: Uuid, event: Event, starts: seq<Out>, ends: seq<Out>)
    requires event.what.Reassign? && Enumerates(starts, Starts(s.known, event.what.chosen - s.subscribedTo))
    requires Enumerates(ends, Ends(s.subscribedTo - event.what.chosen))
    ensures SentFor(s, me, event, starts + ends) && InOrder(starts + ends)
  {
    var outs := starts + ends;
    assert forall out :: out in starts <==> out in Elements(starts);
    assert forall out :: out in ends <==> out in Elements(ends);
    forall i | 0 <= i < |outs| ensures IsEnd(outs[i]) <==> i >= |starts| {
      assert i < |starts| ==> outs[i] == starts[i] && starts[i] in starts;
      assert i >= |starts| ==> outs[i] == ends[i - |starts|] && ends[i - |starts|] in ends;
    }
    assert Bootstrap !in outs;
    Apart(starts, ends);
    assert Elements(outs) == Elements(starts) + Elements(ends);
  }

  lemma {:induction false} ShutdownInOrder(ids: set<Uuid>, ends: seq<Out>)
    requires Enumerates(ends, Ends(ids))
    ensures InOrder(ends)
  {
    assert forall i :: 0 <= i < |ends| ==> ends[i] in Elements(ends);
  }

  lemma {:induction false} BeatsInOrder(first: set<Out>, ids: set<Uuid>, outs: seq<Out>)
    requires first <= {Bootstrap} && Enumerates(outs, first + Beats(ids))
    requires forall i :: 0 < i < |outs| ==> outs[i] != Bootstrap
    ensures InOrder(outs)
  {
    forall i | 0 <= i < |outs| ensures !IsEnd(outs[i]) { assert outs[i] in Elements(outs); }
  }

  /** Message by message or request by request: what is sent for a message is each request that wants it, once. */
  lemma {:induction false} MessageSends(s: Manager, me: Uuid, event: Event, outs: seq<Out>)
    requires SentFor(s, me, event, outs)
    ensures SendsExactly(s, me, event, outs)
  {
    if event.what.Request? {
      AnswerSends(s, me, event, outs);
    } else if !event.what.WatchdogFires? {
      EnumeratedSends(s, me, event, outs);
    }
  }

  lemma {:induction false} EnumeratedSends(s: Manager, me: Uuid, event: Event, outs: seq<Out>)
    requires SentFor(s, me, event, outs) && (event.what.Reassign? || event.what.SendHeartbeat? || event.what.Shutdown?)
    ensures SendsExactly(s, me, event, outs)
  {
    assert forall out :: out in outs <==> out in Elements(outs);
    Exactly(s, me, event, outs);
  }

  lemma {:induction false} AnswerSends(s: Manager, me: Uuid, event: Event, outs: seq<Out>)
    requires SentFor(s, me, event, outs) && event.what.Request?
    ensures SendsExactly(s, me, event, outs)
  {
    assert s.known.Values == set id | id in s.known :: s.known[id];
    forall out ensures out in outs <==> Wanted(s, me, event, out) {}
    Exactly(s, me, event, outs);
  }

  /** Every message to the actor, handled in place, is the step on values, and makes it send exactly what belongs
      to the message. */
  method HandleMessage(manager: PeerManager, event: Event) returns (outs: seq<Out>)
    requires manager.Valid()
    modifies manager
    ensures manager.Valid() && manager.State() == After(old(manager.State()), event)
    ensures SentFor(old(manager.State()), manager.me, event, outs) && InOrder(outs)
  {
    ghost var s := manager.State();
    outs := [];
    match event.what {
      case Request(from, request) =>
        match request {
          case PeerList => outs := manager.SendPeerList(from);
          case Peers(peers) => var _ := manager.InsertPeers(peers);
          case Status(peer, state) =>
            match state {
              case Up => manager.PeerUp(peer);
              case Down => manager.PeerDown(peer.id);
            }
            if from == manager.me {
              outs := [BroadcastStatus(peer, state)];
            }
          case StartSubscription => outs := manager.SubscriptionRequested(from);
          case SubscriptionStarted => manager.SubscriptionAcknowledged(from, event.now);
          case EndSubscription => manager.SubscriptionCancelled(from);
          case Heartbeat => manager.ResetHeartbeatWatchdog(from, event.now);
        }
      case Reassign(chosen) =>
        var starts, ends := manager.Reassign(chosen);
        outs := starts + ends;
        ReassignSends(s, manager.me, event, starts, ends);
      case SendHeartbeat =>
        outs := manager.SendHeartbeats();
        BeatsInOrder(if manager.subscribedTo == {} then {Bootstrap} else {}, manager.subscribers, outs);
      case Shutdown =>
        outs := manager.Shutdown();
        ShutdownInOrder(s.subscribedTo, outs);
      case WatchdogFires(_) =>
    }
  }

  /** The clock does not run backwards, and every event was possible. */
  ghost function Exec(events: seq<Event>): Option<Manager> {
    if events == [] then Some(Empty())
    else
      var (before, last) := (Exec(events[..|events| - 1]), events[|events| - 1]);
      if before.Some? && Enabled(before.value, last) && SoundWhat(last.what) &&
         (|events| > 1 ==> events[|events| - 2].now <= last.now)
      then Some(After(before.value, last))
      else None
  }

  lemma {:induction false} Prefix(events: seq<Event>, n: nat)
    requires Exec(events).Some? && n <= |events|
    ensures Exec(events[..n]).Some?
    ensures forall i :: 0 <= i < n && n < |events| ==> events[i].now <= events[n].now
  {
    if n == |events| {
      assert events[..n] == events;
    } else {
      var before := events[..|events| - 1];
      if n == |events| - 1 {
        if n > 0 { Prefix(before, n - 1); }
      } else {
        Prefix(before, n);
        assert before[..n] == events[..n];
      }
    }
  }

  // ---------------------------------------------------------------- the copies in the packet handler

  /** The peer that was taken down last, if any. */
  function LastRemoved(events: seq<Event>): set<Uuid> {
    if events == [] then {}
    else
      var what := events[|events| - 1].what;
      if what.Request? && what.request.Status? && what.request.state.Down? then {what.request.peer.id}
      else LastRemoved(events[..|events| - 1])
  }

  ghost predicate InStep(s: Manager, removed: set<Uuid>) {
    && TableOk(s.known) && s.handlerKeys == Projection(s.known)
    && s.subscribers <= s.known.Keys && s.subscribers <= s.handlerSubscribers <= s.subscribers + removed
  }

  lemma {:induction false} GossipHidesNoKeys(known: Known, peers: seq<Peer>)
    requires TableOk(known) && forall p :: p in peers ==> p.IsWire()
    ensures TableOk(UpdatePeers(known, peers)) && Projection(UpdatePeers(known, peers)) == Projection(known)
    ensures known.Keys <= UpdatePeers(known, peers).Keys
  {
    UpdateInserts(known, peers);
    assert Projection(UpdatePeers(known, peers)).Keys == Projection(known).Keys;
  }

  /** After every message the packet handler's keys are those of the peers with a completed
      handshake, although gossip changes the table without telling it; its subscribers are the
      manager's, plus at most the peer taken down last. */
  lemma {:induction false} HandlerMirrors(events: seq<Event>)
    requires Exec(events).Some?
    ensures InStep(Exec(events).value, LastRemoved(events))
  {
    if events != [] {
      HandlerMirrors(events[..|events| - 1]);
      var s, event := Exec(events[..|events| - 1]).value, events[|events| - 1];
      if event.what.Request? {
        match event.what.request
        case Peers(peers) => GossipHidesNoKeys(s.known, peers);
        case Status(peer, Up) => EventKeeps(s.known, Add(peer));
        case _ =>
      }
    }
  }

  /** In every run the packet handler holds exactly the address, key pair and public key of each known peer
      that has both keys. */
  lemma {:induction false} HandlerHolds(events: seq<Event>, id: Uuid)
    requires Exec(events).Some?
    ensures var (known, keys) := (Exec(events).value.known, Exec(events).value.handlerKeys);
            && (id in keys <==> id in known && known[id].ourKeypair.Some? && known[id].theirPublicKey.Some?)
            && (id in keys ==>
                  known[id].ourKeypair == Some(keys[id].keypair) && known[id].theirPublicKey == Some(keys[id].theirKey)
                  && keys[id].addr == known[id].sockaddr)
  {
    hide Exec;
    HandlerMirrors(events);
  }

  /** Whom the packet handler forwards to: the subscribers it was told of whose keys it was given. */
  function SendTargets(s: Manager): set<Uuid> {
    s.handlerSubscribers * s.handlerKeys.Keys
  }

  /** Right after a peer was taken down nothing is forwarded to it any more, although it is still on
      the packet handler's list of subscribers. */
  lemma {:induction false} RemovedIsNoTarget(events: seq<Event>, peer: Peer)
    requires events != [] && Exec(events).Some?
    requires events[|events| - 1].what.Request? && events[|events| - 1].what.request == Status(peer, Down)
    ensures var (s, before) := (Exec(events).value, Exec(events[..|events| - 1]).value);
            && peer.id !in SendTargets(s) && SendTargets(s) == s.subscribers * s.handlerKeys.Keys
            && (peer.id in before.subscribers ==> peer.id in s.handlerSubscribers)
  {
    HandlerMirrors(events);
  }

  // ---------------------------------------------------------------- subscriptions, exactly

  /** Peer `id` goes down. */
  predicate GoesDown(event: Event, id: Uuid) {
    && event.what.Request? && event.what.request.Status? && event.what.request.state.Down?
    && event.what.request.peer.id == id
  }

  /** `id` asks to subscribe, while it is known. */
  predicate Joins(s: Manager, event: Event, id: Uuid) {
    event.what == What.Request(id, StartSubscription) && id in s.known
  }

  /** `id` ends its subscription, goes down, or asks to subscribe while it is unknown. */
  predicate Leaves(s: Manager, event: Event, id: Uuid) {
    || event.what == What.Request(id, EndSubscription) || GoesDown(event, id)
    || (event.what == What.Request(id, StartSubscription) && id !in s.known)
  }

  lemma {:induction false} SubscribersStep(s: Manager, event: Event, id: Uuid)
    ensures id in After(s, event).subscribers <==> Joins(s, event, id) || (id in s.subscribers && !Leaves(s, event, id))
    ensures Joins(s, event, id) ==> id in After(s, event).handlerSubscribers
  {
    hide Projection, AddPeer, UpdatePeers;
  }

  /** The node's state when message `i` came. */
  ghost function StateAt(events: seq<Event>, i: nat): Manager
    requires Exec(events).Some? && i < |events|
  {
    Prefix(events, i);
    Exec(events[..i]).value
  }

  lemma SameStateAt(events: seq<Event>, i: nat)
    requires Exec(events).Some? && i < |events|
    ensures Exec(events[..|events| - 1]).Some?
    ensures i < |events| - 1 ==> StateAt(events, i) == StateAt(events[..|events| - 1], i)
    ensures i == |events| - 1 ==> StateAt(events, i) == Exec(events[..|events| - 1]).value
  {
    if i < |events| - 1 { assert events[..|events| - 1][..i] == events[..i]; }
  }

  /** A subscriber since message `i`. */
  ghost predicate JoinedAt(events: seq<Event>, i: nat, id: Uuid)
    requires Exec(events).Some?
  {
    && i < |events| && Joins(StateAt(events, i), events[i], id)
    && forall j: nat :: i < j < |events| ==> !Leaves(StateAt(events, j), events[j], id)
  }

  /** Over every run: `id` is a subscriber if and only if it asked while it was known and since then
      neither ended, nor went down, nor asked while unknown. */
  lemma {:induction false} SubscribersAre(events: seq<Event>, id: Uuid)
    requires Exec(events).Some?
    ensures id in Exec(events).value.subscribers <==> exists i: nat :: JoinedAt(events, i, id)
  {
    hide After, StateAt, Joins, Leaves, Enabled, SoundWhat;
    if events != [] {
      var n, before := |events| - 1, events[..|events| - 1];
      forall i: nat | i <= n ensures i < n ==> StateAt(events, i) == StateAt(before, i) { SameStateAt(events, i); }
      SameStateAt(events, n);
      SubscribersAre(before, id);
      SubscribersStep(Exec(before).value, events[n], id);
      if Joins(StateAt(events, n), events[n], id) {
        assert JoinedAt(events, n, id);
      } else if id in Exec(events).value.subscribers {
        var i: nat :| JoinedAt(before, i, id);
        assert JoinedAt(events, i, id);
      }
      if i: nat :| JoinedAt(events, i, id) && i < n {
        assert JoinedAt(before, i, id);
      }
    }
  }

  /** `id` is on the list that message `i` sends to the packet handler. A peer going down sends the list as it was
      before it is taken off; a subscription that starts or ends sends the list as it is afterwards. */
  ghost predicate ListedBy(events: seq<Event>, i: nat, id: Uuid)
    requires Exec(events).Some? && i < |events|
  {
    if IsDown(events[i]) then id in StateAt(events, i).subscribers
    else IsSubscription(events[i]) && id in After(StateAt(events, i), events[i]).subscribers
  }

  predicate IsDown(event: Event) {
    event.what.Request? && event.what.request.Status? && event.what.request.state.Down?
  }

  predicate IsSubscription(event: Event) {
    event.what.Request? && (event.what.request.StartSubscription? || event.what.request.EndSubscription?)
  }

  ghost predicate LastListedBy(events: seq<Event>, i: nat, id: Uuid)
    requires Exec(events).Some?
  {
    && i < |events| && ListedBy(events, i, id)
    && forall j: nat :: i < j < |events| ==> !IsDown(events[j]) && !IsSubscription(events[j])
  }

  lemma {:induction false} PushStep(s: Manager, event: Event)
    ensures After(s, event).handlerSubscribers
         == if IsDown(event) then s.subscribers
            else if IsSubscription(event) then After(s, event).subscribers else s.handlerSubscribers
  {
    hide Projection, AddPeer, UpdatePeers;
  }

  /** Over every run: the packet handler's list of subscribers is the one that the last message of a peer going
      down, or of a subscription starting or ending, sent; it is empty if there was none. */
  lemma {:induction false} HandlerSubscribersAre(events: seq<Event>, id: Uuid)
    requires Exec(events).Some?
    ensures id in Exec(events).value.handlerSubscribers <==> exists i: nat :: LastListedBy(events, i, id)
  {
    hide After, StateAt, Enabled, SoundWhat, IsDown, IsSubscription;
    if events != [] {
      var n, before := |events| - 1, events[..|events| - 1];
      forall i: nat | i <= n ensures i < n ==> StateAt(events, i) == StateAt(before, i) { SameStateAt(events, i); }
      SameStateAt(events, n);
      HandlerSubscribersAre(before, id);
      PushStep(Exec(before).value, events[n]);
      if IsDown(events[n]) || IsSubscription(events[n]) {
        assert LastListedBy(events, n, id) <==> ListedBy(events, n, id);
      } else if id in Exec(events).value.handlerSubscribers {
        var i: nat :| LastListedBy(before, i, id);
        assert LastListedBy(events, i, id);
      }
      if i: nat :| LastListedBy(events, i, id) && i < n {
        assert LastListedBy(before, i, id);
      }
    }
  }

  /** Whoever asks while known is on the packet handler's list at once. */
  lemma {:induction false} AskingSubscribes(events: seq<Event>, id: Uuid)
    requires events != [] && Exec(events).Some? && events[|events| - 1].what == What.Request(id, StartSubscription)
    requires id in StateAt(events, |events| - 1).known
    ensures id in Exec(events).value.subscribers && id in Exec(events).value.handlerSubscribers
  {
    SubscribersStep(StateAt(events, |events| - 1), events[|events| - 1], id);
  }

  /** Peer `id` acknowledges a subscription. */
  predicate Acknowledges(event: Event, id: Uuid) {
    event.what == What.Request(id, SubscriptionStarted)
  }

  /** The node shuts down, `id` goes down, or others are chosen instead. */
  predicate Forgets(event: Event, id: Uuid) {
    event.what.Shutdown? || GoesDown(event, id) || (event.what.Reassign? && id !in event.what.chosen)
  }

  ghost predicate AcknowledgedAt(events: seq<Event>, i: nat, id: Uuid) {
    i < |events| && Acknowledges(events[i], id) && forall j :: i < j < |events| ==> !Forgets(events[j], id)
  }

  /** Over every run: the node is subscribed to `id` if and only if `id` acknowledged and since then did
      not go down, was not dropped by a choice and the node did not shut down. */
  lemma {:induction false} SubscriptionsAre(events: seq<Event>, id: Uuid)
    requires Exec(events).Some?
    ensures id in Exec(events).value.subscribedTo <==> exists i: nat :: AcknowledgedAt(events, i, id)
  {
    hide Projection, AddPeer, UpdatePeers, Enabled, SoundWhat;
    if events != [] {
      var n, before := |events| - 1, events[..|events| - 1];
      SubscriptionsAre(before, id);
      SubscriptionsStep(Exec(before).value, events[n], id);
      hide After, Acknowledges, Forgets;
      if Acknowledges(events[n], id) {
        assert AcknowledgedAt(events, n, id);
      } else if id in Exec(events).value.subscribedTo {
        var i: nat :| AcknowledgedAt(before, i, id);
        assert AcknowledgedAt(events, i, id);
      }
      if i: nat :| AcknowledgedAt(events, i, id) && i < n {
        assert AcknowledgedAt(before, i, id);
      }
    }
  }

  lemma {:induction false} SubscriptionsStep(s: Manager, event: Event, id: Uuid)
    ensures id in After(s, event).subscribedTo
       <==> Acknowledges(event, id) || (id in s.subscribedTo && !Forgets(event, id))
  {
    hide Projection, AddPeer, UpdatePeers;
  }

  // ---------------------------------------------------------------- requests, exactly

  /** A subscription is ended by a message exactly when it stops being one although its peer did not go down. */
  lemma {:induction false} EndsAreAnnounced(s: Manager, me: Uuid, event: Event, id: Uuid)
    ensures Wanted(s, me, event, SendTo(id, EndSubscription))
       <==> id in s.subscribedTo && id !in After(s, event).subscribedTo && !GoesDown(event, id)
  {
    hide Projection, AddPeer, UpdatePeers;
    SubscriptionsStep(s, event, id);
  }

  /** What was sent for each message of a run. */
  ghost predicate SentOver(me: Uuid, events: seq<Event>, sent: seq<seq<Out>>)
    requires Exec(events).Some?
  {
    && |sent| == |events|
    && forall i: nat :: i < |events| ==> SentFor(StateAt(events, i), me, events[i], sent[i])
  }

  function All(sent: seq<seq<Out>>): seq<Out> {
    if sent == [] then [] else All(sent[..|sent| - 1]) + sent[|sent| - 1]
  }

  ghost function WhenWanted(me: Uuid, events: seq<Event>, out: Out): set<nat>
    requires Exec(events).Some?
  {
    set i: nat | i < |events| && Wanted(StateAt(events, i), me, events[i], out)
  }

  lemma {:induction false} WantedGrows(me: Uuid, events: seq<Event>, out: Out)
    requires Exec(events).Some? && events != []
    ensures var (before, n) := (events[..|events| - 1], |events| - 1);
            && Exec(before).Some?
            && WhenWanted(me, events, out)
               == WhenWanted(me, before, out) + if Wanted(Exec(before).value, me, events[n], out) then {n} else {}
  {
    hide Exec, StateAt, Wanted;
    forall i: nat | i < |events|
      ensures Exec(events[..|events| - 1]).Some?
      ensures i < |events| - 1 ==> StateAt(events, i) == StateAt(events[..|events| - 1], i)
    {
      SameStateAt(events, i);
    }
    SameStateAt(events, |events| - 1);
  }

  lemma {:induction false} SentBefore(me: Uuid, events: seq<Event>, sent: seq<seq<Out>>)
    requires Exec(events).Some? && events != [] && SentOver(me, events, sent)
    ensures var (before, n) := (events[..|events| - 1], |events| - 1);
            && Exec(before).Some? && SentOver(me, before, sent[..n])
            && SentFor(Exec(before).value, me, events[n], sent[n])
  {
    hide Exec, StateAt, SentFor;
    forall i: nat | i < |events|
      ensures Exec(events[..|events| - 1]).Some?
      ensures i < |events| - 1 ==> StateAt(events, i) == StateAt(events[..|events| - 1], i)
    {
      SameStateAt(events, i);
    }
    SameStateAt(events, |events| - 1);
  }

  /** Over every run: each request is sent as often as it was wanted, and none without being wanted. */
  lemma {:induction false} RequestsAre(me: Uuid, events: seq<Event>, sent: seq<seq<Out>>, out: Out)
    requires Exec(events).Some? && SentOver(me, events, sent)
    ensures multiset(All(sent))[out] == |WhenWanted(me, events, out)|
  {
    hide Exec, SentOver, SentFor, Wanted, WhenWanted;
    if events == [] {
      NothingSent(me, sent, out);
    } else {
      var n, before := |events| - 1, events[..|events| - 1];
      SameLength(me, events, sent);
      SentBefore(me, events, sent);
      RequestsAre(me, before, sent[..n], out);
      MessageSends(Exec(before).value, me, events[n], sent[n]);
      WantedGrows(me, events, out);
      AtMost(me, before, out);
    }
  }

  lemma SameLength(me: Uuid, events: seq<Event>, sent: seq<seq<Out>>)
    requires Exec(events).Some? && SentOver(me, events, sent)
    ensures |sent| == |events|
  {
  }

  lemma AtMost(me: Uuid, events: seq<Event>, out: Out)
    requires Exec(events).Some?
    ensures |events| !in WhenWanted(me, events, out)
  {
  }

  lemma NothingSent(me: Uuid, sent: seq<seq<Out>>, out: Out)
    requires Exec([]).Some? && SentOver(me, [], sent)
    ensures sent == [] && WhenWanted(me, [], out) == {}
  {
  }

  /** Over every run: a node acknowledges each request for a subscription once, and no other. */
  lemma {:induction false} OneAnswerPerRequest(me: Uuid, events: seq<Event>, sent: seq<seq<Out>>, id: Uuid)
    requires Exec(events).Some? && SentOver(me, events, sent)
    ensures multiset(All(sent))[SendTo(id, SubscriptionStarted)]
         == |set i: nat | i < |events| && events[i].what == What.Request(id, StartSubscription)|
  {
    hide Exec, StateAt;
    RequestsAre(me, events, sent, SendTo(id, SubscriptionStarted));
    assert WhenWanted(me, events, SendTo(id, SubscriptionStarted))
        == set i: nat | i < |events| && events[i].what == What.Request(id, StartSubscription);
  }

  // ---------------------------------------------------------------- watchdogs

  ghost predicate NoShutdown(events: seq<Event>) {
    forall i :: 0 <= i < |events| ==> !events[i].what.Shutdown?
  }

  /** Subscriptions are acknowledged by known peers only. */
  ghost predicate KnownAcknowledge(events: seq<Event>) {
    forall i :: 0 <= i < |events| && events[i].what.Request? && events[i].what.request.SubscriptionStarted? ==>
      Exec(events[..i]).Some? && events[i].what.from in Exec(events[..i]).value.known
  }

  ghost predicate Guarded(s: Manager) {
    s.watchdogs.Keys <= s.subscribedTo * s.known.Keys
  }

  ghost predicate FullyGuarded(s: Manager) {
    s.watchdogs.Keys == s.subscribedTo <= s.known.Keys
  }

  /** Not an acknowledgement by a stranger, and no shutdown that forgets subscriptions. */
  predicate KeepsGuard(s: Manager, event: Event) {
    && (event.what.Request? && event.what.request.SubscriptionStarted? ==> event.what.from in s.known)
    && (event.what.Shutdown? ==> s.subscribedTo == {})
  }

  /** One event keeps every subscription guarded exactly when it keeps the guard in that sense. */
  lemma {:induction false} GuardStep(s: Manager, event: Event)
    ensures Guarded(s) && !event.what.Shutdown? ==> Guarded(After(s, event))
    ensures FullyGuarded(s) ==> (FullyGuarded(After(s, event)) <==> KeepsGuard(s, event))
  {
    if event.what.Request? && event.what.request.Peers? { UpdateInserts(s.known, event.what.request.peers); }
  }

  /** A peer comes up and goes down, and its acknowledgement, queued behind, makes the node subscribe to
      a stranger that no watchdog guards. */
  lemma {:induction false} LateAcknowledgement(from: Uuid, peer: Peer, now: Time)
    requires peer.IsSound()
    ensures var events := [Event(now, What.Request(from, Status(peer, Up))),
                           Event(now, What.Request(from, Status(peer, Down))),
                           Event(now, What.Request(peer.id, SubscriptionStarted))];
            && Exec(events).Some? && Exec(events).value.subscribedTo == {peer.id}
            && Exec(events).value.known == map[] && Exec(events).value.watchdogs == map[]
  {
    var up := Event(now, What.Request(from, Status(peer, Up)));
    var down := Event(now, What.Request(from, Status(peer, Down)));
    var ack := Event(now, What.Request(peer.id, SubscriptionStarted));
    hide Exec, Projection;
    ExecNothing();
    ExecMore([], up);
    assert [] + [up] == [up];
    ExecMore([up], down);
    assert [up] + [down] == [up, down];
    ExecMore([up, down], ack);
    assert [up, down] + [ack] == [up, down, ack];
  }

  lemma ExecNothing()
    ensures Exec([]) == Some(Empty())
  {
  }

  lemma ExecMore(events: seq<Event>, event: Event)
    requires Exec(events).Some? && Enabled(Exec(events).value, event) && SoundWhat(event.what)
    requires events != [] ==> events[|events| - 1].now <= event.now
    ensures Exec(events + [event]) == Some(After(Exec(events).value, event))
  {
    assert (events + [event])[..|events|] == events;
  }

  /** Until shutdown, watchdogs guard subscriptions to known peers only; and when only known peers
      acknowledge, they guard every subscription. */
  lemma {:induction false} WatchdogsGuardSubscriptions(events: seq<Event>)
    requires Exec(events).Some? && NoShutdown(events)
    ensures Guarded(Exec(events).value)
    ensures KnownAcknowledge(events) ==> FullyGuarded(Exec(events).value)
  {
    if events != [] {
      var before := events[..|events| - 1];
      assert forall i :: 0 <= i < |before| ==> before[..i] == events[..i] && before[i] == events[i];
      WatchdogsGuardSubscriptions(before);
      hide After, Guarded, FullyGuarded;
      GuardStep(Exec(before).value, events[|events| - 1]);
    }
  }

  /** A sign of life from `id`. */
  predicate IsBeat(event: Event, id: Uuid) {
    event.what.Request? && event.what.from == id
        && (event.what.request.Heartbeat? || event.what.request.SubscriptionStarted?)
  }

  /** A sign of life of a known peer the node is subscribed to, or subscribes to with it. */
  predicate Arms(s: Manager, event: Event, id: Uuid) {
    IsBeat(event, id) && id in s.known && (event.what.request.SubscriptionStarted? || id in s.subscribedTo)
  }

  /** Any sign of life, `id` going down, or a subscription to it that is dropped by a choice. */
  predicate Touches(s: Manager, event: Event, id: Uuid) {
    IsBeat(event, id) || GoesDown(event, id) || (event.what.Reassign? && id in s.subscribedTo - event.what.chosen)
  }

  lemma {:induction false} WatchdogStep(s: Manager, event: Event, id: Uuid)
    ensures ArmedSince(After(s, event), id)
         == if Arms(s, event, id) then Some(event.now) else if Touches(s, event, id) then None else ArmedSince(s, id)
  {
    hide Projection, AddPeer, UpdatePeers;
  }

  /** The watchdog for `id` was armed by message `i` and not touched since. */
  ghost predicate ArmedAt(events: seq<Event>, i: nat, id: Uuid)
    requires Exec(events).Some?
  {
    && i < |events| && Arms(StateAt(events, i), events[i], id)
    && forall j: nat :: i < j < |events| ==> !Touches(StateAt(events, j), events[j], id)
  }

  /** Over every run: a watchdog stands armed at time t if and only if its peer gave the last sign of life
      then, known and subscribed to, and was neither dropped nor went down since. */
  lemma {:induction false} WatchdogsAre(events: seq<Event>, id: Uuid, t: Time)
    requires Exec(events).Some?
    ensures ArmedSince(Exec(events).value, id) == Some(t)
       <==> exists i: nat :: ArmedAt(events, i, id) && events[i].now == t
  {
    hide After, StateAt, Arms, Touches, Enabled, SoundWhat;
    if events != [] {
      var n, before := |events| - 1, events[..|events| - 1];
      forall i: nat | i <= n ensures i < n ==> StateAt(events, i) == StateAt(before, i) { SameStateAt(events, i); }
      SameStateAt(events, n);
      WatchdogsAre(before, id, t);
      WatchdogStep(Exec(before).value, events[n], id);
      ArmingTouches(Exec(before).value, events[n], id);
      if Arms(StateAt(events, n), events[n], id) {
        assert ArmedAt(events, n, id);
      } else if ArmedSince(Exec(events).value, id) == Some(t) {
        var i: nat :| ArmedAt(before, i, id) && before[i].now == t;
        assert ArmedAt(events, i, id);
      }
      if i: nat :| ArmedAt(events, i, id) && events[i].now == t && i < n {
        assert ArmedAt(before, i, id);
      }
    }
  }

  lemma ArmingTouches(s: Manager, event: Event, id: Uuid)
    ensures Arms(s, event, id) ==> Touches(s, event, id)
  {
  }

  /** A watchdog can go off at `now` if and only if the sign of life that armed it is 15 seconds old and it
      was not touched since. */
  lemma {:induction false} FiresIff(events: seq<Event>, id: Uuid, now: Time)
    requires Exec(events).Some?
    ensures Enabled(Exec(events).value, Event(now, WatchdogFires(id)))
       <==> exists i: nat :: i < |events| && ArmedAt(events, i, id) && now - events[i].now >= 15_000
  {
    hide Exec, StateAt, Arms, Touches;
    var watchdogs := Exec(events).value.watchdogs;
    if id in watchdogs { WatchdogsAre(events, id, watchdogs[id]); }
    if i: nat :| i < |events| && ArmedAt(events, i, id) && now - events[i].now >= 15_000 {
      WatchdogsAre(events, id, events[i].now);
    }
  }

  lemma {:induction false} NoBeatSinceArmed(events: seq<Event>, id: Uuid, i: nat, k: nat)
    requires Exec(events).Some? && ArmedAt(events, k, id) && i < |events| && IsBeat(events[i], id)
    ensures events[i].now <= events[k].now
  {
    hide Exec, StateAt, Arms;
    assert Touches(StateAt(events, i), events[i], id);
    if i < k { Prefix(events, k); }
  }

  lemma {:induction false} WasPossible(events: seq<Event>, j: nat)
    requires Exec(events).Some? && j < |events|
    ensures Exec(events[..j]).Some? && Enabled(Exec(events[..j]).value, events[j])
  {
    hide After, Enabled, SoundWhat;
    Prefix(events, j + 1);
    assert events[..j + 1][..j] == events[..j];
  }

  /** A watchdog goes off only when its peer gave no sign of life for 15 seconds. */
  lemma {:induction false} WatchdogIsPatient(events: seq<Event>, id: Uuid, i: nat, j: nat)
    requires Exec(events).Some? && i < j < |events| && IsBeat(events[i], id) && events[j].what == WatchdogFires(id)
    ensures events[j].now - events[i].now >= 15_000
  {
    hide Exec, ArmedAt, Enabled;
    var before := events[..j];
    WasPossible(events, j);
    FiresIff(before, id, events[j].now);
    var k: nat :| k < j && ArmedAt(before, k, id) && events[j].now - before[k].now >= 15_000;
    NoBeatSinceArmed(before, id, i, k);
  }
}
