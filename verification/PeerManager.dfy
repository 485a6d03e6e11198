/** The peer manager of one node (src/peer_manager.rs). */
module PeerManagement {
  import opened Basics
  import opened Peers
  import opened Messages
  import opened PeerTable

  const HEARTBEAT_MISSED_INTERVAL_MILLIS: int := 15_000

  /** What the manager asks the other actors to do, besides updating their copies of its tables. */
  datatype Out =
    | SendTo(id: Uuid, request: PeerRequest)
    | SendKnown(id: Uuid, peers: set<Peer>) // a Peers request; a hash map does not fix the order of its list
    | GreetThenSubscribe(addr: Addr, id: Uuid)
    | BroadcastStatus(peer: Peer, state: PeerState)
    | Bootstrap

  /** The manager's tables; when each watchdog was armed; and the two copies that the packet handler
      was given last. */
  datatype Manager = Manager(
    known: Known, subscribers: set<Uuid>, subscribedTo: set<Uuid>, watchdogs: map<Uuid, Time>,
    handlerKeys: Keys, handlerSubscribers: set<Uuid>)

  function Empty(): Manager {
    Manager(map[], {}, {}, map[], map[], {})
  }

  // ---------------------------------------------------------------- the operations on values

  function LinkOf(p: Peer): Link
    requires p.IsHandshaken()
  {
    Link(p.sockaddr, p.ourKeypair.value, p.theirPublicKey.value)
  }

  /** The keys the packet handler needs: those of the peers with a completed handshake. */
  function Projection(known: Known): Keys {
    map id | id in known && known[id].IsHandshaken() :: LinkOf(known[id])
  }

  function PushKeys(s: Manager): Manager {
    s.(handlerKeys := Projection(s.known))
  }

  function PushSubscribers(s: Manager): Manager {
    s.(handlerSubscribers := s.subscribers)
  }

  function PeerAdded(s: Manager, peer: Peer): Manager {
    PushKeys(s.(known := AddPeer(s.known, peer)))
  }

  /** The subscribers are pushed before the peer is taken off their list. */
  function PeerRemoved(s: Manager, id: Uuid): Manager {
    PushKeys(PushSubscribers(s).(watchdogs := s.watchdogs - {id}, subscribedTo := s.subscribedTo - {id},
                                 subscribers := s.subscribers - {id}, known := s.known - {id}))
  }

  function SubscriberStarted(s: Manager, id: Uuid): Manager {
    PushSubscribers(s.(subscribers := if id in s.known then s.subscribers + {id} else s.subscribers - {id}))
  }

  function SubscriberEnded(s: Manager, id: Uuid): Manager {
    PushSubscribers(s.(subscribers := s.subscribers - {id}))
  }

  function WatchdogReset(s: Manager, id: Uuid, now: Time): Manager {
    s.(watchdogs := if id in s.subscribedTo && id in s.known then s.watchdogs[id := now] else s.watchdogs - {id})
  }

  function Acknowledged(s: Manager, id: Uuid, now: Time): Manager {
    WatchdogReset(s.(subscribedTo := s.subscribedTo + {id}), id, now)
  }

  function Reassigned(s: Manager, chosen: set<Uuid>): Manager {
    s.(subscribedTo := s.subscribedTo * chosen, watchdogs := s.watchdogs - (s.subscribedTo - chosen))
  }

  /** When the watchdog of `id` was armed, if it is. */
  function ArmedSince(s: Manager, id: Uuid): Option<Time> {
    if id in s.watchdogs then Some(s.watchdogs[id]) else None
  }

  /** How a subscription to `id` is begun: at once, or after a handshake. */
  function StartOut(known: Known, id: Uuid): Out
    requires id in known
  {
    if known[id].IsHandshaken() then SendTo(id, StartSubscription) else GreetThenSubscribe(known[id].sockaddr, id)
  }

  /** Each of these is requested once, and nothing else. */
  ghost predicate Enumerates(outs: seq<Out>, wanted: set<Out>) {
    NoDuplicates(outs) && Elements(outs) == wanted
  }

  ghost function Starts(known: Known, ids: set<Uuid>): set<Out> {
    set id | id in ids && id in known :: StartOut(known, id)
  }

  ghost function Ends(ids: set<Uuid>): set<Out> {
    set id | id in ids :: SendTo(id, EndSubscription)
  }

  ghost function Beats(ids: set<Uuid>): set<Out> {
    set id | id in ids :: SendTo(id, Heartbeat)
  }

  // ---------------------------------------------------------------- the actor

  class PeerManager {
    const me: Uuid
    var known: Known
    var subscribers: set<Uuid>
    var subscribedTo: set<Uuid>
    var watchdogs: map<Uuid, Time>
    var handlerKeys: Keys
    var handlerSubscribers: set<Uuid>

    ghost function State(): Manager
      reads this
    {
      Manager(known, subscribers, subscribedTo, watchdogs, handlerKeys, handlerSubscribers)
    }

    /** Peers are filed under their identifiers. */
    ghost predicate Valid()
      reads this
    {
      forall id :: id in known ==> known[id].id == id
    }

    constructor (me: Uuid)
      ensures Valid() && State() == Empty() && this.me == me
    {
      this.me := me;
      known, subscribers, subscribedTo, watchdogs, handlerKeys, handlerSubscribers := map[], {}, {}, map[], map[], {};
    }

    method UpdateKeys()
      requires Valid()
      modifies this`handlerKeys
      ensures Valid() && State() == PushKeys(old(State()))
    {
      var keys: Keys := map[];
      var todo := known.Keys;
      while todo != {}
        invariant todo <= known.Keys
        invariant keys == map id | id in known && id !in todo && known[id].IsHandshaken() :: LinkOf(known[id])
      {
        var id :| id in todo;
        var p := known[id];
        if p.IsHandshaken() {
          keys := keys[p.id := LinkOf(p)];
        }
        todo := todo - {id};
      }
      handlerKeys := keys;
    }

    method UpdateSubscribers()
      modifies this`handlerSubscribers
      ensures State() == PushSubscribers(old(State()))
    {
      handlerSubscribers := subscribers;
    }

    method PeerUp(peer: Peer)
      requires Valid()
      modifies this`known, this`handlerKeys
      ensures Valid() && State() == PeerAdded(old(State()), peer)
    {
      if peer.id in known {
        var existing := known[peer.id];
        if existing.handshakeTimestamp.Some? && peer.handshakeTimestamp.Some? {
          if peer.handshakeTimestamp.value > existing.handshakeTimestamp.value {
            known := known[peer.id := peer];
          }
        } else if peer.IsHandshaken() {
          known := known[peer.id := peer];
        }
      } else {
        known := known[peer.id := peer];
      }
      UpdateKeys();
    }

    method PeerDown(id: Uuid)
      requires Valid()
      modifies this
      ensures Valid() && State() == PeerRemoved(old(State()), id)
      ensures handlerSubscribers == old(subscribers) && subscribers == old(subscribers) - {id}
      ensures subscribedTo == old(subscribedTo) - {id} && watchdogs == old(watchdogs) - {id}
      ensures known == old(known) - {id}
    {
      UpdateSubscribers();
      watchdogs := watchdogs - {id};
      subscribedTo := subscribedTo - {id};
      subscribers := subscribers - {id};
      known := known - {id};
      UpdateKeys();
    }

    method InsertPeers(peers: seq<Peer>) returns (added: nat)
      requires Valid()
      modifies this`known
      ensures Valid() && State() == old(State()).(known := UpdatePeers(old(known), peers))
      ensures |known| == |old(known)| + added
    {
      added := 0;
      for i := 0 to |peers|
        invariant Valid() && known == UpdatePeers(old(known), peers[..i]) && |known| == |old(known)| + added
      {
        assert peers[..i + 1][..i] == peers[..i];
        if peers[i].id !in known {
          known := known[peers[i].id := peers[i]];
          added := added + 1;
        }
      }
      assert peers[..|peers|] == peers;
    }

    method SendPeerList(to: Uuid) returns (outs: seq<Out>)
      ensures outs == [SendKnown(to, set id | id in known :: known[id])]
    {
      outs := [SendKnown(to, known.Values)];
      assert known.Values == set id | id in known :: known[id];
    }

    /** A node that is subscribed to nobody bootstraps again; and every subscriber gets one heartbeat. */
    method SendHeartbeats() returns (outs: seq<Out>)
      ensures Enumerates(outs, (if subscribedTo == {} then {Bootstrap} else {})
                               + set id | id in subscribers :: SendTo(id, Heartbeat))
      ensures forall i :: 0 < i < |outs| ==> outs[i] != Bootstrap
    {
      outs := if subscribedTo == {} then [Bootstrap] else [];
      ghost var first := Elements(outs);
      var todo := subscribers;
      while todo != {}
        invariant todo <= subscribers && first <= {Bootstrap}
        invariant Enumerates(outs, first + Beats(subscribers - todo))
        invariant forall i :: 0 < i < |outs| ==> outs[i] != Bootstrap
      {
        var id :| id in todo;
        BeatsGrow(first, subscribers - todo, id, outs);
        outs := outs + [SendTo(id, Heartbeat)];
        todo := todo - {id};
        assert subscribers - todo == (subscribers - (todo + {id})) + {id};
      }
      assert subscribers - {} == subscribers;
    }

    method SubscriptionRequested(id: Uuid) returns (outs: seq<Out>)
      modifies this`subscribers, this`handlerSubscribers
      ensures State() == SubscriberStarted(old(State()), id) && outs == [SendTo(id, SubscriptionStarted)]
      ensures subscribers - {id} == old(subscribers) - {id} && (id in subscribers <==> id in known)
      ensures handlerSubscribers == subscribers
    {
      if id in known {
        subscribers := subscribers + {id};
      } else {
        subscribers := subscribers - {id};
      }
      UpdateSubscribers();
      outs := [SendTo(id, SubscriptionStarted)];
    }

    method SubscriptionCancelled(id: Uuid)
      modifies this`subscribers, this`handlerSubscribers
      ensures State() == SubscriberEnded(old(State()), id)
      ensures subscribers == handlerSubscribers == old(subscribers) - {id}
    {
      subscribers := subscribers - {id};
      UpdateSubscribers();
    }

    method ResetHeartbeatWatchdog(id: Uuid, now: Time)
      modifies this`watchdogs
      ensures State() == WatchdogReset(old(State()), id, now) && watchdogs - {id} == old(watchdogs) - {id}
      ensures ArmedSince(State(), id) == if id in subscribedTo && id in known then Some(now) else None
    {
      if id in subscribedTo {
        if id in known {
          watchdogs := watchdogs[id := now];
        } else {
          watchdogs := watchdogs - {id};
        }
      } else {
        watchdogs := watchdogs - {id};
      }
    }

    method SubscriptionAcknowledged(id: Uuid, now: Time)
      modifies this`subscribedTo, this`watchdogs
      ensures State() == Acknowledged(old(State()), id, now)
    {
      subscribedTo := subscribedTo + {id};
      ResetHeartbeatWatchdog(id, now);
    }

    /** Begins a subscription to every chosen peer that lacks one and ends those to all others,
        each with one message. */
    method Reassign(chosen: set<Uuid>) returns (starts: seq<Out>, ends: seq<Out>)
      modifies this`subscribedTo, this`watchdogs
      ensures State() == Reassigned(old(State()), chosen)
      ensures Enumerates(starts, Starts(known, chosen - old(subscribedTo)))
      ensures Enumerates(ends, set id | id in old(subscribedTo) - chosen :: SendTo(id, EndSubscription))
    {
      var added, removed := chosen - subscribedTo, subscribedTo - chosen;
      starts := StartSubscriptions(added);
      ends := EndSubscriptions(removed);
    }

    method StartSubscriptions(added: set<Uuid>) returns (starts: seq<Out>)
      ensures Enumerates(starts, Starts(known, added))
    {
      starts := [];
      var todo := added;
      while todo != {}
        invariant todo <= added && Enumerates(starts, Starts(known, added - todo))
      {
        var id :| id in todo;
        ghost var before := starts;
        if id in known {
          var p := known[id];
          if p.IsHandshaken() {
            starts := starts + [SendTo(id, StartSubscription)];
          } else {
            starts := starts + [GreetThenSubscribe(p.sockaddr, id)];
          }
        }
        todo := todo - {id};
        StartsGrow(known, added - todo - {id}, id, before);
        assert added - todo == added - todo - {id} + {id};
      }
      assert added - {} == added;
    }

    method EndSubscriptions(removed: set<Uuid>) returns (ends: seq<Out>)
      modifies this`subscribedTo, this`watchdogs
      ensures Enumerates(ends, set id | id in removed :: SendTo(id, EndSubscription))
      ensures subscribedTo == old(subscribedTo) - removed && watchdogs == old(watchdogs) - removed
    {
      ends := [];
      var todo := removed;
      while todo != {}
        invariant todo <= removed && Enumerates(ends, Ends(removed - todo))
        invariant subscribedTo == old(subscribedTo) - (removed - todo) && watchdogs == old(watchdogs) - (removed - todo)
      {
        var id :| id in todo;
        EndsGrow(removed - todo, id, ends);
        ends := ends + [SendTo(id, EndSubscription)];
        watchdogs := watchdogs - {id};
        subscribedTo := subscribedTo - {id};
        todo := todo - {id};
        assert removed - todo == (removed - (todo + {id})) + {id};
      }
      assert removed - {} == removed;
    }

    method Shutdown() returns (ends: seq<Out>)
      modifies this`subscribedTo
      ensures State() == old(State()).(subscribedTo := {})
      ensures Enumerates(ends, set id | id in old(subscribedTo) :: SendTo(id, EndSubscription))
    {
      ends := [];
      var todo := subscribedTo;
      while todo != {}
        invariant subscribedTo == old(subscribedTo) && todo <= subscribedTo
                    && Enumerates(ends, Ends(subscribedTo - todo))
      {
        var id :| id in todo;
        EndsGrow(subscribedTo - todo, id, ends);
        ends := ends + [SendTo(id, EndSubscription)];
        todo := todo - {id};
        assert subscribedTo - todo == (subscribedTo - (todo + {id})) + {id};
      }
      assert subscribedTo - {} == subscribedTo;
      subscribedTo := {};
    }
  }

  lemma {:induction false} StartsGrow(known: Known, done: set<Uuid>, id: Uuid, outs: seq<Out>)
    requires id !in done && Enumerates(outs, Starts(known, done))
    ensures Enumerates(if id in known then outs + [StartOut(known, id)] else outs, Starts(known, done + {id}))
  {
    if id in known {
      assert StartOut(known, id) !in Elements(outs);
      assert Elements(outs + [StartOut(known, id)]) == Elements(outs) + {StartOut(known, id)};
      assert Starts(known, done + {id}) == Starts(known, done) + {StartOut(known, id)};
    } else {
      assert Starts(known, done + {id}) == Starts(known, done);
    }
  }

  lemma {:induction false} EndsGrow(done: set<Uuid>, id: Uuid, outs: seq<Out>)
    requires id !in done && Enumerates(outs, Ends(done))
    ensures Enumerates(outs + [SendTo(id, EndSubscription)], Ends(done + {id}))
  {
    assert SendTo(id, EndSubscription) !in Elements(outs);
    assert Elements(outs + [SendTo(id, EndSubscription)]) == Elements(outs) + {SendTo(id, EndSubscription)};
    assert Ends(done + {id}) == Ends(done) + {SendTo(id, EndSubscription)};
  }

  lemma {:induction false} BeatsGrow(first: set<Out>, done: set<Uuid>, id: Uuid, outs: seq<Out>)
    requires first <= {Bootstrap} && id !in done && Enumerates(outs, first + Beats(done))
    ensures Enumerates(outs + [SendTo(id, Heartbeat)], first + Beats(done + {id}))
  {
    assert SendTo(id, Heartbeat) !in Elements(outs);
    assert Elements(outs + [SendTo(id, Heartbeat)]) == Elements(outs) + {SendTo(id, Heartbeat)};
    assert Beats(done + {id}) == Beats(done) + {SendTo(id, Heartbeat)};
  }
}
