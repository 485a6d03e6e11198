/** Choosing peers and subscribing to them, over runs of the peer manager. */
module Reassignment {
  import opened Basics
  import opened Peers
  import opened Messages
  import PeerTable
  import opened PeerManagement
  import opened ManagerRuns
  import PeerChoice

  /** What the choice depends on besides the known peers. The generator is seeded anew for every
      choice from the identifier of the node, so the same peers in the same order get the same draws. */
  datatype Config = Config(
    strategy: PeerChoice.Strategy, me: Uuid, zone: Option<string>, subscriptions: nat, sample: PeerChoice.Sampler)

  ghost function Choice(config: Config, order: seq<Peer>): set<Uuid> {
    PeerChoice.ChoosePeers(config.strategy, order, config.me, config.zone, config.subscriptions, config.sample)
  }

  /** An order in which the hash map may yield the known peers. */
  ghost predicate IsOrder(order: seq<Peer>, known: PeerTable.Known) {
    && NoDuplicates(PeerChoice.Ids(order))
    && forall p :: p in order <==> p.id in known && known[p.id] == p
  }

  lemma SameChoice(config: Config, order: seq<Peer>, order': seq<Peer>)
    requires PeerChoice.SameShape(order, order')
    ensures Choice(config, order') == Choice(config, order)
  {
    PeerChoice.ChoiceSame(config.strategy, order, order', config.me, config.zone, config.subscriptions, config.sample);
  }

  lemma {:induction false} ChosenAreInTable(config: Config, order: seq<Peer>, known: PeerTable.Known)
    requires PeerChoice.IsSampler(config.sample) && IsOrder(order, known)
    ensures Choice(config, order) <= known.Keys && config.me !in Choice(config, order)
  {
    hide PeerChoice.ChoosePeers, PeerChoice.IsSampler, NoDuplicates;
    PeerChoice.ChosenAreKnown(config.strategy, order, config.me, config.zone, config.subscriptions, config.sample);
    forall id | id in Choice(config, order) ensures id in known {
      var i :| 0 <= i < |order| && PeerChoice.Ids(order)[i] == id;
      assert order[i] in order;
    }
  }

  // ---------------------------------------------------------------- who is asked

  /** In every state of every run, a reassignment asks every added peer: directly if and only if the
      packet handler holds its keys, so that the request gets out, and by a handshake otherwise. */
  lemma {:induction false} EveryAddedPeerIsAsked(events: seq<Event>, config: Config, order: seq<Peer>, id: Uuid)
    requires Exec(events).Some? && PeerChoice.IsSampler(config.sample) && IsOrder(order, Exec(events).value.known)
    requires id in Choice(config, order) - Exec(events).value.subscribedTo
    ensures var s := Exec(events).value;
            var starts := Starts(s.known, Choice(config, order) - s.subscribedTo);
            && id in s.known
            && (SendTo(id, StartSubscription) in starts <==> id in s.handlerKeys)
            && (GreetThenSubscribe(s.known[id].sockaddr, id) in starts <==> id !in s.handlerKeys)
  {
    hide Exec, IsOrder, Choice, PeerChoice.IsSampler;
    var s := Exec(events).value;
    ChosenAreInTable(config, order, s.known);
    HandlerMirrors(events);
    assert StartOut(s.known, id) in Starts(s.known, Choice(config, order) - s.subscribedTo);
  }

  // ---------------------------------------------------------------- until the acknowledgements are in

  /** Whose acknowledgements are among the messages. */
  function Acks(events: seq<Event>): set<Uuid> {
    if events == [] then {} else Acks(events[..|events| - 1]) + Ack(events[|events| - 1].what)
  }

  function Ack(what: What): set<Uuid> {
    if what.Request? && what.request.SubscriptionStarted? then {what.from} else {}
  }

  /** Anything but another reassignment, a shutdown, or a chosen peer going down: heartbeats, gossip,
      peers coming up, subscription requests, acknowledgements, other peers going down. */
  predicate LeavesAlone(what: What, chosen: set<Uuid>) {
    && !what.Reassign? && !what.Shutdown?
    && (what.Request? && what.request.Status? && what.request.state.Down? ==> what.request.peer.id !in chosen)
  }

  lemma {:induction false} StepLeavesAlone(s: Manager, event: Event, chosen: set<Uuid>)
    requires s.subscribedTo <= chosen <= s.known.Keys && LeavesAlone(event.what, chosen) && Ack(event.what) <= chosen
    ensures After(s, event).subscribedTo == s.subscribedTo + Ack(event.what)
    ensures chosen <= After(s, event).known.Keys
    ensures FullyGuarded(s) ==> FullyGuarded(After(s, event))
  {
    hide Projection, FullyGuarded;
    GuardStep(s, event);
    if event.what.Request? && event.what.request.Peers? { PeerTable.UpdateInserts(s.known, event.what.request.peers); }
    assert Ack(event.what) == {} ==> s.subscribedTo + {} == s.subscribedTo;
  }

  lemma {:induction false} RunLeavesAlone(before: seq<Event>, during: seq<Event>, chosen: set<Uuid>)
    requires Exec(before + during).Some? && Exec(before).Some?
    requires Exec(before).value.subscribedTo <= chosen <= Exec(before).value.known.Keys
    requires (forall i :: 0 <= i < |during| ==> LeavesAlone(during[i].what, chosen)) && Acks(during) <= chosen
    ensures var (s0, s) := (Exec(before).value, Exec(before + during).value);
            && s.subscribedTo == s0.subscribedTo + Acks(during) && chosen <= s.known.Keys
            && (FullyGuarded(s0) ==> FullyGuarded(s))
  {
    hide After, LeavesAlone, FullyGuarded, Ack;
    if during == [] {
      assert before + during == before;
    } else {
      var rest, last := during[..|during| - 1], during[|during| - 1];
      assert (before + during)[..|before + during| - 1] == before + rest;
      RunLeavesAlone(before, rest, chosen);
      StepLeavesAlone(Exec(before + rest).value, last, chosen);
    }
  }

  /** A reassignment among other messages. */
  function Around(before: seq<Event>, now: Time, chosen: set<Uuid>, during: seq<Event>): seq<Event> {
    before + [Event(now, Reassign(chosen))] + during
  }

  /** Reassignment settles: choose among the known peers in any state of any run, and let anything
      happen that leaves the choice alone. Once the added peers have acknowledged, in any order, the
      node is subscribed to exactly the chosen peers, all of them known; every subscription is
      guarded if every one was; and choosing again among the same peers in the same order, whatever
      keys and addresses the traffic brought for them, starts nothing, ends nothing and changes nothing. */
  lemma {:induction false} ReassignmentSettles(before: seq<Event>, now: Time, config: Config, order: seq<Peer>,
                                               during: seq<Event>, order': seq<Peer>, later: Time)
    requires Exec(Around(before, now, Choice(config, order), during)).Some? && Exec(before).Some?
    requires PeerChoice.IsSampler(config.sample) && IsOrder(order, Exec(before).value.known)
    requires forall i :: 0 <= i < |during| ==> LeavesAlone(during[i].what, Choice(config, order))
    requires Choice(config, order) - Exec(before).value.subscribedTo <= Acks(during) <= Choice(config, order)
    ensures var (s0, s, chosen) := (Exec(before).value, Exec(Around(before, now, Choice(config, order), during)).value,
                                    Choice(config, order));
            && s.subscribedTo == chosen <= s.known.Keys && config.me !in s.subscribedTo
            && (FullyGuarded(s0) ==> FullyGuarded(s))
            && (IsOrder(order', s.known) && PeerChoice.SameShape(order, order') ==>
                  var again := Choice(config, order');
                  && Starts(s.known, again - s.subscribedTo) == {} && Ends(s.subscribedTo - again) == {}
                  && After(s, Event(later, Reassign(again))) == s)
  {
    hide Choice, IsOrder, PeerChoice.IsSampler, PeerChoice.SameShape, LeavesAlone, Acks;
    if PeerChoice.SameShape(order, order') { SameChoice(config, order, order'); }
    var chosen, s0 := Choice(config, order), Exec(before).value;
    ChosenAreInTable(config, order, s0.known);
    var events := before + [Event(now, Reassign(chosen))];
    assert events[..|events| - 1] == before;
    Prefix(Around(before, now, chosen, during), |events|);
    assert Around(before, now, chosen, during)[..|events|] == events;
    GuardStep(s0, Event(now, Reassign(chosen)));
    RunLeavesAlone(events, during, chosen);
    var s := Exec(events + during).value;
    assert s.subscribedTo == chosen;
    assert s.subscribedTo * chosen == chosen && s.watchdogs - {} == s.watchdogs;
  }
}
