/** What the applications and peer managers hear of a broadcast. */
module FloodHearing {
  import opened Basics
  import opened Messages
  import opened PacketHandling
  import opened FloodNetwork
  import Flood
  import HandlerRuns
  import Lru

  /** What arrives of a message over the wire, as it is handed over. */
  predicate Conveys(out: Out, message: Message) {
    match message.body
    case Broadcast(data) => out == ToApplication(data)
    case Request(request) => out.ToPeerManager? && out.request == request.OverTheWire()
    case _ => false
  }

  /** A copy is handed over where it is the first, with the contents the origin put in; a later one is not. */
  lemma {:induction false} FirstCopyIsHandedOver(w: World, origin: Addr, message: Message, steps: seq<Step>, v: World,
                                                 i: nat, s: u32, draw: Draw)
    requires Spread(w, origin, message, steps, v) && Enabled(v, message.id, Deliver(i, s, draw))
    requires Id(v.flights[i]) == message.id
    ensures var (f, to) := (v.flights[i], v.flights[i].letter.to);
            && to in v.nodes
            && HandOvers(Recv(v.nodes[to], Arriving(f, s), f.from, draw).outs)
               == if to == origin || to in Nodes(v.log, message.id) then []
                  else match message.body
                    case Broadcast(data) => if v.nodes[to].listens then [ToApplication(data)] else []
                    case Request(request) => [ToPeerManager(f.letter.id, request.OverTheWire())]
                    case _ => []
  {
    hide Recv, HandOvers, Linked, SameNet, Remembered, Flood.Inv, Nodes, CopiesOk, Seen, Lru.Since, Spread;
    var f, to := v.flights[i], v.flights[i].letter.to;
    var order := Abstract(v, message.id, origin).order;
    SpreadIsFlood(w, origin, message, steps, v);
    SpreadLinked(w, origin, message, steps, v);
    CopyAt(w.nodes, message, v.flights, i);
    CopyArrives(w.nodes, v.nodes, message, f, s);
    NewsIff(w.nodes, message, order, v, f, s, v.nodes[to], Arriving(f, s));
    RecvHandsOver(v.nodes[to], Arriving(f, s), f.from, draw);
    WireTwice(message);
    TailOf(origin, Nodes(v.log, message.id));
  }

  lemma {:induction false} CopyArrives(base: map<Addr, Handler>, nodes: map<Addr, Handler>, message: Message, f: Flight,
                                       s: u32)
    requires SameNet(base, nodes) && CopyOk(base, message, f)
    ensures f.letter.to in nodes
    ensures Opened(nodes[f.letter.to], Arriving(f, s)) == Some(message.OverTheWire())
  {
  }

  // ---------------------------------------------------------------- over whole runs

  /** Of what a handler hands over, what it does not hand to the handshaker. */
  function Noticed(handed: seq<Out>): seq<Out> {
    if handed == [] then []
    else Noticed(handed[..|handed| - 1]) + if handed[|handed| - 1].ToHandshaker? then [] else [handed[|handed| - 1]]
  }

  /** What the application and the peer manager at address `a` are given. */
  function HandedAt(a: Addr, outs: seq<Out>): seq<(Addr, Out)> {
    var given := Noticed(HandOvers(outs));
    seq(|given|, k requires 0 <= k < |given| => (a, given[k]))
  }

  /** What a step makes applications and peer managers hear: the delivery of a copy of `m`, or anything a node
      does on its own account. */
  function HeardAt(w: World, m: Uuid, step: Step): seq<(Addr, Out)>
    requires Enabled(w, m, step)
  {
    match step
    case Deliver(i, s, draw) =>
      var f, to := w.flights[i], w.flights[i].letter.to;
      if Id(f) == m && to in w.nodes then HandedAt(to, Recv(w.nodes[to], Arriving(f, s), f.from, draw).outs) else []
    case Local(node, input) => HandedAt(node, HandleInput(w.nodes[node], input).outs)
    case _ => []
  }

  /** What they hear while `origin` broadcasts the message and it spreads. */
  ghost function Heard(w: World, origin: Addr, message: Message, steps: seq<Step>): seq<(Addr, Out)>
    requires origin in w.nodes && Exec(Broadcasted(w, origin, message), message.id, steps).Some?
  {
    if steps == [] then HandedAt(origin, HandleInput(w.nodes[origin], SendToSubscribers(message)).outs)
    else
      var before, last := steps[..|steps| - 1], steps[|steps| - 1];
      var u := Exec(Broadcasted(w, origin, message), message.id, before).value;
      Heard(w, origin, message, before) + HeardAt(u, message.id, last)
  }

  lemma NoticedOne(out: Out)
    ensures Noticed([]) == [] && Noticed([out]) == if out.ToHandshaker? then [] else [out]
  {
    assert [out][..0] == [];
  }

  /** On its own account a node tells its application and its peer manager nothing. */
  lemma {:induction false} NothingHandedLocally(a: Addr, h: Handler, input: Input)
    requires input.Receive? ==> input.packet.p.H?
    ensures HandedAt(a, HandleInput(h, input).outs) == []
  {
    hide HandleInput, HandOvers, Noticed;
    HandlerRuns.StepDelivers(h, input);
    NoticedOne(if input.Receive? then ToHandshaker(input.from, input.packet.p.handshake, input.packet.id)
               else ToApplication([]));
  }

  ghost predicate Listening(nodes: map<Addr, Handler>) {
    forall a :: a in nodes ==> nodes[a].listens
  }

  /** Nobody's broadcast handler is taken away. */
  predicate Attentive(step: Step) {
    step.Local? && step.input.SetBroadcastHandler? ==> step.input.listens
  }

  lemma {:induction false} StepListens(w: World, m: Uuid, step: Step)
    requires Enabled(w, m, step) && Attentive(step) && Listening(w.nodes)
    ensures Listening(Apply(w, m, step).nodes)
  {
    hide HandleInput, Recv, Letters, Destinations, Post, Takes, Lru.Since;
    match step
    case Deliver(i, s, draw) =>
      var f := w.flights[i];
      if f.letter.to in w.nodes { RecvKeeps(w.nodes[f.letter.to], Arriving(f, s), f.from, draw); }
    case Local(node, input) => HandlerRuns.StepConfigures(w.nodes[node], input);
    case _ =>
  }

  /** Each entry says that this node was handed over the message. */
  ghost predicate AllConvey(heard: seq<(Addr, Out)>, takers: seq<Addr>, message: Message) {
    |heard| == |takers| && forall i :: 0 <= i < |heard| ==> heard[i].0 == takers[i] && Conveys(heard[i].1, message)
  }

  /** Whom a step adds to the nodes that took the message. */
  lemma {:induction false} StepTakes(w: World, origin: Addr, message: Message, steps: seq<Step>, v: World, step: Step)
    requires Spread(w, origin, message, steps, v) && Enabled(v, message.id, step)
    ensures var (takers, copy) := (Nodes(v.log, message.id), step.Deliver? && Id(v.flights[step.i]) == message.id);
            Nodes(Apply(v, message.id, step).log, message.id)
            == takers + if copy && v.flights[step.i].letter.to !in [origin] + takers
                        then [v.flights[step.i].letter.to] else []
  {
    hide Spread, Lru.Since, Flood.Inv, SameNet, CopiesOk, Remembered, Apply, Nodes, Topology, Linked, Destinations;
    SpreadIsFlood(w, origin, message, steps, v);
    SpreadLinked(w, origin, message, steps, v);
    StepKeeps(w.nodes, message, origin, v, step);
    var takers, takers' := Nodes(v.log, message.id), Nodes(Apply(v, message.id, step).log, message.id);
    assert takers == ([origin] + takers)[1..] && takers' == ([origin] + takers')[1..];
    if step.Deliver? && Id(v.flights[step.i]) == message.id {
      var to := v.flights[step.i].letter.to;
      CopyAt(w.nodes, message, v.flights, step.i);
      SameKeys(w.nodes);
      assert ([origin] + takers + [to])[1..] == takers + [to];
    }
    assert takers + [] == takers;
  }

  lemma {:induction false} StepHeard(w: World, origin: Addr, message: Message, steps: seq<Step>, v: World, step: Step,
                                     heard: seq<(Addr, Out)>)
    requires Spread(w, origin, message, steps, v) && Enabled(v, message.id, step) && Listening(v.nodes)
    requires AllConvey(heard, Nodes(v.log, message.id), message)
    ensures AllConvey(heard + HeardAt(v, message.id, step), Nodes(Apply(v, message.id, step).log, message.id), message)
  {
    hide Spread, Recv, HandOvers, Lru.Since, Apply, Nodes, Linked, HandleInput, Noticed;
    StepTakes(w, origin, message, steps, v, step);
    SpreadForwardable(w, origin, message, steps, v);
    match step
    case Deliver(i, s, draw) =>
      if Id(v.flights[i]) == message.id {
        var f, to := v.flights[i], v.flights[i].letter.to;
        FirstCopyIsHandedOver(w, origin, message, steps, v, i, s, draw);
        var handed := HandOvers(Recv(v.nodes[to], Arriving(f, s), f.from, draw).outs);
        NoticedOne(if handed == [] then ToApplication([]) else handed[0]);
        assert |handed| == 1 ==> handed == [handed[0]];
      }
    case Local(node, input) => NothingHandedLocally(node, v.nodes[node], input);
    case _ =>
  }

  lemma SpreadForwardable(w: World, origin: Addr, message: Message, steps: seq<Step>, v: World)
    requires Spread(w, origin, message, steps, v)
    ensures Forwardable(message)
  {
  }

  /** Over every run of a broadcast, whatever is lost and duplicated, while applications listen: the
      applications (peer managers, for a request) of exactly the nodes that took the message are
      handed its contents, each exactly once and in the order they took it; neither the broadcast itself nor
      anything the nodes do on their own account makes anybody else, the origin included, hear anything. */
  lemma {:induction false} TakersHear(w: World, origin: Addr, message: Message, steps: seq<Step>, v: World)
    requires Spread(w, origin, message, steps, v) && Listening(w.nodes)
    requires forall i :: 0 <= i < |steps| ==> Attentive(steps[i])
    ensures AllConvey(Heard(w, origin, message, steps), Nodes(v.log, message.id), message)
    ensures Listening(v.nodes)
  {
    hide Apply, HandleInput, HeardAt, Listening, Linked, Unheard, Enabled, AllConvey;
    if steps == [] {
      AtFirst(w, origin, message);
    } else {
      var before := steps[..|steps| - 1];
      var u := Exec(Broadcasted(w, origin, message), message.id, before).value;
      TakersHear(w, origin, message, before, u);
      StepHeard(w, origin, message, before, u, steps[|steps| - 1], Heard(w, origin, message, before));
      StepListens(u, message.id, steps[|steps| - 1]);
    }
  }

  lemma {:induction false} AtFirst(w: World, origin: Addr, message: Message)
    requires origin in w.nodes && Listening(w.nodes)
    ensures AllConvey(HandedAt(origin, HandleInput(w.nodes[origin], SendToSubscribers(message)).outs),
                      Nodes(Broadcasted(w, origin, message).log, message.id), message)
    ensures Listening(Broadcasted(w, origin, message).nodes)
  {
    hide HandleInput, Letters, Post, Destinations, HandedAt;
    NothingHandedLocally(origin, w.nodes[origin], SendToSubscribers(message));
    HandlerRuns.StepConfigures(w.nodes[origin], SendToSubscribers(message));
  }
}
