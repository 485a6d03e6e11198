/** What holds of a packet handler over every sequence of messages it is given. */
module HandlerRuns {
  import opened Basics
  import opened Messages
  import Handshaking
  import opened PacketHandling
  import RateControl
  import Lru

  // ---------------------------------------------------------------- duplicates

  /** A message handled by this step: passed to the application or to the peer manager. */
  ghost predicate Handles(h: Handler, input: Input, id: Uuid) {
    && input.Receive? && Opened(h, input.packet).Some?
    && var m := Opened(h, input.packet).value;
       m.id == id && Forwardable(m) && !Seen(h.puts, id)
  }

  lemma {:induction false} PutsGrow(h: Handler, input: Input)
    ensures h.puts <= HandleInput(h, input).h.puts
    ensures forall id :: Handles(h, input, id) ==> id in HandleInput(h, input).h.puts
  {
    match input
    case Receive(from, packet, draw) => RecvKeeps(h, packet, from, draw);
    case SendMessage(target, m) => TransmitKeeps(h.(puts := h.puts + [m.id]), Parcels(Links(h.keys, [target]), m));
    case SendToSubscribers(m) => TransmitKeeps(h.(puts := h.puts + [m.id]), Parcels(Links(h.keys, h.subscribers), m));
    case _ =>
  }

  lemma {:induction false} RunPutsGrow(h: Handler, inputs: seq<Input>, n: nat)
    requires n <= |inputs|
    ensures Run(h, inputs[..n]).h.puts <= Run(h, inputs).h.puts
  {
    if n == |inputs| {
      assert inputs[..n] == inputs;
    } else {
      var before := inputs[..|inputs| - 1];
      RunPutsGrow(h, before, n);
      assert before[..n] == inputs[..n];
      PutsGrow(Run(h, before).h, inputs[|inputs| - 1]);
    }
  }

  /** A message is handled a second time only when at least 10,000 other identifiers were put since. */
  lemma {:induction false} HandledAgainOnlyAfterEviction(h: Handler, inputs: seq<Input>, i: nat, j: nat, id: Uuid)
    requires i < j < |inputs|
    requires Handles(Run(h, inputs[..i]).h, inputs[i], id) && Handles(Run(h, inputs[..j]).h, inputs[j], id)
    ensures |Lru.Since(Run(h, inputs[..j]).h.puts, id)| >= 10_000
  {
    PutsGrow(Run(h, inputs[..i]).h, inputs[i]);
    assert inputs[..i + 1][..i] == inputs[..i];
    assert inputs[..j][..i + 1] == inputs[..i + 1];
    RunPutsGrow(h, inputs[..j], i + 1);
    SeenIff(Run(h, inputs[..j]).h.puts, id);
  }

  // ---------------------------------------------------------------- the delay towards one address

  /** What the step means for the delay towards `a`. */
  function DelayEvents(h: Handler, input: Input, a: Addr): seq<RateControl.DelayEvent> {
    match input
    case Receive(from, packet, draw) =>
      var m := Opened(h, packet);
      if from == a && m.Some? && !Seen(h.puts, m.value.id) && m.value.body.Nak?
      then [RateControl.GotNak(draw.factor)] else []
    case RateControl => if a in h.tx then [RateControl.Tick(LowLossAt(h, a))] else []
    case _ => []
  }

  function RunEvents(h: Handler, inputs: seq<Input>, a: Addr): seq<RateControl.DelayEvent> {
    if inputs == [] then []
    else
      var before, last := inputs[..|inputs| - 1], inputs[|inputs| - 1];
      RunEvents(h, before, a) + DelayEvents(Run(h, before).h, last, a)
  }

  lemma {:induction false} StepDelay(h: Handler, input: Input, a: Addr)
    ensures var events := DelayEvents(h, input, a);
            Get(HandleInput(h, input).h.delay, a)
            == if events == [] then Get(h.delay, a) else RateControl.Next(Get(h.delay, a), events[0])
  {
    match input
    case Receive(from, packet, draw) => RecvKeeps(h, packet, from, draw);
    case SendMessage(target, m) => TransmitKeeps(h.(puts := h.puts + [m.id]), Parcels(Links(h.keys, [target]), m));
    case SendToSubscribers(m) => TransmitKeeps(h.(puts := h.puts + [m.id]), Parcels(Links(h.keys, h.subscribers), m));
    case _ =>
  }

  /** The handler's table of delays is, address by address, the fold of the delay events of the run. */
  lemma {:induction false} RunDelay(h: Handler, inputs: seq<Input>, a: Addr)
    ensures Get(Run(h, inputs).h.delay, a) == RateControl.After(Get(h.delay, a), RunEvents(h, inputs, a))
  {
    if inputs != [] {
      var before, last := inputs[..|inputs| - 1], inputs[|inputs| - 1];
      RunDelay(h, before, a);
      StepDelay(Run(h, before).h, last, a);
      var events := DelayEvents(Run(h, before).h, last, a);
      if events == [] {
        assert RunEvents(h, inputs, a) == RunEvents(h, before, a);
      } else {
        assert RunEvents(h, inputs, a)[..|RunEvents(h, before, a)|] == RunEvents(h, before, a);
      }
    }
  }

  /** From the start, a delay is at most 10,000 ns times eight to the number of NAKs from its address. */
  lemma {:induction false} RunDelayBound(me: Uuid, inputs: seq<Input>, a: Addr)
    ensures var h := Run(Fresh(me), inputs).h;
            var m := RateControl.NakCount(RunEvents(Fresh(me), inputs, a));
            a in h.delay ==> h.delay[a] <= 10_000 * RateControl.Pow8(m)
  {
    RunDelay(Fresh(me), inputs, a);
    RateControl.DelayBound(RunEvents(Fresh(me), inputs, a));
  }

  /** Once a delay is zero, no message to the handler ever raises it again. */
  lemma {:induction false} RunZeroIsForever(h: Handler, inputs: seq<Input>, a: Addr)
    requires a in h.delay && h.delay[a] == 0
    ensures a in Run(h, inputs).h.delay && Run(h, inputs).h.delay[a] == 0
  {
    RunDelay(h, inputs, a);
    RateControl.ZeroIsForever(RunEvents(h, inputs, a));
  }

  /** Of the packets sent to `a`, less than one in a thousand was reported missing. */
  predicate LittleLoss(h: Handler, a: Addr) {
    a in h.tx && (h.tx[a] == 0 || (if a in h.naks then h.naks[a] else 0) as real / h.tx[a] as real < 0.001)
  }

  /** How many ticks found little loss towards `a`. */
  function QuietTicks(h: Handler, inputs: seq<Input>, a: Addr): nat {
    if inputs == [] then 0
    else
      var before, last := inputs[..|inputs| - 1], inputs[|inputs| - 1];
      QuietTicks(h, before, a) + if last.RateControl? && LittleLoss(Run(h, before).h, a) then 1 else 0
  }

  /** No NAK comes from `a`. */
  ghost predicate NoNaks(inputs: seq<Input>, a: Addr) {
    forall i :: 0 <= i < |inputs| && inputs[i].Receive? && inputs[i].from == a && inputs[i].packet.p.B? ==>
      !inputs[i].packet.p.box.content.body.Nak?
  }

  ghost predicate AllTicks(events: seq<RateControl.DelayEvent>) {
    forall i :: 0 <= i < |events| ==> events[i].Tick?
  }

  lemma {:induction false} OneMoreTick(events: seq<RateControl.DelayEvent>, low: bool)
    requires AllTicks(events)
    ensures var events' := events + [RateControl.Tick(low)];
            AllTicks(events') && RateControl.LowCount(events') == RateControl.LowCount(events) + if low then 1 else 0
  {
    assert (events + [RateControl.Tick(low)])[..|events|] == events;
  }

  lemma LastEvents(h: Handler, inputs: seq<Input>, a: Addr)
    requires inputs != []
    ensures var (before, last) := (inputs[..|inputs| - 1], inputs[|inputs| - 1]);
            && RunEvents(h, inputs, a) == RunEvents(h, before, a) + DelayEvents(Run(h, before).h, last, a)
            && QuietTicks(h, inputs, a) == QuietTicks(h, before, a)
                 + if last.RateControl? && LittleLoss(Run(h, before).h, a) then 1 else 0
  {
  }

  lemma {:induction false} OnlyTicks(h: Handler, inputs: seq<Input>, a: Addr)
    requires NoNaks(inputs, a)
    ensures AllTicks(RunEvents(h, inputs, a))
    ensures RateControl.LowCount(RunEvents(h, inputs, a)) == QuietTicks(h, inputs, a)
  {
    if inputs != [] {
      hide Run, LowLossAt, LittleLoss, DelayEvents, NoNaks, RunEvents, QuietTicks, AllTicks, RateControl.LowCount;
      var before, last := inputs[..|inputs| - 1], inputs[|inputs| - 1];
      var r, events := Run(h, before).h, RunEvents(h, before, a);
      NoNaksBefore(inputs, a);
      OnlyTicks(h, before, a);
      LastEvents(h, inputs, a);
      NotANak(r, last, a);
      LowLossAtIff(r, a);
      LittleLossIsSent(r, a);
      OneMoreTick(events, LowLossAt(r, a));
      assert events + [] == events;
    }
  }

  lemma NoNaksBefore(inputs: seq<Input>, a: Addr)
    requires inputs != [] && NoNaks(inputs, a)
    ensures NoNaks(inputs[..|inputs| - 1], a) && NoNaks([inputs[|inputs| - 1]], a)
  {
  }

  lemma LittleLossIsSent(h: Handler, a: Addr)
    ensures LittleLoss(h, a) ==> a in h.tx
  {
  }

  lemma {:induction false} NotANak(h: Handler, input: Input, a: Addr)
    requires NoNaks([input], a)
    ensures DelayEvents(h, input, a)
         == if input.RateControl? && a in h.tx then [RateControl.Tick(LowLossAt(h, a))] else []
  {
    hide Seen;
    assert [input][0] == input;
  }

  lemma {:induction false} LowLossAtIff(h: Handler, a: Addr)
    ensures LowLossAt(h, a) <==> LittleLoss(h, a)
  {
    if a in h.tx { RateControl.LowLossIff(GetOr(h.naks, a), h.tx[a]); }
  }

  /** While no NAK comes from `a`, each tick that finds a loss rate below 0.1 percent takes 100 ns off the
      delay, down to zero, and nothing else changes it, ticks with more loss included. */
  lemma {:induction false} RunDrains(h: Handler, inputs: seq<Input>, a: Addr)
    requires a in h.delay && NoNaks(inputs, a)
    ensures var taken := 100 * QuietTicks(h, inputs, a);
            && a in Run(h, inputs).h.delay
            && Run(h, inputs).h.delay[a] == if h.delay[a] > taken then h.delay[a] - taken else 0
  {
    hide Run, RunEvents;
    RunDelay(h, inputs, a);
    OnlyTicks(h, inputs, a);
    RateControl.TicksDrainDelay(h.delay[a], RunEvents(h, inputs, a));
  }

  /** While the timer does not tick, m handled NAKs from `a` multiply the delay by at least 2^m and at most
      8^m, unless it outgrows 64 bits. */
  lemma {:induction false} RunGrows(h: Handler, inputs: seq<Input>, a: Addr)
    requires a in h.delay && forall i :: 0 <= i < |inputs| ==> !inputs[i].RateControl?
    requires h.delay[a] * RateControl.Pow8(|RunEvents(h, inputs, a)|) <= 0xFFFF_FFFF_FFFF_FFFF
    ensures var m := |RunEvents(h, inputs, a)|;
            && a in Run(h, inputs).h.delay
            && h.delay[a] * RateControl.Pow2(m) <= Run(h, inputs).h.delay[a] <= h.delay[a] * RateControl.Pow8(m)
  {
    hide Run, RunEvents;
    RunDelay(h, inputs, a);
    OnlyNaks(h, inputs, a);
    RateControl.NaksGrowDelay(h.delay[a], RunEvents(h, inputs, a));
  }

  lemma {:induction false} OnlyNaks(h: Handler, inputs: seq<Input>, a: Addr)
    requires forall i :: 0 <= i < |inputs| ==> !inputs[i].RateControl?
    ensures forall i :: 0 <= i < |RunEvents(h, inputs, a)| ==> RunEvents(h, inputs, a)[i].GotNak?
  {
    hide Run, Seen;
    if inputs != [] { OnlyNaks(h, inputs[..|inputs| - 1], a); }
  }

  /** A NAK from `a` that opens and was not seen before. */
  predicate HandlesNak(h: Handler, input: Input, a: Addr) {
    && input.Receive? && input.from == a && Opened(h, input.packet).Some?
    && var m := Opened(h, input.packet).value;
       !Seen(h.puts, m.id) && m.body.Nak?
  }

  /** Towards an address without a delay, exactly a handled NAK or a tick with little loss sets one, of 10,000 ns. */
  lemma {:induction false} FirstDelay(h: Handler, input: Input, a: Addr)
    requires a !in h.delay
    ensures var h' := HandleInput(h, input).h;
            && (a in h'.delay <==> HandlesNak(h, input, a) || (input.RateControl? && LittleLoss(h, a)))
            && (a in h'.delay ==> h'.delay[a] == 10_000)
  {
    hide Seen, Decrypt, HandleInput, LowLossAt;
    StepDelay(h, input, a);
    LowLossAtIff(h, a);
  }

  // ---------------------------------------------------------------- what the handler was told

  function LastKeys(inputs: seq<Input>, keys: Keys): Keys {
    if inputs == [] then keys
    else if inputs[|inputs| - 1].KeysUpdated? then inputs[|inputs| - 1].keys
    else LastKeys(inputs[..|inputs| - 1], keys)
  }

  function LastSubscribers(inputs: seq<Input>, subscribers: seq<Uuid>): seq<Uuid> {
    if inputs == [] then subscribers
    else if inputs[|inputs| - 1].SubscribersUpdated? then inputs[|inputs| - 1].subscribers
    else LastSubscribers(inputs[..|inputs| - 1], subscribers)
  }

  function LastListens(inputs: seq<Input>, listens: bool): bool {
    if inputs == [] then listens
    else if inputs[|inputs| - 1].SetBroadcastHandler? then inputs[|inputs| - 1].listens
    else LastListens(inputs[..|inputs| - 1], listens)
  }

  lemma {:induction false} StepConfigures(h: Handler, input: Input)
    ensures var r := HandleInput(h, input).h;
            && r.keys == (if input.KeysUpdated? then input.keys else h.keys)
            && r.subscribers == (if input.SubscribersUpdated? then input.subscribers else h.subscribers)
            && r.listens == (if input.SetBroadcastHandler? then input.listens else h.listens)
            && (r.started <==> h.started || input.Start?)
  {
    hide Recv, TransmitAll, Parcels;
    match input
    case Receive(from, packet, draw) => RecvKeeps(h, packet, from, draw);
    case SendMessage(target, m) => TransmitKeeps(h.(puts := h.puts + [m.id]), Parcels(Links(h.keys, [target]), m));
    case SendToSubscribers(m) => TransmitKeeps(h.(puts := h.puts + [m.id]), Parcels(Links(h.keys, h.subscribers), m));
    case _ =>
  }

  /** In every run keys, subscribers and broadcast handler are those it was given last, whatever traffic came
      since, and it sends once it was started. */
  lemma {:induction false} RunConfigured(h: Handler, inputs: seq<Input>)
    ensures var r := Run(h, inputs).h;
            && r.keys == LastKeys(inputs, h.keys) && r.subscribers == LastSubscribers(inputs, h.subscribers)
            && r.listens == LastListens(inputs, h.listens)
            && (r.started <==> h.started || exists i :: 0 <= i < |inputs| && inputs[i].Start?)
  {
    hide HandleInput;
    if inputs != [] {
      RunConfigured(h, inputs[..|inputs| - 1]);
      StepConfigures(Run(h, inputs[..|inputs| - 1]).h, inputs[|inputs| - 1]);
    }
  }

  // ---------------------------------------------------------------- the numbers of packets

  lemma {:induction false} SameSelf(h: Handler, input: Input)
    ensures HandleInput(h, input).h.me == h.me
  {
    match input
    case Receive(from, packet, draw) => RecvKeeps(h, packet, from, draw);
    case SendMessage(target, m) => TransmitKeeps(h.(puts := h.puts + [m.id]), Parcels(Links(h.keys, [target]), m));
    case SendToSubscribers(m) => TransmitKeeps(h.(puts := h.puts + [m.id]), Parcels(Links(h.keys, h.subscribers), m));
    case _ =>
  }

  /** In every run the packets for one address are numbered consecutively, modulo 2^32: forwards,
      answers, NAKs and handshakes alike, whatever goes to other addresses in between. */
  lemma {:induction false} RunNumbering(h: Handler, inputs: seq<Input>, a: Addr)
    ensures Run(h, inputs).h.me == h.me
    ensures Numbered(h.tx, Run(h, inputs).h.tx, h.me, Run(h, inputs).outs, a)
  {
    hide HandleInput, Numbered;
    if inputs == [] {
      NothingNumbered(h.tx, h.me, [], a);
    } else {
      var before, last := Run(h, inputs[..|inputs| - 1]), inputs[|inputs| - 1];
      RunNumbering(h, inputs[..|inputs| - 1], a);
      SameSelf(before.h, last);
      HandleNumbered(before.h, last, a);
      var step := HandleInput(before.h, last);
      NumberedThen(h.tx, before.h.tx, step.h.tx, h.me, before.outs, step.outs, a);
    }
  }

  /** From the start, the packets for an address are numbered 1, 2, 3 and so on, modulo 2^32. */
  lemma {:induction false} FirstPacketIsOne(me: Uuid, inputs: seq<Input>, a: Addr)
    ensures var packets := PacketsTo(Run(Fresh(me), inputs).outs, a);
            forall i :: 0 <= i < |packets| ==> packets[i].s == (i + 1) % 0x1_0000_0000 && packets[i].id == me
  {
    hide Run, PacketsTo;
    RunNumbering(Fresh(me), inputs, a);
  }

  /** From the start, there is a counter for an address if and only if something was sent to it. */
  lemma {:induction false} CountersAreForTargets(me: Uuid, inputs: seq<Input>, a: Addr)
    ensures a in Run(Fresh(me), inputs).h.tx <==> PacketsTo(Run(Fresh(me), inputs).outs, a) != []
  {
    hide Run, PacketsTo;
    RunNumbering(Fresh(me), inputs, a);
  }

  // ---------------------------------------------------------------- what is remembered, handed over and posted

  /** The identifiers that a step puts in the cache. */
  function Remembers(h: Handler, input: Input): seq<Uuid> {
    match input
    case Receive(from, packet, draw) =>
      (if Takes(h, packet) then [Opened(h, packet).value.id, Opened(h, packet).value.id] else [])
      + (if Opened(h, packet).Some? && from in h.rx then [draw.nakId] else [])
    case SendMessage(_, message) => [message.id]
    case SendToSubscribers(message) => [message.id]
    case _ => []
  }

  lemma {:induction false} StepRemembers(h: Handler, input: Input)
    ensures HandleInput(h, input).h.puts == h.puts + Remembers(h, input)
  {
    hide Recv, TransmitAll, Parcels, Seen, Decrypt;
    match input
    case Receive(from, packet, draw) => RecvKeeps(h, packet, from, draw);
    case SendMessage(target, m) => TransmitKeeps(h.(puts := h.puts + [m.id]), Parcels(Links(h.keys, [target]), m));
    case SendToSubscribers(m) => TransmitKeeps(h.(puts := h.puts + [m.id]), Parcels(Links(h.keys, h.subscribers), m));
    case _ =>
  }

  /** What a step hands over: a handshake to the handshaker; an unseen broadcast to the application, if it
      listens; an unseen request to the peer manager. */
  function Delivery(h: Handler, input: Input): seq<Out> {
    if !input.Receive? then []
    else if input.packet.p.H? then [ToHandshaker(input.from, input.packet.p.handshake, input.packet.id)]
    else if !Takes(h, input.packet) then []
    else match Opened(h, input.packet).value.body
      case Broadcast(data) => if h.listens then [ToApplication(data)] else []
      case Request(request) => [ToPeerManager(input.packet.id, request)]
      case _ => []
  }

  lemma {:induction false} StepDelivers(h: Handler, input: Input)
    ensures HandOvers(HandleInput(h, input).outs) == Delivery(h, input)
  {
    hide Recv, HandOvers, Seen, Decrypt;
    if input.Receive? {
      RecvHandsOver(h, input.packet, input.from, input.draw);
    } else {
      OnlyReceptionsHandOver(h, input);
    }
  }

  /** The letters of a step, once the handler was started: to the subscribers, what was unseen or is the node's
      own; to the sender, the complaint; and what it is asked to send to one peer or as it is. */
  function Post(h: Handler, input: Input): seq<Letter> {
    if !h.started then []
    else match input
      case Send(to, payload) => if payload.B? then [Letter(to, h.me, payload.box)] else []
      case Receive(from, packet, draw) =>
        (if Takes(h, packet) then Mail(Links(h.keys, h.subscribers), h.me, Opened(h, packet).value) else [])
        + (if Opened(h, packet).Some? && from in h.rx
           then Mail(Links(h.keys, [packet.id]), h.me, NakFor(h.rx[from], packet.s, draw.nakId)) else [])
      case SendMessage(target, message) => Mail(Links(h.keys, [target]), h.me, message)
      case SendToSubscribers(message) => Mail(Links(h.keys, h.subscribers), h.me, message)
      case _ => []
  }

  lemma {:induction false} NoWireNoLetters(outs: seq<Out>)
    requires forall i :: 0 <= i < |outs| ==> !outs[i].Wire?
    ensures Letters(outs) == []
  {
    if outs != [] { NoWireNoLetters(outs[..|outs| - 1]); }
  }

  lemma {:induction false} StepPosts(h: Handler, input: Input)
    ensures Letters(HandleInput(h, input).outs) == Post(h, input)
  {
    hide Recv, Letters, Mail, TransmitAll, Parcels, Links, Seen, Decrypt;
    if !h.started {
      StepSilent(h, input);
      NoWireNoLetters(HandleInput(h, input).outs);
    } else {
      NoWireNoLetters([]);
      match input
      case Send(to, payload) => SentAsItIs(h, to, payload);
      case Receive(from, packet, draw) => RecvSends(h, packet, from, draw);
      case SendMessage(target, m) => MailIsSent(h.(puts := h.puts + [m.id]), Links(h.keys, [target]), m);
      case SendToSubscribers(m) => MailIsSent(h.(puts := h.puts + [m.id]), Links(h.keys, h.subscribers), m);
      case _ =>
    }
  }

  lemma {:induction false} SentAsItIs(h: Handler, to: Addr, payload: Payload)
    requires h.started
    ensures Letters(Transmit(h, payload, to).outs) == if payload.B? then [Letter(to, h.me, payload.box)] else []
  {
    assert Transmit(h, payload, to).outs[..0] == [];
  }

  function AllRemembered(h: Handler, inputs: seq<Input>): seq<Uuid> {
    if inputs == [] then []
    else
      var before := inputs[..|inputs| - 1];
      AllRemembered(h, before) + Remembers(Run(h, before).h, inputs[|inputs| - 1])
  }

  function AllDelivered(h: Handler, inputs: seq<Input>): seq<Out> {
    if inputs == [] then []
    else
      var before := inputs[..|inputs| - 1];
      AllDelivered(h, before) + Delivery(Run(h, before).h, inputs[|inputs| - 1])
  }

  function AllPosted(h: Handler, inputs: seq<Input>): seq<Letter> {
    if inputs == [] then []
    else
      var before := inputs[..|inputs| - 1];
      AllPosted(h, before) + Post(Run(h, before).h, inputs[|inputs| - 1])
  }

  /** In every run what is remembered, what is handed over and what is posted is that of its steps, in order:
      only receptions hand anything over, and nothing is remembered, handed over or posted besides. */
  lemma {:induction false} RunTraffic(h: Handler, inputs: seq<Input>)
    ensures Run(h, inputs).h.puts == h.puts + AllRemembered(h, inputs)
    ensures HandOvers(Run(h, inputs).outs) == AllDelivered(h, inputs)
    ensures Letters(Run(h, inputs).outs) == AllPosted(h, inputs)
  {
    hide HandleInput, Remembers, Delivery, Post;
    if inputs != [] {
      var before, last := Run(h, inputs[..|inputs| - 1]), inputs[|inputs| - 1];
      RunTraffic(h, inputs[..|inputs| - 1]);
      StepRemembers(before.h, last);
      StepDelivers(before.h, last);
      StepPosts(before.h, last);
      HandOversAppend(before.outs, HandleInput(before.h, last).outs);
      LettersAppend(before.outs, HandleInput(before.h, last).outs);
    }
  }

  // ---------------------------------------------------------------- what goes on the wire for the handshaker

  /** The handshakes among the packets, and where they go. */
  function WireHandshakes(outs: seq<Out>): seq<(Addr, Handshaking.Handshake)> {
    if outs == [] then []
    else
      var last := outs[|outs| - 1];
      WireHandshakes(outs[..|outs| - 1])
      + if last.Wire? && last.packet.p.H? then [(last.to, last.packet.p.handshake)] else []
  }

  /** The handshakes that the handler was asked to send after it was started. */
  function Entrusted(h: Handler, inputs: seq<Input>): seq<(Addr, Handshaking.Handshake)> {
    if inputs == [] then []
    else
      var before, last := inputs[..|inputs| - 1], inputs[|inputs| - 1];
      Entrusted(h, before)
      + if last.Send? && last.payload.H? && (h.started || Start in before)
        then [(last.to, last.payload.handshake)] else []
  }

  lemma {:induction false} WireAppend(x: seq<Out>, y: seq<Out>)
    ensures WireHandshakes(x + y) == WireHandshakes(x) + WireHandshakes(y)
  {
    if y == [] {
      assert x + y == x;
    } else {
      assert (x + y)[..|x + y| - 1] == x + y[..|y| - 1];
      WireAppend(x, y[..|y| - 1]);
    }
  }

  lemma {:induction false} BoxesAreNoHandshakes(started: bool, outs: seq<Out>)
    requires OnlyBoxes(started, outs)
    ensures WireHandshakes(outs) == []
  {
    if outs != [] { BoxesAreNoHandshakes(started, outs[..|outs| - 1]); }
  }

  /** Apart from what it is asked to send as it is, a step sends letters only, and nothing before the start. */
  lemma {:induction false} StepSendsBoxes(h: Handler, input: Input)
    requires !input.Send?
    ensures OnlyBoxes(h.started, HandleInput(h, input).outs)
  {
    hide Recv, TransmitAll, Parcels;
    match input
    case Receive(from, packet, draw) => RecvSendsBoxes(h, packet, from, draw);
    case SendMessage(target, m) => BoxesAreSent(h.(puts := h.puts + [m.id]), Links(h.keys, [target]), m);
    case SendToSubscribers(m) => BoxesAreSent(h.(puts := h.puts + [m.id]), Links(h.keys, h.subscribers), m);
    case _ =>
  }

  lemma {:induction false} StepHandshakes(h: Handler, input: Input)
    ensures WireHandshakes(HandleInput(h, input).outs)
         == if input.Send? && input.payload.H? && h.started then [(input.to, input.payload.handshake)] else []
  {
    hide Recv, TransmitAll, Parcels;
    if input.Send? {
      var outs := HandleInput(h, input).outs;
      if outs != [] { assert outs[..0] == []; }
    } else {
      StepSendsBoxes(h, input);
      BoxesAreNoHandshakes(h.started, HandleInput(h, input).outs);
    }
  }

  /** In every run the handshakes on the wire are exactly those the handler was asked to send since it was
      started, each once, in order and to its address, whatever else it sends. */
  lemma {:induction false} RunHandshakes(h: Handler, inputs: seq<Input>)
    ensures WireHandshakes(Run(h, inputs).outs) == Entrusted(h, inputs)
  {
    hide HandleInput;
    if inputs != [] {
      var before, last := inputs[..|inputs| - 1], inputs[|inputs| - 1];
      RunHandshakes(h, before);
      RunConfigured(h, before);
      StepHandshakes(Run(h, before).h, last);
      WireAppend(Run(h, before).outs, HandleInput(Run(h, before).h, last).outs);
    }
  }

  /** And nothing at all goes on the wire before the start. */
  lemma {:induction false} SilentBeforeStart(h: Handler, inputs: seq<Input>)
    requires !h.started && Start !in inputs
    ensures forall i :: 0 <= i < |Run(h, inputs).outs| ==> !Run(h, inputs).outs[i].Wire?
  {
    hide HandleInput;
    if inputs != [] {
      var before, last := inputs[..|inputs| - 1], inputs[|inputs| - 1];
      SilentBeforeStart(h, before);
      RunConfigured(h, before);
      StepSilent(Run(h, before).h, last);
    }
  }

  lemma {:induction false} StepSilent(h: Handler, input: Input)
    requires !h.started
    ensures forall i :: 0 <= i < |HandleInput(h, input).outs| ==> !HandleInput(h, input).outs[i].Wire?
  {
    hide Recv, TransmitAll, Parcels;
    if !input.Send? { StepSendsBoxes(h, input); }
  }
}
