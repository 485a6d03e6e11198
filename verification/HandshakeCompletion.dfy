/** Handshakes do happen: from every reachable state two nodes with a common key can complete one. */
module HandshakeCompletion {
  import opened Basics
  import opened Peers
  import opened Handshaking
  import opened HandshakeNetwork

  /** Two nodes, what node `a` draws for a handshake with node `b` and `b` for its answer, and the continuation
      that `a` attaches, if any. */
  datatype Plan = Plan(a: Addr, b: Addr, hid: Uuid, mine: Env, theirs: Env, rest: Env, andThen: Option<AndThen>)

  ghost predicate Fits(c: Cluster, w: World, p: Plan) {
    && p.a in c && p.b in c && p.a != p.b && ShareKey(c[p.a].keys, c[p.b].keys)
    && p.hid !in w.past.hellos && InTime(p)
    && |p.theirs.challenge| == |p.rest.challenge| == CHALLENGE_LENGTH && p.theirs.challenge != p.rest.challenge
    && p.theirs.challenge !in w.past.offers && p.rest.challenge !in w.past.offers
  }

  /** The Hello and the Ohai arrive less than 60 ms off, by the clock of whoever receives them. */
  predicate InTime(p: Plan) {
    && p.mine.now - 60_000_000 < p.theirs.now < p.mine.now + 60_000_000
    && p.mine.now - 60_000_000 < p.rest.now < p.mine.now + 60_000_000
  }

  ghost predicate IsBooted(c: Cluster, w: World, node: Addr)
    requires Shaped(c, w) && node in c
  {
    w.tables[node].hashedKeys == Some(HashedKeys(c[node].keys))
  }

  function HelloPacket(c: Cluster, p: Plan): Packet
    requires p.a in c
  {
    Packet(p.a, p.b, c[p.a].id,
           Handshake(p.hid, Hello(p.mine.keypair.publicKey, c[p.a].zone,
                                  FreshHmacs(HashedKeys(c[p.a].keys), p.mine.now, p.mine.salts), p.mine.now)))
  }

  function OhaiPacket(c: Cluster, p: Plan): Packet
    requires p.b in c
  {
    Packet(p.b, p.a, c[p.b].id,
           Handshake(p.hid, Ohai(p.theirs.keypair.publicKey, c[p.b].zone,
                                 FreshHmacs(HashedKeys(c[p.b].keys), p.mine.now, p.theirs.salts), p.theirs.challenge)))
  }

  function Response(c: Cluster, p: Plan): seq<Digest>
    requires p.a in c
  {
    ComputeResponse(p.hid, p.theirs.keypair.publicKey, p.theirs.challenge, c[p.a].keys)
  }

  function OkBossPacket(c: Cluster, p: Plan): Packet
    requires p.a in c
  {
    Packet(p.a, p.b, c[p.a].id, Handshake(p.hid, OkBoss(Response(c, p))))
  }

  function GoTeamPacket(c: Cluster, p: Plan): Packet
    requires p.b in c
  {
    Packet(p.b, p.a, c[p.b].id, Handshake(p.hid, GoTeam))
  }

  /** The record with which the initiator comes up. */
  function PeerAtA(c: Cluster, p: Plan): Peer
    requires p.b in c
  {
    Peer(Some(p.mine.keypair), Some(p.theirs.keypair.publicKey), Some(p.mine.now), p.b, c[p.b].id, c[p.b].zone)
  }

  /** The record with which the responder comes up. */
  function PeerAtB(c: Cluster, p: Plan): Peer
    requires p.a in c
  {
    Peer(Some(p.theirs.keypair), Some(p.mine.keypair.publicKey), Some(p.mine.now), p.a, c[p.a].id, c[p.a].zone)
  }

  /** What is noticed when the initiator comes up: that it did and, with a continuation, that the continuation ran. */
  function InitiatorEvents(c: Cluster, p: Plan): seq<Event>
    requires p.b in c
  {
    [Up(p.a, Initiator, p.hid, PeerAtA(c, p))]
    + if p.andThen.Some? then [Ran(p.a, p.hid, p.andThen.value)] else []
  }

  /** All but the last step. */
  function Opening(c: Cluster, p: Plan): seq<Step>
    requires p.a in c && p.b in c
  {
    [Greet(p.a, p.b, p.hid, p.andThen, p.mine), Deliver(HelloPacket(c, p), p.theirs), Deliver(OhaiPacket(c, p), p.rest),
     Deliver(OkBossPacket(c, p), p.rest)]
  }

  function Steps(c: Cluster, p: Plan): seq<Step>
    requires p.a in c && p.b in c
  {
    Opening(c, p) + [Deliver(GoTeamPacket(c, p), p.rest)]
  }

  // ---------------------------------------------------------------- the five steps

  /** What does not change while the plan is carried out. */
  ghost predicate Ready(c: Cluster, w: World, p: Plan) {
    && Shaped(c, w) && p.a in c && p.b in c && p.a != p.b && ShareKey(c[p.a].keys, c[p.b].keys)
    && InTime(p) && |p.rest.challenge| == CHALLENGE_LENGTH && p.rest.challenge !in w.past.offers
    && IsBooted(c, w, p.a) && IsBooted(c, w, p.b)
  }

  ghost predicate Asked(c: Cluster, w: World, p: Plan) {
    && Ready(c, w, p) && HelloPacket(c, p) in w.sent && WaitsForOhai(w.tables, p)
    && |p.theirs.challenge| == CHALLENGE_LENGTH && p.theirs.challenge !in w.past.offers
    && p.theirs.challenge != p.rest.challenge
  }

  ghost predicate Answered(c: Cluster, w: World, p: Plan) {
    Ready(c, w, p) && OhaiPacket(c, p) in w.sent && WaitsForOhai(w.tables, p) && WaitsForOkBoss(c, w.tables, p)
  }

  ghost predicate Responded(c: Cluster, w: World, p: Plan) {
    && Ready(c, w, p) && OkBossPacket(c, p) in w.sent
    && WaitsForOkBoss(c, w.tables, p) && WaitsForGoTeam(c, w.tables, p)
  }

  ghost predicate Accepted(c: Cluster, w: World, p: Plan) {
    Ready(c, w, p) && GoTeamPacket(c, p) in w.sent && WaitsForGoTeam(c, w.tables, p)
  }

  /** Between the two histories these identifiers and challenges were drawn, and no others. */
  ghost predicate Drew(past: History, past': History, hids: set<Uuid>, challenges: set<Bytes>) {
    past'.hellos.Keys == past.hellos.Keys + hids && past'.offers.Keys == past.offers.Keys + challenges
  }

  ghost predicate WaitsForOhai(tables: map<Addr, Tables>, p: Plan) {
    && p.a in tables && (p.hid, p.b) in tables[p.a].hellos
    && tables[p.a].hellos[(p.hid, p.b)] == NewHello(p.hid, p.b, p.andThen, p.mine)
  }

  ghost predicate WaitsForOkBoss(c: Cluster, tables: map<Addr, Tables>, p: Plan) {
    && p.a in c && p.b in tables && (p.hid, p.a) in tables[p.b].ohais
    && tables[p.b].ohais[(p.hid, p.a)]
       == Pending(p.hid, PeerAtB(c, p), Some(p.theirs.challenge), None, None, p.mine.now)
  }

  ghost predicate WaitsForGoTeam(c: Cluster, tables: map<Addr, Tables>, p: Plan) {
    && p.a in c && p.b in c && p.a in tables && (p.hid, p.b) in tables[p.a].okboss
    && tables[p.a].okboss[(p.hid, p.b)]
       == Pending(p.hid, PeerAtA(c, p), None, Some(Response(c, p)), p.andThen, p.mine.now)
  }

  lemma DifferentIds(c: Cluster, a: Addr, b: Addr)
    requires DistinctIds(c) && a in c && b in c && a != b
    ensures c[a].id != c[b].id
  {
  }

  lemma SharedBack(c: Cluster, p: Plan)
    requires p.a in c && p.b in c && ShareKey(c[p.a].keys, c[p.b].keys)
    ensures ShareKey(c[p.b].keys, c[p.a].keys)
  {
  }

  lemma {:induction false} HelloOutcome(c: Cluster, t: Tables, p: Plan)
    requires DistinctIds(c) && TablesOk(t) && p.a in c && p.b in c && p.a != p.b
    requires t.hashedKeys == Some(HashedKeys(c[p.b].keys)) && ShareKey(c[p.a].keys, c[p.b].keys)
    requires InTime(p)
    ensures var pending := Pending(p.hid, PeerAtB(c, p), Some(p.theirs.challenge), None, None, p.mine.now);
            Handle(c[p.b], t, p.a, HelloPacket(c, p).handshake, c[p.a].id, p.theirs)
            == Outcome(t.(ohais := t.ohais[(p.hid, p.a) := pending]), None, Some(OhaiPacket(c, p).handshake), None)
  {
    hide HasValidHmac, FreshHmacs, ShareKey, DistinctIds;
    DifferentIds(c, p.a, p.b);
    HmacAcceptedIff(c[p.a].keys, c[p.b].keys, p.mine.now, p.mine.now, p.theirs.now, p.mine.salts);
  }

  lemma {:induction false} OhaiOutcome(c: Cluster, t: Tables, p: Plan)
    requires TablesOk(t) && p.a in c && p.b in c && p.a != p.b
    requires t.hashedKeys == Some(HashedKeys(c[p.a].keys)) && ShareKey(c[p.a].keys, c[p.b].keys)
    requires InTime(p) && (p.hid, p.b) in t.hellos
    requires t.hellos[(p.hid, p.b)] == NewHello(p.hid, p.b, p.andThen, p.mine)
    ensures var pending := Pending(p.hid, PeerAtA(c, p), None, Some(Response(c, p)), p.andThen, p.mine.now);
            Handle(c[p.a], t, p.b, OhaiPacket(c, p).handshake, c[p.b].id, p.rest)
            == Outcome(t.(hellos := t.hellos - {(p.hid, p.b)}, okboss := t.okboss[(p.hid, p.b) := pending]),
                       None, Some(OkBossPacket(c, p).handshake), None)
  {
    hide HasValidHmac, FreshHmacs, ShareKey, ComputeResponse;
    SharedBack(c, p);
    HmacAcceptedIff(c[p.b].keys, c[p.a].keys, p.mine.now, p.mine.now, p.rest.now, p.theirs.salts);
  }

  lemma {:induction false} OkBossOutcome(c: Cluster, t: Tables, p: Plan)
    requires TablesOk(t) && p.a in c && p.b in c && p.a != p.b && ShareKey(c[p.a].keys, c[p.b].keys)
    requires (p.hid, p.a) in t.ohais
    requires t.ohais[(p.hid, p.a)] == Pending(p.hid, PeerAtB(c, p), Some(p.theirs.challenge), None, None, p.mine.now)
    ensures Handle(c[p.b], t, p.a, OkBossPacket(c, p).handshake, c[p.a].id, p.rest)
         == Outcome(t.(ohais := t.ohais - {(p.hid, p.a)}), Some(PeerAtB(c, p)), Some(GoTeamPacket(c, p).handshake), None)
  {
    hide ResponseAccepted, ComputeResponse, ShareKey;
    SharedBack(c, p);
    ResponseAcceptedIff(p.hid, p.theirs.keypair.publicKey, p.theirs.challenge, c[p.b].keys,
                        p.hid, p.theirs.keypair.publicKey, p.theirs.challenge, c[p.a].keys);
  }

  lemma {:induction false} GoTeamOutcome(c: Cluster, t: Tables, p: Plan)
    requires TablesOk(t) && p.a in c && p.b in c && (p.hid, p.b) in t.okboss
    requires t.okboss[(p.hid, p.b)] == Pending(p.hid, PeerAtA(c, p), None, Some(Response(c, p)), p.andThen, p.mine.now)
    ensures Handle(c[p.a], t, p.b, GoTeamPacket(c, p).handshake, c[p.b].id, p.rest)
         == Outcome(t.(okboss := t.okboss - {(p.hid, p.b)}), Some(PeerAtA(c, p)), None, p.andThen)
  {
  }

  /** Delivering `packet` is possible and has the outcome `r`. */
  lemma {:induction false} DeliverAs(c: Cluster, steps: seq<Step>, packet: Packet, env: Env, r: Outcome)
    requires Exec(c, steps).Some? && Enabled(c, Exec(c, steps).value, Deliver(packet, env))
    requires r == Handle(c[packet.dst], Exec(c, steps).value.tables[packet.dst], packet.src, packet.handshake,
                         packet.nodeId, env)
    ensures var (w, end) := (Exec(c, steps).value, Exec(c, steps + [Deliver(packet, env)]));
            && end.Some? && end.value.tables == w.tables[packet.dst := r.tables]
            && end.value.sent == Plus(c, w.sent, packet.dst, packet.src, r.reply)
            && end.value.past == Recorded(w.past, packet, r, env)
  {
    hide Handle;
    ExecAppend(c, steps, Deliver(packet, env));
  }

  lemma {:induction false} AfterGreet(c: Cluster, steps: seq<Step>, p: Plan)
    requires Exec(c, steps).Some? && Fits(c, Exec(c, steps).value, p)
    requires IsBooted(c, Exec(c, steps).value, p.a) && IsBooted(c, Exec(c, steps).value, p.b)
    ensures var end := Exec(c, steps + [Greet(p.a, p.b, p.hid, p.andThen, p.mine)]);
            && end.Some? && Asked(c, end.value, p) && end.value.past.log == Exec(c, steps).value.past.log
            && Drew(Exec(c, steps).value.past, end.value.past, {p.hid}, {})
  {
    hide Exec, FreshHmacs, HashedKeys, ShareKey, TablesOk, NewHello, Apply, Enabled;
    GreetAs(c, steps, p);
  }

  lemma {:induction false} GreetAs(c: Cluster, steps: seq<Step>, p: Plan)
    requires Exec(c, steps).Some? && p.a in c && p.hid !in Exec(c, steps).value.past.hellos
    requires IsBooted(c, Exec(c, steps).value, p.a)
    ensures var (w, end) := (Exec(c, steps).value, Exec(c, steps + [Greet(p.a, p.b, p.hid, p.andThen, p.mine)]));
            var t := w.tables[p.a];
            && end.Some? && end.value.sent == w.sent + {HelloPacket(c, p)}
            && end.value.tables
               == w.tables[p.a := t.(hellos := t.hellos[(p.hid, p.b) := NewHello(p.hid, p.b, p.andThen, p.mine)])]
            && end.value.past.log == w.past.log && end.value.past.offers == w.past.offers
            && end.value.past.hellos.Keys == w.past.hellos.Keys + {p.hid}
  {
    hide FreshHmacs, HashedKeys, TablesOk, NewHello;
    ExecAppend(c, steps, Greet(p.a, p.b, p.hid, p.andThen, p.mine));
  }

  lemma {:induction false} AfterHello(c: Cluster, steps: seq<Step>, p: Plan)
    requires DistinctIds(c) && Exec(c, steps).Some? && Asked(c, Exec(c, steps).value, p)
    ensures var end := Exec(c, steps + [Deliver(HelloPacket(c, p), p.theirs)]);
            && end.Some? && Answered(c, end.value, p) && end.value.past.log == Exec(c, steps).value.past.log
            && Drew(Exec(c, steps).value.past, end.value.past, {}, {p.theirs.challenge})
  {
    hide Exec, Handle, FreshHmacs, HashedKeys, ShareKey, DistinctIds, TablesOk, NewHello, PeerAtB;
    var w, packet := Exec(c, steps).value, HelloPacket(c, p);
    HelloOutcome(c, w.tables[p.b], p);
    DeliverAs(c, steps, packet, p.theirs, Handle(c[p.b], w.tables[p.b], p.a, packet.handshake, c[p.a].id, p.theirs));
  }

  lemma {:induction false} AfterOhai(c: Cluster, steps: seq<Step>, p: Plan)
    requires Exec(c, steps).Some? && Answered(c, Exec(c, steps).value, p)
    ensures var end := Exec(c, steps + [Deliver(OhaiPacket(c, p), p.rest)]);
            && end.Some? && Responded(c, end.value, p) && end.value.past.log == Exec(c, steps).value.past.log
            && Drew(Exec(c, steps).value.past, end.value.past, {}, {})
  {
    hide Exec, Handle, FreshHmacs, HashedKeys, ShareKey, TablesOk, NewHello, PeerAtA, PeerAtB, Response;
    var w, packet := Exec(c, steps).value, OhaiPacket(c, p);
    OhaiOutcome(c, w.tables[p.a], p);
    DeliverAs(c, steps, packet, p.rest, Handle(c[p.a], w.tables[p.a], p.b, packet.handshake, c[p.b].id, p.rest));
  }

  lemma {:induction false} AfterOkBoss(c: Cluster, steps: seq<Step>, p: Plan)
    requires Exec(c, steps).Some? && Responded(c, Exec(c, steps).value, p)
    ensures var end := Exec(c, steps + [Deliver(OkBossPacket(c, p), p.rest)]);
            && end.Some? && Accepted(c, end.value, p)
            && end.value.past.log == Exec(c, steps).value.past.log + [Up(p.b, Responder, p.hid, PeerAtB(c, p))]
            && Drew(Exec(c, steps).value.past, end.value.past, {}, {})
  {
    hide Exec, Handle, HashedKeys, ShareKey, TablesOk, PeerAtA, PeerAtB, Response;
    var w, packet := Exec(c, steps).value, OkBossPacket(c, p);
    OkBossOutcome(c, w.tables[p.b], p);
    DeliverAs(c, steps, packet, p.rest, Handle(c[p.b], w.tables[p.b], p.a, packet.handshake, c[p.a].id, p.rest));
  }

  lemma {:induction false} AfterGoTeam(c: Cluster, steps: seq<Step>, p: Plan)
    requires Exec(c, steps).Some? && Accepted(c, Exec(c, steps).value, p)
    ensures var end := Exec(c, steps + [Deliver(GoTeamPacket(c, p), p.rest)]);
            && end.Some?
            && end.value.past.log == Exec(c, steps).value.past.log + InitiatorEvents(c, p)
            && Drew(Exec(c, steps).value.past, end.value.past, {}, {})
            && end.value.tables[p.a].hashedKeys == Exec(c, steps).value.tables[p.a].hashedKeys
            && end.value.tables[p.b] == Exec(c, steps).value.tables[p.b]
  {
    hide Exec, Handle, HashedKeys, Response, ShareKey, TablesOk, PeerAtA;
    var w, packet := Exec(c, steps).value, GoTeamPacket(c, p);
    var r := Handle(c[p.a], w.tables[p.a], p.b, packet.handshake, c[p.b].id, p.rest);
    GoTeamOutcome(c, w.tables[p.a], p);
    DeliverAs(c, steps, packet, p.rest, r);
  }

  // ---------------------------------------------------------------- the run

  lemma {:induction false} ExecAppend(c: Cluster, steps: seq<Step>, step: Step)
    requires Exec(c, steps).Some? && Enabled(c, Exec(c, steps).value, step)
    ensures Exec(c, steps + [step]) == Some(Apply(c, Exec(c, steps).value, step))
  {
    assert (steps + [step])[..|steps|] == steps;
  }

  /** Four steps bring up the responder and leave a GoTeam in flight. */
  lemma {:induction false} CanOpen(c: Cluster, steps: seq<Step>, p: Plan)
    requires DistinctIds(c) && Exec(c, steps).Some? && Fits(c, Exec(c, steps).value, p)
    requires IsBooted(c, Exec(c, steps).value, p.a) && IsBooted(c, Exec(c, steps).value, p.b)
    ensures var end := Exec(c, steps + Opening(c, p));
            && end.Some? && Accepted(c, end.value, p)
            && Drew(Exec(c, steps).value.past, end.value.past, {p.hid}, {p.theirs.challenge})
            && end.value.past.log == Exec(c, steps).value.past.log + [Up(p.b, Responder, p.hid, PeerAtB(c, p))]
  {
    hide Exec, Asked, Answered, Responded, Accepted, DistinctIds, ShareKey, HelloPacket, OhaiPacket, OkBossPacket,
         GoTeamPacket, PeerAtA, PeerAtB, IsBooted, Shaped, InTime;
    var greet, hello, ohai := Greet(p.a, p.b, p.hid, p.andThen, p.mine), HelloPacket(c, p), OhaiPacket(c, p);
    var okBoss := OkBossPacket(c, p);
    AfterGreet(c, steps, p);
    AfterHello(c, steps + [greet], p);
    var s2 := steps + [greet] + [Deliver(hello, p.theirs)];
    AfterOhai(c, s2, p);
    AfterOkBoss(c, s2 + [Deliver(ohai, p.rest)], p);
    Four(steps, greet, Deliver(hello, p.theirs), Deliver(ohai, p.rest), Deliver(okBoss, p.rest));
  }

  lemma Four(s: seq<Step>, s1: Step, s2: Step, s3: Step, s4: Step)
    ensures s + [s1] + [s2] + [s3] + [s4] == s + [s1, s2, s3, s4]
  {
  }

  lemma StillBooted(c: Cluster, w: World, p: Plan)
    requires Accepted(c, w, p)
    ensures p.a in c && p.b in c && Shaped(c, w) && IsBooted(c, w, p.a) && IsBooted(c, w, p.b)
  {
  }

  /** Whatever happened before, five more steps complete a fresh handshake of two booted nodes that
      share a pre-shared key: both come up, with mirrored records, then the initiator's continuation runs if it
      attached one, and nothing else is noticed. */
  lemma {:induction false} CanComplete(c: Cluster, steps: seq<Step>, p: Plan)
    requires DistinctIds(c) && Exec(c, steps).Some? && Fits(c, Exec(c, steps).value, p)
    requires IsBooted(c, Exec(c, steps).value, p.a) && IsBooted(c, Exec(c, steps).value, p.b)
    ensures var end := Exec(c, steps + Steps(c, p));
            && end.Some? && IsBooted(c, end.value, p.a) && IsBooted(c, end.value, p.b)
            && Drew(Exec(c, steps).value.past, end.value.past, {p.hid}, {p.theirs.challenge})
            && end.value.past.log == Exec(c, steps).value.past.log
                 + [Up(p.b, Responder, p.hid, PeerAtB(c, p))] + InitiatorEvents(c, p)
  {
    hide Exec, Accepted, DistinctIds, ShareKey, GoTeamPacket, PeerAtA, PeerAtB, Shaped, InTime, Opening,
         InitiatorEvents;
    var prefix := steps + Opening(c, p);
    CanOpen(c, steps, p);
    StillBooted(c, Exec(c, prefix).value, p);
    AfterGoTeam(c, prefix, p);
    assert prefix + [Deliver(GoTeamPacket(c, p), p.rest)] == steps + Steps(c, p);
  }

  /** On a new network: boot both nodes, then shake hands. */
  lemma {:induction false} FirstHandshake(c: Cluster, p: Plan)
    requires DistinctIds(c) && Fits(c, Init(c), p)
    ensures var end := Exec(c, [Boot(p.a), Boot(p.b)] + Steps(c, p));
            && end.Some? && IsBooted(c, end.value, p.a) && IsBooted(c, end.value, p.b)
            && end.value.past.hellos.Keys == {p.hid} && end.value.past.offers.Keys == {p.theirs.challenge}
            && end.value.past.log == [Up(p.b, Responder, p.hid, PeerAtB(c, p))] + InitiatorEvents(c, p)
  {
    hide Exec, ShareKey, InTime, InitiatorEvents, PeerAtA, PeerAtB, Steps, DistinctIds;
    BothBoot(c, p);
    CanComplete(c, [Boot(p.a), Boot(p.b)], p);
  }

  /** The plan of a second handshake with fresh draws, later than the first. */
  ghost predicate Follows(p: Plan, q: Plan) {
    && q.a == p.a && q.b == p.b && q.hid != p.hid && InTime(q) && p.mine.now < q.mine.now
    && |q.theirs.challenge| == |q.rest.challenge| == CHALLENGE_LENGTH
    && q.theirs.challenge != q.rest.challenge && p.theirs.challenge !in {q.theirs.challenge, q.rest.challenge}
  }

  /** A second handshake, whose GoTeam gets lost. */
  lemma {:induction false} SecondGoTeamLost(c: Cluster, p: Plan, q: Plan)
    requires DistinctIds(c) && Fits(c, Init(c), p) && Follows(p, q)
    ensures var end := Exec(c, [Boot(p.a), Boot(p.b)] + Steps(c, p) + Opening(c, q));
            && end.Some?
            && end.value.past.log == [Up(p.b, Responder, p.hid, PeerAtB(c, p))] + InitiatorEvents(c, p)
                                     + [Up(p.b, Responder, q.hid, PeerAtB(c, q))]
  {
    hide Exec, Steps, Opening, PeerAtA, PeerAtB, DistinctIds, ShareKey, InTime, InitiatorEvents;
    FirstHandshake(c, p);
    CanOpen(c, [Boot(p.a), Boot(p.b)] + Steps(c, p), q);
  }

  lemma {:induction false} BothBoot(c: Cluster, p: Plan)
    requires p.a in c && p.b in c && p.a != p.b
    ensures var end := Exec(c, [Boot(p.a), Boot(p.b)]);
            && end.Some? && end.value.past == Init(c).past
            && IsBooted(c, end.value, p.a) && IsBooted(c, end.value, p.b)
  {
    assert Exec(c, []) == Some(Init(c));
    ExecAppend(c, [], Boot(p.a));
    assert [] + [Boot(p.a)] == [Boot(p.a)];
    ExecAppend(c, [Boot(p.a)], Boot(p.b));
    assert [Boot(p.a)] + [Boot(p.b)] == [Boot(p.a), Boot(p.b)];
  }
}
