/** Any number of handshakers on a network that drops, duplicates and reorders packets. */
module HandshakeNetwork {
  import opened Basics
  import opened Peers
  import opened Handshaking

  /** The nodes of a cluster, one per address. */
  type Cluster = map<Addr, NodeInfo>

  datatype Packet = Packet(src: Addr, dst: Addr, nodeId: Uuid, handshake: Handshake)

  datatype Role = Initiator | Responder

  /** What the nodes did that the rest of the program notices, in order. */
  datatype Event = Up(node: Addr, role: Role, hid: Uuid, peer: Peer) | Ran(node: Addr, hid: Uuid, andThen: AndThen)

  datatype HelloRecord = HelloRecord(from: Addr, to: Addr, keypair: KeyPair, timestamp: Time, andThen: Option<AndThen>)

  datatype Offer = Offer(node: Addr, remote: Addr, hid: Uuid, keypair: KeyPair)

  /** The log, and what was drawn and decided so far: the Hellos sent, the challenges drawn, the
      challenge whose Ohai the initiator took, and where in the log the responder and the
      initiator came up. None of it decides a step, except that an identifier or a challenge
      that was used before is not drawn again. */
  datatype History = History(
    log: seq<Event>, hellos: map<Uuid, HelloRecord>, offers: map<Bytes, Offer>, taken: map<Uuid, Bytes>,
    accepted: map<Uuid, nat>, completed: map<Uuid, nat>)

  /** The tables of every node, every packet ever sent, and the history. */
  datatype World = World(tables: map<Addr, Tables>, sent: set<Packet>, past: History)

  datatype Step =
    | Boot(node: Addr)
    | Greet(node: Addr, to: Addr, hid: Uuid, andThen: Option<AndThen>, env: Env)
    | Deliver(packet: Packet, env: Env)
    | Expire(node: Addr, key: Key)

  ghost predicate Shaped(c: Cluster, w: World) {
    w.tables.Keys == c.Keys && forall a :: a in w.tables ==> TablesOk(w.tables[a])
  }

  function Init(c: Cluster): World {
    World(map a | a in c :: Tables(map[], map[], map[], None), {}, History([], map[], map[], map[], map[], map[]))
  }

  /** A packet once sent can be delivered at any later time, any number of times, or never. */
  predicate Enabled(c: Cluster, w: World, step: Step) {
    match step
    case Boot(node) => node in c
    case Greet(node, to, hid, andThen, env) => node in c && hid !in w.past.hellos
    case Deliver(p, env) =>
      p in w.sent && p.dst in c && |env.challenge| == CHALLENGE_LENGTH && env.challenge !in w.past.offers
    case Expire(node, key) => node in c
  }

  function Plus(c: Cluster, sent: set<Packet>, from: Addr, to: Addr, reply: Option<Handshake>): set<Packet>
    requires from in c
  {
    if reply.Some? then sent + {Packet(from, to, c[from].id, reply.value)} else sent
  }

  /** What the history records about the delivery of `p` with outcome `r`. A peer-up call returns
      before the continuation starts. */
  function Recorded(past: History, p: Packet, r: Outcome, env: Env): History {
    var Handshake(hid, step) := p.handshake;
    match step
    case Hello(_, _, _, _) =>
      if r.reply.Some?
      then past.(offers := past.offers[env.challenge := Offer(p.dst, p.src, hid, env.keypair)]) else past
    case Ohai(_, _, _, challenge) =>
      if r.reply.Some? then past.(taken := past.taken[hid := challenge]) else past
    case OkBoss(_) =>
      if r.up.Some? then CameUp(past, p.dst, Responder, hid, r.up.value, r.run) else past
    case GoTeam =>
      if r.up.Some? then CameUp(past, p.dst, Initiator, hid, r.up.value, r.run) else past
    case Dead => past
  }

  function CameUp(past: History, node: Addr, role: Role, hid: Uuid, peer: Peer, run: Option<AndThen>): History {
    var up := Up(node, role, hid, peer);
    var log := past.log + if run.Some? then [up, Ran(node, hid, run.value)] else [up];
    if role.Responder?
    then past.(log := log, accepted := past.accepted[hid := |past.log|])
    else past.(log := log, completed := past.completed[hid := |past.log|])
  }

  function Delivered(c: Cluster, w: World, p: Packet, env: Env): (w': World)
    requires Shaped(c, w) && p.dst in c
    ensures Shaped(c, w')
  {
    var r := Handle(c[p.dst], w.tables[p.dst], p.src, p.handshake, p.nodeId, env);
    World(w.tables[p.dst := r.tables], Plus(c, w.sent, p.dst, p.src, r.reply), Recorded(w.past, p, r, env))
  }

  function Greeted(c: Cluster, w: World, node: Addr, to: Addr, hid: Uuid, andThen: Option<AndThen>,
                   env: Env): (w': World)
    requires Shaped(c, w) && node in c
    ensures Shaped(c, w')
  {
    var r := SendHello(c[node], w.tables[node], to, andThen, hid, env);
    World(w.tables[node := r.tables], Plus(c, w.sent, node, to, r.reply),
          w.past.(hellos := w.past.hellos[hid := HelloRecord(node, to, env.keypair, env.now, andThen)]))
  }

  function Booted(info: NodeInfo, t: Tables): (r: Tables)
    requires TablesOk(t)
    ensures TablesOk(r)
  {
    if t.hashedKeys.None? then t.(hashedKeys := Some(HashedKeys(info.keys))) else t
  }

  function Apply(c: Cluster, w: World, step: Step): (w': World)
    requires Shaped(c, w) && Enabled(c, w, step)
    ensures Shaped(c, w')
  {
    match step
    case Boot(node) => w.(tables := w.tables[node := Booted(c[node], w.tables[node])])
    case Greet(node, to, hid, andThen, env) => Greeted(c, w, node, to, hid, andThen, env)
    case Deliver(p, env) => Delivered(c, w, p, env)
    case Expire(node, key) => w.(tables := w.tables[node := Forget(w.tables[node], key)])
  }

  /** The world after a run, if every step of the run was possible. */
  ghost function Exec(c: Cluster, steps: seq<Step>): (r: Option<World>)
    ensures r.Some? ==> Shaped(c, r.value)
  {
    if steps == [] then Some(Init(c))
    else
      var before := Exec(c, steps[..|steps| - 1]);
      if before.Some? && Enabled(c, before.value, steps[|steps| - 1])
      then Some(Apply(c, before.value, steps[|steps| - 1]))
      else None
  }

  // ---------------------------------------------------------------- what the history says

  /** Distinct nodes carry distinct identifiers. */
  ghost predicate DistinctIds(c: Cluster) {
    forall a, b :: a in c && b in c && c[a].id == c[b].id ==> a == b
  }

  function InitiatorPeer(c: Cluster, h: HelloRecord, o: Offer): Peer
    requires h.to in c
  {
    Peer(Some(h.keypair), Some(o.keypair.publicKey), Some(h.timestamp), h.to, c[h.to].id, c[h.to].zone)
  }

  function ResponderPeer(c: Cluster, h: HelloRecord, o: Offer): Peer
    requires h.from in c
  {
    Peer(Some(o.keypair), Some(h.keypair.publicKey), Some(h.timestamp), h.from, c[h.from].id, c[h.from].zone)
  }

  ghost predicate OfferOk(c: Cluster, past: History, ch: Bytes) {
    && ch in past.offers
    && var o := past.offers[ch];
       |ch| == CHALLENGE_LENGTH && o.node in c && o.remote in c && o.node != o.remote &&
       o.hid in past.hellos && past.hellos[o.hid].from == o.remote && past.hellos[o.hid].to == o.node
  }

  /** The initiator of `hid` took the Ohai of a challenge that the responder drew for `hid`. */
  ghost predicate TakenOk(c: Cluster, past: History, hid: Uuid) {
    hid in past.taken && OfferOk(c, past, past.taken[hid]) && past.offers[past.taken[hid]].hid == hid
  }

  ghost predicate AcceptedOk(c: Cluster, past: History, hid: Uuid) {
    && TakenOk(c, past, hid) && hid in past.accepted && past.accepted[hid] < |past.log|
    && var h := past.hellos[hid];
       past.log[past.accepted[hid]] == Up(h.to, Responder, hid, ResponderPeer(c, h, past.offers[past.taken[hid]])) &&
       ShareKey(c[h.from].keys, c[h.to].keys)
  }

  ghost predicate CompletedOk(c: Cluster, past: History, hid: Uuid) {
    && AcceptedOk(c, past, hid) && hid in past.completed && past.accepted[hid] < past.completed[hid] < |past.log|
    && var h := past.hellos[hid];
       past.log[past.completed[hid]] == Up(h.from, Initiator, hid, InitiatorPeer(c, h, past.offers[past.taken[hid]]))
  }

  ghost predicate EventOk(past: History, i: nat)
    requires i < |past.log|
  {
    match past.log[i]
    case Up(_, Responder, hid, _) => hid in past.accepted && past.accepted[hid] == i
    case Up(node, Initiator, hid, _) =>
      && hid in past.completed && past.completed[hid] == i && hid in past.hellos
      && (past.hellos[hid].andThen.Some? ==>
            i + 1 < |past.log| && past.log[i + 1] == Ran(node, hid, past.hellos[hid].andThen.value))
    case Ran(node, hid, andThen) =>
      && i > 0 && past.log[i - 1].Up? && past.log[i - 1].role.Initiator? && past.log[i - 1].node == node
      && past.log[i - 1].hid == hid
      && hid in past.hellos && past.hellos[hid].andThen == Some(andThen)
  }

  ghost predicate PastOk(c: Cluster, past: History) {
    && (forall hid :: hid in past.hellos ==> past.hellos[hid].from in c)
    && (forall ch :: ch in past.offers ==> OfferOk(c, past, ch))
    && (forall hid :: hid in past.taken ==> TakenOk(c, past, hid))
    && (forall hid :: hid in past.accepted ==> AcceptedOk(c, past, hid))
    && (forall hid :: hid in past.completed ==> CompletedOk(c, past, hid))
    && (forall i :: 0 <= i < |past.log| ==> EventOk(past, i))
  }

  /** History only grows: what was recorded stays recorded. */
  ghost predicate Grows(past: History, past': History) {
    && (forall hid :: hid in past.hellos ==> hid in past'.hellos && past'.hellos[hid] == past.hellos[hid])
    && (forall ch :: ch in past.offers ==> ch in past'.offers && past'.offers[ch] == past.offers[ch])
    && (forall hid :: hid in past.taken ==> hid in past'.taken && past'.taken[hid] == past.taken[hid])
    && (forall hid :: hid in past.accepted ==> hid in past'.accepted && past'.accepted[hid] == past.accepted[hid])
    && (forall hid :: hid in past.completed ==> hid in past'.completed && past'.completed[hid] == past.completed[hid])
    && past.log <= past'.log
  }

  lemma {:induction false} OfferKept(c: Cluster, past: History, past': History, ch: Bytes)
    requires Grows(past, past') && OfferOk(c, past, ch)
    ensures OfferOk(c, past', ch)
  {
  }

  lemma {:induction false} TakenKept(c: Cluster, past: History, past': History, hid: Uuid)
    requires Grows(past, past') && TakenOk(c, past, hid)
    ensures TakenOk(c, past', hid)
  {
  }

  lemma {:induction false} AcceptedKept(c: Cluster, past: History, past': History, hid: Uuid)
    requires Grows(past, past') && AcceptedOk(c, past, hid)
    ensures AcceptedOk(c, past', hid)
  {
    hide ShareKey;
    TakenKept(c, past, past', hid);
  }

  lemma {:induction false} CompletedKept(c: Cluster, past: History, past': History, hid: Uuid)
    requires Grows(past, past') && CompletedOk(c, past, hid)
    ensures CompletedOk(c, past', hid)
  {
    hide ShareKey;
    AcceptedKept(c, past, past', hid);
  }

  lemma {:induction false} EventKept(past: History, past': History, i: nat)
    requires Grows(past, past') && i < |past.log| && EventOk(past, i)
    ensures EventOk(past', i)
  {
    if i > 0 { assert past'.log[i - 1] == past.log[i - 1]; }
  }

  lemma {:induction false} PastKept(c: Cluster, past: History, past': History)
    requires Grows(past, past') && PastOk(c, past)
    ensures forall ch :: ch in past.offers ==> OfferOk(c, past', ch)
    ensures forall hid :: hid in past.taken ==> TakenOk(c, past', hid)
    ensures forall hid :: hid in past.accepted ==> AcceptedOk(c, past', hid)
    ensures forall hid :: hid in past.completed ==> CompletedOk(c, past', hid)
    ensures |past.log| <= |past'.log| && forall i :: 0 <= i < |past.log| ==> EventOk(past', i)
  {
    hide OfferOk, TakenOk, AcceptedOk, CompletedOk, EventOk;
    forall ch | ch in past.offers ensures OfferOk(c, past', ch) { OfferKept(c, past, past', ch); }
    forall hid | hid in past.taken ensures TakenOk(c, past', hid) { TakenKept(c, past, past', hid); }
    forall hid | hid in past.accepted ensures AcceptedOk(c, past', hid) { AcceptedKept(c, past, past', hid); }
    forall hid | hid in past.completed ensures CompletedOk(c, past', hid) { CompletedKept(c, past, past', hid); }
    forall i | 0 <= i < |past.log| ensures EventOk(past', i) { EventKept(past, past', i); }
  }

  lemma {:induction false} PastGreet(c: Cluster, past: History, hid: Uuid, h: HelloRecord)
    requires PastOk(c, past) && hid !in past.hellos && h.from in c
    ensures PastOk(c, past.(hellos := past.hellos[hid := h]))
  {
    hide OfferOk, TakenOk, AcceptedOk, CompletedOk, EventOk;
    PastKept(c, past, past.(hellos := past.hellos[hid := h]));
  }

  lemma {:induction false} PastOffer(c: Cluster, past: History, ch: Bytes, o: Offer)
    requires PastOk(c, past) && ch !in past.offers
    requires OfferOk(c, past.(offers := past.offers[ch := o]), ch)
    ensures PastOk(c, past.(offers := past.offers[ch := o]))
  {
    hide OfferOk, TakenOk, AcceptedOk, CompletedOk, EventOk;
    PastKept(c, past, past.(offers := past.offers[ch := o]));
  }

  lemma {:induction false} NewTaken(c: Cluster, past: History, hid: Uuid, ch: Bytes)
    requires OfferOk(c, past, ch) && past.offers[ch].hid == hid
    ensures TakenOk(c, past.(taken := past.taken[hid := ch]), hid)
  {
  }

  lemma {:induction false} PastTake(c: Cluster, past: History, hid: Uuid, ch: Bytes)
    requires PastOk(c, past) && hid !in past.taken && ch in past.offers && past.offers[ch].hid == hid
    ensures PastOk(c, past.(taken := past.taken[hid := ch]))
  {
    hide OfferOk, TakenOk, AcceptedOk, CompletedOk, EventOk;
    NewTaken(c, past, hid, ch);
    PastKept(c, past, past.(taken := past.taken[hid := ch]));
  }

  /** Coming up adds one record and the events that go with it. */
  lemma {:induction false} CameUpGrows(past: History, node: Addr, role: Role, hid: Uuid, peer: Peer,
                                       run: Option<AndThen>)
    requires hid in past.hellos
    requires if role.Responder? then hid !in past.accepted && run.None?
             else hid !in past.completed && run == past.hellos[hid].andThen
    ensures var past' := CameUp(past, node, role, hid, peer, run);
            && Grows(past, past') && NewEvents(past, past') && OnlyAbout(past, past', hid)
            && past'.hellos == past.hellos && past'.offers == past.offers && past'.taken == past.taken
            && (if role.Responder?
                then past'.completed == past.completed && past'.accepted.Keys == past.accepted.Keys + {hid}
                else past'.accepted == past.accepted && past'.completed.Keys == past.completed.Keys + {hid})
  {
  }

  ghost predicate NewEvents(past: History, past': History) {
    forall i :: |past.log| <= i < |past'.log| ==> EventOk(past', i)
  }

  lemma {:induction false} NewAccepted(c: Cluster, past: History, hid: Uuid)
    requires TakenOk(c, past, hid) && ShareKey(c[past.hellos[hid].from].keys, c[past.hellos[hid].to].keys)
    ensures AcceptedOk(c, CameUp(past, past.hellos[hid].to, Responder, hid,
                                 ResponderPeer(c, past.hellos[hid], past.offers[past.taken[hid]]), None), hid)
  {
    hide ShareKey;
  }

  lemma {:induction false} PastAccept(c: Cluster, past: History, hid: Uuid, past': History)
    requires PastOk(c, past) && TakenOk(c, past, hid) && hid !in past.accepted
    requires ShareKey(c[past.hellos[hid].from].keys, c[past.hellos[hid].to].keys)
    requires past' == CameUp(past, past.hellos[hid].to, Responder, hid,
                             ResponderPeer(c, past.hellos[hid], past.offers[past.taken[hid]]), None)
    ensures PastOk(c, past')
  {
    TakenFacts(c, past, hid);
    hide OfferOk, TakenOk, AcceptedOk, CompletedOk, EventOk, CameUp, Grows, ShareKey, ResponderPeer, OnlyAbout;
    CameUpGrows(past, past.hellos[hid].to, Responder, hid,
                ResponderPeer(c, past.hellos[hid], past.offers[past.taken[hid]]), None);
    NewAccepted(c, past, hid);
    PastKept(c, past, past');
  }

  lemma TakenFacts(c: Cluster, past: History, hid: Uuid)
    requires TakenOk(c, past, hid)
    ensures hid in past.hellos && hid in past.taken && past.taken[hid] in past.offers
    ensures past.hellos[hid].from in c && past.hellos[hid].to in c
  {
  }

  lemma {:induction false} NewCompleted(c: Cluster, past: History, hid: Uuid)
    requires AcceptedOk(c, past, hid)
    ensures CompletedOk(c, CameUp(past, past.hellos[hid].from, Initiator, hid,
                                  InitiatorPeer(c, past.hellos[hid], past.offers[past.taken[hid]]),
                                  past.hellos[hid].andThen), hid)
  {
    hide ShareKey;
  }

  lemma {:induction false} PastComplete(c: Cluster, past: History, hid: Uuid, past': History)
    requires PastOk(c, past) && AcceptedOk(c, past, hid) && hid !in past.completed
    requires past' == CameUp(past, past.hellos[hid].from, Initiator, hid,
                             InitiatorPeer(c, past.hellos[hid], past.offers[past.taken[hid]]), past.hellos[hid].andThen)
    ensures PastOk(c, past')
  {
    TakenFacts(c, past, hid);
    hide OfferOk, TakenOk, AcceptedOk, CompletedOk, EventOk, CameUp, Grows, ShareKey, InitiatorPeer, OnlyAbout;
    CameUpGrows(past, past.hellos[hid].from, Initiator, hid,
                InitiatorPeer(c, past.hellos[hid], past.offers[past.taken[hid]]), past.hellos[hid].andThen);
    NewCompleted(c, past, hid);
    PastKept(c, past, past');
  }

  // ---------------------------------------------------------------- what tables and packets say

  ghost predicate HelloOk(past: History, a: Addr, k: Key, p: Pending) {
    && k.0 in past.hellos && k.0 !in past.taken
    && var h := past.hellos[k.0];
       h.from == a && h.to == k.1 &&
       p == Pending(k.0, Peer(Some(h.keypair), None, Some(h.timestamp), h.to, NIL_UUID, None),
                    None, None, h.andThen, h.timestamp)
  }

  ghost predicate OhaiOk(c: Cluster, past: History, b: Addr, k: Key, p: Pending) {
    && p.challenge.Some? && OfferOk(c, past, p.challenge.value)
    && var o := past.offers[p.challenge.value];
       o.hid == k.0 && o.node == b && o.remote == k.1 &&
       p == Pending(k.0, ResponderPeer(c, past.hellos[k.0], o), p.challenge, None, None, past.hellos[k.0].timestamp) &&
       (k.0 in past.accepted && k.0 in past.taken ==> past.taken[k.0] != p.challenge.value)
  }

  ghost predicate OkBossOk(c: Cluster, past: History, a: Addr, k: Key, p: Pending) {
    && TakenOk(c, past, k.0) && k.0 !in past.completed
    && var h := past.hellos[k.0];
       h.from == a && h.to == k.1 && p.andThen == h.andThen &&
       p.peer == InitiatorPeer(c, h, past.offers[past.taken[k.0]])
  }

  ghost predicate NodeOk(c: Cluster, past: History, a: Addr, t: Tables) {
    && (forall k :: k in t.hellos ==> HelloOk(past, a, k, t.hellos[k]))
    && (forall k :: k in t.ohais ==> OhaiOk(c, past, a, k, t.ohais[k]))
    && (forall k :: k in t.okboss ==> OkBossOk(c, past, a, k, t.okboss[k]))
  }

  ghost predicate PacketOk(c: Cluster, past: History, p: Packet) {
    && p.src in c && p.nodeId == c[p.src].id
    && var hid := p.handshake.id;
       match p.handshake.step
       case Hello(pk, zone, _, timestamp) =>
         hid in past.hellos && zone == c[p.src].zone &&
         var h := past.hellos[hid];
         h.from == p.src && h.to == p.dst && pk == h.keypair.publicKey && timestamp == h.timestamp
       case Ohai(pk, zone, _, challenge) =>
         OfferOk(c, past, challenge) && zone == c[p.src].zone &&
         var o := past.offers[challenge];
         o.hid == hid && o.node == p.src && o.remote == p.dst && pk == o.keypair.publicKey
       case OkBoss(response) =>
         TakenOk(c, past, hid) && past.hellos[hid].from == p.src && past.hellos[hid].to == p.dst &&
         response == ComputeResponse(hid, past.offers[past.taken[hid]].keypair.publicKey, past.taken[hid],
                                     c[p.src].keys)
       case GoTeam =>
         hid in past.accepted && TakenOk(c, past, hid) && past.hellos[hid].to == p.src && past.hellos[hid].from == p.dst
       case Dead => false
  }

  ghost predicate NodesOk(c: Cluster, past: History, tables: map<Addr, Tables>) {
    forall a :: a in tables ==> NodeOk(c, past, a, tables[a])
  }

  ghost predicate PacketsOk(c: Cluster, past: History, sent: set<Packet>) {
    forall p :: p in sent ==> PacketOk(c, past, p)
  }

  lemma {:induction false} PacketsKept(c: Cluster, past: History, past': History, sent: set<Packet>)
    requires Grows(past, past') && PacketsOk(c, past, sent)
    ensures PacketsOk(c, past', sent)
  {
    forall p | p in sent ensures PacketOk(c, past', p) { assert PacketOk(c, past, p); }
  }

  lemma {:induction false} HelloKept(past: History, past': History, a: Addr, k: Key, p: Pending)
    requires Grows(past, past') && HelloOk(past, a, k, p) && k.0 !in past'.taken
    ensures HelloOk(past', a, k, p)
  {
  }

  lemma {:induction false} OhaiKept(c: Cluster, past: History, past': History, a: Addr, k: Key, p: Pending)
    requires Grows(past, past') && OhaiOk(c, past, a, k, p) && (k.0 in past'.accepted ==> k.0 in past.accepted)
    requires k.0 in past.accepted ==> k.0 in past.taken
    ensures OhaiOk(c, past', a, k, p)
  {
  }

  lemma {:induction false} OkBossKept(c: Cluster, past: History, past': History, a: Addr, k: Key, p: Pending)
    requires Grows(past, past') && OkBossOk(c, past, a, k, p) && k.0 !in past'.completed
    ensures OkBossOk(c, past', a, k, p)
  {
  }

  lemma {:induction false} NotYet(c: Cluster, past: History, a: Addr, k: Key, p: Pending)
    requires PastOk(c, past)
    ensures HelloOk(past, a, k, p) ==> k.0 !in past.taken
    ensures OkBossOk(c, past, a, k, p) ==> k.0 !in past.completed
    ensures k.0 in past.accepted ==> k.0 in past.taken
  {
    hide OfferOk, CompletedOk, EventOk;
    if k.0 in past.accepted { assert AcceptedOk(c, past, k.0); }
  }

  /** A table stays in order when the records its entries must not contradict did not change. */
  lemma {:induction false} NodeKept(c: Cluster, past: History, past': History, a: Addr, t: Tables, t': Tables)
    requires Grows(past, past') && PastOk(c, past) && NodeOk(c, past, a, t)
    requires forall k :: k in t'.hellos ==>
               k in t.hellos && t'.hellos[k] == t.hellos[k] && (k.0 in past'.taken ==> k.0 in past.taken)
    requires forall k :: k in t'.ohais ==>
               k in t.ohais && t'.ohais[k] == t.ohais[k] && (k.0 in past'.accepted ==> k.0 in past.accepted)
    requires forall k :: k in t'.okboss ==>
               k in t.okboss && t'.okboss[k] == t.okboss[k] && (k.0 in past'.completed ==> k.0 in past.completed)
    ensures NodeOk(c, past', a, t')
  {
    hide PastOk, Grows, HelloOk, OhaiOk, OkBossOk;
    forall k | k in t'.hellos ensures HelloOk(past', a, k, t'.hellos[k]) {
      NotYet(c, past, a, k, t.hellos[k]);
      HelloKept(past, past', a, k, t.hellos[k]);
    }
    forall k | k in t'.ohais ensures OhaiOk(c, past', a, k, t'.ohais[k]) {
      NotYet(c, past, a, k, t.ohais[k]);
      OhaiKept(c, past, past', a, k, t.ohais[k]);
    }
    forall k | k in t'.okboss ensures OkBossOk(c, past', a, k, t'.okboss[k]) {
      NotYet(c, past, a, k, t.okboss[k]);
      OkBossKept(c, past, past', a, k, t.okboss[k]);
    }
  }

  /** What the entries of a table say about their handshakes. */
  lemma {:induction false} EntryEnds(c: Cluster, past: History, tables: map<Addr, Tables>, a: Addr, k: Key)
    requires NodesOk(c, past, tables) && a in tables
    ensures k in tables[a].hellos ==> HelloOk(past, a, k, tables[a].hellos[k])
    ensures k in tables[a].ohais ==> OhaiOk(c, past, a, k, tables[a].ohais[k])
    ensures k in tables[a].okboss ==> OkBossOk(c, past, a, k, tables[a].okboss[k])
    ensures k in tables[a].hellos ==> k.0 in past.hellos && past.hellos[k.0].from == a && past.hellos[k.0].to == k.1
    ensures k in tables[a].ohais ==> k.0 in past.hellos && past.hellos[k.0].to == a && past.hellos[k.0].from == k.1
    ensures k in tables[a].okboss ==> k.0 in past.hellos && past.hellos[k.0].from == a && past.hellos[k.0].to == k.1
  {
    assert NodeOk(c, past, a, tables[a]);
  }

  /** Entries of handshakes other than `hid` do not mind what is recorded about `hid`; entries of
      `hid` itself sit at its two ends only. */
  ghost predicate OnlyAbout(past: History, past': History, hid: Uuid) {
    && (forall x :: x != hid && x in past'.taken ==> x in past.taken)
    && (forall x :: x != hid && x in past'.accepted ==> x in past.accepted)
    && (forall x :: x != hid && x in past'.completed ==> x in past.completed)
  }

  ghost predicate SubTables(t': Tables, t: Tables) {
    && (forall k :: k in t'.hellos ==> k in t.hellos && t'.hellos[k] == t.hellos[k])
    && (forall k :: k in t'.ohais ==> k in t.ohais && t'.ohais[k] == t.ohais[k])
    && (forall k :: k in t'.okboss ==> k in t.okboss && t'.okboss[k] == t.okboss[k])
  }

  /** Which tables may keep their entries for `hid`, given what the step records about it. */
  ghost predicate Cleared(past: History, past': History, hid: Uuid, t': Tables) {
    && (hid in past'.taken && hid !in past.taken ==> forall k :: k in t'.hellos ==> k.0 != hid)
    && (hid in past'.accepted && hid !in past.accepted ==> forall k :: k in t'.ohais ==> k.0 != hid)
    && (hid in past'.completed && hid !in past.completed ==> forall k :: k in t'.okboss ==> k.0 != hid)
  }

  lemma {:induction false} NodesKept(c: Cluster, past: History, past': History, tables: map<Addr, Tables>,
                                     tables': map<Addr, Tables>, hid: Uuid)
    requires Grows(past, past') && PastOk(c, past) && NodesOk(c, past, tables) && OnlyAbout(past, past', hid)
    requires tables'.Keys == tables.Keys && forall a :: a in tables ==>
               SubTables(tables'[a], tables[a]) && Cleared(past, past', hid, tables'[a])
    ensures NodesOk(c, past', tables')
  {
    hide PastOk, Grows, NodeOk;
    forall a | a in tables ensures NodeOk(c, past', a, tables'[a]) {
      assert NodeOk(c, past, a, tables[a]) && SubTables(tables'[a], tables[a]) && Cleared(past, past', hid, tables'[a]);
      NodeKept(c, past, past', a, tables[a], tables'[a]);
    }
  }

  // ---------------------------------------------------------------- every step keeps it

  ghost predicate Inv(c: Cluster, w: World) {
    Shaped(c, w) && PastOk(c, w.past) && NodesOk(c, w.past, w.tables) && PacketsOk(c, w.past, w.sent)
  }

  /** Booting, forgetting and ignoring: entries may vanish, nothing else happens. */
  lemma {:induction false} QuietKeeps(c: Cluster, w: World, node: Addr, t: Tables)
    requires Inv(c, w) && node in c && TablesOk(t) && SubTables(t, w.tables[node])
    ensures Inv(c, World(w.tables[node := t], w.sent, w.past))
  {
    hide PastOk, NodesOk, PacketsOk, TablesOk;
    NodesKept(c, w.past, w.past, w.tables, w.tables[node := t], NIL_UUID);
  }

  /** Adding one entry at one node. */
  lemma {:induction false} NodesPlus(c: Cluster, past: History, tables: map<Addr, Tables>, node: Addr, t: Tables,
                                     t': Tables, key: Key, p: Pending)
    requires NodesOk(c, past, tables) && node in tables && t == tables[node]
    requires || (t' == t.(hellos := t.hellos[key := p]) && HelloOk(past, node, key, p))
             || (t' == t.(ohais := t.ohais[key := p]) && OhaiOk(c, past, node, key, p))
             || (t' == t.(okboss := t.okboss[key := p]) && OkBossOk(c, past, node, key, p))
    ensures NodesOk(c, past, tables[node := t'])
  {
    assert NodeOk(c, past, node, t);
  }

  lemma {:induction false} PacketsPlus(c: Cluster, past: History, past': History, sent: set<Packet>, p: Packet)
    requires Grows(past, past') && PacketsOk(c, past, sent) && PacketOk(c, past', p)
    ensures PacketsOk(c, past', sent + {p})
  {
    PacketsKept(c, past, past', sent);
  }

  lemma {:induction false} PacketAt(c: Cluster, w: World, p: Packet)
    requires Inv(c, w) && p in w.sent
    ensures PacketOk(c, w.past, p)
  {
  }

  lemma {:induction false} RecordsAgree(c: Cluster, past: History, hid: Uuid, ch: Bytes)
    requires PastOk(c, past)
    ensures hid !in past.hellos ==> hid !in past.taken
    ensures ch !in past.offers && hid in past.taken ==> past.taken[hid] != ch
    ensures hid in past.accepted ==> hid in past.taken && AcceptedOk(c, past, hid)
    ensures hid in past.completed ==> hid in past.accepted
  {
  }

  lemma {:induction false} GreetKeeps(c: Cluster, w: World, node: Addr, to: Addr, hid: Uuid, andThen: Option<AndThen>,
                                      env: Env)
    requires Inv(c, w) && node in c && hid !in w.past.hellos
    ensures Inv(c, Greeted(c, w, node, to, hid, andThen, env))
  {
    hide PastOk, NodesOk, PacketsOk, TablesOk, ComputeHmacs;
    var h := HelloRecord(node, to, env.keypair, env.now, andThen);
    var past' := w.past.(hellos := w.past.hellos[hid := h]);
    var r := SendHello(c[node], w.tables[node], to, andThen, hid, env);
    RecordsAgree(c, w.past, hid, []);
    PastGreet(c, w.past, hid, h);
    PacketsPlus(c, w.past, past', w.sent, Packet(node, to, c[node].id, r.reply.value));
    NodesKept(c, w.past, past', w.tables, w.tables, hid);
    NodesPlus(c, past', w.tables, node, w.tables[node], r.tables, (hid, to), NewHello(hid, to, andThen, env));
  }

  /** A Hello in flight is the one its source sent. */
  ghost predicate IsHelloOf(c: Cluster, past: History, p: Packet) {
    && p.handshake.step.Hello? && p.src in c && p.nodeId == c[p.src].id && p.handshake.id in past.hellos
    && var (h, hello) := (past.hellos[p.handshake.id], p.handshake.step);
       && h.from == p.src && h.to == p.dst && hello.pk == h.keypair.publicKey
       && hello.timestamp == h.timestamp && hello.zone == c[p.src].zone
  }

  lemma {:induction false} HelloSent(c: Cluster, past: History, p: Packet)
    requires PacketOk(c, past, p) && p.handshake.step.Hello?
    ensures IsHelloOf(c, past, p)
  {
  }

  /** Answering it draws a challenge, which makes the pending Ohai and the packet with it what they should be. */
  lemma {:induction false} NewOffer(c: Cluster, past: History, p: Packet, env: Env, hmacs: seq<Hmac>)
    requires IsHelloOf(c, past, p) && p.dst in c && p.src != p.dst
    requires |env.challenge| == CHALLENGE_LENGTH
    requires p.handshake.id in past.taken ==> past.taken[p.handshake.id] != env.challenge
    ensures var past' := past.(offers := past.offers[env.challenge := Offer(p.dst, p.src, p.handshake.id, env.keypair)]);
            var (key, hello) := ((p.handshake.id, p.src), p.handshake.step);
            && OfferOk(c, past', env.challenge)
            && OhaiOk(c, past', p.dst, key, NewOhai(key.0, key.1, p.nodeId, hello.pk, hello.timestamp, hello.zone, env))
            && PacketOk(c, past', Packet(p.dst, p.src, c[p.dst].id,
                                         Handshake(key.0, Ohai(env.keypair.publicKey, c[p.dst].zone, hmacs, env.challenge))))
  {
  }

  lemma {:induction false} HelloKeeps(c: Cluster, w: World, p: Packet, env: Env)
    requires Inv(c, w) && DistinctIds(c) && Enabled(c, w, Deliver(p, env)) && p.handshake.step.Hello?
    ensures Inv(c, Delivered(c, w, p, env))
  {
    hide PastOk, NodesOk, PacketsOk, TablesOk, ComputeHmacs, HasValidHmac, PacketOk, OhaiOk, HelloOk, OkBossOk, OfferOk,
         DistinctIds, NewOhai;
    var t, key := w.tables[p.dst], (p.handshake.id, p.src);
    var r := OnHello(c[p.dst], t, key, p.handshake.step, p.nodeId, env);
    PacketAt(c, w, p);
    HelloSent(c, w.past, p);
    if r.reply.None? {
      QuietKeeps(c, w, p.dst, t);
    } else {
      var o := Offer(p.dst, p.src, key.0, env.keypair);
      var past' := w.past.(offers := w.past.offers[env.challenge := o]);
      RecordsAgree(c, w.past, key.0, env.challenge);
      NewOffer(c, w.past, p, env, r.reply.value.step.hmacs);
      PastOffer(c, w.past, env.challenge, o);
      PacketsPlus(c, w.past, past', w.sent, Packet(p.dst, p.src, c[p.dst].id, r.reply.value));
      NodesKept(c, w.past, past', w.tables, w.tables, key.0);
      NodesPlus(c, past', w.tables, p.dst, t, r.tables, key, r.tables.ohais[key]);
    }
  }

  lemma {:induction false} OhaiKeeps(c: Cluster, w: World, p: Packet, env: Env)
    requires Inv(c, w) && Enabled(c, w, Deliver(p, env)) && p.handshake.step.Ohai?
    ensures Inv(c, Delivered(c, w, p, env))
  {
    hide PastOk, NodesOk, PacketsOk, TablesOk, ComputeHmacs, HasValidHmac, ComputeResponse;
    var t, key := w.tables[p.dst], (p.handshake.id, p.src);
    var r := OnOhai(c[p.dst], t, key, p.handshake.step, p.nodeId, env);
    PacketAt(c, w, p);
    if r.reply.None? {
      QuietKeeps(c, w, p.dst, r.tables);
    } else {
      var ch := p.handshake.step.challenge;
      var past' := w.past.(taken := w.past.taken[key.0 := ch]);
      EntryEnds(c, w.past, w.tables, p.dst, key);
      RecordsAgree(c, w.past, key.0, ch);
      PastTake(c, w.past, key.0, ch);
      PacketsPlus(c, w.past, past', w.sent, Packet(p.dst, p.src, c[p.dst].id, r.reply.value));
      OnlyThere(c, w.past, w.tables, p.dst, key);
      OhaiNodes(c, w.past, past', w.tables, p.dst, key, r.tables);
    }
  }

  /** The Hello entry of `key` becomes an OkBoss entry. */
  lemma {:induction false} OhaiNodes(c: Cluster, past: History, past': History, tables: map<Addr, Tables>, node: Addr,
                                     key: Key, t': Tables)
    requires PastOk(c, past) && NodesOk(c, past, tables) && node in tables && Grows(past, past')
               && OnlyAbout(past, past', key.0)
    requires key.0 !in past'.accepted && key.0 !in past'.completed
    requires forall a, k :: a in tables && k in tables[a].hellos && k.0 == key.0 ==> a == node && k == key
    requires key in t'.okboss && OkBossOk(c, past', node, key, t'.okboss[key])
    requires t' == tables[node].(hellos := tables[node].hellos - {key},
               okboss := tables[node].okboss[key := t'.okboss[key]])
    ensures NodesOk(c, past', tables[node := t'])
  {
    hide PastOk, NodesOk, OkBossOk, HelloOk, OhaiOk, Grows;
    var t1 := tables[node].(hellos := tables[node].hellos - {key});
    NodesKept(c, past, past', tables, tables[node := t1], key.0);
    NodesPlus(c, past', tables[node := t1], node, t1, t', key, t'.okboss[key]);
    assert tables[node := t1][node := t'] == tables[node := t'];
  }

  /** Entries of one handshake sit under one key: at its source as Hello or OkBoss, at its target as Ohai. */
  lemma {:induction false} OnlyThere(c: Cluster, past: History, tables: map<Addr, Tables>, node: Addr, key: Key)
    requires NodesOk(c, past, tables) && node in tables && key.0 in past.hellos
    requires || (past.hellos[key.0].from == node && past.hellos[key.0].to == key.1)
             || (past.hellos[key.0].from == key.1 && past.hellos[key.0].to == node)
    ensures past.hellos[key.0].from == node ==>
              forall a, k :: a in tables && (k in tables[a].hellos || k in tables[a].okboss) && k.0 == key.0 ==>
                  a == node && k == key
    ensures past.hellos[key.0].to == node ==>
              forall a, k :: a in tables && k in tables[a].ohais && k.0 == key.0 ==> a == node && k == key
  {
    forall a, k: Key | a in tables && k.0 == key.0 &&
                  (k in tables[a].hellos || k in tables[a].ohais || k in tables[a].okboss)
      ensures k in tables[a].hellos || k in tables[a].okboss ==>
                past.hellos[key.0].from == a && past.hellos[key.0].to == k.1
      ensures k in tables[a].ohais ==> past.hellos[key.0].to == a && past.hellos[key.0].from == k.1
    {
      EntryEnds(c, past, tables, a, k);
    }
  }

  /** An accepted answer belongs to the challenge that is pending now, and it is the first. */
  lemma {:induction false} OkBossMatches(c: Cluster, past: History, p: Packet, e: Pending)
    requires PacketOk(c, past, p) && p.handshake.step.OkBoss? && OhaiOk(c, past, p.dst, (p.handshake.id, p.src), e)
    requires GotOkBoss(e, p.handshake.step.response, c[p.dst].keys)
    ensures TakenOk(c, past, p.handshake.id) && e.challenge == Some(past.taken[p.handshake.id])
    ensures p.handshake.id !in past.accepted && ShareKey(c[p.src].keys, c[p.dst].keys)
  {
    ResponseAcceptedIff(e.id, e.peer.ourKeypair.value.publicKey, e.challenge.value, c[p.dst].keys,
                        e.id, past.offers[past.taken[e.id]].keypair.publicKey, past.taken[e.id], c[p.src].keys);
  }

  /** The Ohai entry of `key` goes when its handshake is accepted. */
  lemma {:induction false} AcceptNodes(c: Cluster, past: History, past': History, tables: map<Addr, Tables>, node: Addr,
                                       key: Key)
    requires PastOk(c, past) && NodesOk(c, past, tables) && node in tables && Grows(past, past')
    requires OnlyAbout(past, past', key.0) && past'.taken == past.taken && past'.completed == past.completed
    requires forall a, k :: a in tables && k in tables[a].ohais && k.0 == key.0 ==> a == node && k == key
    ensures NodesOk(c, past', tables[node := tables[node].(ohais := tables[node].ohais - {key})])
  {
    hide PastOk, NodesOk, Grows;
    NodesKept(c, past, past', tables, tables[node := tables[node].(ohais := tables[node].ohais - {key})], key.0);
  }

  /** The OkBoss entry of `key` goes when its handshake is completed. */
  lemma {:induction false} CompleteNodes(c: Cluster, past: History, past': History, tables: map<Addr, Tables>, node: Addr,
                                         key: Key)
    requires PastOk(c, past) && NodesOk(c, past, tables) && node in tables && Grows(past, past')
    requires OnlyAbout(past, past', key.0) && past'.taken == past.taken && past'.accepted == past.accepted
    requires forall a, k :: a in tables && k in tables[a].okboss && k.0 == key.0 ==> a == node && k == key
    ensures NodesOk(c, past', tables[node := tables[node].(okboss := tables[node].okboss - {key})])
  {
    hide PastOk, NodesOk, Grows;
    NodesKept(c, past, past', tables, tables[node := tables[node].(okboss := tables[node].okboss - {key})], key.0);
  }

  lemma {:induction false} OhaiEntry(c: Cluster, past: History, b: Addr, k: Key, p: Pending)
    requires OhaiOk(c, past, b, k, p)
    ensures p.challenge.Some? && p.challenge.value in past.offers && k.0 in past.hellos && p.id == k.0 && p.andThen.None?
    ensures past.hellos[k.0].from in c && past.hellos[k.0].from == k.1 && past.hellos[k.0].to == b
    ensures p.peer == ResponderPeer(c, past.hellos[k.0], past.offers[p.challenge.value])
  {
  }

  lemma {:induction false} OkBossEntry(c: Cluster, past: History, a: Addr, k: Key, p: Pending)
    requires OkBossOk(c, past, a, k, p)
    ensures TakenOk(c, past, k.0) && k.0 !in past.completed && past.hellos[k.0].from == a && past.hellos[k.0].to == k.1
    ensures p.peer == InitiatorPeer(c, past.hellos[k.0], past.offers[past.taken[k.0]])
    ensures p.andThen == past.hellos[k.0].andThen
  {
  }

  lemma {:induction false} GoTeamSent(c: Cluster, past: History, p: Packet)
    requires PacketOk(c, past, p) && p.handshake.step.GoTeam?
    ensures p.handshake.id in past.accepted
  {
  }

  lemma {:induction false} GoTeamPacketOk(c: Cluster, past: History, hid: Uuid, from: Addr, to: Addr)
    requires hid in past.accepted && TakenOk(c, past, hid) && past.hellos[hid].to == from && past.hellos[hid].from == to
    ensures PacketOk(c, past, Packet(from, to, c[from].id, Handshake(hid, GoTeam)))
  {
  }

  lemma {:induction false} OkBossKeeps(c: Cluster, w: World, p: Packet, env: Env)
    requires Inv(c, w) && Enabled(c, w, Deliver(p, env)) && p.handshake.step.OkBoss?
    ensures Inv(c, Delivered(c, w, p, env))
  {
    hide PastOk, NodesOk, PacketsOk, TablesOk, ComputeResponse, GotOkBoss, ShareKey, PacketOk, OhaiOk, HelloOk, OkBossOk,
         TakenOk, CameUp, Grows, OnlyAbout, ResponderPeer, NewEvents;
    var t, key := w.tables[p.dst], (p.handshake.id, p.src);
    var r := OnOkBoss(c[p.dst], t, key, p.handshake.step.response);
    PacketAt(c, w, p);
    if r.up.None? {
      QuietKeeps(c, w, p.dst, r.tables);
    } else {
      EntryEnds(c, w.past, w.tables, p.dst, key);
      OhaiEntry(c, w.past, p.dst, key, t.ohais[key]);
      OkBossMatches(c, w.past, p, t.ohais[key]);
      var past' := CameUp(w.past, p.dst, Responder, key.0, r.up.value, None);
      CameUpGrows(w.past, p.dst, Responder, key.0, r.up.value, None);
      PastAccept(c, w.past, key.0, past');
      TakenKept(c, w.past, past', key.0);
      GoTeamPacketOk(c, past', key.0, p.dst, p.src);
      PacketsPlus(c, w.past, past', w.sent, Packet(p.dst, p.src, c[p.dst].id, r.reply.value));
      OnlyThere(c, w.past, w.tables, p.dst, key);
      AcceptNodes(c, w.past, past', w.tables, p.dst, key);
    }
  }

  lemma {:induction false} GoTeamKeeps(c: Cluster, w: World, p: Packet, env: Env)
    requires Inv(c, w) && Enabled(c, w, Deliver(p, env)) && p.handshake.step.GoTeam?
    ensures Inv(c, Delivered(c, w, p, env))
  {
    hide PastOk, NodesOk, PacketsOk, TablesOk, ComputeResponse, ShareKey, PacketOk, OhaiOk, HelloOk, OkBossOk, TakenOk,
         AcceptedOk, CameUp, Grows, OnlyAbout, InitiatorPeer, NewEvents;
    var t, key := w.tables[p.dst], (p.handshake.id, p.src);
    var r := OnGoTeam(t, key);
    PacketAt(c, w, p);
    if r.up.None? {
      QuietKeeps(c, w, p.dst, r.tables);
    } else {
      EntryEnds(c, w.past, w.tables, p.dst, key);
      OkBossEntry(c, w.past, p.dst, key, t.okboss[key]);
      GoTeamSent(c, w.past, p);
      RecordsAgree(c, w.past, key.0, []);
      var past' := CameUp(w.past, p.dst, Initiator, key.0, r.up.value, r.run);
      CameUpGrows(w.past, p.dst, Initiator, key.0, r.up.value, r.run);
      PastComplete(c, w.past, key.0, past');
      PacketsKept(c, w.past, past', w.sent);
      OnlyThere(c, w.past, w.tables, p.dst, key);
      CompleteNodes(c, w.past, past', w.tables, p.dst, key);
    }
  }

  lemma NotDead(c: Cluster, past: History, p: Packet)
    requires PacketOk(c, past, p)
    ensures !p.handshake.step.Dead?
  {
  }

  lemma {:induction false} StepKeeps(c: Cluster, w: World, step: Step)
    requires Inv(c, w) && DistinctIds(c) && Enabled(c, w, step)
    ensures Inv(c, Apply(c, w, step))
  {
    hide PastOk, NodesOk, PacketsOk, TablesOk, Delivered, Greeted, PacketOk;
    match step
    case Boot(node) => QuietKeeps(c, w, node, Booted(c[node], w.tables[node]));
    case Expire(node, key) => QuietKeeps(c, w, node, Forget(w.tables[node], key));
    case Greet(node, to, hid, andThen, env) => GreetKeeps(c, w, node, to, hid, andThen, env);
    case Deliver(p, env) =>
      PacketAt(c, w, p);
      NotDead(c, w.past, p);
      match p.handshake.step
      case Hello(_, _, _, _) => HelloKeeps(c, w, p, env);
      case Ohai(_, _, _, _) => OhaiKeeps(c, w, p, env);
      case OkBoss(_) => OkBossKeeps(c, w, p, env);
      case GoTeam => GoTeamKeeps(c, w, p, env);
  }

  lemma {:induction false} RunKeeps(c: Cluster, steps: seq<Step>)
    requires DistinctIds(c) && Exec(c, steps).Some?
    ensures Inv(c, Exec(c, steps).value)
  {
    if steps != [] {
      RunKeeps(c, steps[..|steps| - 1]);
      StepKeeps(c, Exec(c, steps[..|steps| - 1]).value, steps[|steps| - 1]);
    }
  }

  // ---------------------------------------------------------------- what holds of every run

  ghost predicate IsUp(w: World, i: nat, role: Role, hid: Uuid) {
    i < |w.past.log| && w.past.log[i].Up? && w.past.log[i].role == role && w.past.log[i].hid == hid
  }

  /** Whoever comes up as one end of a handshake, its peer record is the mirror image of the one
      with which the other end comes up: each holds the public half of the other's key pair. */
  lemma {:induction false} KeyAgreement(c: Cluster, steps: seq<Step>, i: nat, j: nat, hid: Uuid)
    requires DistinctIds(c) && Exec(c, steps).Some?
    requires IsUp(Exec(c, steps).value, i, Initiator, hid) && IsUp(Exec(c, steps).value, j, Responder, hid)
    ensures var log := Exec(c, steps).value.past.log;
            var (a, p, b, q) := (log[i].node, log[i].peer, log[j].node, log[j].peer);
            && p.IsHandshaken() && q.IsHandshaken() && a != b && a in c && b in c
            && p.theirPublicKey.value == q.ourKeypair.value.publicKey
            && q.theirPublicKey.value == p.ourKeypair.value.publicKey
            && p.id == c[b].id && q.id == c[a].id && p.sockaddr == b && q.sockaddr == a
            && p.zone == c[b].zone && q.zone == c[a].zone
            && p.handshakeTimestamp == q.handshakeTimestamp && p.handshakeTimestamp.Some?
            && ShareKey(c[a].keys, c[b].keys)
  {
    RunKeeps(c, steps);
    var past := Exec(c, steps).value.past;
    assert EventOk(past, i) && EventOk(past, j);
    assert CompletedOk(c, past, hid);
  }

  /** The initiator comes up only after the responder did. */
  lemma {:induction false} ResponderFirst(c: Cluster, steps: seq<Step>, i: nat, hid: Uuid)
    requires DistinctIds(c) && Exec(c, steps).Some?
    requires IsUp(Exec(c, steps).value, i, Initiator, hid)
    ensures exists j :: 0 <= j < i && IsUp(Exec(c, steps).value, j, Responder, hid)
  {
    RunKeeps(c, steps);
    var w := Exec(c, steps).value;
    assert EventOk(w.past, i);
    assert CompletedOk(c, w.past, hid);
    assert IsUp(w, w.past.accepted[hid], Responder, hid);
  }

  /** Neither end of a handshake comes up twice, however often a Hello is duplicated. */
  lemma {:induction false} AtMostOnce(c: Cluster, steps: seq<Step>, i: nat, j: nat, role: Role, hid: Uuid)
    requires DistinctIds(c) && Exec(c, steps).Some?
    requires IsUp(Exec(c, steps).value, i, role, hid) && IsUp(Exec(c, steps).value, j, role, hid)
    ensures i == j
  {
    RunKeeps(c, steps);
    assert EventOk(Exec(c, steps).value.past, i) && EventOk(Exec(c, steps).value.past, j);
  }

  /** A continuation runs at most once per handshake, right after the initiator's peer-up call returned. */
  lemma {:induction false} ContinuationOnce(c: Cluster, steps: seq<Step>, i: nat)
    requires DistinctIds(c) && Exec(c, steps).Some?
    requires i < |Exec(c, steps).value.past.log| && Exec(c, steps).value.past.log[i].Ran?
    ensures var w := Exec(c, steps).value;
            var log := w.past.log;
            && i > 0 && IsUp(w, i - 1, Initiator, log[i].hid) && log[i - 1].node == log[i].node
            && forall j :: 0 <= j < |log| && log[j].Ran? && log[j].hid == log[i].hid ==> j == i
  {
    hide Exec, PastOk, NodesOk, PacketsOk;
    RunKeeps(c, steps);
    var past := Exec(c, steps).value.past;
    RanAt(c, past, i);
    forall j | 0 <= j < |past.log| && past.log[j].Ran? && past.log[j].hid == past.log[i].hid ensures j == i {
      RanAt(c, past, j);
    }
  }

  /** Where the continuation of a handshake runs. */
  lemma {:induction false} RanAt(c: Cluster, past: History, i: nat)
    requires PastOk(c, past) && i < |past.log| && past.log[i].Ran?
    ensures var hid := past.log[i].hid;
            && hid in past.completed && i == past.completed[hid] + 1 && past.log[i - 1].Up?
            && past.log[i - 1].role.Initiator? && past.log[i - 1].hid == hid && past.log[i - 1].node == past.log[i].node
  {
    assert EventOk(past, i);
    assert EventOk(past, i - 1);
  }

  /** And it does run: right after the initiator came up, if and only if its Hello came with one, and it is
      that one. */
  lemma {:induction false} ContinuationRuns(c: Cluster, steps: seq<Step>, i: nat, hid: Uuid)
    requires DistinctIds(c) && Exec(c, steps).Some? && IsUp(Exec(c, steps).value, i, Initiator, hid)
    ensures var past := Exec(c, steps).value.past;
            && hid in past.hellos && past.hellos[hid].from == past.log[i].node
            && (forall andThen :: past.hellos[hid].andThen == Some(andThen)
                             <==> i + 1 < |past.log| && past.log[i + 1] == Ran(past.log[i].node, hid, andThen))
  {
    RunKeeps(c, steps);
    var past := Exec(c, steps).value.past;
    hide Exec, PastOk, NodesOk, PacketsOk;
    EventsAt(c, past, i);
    if i + 1 < |past.log| { EventsAt(c, past, i + 1); }
  }

  lemma {:induction false} EventsAt(c: Cluster, past: History, i: nat)
    requires PastOk(c, past) && i < |past.log|
    ensures EventOk(past, i)
    ensures past.log[i].Up? && past.log[i].role.Initiator? ==>
              past.log[i].hid in past.hellos && past.hellos[past.log[i].hid].from == past.log[i].node
  {
    assert EventOk(past, i);
    if past.log[i].Up? && past.log[i].role.Initiator? { assert CompletedOk(c, past, past.log[i].hid); }
  }

  /** When the responder accepts an OkBoss, the initiator took exactly the Ohai that carries the
      responder's pending challenge and public key, and no answer was accepted before. */
  lemma {:induction false} AcceptsWhatWasTaken(c: Cluster, steps: seq<Step>, p: Packet, env: Env)
    requires DistinctIds(c) && Exec(c, steps).Some? && Enabled(c, Exec(c, steps).value, Deliver(p, env))
               && p.handshake.step.OkBoss?
    requires Handle(c[p.dst], Exec(c, steps).value.tables[p.dst], p.src, p.handshake, p.nodeId, env).up.Some?
    ensures var w := Exec(c, steps).value;
            var (key, past) := ((p.handshake.id, p.src), w.past);
            && key in w.tables[p.dst].ohais && key.0 in past.taken && past.taken[key.0] in past.offers
            && w.tables[p.dst].ohais[key].challenge == Some(past.taken[key.0])
            && w.tables[p.dst].ohais[key].peer.ourKeypair == Some(past.offers[past.taken[key.0]].keypair)
            && forall i: nat :: !IsUp(w, i, Responder, key.0)
  {
    RunKeeps(c, steps);
    var w, key := Exec(c, steps).value, (p.handshake.id, p.src);
    PacketAt(c, w, p);
    EntryEnds(c, w.past, w.tables, p.dst, key);
    OkBossMatches(c, w.past, p, w.tables[p.dst].ohais[key]);
    forall i: nat ensures !IsUp(w, i, Responder, key.0) {
      if i < |w.past.log| { assert EventOk(w.past, i); }
    }
  }

  /** No key is pending in two tables of a node. */
  lemma {:induction false} TablesDisjoint(c: Cluster, steps: seq<Step>, a: Addr, key: Key)
    requires DistinctIds(c) && Exec(c, steps).Some? && a in c
    ensures var t := Exec(c, steps).value.tables[a];
            && !(key in t.hellos && key in t.ohais)
            && !(key in t.hellos && key in t.okboss)
            && !(key in t.ohais && key in t.okboss)
  {
    RunKeeps(c, steps);
    var w := Exec(c, steps).value;
    EntryEnds(c, w.past, w.tables, a, key);
  }
}
