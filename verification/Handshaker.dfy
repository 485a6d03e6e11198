/** The handshaker of one node (src/handshake.rs): hashes, pending tables and the step function. */
module Handshaking {
  import opened Basics
  import opened Peers

  const HANDSHAKE_TIMEOUT_MILLIS: int := 60_000
  const CHALLENGE_LENGTH: nat := 69

  /** What a node knows about itself (src/nodeinfo.rs); a pre-shared key is the bytes of its string. */
  datatype NodeInfo = NodeInfo(id: Uuid, keys: seq<Bytes>, zone: Option<string>)

  /** Blake2b with and without a key, as an ideal hash: two hashes agree only on equal inputs. */
  datatype Digest = Hash(input: Bytes) | KeyedHash(key: Digest, input: Bytes)

  datatype Hmac = Hmac(hmac: Digest, message: Bytes)

  datatype HandshakeStep =
    | Hello(pk: PublicKey, zone: Option<string>, hmacs: seq<Hmac>, timestamp: Time)
    | Ohai(pk: PublicKey, zone: Option<string>, hmacs: seq<Hmac>, challenge: Bytes)
    | OkBoss(response: seq<Digest>)
    | GoTeam
    | Dead

  datatype Handshake = Handshake(id: Uuid, step: HandshakeStep)

  /** The only continuation the program attaches to a Hello: start a subscription to this peer. */
  datatype AndThen = StartSubscriptionTo(id: Uuid)

  datatype Pending = Pending(
    id: Uuid, peer: Peer, challenge: Option<Bytes>, response: Option<seq<Digest>>,
    andThen: Option<AndThen>, timestamp: Time)

  type Key = (Uuid, Addr)

  datatype Tables = Tables(
    hellos: map<Key, Pending>, ohais: map<Key, Pending>, okboss: map<Key, Pending>,
    hashedKeys: Option<seq<Digest>>)

  /** The clock and the random draws available to one step. */
  datatype Env = Env(now: Time, keypair: KeyPair, challenge: Bytes, salts: seq<Bytes>)

  /** What a step makes happen outside the handshaker. */
  datatype Effect = PeerUp(peer: Peer) | Send(to: Addr, handshake: Handshake) | Run(andThen: AndThen)

  /** The new tables, the peer brought up, the answer to the sender and the continuation to run. */
  datatype Outcome = Outcome(tables: Tables, up: Option<Peer>, reply: Option<Handshake>, run: Option<AndThen>) {
    /** The effects in the order in which they happen. */
    function Effects(to: Addr): seq<Effect> {
      (if up.Some? then [PeerUp(up.value)] else [])
      + (if reply.Some? then [Send(to, reply.value)] else [])
      + (if run.Some? then [Run(run.value)] else [])
    }
  }

  // ---------------------------------------------------------------- hashes

  function Digits(n: nat): Bytes {
    if n < 10 then [(48 + n) as Byte] else Digits(n / 10) + [(48 + n % 10) as Byte]
  }

  function Decimal(n: int): Bytes {
    if n < 0 then [45] + Digits(-n) else Digits(n)
  }

  function CalculateHmac(hashedKey: Digest, message: Bytes, timestamp: Time): Digest {
    KeyedHash(hashedKey, message + Decimal(timestamp))
  }

  /** The window is 1000 * 60,000 nanoseconds, although docs/PROTOCOL.md announces 60 seconds. */
  predicate ValidTimestamp(timestamp: Time, now: Time) {
    var nanos := now - timestamp;
    (if nanos < 0 then -nanos else nanos) < 1000 * HANDSHAKE_TIMEOUT_MILLIS
  }

  predicate ValidForKey(h: Hmac, timestamp: Time, hashedKey: Digest) {
    CalculateHmac(hashedKey, h.message, timestamp) == h.hmac
  }

  function HashedKeys(keys: seq<Bytes>): seq<Digest> {
    seq(|keys|, i requires 0 <= i < |keys| => Hash(keys[i]))
  }

  predicate HasValidHmac(hashedKeys: Option<seq<Digest>>, timestamp: Time, now: Time, hmacs: seq<Hmac>) {
    && hashedKeys.Some?
    && ValidTimestamp(timestamp, now)
    && exists i, j :: 0 <= i < |hmacs| && 0 <= j < |hashedKeys.value|
         && ValidForKey(hmacs[i], timestamp, hashedKeys.value[j])
  }

  function Salt(salts: seq<Bytes>, i: nat): Bytes {
    if i < |salts| then salts[i] else []
  }

  function FreshHmacs(ks: seq<Digest>, timestamp: Time, salts: seq<Bytes>): seq<Hmac> {
    seq(|ks|, i requires 0 <= i < |ks| => Hmac(CalculateHmac(ks[i], Salt(salts, i), timestamp), Salt(salts, i)))
  }

  function ComputeHmacs(hashedKeys: Option<seq<Digest>>, timestamp: Time, salts: seq<Bytes>): seq<Hmac> {
    if hashedKeys.None? then [] else FreshHmacs(hashedKeys.value, timestamp, salts)
  }

  function ResponseInput(id: Uuid, pk: PublicKey, challenge: Bytes, key: Bytes): Bytes {
    key + challenge + pk + id
  }

  function ComputeResponse(id: Uuid, pk: PublicKey, challenge: Bytes, keys: seq<Bytes>): seq<Digest> {
    seq(|keys|, i requires 0 <= i < |keys| => Hash(ResponseInput(id, pk, challenge, keys[i])))
  }

  /** The test of got_okboss: do the two answers, as sets, intersect? */
  predicate ResponseAccepted(expected: seq<Digest>, received: seq<Digest>) {
    Elements(expected) * Elements(received) != {}
  }

  ghost predicate ShareKey(keys1: seq<Bytes>, keys2: seq<Bytes>) {
    exists k :: k in keys1 && k in keys2
  }

  /** Concatenation loses nothing here: behind the key come three fields of known length. */
  lemma ResponseInputInjective(id1: Uuid, pk1: PublicKey, c1: Bytes, k1: Bytes, id2: Uuid, pk2: PublicKey, c2: Bytes,
                               k2: Bytes)
    requires |c1| == |c2|
    requires ResponseInput(id1, pk1, c1, k1) == ResponseInput(id2, pk2, c2, k2)
    ensures id1 == id2 && pk1 == pk2 && c1 == c2 && k1 == k2
  {
    var s, n := ResponseInput(id1, pk1, c1, k1), |k1|;
    assert |k2| == n;
    assert s[..n] == k1 && s[..n] == k2;
    assert s[n..n + |c1|] == c1 && s[n..n + |c1|] == c2;
    assert s[n + |c1|..n + |c1| + 32] == pk1 && s[n + |c1|..n + |c1| + 32] == pk2;
    assert s[n + |c1| + 32..] == id1 && s[n + |c1| + 32..] == id2;
  }

  /** An answer is accepted exactly when it answers this challenge for this key and this
      handshake, and was computed from a pre-shared key that both ends hold. */
  lemma ResponseAcceptedIff(id1: Uuid, pk1: PublicKey, c1: Bytes, keys1: seq<Bytes>, id2: Uuid, pk2: PublicKey,
                            c2: Bytes, keys2: seq<Bytes>)
    requires |c1| == |c2|
    ensures ResponseAccepted(ComputeResponse(id1, pk1, c1, keys1), ComputeResponse(id2, pk2, c2, keys2))
       <==> id1 == id2 && pk1 == pk2 && c1 == c2 && ShareKey(keys1, keys2)
  {
    var r1, r2 := ComputeResponse(id1, pk1, c1, keys1), ComputeResponse(id2, pk2, c2, keys2);
    if ResponseAccepted(r1, r2) {
      var d :| d in Elements(r1) * Elements(r2);
      var i :| 0 <= i < |r1| && r1[i] == d;
      var j :| 0 <= j < |r2| && r2[j] == d;
      ResponseInputInjective(id1, pk1, c1, keys1[i], id2, pk2, c2, keys2[j]);
      assert keys1[i] in keys1 && keys1[i] in keys2;
    }
    if id1 == id2 && pk1 == pk2 && c1 == c2 && ShareKey(keys1, keys2) {
      var k :| k in keys1 && k in keys2;
      var i :| 0 <= i < |keys1| && keys1[i] == k;
      var j :| 0 <= j < |keys2| && keys2[j] == k;
      assert r1[i] in Elements(r1) && r2[j] in Elements(r2) && r1[i] == r2[j];
      assert r1[i] in Elements(r1) * Elements(r2);
    }
  }

  /** The window is 60 ms on either side. */
  lemma WindowIs(timestamp: Time, now: Time)
    ensures ValidTimestamp(timestamp, now) <==> timestamp - 60_000_000 < now < timestamp + 60_000_000
  {
  }

  /** The number that a sequence of decimal digits denotes. */
  function Denotes(digits: Bytes): int {
    if digits == [] then 0 else 10 * Denotes(digits[..|digits| - 1]) + digits[|digits| - 1] as int - 48
  }

  lemma {:induction false} DigitsDenote(n: nat)
    ensures Denotes(Digits(n)) == n && Digits(n) != [] && Digits(n)[0] != 45
  {
    if n < 10 {
      assert Digits(n)[..0] == [];
    } else {
      DigitsDenote(n / 10);
      assert Digits(n)[..|Digits(n)| - 1] == Digits(n / 10);
    }
  }

  lemma {:induction false} DecimalInjective(a: int, b: int)
    requires Decimal(a) == Decimal(b)
    ensures a == b
  {
    DigitsDenote(if a < 0 then -a else a);
    DigitsDenote(if b < 0 then -b else b);
    if a < 0 && b < 0 {
      assert Decimal(a)[1..] == Digits(-a) && Decimal(b)[1..] == Digits(-b);
    }
  }

  /** An HMAC is good for the key and for the timestamp it was made with, and for no others. */
  lemma {:induction false} HmacBinds(key: Digest, message: Bytes, timestamp: Time, key': Digest, timestamp': Time)
    ensures ValidForKey(Hmac(CalculateHmac(key, message, timestamp), message), timestamp', key')
       <==> key == key' && timestamp == timestamp'
  {
    if ValidForKey(Hmac(CalculateHmac(key, message, timestamp), message), timestamp', key') {
      var n := |message|;
      assert (message + Decimal(timestamp))[n..] == Decimal(timestamp);
      assert (message + Decimal(timestamp'))[n..] == Decimal(timestamp');
      DecimalInjective(timestamp, timestamp');
    }
  }

  /** There is one HMAC for each key, over that key's own draw. */
  lemma OneHmacPerKey(ks: seq<Digest>, timestamp: Time, salts: seq<Bytes>, i: nat)
    requires i < |ks| <= |salts|
    ensures var hmacs := ComputeHmacs(Some(ks), timestamp, salts);
            |hmacs| == |ks| && hmacs[i].message == salts[i] && ValidForKey(hmacs[i], timestamp, ks[i])
  {
  }

  /** HMACs made from one key list for one timestamp pass the check of another list for the timestamp
      that is claimed exactly when the two timestamps are the same, the lists share a key, and the
      check happens less than 60 ms before or after. */
  lemma {:induction false} HmacAcceptedIff(keys1: seq<Bytes>, keys2: seq<Bytes>, timestamp: Time, claimed: Time,
                                           now: Time, salts: seq<Bytes>)
    ensures HasValidHmac(Some(HashedKeys(keys2)), claimed, now,
                         ComputeHmacs(Some(HashedKeys(keys1)), timestamp, salts))
       <==> claimed == timestamp && timestamp - 60_000_000 < now < timestamp + 60_000_000 && ShareKey(keys1, keys2)
  {
    hide ValidTimestamp, ValidForKey, CalculateHmac;
    WindowIs(claimed, now);
    var hmacs, ks := ComputeHmacs(Some(HashedKeys(keys1)), timestamp, salts), HashedKeys(keys2);
    if i, j :| 0 <= i < |hmacs| && 0 <= j < |ks| && ValidForKey(hmacs[i], claimed, ks[j]) {
      HmacBinds(Hash(keys1[i]), Salt(salts, i), timestamp, ks[j], claimed);
      assert keys1[i] == keys2[j];
      assert keys1[i] in keys1 && keys1[i] in keys2;
    }
    if k :| k in keys1 && k in keys2 {
      var i :| 0 <= i < |keys1| && keys1[i] == k;
      var j :| 0 <= j < |keys2| && keys2[j] == k;
      HmacBinds(Hash(keys1[i]), Salt(salts, i), timestamp, ks[j], timestamp);
      assert ValidForKey(hmacs[i], timestamp, ks[j]);
    }
  }

  // ---------------------------------------------------------------- the step function

  /** What makes every unwrap and the assertion of the step function safe. */
  ghost predicate TablesOk(t: Tables) {
    && (forall k :: k in t.hellos ==> t.hellos[k].id == k.0 && t.hellos[k].peer.ourKeypair.Some?)
    && (forall k :: k in t.ohais ==>
          t.ohais[k].id == k.0 && t.ohais[k].peer.IsHandshaken() && t.ohais[k].challenge.Some?)
    && (forall k :: k in t.okboss ==>
          t.okboss[k].id == k.0 && t.okboss[k].peer.IsHandshaken() && t.okboss[k].response.Some?)
  }

  function NewHello(id: Uuid, sockaddr: Addr, andThen: Option<AndThen>, env: Env): Pending {
    Pending(id, NewPeer(env.keypair, None, sockaddr, NIL_UUID, Some(env.now), None), None, None, andThen, env.now)
  }

  function NewOhai(id: Uuid, sockaddr: Addr, nodeId: Uuid, pk: PublicKey, timestamp: Time, zone: Option<string>,
                   env: Env): Pending {
    Pending(id, NewPeer(env.keypair, Some(pk), sockaddr, nodeId, Some(timestamp), zone),
            Some(env.challenge), None, None, timestamp)
  }

  function GotOhai(p: Pending, nodeId: Uuid, pk: PublicKey, challenge: Bytes, keys: seq<Bytes>,
                   zone: Option<string>): Pending {
    p.(peer := p.peer.(theirPublicKey := Some(pk), id := nodeId, zone := zone),
       response := Some(ComputeResponse(p.id, pk, challenge, keys)))
  }

  predicate GotOkBoss(p: Pending, response: seq<Digest>, keys: seq<Bytes>)
    requires p.peer.ourKeypair.Some? && p.challenge.Some?
  {
    ResponseAccepted(ComputeResponse(p.id, p.peer.ourKeypair.value.publicKey, p.challenge.value, keys), response)
  }

  function SendHello(info: NodeInfo, t: Tables, sockaddr: Addr, andThen: Option<AndThen>, id: Uuid,
                     env: Env): (r: Outcome)
    requires TablesOk(t)
    ensures TablesOk(r.tables)
  {
    var hmacs := ComputeHmacs(t.hashedKeys, env.now, env.salts);
    Outcome(t.(hellos := t.hellos[(id, sockaddr) := NewHello(id, sockaddr, andThen, env)]), None,
            Some(Handshake(id, Hello(env.keypair.publicKey, info.zone, hmacs, env.now))), None)
  }

  function OnHello(info: NodeInfo, t: Tables, key: Key, hello: HandshakeStep, nodeId: Uuid, env: Env): (r: Outcome)
    requires TablesOk(t) && hello.Hello?
    ensures TablesOk(r.tables)
  {
    if nodeId != info.id && HasValidHmac(t.hashedKeys, hello.timestamp, env.now, hello.hmacs) then
      var p := NewOhai(key.0, key.1, nodeId, hello.pk, hello.timestamp, hello.zone, env);
      var hmacs := ComputeHmacs(t.hashedKeys, hello.timestamp, env.salts);
      Outcome(t.(ohais := t.ohais[key := p]), None,
              Some(Handshake(key.0, Ohai(env.keypair.publicKey, info.zone, hmacs, env.challenge))), None)
    else Outcome(t, None, None, None)
  }

  function OnOhai(info: NodeInfo, t: Tables, key: Key, ohai: HandshakeStep, nodeId: Uuid, env: Env): (r: Outcome)
    requires TablesOk(t) && ohai.Ohai?
    ensures TablesOk(r.tables)
  {
    if key !in t.hellos then Outcome(t, None, None, None)
    else if !HasValidHmac(t.hashedKeys, t.hellos[key].timestamp, env.now, ohai.hmacs) then
      Outcome(t.(hellos := t.hellos - {key}), None, None, None)
    else
      var p := GotOhai(t.hellos[key], nodeId, ohai.pk, ohai.challenge, info.keys, ohai.zone);
      Outcome(t.(hellos := t.hellos - {key}, okboss := t.okboss[key := p]), None,
              Some(Handshake(key.0, OkBoss(p.response.value))), None)
  }

  function OnOkBoss(info: NodeInfo, t: Tables, key: Key, response: seq<Digest>): (r: Outcome)
    requires TablesOk(t)
    ensures TablesOk(r.tables)
  {
    if key !in t.ohais then Outcome(t, None, None, None)
    else
      var p := t.ohais[key];
      var t' := t.(ohais := t.ohais - {key});
      if GotOkBoss(p, response, info.keys)
      then Outcome(t', Some(p.peer), Some(Handshake(key.0, GoTeam)), p.andThen)
      else Outcome(t', None, None, None)
  }

  function OnGoTeam(t: Tables, key: Key): (r: Outcome)
    requires TablesOk(t)
    ensures TablesOk(r.tables)
  {
    if key !in t.okboss then Outcome(t, None, None, None)
    else Outcome(t.(okboss := t.okboss - {key}), Some(t.okboss[key].peer), None, t.okboss[key].andThen)
  }

  function Forget(t: Tables, key: Key): (r: Tables)
    requires TablesOk(t)
    ensures TablesOk(r)
  {
    t.(hellos := t.hellos - {key}, ohais := t.ohais - {key}, okboss := t.okboss - {key})
  }

  /** One handshake message from `sockaddr`, sent by node `nodeId`. */
  function Handle(info: NodeInfo, t: Tables, sockaddr: Addr, h: Handshake, nodeId: Uuid, env: Env): (r: Outcome)
    requires TablesOk(t)
    ensures TablesOk(r.tables)
  {
    var key := (h.id, sockaddr);
    match h.step
    case Hello(_, _, _, _) => OnHello(info, t, key, h.step, nodeId, env)
    case Ohai(_, _, _, _) => OnOhai(info, t, key, h.step, nodeId, env)
    case OkBoss(response) => OnOkBoss(info, t, key, response)
    case GoTeam => OnGoTeam(t, key)
    case Dead => Outcome(Forget(t, key), None, None, None)
  }

  // ---------------------------------------------------------------- what every message does to the tables

  /** Nothing is pending differently under any other key. */
  ghost predicate OthersKept(t: Tables, t': Tables, key: Key) {
    && t'.hashedKeys == t.hashedKeys && t'.hellos - {key} == t.hellos - {key}
    && t'.ohais - {key} == t.ohais - {key} && t'.okboss - {key} == t.okboss - {key}
  }

  /** Every message concerns its own key only. */
  lemma {:induction false} OneKeyOnly(info: NodeInfo, t: Tables, sockaddr: Addr, h: Handshake, nodeId: Uuid, env: Env)
    requires TablesOk(t)
    ensures OthersKept(t, Handle(info, t, sockaddr, h, nodeId, env).tables, (h.id, sockaddr))
  {
    hide HasValidHmac, ComputeHmacs, GotOkBoss, GotOhai, NewOhai, TablesOk, OthersKept;
    var (r, key) := (Handle(info, t, sockaddr, h, nodeId, env).tables, (h.id, sockaddr));
    ElsewhereKept(t, key, if key in r.ohais then r.ohais[key] else NewHello(h.id, sockaddr, None, env));
    ElsewhereKept(t, key, if key in r.okboss then r.okboss[key] else NewHello(h.id, sockaddr, None, env));
  }

  /** What a step may do to the tables under one key keeps all others. */
  lemma {:induction false} ElsewhereKept(t: Tables, key: Key, p: Pending)
    ensures OthersKept(t, t, key) && OthersKept(t, t.(ohais := t.ohais[key := p]), key)
    ensures OthersKept(t, t.(hellos := t.hellos - {key}), key) && OthersKept(t, t.(ohais := t.ohais - {key}), key)
    ensures OthersKept(t, t.(hellos := t.hellos - {key}, okboss := t.okboss[key := p]), key)
    ensures OthersKept(t, t.(okboss := t.okboss - {key}), key)
    ensures OthersKept(t, t.(hellos := t.hellos - {key}, ohais := t.ohais - {key}, okboss := t.okboss - {key}), key)
  {
    KeptBut(t.hellos, key, p);
    KeptBut(t.ohais, key, p);
    KeptBut(t.okboss, key, p);
  }

  lemma KeptBut(pending: map<Key, Pending>, key: Key, p: Pending)
    ensures pending[key := p] - {key} == pending - {key} && pending - {key} - {key} == pending - {key}
  {
  }

  /** One HMAC for every hashed key, each valid for its key and this timestamp. */
  ghost predicate HmacsFor(hashedKeys: Option<seq<Digest>>, timestamp: Time, hmacs: seq<Hmac>) {
    if hashedKeys.None? then hmacs == []
    else |hmacs| == |hashedKeys.value|
         && forall i :: 0 <= i < |hmacs| ==> ValidForKey(hmacs[i], timestamp, hashedKeys.value[i])
  }

  /** A greeting, with whatever continuation, adds one entry of its own and leaves everything else pending as it was. */
  lemma {:induction false} GreetingKeeps(info: NodeInfo, t: Tables, sockaddr: Addr, andThen: Option<AndThen>, id: Uuid,
                                         env: Env)
    requires TablesOk(t)
    ensures var (r, key) := (SendHello(info, t, sockaddr, andThen, id, env), (id, sockaddr));
            && OthersKept(t, r.tables, key) && r.tables.ohais == t.ohais && r.tables.okboss == t.okboss
            && key in r.tables.hellos && r.tables.hellos[key].andThen == andThen
            && r.tables.hellos[key].timestamp == env.now && r.tables.hellos[key].peer.ourKeypair == Some(env.keypair)
            && r.up.None? && r.run.None? && r.reply.Some? && r.reply.value.id == id && r.reply.value.step.Hello?
            && var hello := r.reply.value.step;
               && hello.pk == env.keypair.publicKey && hello.zone == info.zone && hello.timestamp == env.now
               && HmacsFor(t.hashedKeys, env.now, hello.hmacs)
  {
    hide TablesOk;
    KeptBut(t.hellos, (id, sockaddr), NewHello(id, sockaddr, andThen, env));
  }

  /** A Hello is answered unless it comes from the node itself or fails the HMAC test, and then the
      pending entry and the answer share this step's challenge and key pair, whatever was pending. */
  lemma {:induction false} HelloIsAnswered(info: NodeInfo, t: Tables, sockaddr: Addr, h: Handshake, nodeId: Uuid,
                                           env: Env)
    requires TablesOk(t) && h.step.Hello?
    ensures var (r, key) := (Handle(info, t, sockaddr, h, nodeId, env), (h.id, sockaddr));
            && (r.reply.Some? <==>
                  nodeId != info.id && HasValidHmac(t.hashedKeys, h.step.timestamp, env.now, h.step.hmacs))
            && (r.reply.None? ==> r.tables == t) && r.up.None? && r.run.None?
            && (r.reply.Some? ==>
                  && r.reply.value.step.Ohai? && r.reply.value.id == h.id && key in r.tables.ohais
                  && r.tables.ohais[key].challenge == Some(r.reply.value.step.challenge) == Some(env.challenge)
                  && r.tables.ohais[key].peer == Peer(Some(env.keypair), Some(h.step.pk), Some(h.step.timestamp),
                                                      sockaddr, nodeId, h.step.zone)
                  && r.reply.value.step.pk == env.keypair.publicKey && r.reply.value.step.zone == info.zone
                  && HmacsFor(t.hashedKeys, h.step.timestamp, r.reply.value.step.hmacs))
  {
    hide HasValidHmac, TablesOk;
  }

  /** An Ohai is taken if and only if a Hello is pending for it and it passes the HMAC test for the Hello's
      timestamp; then every pre-shared key contributes one hash to the answer. */
  lemma {:induction false} OhaiIsTaken(info: NodeInfo, t: Tables, sockaddr: Addr, h: Handshake, nodeId: Uuid, env: Env)
    requires TablesOk(t) && h.step.Ohai?
    ensures var (r, key) := (Handle(info, t, sockaddr, h, nodeId, env), (h.id, sockaddr));
            && (r.reply.Some? <==>
                  key in t.hellos && HasValidHmac(t.hashedKeys, t.hellos[key].timestamp, env.now, h.step.hmacs))
            && (r.reply.Some? ==>
                  && key in r.tables.okboss && r.tables.okboss[key].andThen == t.hellos[key].andThen
                  && r.tables.okboss[key].peer == Peer(t.hellos[key].peer.ourKeypair, Some(h.step.pk),
                                                       t.hellos[key].peer.handshakeTimestamp,
                                                       t.hellos[key].peer.sockaddr, nodeId, h.step.zone)
                  && r.reply.value.id == h.id && r.reply.value.step.OkBoss?
                  && |r.reply.value.step.response| == |info.keys|
                  && forall i :: 0 <= i < |info.keys| ==>
                       r.reply.value.step.response[i] == Hash(info.keys[i] + h.step.challenge + h.step.pk + h.id))
  {
    hide HasValidHmac;
  }

  /** An OkBoss is accepted if and only if an Ohai is pending for it and one of the pre-shared keys, hashed with
      the pending challenge, this node's public key and the handshake, is in the answer. */
  lemma {:induction false} OkBossIsAccepted(info: NodeInfo, t: Tables, sockaddr: Addr, h: Handshake, nodeId: Uuid,
                                            env: Env)
    requires TablesOk(t) && h.step.OkBoss?
    ensures var (r, key) := (Handle(info, t, sockaddr, h, nodeId, env), (h.id, sockaddr));
            && (r.up.Some? <==>
                  key in t.ohais && var p := t.ohais[key];
                  exists k :: k in info.keys
                    && Hash(k + p.challenge.value + p.peer.ourKeypair.value.publicKey + h.id) in h.step.response)
            && (r.up.Some? ==> r.reply == Some(Handshake(h.id, GoTeam)))
  {
    var key := (h.id, sockaddr);
    if key in t.ohais {
      var p := t.ohais[key];
      var expected := ComputeResponse(p.id, p.peer.ourKeypair.value.publicKey, p.challenge.value, info.keys);
      if GotOkBoss(p, h.step.response, info.keys) {
        var d :| d in Elements(expected) * Elements(h.step.response);
        var i :| 0 <= i < |expected| && expected[i] == d;
        assert info.keys[i] in info.keys;
      }
      if k :| k in info.keys && Hash(k + p.challenge.value + p.peer.ourKeypair.value.publicKey + h.id)
                                  in h.step.response {
        var i :| 0 <= i < |info.keys| && info.keys[i] == k;
        assert expected[i] in Elements(expected) * Elements(h.step.response);
      }
    }
  }

  /** Every other message consumes what it answers whether or not it is accepted, and moves it on if it is. */
  lemma {:induction false} AnswersConsume(info: NodeInfo, t: Tables, sockaddr: Addr, h: Handshake, nodeId: Uuid,
                                          env: Env)
    requires TablesOk(t) && !h.step.Hello?
    ensures var (r, key) := (Handle(info, t, sockaddr, h, nodeId, env), (h.id, sockaddr));
            match h.step
            case Ohai(_, _, _, _) =>
              && key !in r.tables.hellos && r.tables.ohais == t.ohais && r.up.None? && r.run.None?
              && (if r.reply.Some? then key in r.tables.okboss else r.tables.okboss == t.okboss)
            case OkBoss(_) =>
              && key !in r.tables.ohais && r.tables.hellos == t.hellos && r.tables.okboss == t.okboss
              && (r.up.Some? <==> r.reply.Some?)
            case GoTeam =>
              && key !in r.tables.okboss && r.tables.hellos == t.hellos && r.tables.ohais == t.ohais
              && (r.up.Some? <==> key in t.okboss) && r.reply.None?
            case Dead =>
              && key !in r.tables.hellos && key !in r.tables.ohais && key !in r.tables.okboss
              && r.up.None? && r.reply.None? && r.run.None?
            case Hello(_, _, _, _) => false
  {
    hide HasValidHmac, ComputeHmacs, GotOkBoss, ComputeResponse;
  }

  /** What comes up is the pending peer, and with it runs the continuation it was pending with, if any. */
  lemma {:induction false} PendingComesUp(info: NodeInfo, t: Tables, sockaddr: Addr, h: Handshake, nodeId: Uuid,
                                          env: Env)
    requires TablesOk(t)
    ensures var (r, key) := (Handle(info, t, sockaddr, h, nodeId, env), (h.id, sockaddr));
            var pending := if h.step.OkBoss? then t.ohais else t.okboss;
            if r.up.Some? then key in pending && r.up.value == pending[key].peer && r.run == pending[key].andThen
            else r.run.None?
  {
    hide HasValidHmac, ComputeHmacs, GotOkBoss, ComputeResponse;
  }

  /** A node that has not hashed its keys answers nobody. */
  lemma {:induction false} UnbootedIsSilent(info: NodeInfo, t: Tables, sockaddr: Addr, h: Handshake, nodeId: Uuid,
                                            env: Env)
    requires TablesOk(t) && t.hashedKeys.None? && (h.step.Hello? || h.step.Ohai?)
    ensures var r := Handle(info, t, sockaddr, h, nodeId, env);
            r.reply.None? && r.up.None? && r.run.None?
  {
  }

  /** Each effect happens at most once, the message goes to the sender, and a peer is up before the
      other end is told and before the continuation runs. */
  lemma {:induction false} EffectsInOrder(r: Outcome, to: Addr)
    ensures var effects := r.Effects(to);
            && (forall i, j :: 0 <= i < j < |effects| ==>
                  (effects[i].PeerUp? && !effects[j].PeerUp?) || (effects[i].Send? && effects[j].Run?))
            && (forall i :: 0 <= i < |effects| && effects[i].Send? ==> effects[i].to == to)
            && (forall peer :: PeerUp(peer) in effects <==> r.up == Some(peer))
            && (forall h :: Send(to, h) in effects <==> r.reply == Some(h))
            && (forall andThen :: Run(andThen) in effects <==> r.run == Some(andThen))
  {
    var effects := r.Effects(to);
    if r.up.Some? { assert effects[0] == PeerUp(r.up.value); }
    if r.reply.Some? { assert effects[if r.up.Some? then 1 else 0] == Send(to, r.reply.value); }
    if r.run.Some? { assert effects[|effects| - 1] == Run(r.run.value); }
  }

  // ---------------------------------------------------------------- the actor

  class Handshaker {
    const info: NodeInfo
    var hellos: map<Key, Pending>
    var ohais: map<Key, Pending>
    var okboss: map<Key, Pending>
    var hashedKeys: Option<seq<Digest>>

    ghost function State(): Tables
      reads this
    {
      Tables(hellos, ohais, okboss, hashedKeys)
    }

    ghost predicate Valid()
      reads this
    {
      TablesOk(State())
    }

    constructor (info: NodeInfo)
      ensures Valid() && this.info == info
      ensures State() == Tables(map[], map[], map[], None)
    {
      this.info := info;
      hellos, ohais, okboss, hashedKeys := map[], map[], map[], None;
    }

    /** The pre-shared keys are hashed once; a second bootstrap keeps them. */
    method Bootstrap()
      requires Valid()
      modifies this`hashedKeys
      ensures Valid()
      ensures hashedKeys == (if old(hashedKeys).None? then Some(HashedKeys(info.keys)) else old(hashedKeys))
    {
      if hashedKeys.None? {
        hashedKeys := Some(HashedKeys(info.keys));
      }
    }

    method Hello(sockaddr: Addr, andThen: Option<AndThen>, id: Uuid, env: Env) returns (effects: seq<Effect>)
      requires Valid()
      modifies this`hellos
      ensures Valid()
      ensures var r := SendHello(info, old(State()), sockaddr, andThen, id, env);
              State() == r.tables && effects == r.Effects(sockaddr)
      ensures hellos - {(id, sockaddr)} == old(hellos) - {(id, sockaddr)}
    {
      var p := NewHello(id, sockaddr, andThen, env);
      var hmacs := ComputeHmacs(hashedKeys, p.timestamp, env.salts);
      var hello := Handshake(id, HandshakeStep.Hello(p.peer.ourKeypair.value.publicKey, info.zone, hmacs, p.timestamp));
      KeptBut(hellos, (id, sockaddr), p);
      hellos := hellos[(id, sockaddr) := p];
      effects := [Send(sockaddr, hello)];
    }

    method ReceiveHello(key: Key, hello: HandshakeStep, nodeId: Uuid, env: Env) returns (effects: seq<Effect>)
      requires Valid() && hello.Hello?
      modifies this`ohais
      ensures Valid()
      ensures var r := OnHello(info, old(State()), key, hello, nodeId, env);
              State() == r.tables && effects == r.Effects(key.1)
    {
      effects := [];
      if nodeId != info.id && HasValidHmac(hashedKeys, hello.timestamp, env.now, hello.hmacs) {
        var p := NewOhai(key.0, key.1, nodeId, hello.pk, hello.timestamp, hello.zone, env);
        var hmacs := ComputeHmacs(hashedKeys, p.timestamp, env.salts);
        var ohai := Ohai(p.peer.ourKeypair.value.publicKey, info.zone, hmacs, p.challenge.value);
        effects := [Send(key.1, Handshake(p.id, ohai))];
        ohais := ohais[(p.id, key.1) := p];
      }
    }

    method ReceiveOhai(key: Key, ohai: HandshakeStep, nodeId: Uuid, env: Env) returns (effects: seq<Effect>)
      requires Valid() && ohai.Ohai?
      modifies this`hellos, this`okboss
      ensures Valid()
      ensures var r := OnOhai(info, old(State()), key, ohai, nodeId, env);
              State() == r.tables && effects == r.Effects(key.1)
    {
      effects := [];
      if key in hellos {
        var p := hellos[key];
        hellos := hellos - {key};
        if HasValidHmac(hashedKeys, p.timestamp, env.now, ohai.hmacs) {
          p := GotOhai(p, nodeId, ohai.pk, ohai.challenge, info.keys, ohai.zone);
          effects := [Send(key.1, Handshake(p.id, OkBoss(p.response.value)))];
          assert p.peer.IsHandshaken();
          okboss := okboss[(p.id, key.1) := p];
        }
      }
    }

    method ReceiveOkBoss(key: Key, response: seq<Digest>) returns (effects: seq<Effect>)
      requires Valid()
      modifies this`ohais
      ensures Valid()
      ensures var r := OnOkBoss(info, old(State()), key, response);
              State() == r.tables && effects == r.Effects(key.1)
    {
      effects := [];
      if key in ohais {
        var p := ohais[key];
        ohais := ohais - {key};
        if GotOkBoss(p, response, info.keys) {
          effects := [PeerUp(p.peer), Send(key.1, Handshake(p.id, GoTeam))];
          if p.andThen.Some? {
            effects := effects + [Run(p.andThen.value)];
          }
        }
      }
    }

    method ReceiveGoTeam(key: Key) returns (effects: seq<Effect>)
      requires Valid()
      modifies this`okboss
      ensures Valid()
      ensures var r := OnGoTeam(old(State()), key);
              State() == r.tables && effects == r.Effects(key.1)
    {
      effects := [];
      if key in okboss {
        var p := okboss[key];
        okboss := okboss - {key};
        effects := [PeerUp(p.peer)];
        if p.andThen.Some? {
          effects := effects + [Run(p.andThen.value)];
        }
      }
    }

    method HandleHandshake(sockaddr: Addr, handshake: Handshake, nodeId: Uuid, env: Env) returns (effects: seq<Effect>)
      requires Valid()
      modifies this
      ensures Valid()
      ensures var r := Handle(info, old(State()), sockaddr, handshake, nodeId, env);
              State() == r.tables && effects == r.Effects(sockaddr)
    {
      var key := (handshake.id, sockaddr);
      match handshake.step {
        case Hello(_, _, _, _) => effects := ReceiveHello(key, handshake.step, nodeId, env);
        case Ohai(_, _, _, _) => effects := ReceiveOhai(key, handshake.step, nodeId, env);
        case OkBoss(response) => effects := ReceiveOkBoss(key, response);
        case GoTeam => effects := ReceiveGoTeam(key);
        case Dead =>
          hellos := hellos - {key};
          ohais := ohais - {key};
          okboss := okboss - {key};
          effects := [];
      }
    }
  }

  // ---------------------------------------------------------------- two nodes, nothing lost

  datatype Ends = Ends(infoA: NodeInfo, addrA: Addr, infoB: NodeInfo, addrB: Addr)

  /** Two nodes and the peer, if any, that each has brought up last. */
  datatype Duo = Duo(a: Tables, b: Tables, upA: Option<Peer>, upB: Option<Peer>)

  function Later<T>(before: Option<T>, after: Option<T>): Option<T> {
    if after.Some? then after else before
  }

  /** Hands `h` to one end, and its answers back and forth, until an end stays silent. */
  function PingPong(ends: Ends, duo: Duo, toB: bool, h: Handshake, envs: seq<Env>): (r: Duo)
    requires TablesOk(duo.a) && TablesOk(duo.b)
    decreases |envs|
  {
    if envs == [] then duo
    else if toB then
      var r := Handle(ends.infoB, duo.b, ends.addrA, h, ends.infoA.id, envs[0]);
      var duo' := Duo(duo.a, r.tables, duo.upA, Later(duo.upB, r.up));
      if r.reply.Some? then PingPong(ends, duo', false, r.reply.value, envs[1..]) else duo'
    else
      var r := Handle(ends.infoA, duo.a, ends.addrB, h, ends.infoB.id, envs[0]);
      var duo' := Duo(r.tables, duo.b, Later(duo.upA, r.up), duo.upB);
      if r.reply.Some? then PingPong(ends, duo', true, r.reply.value, envs[1..]) else duo'
  }

  /** Node A says Hello to node B and every message arrives, once and in order. */
  function Undisturbed(ends: Ends, a: Tables, b: Tables, andThen: Option<AndThen>, id: Uuid, env: Env,
                       envs: seq<Env>): Duo
    requires TablesOk(a) && TablesOk(b)
  {
    var r := SendHello(ends.infoA, a, ends.addrB, andThen, id, env);
    PingPong(ends, Duo(r.tables, b, None, None), true, r.reply.value, envs)
  }

  lemma {:induction false} LegOkBoss(ends: Ends, duo: Duo, id: Uuid, response: seq<Digest>, envs: seq<Env>)
    requires TablesOk(duo.a) && TablesOk(duo.b) && |envs| >= 2
    requires (id, ends.addrB) in duo.a.okboss && (id, ends.addrA) in duo.b.ohais
    requires GotOkBoss(duo.b.ohais[(id, ends.addrA)], response, ends.infoB.keys)
    ensures var end := PingPong(ends, duo, true, Handshake(id, OkBoss(response)), envs);
            end.upA == Some(duo.a.okboss[(id, ends.addrB)].peer) && end.upB == Some(duo.b.ohais[(id, ends.addrA)].peer)
  {
    var r := OnOkBoss(ends.infoB, duo.b, (id, ends.addrA), response);
    var duo' := Duo(duo.a, r.tables, duo.upA, r.up);
    assert PingPong(ends, duo, true, Handshake(id, OkBoss(response)), envs)
        == PingPong(ends, duo', false, Handshake(id, GoTeam), envs[1..]);
  }

  lemma {:induction false} LegOhai(ends: Ends, duo: Duo, id: Uuid, ohai: HandshakeStep, envs: seq<Env>)
    requires TablesOk(duo.a) && TablesOk(duo.b) && |envs| >= 3 && ohai.Ohai?
    requires (id, ends.addrB) in duo.a.hellos && (id, ends.addrA) in duo.b.ohais
    requires duo.b.ohais[(id, ends.addrA)].challenge == Some(ohai.challenge)
    requires duo.b.ohais[(id, ends.addrA)].peer.ourKeypair.value.publicKey == ohai.pk
    requires ShareKey(ends.infoA.keys, ends.infoB.keys)
    ensures var end := PingPong(ends, duo, false, Handshake(id, ohai), envs);
            var p := duo.a.hellos[(id, ends.addrB)];
            if HasValidHmac(duo.a.hashedKeys, p.timestamp, envs[0].now, ohai.hmacs)
            then end.upA == Some(GotOhai(p, ends.infoB.id, ohai.pk, ohai.challenge, ends.infoA.keys, ohai.zone).peer)
              && end.upB == Some(duo.b.ohais[(id, ends.addrA)].peer)
            else end.upA == duo.upA && end.upB == duo.upB
  {
    var r := Handle(ends.infoA, duo.a, ends.addrB, Handshake(id, ohai), ends.infoB.id, envs[0]);
    if r.reply.Some? {
      ResponseAcceptedIff(id, ohai.pk, ohai.challenge, ends.infoB.keys, id, ohai.pk, ohai.challenge, ends.infoA.keys);
      LegOkBoss(ends, Duo(r.tables, duo.b, duo.upA, duo.upB), id, r.reply.value.step.response, envs[1..]);
    }
  }

  /** Both ends come up exactly when the key lists share a key and the clocks of B at the Hello
      and of A at the Ohai lie within 60 ms of A's timestamp; otherwise neither does. */
  lemma {:induction false} UndisturbedIff(ends: Ends, a: Tables, b: Tables, andThen: Option<AndThen>, id: Uuid,
                                          env: Env, envs: seq<Env>)
    requires TablesOk(a) && a.hashedKeys == Some(HashedKeys(ends.infoA.keys))
    requires TablesOk(b) && b.hashedKeys == Some(HashedKeys(ends.infoB.keys))
    requires ends.infoA.id != ends.infoB.id && |envs| >= 4
    ensures var end := Undisturbed(ends, a, b, andThen, id, env, envs);
            if ShareKey(ends.infoA.keys, ends.infoB.keys)
               && env.now - 60_000_000 < envs[0].now < env.now + 60_000_000
               && env.now - 60_000_000 < envs[1].now < env.now + 60_000_000
            then end.upA == Some(Peer(Some(env.keypair), Some(envs[0].keypair.publicKey), Some(env.now),
                                      ends.addrB, ends.infoB.id, ends.infoB.zone))
              && end.upB == Some(Peer(Some(envs[0].keypair), Some(env.keypair.publicKey), Some(env.now),
                                      ends.addrA, ends.infoA.id, ends.infoA.zone))
            else end.upA == None && end.upB == None
  {
    var hello := SendHello(ends.infoA, a, ends.addrB, andThen, id, env);
    HmacAcceptedIff(ends.infoA.keys, ends.infoB.keys, env.now, env.now, envs[0].now, env.salts);
    var r := Handle(ends.infoB, b, ends.addrA, hello.reply.value, ends.infoA.id, envs[0]);
    if r.reply.Some? {
      HmacAcceptedIff(ends.infoB.keys, ends.infoA.keys, env.now, env.now, envs[1].now, envs[0].salts);
      LegOhai(ends, Duo(hello.tables, r.tables, None, None), id, r.reply.value.step, envs[1..]);
    }
  }
}
