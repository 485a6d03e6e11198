/** What is pending where: which steps of a run put an entry into a table, and which take it out. */
module HandshakeTables {
  import opened Basics
  import opened Peers
  import opened Handshaking
  import opened HandshakeNetwork

  /** The three tables of pending handshakes. */
  datatype Table = Hellos | Ohais | OkBosses

  function Rows(t: Tables, table: Table): map<Key, Pending> {
    match table
    case Hellos => t.hellos
    case Ohais => t.ohais
    case OkBosses => t.okboss
  }

  function Entry(t: Tables, table: Table, key: Key): Option<Pending> {
    if key in Rows(t, table) then Some(Rows(t, table)[key]) else None
  }

  /** The step delivers to node `a` a message about the handshake and from the address of `key`. */
  predicate Brings(step: Step, a: Addr, key: Key) {
    step.Deliver? && step.packet.dst == a && (step.packet.handshake.id, step.packet.src) == key
  }

  /** A greeting of this node, for this key, waits with the keys, the time and the continuation of the greeting. */
  function GreetingOf(g: Step): Pending
    requires g.Greet?
  {
    Pending(g.hid, Peer(Some(g.env.keypair), None, Some(g.env.now), g.to, NIL_UUID, None), None, None, g.andThen,
            g.env.now)
  }

  function GreetingStored(step: Step, a: Addr, key: Key): Option<Pending> {
    if step.Greet? && step.node == a && (step.hid, step.to) == key then Some(GreetingOf(step)) else None
  }

  /** A Hello that passes the tests waits with the keys and the challenge drawn for it. */
  function HelloStored(info: NodeInfo, t: Tables, key: Key, hello: HandshakeStep, nodeId: Uuid,
                       env: Env): Option<Pending>
    requires hello.Hello?
  {
    if nodeId != info.id && HasValidHmac(t.hashedKeys, hello.timestamp, env.now, hello.hmacs)
    then Some(Pending(key.0, Peer(Some(env.keypair), Some(hello.pk), Some(hello.timestamp), key.1, nodeId, hello.zone),
                      Some(env.challenge), None, None, hello.timestamp))
    else None
  }

  /** An Ohai that passes the tests moves the Hello it answers on, with the responder's key, name and zone. */
  function OhaiStored(info: NodeInfo, t: Tables, key: Key, ohai: HandshakeStep, nodeId: Uuid,
                      env: Env): Option<Pending>
    requires ohai.Ohai?
  {
    if key in t.hellos && HasValidHmac(t.hashedKeys, t.hellos[key].timestamp, env.now, ohai.hmacs) then
      var hello := t.hellos[key];
      Some(Pending(key.0, Peer(hello.peer.ourKeypair, Some(ohai.pk), hello.peer.handshakeTimestamp,
                               hello.peer.sockaddr, nodeId, ohai.zone),
                   hello.challenge, Some(ComputeResponse(key.0, ohai.pk, ohai.challenge, info.keys)),
                   hello.andThen, hello.timestamp))
    else None
  }

  function MessageStored(info: NodeInfo, t: Tables, table: Table, sockaddr: Addr, h: Handshake, nodeId: Uuid,
                         env: Env): Option<Pending> {
    if table.Ohais? && h.step.Hello? then HelloStored(info, t, (h.id, sockaddr), h.step, nodeId, env)
    else if table.OkBosses? && h.step.Ohai? then OhaiStored(info, t, (h.id, sockaddr), h.step, nodeId, env)
    else None
  }

  ghost function Stored(c: Cluster, w: World, step: Step, table: Table, a: Addr, key: Key): Option<Pending>
    requires Shaped(c, w) && a in c
  {
    if table.Hellos? then GreetingStored(step, a, key)
    else if Brings(step, a, key)
    then MessageStored(c[a], w.tables[a], table, key.1, step.packet.handshake, step.packet.nodeId, step.env)
    else None
  }

  /** The message that takes an entry out of a table is the one the entry waits for, or the end of the handshake. */
  predicate Consumes(h: HandshakeStep, table: Table) {
    match table
    case Hellos => h.Ohai? || h.Dead?
    case Ohais => h.OkBoss? || h.Dead?
    case OkBosses => h.GoTeam? || h.Dead?
  }

  predicate Removes(step: Step, table: Table, a: Addr, key: Key) {
    step == Expire(a, key) || (Brings(step, a, key) && Consumes(step.packet.handshake.step, table))
  }

  // ---------------------------------------------------------------- one step

  ghost predicate Updated(before: Option<Pending>, stored: Option<Pending>, removed: bool, after: Option<Pending>) {
    after == if stored.Some? then stored else if removed then None else before
  }

  lemma {:induction false} GreetEntry(c: Cluster, w: World, step: Step, table: Table, a: Addr, key: Key)
    requires Shaped(c, w) && Enabled(c, w, step) && a in c && step.Greet?
    ensures Updated(Entry(w.tables[a], table, key), Stored(c, w, step, table, a, key), Removes(step, table, a, key),
                    Entry(Apply(c, w, step).tables[a], table, key))
  {
    hide TablesOk, ComputeHmacs;
  }

  lemma {:induction false} HelloEntry(info: NodeInfo, t: Tables, table: Table, key: Key, hello: HandshakeStep,
                                      nodeId: Uuid, env: Env)
    requires TablesOk(t) && hello.Hello?
    ensures Updated(Entry(t, table, key),
                    if table.Ohais? then HelloStored(info, t, key, hello, nodeId, env) else None, false,
                    Entry(OnHello(info, t, key, hello, nodeId, env).tables, table, key))
  {
    hide TablesOk, ComputeHmacs, HasValidHmac;
  }

  lemma {:induction false} OhaiEntry(info: NodeInfo, t: Tables, table: Table, key: Key, ohai: HandshakeStep,
                                     nodeId: Uuid, env: Env)
    requires TablesOk(t) && ohai.Ohai?
    ensures Updated(Entry(t, table, key),
                    if table.OkBosses? then OhaiStored(info, t, key, ohai, nodeId, env) else None, table.Hellos?,
                    Entry(OnOhai(info, t, key, ohai, nodeId, env).tables, table, key))
  {
    assert key in t.hellos ==> t.hellos[key].id == key.0;
    hide TablesOk, ComputeResponse, HasValidHmac;
  }

  /** A message changes what is pending for its own handshake as `MessageStored` and `Consumes` say. */
  lemma {:induction false} HandledEntry(info: NodeInfo, t: Tables, table: Table, sockaddr: Addr, h: Handshake,
                                        nodeId: Uuid, env: Env)
    requires TablesOk(t)
    ensures var key := (h.id, sockaddr);
            Updated(Entry(t, table, key), MessageStored(info, t, table, sockaddr, h, nodeId, env),
                    Consumes(h.step, table), Entry(Handle(info, t, sockaddr, h, nodeId, env).tables, table, key))
  {
    hide TablesOk, GotOkBoss, HelloStored, OhaiStored;
    match h.step
    case Hello(_, _, _, _) =>
      hide OnHello, Entry;
      HelloEntry(info, t, table, (h.id, sockaddr), h.step, nodeId, env);
    case Ohai(_, _, _, _) =>
      hide OnOhai, Entry;
      OhaiEntry(info, t, table, (h.id, sockaddr), h.step, nodeId, env);
    case OkBoss(_) =>
    case GoTeam =>
    case Dead =>
  }

  lemma {:induction false} ElsewhereSame(t: Tables, t': Tables, table: Table, key: Key, other: Key)
    requires OthersKept(t, t', other) && key != other
    ensures Entry(t', table, key) == Entry(t, table, key)
  {
    assert forall m: map<Key, Pending> :: key in m <==> key in m - {other};
    assert forall m: map<Key, Pending> :: key in m ==> m[key] == (m - {other})[key];
  }

  lemma {:induction false} DeliverEntry(c: Cluster, w: World, step: Step, table: Table, key: Key)
    requires Shaped(c, w) && Enabled(c, w, step) && step.Deliver?
    ensures var a := step.packet.dst;
            Updated(Entry(w.tables[a], table, key), Stored(c, w, step, table, a, key), Removes(step, table, a, key),
                    Entry(Apply(c, w, step).tables[a], table, key))
  {
    hide Handle, TablesOk, Recorded, Plus, MessageStored, Consumes, Entry, OthersKept;
    var (p, t) := (step.packet, w.tables[step.packet.dst]);
    if (p.handshake.id, p.src) == key {
      HandledEntry(c[p.dst], t, table, p.src, p.handshake, p.nodeId, step.env);
      assert table.Hellos? ==> MessageStored(c[p.dst], t, table, p.src, p.handshake, p.nodeId, step.env).None? by {
        NothingNew(c[p.dst], t, p.src, p.handshake, p.nodeId, step.env);
      }
    } else {
      OneKeyOnly(c[p.dst], t, p.src, p.handshake, p.nodeId, step.env);
      ElsewhereSame(t, Handle(c[p.dst], t, p.src, p.handshake, p.nodeId, step.env).tables, table, key,
                    (p.handshake.id, p.src));
    }
  }

  lemma NothingNew(info: NodeInfo, t: Tables, sockaddr: Addr, h: Handshake, nodeId: Uuid, env: Env)
    ensures MessageStored(info, t, Hellos, sockaddr, h, nodeId, env).None?
  {
  }

  /** One step changes one entry of one table of one node, and only as `Stored` and `Removes` say. */
  lemma {:induction false} StepEntry(c: Cluster, w: World, step: Step, table: Table, a: Addr, key: Key)
    requires Shaped(c, w) && Enabled(c, w, step) && a in c
    ensures Updated(Entry(w.tables[a], table, key), Stored(c, w, step, table, a, key), Removes(step, table, a, key),
                    Entry(Apply(c, w, step).tables[a], table, key))
  {
    hide TablesOk, Handle, SendHello, HasValidHmac;
    match step
    case Greet(_, _, _, _, _) => GreetEntry(c, w, step, table, a, key);
    case Deliver(p, _) => if p.dst == a { DeliverEntry(c, w, step, table, key); }
    case Boot(_) =>
    case Expire(_, _) =>
  }

  // ---------------------------------------------------------------- every run

  /** Step `i` of the run put `p` there. */
  ghost predicate StoredAt(c: Cluster, steps: seq<Step>, i: nat, table: Table, a: Addr, key: Key, p: Pending) {
    && i < |steps| && a in c && Exec(c, steps[..i]).Some?
    && Stored(c, Exec(c, steps[..i]).value, steps[i], table, a, key) == Some(p)
  }

  /** Step `j` of the run neither puts anything there nor takes it out. */
  ghost predicate LeavesAlone(c: Cluster, steps: seq<Step>, j: nat, table: Table, a: Addr, key: Key) {
    && j < |steps| && a in c && Exec(c, steps[..j]).Some?
    && Stored(c, Exec(c, steps[..j]).value, steps[j], table, a, key).None? && !Removes(steps[j], table, a, key)
  }

  ghost predicate StandsSince(c: Cluster, steps: seq<Step>, i: nat, table: Table, a: Addr, key: Key, p: Pending) {
    && StoredAt(c, steps, i, table, a, key, p)
    && forall j: nat :: i < j < |steps| ==> LeavesAlone(c, steps, j, table, a, key)
  }

  ghost predicate Stands(c: Cluster, steps: seq<Step>, table: Table, a: Addr, key: Key, p: Pending) {
    exists i: nat :: StandsSince(c, steps, i, table, a, key, p)
  }

  lemma SamePrefix(steps: seq<Step>, n: nat, i: nat)
    requires i <= n <= |steps|
    ensures steps[..n][..i] == steps[..i]
  {
  }

  lemma {:induction false} SameAt(c: Cluster, steps: seq<Step>, i: nat, table: Table, a: Addr, key: Key, p: Pending)
    requires i + 1 < |steps|
    ensures StoredAt(c, steps[..|steps| - 1], i, table, a, key, p) <==> StoredAt(c, steps, i, table, a, key, p)
    ensures LeavesAlone(c, steps[..|steps| - 1], i, table, a, key) <==> LeavesAlone(c, steps, i, table, a, key)
  {
    hide Exec, Stored, Removes;
    SamePrefix(steps, |steps| - 1, i);
  }

  /** One more step keeps what stands if and only if it leaves it alone. */
  lemma {:induction false} StandsOn(c: Cluster, steps: seq<Step>, i: nat, table: Table, a: Addr, key: Key, p: Pending)
    requires i + 1 < |steps|
    ensures StandsSince(c, steps, i, table, a, key, p)
       <==> StandsSince(c, steps[..|steps| - 1], i, table, a, key, p)
            && LeavesAlone(c, steps, |steps| - 1, table, a, key)
  {
    hide StoredAt, LeavesAlone;
    var prefix := steps[..|steps| - 1];
    SameAt(c, steps, i, table, a, key, p);
    if StandsSince(c, steps, i, table, a, key, p) {
      forall j: nat | i < j < |prefix| ensures LeavesAlone(c, prefix, j, table, a, key) {
        SameAt(c, steps, j, table, a, key, p);
      }
    }
    if StandsSince(c, prefix, i, table, a, key, p) && LeavesAlone(c, steps, |prefix|, table, a, key) {
      forall j: nat | i < j < |steps| ensures LeavesAlone(c, steps, j, table, a, key) {
        if j < |prefix| { SameAt(c, steps, j, table, a, key, p); }
      }
    }
  }

  /** In every run, `p` is pending in a table of a node if and only if some step put it there and no later
      step put another one there or took it out. */
  lemma {:induction false} PendingIff(c: Cluster, steps: seq<Step>, table: Table, a: Addr, key: Key, p: Pending)
    requires Exec(c, steps).Some? && a in c
    ensures Entry(Exec(c, steps).value.tables[a], table, key) == Some(p)
       <==> Stands(c, steps, table, a, key, p)
  {
    if steps != [] {
      hide Stored, Removes, Entry, Apply, Enabled;
      var n := |steps| - 1;
      PendingIff(c, steps[..n], table, a, key, p);
      StepEntry(c, Exec(c, steps[..n]).value, steps[n], table, a, key);
      Prolonged(c, steps, table, a, key, p);
    }
  }

  lemma {:induction false} Prolonged(c: Cluster, steps: seq<Step>, table: Table, a: Addr, key: Key, p: Pending)
    requires steps != []
    ensures Stands(c, steps, table, a, key, p)
       <==> StoredAt(c, steps, |steps| - 1, table, a, key, p)
            || (LeavesAlone(c, steps, |steps| - 1, table, a, key)
                && Stands(c, steps[..|steps| - 1], table, a, key, p))
  {
    hide StandsSince, StoredAt, LeavesAlone;
    var n := |steps| - 1;
    StandsLast(c, steps, table, a, key, p);
    if i: nat :| StandsSince(c, steps, i, table, a, key, p) {
      StandsWithin(c, steps, i, table, a, key, p);
      if i < n { StandsOn(c, steps, i, table, a, key, p); }
    }
    if i: nat :| StandsSince(c, steps[..n], i, table, a, key, p) {
      StandsWithin(c, steps[..n], i, table, a, key, p);
      StandsOn(c, steps, i, table, a, key, p);
    }
  }

  lemma {:induction false} StandsWithin(c: Cluster, steps: seq<Step>, i: nat, table: Table, a: Addr, key: Key,
                                        p: Pending)
    requires StandsSince(c, steps, i, table, a, key, p)
    ensures i < |steps|
  {
  }

  lemma {:induction false} StandsLast(c: Cluster, steps: seq<Step>, table: Table, a: Addr, key: Key, p: Pending)
    requires steps != []
    ensures StandsSince(c, steps, |steps| - 1, table, a, key, p) <==> StoredAt(c, steps, |steps| - 1, table, a, key, p)
  {
    hide StoredAt, LeavesAlone;
  }

  /** A node has hashed its keys if and only if it has booted. */
  lemma {:induction false} HashedIffBooted(c: Cluster, steps: seq<Step>, a: Addr)
    requires Exec(c, steps).Some? && a in c
    ensures Exec(c, steps).value.tables[a].hashedKeys
         == if Boot(a) in steps then Some(HashedKeys(c[a].keys)) else None
  {
    if steps != [] {
      var n := |steps| - 1;
      HashedIffBooted(c, steps[..n], a);
      assert steps == steps[..n] + [steps[n]];
      hide HashedKeys, Apply, Enabled;
      HashedAfter(c, Exec(c, steps[..n]).value, steps[n], a);
    }
  }

  /** Booting hashes the keys, once; nothing else touches them. */
  lemma {:induction false} HashedAfter(c: Cluster, w: World, step: Step, a: Addr)
    requires Shaped(c, w) && Enabled(c, w, step) && a in c
    ensures Apply(c, w, step).tables[a].hashedKeys
         == if step == Boot(a) && w.tables[a].hashedKeys.None? then Some(HashedKeys(c[a].keys))
            else w.tables[a].hashedKeys
  {
    hide HashedKeys, Handle, SendHello, TablesOk, Recorded, Plus;
    match step
    case Deliver(p, env) => OneKeyOnly(c[p.dst], w.tables[p.dst], p.src, p.handshake, p.nodeId, env);
    case Greet(node, to, hid, andThen, env) => GreetingKeeps(c[node], w.tables[node], to, andThen, hid, env);
    case Boot(_) =>
    case Expire(_, _) =>
  }

  /** The Ohai for this key arrives, or the sweep comes for it. */
  predicate Ends(step: Step, a: Addr, key: Key) {
    step == Expire(a, key) || (Brings(step, a, key) && step.packet.handshake.step.Ohai?)
  }

  ghost predicate IsPending(w: World, g: Step) {
    && g.Greet? && g.hid in w.past.hellos && g.node in w.tables
    && Entry(w.tables[g.node], Hellos, (g.hid, g.to)) == Some(GreetingOf(g))
  }

  ghost predicate NotEnded(steps: seq<Step>, i: nat, a: Addr, key: Key) {
    forall j :: i < j < |steps| ==> !Ends(steps[j], a, key)
  }

  lemma NotEndedBefore(steps: seq<Step>, i: nat, a: Addr, key: Key)
    requires i + 1 < |steps| && NotEnded(steps, i, a, key)
    ensures NotEnded(steps[..|steps| - 1], i, a, key) && !Ends(steps[|steps| - 1], a, key)
  {
  }

  /** Whatever else the node and the network do, with or without a continuation, and however many others are
      pending: a greeting stays pending, unchanged, until its Ohai arrives or the sweep comes for it. */
  lemma {:induction false} GreetingStays(c: Cluster, steps: seq<Step>, i: nat)
    requires DistinctIds(c) && Exec(c, steps).Some? && i < |steps| && steps[i].Greet?
    requires NotEnded(steps, i, steps[i].node, (steps[i].hid, steps[i].to))
    ensures IsPending(Exec(c, steps).value, steps[i])
  {
    hide Exec, Apply, Enabled, DistinctIds, IsPending, NotEnded, Ends, Shaped;
    LastStep(c, steps);
    var n, g := |steps| - 1, steps[i];
    var w := Exec(c, steps[..n]).value;
    if i < n {
      NotEndedBefore(steps, i, g.node, (g.hid, g.to));
      GreetingStays(c, steps[..n], i);
      StillLiving(c, steps[..n], steps[n]);
      GreetingKept(c, w, steps[n], g);
    } else {
      GreetingEntry(c, w, g);
    }
  }

  lemma LastStep(c: Cluster, steps: seq<Step>)
    requires Exec(c, steps).Some? && steps != []
    ensures var before := Exec(c, steps[..|steps| - 1]);
            && before.Some? && Enabled(c, before.value, steps[|steps| - 1])
            && Exec(c, steps).value == Apply(c, before.value, steps[|steps| - 1])
  {
  }

  lemma {:induction false} GreetingEntry(c: Cluster, w: World, g: Step)
    requires Shaped(c, w) && Enabled(c, w, g) && g.Greet?
    ensures IsPending(Apply(c, w, g), g)
  {
    hide Entry, TablesOk, SendHello;
    StepEntry(c, w, g, Hellos, g.node, (g.hid, g.to));
  }

  lemma {:induction false} GreetingKept(c: Cluster, w: World, step: Step, g: Step)
    requires Shaped(c, w) && Enabled(c, w, step) && IsPending(w, g) && !Ends(step, g.node, (g.hid, g.to))
    requires step.Deliver? ==> !step.packet.handshake.step.Dead?
    ensures IsPending(Apply(c, w, step), g)
  {
    hide Apply, Entry, TablesOk, GreetingOf;
    HellosGrow(c, w, step);
    StepEntry(c, w, step, Hellos, g.node, (g.hid, g.to));
  }

  lemma {:induction false} HellosGrow(c: Cluster, w: World, step: Step)
    requires Shaped(c, w) && Enabled(c, w, step)
    ensures w.past.hellos.Keys <= Apply(c, w, step).past.hellos.Keys
    ensures step.Greet? ==> step.hid in Apply(c, w, step).past.hellos
  {
    hide Handle, SendHello, TablesOk;
  }

  /** No node ever says that a handshake is dead. */
  lemma {:induction false} StillLiving(c: Cluster, steps: seq<Step>, step: Step)
    requires DistinctIds(c) && Exec(c, steps).Some? && Enabled(c, Exec(c, steps).value, step)
    ensures step.Deliver? ==> !step.packet.handshake.step.Dead?
  {
    hide Exec, PacketOk;
    if step.Deliver? {
      RunKeeps(c, steps);
      PacketAt(c, Exec(c, steps).value, step.packet);
      NotDead(c, Exec(c, steps).value.past, step.packet);
    }
  }
}
