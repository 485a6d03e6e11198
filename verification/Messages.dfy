/** What nodes say to each other after a handshake (src/message.rs, src/packet.rs). */
module Messages {
  import opened Basics
  import opened Peers
  import opened Handshaking

  datatype PeerState = Up | Down

  datatype PeerRequest =
    | PeerList
    | Peers(peers: seq<Peer>)
    | Status(peer: Peer, state: PeerState)
    | StartSubscription
    | SubscriptionStarted
    | EndSubscription
    | Heartbeat
  {
    function OverTheWire(): PeerRequest {
      match this
      case Peers(ps) => Peers(WirePeers(ps))
      case Status(p, state) => Status(p.OverTheWire(), state)
      case _ => this
    }
  }

  function WirePeers(ps: seq<Peer>): seq<Peer> {
    seq(|ps|, i requires 0 <= i < |ps| => ps[i].OverTheWire())
  }

  datatype Body =
    | Broadcast(data: Bytes)
    | Request(request: PeerRequest)
    | Frame(data: Bytes)
    | Nak(start: u32, end: u32)

  /** Serialization drops the keys of every peer a message mentions. */
  datatype Message = Message(id: Uuid, body: Body) {
    function OverTheWire(): Message {
      if body.Request? then Message(id, Request(body.request.OverTheWire())) else this
    }
  }

  /** What a node holds about a peer it shook hands with. */
  datatype Link = Link(addr: Addr, keypair: KeyPair, theirKey: PublicKey)

  type Keys = map<Uuid, Link>

  /** An authenticated box between two key pairs; either end can open it, nobody else can. */
  datatype SealedBox = SealedBox(from: PublicKey, to: PublicKey, content: Message)

  function Encrypt(link: Link, m: Message): SealedBox {
    SealedBox(link.keypair.publicKey, link.theirKey, m.OverTheWire())
  }

  function Decrypt(keys: Keys, id: Uuid, box: SealedBox): Option<Message> {
    if id in keys && {box.from, box.to} == {keys[id].keypair.publicKey, keys[id].theirKey}
    then Some(box.content) else None
  }

  /** Two links are the two ends of one handshake. */
  predicate Mirrored(link1: Link, link2: Link) {
    link1.keypair.publicKey == link2.theirKey && link2.keypair.publicKey == link1.theirKey
  }

  datatype Payload = H(handshake: Handshake) | B(box: SealedBox)

  datatype Packet = Packet(s: u32, id: Uuid, p: Payload)

  /** What crosses the network: everything but the keys and handshake times of the peers it mentions. */
  lemma {:induction false} WireForm(m: Message)
    ensures m.OverTheWire().id == m.id
    ensures match m.body
            case Request(Peers(ps)) =>
              && m.OverTheWire().body.Request? && m.OverTheWire().body.request.Peers?
              && var qs := m.OverTheWire().body.request.peers;
                 |qs| == |ps| && forall i :: 0 <= i < |ps| ==> Stripped(ps[i], qs[i])
            case Request(Status(p, state)) =>
              && m.OverTheWire().body.Request? && m.OverTheWire().body.request.Status?
              && Stripped(p, m.OverTheWire().body.request.peer) && m.OverTheWire().body.request.state == state
            case _ => m.OverTheWire() == m
  {
  }

  predicate Stripped(p: Peer, q: Peer) {
    && q.sockaddr == p.sockaddr && q.id == p.id && q.zone == p.zone
    && q.ourKeypair == None && q.theirPublicKey == None && q.handshakeTimestamp == None
  }

  /** A box opens for whoever holds the mirror image of the link it was sealed with, and then to what was
      put in, and for nobody whose link has other keys. */
  lemma {:induction false} OpensIff(link: Link, keys: Keys, id: Uuid, m: Message)
    ensures Decrypt(keys, id, Encrypt(link, m)) == Some(m.OverTheWire()) || Decrypt(keys, id, Encrypt(link, m)) == None
    ensures Decrypt(keys, id, Encrypt(link, m)).Some?
       <==> id in keys && {keys[id].keypair.publicKey, keys[id].theirKey} == {link.keypair.publicKey, link.theirKey}
  {
  }
}
