/** The peer record (src/peer.rs). */
module Peers {
  import opened Basics

  datatype Peer = Peer(
    ourKeypair: Option<KeyPair>,
    theirPublicKey: Option<PublicKey>,
    handshakeTimestamp: Option<Time>,
    sockaddr: Addr,
    id: Uuid,
    zone: Option<string>)
  {
    predicate IsHandshaken() {
      ourKeypair.Some? && theirPublicKey.Some?
    }

    /** The record after serialization: the key fields and the timestamp are skipped. */
    function OverTheWire(): Peer {
      this.(ourKeypair := None, theirPublicKey := None, handshakeTimestamp := None)
    }

    /** No trace of a handshake: what every peer received from the network looks like. */
    predicate IsWire() {
      this == OverTheWire()
    }

    /** Peers come from a completed handshake or from the wire; nothing lies in between. */
    predicate IsSound() {
      IsWire() || (IsHandshaken() && handshakeTimestamp.Some?)
    }
  }

  /** Peer::new, with the generated key pair as a parameter. */
  function NewPeer(keypair: KeyPair, theirPublicKey: Option<PublicKey>, sockaddr: Addr, id: Uuid,
                   timestamp: Option<Time>, zone: Option<string>): Peer {
    Peer(Some(keypair), theirPublicKey, timestamp, sockaddr, id, zone)
  }
}
