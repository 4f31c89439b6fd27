/** One node's table of connected peers, as its dials, inbound handshakes and read loops change it. */
module PeerTable {
  import opened Common
  import opened NodeIds

  /** Peer id to the connection that currently serves it; a connection is its channel's identity. */
  type Peers = map<NodeId, nat>

  datatype Event = PeerConnected(peer: NodeId) | PeerDisconnected(peer: NodeId)

  /** Whether a new connection to `peer` may be entered: it is the only one, or it wins the tiebreak. */
  predicate Keeps(local: NodeId, peers: Peers, peer: NodeId, weAreDialer: bool) {
    peer !in peers || WinsTiebreak(local, peer, weAreDialer)
  }

  predicate IsCurrent(peers: Peers, peer: NodeId, c: nat) {
    peer in peers && peers[peer] == c
  }

  // ---------- what each operation makes of the table ----------

  /** A dial goes ahead only towards a peer that is not connected yet. */
  predicate MayDial(peers: Peers, peer: NodeId) {
    peer !in peers
  }

  /** The end of a dial whose connection `c` is open. */
  function Dialed(local: NodeId, peers: Peers, peer: NodeId, c: nat): Peers {
    if Keeps(local, peers, peer, true) then peers[peer := c] else peers
  }

  /** Whether the first handshake on an inbound connection registers it. */
  predicate Admits(local: NodeId, peers: Peers, stopped: bool, authentic: bool, peer: NodeId) {
    !stopped && authentic && Keeps(local, peers, peer, false)
  }

  function Admitted(local: NodeId, peers: Peers, stopped: bool, authentic: bool, peer: NodeId, c: nat): Peers {
    if Admits(local, peers, stopped, authentic, peer) then peers[peer := c] else peers
  }

  /** A read loop's cleanup: it removes its peer's entry only while the entry is its own connection. */
  function Evict(peers: Peers, peer: NodeId, c: nat): Peers {
    if IsCurrent(peers, peer, c) then peers - {peer} else peers
  }

  function Forgotten(peers: Peers, peer: NodeId): Peers {
    peers - {peer}
  }

  function AfterShutdown(): Peers {
    map[]
  }

  class Transport {
    const local: NodeId
    var peers: Peers
    var desired: set<NodeId>
    var stopped: bool
    var events: seq<Event>  // everything broadcast so far

    constructor (local: NodeId)
      ensures this.local == local && peers == map[] && desired == {} && !stopped && events == []
    {
      this.local, peers, desired, stopped, events := local, map[], {}, false, [];
    }

    /** The start of `dial`: nothing to do when the peer is already connected. */
    method BeginDial(peer: NodeId) returns (proceed: bool)
      modifies this`desired
      ensures proceed <==> MayDial(peers, peer)
      ensures desired == if proceed then old(desired) + {peer} else old(desired)
    {
      if peer in peers {
        return false;
      }
      desired := desired + {peer};
      return true;
    }

    /** The rest of `dial`, once connection `c` is open. */
    method FinishDial(peer: NodeId, c: nat) returns (kept: bool)
      modifies this`peers, this`events
      ensures kept == Keeps(local, old(peers), peer, true)
      ensures peers == Dialed(local, old(peers), peer, c)
      ensures events == if kept then old(events) + [PeerConnected(peer)] else old(events)
    {
      if peer in peers && !WinsTiebreak(local, peer, true) {
        return false;
      }
      peers := peers[peer := c];
      events := events + [PeerConnected(peer)];
      return true;
    }

    /** The first handshake on inbound connection `c`; `authentic` is the verdict on its proof. */
    method RegisterInbound(src: string, c: nat, authentic: bool) returns (registered: Option<NodeId>)
      modifies this`peers, this`events
      ensures registered == if Parse(src).Ok? && Admits(local, old(peers), stopped, authentic, Parse(src).value)
                            then Some(Parse(src).value) else None
      ensures peers == if Parse(src).Err? then old(peers)
                       else Admitted(local, old(peers), stopped, authentic, Parse(src).value, c)
      ensures events == if registered.Some? then old(events) + [PeerConnected(registered.value)] else old(events)
    {
      registered := None;
      if stopped || !authentic {
        return;
      }
      var parsed := Parse(src);
      if parsed.Err? {
        return;
      }
      var peer := parsed.value;
      if peer in peers && !WinsTiebreak(local, peer, false) {
        return;
      }
      peers := peers[peer := c];
      registered := Some(peer);
      events := events + [PeerConnected(peer)];
    }

    /** The cleanup after a read loop, whatever ended it. */
    method EndLoop(registered: Option<(NodeId, nat)>)
      modifies this`peers, this`events
      ensures registered.None? ==> peers == old(peers) && events == old(events)
      ensures registered.Some? ==>
                var (peer, c) := registered.value;
                && peers == Evict(old(peers), peer, c)
                && !IsCurrent(peers, peer, c)
                && events == old(events) + if IsCurrent(old(peers), peer, c) then [PeerDisconnected(peer)] else []
    {
      if registered.Some? {
        var (peer, c) := registered.value;
        if peer in peers && peers[peer] == c {
          peers := peers - {peer};
          events := events + [PeerDisconnected(peer)];
        }
      }
    }

    method ForgetPeer(peer: NodeId)
      modifies this`peers, this`desired, this`events
      ensures desired == old(desired) - {peer} && peers == Forgotten(old(peers), peer)
      ensures events == old(events) + if peer in old(peers) then [PeerDisconnected(peer)] else []
    {
      desired := desired - {peer};
      var known := peer in peers;
      peers := peers - {peer};
      if known {
        events := events + [PeerDisconnected(peer)];
      }
    }

    method Shutdown()
      modifies this`peers, this`desired, this`stopped
      ensures stopped && desired == {} && peers == AfterShutdown()
    {
      stopped := true;
      desired := {};
      peers := map[];
    }
  }
}
