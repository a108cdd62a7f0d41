/** P2PNode: a browser instance in a peer-to-peer network, modelled as a
    sequential state machine. Sockets are handles with an open flag and the
    list of messages written to them; listeners are handles that record
    what they are told; the clock, the outcome of binding, connecting and
    writing are parameters. */
module P2PNodes {
  import opened Wrappers
  import opened PeerInfos
  import opened P2PMessages

  /** A peer not seen for longer than this many milliseconds is dropped by
      the heartbeat sweep. */
  const PeerTimeout := 60000

  predicate Expired(now: int, lastSeen: int) {
    now - lastSeen > PeerTimeout
  }

  /** A connection to a peer. */
  class Socket {
    var closed: bool
    /** The messages written to the connection's output stream, in order. */
    var sent: seq<P2PMessage>

    constructor ()
      ensures !closed && sent == []
    {
      closed := false;
      sent := [];
    }

    method Close()
      modifies this
      ensures closed && sent == old(sent)
    {
      closed := true;
    }

    /** writeObject followed by flush, when the write succeeds. */
    method Write(message: P2PMessage)
      modifies this
      ensures sent == old(sent) + [message] && closed == old(closed)
    {
      sent := sent + [message];
    }
  }

  /** A P2PMessageListener. Its callback is code outside the model: here it
      records each message it is given, unless it is one that throws. */
  class Listener {
    const throws: bool
    var received: seq<P2PMessage>

    constructor (throws: bool)
      ensures this.throws == throws && received == []
    {
      this.throws := throws;
      received := [];
    }

    method OnMessageReceived(message: P2PMessage) returns (threw: bool)
      modifies this
      ensures threw == throws
      ensures received == old(received) + (if throws then [] else [message])
    {
      threw := throws;
      if !throws {
        received := received + [message];
      }
    }
  }

  /** `n` copies of one message. */
  function Repeat(message: P2PMessage, n: nat): (ms: seq<P2PMessage>)
    ensures |ms| == n && forall i | 0 <= i < n :: ms[i] == message
  {
    if n == 0 then [] else Repeat(message, n - 1) + [message]
  }

  /** How many times notifyListeners hands a message to `l`: once per entry
      of `l` in the list, and never when its callback throws. */
  function Deliveries(ls: seq<Listener>, l: Listener): nat {
    if l.throws then 0 else multiset(ls)[l]
  }

  /** `after` is `before` followed by copies of `message` only: what a
      connection holds after a round of writes of one message. */
  predicate WrittenSince(before: seq<P2PMessage>, after: seq<P2PMessage>, message: P2PMessage) {
    |before| <= |after| && after == before + Repeat(message, |after| - |before|)
  }

  /** The ids registered on connection `s`. Several CONNECT messages on one
      connection register several ids on it. */
  function Senders(sockets: map<string, Socket>, s: Socket): (ids: set<string>)
    ensures ids <= sockets.Keys
  {
    set id | id in sockets && sockets[id] == s
  }

  /** The connections registered under the given ids. */
  function SocketsOf(sockets: map<string, Socket>, ids: set<string>): set<Socket>
  {
    set id | id in ids && id in sockets :: sockets[id]
  }

  /** One more copy written after `h` copies makes `h + 1` copies. */
  lemma OneMoreCopy(start: seq<P2PMessage>, message: P2PMessage, h: nat)
    ensures start + Repeat(message, h) + [message] == start + Repeat(message, h + 1)
  {
    assert Repeat(message, h + 1) == Repeat(message, h) + [message];
  }

  /** Writing one more copy of the message keeps a connection holding
      copies of it only. */
  lemma WrittenOneMore(before: seq<P2PMessage>, after: seq<P2PMessage>, message: P2PMessage)
    requires WrittenSince(before, after, message)
    ensures WrittenSince(before, after + [message], message)
  {
    OneMoreCopy(before, message, |after| - |before|);
  }

  /** The registry part of a broadcast in progress: `ps` and `cp` keep
      the entries of `ps0` and `cp0` they still hold, every id still to
      be sent to is among them, and an id is missing only when it is
      failing and has been sent to. */
  ghost predicate RegistryAt(ps0: map<string, Socket>, cp0: map<string, PeerInfo>,
                             ps: map<string, Socket>, cp: map<string, PeerInfo>,
                             failing: set<string>, ids: set<string>)
  {
    && ids <= ps.Keys && ps.Keys <= ps0.Keys
    && (forall id | id in ps :: ps[id] == ps0[id] && id in cp && id in cp0 && cp[id] == cp0[id])
    && (forall id | id in ps0 && id !in ps :: id in failing && id !in ids)
  }

  /** Sending to `p` removes at most `p`, and only when it is failing. */
  lemma RegistryStep(ps0: map<string, Socket>, cp0: map<string, PeerInfo>,
                     ps: map<string, Socket>, cp: map<string, PeerInfo>,
                     ps': map<string, Socket>, cp': map<string, PeerInfo>,
                     failing: set<string>, ids: set<string>, p: string, drops: set<string>)
    requires RegistryAt(ps0, cp0, ps, cp, failing, ids) && p in ids
    requires drops <= {p} && (drops == {p} ==> p in failing)
    requires ps' == ps - drops && cp' == cp - drops
    ensures RegistryAt(ps0, cp0, ps', cp', failing, ids - {p})
  {
  }

  /** The connections part of a broadcast in progress: every connection
      holds what it held at the start followed by copies of the message
      only; one that was closed, or that is not among the registered
      connections `reg`, is as it was; one in `good` is open. */
  ghost predicate SocketsAt(conns: set<Socket>, sent0: map<Socket, seq<P2PMessage>>, closed0: map<Socket, bool>,
                            good: set<Socket>, reg: set<Socket>, message: P2PMessage)
    reads conns
  {
    && good <= conns
    && forall s | s in conns ::
      && s in sent0 && s in closed0
      && WrittenSince(sent0[s], s.sent, message)
      && (closed0[s] || s !in reg ==> s.closed == closed0[s] && s.sent == sent0[s])
      && (s in good ==> !s.closed && !closed0[s])
  }

  /** One send touches only `target`: it either appends one copy and
      leaves it open, or appends nothing and leaves it closed. A closed
      connection stays closed and no connection loses a message.
      Parameters other than the first are marked `new` only so that Dafny
      does not emit clashing assertion names for a two-state lemma with
      several parameters; they carry no meaning about allocation. */
  twostate lemma SocketsStep(conns: set<Socket>, new target: Socket, new wrote: bool,
                             new sent0: map<Socket, seq<P2PMessage>>, new closed0: map<Socket, bool>,
                             new good: set<Socket>, new reg: set<Socket>, new message: P2PMessage)
    requires good <= conns && target in conns && target in reg
    requires forall s | s in conns ::
      && s in sent0 && s in closed0
      && WrittenSince(sent0[s], old(s.sent), message)
      && (closed0[s] || s !in reg ==> old(s.closed) == closed0[s] && old(s.sent) == sent0[s])
      && (s in good ==> !old(s.closed) && !closed0[s])
    requires forall s | s in conns && s != target :: s.sent == old(s.sent) && s.closed == old(s.closed)
    requires wrote ==> !old(target.closed) && !target.closed && target.sent == old(target.sent) + [message]
    requires !wrote ==> target.closed && target.sent == old(target.sent) && target !in good
    ensures SocketsAt(conns, sent0, closed0, good, reg, message)
    ensures forall s | s in conns && old(s.closed) :: s.closed
    ensures forall s | s in conns :: |old(s.sent)| <= |s.sent|
    ensures target in good ==> |sent0[target]| < |target.sent|
  {
    if wrote {
      WrittenOneMore(sent0[target], old(target.sent), message);
    }
  }

  /** The ids sent to so far whose connection is in `good` have had a
      copy written to it. */
  ghost predicate Received(ps0: map<string, Socket>, sent0: map<Socket, seq<P2PMessage>>, good: set<Socket>,
                           ids: set<string>)
    reads ps0.Values
  {
    forall id | id in ps0 && id !in ids && ps0[id] in good :: ps0[id] in sent0 && |sent0[ps0[id]]| < |ps0[id].sent|
  }

  /** Sending to `p` adds `p` to the ids whose connection received a copy,
      and no earlier copy is lost.
      Parameters other than the first are marked `new` only so that Dafny
      does not emit clashing assertion names for a two-state lemma with
      several parameters; they carry no meaning about allocation. */
  twostate lemma ReceivedStep(ps0: map<string, Socket>, new sent0: map<Socket, seq<P2PMessage>>,
                              new good: set<Socket>, new ids: set<string>, new p: string)
    requires forall id | id in ps0 && id !in ids && ps0[id] in good ::
      ps0[id] in sent0 && |sent0[ps0[id]]| < |old(ps0[id].sent)|
    requires forall id | id in ps0 :: |old(ps0[id].sent)| <= |ps0[id].sent|
    requires p in ps0 && (ps0[p] in good ==> ps0[p] in sent0 && |sent0[ps0[p]]| < |ps0[p].sent|)
    ensures Received(ps0, sent0, good, ids - {p})
  {
  }

  /** An id removed from the registry keeps its connection closed: the
      ones removed before stay closed, and `p` is removed only after its
      connection was closed.
      Parameters other than the first are marked `new` only so that Dafny
      does not emit clashing assertion names for a two-state lemma with
      several parameters; they carry no meaning about allocation. */
  twostate lemma ShutStep(conns: set<Socket>, new ps0: map<string, Socket>, new ps: map<string, Socket>,
                          new ps': map<string, Socket>, new p: string, new drops: set<string>)
    requires forall id | id in ps0 :: ps0[id] in conns
    requires forall id | id in ps0 && id !in ps :: old(ps0[id].closed)
    requires forall s | s in conns && old(s.closed) :: s.closed
    requires p in ps0 && drops <= {p} && ps' == ps - drops
    requires drops == {p} ==> ps0[p].closed
    ensures forall id | id in ps0 && id !in ps' :: ps0[id].closed
  {
    forall id | id in ps0 && id !in ps'
      ensures ps0[id].closed
    {
      if id != p {
        assert id !in ps;
      }
    }
  }

  class P2PNode {
    const nodeId: string
    const nodeName: string
    const port: int
    var running: bool
    var connectedPeers: map<string, PeerInfo>
    var peerSockets: map<string, Socket>
    var messageListeners: seq<Listener>
    /** Every connection the node has registered, open or closed. */
    ghost var Connections: set<Socket>

    /** The two maps are always updated together, so they have the same
        keys; every registered socket is one of the node's connections. */
    ghost predicate Valid()
      reads this
    {
      && connectedPeers.Keys == peerSockets.Keys
      && forall id | id in peerSockets :: peerSockets[id] in Connections
    }

    /** The ids the heartbeat sweep finds inactive at time `now`. */
    function Inactive(now: int): (ids: set<string>)
      reads this, connectedPeers.Values
      ensures ids <= connectedPeers.Keys
      ensures forall id | id in connectedPeers :: id in ids <==> Expired(now, connectedPeers[id].lastSeen)
    {
      set id | id in connectedPeers && Expired(now, connectedPeers[id].lastSeen)
    }

    /** A peer found inactive at one time is found inactive at every later
        time, so a sweep that waits can only remove more. */
    lemma InactiveGrows(now: int, later: int)
      requires now <= later
      ensures Inactive(now) <= Inactive(later)
    {
    }

    /** A new node, with `nodeId` standing for the random UUID, is stopped
        and knows no peers and no listeners. */
    constructor (nodeId: string, nodeName: string, port: int)
      ensures this.nodeId == nodeId && this.nodeName == nodeName && this.port == port
      ensures !running && connectedPeers == map[] && peerSockets == map[] && messageListeners == []
      ensures Valid()
    {
      this.nodeId := nodeId;
      this.nodeName := nodeName;
      this.port := port;
      connectedPeers := map[];
      peerSockets := map[];
      messageListeners := [];
      running := false;
      Connections := {};
    }

    /** start: nothing happens when the node is already running; otherwise
        it runs from now on exactly when its server socket could be bound. */
    method Start(bindSucceeds: bool)
      modifies this
      ensures old(running) ==> running
      ensures !old(running) ==> running == bindSucceeds
      ensures connectedPeers == old(connectedPeers) && peerSockets == old(peerSockets)
      ensures messageListeners == old(messageListeners) && Connections == old(Connections)
    {
      if running {
        return;
      }
      if bindSucceeds {
        running := true;
      }
    }

    /** removePeer: the id leaves both maps, and the socket it had is closed
        if it was still open. Once the id is gone a second call changes
        nothing. */
    method RemovePeer(peerId: string)
      requires Valid()
      modifies this, Connections
      ensures Valid() && Connections == old(Connections)
      ensures connectedPeers == old(connectedPeers) - {peerId}
      ensures peerSockets == old(peerSockets) - {peerId}
      ensures running == old(running) && messageListeners == old(messageListeners)
      ensures peerId in old(peerSockets) ==> old(peerSockets)[peerId].closed
      ensures forall s | s in Connections :: s.sent == old(s.sent) && (old(s.closed) ==> s.closed)
      ensures forall s | s in Connections && (peerId !in old(peerSockets) || s != old(peerSockets)[peerId]) ::
        s.closed == old(s.closed)
      ensures peerId !in old(peerSockets) ==>
        connectedPeers == old(connectedPeers) && peerSockets == old(peerSockets) && unchanged(Connections)
    {
      connectedPeers := connectedPeers - {peerId};
      if peerId in peerSockets {
        var socket := peerSockets[peerId];
        peerSockets := peerSockets - {peerId};
        if !socket.closed {
          socket.Close();
        }
      } else {
        assert connectedPeers == old(connectedPeers);
      }
    }

    /** handleConnectMessage: the PeerInfo carried by the message and the
        connection it came on are stored under that peer's id, and the
        listeners are told. A payload that is not a PeerInfo makes the
        cast or the call on it throw, which ends the connection's handler:
        `ok` is false and nothing changes. */
    method HandleConnectMessage(message: P2PMessage, socket: Socket) returns (ok: bool)
      requires Valid()
      modifies this, messageListeners
      ensures Valid()
      ensures ok <==> old(message.payload).PeerPayload?
      ensures ok ==> var info := old(message.payload).peer;
        && connectedPeers == old(connectedPeers)[old(info.peerId) := info]
        && peerSockets == old(peerSockets)[old(info.peerId) := socket]
        && Connections == old(Connections) + {socket}
      ensures !ok ==> connectedPeers == old(connectedPeers) && peerSockets == old(peerSockets)
      ensures !ok ==> Connections == old(Connections)
      ensures running == old(running) && messageListeners == old(messageListeners)
      ensures forall l | l in messageListeners ::
        l.received == old(l.received) + Repeat(message, if ok then Deliveries(messageListeners, l) else 0)
    {
      match message.payload {
        case PeerPayload(peerInfo) =>
          connectedPeers := connectedPeers[peerInfo.peerId := peerInfo];
          peerSockets := peerSockets[peerInfo.peerId := socket];
          Connections := Connections + {socket};
          NotifyListeners(message);
          ok := true;
        case _ =>
          ok := false;
      }
    }

    /** handleDisconnectMessage: the sender is removed, then the listeners
        are told. */
    method HandleDisconnectMessage(message: P2PMessage)
      requires Valid()
      modifies this, Connections, messageListeners
      ensures Valid() && Connections == old(Connections)
      ensures connectedPeers == old(connectedPeers) - {message.senderId}
      ensures peerSockets == old(peerSockets) - {message.senderId}
      ensures message.senderId in old(peerSockets) ==> old(peerSockets)[message.senderId].closed
      ensures forall s | s in Connections :: s.sent == old(s.sent)
      ensures forall s | s in Connections &&
                         (message.senderId !in old(peerSockets) || s != old(peerSockets)[message.senderId]) ::
        s.closed == old(s.closed)
      ensures running == old(running) && messageListeners == old(messageListeners)
      ensures forall l | l in messageListeners ::
        l.received == old(l.received) + Repeat(message, Deliveries(messageListeners, l))
    {
      RemovePeer(message.senderId);
      NotifyListeners(message);
    }

    /** notifyListeners: every listener in the list is called in turn, and
        one whose callback throws does not keep the rest from being
        called. */
    method NotifyListeners(message: P2PMessage)
      modifies messageListeners
      ensures forall l | l in messageListeners ::
        l.received == old(l.received) + Repeat(message, Deliveries(messageListeners, l))
    {
      var i := 0;
      while i < |messageListeners|
        invariant 0 <= i <= |messageListeners|
        invariant forall l | l in messageListeners ::
          l.received == old(l.received) + Repeat(message, Deliveries(messageListeners[..i], l))
      {
        var listener := messageListeners[i];
        assert messageListeners[..i + 1] == messageListeners[..i] + [listener];
        var threw := listener.OnMessageReceived(message);
        i := i + 1;
      }
      assert messageListeners[..i] == messageListeners;
    }

    /** The connection of `peerId`, when it is registered and still open. */
    predicate Reachable(peerId: string)
      reads this, peerSockets.Values
    {
      peerId in peerSockets && !peerSockets[peerId].closed
    }

    /** The peers a sendToPeer removes: the addressed one, when its
        connection is open and the write fails. */
    function SendDrops(peerId: string, writeFails: bool): (ids: set<string>)
      reads this, peerSockets.Values
      ensures ids <= {peerId}
      ensures ids == {peerId} <==> Reachable(peerId) && writeFails
    {
      if Reachable(peerId) && writeFails then {peerId} else {}
    }

    /** sendToPeer: nothing happens for an unknown peer or a closed
        connection. Otherwise the message is written to the peer's
        connection, or, when the write fails, that one peer is removed and
        its connection closed. */
    method SendToPeer(peerId: string, message: P2PMessage, writeFails: bool)
      requires Valid()
      modifies this, Connections
      ensures Valid() && Connections == old(Connections)
      ensures running == old(running) && messageListeners == old(messageListeners)
      ensures connectedPeers == old(connectedPeers) - old(SendDrops(peerId, writeFails))
      ensures peerSockets == old(peerSockets) - old(SendDrops(peerId, writeFails))
      ensures old(Reachable(peerId)) && !writeFails ==>
        old(peerSockets)[peerId].sent == old(peerSockets[peerId].sent) + [message]
        && !old(peerSockets)[peerId].closed
      ensures old(Reachable(peerId)) && writeFails ==>
        old(peerSockets)[peerId].closed && old(peerSockets)[peerId].sent == old(peerSockets[peerId].sent)
      ensures forall s | s in Connections && (!old(Reachable(peerId)) || s != old(peerSockets)[peerId]) ::
        s.sent == old(s.sent) && s.closed == old(s.closed)
    {
      if peerId in peerSockets {
        var socket := peerSockets[peerId];
        if !socket.closed {
          if !writeFails {
            socket.Write(message);
          } else {
            RemovePeer(peerId);
          }
        }
      }
    }

    /** broadcast: sendToPeer for every peer in the registry, in the key
        set's order. The writes to the peers in `failing` fail.
        - Only peers in `failing` can be removed, and a removed peer's
          connection is closed. No peer is added.
        - Every connection receives only copies of the message. A closed
          connection, or one no peer is registered on, is left as it was.
        - The open connection of a peer none of whose connection's ids
          fails stays open and receives the message. */
    method Broadcast(message: P2PMessage, failing: set<string>)
      requires Valid()
      modifies this, Connections
      ensures Valid() && Connections == old(Connections)
      ensures running == old(running) && messageListeners == old(messageListeners)
      ensures forall id | id in peerSockets ::
        id in old(peerSockets) && peerSockets[id] == old(peerSockets)[id] && connectedPeers[id] == old(connectedPeers)[id]
      ensures forall id | id in old(peerSockets) && id !in peerSockets :: id in failing && old(peerSockets)[id].closed
      ensures forall s | s in Connections :: WrittenSince(old(s.sent), s.sent, message)
      ensures forall s | s in Connections && (old(s.closed) || s !in old(peerSockets).Values) ::
        s.closed == old(s.closed) && s.sent == old(s.sent)
      ensures forall id | id in old(peerSockets) && !old(peerSockets[id].closed) &&
                          Senders(old(peerSockets), old(peerSockets)[id]) !! failing ::
        !old(peerSockets)[id].closed && |old(peerSockets[id].sent)| < |old(peerSockets)[id].sent|
    {
      ghost var ps0 := peerSockets;
      ghost var sent0: map<Socket, seq<P2PMessage>> := map s | s in Connections :: s.sent;
      ghost var closed0: map<Socket, bool> := map s | s in Connections :: s.closed;
      ghost var good: set<Socket> := set s | s in Connections && !s.closed && Senders(ps0, s) !! failing;
      var ids := connectedPeers.Keys;
      while ids != {}
        invariant Connections == old(Connections)
        invariant running == old(running) && messageListeners == old(messageListeners)
        invariant SendState(ps0, old(connectedPeers), sent0, closed0, good, message, failing, ids)
        decreases ids
      {
        var peerId :| peerId in ids;
        BroadcastStep(peerId, message, failing, ps0, old(connectedPeers), sent0, closed0, good, ids);
        ids := ids - {peerId};
      }
      forall s | s in Connections
        ensures old(s.sent) == sent0[s] && old(s.closed) == closed0[s]
      {
      }
      forall id | id in ps0 && !old(ps0[id].closed) && Senders(ps0, ps0[id]) !! failing
        ensures ps0[id] in good
      {
      }
    }

    /** Where a broadcast stands while the ids in `ids` remain to be sent
        to. `ps0`, `cp0`, `sent0` and `closed0` are the registry and every
        connection at the start; the connections in `good` were open and
        carry no failing id. An id is removed only when it is failing, has
        been sent to, and its connection is closed. */
    ghost predicate SendState(ps0: map<string, Socket>, cp0: map<string, PeerInfo>,
                              sent0: map<Socket, seq<P2PMessage>>, closed0: map<Socket, bool>, good: set<Socket>,
                              message: P2PMessage, failing: set<string>, ids: set<string>)
      reads this, Connections, ps0.Values
    {
      && Valid()
      && RegistryAt(ps0, cp0, peerSockets, connectedPeers, failing, ids)
      && (forall id | id in ps0 :: ps0[id] in Connections)
      && (forall id | id in ps0 && id !in peerSockets :: ps0[id].closed)
      && SocketsAt(Connections, sent0, closed0, good, ps0.Values, message)
      && Received(ps0, sent0, good, ids)
      && (forall s | s in good :: Senders(ps0, s) !! failing)
    }

    /** One turn of the broadcast loop: sendToPeer for `peerId`, whose write
        fails when it is in `failing`. At most one copy is written, to the
        connection of `peerId`, and a connection of `good` always gets it. */
    method BroadcastStep(peerId: string, message: P2PMessage, failing: set<string>,
                         ghost ps0: map<string, Socket>, ghost cp0: map<string, PeerInfo>,
                         ghost sent0: map<Socket, seq<P2PMessage>>, ghost closed0: map<Socket, bool>,
                         ghost good: set<Socket>, ghost ids: set<string>)
      requires SendState(ps0, cp0, sent0, closed0, good, message, failing, ids)
      requires peerId in ids
      modifies this, Connections
      ensures Connections == old(Connections)
      ensures running == old(running) && messageListeners == old(messageListeners)
      ensures SendState(ps0, cp0, sent0, closed0, good, message, failing, ids - {peerId})
    {
      var target := peerSockets[peerId];
      ghost var wrote := !target.closed && peerId !in failing;
      ghost var drops := SendDrops(peerId, peerId in failing);
      ghost var ps, cp := peerSockets, connectedPeers;
      if target in good {
        assert peerId in Senders(ps0, target);
      }
      SendToPeer(peerId, message, peerId in failing);
      RegistryStep(ps0, cp0, ps, cp, peerSockets, connectedPeers, failing, ids, peerId, drops);
      assert target in ps0.Values;
      SocketsStep(Connections, target, wrote, sent0, closed0, good, ps0.Values, message);
      ShutStep(Connections, ps0, ps, peerSockets, peerId, drops);
      ReceivedStep(ps0, sent0, good, ids, peerId);
    }

    /** One round of the heartbeat at time `now`: exactly the peers last
        seen more than 60000 ms ago are removed, and their connections
        closed; every other peer stays. */
    method SweepInactivePeers(now: int)
      requires Valid()
      modifies this, Connections
      ensures Valid() && Connections == old(Connections)
      ensures running == old(running) && messageListeners == old(messageListeners)
      ensures connectedPeers == old(connectedPeers) - old(Inactive(now))
      ensures peerSockets == old(peerSockets) - old(Inactive(now))
      ensures forall id | id in old(Inactive(now)) :: old(peerSockets)[id].closed
      ensures forall s | s in Connections :: s.sent == old(s.sent) && (old(s.closed) ==> s.closed)
      ensures forall s | s in Connections && s !in SocketsOf(old(peerSockets), old(Inactive(now))) ::
        s.closed == old(s.closed)
    {
      ghost var dead := Inactive(now);
      var deadPeers: seq<string> := [];
      var entries := connectedPeers.Keys;
      while entries != {}
        invariant entries <= connectedPeers.Keys
        invariant forall id | id in deadPeers :: id in dead
        invariant forall id | id in dead && id !in entries :: id in deadPeers
        decreases entries
      {
        var peerId :| peerId in entries;
        if now - connectedPeers[peerId].lastSeen > PeerTimeout {
          deadPeers := deadPeers + [peerId];
        }
        entries := entries - {peerId};
      }
      RemoveAll(deadPeers);
      assert (set id | id in deadPeers) == dead;
    }

    /** The second half of the sweep: removePeer for each listed id. */
    method RemoveAll(ids: seq<string>)
      requires Valid()
      modifies this, Connections
      ensures Valid() && Connections == old(Connections)
      ensures running == old(running) && messageListeners == old(messageListeners)
      ensures connectedPeers == old(connectedPeers) - set id | id in ids
      ensures peerSockets == old(peerSockets) - set id | id in ids
      ensures forall id | id in ids && id in old(peerSockets) :: old(peerSockets)[id].closed
      ensures forall s | s in Connections :: s.sent == old(s.sent) && (old(s.closed) ==> s.closed)
      ensures forall s | s in Connections && s !in SocketsOf(old(peerSockets), set id | id in ids) ::
        s.closed == old(s.closed)
    {
      ghost var ps0, cp0 := peerSockets, connectedPeers;
      ghost var sent0: map<Socket, seq<P2PMessage>> := map s | s in Connections :: s.sent;
      ghost var closed0: map<Socket, bool> := map s | s in Connections :: s.closed;
      ghost var removed: set<string> := {};
      var i := 0;
      while i < |ids|
        invariant 0 <= i <= |ids|
        invariant Connections == old(Connections)
        invariant running == old(running) && messageListeners == old(messageListeners)
        invariant removed == set j | 0 <= j < i :: ids[j]
        invariant SweptState(ps0, cp0, sent0, closed0, removed)
      {
        RemoveStep(ids[i], ps0, cp0, sent0, closed0, removed);
        removed := removed + {ids[i]};
        i := i + 1;
      }
      assert removed == set id | id in ids;
      forall s | s in Connections
        ensures s.sent == old(s.sent) && (old(s.closed) ==> s.closed)
        ensures s !in SocketsOf(ps0, removed) ==> s.closed == old(s.closed)
      {
      }
    }

    /** The registry and connections after removePeer has been called for
        `removed`, against the registry `ps0`, `cp0` and the connection
        states `sent0`, `closed0` before the first call. */
    ghost predicate SweptState(ps0: map<string, Socket>, cp0: map<string, PeerInfo>,
                               sent0: map<Socket, seq<P2PMessage>>, closed0: map<Socket, bool>, removed: set<string>)
      reads this, Connections, ps0.Values
    {
      && Valid()
      && connectedPeers == cp0 - removed
      && peerSockets == ps0 - removed
      && (forall id | id in removed && id in ps0 :: ps0[id].closed)
      && forall s | s in Connections ::
        && s in sent0 && s in closed0
        && s.sent == sent0[s] && (closed0[s] ==> s.closed)
        && (s !in SocketsOf(ps0, removed) ==> s.closed == closed0[s])
    }

    /** One turn of removeAll: removePeer for `p` keeps SweptState with
        `p` added to the removed ids. */
    method RemoveStep(p: string, ghost ps0: map<string, Socket>, ghost cp0: map<string, PeerInfo>,
                      ghost sent0: map<Socket, seq<P2PMessage>>, ghost closed0: map<Socket, bool>, ghost removed: set<string>)
      requires SweptState(ps0, cp0, sent0, closed0, removed)
      modifies this, Connections
      ensures Connections == old(Connections)
      ensures running == old(running) && messageListeners == old(messageListeners)
      ensures SweptState(ps0, cp0, sent0, closed0, removed + {p})
    {
      if p in peerSockets {
        assert peerSockets[p] in SocketsOf(ps0, removed + {p});
      }
      assert SocketsOf(ps0, removed) <= SocketsOf(ps0, removed + {p});
      RemovePeer(p);
    }

    /** stop: nothing happens when the node is not running. Otherwise it
        stops running, broadcasts a DISCONNECT from itself (made at time
        `now`, returned as `disconnect`), and closes the connection of
        every peer it still knows; the registry itself is not cleared. In
        the end every connection of a peer known at the start is closed;
        those of the peers whose connection was open and carried no failing
        id were sent the DISCONNECT first. */
    method Stop(now: string, failing: set<string>) returns (ghost disconnect: P2PMessage?)
      requires Valid()
      modifies this, Connections
      ensures Valid() && !running && Connections == old(Connections)
      ensures messageListeners == old(messageListeners)
      ensures !old(running) ==> connectedPeers == old(connectedPeers) && peerSockets == old(peerSockets)
      ensures !old(running) ==> forall s | s in Connections :: s.sent == old(s.sent) && s.closed == old(s.closed)
      ensures old(running) ==> disconnect != null && fresh(disconnect)
      ensures old(running) ==> disconnect.Value() == MessageValue(Disconnect, nodeId, nodeName, Null, now)
      ensures old(running) ==> forall id | id in peerSockets ::
        id in old(peerSockets) && peerSockets[id] == old(peerSockets)[id] && connectedPeers[id] == old(connectedPeers)[id]
      ensures old(running) ==> forall id | id in old(peerSockets) && id !in peerSockets :: id in failing
      ensures old(running) ==> forall id | id in old(peerSockets) :: old(peerSockets)[id].closed
      ensures old(running) ==> forall s | s in Connections :: WrittenSince(old(s.sent), s.sent, disconnect)
      ensures old(running) ==> forall s | s in Connections && old(s.closed) :: s.closed && s.sent == old(s.sent)
      ensures old(running) ==> forall s | s in Connections && s !in old(peerSockets).Values ::
        s.closed == old(s.closed) && s.sent == old(s.sent)
      ensures old(running) ==> forall id | id in old(peerSockets) && !old(peerSockets[id].closed) &&
                                           Senders(old(peerSockets), old(peerSockets)[id]) !! failing ::
        |old(peerSockets[id].sent)| < |old(peerSockets)[id].sent|
    {
      if !running {
        return null;
      }
      running := false;
      var disconnectMsg := new P2PMessage(Disconnect, nodeId, nodeName, Null, now);
      disconnect := disconnectMsg;
      Broadcast(disconnectMsg, failing);
      CloseAll();
    }

    /** The last step of stop: every connection in the registry is closed;
        nothing is written, and the registry and every other connection
        stay as they are. */
    method CloseAll()
      requires Valid()
      modifies Connections
      ensures forall id | id in peerSockets :: peerSockets[id].closed
      ensures forall s | s in Connections :: s.sent == old(s.sent)
      ensures forall s | s in Connections && s !in peerSockets.Values :: s.closed == old(s.closed)
    {
      var sockets := peerSockets.Values;
      while sockets != {}
        invariant sockets <= peerSockets.Values
        invariant forall id | id in peerSockets && peerSockets[id] !in sockets :: peerSockets[id].closed
        invariant forall s | s in Connections :: s.sent == old(s.sent)
        invariant forall s | s in Connections && s !in peerSockets.Values :: s.closed == old(s.closed)
        decreases sockets
      {
        var socket :| socket in sockets;
        assert exists id | id in peerSockets :: peerSockets[id] == socket;
        socket.Close();
        sockets := sockets - {socket};
      }
    }

    /** connectToPeer: on success a new connection carries a CONNECT with
        this node's own PeerInfo (its local address `localIp`, the clock at
        `now`, the message made at `timestamp`). The remote peer is not
        registered on this side: the node does not change either way. */
    method ConnectToPeer(ipAddress: string, remotePort: int, connectSucceeds: bool, localIp: string, now: int, timestamp: string)
      returns (ok: bool, socket: Socket?)
      ensures ok == connectSucceeds
      ensures ok ==> socket != null && fresh(socket) && !socket.closed && |socket.sent| == 1
      ensures ok ==> var m := socket.sent[0];
        && m.msgType == Connect && m.senderId == nodeId && m.senderName == nodeName
        && m.payload.PeerPayload?
        && m.payload.peer.Value() == PeerValue(nodeId, nodeName, localIp, port, true, now)
    {
      if !connectSucceeds {
        return false, null;
      }
      socket := new Socket();
      var self := new PeerInfo(nodeId, nodeName, localIp, port, now);
      var connectMsg := new P2PMessage(Connect, nodeId, nodeName, PeerPayload(self), timestamp);
      socket.Write(connectMsg);
      ok := true;
    }

    /** The switch of handlePeerConnection for one message received on
        `socket`: CONNECT registers the sender's PeerInfo and `socket`,
        DISCONNECT removes the sender and closes its connection, the four
        sharing and chat kinds only reach the listeners, and DISCOVER,
        REQUEST_PAGE and SYNC_REQUEST change nothing. No message writes to
        a connection or refreshes a peer's lastSeen. `ok` is false when
        handling the message threw: the switch changed nothing, but the
        exception leaves the try-with-resources of handlePeerConnection,
        which closes the stream and with it `socket`. */
    method HandleMessage(message: P2PMessage, socket: Socket) returns (ok: bool)
      requires Valid()
      modifies this, Connections, messageListeners, socket
      ensures Valid()
      ensures running == old(running) && messageListeners == old(messageListeners)
      ensures ok <==> !(old(message.msgType).Connect? && !old(message.payload).PeerPayload?)
      ensures old(message.msgType).Connect? && ok ==> var info := old(message.payload).peer;
        && connectedPeers == old(connectedPeers)[old(info.peerId) := info]
        && peerSockets == old(peerSockets)[old(info.peerId) := socket]
        && Connections == old(Connections) + {socket}
      ensures !(old(message.msgType).Connect? && ok) ==> Connections == old(Connections)
      ensures old(message.msgType).Disconnect? ==>
        && connectedPeers == old(connectedPeers) - {old(message.senderId)}
        && peerSockets == old(peerSockets) - {old(message.senderId)}
        && (old(message.senderId) in old(peerSockets) ==> old(peerSockets)[old(message.senderId)].closed)
      ensures old(message.msgType) !in {Connect, Disconnect} || !ok ==>
        connectedPeers == old(connectedPeers) && peerSockets == old(peerSockets)
      ensures !ok ==> socket.closed && socket.sent == old(socket.sent)
      ensures forall s | s in old(Connections) :: s.sent == old(s.sent)
      ensures forall s | s in old(Connections) && (ok || s != socket) &&
                         !(old(message.msgType).Disconnect? && old(message.senderId) in old(peerSockets) &&
                           s == old(peerSockets)[old(message.senderId)]) ::
        s.closed == old(s.closed)
      ensures old(message.msgType) in {Discover, RequestPage, SyncRequest} || !ok ==>
        forall l | l in messageListeners :: l.received == old(l.received)
      ensures old(message.msgType) !in {Discover, RequestPage, SyncRequest} && ok ==>
        forall l | l in messageListeners :: l.received == old(l.received) + Repeat(message, Deliveries(messageListeners, l))
      ensures forall p | p in old(connectedPeers.Values) :: p.lastSeen == old(p.lastSeen)
    {
      match message.msgType {
        case Connect =>
          ok := HandleConnectMessage(message, socket);
          if !ok {
            socket.Close();
          }
        case Disconnect =>
          HandleDisconnectMessage(message);
          ok := true;
        case ShareHistory =>
          NotifyListeners(message);
          ok := true;
        case ShareBookmark =>
          NotifyListeners(message);
          ok := true;
        case SharePage =>
          NotifyListeners(message);
          ok := true;
        case ChatMessage =>
          NotifyListeners(message);
          ok := true;
        case _ =>
          ok := true;
      }
    }

    method AddMessageListener(listener: Listener)
      modifies this
      ensures messageListeners == old(messageListeners) + [listener]
      ensures running == old(running) && Connections == old(Connections)
      ensures connectedPeers == old(connectedPeers) && peerSockets == old(peerSockets)
    {
      messageListeners := messageListeners + [listener];
    }

    /** getConnectedPeers: a copy of the registry. The map is a value, so
        later changes to the node's registry do not show in it. */
    method GetConnectedPeers() returns (peers: map<string, PeerInfo>)
      ensures peers == connectedPeers
    {
      peers := connectedPeers;
    }
  }
}
