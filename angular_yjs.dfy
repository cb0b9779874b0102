/**
  The deployed `EasyRTCConnector` (frontend/js/angular-yjs.js). The peer list
  stays undefined until the transport's connection resolves; at that moment
  the connector calls the engine's `init` and takes the transport's list of
  opened data channels as its peer list. Channel-open events are ignored until
  the engine is initialised.
 */
module AngularYjs {
  import opened Wrappers
  import opened JsArrays
  import opened Engine
  import opened Transport

  /**
    The resolution keeps the balance: the snapshot's peers are handed over,
    the `init` call announces nobody, and the drain, when the engine is
    initialised, moves the whole snapshot from pending to announced.
   */
  lemma ResolveKeepsBalance(calls: seq<EngineCall>, withdrawn: multiset<PeerId>, handedOver: multiset<PeerId>,
                            localId: PeerId, openChannels: seq<PeerId>, initialised: bool)
    requires Balanced(calls, multiset{}, withdrawn, handedOver)
    ensures Balanced(calls + [Init(Slave, SyncAll, localId)]
                       + (if initialised then JoinCalls(openChannels) else []),
                     multiset(if initialised then [] else openChannels),
                     withdrawn, handedOver + multiset(openChannels))
  {
    var initCalls := calls + [Init(Slave, SyncAll, localId)];
    JoinedPeersOtherCall(calls, Init(Slave, SyncAll, localId));
    if initialised {
      DrainConserves(initCalls, openChannels);
    } else {
      assert initCalls + [] == initCalls;
    }
  }

  class EasyRtcConnector {
    /** `connected_peers`: `None` while it is still undefined. */
    var connectedPeers: Option<seq<PeerId>>
    /** `is_initialized`, set by the engine's `init`. */
    var isInitialized: bool
    /** `is_bound_to_y`, set by the engine when it attaches to the connector. */
    var isBoundToY: bool
    /** `on_bound_to_y`, the callback the engine would run on attaching. */
    var onBoundToY: Option<Callback>
    /** Every call made on the engine so far, oldest first. */
    var engineCalls: seq<EngineCall>
    /** Every `sendData` and `broadcastData` call made on the transport so far, oldest first. */
    var transportCalls: seq<TransportCall>

    /** Whether the `connection()` promise has resolved or rejected. */
    ghost var connectionSettled: bool
    /** Every peer id given to the connector for announcement, with repetitions. */
    ghost var handedOver: multiset<PeerId>
    /** The entries that a close took out of the list before they were announced. */
    ghost var withdrawn: multiset<PeerId>

    /** The entries still waiting in `connected_peers`. */
    ghost function Pending(): multiset<PeerId>
      reads this
    {
      if connectedPeers.Some? then multiset(connectedPeers.value) else multiset{}
    }

    /**
      The connector's invariant: nothing happens before the connection
      settles; an initialised connector has an empty, defined peer list; and
      every peer handed over is announced once, still pending, or withdrawn.
     */
    ghost predicate Valid()
      reads this
    {
      && (!connectionSettled ==> connectedPeers == None && !isInitialized)
      && (isInitialized ==> connectedPeers == Some([]))
      && Balanced(engineCalls, Pending(), withdrawn, handedOver)
    }

    constructor ()
      ensures Valid()
      ensures connectedPeers == None && !isInitialized && !isBoundToY && onBoundToY == None
      ensures engineCalls == [] && transportCalls == []
      ensures !connectionSettled
    {
      connectedPeers := None;
      isInitialized, isBoundToY := false, false;
      onBoundToY := None;
      engineCalls, transportCalls := [], [];
      connectionSettled := false;
      handedOver, withdrawn := multiset{}, multiset{};
    }

    /** The engine attaches to the connector and sets `is_bound_to_y`. */
    method EngineBound()
      requires Valid()
      modifies this`isBoundToY
      ensures Valid() && isBoundToY
    {
      isBoundToY := true;
    }

    /** `connected_peers.pop()`: `None` (undefined) on an empty list. */
    method PopPeer() returns (peer: Option<PeerId>)
      requires connectedPeers.Some?
      modifies this`connectedPeers
      ensures connectedPeers.Some?
      ensures old(connectedPeers.value) == [] ==> peer == None && connectedPeers == old(connectedPeers)
      ensures old(connectedPeers.value) != [] ==>
                peer.Some? && old(connectedPeers.value) == connectedPeers.value + [peer.value]
    {
      var peers := connectedPeers.value;
      if |peers| == 0 {
        peer := None;
      } else {
        peer := Some(peers[|peers| - 1]);
        connectedPeers := Some(peers[..|peers| - 1]);
      }
    }

    /**
      `add_missing_peers`: when initialised, pops the list until it is empty
      and announces each popped peer as a slave; otherwise does nothing.
     */
    method AddMissingPeers()
      requires connectedPeers.Some?
      modifies this`connectedPeers, this`engineCalls
      ensures !isInitialized ==> connectedPeers == old(connectedPeers) && engineCalls == old(engineCalls)
      ensures isInitialized ==> connectedPeers == Some([])
      ensures isInitialized ==> engineCalls == old(engineCalls) + JoinCalls(old(connectedPeers.value))
    {
      if isInitialized {
        ghost var drained: seq<PeerId> := [];
        var peer := PopPeer();
        while peer.Some?
          invariant connectedPeers.Some?
          invariant old(connectedPeers.value) == connectedPeers.value + (if peer.Some? then [peer.value] else []) + drained
          invariant peer.None? ==> connectedPeers.value == []
          invariant engineCalls == old(engineCalls) + JoinCalls(drained)
          decreases |connectedPeers.value| + (if peer.Some? then 1 else 0)
        {
          engineCalls := engineCalls + [UserJoined(peer.value, Slave)];
          JoinCallsAppend([peer.value], drained);
          drained := [peer.value] + drained;
          peer := PopPeer();
        }
      }
    }

    /**
      `when_bound_to_y`: calls `init` with role slave, method syncAll and the
      local id, replaces the peer list by the transport's opened channels and
      drains it. Whether `init` sets `is_initialized` is up to the engine and is
      given as `engineInitialisesOnInit`.
     */
    method WhenBoundToY(localId: PeerId, openChannels: seq<PeerId>, engineInitialisesOnInit: bool)
      requires connectedPeers == None && !isInitialized
      modifies this`engineCalls, this`connectedPeers, this`isInitialized, this`handedOver
      ensures isInitialized == engineInitialisesOnInit
      ensures connectedPeers == Some(if isInitialized then [] else openChannels)
      ensures engineCalls == old(engineCalls) + [Init(Slave, SyncAll, localId)]
                             + (if isInitialized then JoinCalls(openChannels) else [])
      ensures handedOver == old(handedOver) + multiset(openChannels)
    {
      JoinedPeersOtherCall(engineCalls, Init(Slave, SyncAll, localId));
      engineCalls := engineCalls + [Init(Slave, SyncAll, localId)];
      isInitialized := engineInitialisesOnInit;
      connectedPeers := Some(openChannels);
      handedOver := handedOver + multiset(openChannels);
      AddMissingPeers();
    }

    /**
      The `connection()` promise resolves: `when_bound_to_y` runs at once on
      both branches; on the unbound branch its result, undefined, is what
      `on_bound_to_y` receives.
     */
    method OnConnectionResolved(localId: PeerId, openChannels: seq<PeerId>, engineInitialisesOnInit: bool)
      requires Valid() && !connectionSettled
      modifies this
      ensures Valid() && connectionSettled
      ensures isBoundToY == old(isBoundToY)
      ensures onBoundToY == if isBoundToY then old(onBoundToY) else None
      ensures isInitialized == engineInitialisesOnInit
      ensures connectedPeers == Some(if isInitialized then [] else openChannels)
      ensures engineCalls == old(engineCalls) + [Init(Slave, SyncAll, localId)]
                             + (if isInitialized then JoinCalls(openChannels) else [])
      ensures transportCalls == old(transportCalls)
    {
      if isBoundToY {
        WhenBoundToY(localId, openChannels, engineInitialisesOnInit);
      } else {
        WhenBoundToY(localId, openChannels, engineInitialisesOnInit);
        onBoundToY := None;
      }
      connectionSettled := true;
      ResolveKeepsBalance(old(engineCalls), withdrawn, old(handedOver), localId, openChannels, isInitialized);
    }

    /** The `connection()` promise rejects: only a log line, the peer list stays undefined. */
    method OnConnectionRejected(errorCode: string, message: string)
      requires Valid() && !connectionSettled
      modifies this`connectionSettled
      ensures Valid() && connectionSettled
      ensures connectedPeers == None && !isInitialized
      ensures engineCalls == old(engineCalls)
    {
      connectionSettled := true;
    }

    /**
      A data channel opens: ignored before initialisation; afterwards the peer
      is pushed and drained at once, giving exactly one `userJoined`.
     */
    method OnDataChannelOpen(peerId: PeerId)
      requires Valid()
      modifies this`connectedPeers, this`engineCalls, this`handedOver
      ensures Valid()
      ensures connectedPeers == old(connectedPeers)
      ensures engineCalls == old(engineCalls) + (if isInitialized then [UserJoined(peerId, Slave)] else [])
    {
      if isInitialized {
        ghost var announcedBefore := JoinedPeers(engineCalls);
        connectedPeers := Some(connectedPeers.value + [peerId]);
        handedOver := handedOver + multiset{peerId};
        AddMissingPeers();
        assert engineCalls == old(engineCalls) + [UserJoined(peerId, Slave)];
        JoinedPeersJoinCall(old(engineCalls), peerId, Slave);
        assert JoinedPeers(engineCalls) == announcedBefore + multiset{peerId};
        assert Pending() == multiset{};
        assert announcedBefore + withdrawn == old(handedOver);
      }
    }

    /**
      The gate in front of `receiveMessage` and `userLeft`: the call reaches
      the engine only when it is initialised.
     */
    method NotifyIfInitialized(call: EngineCall)
      requires Valid() && !call.UserJoined?
      modifies this`engineCalls
      ensures Valid()
      ensures engineCalls == old(engineCalls) + (if isInitialized then [call] else [])
    {
      if isInitialized {
        JoinedPeersOtherCall(engineCalls, call);
        engineCalls := engineCalls + [call];
      }
    }

    /** A message arrives on the `yjs` channel: passed to the engine only when initialised. */
    method OnPeerMessage(id: PeerId, msgType: string, msgData: Message)
      requires Valid()
      modifies this`engineCalls
      ensures Valid()
      ensures engineCalls == old(engineCalls) + (if isInitialized then [ReceiveMessage(id, msgData)] else [])
    {
      NotifyIfInitialized(ReceiveMessage(id, msgData));
    }

    /**
      `var index = connected_peers.indexOf(peerId); if (index > -1)
      connected_peers.splice(index, 1);`: the first entry for the peer leaves
      the list.
     */
    method RemoveListed(peerId: PeerId)
      requires Valid() && connectedPeers.Some?
      modifies this`connectedPeers, this`withdrawn
      ensures Valid()
      ensures connectedPeers == Some(RemoveFirst(old(connectedPeers.value), peerId))
    {
      var index := IndexOf(connectedPeers.value, peerId);
      if index > -1 {
        RemoveFirstMultiset(connectedPeers.value, peerId);
        connectedPeers := Some(Splice(connectedPeers.value, index));
        withdrawn := withdrawn + multiset{peerId};
        assert Pending() + multiset{peerId} == old(Pending());
      }
    }

    /**
      A data channel closes. On a defined list the first entry for the peer
      leaves it, and `userLeft` is called whenever the engine is initialised,
      listed or not. On an undefined list (before the connection resolves, or
      after it rejected) `indexOf` throws a TypeError: the listener stops
      there, nothing changes, and `faulted` reports the exception.
     */
    method OnDataChannelClose(peerId: PeerId) returns (faulted: bool)
      requires Valid()
      modifies this`connectedPeers, this`engineCalls, this`withdrawn
      ensures Valid()
      ensures faulted <==> old(connectedPeers).None?
      ensures faulted ==> !isInitialized && connectedPeers == old(connectedPeers) && engineCalls == old(engineCalls)
      ensures !faulted ==> connectedPeers == Some(RemoveFirst(old(connectedPeers).value, peerId))
      ensures !faulted ==> engineCalls == old(engineCalls) + (if isInitialized then [UserLeft(peerId)] else [])
    {
      if connectedPeers.None? {
        return true;
      }
      faulted := false;
      RemoveListed(peerId);
      NotifyIfInitialized(UserLeft(peerId));
    }

    /** `send`: the message goes to the transport as it is, without `JSON.stringify`. */
    method Send(userId: PeerId, message: Message)
      modifies this`transportCalls
      ensures transportCalls == old(transportCalls) + [SendData(userId, Channel, Raw(message))]
    {
      transportCalls := transportCalls + [SendData(userId, Channel, Raw(message))];
    }

    /** `broadcast`: the stringified message goes to every peer on the `yjs` channel. */
    method Broadcast(message: Message)
      modifies this`transportCalls
      ensures transportCalls == old(transportCalls) + [BroadcastData(Channel, Stringified(message))]
    {
      transportCalls := transportCalls + [BroadcastData(Channel, Stringified(message))];
    }
  }

  /**
    A channel that opens before the connection resolves is ignored by the
    open listener, yet announced once: it is in the transport's snapshot that
    `when_bound_to_y` takes as the peer list.
   */
  method EarlyPeerScenario(localId: PeerId, p: PeerId) returns (calls: seq<EngineCall>, peers: Option<seq<PeerId>>)
    ensures calls == [Init(Slave, SyncAll, localId), UserJoined(p, Slave)]
    ensures multiset(calls)[UserJoined(p, Slave)] == 1
    ensures peers == Some([])
  {
    var c := new EasyRtcConnector();
    c.OnDataChannelOpen(p);
    c.OnConnectionResolved(localId, [p], true);
    calls, peers := c.engineCalls, c.connectedPeers;
    JoinCallsCount([p], p);
  }

  /**
    A rejected connection never reaches `init`: the peer list stays
    undefined, later open and message events reach nobody, and a close
    throws on the undefined list.
   */
  method RejectedScenario(errorCode: string, message: string, p: PeerId, data: Message)
    returns (calls: seq<EngineCall>, peers: Option<seq<PeerId>>, closeFaulted: bool)
    ensures calls == []
    ensures peers == None
    ensures closeFaulted
  {
    var c := new EasyRtcConnector();
    c.OnConnectionRejected(errorCode, message);
    c.OnDataChannelOpen(p);
    c.OnPeerMessage(p, "data", data);
    closeFaulted := c.OnDataChannelClose(p);
    calls, peers := c.engineCalls, c.connectedPeers;
  }

  /**
    The connection resolves before the engine is bound: `init` is still
    called, `on_bound_to_y` ends up undefined, and with an engine that did not
    initialise the snapshot stays in the list unannounced.
   */
  method UnboundResolutionScenario(localId: PeerId, channels: seq<PeerId>)
    returns (calls: seq<EngineCall>, callback: Option<Callback>, peers: Option<seq<PeerId>>)
    ensures calls == [Init(Slave, SyncAll, localId)]
    ensures callback == None
    ensures peers == Some(channels)
  {
    var c := new EasyRtcConnector();
    c.OnConnectionResolved(localId, channels, false);
    calls, callback, peers := c.engineCalls, c.onBoundToY, c.connectedPeers;
  }

  /** A close for a peer that was never listed still calls `userLeft` on an initialised engine. */
  method UnknownCloseScenario(localId: PeerId, p: PeerId)
    returns (calls: seq<EngineCall>, peers: Option<seq<PeerId>>, faulted: bool)
    ensures calls == [Init(Slave, SyncAll, localId), UserLeft(p)]
    ensures peers == Some([])
    ensures !faulted
  {
    var c := new EasyRtcConnector();
    c.OnConnectionResolved(localId, [], true);
    faulted := c.OnDataChannelClose(p);
    calls, peers := c.engineCalls, c.connectedPeers;
  }
}
