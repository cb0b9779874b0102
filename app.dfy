/**
  The older `EasyRTCConnector` (frontend/js/app.js). The peer list starts
  empty and every channel-open event queues the peer, calls the engine's
  `init` again and drains the queue; nothing waits for a connection promise.
 */
module App {
  import opened Wrappers
  import opened JsArrays
  import opened Engine
  import opened Transport

  /**
    The open listener keeps the balance: pushing the peer adds it to the
    handed-over peers, the `init` call announces nobody, and the drain moves
    the whole queue, new peer included, from queued to announced.
   */
  lemma OpenKeepsBalance(calls: seq<EngineCall>, queued: seq<PeerId>, withdrawn: multiset<PeerId>,
                         handedOver: multiset<PeerId>, peerId: PeerId, localId: PeerId, initialised: bool)
    requires Balanced(calls, multiset(queued), withdrawn, handedOver)
    ensures Balanced(calls + [Init(Slave, SyncAll, localId)]
                       + (if initialised then JoinCalls(queued + [peerId]) else []),
                     multiset(if initialised then [] else queued + [peerId]),
                     withdrawn, handedOver + multiset{peerId})
  {
    var initCalls := calls + [Init(Slave, SyncAll, localId)];
    JoinedPeersOtherCall(calls, Init(Slave, SyncAll, localId));
    if initialised {
      DrainConserves(initCalls, queued + [peerId]);
    } else {
      assert initCalls + [] == initCalls;
    }
  }

  class EasyRtcConnector {
    /** `connected_peers`: the peers queued for a `userJoined`. */
    var connectedPeers: seq<PeerId>
    /** `is_initialized`, set by the engine's `init`. */
    var isInitialized: bool
    /** `is_bound_to_y`, set by the engine when it attaches to the connector. */
    var isBoundToY: bool
    /** `on_bound_to_y`, the callback the engine would run on attaching. */
    var onBoundToY: Option<Callback>
    /** Every call made on the engine so far, oldest first. */
    var engineCalls: seq<EngineCall>
    /** Every `sendData` and `broadcastData` call made on the transport so far, oldest first. */
    var transportCalls: seq<TransportCall>

    /** Every peer id an open event pushed, with repetitions. */
    ghost var handedOver: multiset<PeerId>
    /** The entries that a close took out of the queue before they were announced. */
    ghost var withdrawn: multiset<PeerId>

    /** Every pushed peer is announced once, still queued, or withdrawn by a close. */
    ghost predicate Conserved()
      reads this
    {
      Balanced(engineCalls, multiset(connectedPeers), withdrawn, handedOver)
    }

    /** The connector's invariant: an initialised connector has drained its queue. */
    ghost predicate Valid()
      reads this
    {
      (isInitialized ==> connectedPeers == []) && Conserved()
    }

    constructor ()
      ensures Valid()
      ensures connectedPeers == [] && !isInitialized && !isBoundToY && onBoundToY == None
      ensures engineCalls == [] && transportCalls == []
    {
      connectedPeers := [];
      isInitialized, isBoundToY := false, false;
      onBoundToY := None;
      engineCalls, transportCalls := [], [];
      handedOver, withdrawn := multiset{}, multiset{};
    }

    /** The engine attaches to the connector and sets `is_bound_to_y`. */
    method EngineBound()
      requires Valid()
      modifies this`isBoundToY
      ensures Valid() && isBoundToY
    {
      isBoundToY := true;
    }

    /** `connected_peers.pop()`: `None` (undefined) on an empty list. */
    method PopPeer() returns (peer: Option<PeerId>)
      modifies this`connectedPeers
      ensures old(connectedPeers) == [] ==> peer == None && connectedPeers == []
      ensures old(connectedPeers) != [] ==> peer.Some? && old(connectedPeers) == connectedPeers + [peer.value]
    {
      if |connectedPeers| == 0 {
        peer := None;
      } else {
        peer := Some(connectedPeers[|connectedPeers| - 1]);
        connectedPeers := connectedPeers[..|connectedPeers| - 1];
      }
    }

    /**
      `add_missing_peers`: when initialised, pops the queue until it is empty
      and announces each popped peer as a slave; otherwise does nothing.
     */
    method AddMissingPeers()
      modifies this`connectedPeers, this`engineCalls
      ensures !isInitialized ==> connectedPeers == old(connectedPeers) && engineCalls == old(engineCalls)
      ensures isInitialized ==> connectedPeers == []
      ensures isInitialized ==> engineCalls == old(engineCalls) + JoinCalls(old(connectedPeers))
    {
      if isInitialized {
        ghost var drained: seq<PeerId> := [];
        var peer := PopPeer();
        while peer.Some?
          invariant old(connectedPeers) == connectedPeers + (if peer.Some? then [peer.value] else []) + drained
          invariant peer.None? ==> connectedPeers == []
          invariant engineCalls == old(engineCalls) + JoinCalls(drained)
          decreases |connectedPeers| + (if peer.Some? then 1 else 0)
        {
          engineCalls := engineCalls + [UserJoined(peer.value, Slave)];
          JoinCallsAppend([peer.value], drained);
          drained := [peer.value] + drained;
          peer := PopPeer();
        }
      }
    }

    /**
      `when_bound_to_y`: calls `init` with role slave, method syncAll and the
      value of `webrtc.myEasyrtcid`, then drains the queue. Whether `init`
      sets `is_initialized` is up to the engine and is given as
      `engineInitialisesOnInit`.
     */
    method WhenBoundToY(localId: PeerId, engineInitialisesOnInit: bool)
      modifies this`engineCalls, this`connectedPeers, this`isInitialized
      ensures isInitialized == (old(isInitialized) || engineInitialisesOnInit)
      ensures connectedPeers == if isInitialized then [] else old(connectedPeers)
      ensures engineCalls == old(engineCalls) + [Init(Slave, SyncAll, localId)]
                             + (if isInitialized then JoinCalls(old(connectedPeers)) else [])
    {
      engineCalls := engineCalls + [Init(Slave, SyncAll, localId)];
      if engineInitialisesOnInit {
        isInitialized := true;
      }
      AddMissingPeers();
    }

    /**
      The body of the open listener: the peer is pushed first, `init` runs
      again through either branch (on the unbound one the undefined result of
      `when_bound_to_y` is what `on_bound_to_y` receives), and
      `add_missing_peers` runs once more on the already drained queue.
     */
    method OpenSteps(peerId: PeerId, localId: PeerId, engineInitialisesOnInit: bool)
      modifies this`connectedPeers, this`handedOver, this`engineCalls, this`isInitialized, this`onBoundToY
      ensures handedOver == old(handedOver) + multiset{peerId}
      ensures onBoundToY == if isBoundToY then old(onBoundToY) else None
      ensures isInitialized == (old(isInitialized) || engineInitialisesOnInit)
      ensures connectedPeers == if isInitialized then [] else old(connectedPeers) + [peerId]
      ensures engineCalls == old(engineCalls) + [Init(Slave, SyncAll, localId)]
                             + (if isInitialized then JoinCalls(old(connectedPeers) + [peerId]) else [])
    {
      connectedPeers := connectedPeers + [peerId];
      handedOver := handedOver + multiset{peerId};
      if isBoundToY {
        WhenBoundToY(localId, engineInitialisesOnInit);
      } else {
        WhenBoundToY(localId, engineInitialisesOnInit);
        onBoundToY := None;
      }
      ghost var bound := engineCalls;
      AddMissingPeers();
      assert engineCalls == bound by {
        assert isInitialized ==> JoinCalls([]) == [] && bound + [] == bound;
      }
    }

    /**
      A data channel opens: the new state is the one `OpenSteps` gives, and
      the invariant is kept. The steps and the invariant are split over two
      methods, and the balance is proved on values by `OpenKeepsBalance`, so
      that no proof has to carry the multiset balance across the several heap
      states of the listener's body.

      The peer is announced exactly once in the end:
      either the drain of this event announces it, or it stays queued.
     */
    method OnDataChannelOpen(peerId: PeerId, localId: PeerId, engineInitialisesOnInit: bool)
      requires Valid()
      modifies this`connectedPeers, this`handedOver, this`engineCalls, this`isInitialized, this`onBoundToY
      ensures Valid()
      ensures onBoundToY == if isBoundToY then old(onBoundToY) else None
      ensures isInitialized == (old(isInitialized) || engineInitialisesOnInit)
      ensures connectedPeers == if isInitialized then [] else old(connectedPeers) + [peerId]
      ensures engineCalls == old(engineCalls) + [Init(Slave, SyncAll, localId)]
                             + (if isInitialized then JoinCalls(old(connectedPeers) + [peerId]) else [])
    {
      OpenSteps(peerId, localId, engineInitialisesOnInit);
      OpenKeepsBalance(old(engineCalls), old(connectedPeers), withdrawn, old(handedOver), peerId, localId, isInitialized);
    }

    /**
      The gate in front of `receiveMessage` and `userLeft`: the call reaches
      the engine only when it is initialised.
     */
    method NotifyIfInitialized(call: EngineCall)
      requires Valid() && !call.UserJoined?
      modifies this`engineCalls
      ensures Valid()
      ensures engineCalls == old(engineCalls) + (if isInitialized then [call] else [])
    {
      if isInitialized {
        JoinedPeersOtherCall(engineCalls, call);
        engineCalls := engineCalls + [call];
      }
    }

    /** A message arrives on the `yjs` channel: passed to the engine only when initialised. */
    method OnPeerMessage(id: PeerId, msgType: string, msgData: Message)
      requires Valid()
      modifies this`engineCalls
      ensures Valid()
      ensures engineCalls == old(engineCalls) + (if isInitialized then [ReceiveMessage(id, msgData)] else [])
    {
      NotifyIfInitialized(ReceiveMessage(id, msgData));
    }

    /**
      `var index = connected_peers.indexOf(peerId); if (index > -1)
      connected_peers.splice(index, 1);`: the first entry for the peer leaves
      the queue.
     */
    method RemoveListed(peerId: PeerId)
      requires Valid()
      modifies this`connectedPeers, this`withdrawn
      ensures Valid()
      ensures connectedPeers == RemoveFirst(old(connectedPeers), peerId)
    {
      var index := IndexOf(connectedPeers, peerId);
      if index > -1 {
        RemoveFirstMultiset(connectedPeers, peerId);
        connectedPeers := Splice(connectedPeers, index);
        withdrawn := withdrawn + multiset{peerId};
        assert multiset(connectedPeers) + multiset{peerId} == multiset(old(connectedPeers));
      }
    }

    /**
      A data channel closes: the first entry for the peer leaves the queue,
      and `userLeft` is called whenever the engine is initialised.
     */
    method OnDataChannelClose(peerId: PeerId)
      requires Valid()
      modifies this`connectedPeers, this`engineCalls, this`withdrawn
      ensures Valid()
      ensures connectedPeers == RemoveFirst(old(connectedPeers), peerId)
      ensures engineCalls == old(engineCalls) + (if isInitialized then [UserLeft(peerId)] else [])
    {
      RemoveListed(peerId);
      NotifyIfInitialized(UserLeft(peerId));
    }

    /** `send`: the stringified message goes to one peer on the `yjs` channel. */
    method Send(userId: PeerId, message: Message)
      modifies this`transportCalls
      ensures transportCalls == old(transportCalls) + [SendData(userId, Channel, Stringified(message))]
    {
      transportCalls := transportCalls + [SendData(userId, Channel, Stringified(message))];
    }

    /** `broadcast`: the stringified message goes to every peer on the `yjs` channel. */
    method Broadcast(message: Message)
      modifies this`transportCalls
      ensures transportCalls == old(transportCalls) + [BroadcastData(Channel, Stringified(message))]
    {
      transportCalls := transportCalls + [BroadcastData(Channel, Stringified(message))];
    }
  }

  /**
    A peer whose channel opens and closes while the engine is uninitialised
    is never announced; the next open, on an initialised engine, announces
    only its own peer, after a second `init`.
   */
  method OpenCloseScenario(localId: PeerId, p: PeerId, q: PeerId) returns (calls: seq<EngineCall>, peers: seq<PeerId>)
    ensures calls == [Init(Slave, SyncAll, localId), Init(Slave, SyncAll, localId), UserJoined(q, Slave)]
    ensures peers == []
  {
    var c := new EasyRtcConnector();
    c.OnDataChannelOpen(p, localId, false);
    c.OnDataChannelClose(p);
    c.OnDataChannelOpen(q, localId, true);
    calls, peers := c.engineCalls, c.connectedPeers;
  }

  /**
    Peers queued before initialisation are announced by the first open on an
    initialised engine, last pushed first; every open calls `init` again.
   */
  method QueueScenario(localId: PeerId, p: PeerId, q: PeerId) returns (calls: seq<EngineCall>, peers: seq<PeerId>)
    ensures calls == [Init(Slave, SyncAll, localId), Init(Slave, SyncAll, localId),
                      UserJoined(q, Slave), UserJoined(p, Slave)]
    ensures peers == []
  {
    var c := new EasyRtcConnector();
    c.OnDataChannelOpen(p, localId, false);
    c.OnDataChannelOpen(q, localId, true);
    calls, peers := c.engineCalls, c.connectedPeers;
  }
}
