/**
  The replication engine, seen from an `EasyRTCConnector`: the calls the
  connector makes on it (`init`, `userJoined`, `userLeft`,
  `receiveMessage`), what a drain of the peer list sends it, and the balance
  every connector keeps between the peers it was given and the peers it
  announced. Peer ids and messages are opaque.
 */
module Engine {

  /** An easyrtc id, as the transport assigns it. */
  datatype PeerId = PeerId(easyrtcid: string)

  /** A message of the engine; its JSON form is not modelled. */
  type Message = string

  /** The role the connector announces for itself and for every peer (`'slave'`). */
  datatype Role = Slave

  /** The synchronisation method requested from the engine (`'syncAll'`). */
  datatype SyncMethod = SyncAll

  /** One outbound call on the engine. */
  datatype EngineCall =
    | Init(role: Role, syncMethod: SyncMethod, userId: PeerId)
    | UserJoined(peer: PeerId, role: Role)
    | UserLeft(peer: PeerId)
    | ReceiveMessage(peer: PeerId, message: Message)

  /** The callback `when_bound_to_y`, as a value that could be stored in `on_bound_to_y`. */
  datatype Callback = WhenBoundToY

  /**
    The engine calls made by `add_missing_peers` on an initialised connector:
    the list is popped until empty, one `userJoined(peer, 'slave')` per pop,
    so the last-pushed peer is announced first.
   */
  function JoinCalls(peers: seq<PeerId>): (calls: seq<EngineCall>)
    ensures |calls| == |peers|
    ensures forall k :: 0 <= k < |calls| ==> calls[k] == UserJoined(peers[|peers| - 1 - k], Slave)
  {
    if |peers| == 0 then []
    else [UserJoined(peers[|peers| - 1], Slave)] + JoinCalls(peers[..|peers| - 1])
  }

  /** Draining `a + b` announces all of `b` (from its end) before any of `a`. */
  lemma {:induction false} JoinCallsAppend(a: seq<PeerId>, b: seq<PeerId>)
    ensures JoinCalls(a + b) == JoinCalls(b) + JoinCalls(a)
  {
    if |b| == 0 {
      assert a + b == a;
    } else {
      assert (a + b)[..|a + b| - 1] == a + b[..|b| - 1];
      JoinCallsAppend(a, b[..|b| - 1]);
    }
  }

  /** The multiset of peers announced by `userJoined` calls in a log. */
  function JoinedPeers(calls: seq<EngineCall>): multiset<PeerId>
  {
    if |calls| == 0 then multiset{}
    else (if calls[0].UserJoined? then multiset{calls[0].peer} else multiset{}) + JoinedPeers(calls[1..])
  }

  /**
    The balance every connector keeps: each peer handed over to it is
    announced by one `userJoined` in the log, still pending in its list, or
    withdrawn by a close, counted with repetitions.
   */
  ghost predicate Balanced(calls: seq<EngineCall>, pending: multiset<PeerId>, withdrawn: multiset<PeerId>, handedOver: multiset<PeerId>)
  {
    JoinedPeers(calls) + pending + withdrawn == handedOver
  }

  /** The announced peers of a concatenated log are those of its two parts. */
  lemma {:induction false} JoinedPeersAppend(c: seq<EngineCall>, d: seq<EngineCall>)
    ensures JoinedPeers(c + d) == JoinedPeers(c) + JoinedPeers(d)
  {
    if |c| == 0 {
      assert c + d == d;
    } else {
      assert (c + d)[1..] == c[1..] + d;
      JoinedPeersAppend(c[1..], d);
    }
  }

  /** Draining announces every entry of the list exactly once: no drops, no duplicates. */
  lemma {:induction false} JoinedPeersOfJoinCalls(peers: seq<PeerId>)
    ensures JoinedPeers(JoinCalls(peers)) == multiset(peers)
  {
    if |peers| > 0 {
      var last := peers[|peers| - 1];
      var front := peers[..|peers| - 1];
      JoinedPeersOfJoinCalls(front);
      assert JoinCalls(peers) == [UserJoined(last, Slave)] + JoinCalls(front);
      JoinedPeersAppend([UserJoined(last, Slave)], JoinCalls(front));
      assert peers == front + [last];
    }
  }

  /** For each peer: the number of `userJoined` calls for it equals its number of entries. */
  lemma {:induction false} JoinCallsCount(peers: seq<PeerId>, p: PeerId)
    ensures multiset(JoinCalls(peers))[UserJoined(p, Slave)] == multiset(peers)[p]
  {
    if |peers| > 0 {
      var last := peers[|peers| - 1];
      var front := peers[..|peers| - 1];
      JoinCallsCount(front, p);
      assert JoinCalls(peers) == [UserJoined(last, Slave)] + JoinCalls(front);
      assert peers == front + [last];
    }
  }

  /** Logging any call other than `userJoined` announces nobody. */
  lemma JoinedPeersOtherCall(calls: seq<EngineCall>, c: EngineCall)
    requires !c.UserJoined?
    ensures JoinedPeers(calls + [c]) == JoinedPeers(calls)
  {
    JoinedPeersAppend(calls, [c]);
    assert [c][1..] == [];
  }

  /** Draining `peers` after a log moves exactly the multiset of `peers` into the announced peers. */
  lemma DrainConserves(before: seq<EngineCall>, peers: seq<PeerId>)
    ensures JoinedPeers(before + JoinCalls(peers)) == JoinedPeers(before) + multiset(peers)
  {
    JoinedPeersAppend(before, JoinCalls(peers));
    JoinedPeersOfJoinCalls(peers);
  }

  /** Logging one `userJoined` call announces exactly that peer once more. */
  lemma JoinedPeersJoinCall(calls: seq<EngineCall>, p: PeerId, role: Role)
    ensures JoinedPeers(calls + [UserJoined(p, role)]) == JoinedPeers(calls) + multiset{p}
  {
    JoinedPeersAppend(calls, [UserJoined(p, role)]);
    assert [UserJoined(p, role)][1..] == [];
  }
}
