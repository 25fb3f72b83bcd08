/** The relay's registry of live sessions and the channels it feeds. */
module PeerRegistry {
  import opened MessageTable

  type ChannelId = nat

  /**
    An unbounded channel as its history: everything pushed into it, each with the number of the
    dispatch that pushed it, and how much the session has taken out. `open` until the receiver is dropped.
   */
  datatype Channel = Channel(open: bool, pushed: seq<(nat, QueuedMessage)>, taken: nat)

  type Peers = map<string, seq<ChannelId>>
  type Channels = map<ChannelId, Channel>

  predicate IsOpen(channels: Channels, c: ChannelId) {
    c in channels && channels[c].open
  }

  /** tx.send on each sender in turn: a closed channel refuses, an open one takes one copy. */
  function PushAll(channels: Channels, senders: seq<ChannelId>, stamp: nat, m: QueuedMessage): Channels {
    if senders == [] then channels
    else
      var before := PushAll(channels, senders[..|senders| - 1], stamp, m);
      var c := senders[|senders| - 1];
      if IsOpen(before, c) then before[c := before[c].(pushed := before[c].pushed + [(stamp, m)])] else before
  }

  /** The senders retain keeps. */
  function OpenOnes(channels: Channels, senders: seq<ChannelId>): seq<ChannelId> {
    if senders == [] then []
    else
      var c := senders[|senders| - 1];
      OpenOnes(channels, senders[..|senders| - 1]) + (if IsOpen(channels, c) then [c] else [])
  }

  function Subscribed(peers: Peers, hash: string, tx: ChannelId): Peers {
    peers[hash := (if hash in peers then peers[hash] else []) + [tx]]
  }

  function PeersAfterDispatch(peers: Peers, channels: Channels, m: QueuedMessage): Peers {
    if m.recipient !in peers then peers
    else if OpenOnes(channels, peers[m.recipient]) == [] then peers - {m.recipient}
    else peers[m.recipient := OpenOnes(channels, peers[m.recipient])]
  }

  function ChannelsAfterDispatch(peers: Peers, channels: Channels, stamp: nat, m: QueuedMessage): Channels {
    if m.recipient !in peers then channels else PushAll(channels, peers[m.recipient], stamp, m)
  }

  function ReachesSomeone(peers: Peers, channels: Channels, m: QueuedMessage): bool {
    m.recipient in peers && OpenOnes(channels, peers[m.recipient]) != []
  }

  predicate NoRepeats(senders: seq<ChannelId>) {
    forall i, j | 0 <= i < j < |senders| :: senders[i] != senders[j]
  }

  /** Pushing to a list without repeats puts one copy in exactly its open channels and changes no other. */
  lemma {:induction false} PushAllExact(channels: Channels, senders: seq<ChannelId>, stamp: nat, m: QueuedMessage)
    requires NoRepeats(senders)
    ensures PushAll(channels, senders, stamp, m).Keys == channels.Keys
    ensures forall c | c in channels ::
              PushAll(channels, senders, stamp, m)[c]
              == if c in senders && channels[c].open then channels[c].(pushed := channels[c].pushed + [(stamp, m)])
                 else channels[c]
  {
    if senders != [] {
      var rest := senders[..|senders| - 1];
      PushAllExact(channels, rest, stamp, m);
      assert senders == rest + [senders[|senders| - 1]];
      assert senders[|senders| - 1] !in rest;
    }
  }

  /** The retained senders are exactly the open ones, in their old order. */
  lemma {:induction false} OpenOnesExact(channels: Channels, senders: seq<ChannelId>)
    requires NoRepeats(senders)
    ensures NoRepeats(OpenOnes(channels, senders))
    ensures forall c :: c in OpenOnes(channels, senders) <==> c in senders && IsOpen(channels, c)
    ensures OpenOnes(channels, senders) == [] <==> forall c | c in senders :: !IsOpen(channels, c)
  {
    if senders != [] {
      var rest := senders[..|senders| - 1];
      var last := senders[|senders| - 1];
      OpenOnesExact(channels, rest);
      assert senders == rest + [last];
      assert last !in rest;
    }
  }

  lemma {:induction false} OrderKept(channels: Channels, senders: seq<ChannelId>, i: nat, j: nat)
    returns (k: nat, l: nat)
    requires i < j < |OpenOnes(channels, senders)|
    ensures k < l < |senders|
    ensures senders[k] == OpenOnes(channels, senders)[i] && senders[l] == OpenOnes(channels, senders)[j]
  {
    var rest := senders[..|senders| - 1];
    if j < |OpenOnes(channels, rest)| {
      k, l := OrderKept(channels, rest, i, j);
    } else {
      k := PlaceOf(channels, rest, i);
      l := |senders| - 1;
    }
  }

  lemma {:induction false} PlaceOf(channels: Channels, senders: seq<ChannelId>, i: nat) returns (k: nat)
    requires i < |OpenOnes(channels, senders)|
    ensures k < |senders| && senders[k] == OpenOnes(channels, senders)[i]
  {
    var rest := senders[..|senders| - 1];
    if i < |OpenOnes(channels, rest)| {
      k := PlaceOf(channels, rest, i);
    } else {
      k := |senders| - 1;
    }
  }

  /** AppState's shared registry; each method body runs under the write lock. */
  class AppState {
    var activePeers: Peers
    var channels: Channels
    var dispatches: nat

    constructor ()
      ensures activePeers == map[] && channels == map[] && dispatches == 0
    {
      activePeers, channels, dispatches := map[], map[], 0;
    }

    method SubscribePeer(hash: string, tx: ChannelId)
      modifies this`activePeers
      ensures activePeers == Subscribed(old(activePeers), hash, tx)
    {
      if hash !in activePeers {
        activePeers := activePeers[hash := []];
      }
      activePeers := activePeers[hash := activePeers[hash] + [tx]];
    }

    method DispatchLive(m: QueuedMessage) returns (live: bool)
      modifies this
      ensures live == ReachesSomeone(old(activePeers), old(channels), m)
      ensures activePeers == PeersAfterDispatch(old(activePeers), old(channels), m)
      ensures channels == ChannelsAfterDispatch(old(activePeers), old(channels), old(dispatches), m)
      ensures dispatches == old(dispatches) + 1
    {
      var stamp := dispatches;
      dispatches := dispatches + 1;
      if m.recipient !in activePeers {
        return false;
      }
      var senders := activePeers[m.recipient];
      ghost var before := channels;
      var kept := [];
      var i := 0;
      while i < |senders|
        invariant 0 <= i <= |senders|
        invariant kept == OpenOnes(before, senders[..i])
        invariant channels == PushAll(before, senders[..i], stamp, m)
        invariant activePeers == old(activePeers) && dispatches == old(dispatches) + 1
      {
        assert senders[..i + 1][..i] == senders[..i];
        PushKeepsOpen(before, senders[..i], stamp, m, senders[i]);
        if IsOpen(channels, senders[i]) {
          var channel := channels[senders[i]];
          channels := channels[senders[i] := channel.(pushed := channel.pushed + [(stamp, m)])];
          kept := kept + [senders[i]];
        }
        i := i + 1;
      }
      assert senders[..i] == senders;
      live := kept != [];
      if live {
        activePeers := activePeers[m.recipient := kept];
      } else {
        activePeers := activePeers - {m.recipient};
      }
    }
  }

  lemma {:induction false} PushKeepsOpen(channels: Channels, senders: seq<ChannelId>, stamp: nat, m: QueuedMessage,
                                         c: ChannelId)
    ensures IsOpen(PushAll(channels, senders, stamp, m), c) == IsOpen(channels, c)
  {
    if senders != [] {
      PushKeepsOpen(channels, senders[..|senders| - 1], stamp, m, c);
      PushKeepsOpen(channels, senders[..|senders| - 1], stamp, m, senders[|senders| - 1]);
    }
  }
}
