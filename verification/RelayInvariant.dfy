/** What every step of the relay keeps. */
module RelayInvariant {
  import opened Wrappers
  import opened MessageTable
  import opened PeerRegistry
  import opened Relay

  // ---- Where each row is -------------------------------------------------------------------------

  datatype Place = InTable | WithSession(session: nat) | Removed

  predicate At(places: seq<Place>, id: nat, place: Place) {
    1 <= id <= |places| && places[id - 1] == place
  }

  function Ids(rows: seq<QueuedMessage>): set<nat> {
    set m | m in rows :: m.id
  }

  function RemovedRows(removed: seq<(QueuedMessage, int)>): seq<QueuedMessage> {
    seq(|removed|, i requires 0 <= i < |removed| => removed[i].0)
  }

  /** One place for every id handed out: the table, one session, or the record of what ticks removed. */
  ghost predicate PlacesOk(r: Relay, places: seq<Place>) {
    && |places| == r.lastId
    && Increasing(r.rows)
    && (forall id: nat :: id in Ids(r.rows) <==> At(places, id, InTable))
    && (forall s: nat, id: nat | s < |r.sessions| ::
        id in Ids(r.sessions[s].fetched) <==> At(places, id, WithSession(s)))
    && (forall id: nat :: id in Ids(RemovedRows(r.removed)) <==> At(places, id, Removed))
    && (forall i | 0 <= i < |places| :: places[i].WithSession? ==> places[i].session < |r.sessions|)
  }

  function Moved(places: seq<Place>, ids: set<nat>, place: Place): seq<Place> {
    seq(|places|, i requires 0 <= i < |places| => if i + 1 in ids then place else places[i])
  }

  // ---- Sessions ----------------------------------------------------------------------------------

  function Messages(pushed: seq<(nat, QueuedMessage)>): seq<QueuedMessage> {
    seq(|pushed|, i requires 0 <= i < |pushed| => pushed[i].1)
  }

  /** What a session has sent is the fetched rows in order, then the pushed messages in order. */
  predicate SessionOk(session: WsSession, channels: Channels, s: nat) {
    && (session.phase.AwaitingAuth? ==> session.key.None?)
    && (session.key.None? ==> session.fetched == [] && s !in channels)
    && (session.key.Some? ==> session.signature == Some(Signed(session.key.value, session.challenge)))
    && (session.phase.Confirming? || session.phase.Fetching? || session.phase.Draining? || session.phase.Streaming? ==>
        session.key.Some?)
    && (session.phase.Confirming? || session.phase.Fetching? ==> session.fetched == [] && session.drained == 0)
    && (session.phase.AwaitingAuth? || session.phase.Confirming? ==> s !in channels)
    && (session.phase.Fetching? || session.phase.Draining? ==> s !in channels)
    && (session.phase.Streaming? ==> s in channels && channels[s].open && channels[s].taken == session.streamed)
    && Increasing(session.fetched)
    && (forall m | m in session.fetched :: m.recipient == Hash(session))
    && session.drained <= |session.fetched|
    && (if s in channels
        then
          && session.drained == |session.fetched|
          && session.streamed <= channels[s].taken <= |channels[s].pushed|
          && session.frames == session.fetched + Messages(channels[s].pushed[..session.streamed])
          && (channels[s].open ==> session.phase.Streaming?)
        else session.streamed == 0 && session.frames == session.fetched[..session.drained])
  }

  ghost predicate SessionsOk(r: Relay) {
    && (forall s: nat | s < |r.sessions| :: SessionOk(r.sessions[s], r.channels, s))
    && (forall c | c in r.channels :: c < |r.sessions|)
  }

  // ---- Requests ----------------------------------------------------------------------------------

  predicate SameContent(m: QueuedMessage, original: QueuedMessage) {
    m.recipient == original.recipient && m.payload == original.payload && m.nonce == original.nonce
  }

  /** A row is what its request asked to queue. */
  predicate Traced(posts: seq<Post>, m: QueuedMessage) {
    && m.post < |posts|
    && posts[m.post].stage == Queued(m.id)
    && SameContent(m, posts[m.post].message)
  }

  ghost predicate PostsOk(r: Relay) {
    && (forall p: nat | p < |r.posts| :: r.posts[p].message.post == p)
    && (forall p: nat | p < |r.posts| && r.posts[p].stage.Queued? :: 1 <= r.posts[p].stage.id <= r.lastId)
    && (forall p: nat, q: nat | p < |r.posts| && q < |r.posts| && r.posts[p].stage.Queued? ::
        r.posts[p].stage == r.posts[q].stage ==> p == q)
    && (forall p: nat | p < |r.posts| && r.posts[p].stage.Pushed? :: r.posts[p].stage.stamp < r.dispatches)
    && (forall p: nat, q: nat | p < |r.posts| && q < |r.posts| && r.posts[p].stage.Pushed? ::
        r.posts[p].stage == r.posts[q].stage ==> p == q)
  }

  ghost predicate RowsTraced(r: Relay) {
    && (forall m | m in r.rows :: Traced(r.posts, m))
    && (forall s: nat, m | s < |r.sessions| && m in r.sessions[s].fetched :: Traced(r.posts, m))
    && (forall x | x in r.removed :: Traced(r.posts, x.0) && x.0.expiresAt <= x.1)
  }

  // ---- Channels and the registry -----------------------------------------------------------------

  predicate PushOk(posts: seq<Post>, hash: string, item: (nat, QueuedMessage)) {
    && item.1.recipient == hash
    && item.1.post < |posts|
    && posts[item.1.post].stage == Pushed(item.0)
    && item.1 == posts[item.1.post].message
  }

  ghost predicate ChannelsOk(r: Relay) {
    && (forall c, i | c in r.channels && c < |r.sessions| && 0 <= i < |r.channels[c].pushed| ::
          PushOk(r.posts, Hash(r.sessions[c]), r.channels[c].pushed[i]))
    && (forall c, i | c in r.channels && 0 <= i < |r.channels[c].pushed| :: r.channels[c].pushed[i].0 < r.dispatches)
    && (forall c, i, j | c in r.channels && 0 <= i < j < |r.channels[c].pushed| ::
          r.channels[c].pushed[i].0 < r.channels[c].pushed[j].0)
  }

  /** Every registered hash has a non-empty list, without repeats, of channels of sessions authenticated for it. */
  ghost predicate PeersOk(r: Relay) {
    forall h | h in r.peers ::
      && r.peers[h] != []
      && NoRepeats(r.peers[h])
      && (forall c | c in r.peers[h] ::
          c in r.channels && c < |r.sessions| && r.sessions[c].key.Some? && Hash(r.sessions[c]) == h)
  }

  /** Every streaming session is registered under its hash. */
  predicate Registered(r: Relay, s: nat) {
    s < |r.sessions| && r.sessions[s].phase.Streaming? ==>
      Hash(r.sessions[s]) in r.peers && s in r.peers[Hash(r.sessions[s])]
  }

  /** A channel holds the message of request p under this stamp. */
  ghost predicate Holds(r: Relay, c: ChannelId, i: nat, item: (nat, QueuedMessage)) {
    c in r.channels && i < |r.channels[c].pushed| && r.channels[c].pushed[i] == item
  }

  ghost predicate LiveOk(r: Relay) {
    && (forall s: nat | s < |r.sessions| :: Registered(r, s))
    && (forall p: nat | p < |r.posts| && r.posts[p].stage.Pushed? ::
          exists c, i :: Holds(r, c, i, (r.posts[p].stage.stamp, r.posts[p].message)))
  }

  ghost predicate Inv(r: Relay) {
    && (exists places :: PlacesOk(r, places))
    && SessionsOk(r) && PostsOk(r) && RowsTraced(r) && ChannelsOk(r) && PeersOk(r) && LiveOk(r)
  }
}
