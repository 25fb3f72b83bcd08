/** Every step of the relay keeps the invariant, part by part. */
module RelayKeeps {
  import opened MessageTable
  import opened PeerRegistry
  import opened Relay
  import opened RelayInvariant

  // ---- What most steps leave alone ---------------------------------------------------------------

  lemma PostsFrame(config: Config, r: Relay, step: Step)
    requires !step.Arrive? && !step.Dispatch? && !step.Enqueue?
    ensures var v := Next(config, r, step); v.posts == r.posts && v.lastId == r.lastId && v.dispatches == r.dispatches
  {
  }

  lemma ChannelsFrame(config: Config, r: Relay, step: Step)
    requires !step.Dispatch? && !step.Subscribe? && !step.Stream? && !step.Drop?
    ensures var v := Next(config, r, step);
            v.channels == r.channels && v.peers == r.peers && v.dispatches == r.dispatches
  {
  }

  lemma SessionsFrame(config: Config, r: Relay, step: Step)
    requires step.Arrive? || step.Dispatch? || step.Enqueue? || step.Tick?
    ensures Next(config, r, step).sessions == r.sessions
  {
  }

  lemma RowsFrame(config: Config, r: Relay, step: Step)
    requires !step.Enqueue? && !step.Fetch? && !step.Tick? && !step.Connect?
    ensures var v := Next(config, r, step);
            && v.rows == r.rows && v.removed == r.removed && v.lastId == r.lastId && |v.sessions| == |r.sessions|
            && forall s | 0 <= s < |r.sessions| :: v.sessions[s].fetched == r.sessions[s].fetched
  {
  }

  // ---- Places ------------------------------------------------------------------------------------

  lemma PlacesUntouched(r: Relay, v: Relay, places: seq<Place>)
    requires PlacesOk(r, places)
    requires v.rows == r.rows && v.removed == r.removed && v.lastId == r.lastId && |v.sessions| == |r.sessions|
    requires forall s | 0 <= s < |r.sessions| :: v.sessions[s].fetched == r.sessions[s].fetched
    ensures PlacesOk(v, places)
  {
  }

  lemma IdsAppend(rows: seq<QueuedMessage>, m: QueuedMessage)
    ensures Ids(rows + [m]) == Ids(rows) + {m.id}
  {
    assert forall x :: x in rows + [m] <==> x in rows || x == m;
  }

  lemma NewPlace(places: seq<Place>, id: nat, place: Place)
    ensures At(places + [InTable], id, place) <==> At(places, id, place) || (id == |places| + 1 && place == InTable)
  {
  }

  lemma AppendIncreasing(rows: seq<QueuedMessage>, m: QueuedMessage)
    requires Increasing(rows) && forall id | id in Ids(rows) :: id < m.id
    ensures Increasing(rows + [m])
  {
    forall i | 0 <= i < |rows|
      ensures rows[i].id < m.id
    {
      assert rows[i].id in Ids(rows);
    }
  }

  lemma EnqueuePlaces(config: Config, r: Relay, places: seq<Place>, p: nat, now: int)
    requires PlacesOk(r, places) && p < |r.posts| && r.posts[p].stage.Unclaimed?
    ensures PlacesOk(Enqueued(config, r, p, now, true), places + [InTable])
  {
    var v := Enqueued(config, r, p, now, true);
    IdsAppend(r.rows, v.rows[|r.rows|]);
    AppendIncreasing(r.rows, v.rows[|r.rows|]);
    forall id: nat
      ensures id in Ids(v.rows) <==> At(places + [InTable], id, InTable)
      ensures id in Ids(RemovedRows(v.removed)) <==> At(places + [InTable], id, Removed)
    {
      NewPlace(places, id, InTable);
      NewPlace(places, id, Removed);
    }
    forall s: nat, id: nat | s < |v.sessions|
      ensures id in Ids(v.sessions[s].fetched) <==> At(places + [InTable], id, WithSession(s))
    {
      NewPlace(places, id, WithSession(s));
    }
  }

  lemma ConnectPlaces(r: Relay, places: seq<Place>, challenge: nat)
    requires PlacesOk(r, places)
    ensures PlacesOk(Connected(r, challenge), places)
  {
    var v := Connected(r, challenge);
    forall s: nat, id: nat | s < |v.sessions|
      ensures id in Ids(v.sessions[s].fetched) <==> At(places, id, WithSession(s))
    {
      if s < |r.sessions| {
        assert id in Ids(r.sessions[s].fetched) <==> At(places, id, WithSession(s));
      }
    }
  }

  /** Splitting a table splits its ids, because ids are not repeated. */
  lemma IdsSplit(rows: seq<QueuedMessage>, taken: seq<QueuedMessage>, left: seq<QueuedMessage>)
    requires Increasing(rows)
    requires forall m :: m in rows <==> m in taken || m in left
    requires forall m | m in taken :: m !in left
    ensures Ids(taken) + Ids(left) == Ids(rows) && Ids(taken) !! Ids(left)
  {
    forall m, n | m in taken && n in left
      ensures m.id != n.id
    {
      var i :| 0 <= i < |rows| && rows[i] == m;
      var j :| 0 <= j < |rows| && rows[j] == n;
    }
  }

  lemma FetchPlaces(r: Relay, places: seq<Place>, s: nat)
    requires PlacesOk(r, places) && InPhase(r, s, Fetching) && r.sessions[s].fetched == []
    ensures PlacesOk(Fetched(r, s, true), Moved(places, Ids(RowsFor(r.rows, Hash(r.sessions[s]))), WithSession(s)))
  {
    var v := Fetched(r, s, true);
    var taken := RowsFor(r.rows, Hash(r.sessions[s]));
    FetchPartitions(r.rows, Hash(r.sessions[s]));
    IdsSplit(r.rows, taken, v.rows);
    var after := Moved(places, Ids(taken), WithSession(s));
    forall id: nat
      ensures id in Ids(v.rows) <==> At(after, id, InTable)
      ensures id in Ids(RemovedRows(v.removed)) <==> At(after, id, Removed)
      ensures At(after, id, WithSession(s)) <==> id in Ids(taken)
    {
      MovedOut(r, places, taken, WithSession(s), id);
      assert id in Ids(r.sessions[s].fetched) <==> At(places, id, WithSession(s));
    }
    forall t: nat, id: nat | t < |v.sessions|
      ensures id in Ids(v.sessions[t].fetched) <==> At(after, id, WithSession(t))
    {
      if t != s {
        MovedOut(r, places, taken, WithSession(s), id);
        assert id in Ids(r.sessions[t].fetched) <==> At(places, id, WithSession(t));
      }
    }
  }

  /** Moving some of the table's ids out leaves every other place as it was. */
  lemma MovedOut(r: Relay, places: seq<Place>, taken: seq<QueuedMessage>, place: Place, id: nat)
    requires PlacesOk(r, places) && Ids(taken) <= Ids(r.rows) && place != InTable
    ensures At(Moved(places, Ids(taken), place), id, InTable) <==> id in Ids(r.rows) && id !in Ids(taken)
    ensures At(Moved(places, Ids(taken), place), id, place) <==> id in Ids(taken) || At(places, id, place)
    ensures forall other | other != InTable && other != place ::
            At(Moved(places, Ids(taken), place), id, other) <==> At(places, id, other)
  {
    assert id in Ids(r.rows) <==> At(places, id, InTable);
  }

  lemma TickPlaces(r: Relay, places: seq<Place>, now: int)
    requires PlacesOk(r, places)
    ensures PlacesOk(Cleaned(r, now), Moved(places, Ids(Expired(r.rows, now)), Removed))
  {
    var v := Cleaned(r, now);
    var taken := Expired(r.rows, now);
    CleanupPartitions(r.rows, now);
    IdsSplit(r.rows, taken, v.rows);
    var after := Moved(places, Ids(taken), Removed);
    RemovedIds(r.removed, taken, now);
    forall id: nat
      ensures id in Ids(v.rows) <==> At(after, id, InTable)
      ensures id in Ids(RemovedRows(v.removed)) <==> At(after, id, Removed)
    {
      MovedOut(r, places, taken, Removed, id);
      assert id in Ids(RemovedRows(r.removed)) <==> At(places, id, Removed);
    }
    forall s: nat, id: nat | s < |v.sessions|
      ensures id in Ids(v.sessions[s].fetched) <==> At(after, id, WithSession(s))
    {
      MovedOut(r, places, taken, Removed, id);
      assert id in Ids(r.sessions[s].fetched) <==> At(places, id, WithSession(s));
    }
  }

  lemma RemovedIds(removed: seq<(QueuedMessage, int)>, taken: seq<QueuedMessage>, now: int)
    ensures Ids(RemovedRows(removed + Stamped(taken, now))) == Ids(RemovedRows(removed)) + Ids(taken)
  {
    assert RemovedRows(removed + Stamped(taken, now)) == RemovedRows(removed) + taken;
    assert forall m :: m in RemovedRows(removed) + taken <==> m in RemovedRows(removed) || m in taken;
  }

  lemma PlacesKept(config: Config, r: Relay, places: seq<Place>, step: Step) returns (after: seq<Place>)
    requires PlacesOk(r, places) && SessionsOk(r)
    ensures PlacesOk(Next(config, r, step), after)
  {
    after := places;
    match step
    case Enqueue(p, now, ok) =>
      if p < |r.posts| && r.posts[p].stage.Unclaimed? && ok {
        EnqueuePlaces(config, r, places, p, now);
        after := places + [InTable];
      } else {
        PlacesUntouched(r, Enqueued(config, r, p, now, ok), places);
      }
    case Connect(challenge) =>
      ConnectPlaces(r, places, challenge);
    case Fetch(s, ok) =>
      if InPhase(r, s, Fetching) && ok {
        assert SessionOk(r.sessions[s], r.channels, s);
        FetchPlaces(r, places, s);
        after := Moved(places, Ids(RowsFor(r.rows, Hash(r.sessions[s]))), WithSession(s));
      } else {
        PlacesUntouched(r, Fetched(r, s, ok), places);
      }
    case Tick(now) =>
      TickPlaces(r, places, now);
      after := Moved(places, Ids(Expired(r.rows, now)), Removed);
    case _ =>
      RowsFrame(config, r, step);
      PlacesUntouched(r, Next(config, r, step), places);
  }

  // ---- Sessions ----------------------------------------------------------------------------------

  lemma Prefixed(pushed: seq<(nat, QueuedMessage)>, item: (nat, QueuedMessage), n: nat)
    requires n <= |pushed|
    ensures (pushed + [item])[..n] == pushed[..n]
  {
  }

  /** A push is invisible to what a session has sent so far. */
  lemma DispatchSessions(r: Relay, p: nat)
    requires SessionsOk(r) && PeersOk(r)
    ensures SessionsOk(Dispatched(r, p))
  {
    var v := Dispatched(r, p);
    if v != r {
      var m := r.posts[p].message;
      if m.recipient in r.peers {
        PushAllExact(r.channels, r.peers[m.recipient], r.dispatches, m);
      }
      forall s: nat | s < |v.sessions|
        ensures SessionOk(v.sessions[s], v.channels, s)
      {
        assert SessionOk(r.sessions[s], r.channels, s);
        if s in r.channels {
          Prefixed(r.channels[s].pushed, (r.dispatches, m), r.sessions[s].streamed);
        }
      }
    }
  }

  /** A step that rewrites one session, and at most that session's channel. */
  lemma OneSession(r: Relay, v: Relay, s: nat)
    requires SessionsOk(r) && s < |r.sessions| == |v.sessions|
    requires SessionOk(v.sessions[s], v.channels, s)
    requires forall t | 0 <= t < |r.sessions| && t != s :: v.sessions[t] == r.sessions[t]
    requires forall c | c != s ::
             (c in v.channels <==> c in r.channels) && (c in r.channels ==> v.channels[c] == r.channels[c])
    ensures SessionsOk(v)
  {
  }

  lemma FetchSession(r: Relay, s: nat, ok: bool)
    requires SessionsOk(r) && InPhase(r, s, Fetching) && Increasing(r.rows)
    ensures SessionsOk(Fetched(r, s, ok))
  {
    assert SessionOk(r.sessions[s], r.channels, s);
    FetchPartitions(r.rows, Hash(r.sessions[s]));
    OneSession(r, Fetched(r, s, ok), s);
  }

  lemma RowSession(r: Relay, s: nat, ok: bool)
    requires SessionsOk(r) && InPhase(r, s, Draining) && r.sessions[s].drained < |r.sessions[s].fetched|
    ensures SessionsOk(RowSent(r, s, ok))
  {
    assert SessionOk(r.sessions[s], r.channels, s);
    var session := r.sessions[s];
    assert session.fetched[..session.drained + 1]
           == session.fetched[..session.drained] + [session.fetched[session.drained]];
    OneSession(r, RowSent(r, s, ok), s);
  }

  lemma SubscribeSession(r: Relay, s: nat)
    requires SessionsOk(r) && InPhase(r, s, Draining) && r.sessions[s].drained >= |r.sessions[s].fetched|
    ensures SessionsOk(SubscribedSession(r, s))
  {
    var session := r.sessions[s];
    assert SessionOk(session, r.channels, s);
    assert session.fetched[..session.drained] == session.fetched;
    assert Messages([]) == [];
    OneSession(r, SubscribedSession(r, s), s);
  }

  lemma DropSession(r: Relay, s: nat)
    requires s < |r.sessions| && SessionOk(r.sessions[s], r.channels, s)
    ensures SessionOk(Dropped(r, s).sessions[s], Dropped(r, s).channels, s)
  {
  }

  lemma StreamSession(r: Relay, s: nat, ok: bool)
    requires SessionsOk(r) && InPhase(r, s, Streaming) && s in r.channels
             && r.channels[s].taken < |r.channels[s].pushed|
    ensures SessionsOk(Streamed(r, s, ok))
  {
    assert SessionOk(r.sessions[s], r.channels, s);
    var pushed, n := r.channels[s].pushed, r.sessions[s].streamed;
    assert pushed[..n + 1] == pushed[..n] + [pushed[n]];
    assert Messages(pushed[..n + 1]) == Messages(pushed[..n]) + [pushed[n].1];
    OneSession(r, Streamed(r, s, ok), s);
  }

  lemma SessionsKept(config: Config, r: Relay, step: Step)
    requires SessionsOk(r) && PeersOk(r) && Increasing(r.rows)
    ensures SessionsOk(Next(config, r, step))
  {
    match step
    case Dispatch(p) =>
      DispatchSessions(r, p);
    case Answer(s, reply) =>
      if InPhase(r, s, AwaitingAuth) {
        assert SessionOk(r.sessions[s], r.channels, s);
        OneSession(r, Answered(r, s, reply), s);
      }
    case Confirm(s, ok) =>
      if InPhase(r, s, Confirming) {
        assert SessionOk(r.sessions[s], r.channels, s);
        OneSession(r, Confirmed(r, s, ok), s);
      }
    case Fetch(s, ok) =>
      if InPhase(r, s, Fetching) {
        FetchSession(r, s, ok);
      }
    case SendRow(s, ok) =>
      if InPhase(r, s, Draining) && r.sessions[s].drained < |r.sessions[s].fetched| {
        RowSession(r, s, ok);
      }
    case Subscribe(s) =>
      if InPhase(r, s, Draining) && r.sessions[s].drained >= |r.sessions[s].fetched| {
        SubscribeSession(r, s);
      }
    case Stream(s, ok) =>
      if InPhase(r, s, Streaming) && s in r.channels && r.channels[s].taken < |r.channels[s].pushed| {
        StreamSession(r, s, ok);
      }
    case Drop(s) =>
      if s < |r.sessions| {
        DropSession(r, s);
        OneSession(r, Dropped(r, s), s);
      }
    case Connect(challenge) =>
      ConnectSession(r, challenge);
    case _ =>
      SessionsFrame(config, r, step);
      ChannelsFrame(config, r, step);
  }

  lemma ConnectSession(r: Relay, challenge: nat)
    requires SessionsOk(r)
    ensures SessionsOk(Connected(r, challenge))
  {
  }

  // ---- Requests ----------------------------------------------------------------------------------

  /** One request reaches a stage no other request has reached. */
  lemma NewStage(r: Relay, v: Relay, p: nat, stage: Stage)
    requires PostsOk(r) && p < |r.posts| && v.posts == r.posts[p := r.posts[p].(stage := stage)]
    requires v.lastId >= r.lastId && v.dispatches >= r.dispatches
    requires stage.Queued? ==> r.lastId < stage.id <= v.lastId
    requires stage.Pushed? ==> r.dispatches <= stage.stamp < v.dispatches
    ensures PostsOk(v)
  {
  }

  lemma PostsKept(config: Config, r: Relay, step: Step)
    requires PostsOk(r)
    ensures PostsOk(Next(config, r, step))
  {
    match step
    case Dispatch(p) =>
      if p < |r.posts| && r.posts[p].stage.Validated? {
        var live := ReachesSomeone(r.peers, r.channels, r.posts[p].message);
        NewStage(r, Dispatched(r, p), p, if live then Pushed(r.dispatches) else Unclaimed);
      }
    case Enqueue(p, now, ok) =>
      if p < |r.posts| && r.posts[p].stage.Unclaimed? {
        NewStage(r, Enqueued(config, r, p, now, ok), p, if ok then Queued(r.lastId + 1) else Lost);
      }
    case Arrive(request, now) =>
      ArrivedPosts(config, r, request, now);
    case _ =>
      PostsFrame(config, r, step);
  }

  lemma ArrivedPosts(config: Config, r: Relay, request: Request, now: int)
    requires PostsOk(r)
    ensures PostsOk(Arrived(config, r, request, now))
  {
  }

  /** A request that has been queued stays so: rows keep their trace. */
  predicate Settled(before: seq<Post>, after: seq<Post>) {
    && |before| <= |after|
    && (forall p | 0 <= p < |before| :: after[p].message == before[p].message)
    && (forall p | 0 <= p < |before| && (before[p].stage.Queued? || before[p].stage.Pushed?) ::
        after[p].stage == before[p].stage)
  }

  lemma StepSettled(config: Config, r: Relay, step: Step)
    ensures Settled(r.posts, Next(config, r, step).posts)
  {
    match step
    case Arrive(request, now) =>
    case Dispatch(p) => DispatchSettled(r, p);
    case Enqueue(p, now, ok) => EnqueueSettled(config, r, p, now, ok);
    case _ => PostsFrame(config, r, step);
  }

  lemma DispatchSettled(r: Relay, p: nat)
    ensures Settled(r.posts, Dispatched(r, p).posts)
  {
  }

  lemma EnqueueSettled(config: Config, r: Relay, p: nat, now: int, ok: bool)
    ensures Settled(r.posts, Enqueued(config, r, p, now, ok).posts)
  {
  }

  lemma RowsStayTraced(r: Relay, v: Relay)
    requires RowsTraced(r) && Settled(r.posts, v.posts)
    requires forall m | m in v.rows :: m in r.rows || Traced(v.posts, m)
    requires forall s: nat, m | s < |v.sessions| && m in v.sessions[s].fetched ::
             m in r.rows || (s < |r.sessions| && m in r.sessions[s].fetched)
    requires forall x | x in v.removed :: x in r.removed || (x.0 in r.rows && x.0.expiresAt <= x.1)
    ensures RowsTraced(v)
  {
    forall s: nat, m | s < |v.sessions| && m in v.sessions[s].fetched
      ensures Traced(v.posts, m)
    {
      assert m in r.rows || (s < |r.sessions| && m in r.sessions[s].fetched);
      assert Traced(r.posts, m);
    }
  }

  lemma FetchTraced(r: Relay, s: nat, ok: bool)
    requires RowsTraced(r) && Increasing(r.rows) && InPhase(r, s, Fetching)
    ensures RowsTraced(Fetched(r, s, ok))
  {
    FetchPartitions(r.rows, Hash(r.sessions[s]));
    RowsStayTraced(r, Fetched(r, s, ok));
  }

  lemma TickTraced(r: Relay, now: int)
    requires RowsTraced(r) && Increasing(r.rows)
    ensures RowsTraced(Cleaned(r, now))
  {
    CleanupPartitions(r.rows, now);
    RowsStayTraced(r, Cleaned(r, now));
  }

  lemma RowsTracedKept(config: Config, r: Relay, step: Step)
    requires RowsTraced(r) && Increasing(r.rows)
    ensures RowsTraced(Next(config, r, step))
  {
    if step.Fetch? && InPhase(r, step.session, Fetching) {
      FetchTraced(r, step.session, step.ok);
    } else if step.Tick? {
      TickTraced(r, step.now);
    } else {
      StepSettled(config, r, step);
      RowsStayTraced(r, Next(config, r, step));
    }
  }

  // ---- Channels and the registry -----------------------------------------------------------------

  /** Stamps below the next dispatch, and increasing, channel by channel. */
  predicate StampsOk(channel: Channel, dispatches: nat) {
    && (forall i | 0 <= i < |channel.pushed| :: channel.pushed[i].0 < dispatches)
    && (forall i, j | 0 <= i < j < |channel.pushed| :: channel.pushed[i].0 < channel.pushed[j].0)
  }

  lemma PushKeepsStamps(channel: Channel, dispatches: nat, m: QueuedMessage)
    requires StampsOk(channel, dispatches)
    ensures StampsOk(channel.(pushed := channel.pushed + [(dispatches, m)]), dispatches + 1)
    ensures StampsOk(channel, dispatches + 1)
  {
  }

  lemma ChannelsFromParts(r: Relay)
    requires forall c | c in r.channels :: StampsOk(r.channels[c], r.dispatches)
    requires forall c, i | c in r.channels && c < |r.sessions| && 0 <= i < |r.channels[c].pushed| ::
               PushOk(r.posts, Hash(r.sessions[c]), r.channels[c].pushed[i])
    ensures ChannelsOk(r)
  {
    forall c, i, j | c in r.channels && 0 <= i < j < |r.channels[c].pushed|
      ensures r.channels[c].pushed[i].0 < r.channels[c].pushed[j].0
    {
      assert StampsOk(r.channels[c], r.dispatches);
    }
    forall c, i | c in r.channels && 0 <= i < |r.channels[c].pushed|
      ensures r.channels[c].pushed[i].0 < r.dispatches
    {
      assert StampsOk(r.channels[c], r.dispatches);
    }
  }

  /** What a dispatch does to one channel. */
  lemma DispatchedChannel(r: Relay, p: nat, c: ChannelId)
    requires PeersOk(r) && p < |r.posts| && r.posts[p].stage.Validated? && c in Dispatched(r, p).channels
    ensures c in r.channels
    ensures var m, v := r.posts[p].message, Dispatched(r, p);
            || v.channels[c] == r.channels[c]
            || (&& v.channels[c] == r.channels[c].(pushed := r.channels[c].pushed + [(r.dispatches, m)])
                && c < |r.sessions| && Hash(r.sessions[c]) == m.recipient
                && v.posts[p].stage == Pushed(r.dispatches))
  {
    var m := r.posts[p].message;
    if m.recipient in r.peers {
      PushAllExact(r.channels, r.peers[m.recipient], r.dispatches, m);
      OpenOnesExact(r.channels, r.peers[m.recipient]);
    }
  }

  lemma DispatchChannels(r: Relay, p: nat)
    requires ChannelsOk(r) && PeersOk(r) && PostsOk(r)
    ensures ChannelsOk(Dispatched(r, p))
  {
    if p < |r.posts| && r.posts[p].stage.Validated? {
      var v := Dispatched(r, p);
      forall c | c in v.channels
        ensures StampsOk(v.channels[c], v.dispatches)
      {
        DispatchedChannel(r, p, c);
        PushKeepsStamps(r.channels[c], r.dispatches, r.posts[p].message);
      }
      forall c, i | c in v.channels && c < |v.sessions| && 0 <= i < |v.channels[c].pushed|
        ensures PushOk(v.posts, Hash(v.sessions[c]), v.channels[c].pushed[i])
      {
        DispatchedChannel(r, p, c);
        DispatchSettled(r, p);
        if i < |r.channels[c].pushed| {
          assert PushOk(r.posts, Hash(r.sessions[c]), r.channels[c].pushed[i]);
        }
      }
      ChannelsFromParts(v);
    }
  }

  /** A step that pushes nothing and changes nobody's mailbox. */
  lemma ChannelsUntouched(r: Relay, v: Relay)
    requires ChannelsOk(r) && Settled(r.posts, v.posts) && v.dispatches >= r.dispatches && |v.sessions| >= |r.sessions|
    requires forall c | c in v.channels ::
             v.channels[c].pushed == [] || (c in r.channels && v.channels[c].pushed == r.channels[c].pushed)
    requires forall c | c in r.channels :: c < |r.sessions| && Hash(v.sessions[c]) == Hash(r.sessions[c])
    ensures ChannelsOk(v)
  {
    forall c, i | c in v.channels && c < |v.sessions| && 0 <= i < |v.channels[c].pushed|
      ensures PushOk(v.posts, Hash(v.sessions[c]), v.channels[c].pushed[i])
    {
      assert PushOk(r.posts, Hash(r.sessions[c]), r.channels[c].pushed[i]);
    }
  }

  /** Whoever has a channel has been authenticated, and keeps that key. */
  lemma MailboxesKept(config: Config, r: Relay, step: Step)
    requires SessionsOk(r)
    ensures forall c | c in r.channels ::
            c < |r.sessions| <= |Next(config, r, step).sessions| && r.sessions[c].key.Some?
    ensures forall c | c in r.channels :: Next(config, r, step).sessions[c].key == r.sessions[c].key
  {
    forall c | c in r.channels
      ensures c < |r.sessions| <= |Next(config, r, step).sessions|
      ensures r.sessions[c].key.Some? && Next(config, r, step).sessions[c].key == r.sessions[c].key
    {
      assert SessionOk(r.sessions[c], r.channels, c);
    }
  }

  /** Only a dispatch pushes. */
  lemma PushesKept(config: Config, r: Relay, step: Step)
    requires !step.Dispatch?
    ensures var v := Next(config, r, step);
            && v.dispatches == r.dispatches && |v.sessions| >= |r.sessions|
            && forall c | c in v.channels ::
               v.channels[c].pushed == [] || (c in r.channels && v.channels[c].pushed == r.channels[c].pushed)
  {
    match step
    case Subscribe(s) =>
    case Stream(s, ok) =>
    case Drop(s) =>
    case _ => ChannelsFrame(config, r, step);
  }

  lemma ChannelsKept(config: Config, r: Relay, step: Step)
    requires ChannelsOk(r) && PeersOk(r) && PostsOk(r) && SessionsOk(r)
    ensures ChannelsOk(Next(config, r, step))
  {
    if step.Dispatch? {
      DispatchChannels(r, step.post);
    } else {
      StepSettled(config, r, step);
      MailboxesKept(config, r, step);
      PushesKept(config, r, step);
      ChannelsUntouched(r, Next(config, r, step));
    }
  }

  lemma DispatchPeers(r: Relay, p: nat)
    requires PeersOk(r)
    ensures PeersOk(Dispatched(r, p))
  {
    if p < |r.posts| && r.posts[p].message.recipient in r.peers {
      var m := r.posts[p].message;
      PushAllExact(r.channels, r.peers[m.recipient], r.dispatches, m);
      OpenOnesExact(r.channels, r.peers[m.recipient]);
    }
  }

  lemma SubscribePeers(r: Relay, s: nat)
    requires PeersOk(r) && SessionsOk(r)
    ensures PeersOk(SubscribedSession(r, s))
  {
    if s < |r.sessions| {
      assert SessionOk(r.sessions[s], r.channels, s);
    }
  }

  lemma PeersUntouched(r: Relay, v: Relay)
    requires PeersOk(r) && v.peers == r.peers && |v.sessions| >= |r.sessions|
    requires forall c | c in r.channels :: c in v.channels && c < |r.sessions| && v.sessions[c].key == r.sessions[c].key
    ensures PeersOk(v)
  {
  }

  lemma PeersSame(config: Config, r: Relay, step: Step)
    requires !step.Dispatch? && !step.Subscribe?
    ensures var v := Next(config, r, step); v.peers == r.peers && v.channels.Keys == r.channels.Keys
  {
    match step
    case Stream(s, ok) =>
    case Drop(s) =>
    case _ => ChannelsFrame(config, r, step);
  }

  lemma PeersKept(config: Config, r: Relay, step: Step)
    requires PeersOk(r) && SessionsOk(r)
    ensures PeersOk(Next(config, r, step))
  {
    if step.Dispatch? {
      DispatchPeers(r, step.post);
    } else if step.Subscribe? {
      SubscribePeers(r, step.session);
    } else {
      MailboxesKept(config, r, step);
      PeersSame(config, r, step);
      PeersUntouched(r, Next(config, r, step));
    }
  }

  // ---- Live delivery -----------------------------------------------------------------------------

  lemma RegisteredAfterDispatch(r: Relay, p: nat, s: nat)
    requires PeersOk(r) && SessionsOk(r) && s < |r.sessions| && Registered(r, s)
    ensures Registered(Dispatched(r, p), s)
  {
    assert SessionOk(r.sessions[s], r.channels, s);
    if p < |r.posts| && r.posts[p].message.recipient in r.peers {
      OpenOnesExact(r.channels, r.peers[r.posts[p].message.recipient]);
    }
  }

  lemma RegisteredKept(config: Config, r: Relay, step: Step, s: nat)
    requires PeersOk(r) && SessionsOk(r) && (s < |r.sessions| ==> Registered(r, s))
    ensures Registered(Next(config, r, step), s)
  {
    if step.Dispatch? {
      if s < |r.sessions| {
        RegisteredAfterDispatch(r, step.post, s);
      }
    } else if step.Subscribe? {
      RegisteredAfterSubscribe(r, step.session, s);
    } else {
      PeersSame(config, r, step);
      if s < |Next(config, r, step).sessions| && Next(config, r, step).sessions[s].phase.Streaming? {
        StreamingBefore(config, r, step, s);
      }
    }
  }

  lemma RegisteredAfterSubscribe(r: Relay, t: nat, s: nat)
    requires s < |r.sessions| ==> Registered(r, s)
    ensures Registered(SubscribedSession(r, t), s)
  {
  }

  /** No other step than a subscription starts a stream, and none changes the mailbox of one. */
  lemma StreamingBefore(config: Config, r: Relay, step: Step, s: nat)
    requires !step.Dispatch? && !step.Subscribe?
    requires s < |Next(config, r, step).sessions| && Next(config, r, step).sessions[s].phase.Streaming?
    ensures s < |r.sessions| && r.sessions[s].phase.Streaming?
            && r.sessions[s].key == Next(config, r, step).sessions[s].key
  {
  }

  /** What is in a channel stays in it. */
  lemma HeldKept(config: Config, r: Relay, step: Step, c: ChannelId, i: nat, item: (nat, QueuedMessage))
    requires Holds(r, c, i, item) && PeersOk(r) && SessionsOk(r)
    ensures Holds(Next(config, r, step), c, i, item)
  {
    assert SessionOk(r.sessions[c], r.channels, c);
    if step.Dispatch? && step.post < |r.posts| && r.posts[step.post].message.recipient in r.peers {
      PushAllExact(r.channels, r.peers[r.posts[step.post].message.recipient], r.dispatches, r.posts[step.post].message);
    }
  }

  /** A dispatch that reports success has put the message into some channel. */
  lemma PushedIsHeld(r: Relay, p: nat)
    requires PeersOk(r) && p < |r.posts| && r.posts[p].stage.Validated?
             && ReachesSomeone(r.peers, r.channels, r.posts[p].message)
    ensures exists c, i :: Holds(Dispatched(r, p), c, i, (r.dispatches, r.posts[p].message))
  {
    var m := r.posts[p].message;
    var senders := r.peers[m.recipient];
    OpenOnesExact(r.channels, senders);
    PushAllExact(r.channels, senders, r.dispatches, m);
    var c := OpenOnes(r.channels, senders)[0];
    assert c in OpenOnes(r.channels, senders);
    assert Holds(Dispatched(r, p), c, |r.channels[c].pushed|, (r.dispatches, m));
  }

  lemma LiveKept(config: Config, r: Relay, step: Step)
    requires LiveOk(r) && PeersOk(r) && SessionsOk(r)
    ensures LiveOk(Next(config, r, step))
  {
    var v := Next(config, r, step);
    forall s: nat | s < |v.sessions|
      ensures Registered(v, s)
    {
      RegisteredKept(config, r, step, s);
    }
    forall p: nat | p < |v.posts| && v.posts[p].stage.Pushed?
      ensures exists c, i :: Holds(v, c, i, (v.posts[p].stage.stamp, v.posts[p].message))
    {
      PushedBefore(config, r, step, p);
      if p < |r.posts| && r.posts[p].stage.Pushed? {
        var c, i :| Holds(r, c, i, (r.posts[p].stage.stamp, r.posts[p].message));
        HeldKept(config, r, step, c, i, (r.posts[p].stage.stamp, r.posts[p].message));
      } else {
        PushedIsHeld(r, p);
      }
    }
  }

  /** A request counts as pushed either from before or by this very dispatch. */
  lemma PushedBefore(config: Config, r: Relay, step: Step, p: nat)
    requires p < |Next(config, r, step).posts| && Next(config, r, step).posts[p].stage.Pushed?
    ensures p < |r.posts| && Next(config, r, step).posts[p].message == r.posts[p].message
    ensures Next(config, r, step).posts[p].stage != r.posts[p].stage ==>
              && step == Dispatch(p) && r.posts[p].stage.Validated?
              && ReachesSomeone(r.peers, r.channels, r.posts[p].message)
              && Next(config, r, step).posts[p].stage == Pushed(r.dispatches)
  {
  }

  // ---- Together ----------------------------------------------------------------------------------

  lemma StepKeeps(config: Config, r: Relay, step: Step)
    requires Inv(r)
    ensures Inv(Next(config, r, step))
  {
    var places: seq<Place> :| PlacesOk(r, places);
    var after := PlacesKept(config, r, places, step);
    SessionsKept(config, r, step);
    PostsKept(config, r, step);
    RowsTracedKept(config, r, step);
    ChannelsKept(config, r, step);
    PeersKept(config, r, step);
    LiveKept(config, r, step);
  }

  lemma {:induction false} RunKeeps(config: Config, r: Relay, steps: seq<Step>)
    requires Inv(r)
    ensures Inv(Run(config, r, steps))
    decreases |steps|
  {
    if steps != [] {
      StepKeeps(config, r, steps[0]);
      RunKeeps(config, Next(config, r, steps[0]), steps[1..]);
    }
  }

  lemma Reachable(config: Config, steps: seq<Step>)
    ensures Inv(Run(config, Empty, steps))
  {
    assert PlacesOk(Empty, []);
    RunKeeps(config, Empty, steps);
  }
}
