/**
  In what order a session puts posts on its socket, and which it passes over. Posts are numbered as they
  arrive; one is answered when its handler has pushed it, queued it or failed to.
 */
module RelayOrder {
  import opened MessageTable
  import opened PeerRegistry
  import opened Relay
  import opened RelayInvariant
  import opened RelayKeeps
  import opened RelayTheorems
  import opened RelayHandlers

  predicate Streams(r: Relay, s: nat, mailbox: string) {
    InPhase(r, s, Streaming) && Hash(r.sessions[s]) == mailbox
  }

  predicate FrameAt(r: Relay, s: nat, i: nat, p: nat) {
    s < |r.sessions| && i < |r.sessions[s].frames| && r.sessions[s].frames[i].post == p
  }

  ghost predicate PushedTo(r: Relay, s: nat, p: nat) {
    s in r.channels && exists i :: 0 <= i < |r.channels[s].pushed| && r.channels[s].pushed[i].1.post == p
  }

  predicate Done(stage: Stage) {
    stage.Pushed? || stage.Queued? || stage.Lost?
  }

  // ---- How posts and sessions move on ------------------------------------------------------------

  predicate StageMoves(r: Relay, before: Stage, after: Stage) {
    match before
    case Validated =>
      && (after.Pushed? ==> after.stamp >= r.dispatches)
      && (after.Queued? ==> after.id > r.lastId)
    case Unclaimed => after.Unclaimed? || after.Lost? || (after.Queued? && after.id > r.lastId)
    case _ => after == before
  }

  /** What is pushed or queued from r on gets a later number. */
  predicate PostsMove(r: Relay, v: Relay) {
    && |r.posts| <= |v.posts| && r.lastId <= v.lastId && r.dispatches <= v.dispatches
    && (forall p: nat | p < |r.posts| ::
        v.posts[p].message == r.posts[p].message && StageMoves(r, r.posts[p].stage, v.posts[p].stage))
    && (forall p: nat | |r.posts| <= p < |v.posts| :: StageMoves(r, Validated, v.posts[p].stage))
  }

  lemma PostsMoveStep(config: Config, r: Relay, step: Step)
    ensures PostsMove(r, Next(config, r, step))
  {
    match step
    case Arrive(request, now) =>
    case Dispatch(p) =>
    case Enqueue(p, now, ok) =>
    case _ => PostsFrame(config, r, step);
  }

  lemma PostsMoveOn(r: Relay, v: Relay, w: Relay)
    requires PostsMove(r, v) && PostsMove(v, w)
    ensures PostsMove(r, w)
  {
  }

  lemma {:induction false} PostsMoveRun(config: Config, r: Relay, steps: seq<Step>)
    ensures PostsMove(r, Run(config, r, steps))
    decreases |steps|
  {
    if steps != [] {
      var next := Next(config, r, steps[0]);
      PostsMoveStep(config, r, steps[0]);
      PostsMoveRun(config, next, steps[1..]);
      PostsMoveOn(r, next, Run(config, next, steps[1..]));
    }
  }

  /** A session with a channel has fetched what it will ever fetch, and its channel only grows. */
  predicate ChannelGrows(r: Relay, v: Relay, s: nat) {
    s in r.channels && s < |r.sessions| ==>
      && s in v.channels && s < |v.sessions|
      && v.sessions[s].fetched == r.sessions[s].fetched && v.sessions[s].key == r.sessions[s].key
      && r.channels[s].pushed <= v.channels[s].pushed
  }

  /** What is new in any channel was pushed from r on. */
  predicate PushesLate(r: Relay, v: Relay) {
    forall c, i | c in v.channels && 0 <= i < |v.channels[c].pushed| ::
      || (c in r.channels && i < |r.channels[c].pushed| && v.channels[c].pushed[i] == r.channels[c].pushed[i])
      || v.channels[c].pushed[i].0 >= r.dispatches
  }

  lemma ChannelGrowsOnDispatch(r: Relay, p: nat, s: nat)
    requires PeersOk(r)
    ensures ChannelGrows(r, Dispatched(r, p), s)
  {
    if p < |r.posts| && r.posts[p].message.recipient in r.peers {
      var m := r.posts[p].message;
      PushAllExact(r.channels, r.peers[m.recipient], r.dispatches, m);
    }
  }

  /** A session with a channel is past its fetch. */
  lemma SessionWithChannel(config: Config, r: Relay, step: Step, s: nat)
    requires s in r.channels && s < |r.sessions| && SessionOk(r.sessions[s], r.channels, s)
    ensures var v := Next(config, r, step);
            && s < |v.sessions| && v.sessions[s].fetched == r.sessions[s].fetched
            && v.sessions[s].key == r.sessions[s].key
  {
  }

  lemma ChannelStays(config: Config, r: Relay, step: Step, s: nat)
    requires !step.Dispatch? && s in r.channels && s < |r.sessions| && SessionOk(r.sessions[s], r.channels, s)
    ensures s in Next(config, r, step).channels
    ensures Next(config, r, step).channels[s].pushed == r.channels[s].pushed
  {
    match step
    case Subscribe(t) =>
    case Stream(t, ok) =>
    case Drop(t) =>
    case _ => ChannelsFrame(config, r, step);
  }

  lemma ChannelGrowsStep(config: Config, r: Relay, step: Step, s: nat)
    requires Inv(r)
    ensures ChannelGrows(r, Next(config, r, step), s)
  {
    if step.Dispatch? {
      ChannelGrowsOnDispatch(r, step.post, s);
    } else if s in r.channels && s < |r.sessions| {
      assert SessionOk(r.sessions[s], r.channels, s);
      SessionWithChannel(config, r, step, s);
      ChannelStays(config, r, step, s);
    }
  }

  lemma PushesLateStep(config: Config, r: Relay, step: Step)
    requires Inv(r)
    ensures PushesLate(r, Next(config, r, step))
  {
    var v := Next(config, r, step);
    if step.Dispatch? {
      if step.post < |r.posts| && r.posts[step.post].stage.Validated? {
        forall c, i | c in v.channels && 0 <= i < |v.channels[c].pushed|
          ensures || (c in r.channels && i < |r.channels[c].pushed|
                      && v.channels[c].pushed[i] == r.channels[c].pushed[i])
                  || v.channels[c].pushed[i].0 >= r.dispatches
        {
          DispatchedChannel(r, step.post, c);
        }
      }
    } else {
      PushesKept(config, r, step);
    }
  }

  lemma PushesLateOn(r: Relay, v: Relay, w: Relay)
    requires PushesLate(r, v) && PushesLate(v, w) && r.dispatches <= v.dispatches
    ensures PushesLate(r, w)
  {
  }

  lemma {:induction false} ChannelsRun(config: Config, r: Relay, steps: seq<Step>, s: nat)
    requires Inv(r)
    ensures ChannelGrows(r, Run(config, r, steps), s) && PushesLate(r, Run(config, r, steps))
    decreases |steps|
  {
    if steps != [] {
      var next := Next(config, r, steps[0]);
      StepKeeps(config, r, steps[0]);
      ChannelGrowsStep(config, r, steps[0], s);
      PushesLateStep(config, r, steps[0]);
      PostsMoveStep(config, r, steps[0]);
      ChannelsRun(config, next, steps[1..], s);
      PushesLateOn(r, next, Run(config, next, steps[1..]));
    }
  }

  // ---- The order of two frames -------------------------------------------------------------------

  /** Queued rows come before pushed messages; rows by id, pushed messages by the dispatch that pushed them. */
  predicate Ahead(a: Stage, b: Stage) {
    match a
    case Queued(id) => b.Pushed? || (b.Queued? && id < b.id)
    case Pushed(stamp) => b.Pushed? && stamp < b.stamp
    case _ => false
  }

  lemma FrameOrderIn(r: Relay, s: nat, i: nat, j: nat)
    requires Inv(r) && s < |r.sessions| && i < j < |r.sessions[s].frames|
    ensures var p, q := r.sessions[s].frames[i].post, r.sessions[s].frames[j].post;
            p < |r.posts| && q < |r.posts| && Ahead(r.posts[p].stage, r.posts[q].stage)
  {
    FrameOrigin(r, s, i);
    FrameOrigin(r, s, j);
    assert SessionOk(r.sessions[s], r.channels, s);
  }

  /** In every reachable state, of two frames of a session the one whose stage is ahead comes first. */
  lemma FrameOrder(config: Config, steps: seq<Step>, s: nat, i: nat, j: nat, p: nat, q: nat)
    requires FrameAt(Run(config, Empty, steps), s, i, p) && FrameAt(Run(config, Empty, steps), s, j, q)
    ensures var r := Run(config, Empty, steps);
            p < |r.posts| && q < |r.posts| && (i < j <==> Ahead(r.posts[p].stage, r.posts[q].stage))
  {
    var r := Run(config, Empty, steps);
    Reachable(config, steps);
    if i < j {
      FrameOrderIn(r, s, i, j);
    } else if j < i {
      FrameOrderIn(r, s, j, i);
    } else {
      FrameOrigin(r, s, i);
    }
  }

  /** A post answered before another arrives is ahead of it, unless it was pushed and the other is queued. */
  lemma AnsweredIsAhead(r: Relay, v: Relay, q: nat, p: nat)
    requires Inv(r) && PostsMove(r, v) && q < |r.posts| <= p < |v.posts| && Done(r.posts[q].stage)
    requires v.posts[q].stage.Queued? || v.posts[q].stage.Pushed?
    requires v.posts[p].stage.Queued? || v.posts[p].stage.Pushed?
    ensures Ahead(v.posts[q].stage, v.posts[p].stage) || (v.posts[q].stage.Pushed? && v.posts[p].stage.Queued?)
  {
  }

  /** A post pushed before r lies in a channel that was there at r. */
  lemma PushedEarlier(r: Relay, v: Relay, q: nat, s: nat)
    requires PostsOk(r) && ChannelsOk(v) && SessionsOk(v) && PostsMove(r, v) && PushesLate(r, v)
    requires q < |r.posts| && r.posts[q].stage.Pushed? && PushedTo(v, s, q)
    ensures s in r.channels
  {
    var i :| 0 <= i < |v.channels[s].pushed| && v.channels[s].pushed[i].1.post == q;
    assert PushOk(v.posts, Hash(v.sessions[s]), v.channels[s].pushed[i]);
  }

  lemma NewNotFetched(r: Relay, p: nat, s: nat)
    requires RowsTraced(r) && |r.posts| <= p
    ensures !WasFetched(r, s, p)
  {
    if s < |r.sessions| {
      forall m | m in r.sessions[s].fetched
        ensures m.post != p
      {
        assert Traced(r.posts, m);
      }
    }
  }

  /** A session that a settled post was pushed to has fetched already, and cannot fetch a later one. */
  lemma PushedThenFetched(r: Relay, v: Relay, q: nat, p: nat, s: nat)
    requires Inv(r) && Inv(v) && PostsMove(r, v) && PushesLate(r, v) && ChannelGrows(r, v, s)
    requires q < |r.posts| <= p && r.posts[q].stage.Pushed? && PushedTo(v, s, q)
    ensures !WasFetched(v, s, p)
  {
    PushedEarlier(r, v, q, s);
    NewNotFetched(r, p, s);
  }

  lemma FrameSource(r: Relay, s: nat, i: nat, p: nat)
    requires Inv(r) && FrameAt(r, s, i, p)
    ensures p < |r.posts|
    ensures (r.posts[p].stage.Queued? && WasFetched(r, s, p)) || (r.posts[p].stage.Pushed? && PushedTo(r, s, p))
  {
    FrameOrigin(r, s, i);
    var session := r.sessions[s];
    if i < session.drained {
      assert InRows(session.fetched, p);
    } else {
      assert r.channels[s].pushed[i - session.drained].1.post == p;
    }
  }

  /**
    Within one session, a post that was answered before another arrived never comes after it: in every
    run, for every mailbox and every session.
   */
  lemma AnsweredFirstComesFirst(config: Config, before: seq<Step>, after: seq<Step>, q: nat, p: nat, s: nat, i: nat,
                                j: nat)
    requires var r := Run(config, Empty, before);
             && q < |r.posts| <= p && Done(r.posts[q].stage)
             && FrameAt(Run(config, r, after), s, i, q) && FrameAt(Run(config, r, after), s, j, p)
    ensures i < j
  {
    var r := Run(config, Empty, before);
    var v := Run(config, r, after);
    Reachable(config, before);
    RunKeeps(config, r, after);
    PostsMoveRun(config, r, after);
    ChannelsRun(config, r, after, s);
    FirstInFrames(r, v, q, p, s, i, j);
  }

  lemma FirstInFrames(r: Relay, v: Relay, q: nat, p: nat, s: nat, i: nat, j: nat)
    requires Inv(r) && Inv(v) && PostsMove(r, v) && PushesLate(r, v) && ChannelGrows(r, v, s)
    requires q < |r.posts| <= p && Done(r.posts[q].stage) && FrameAt(v, s, i, q) && FrameAt(v, s, j, p)
    ensures i < j
  {
    FrameSource(v, s, i, q);
    FrameSource(v, s, j, p);
    AnsweredIsAhead(r, v, q, p);
    if v.posts[q].stage.Pushed? && v.posts[p].stage.Queued? {
      PushedThenFetched(r, v, q, p, s);
    }
    if j < i {
      FrameOrderIn(v, s, j, i);
    }
  }

  // ---- Live dispatch -----------------------------------------------------------------------------

  /** In every reachable state a dispatch succeeds if and only if some session streams for the mailbox. */
  lemma PushedIff(config: Config, steps: seq<Step>, p: nat)
    requires p < |Run(config, Empty, steps).posts| && Run(config, Empty, steps).posts[p].stage.Validated?
    ensures var r := Run(config, Empty, steps);
            Dispatched(r, p).posts[p].stage.Pushed? <==> exists s :: Streams(r, s, r.posts[p].message.recipient)
  {
    var r := Run(config, Empty, steps);
    if ReachesSomeone(r.peers, r.channels, r.posts[p].message) {
      var s := DispatchNeedsStreaming(config, steps, p);
      assert Streams(r, s, r.posts[p].message.recipient);
    }
    forall s | Streams(r, s, r.posts[p].message.recipient)
      ensures Dispatched(r, p).posts[p].stage.Pushed?
    {
      DispatchReachesStreaming(config, steps, p, s);
    }
  }

  ghost predicate StillOnItsWay(r: Relay, q: nat) {
    q < |r.posts| && (r.posts[q].stage.Validated? || r.posts[q].stage.Unclaimed? || InRows(r.rows, q))
  }

  /** A post that is on its way has not been fetched by anyone. */
  lemma NotYetFetched(r: Relay, q: nat, s: nat)
    requires Inv(r) && StillOnItsWay(r, q)
    ensures !WasFetched(r, s, q) && !r.posts[q].stage.Pushed?
  {
    var places: seq<Place> :| PlacesOk(r, places);
    RowsLie(r, places, q);
  }

  /**
    A post that is pushed to a streaming session passes every other post still on its way, whatever
    happens next: one that the session ever sends after all is sent later, and it was not even dispatched.
   */
  lemma PushPasses(config: Config, before: seq<Step>, p: nat, q: nat, s: nat, after: seq<Step>, j: nat)
    requires var r := Run(config, Empty, before);
             && p < |r.posts| && r.posts[p].stage.Validated? && Streams(r, s, r.posts[p].message.recipient)
             && q != p && StillOnItsWay(r, q)
             && FrameAt(Run(config, Dispatched(r, p), after), s, j, q)
    ensures var r := Run(config, Empty, before);
            && r.posts[q].stage.Validated?
            && exists i :: 0 <= i < j && FrameAt(Run(config, Dispatched(r, p), after), s, i, p)
  {
    var r := Run(config, Empty, before);
    var d := Dispatched(r, p);
    var v := Run(config, d, after);
    Reachable(config, before);
    StepKeeps(config, r, Dispatch(p));
    RunKeeps(config, d, after);
    DispatchReachesStreaming(config, before, p, s);
    ChannelsRun(config, d, after, s);
    PostsMoveRun(config, d, after);
    assert SessionOk(r.sessions[s], r.channels, s);
    NotYetFetched(r, q, s);
    PassedAfter(r, d, v, p, q, s, j);
  }

  lemma PassedAfter(r: Relay, d: Relay, v: Relay, p: nat, q: nat, s: nat, j: nat)
    requires Inv(v) && PostsMove(d, v) && ChannelGrows(d, v, s)
    requires s < |r.sessions| && s in r.channels && s in d.channels && d.sessions == r.sessions
    requires q < |r.posts| == |d.posts| && d.posts[q] == r.posts[q] && d.dispatches == r.dispatches + 1
    requires p < |r.posts| && r.posts[p].message.post == p
    requires d.channels[s].pushed == r.channels[s].pushed + [(r.dispatches, r.posts[p].message)]
    requires !WasFetched(r, s, q) && !r.posts[q].stage.Pushed? && FrameAt(v, s, j, q)
    ensures r.posts[q].stage.Validated? && exists i :: 0 <= i < j && FrameAt(v, s, i, p)
  {
    FrameSource(v, s, j, q);
    FetchedBefore(r, d, v, q, s);
    var n := |r.channels[s].pushed|;
    assert d.channels[s].pushed[n] == (r.dispatches, r.posts[p].message);
    assert v.channels[s].pushed[n] == d.channels[s].pushed[n];
    EarlierPushIsSent(v, s, j, n);
  }

  /** The session has fetched all it ever will. */
  lemma FetchedBefore(r: Relay, d: Relay, v: Relay, q: nat, s: nat)
    requires s < |r.sessions| && s < |v.sessions| && v.sessions[s].fetched == r.sessions[s].fetched
    requires !WasFetched(r, s, q)
    ensures !WasFetched(v, s, q)
  {
  }

  /** A message that lies in the channel before one that was sent has been sent before it. */
  lemma EarlierPushIsSent(r: Relay, s: nat, j: nat, n: nat)
    requires Inv(r) && s < |r.sessions| && j < |r.sessions[s].frames| && s in r.channels && n < |r.channels[s].pushed|
    requires var q := r.sessions[s].frames[j].post;
             q < |r.posts| && r.posts[q].stage.Pushed? && r.channels[s].pushed[n].0 < r.posts[q].stage.stamp
    ensures exists i :: 0 <= i < j && FrameAt(r, s, i, r.channels[s].pushed[n].1.post)
  {
    FrameOrigin(r, s, j);
    var session, pushed := r.sessions[s], r.channels[s].pushed;
    assert SessionOk(session, r.channels, s);
    var i := session.drained + n;
    assert j >= session.drained && n < j - session.drained;
    assert session.frames[i] == pushed[n].1;
    assert FrameAt(r, s, i, pushed[n].1.post);
  }

  // ---- Rows a session leaves behind --------------------------------------------------------------

  predicate Past(phase: Phase) {
    phase.Draining? || phase.Streaming? || phase.Closed?
  }

  /** What upTo stands for: rows of the mailbox up to that id are gone from the table, and no later ones fetched. */
  predicate UpToOk(r: Relay, session: WsSession) {
    && (session.upTo.None? ==> session.fetched == [])
    && (session.upTo.Some? ==>
          && session.key.Some? && Past(session.phase)
          && session.upTo.value <= r.lastId
          && (forall m | m in session.fetched :: m.id <= session.upTo.value)
          && (forall m | m in r.rows && m.recipient == Hash(session) :: m.id > session.upTo.value))
  }

  ghost predicate AllUpTo(r: Relay) {
    forall s | 0 <= s < |r.sessions| :: UpToOk(r, r.sessions[s])
  }

  lemma RowIdsBounded(r: Relay)
    requires Inv(r)
    ensures forall m | m in r.rows :: 1 <= m.id <= r.lastId
  {
    var places: seq<Place> :| PlacesOk(r, places);
    forall m | m in r.rows
      ensures 1 <= m.id <= r.lastId
    {
      assert m.id in Ids(r.rows);
    }
  }

  /** Rows only leave, or come in under a new id. */
  predicate RowsMove(r: Relay, v: Relay) {
    r.lastId <= v.lastId && forall m | m in v.rows :: m in r.rows || m.id > r.lastId
  }

  lemma RowsMoveStep(config: Config, r: Relay, step: Step)
    requires Increasing(r.rows)
    ensures RowsMove(r, Next(config, r, step))
  {
    match step
    case Fetch(s, ok) =>
      if InPhase(r, s, Fetching) {
        FetchPartitions(r.rows, Hash(r.sessions[s]));
      }
    case Tick(now) => CleanupPartitions(r.rows, now);
    case Enqueue(p, now, ok) =>
    case Connect(challenge) =>
    case _ => RowsFrame(config, r, step);
  }

  /** No other step than the fetch touches these fields of a session. */
  lemma UpToSame(config: Config, r: Relay, step: Step, s: nat)
    requires s < |r.sessions| && !(step.Fetch? && step.session == s)
    ensures var v := Next(config, r, step);
            && s < |v.sessions| && v.sessions[s].upTo == r.sessions[s].upTo
            && v.sessions[s].fetched == r.sessions[s].fetched
            && (Past(r.sessions[s].phase) ==> v.sessions[s].key == r.sessions[s].key && Past(v.sessions[s].phase))
  {
  }

  lemma UpToStays(r: Relay, v: Relay, before: WsSession, after: WsSession)
    requires UpToOk(r, before) && RowsMove(r, v)
    requires after.upTo == before.upTo && after.fetched == before.fetched
    requires Past(before.phase) ==> after.key == before.key && Past(after.phase)
    ensures UpToOk(v, after)
  {
  }

  lemma FetchUpTo(r: Relay, s: nat, ok: bool)
    requires Inv(r) && InPhase(r, s, Fetching) && UpToOk(r, r.sessions[s])
    ensures UpToOk(Fetched(r, s, ok), Fetched(r, s, ok).sessions[s])
  {
    assert SessionOk(r.sessions[s], r.channels, s);
    RowIdsBounded(r);
    FetchPartitions(r.rows, Hash(r.sessions[s]));
  }

  lemma UpToKept(config: Config, r: Relay, step: Step)
    requires Inv(r) && AllUpTo(r)
    ensures AllUpTo(Next(config, r, step))
  {
    var v := Next(config, r, step);
    var places: seq<Place> :| PlacesOk(r, places);
    RowsMoveStep(config, r, step);
    forall s | 0 <= s < |v.sessions|
      ensures UpToOk(v, v.sessions[s])
    {
      if s < |r.sessions| {
        if step.Fetch? && step.session == s && InPhase(r, s, Fetching) {
          FetchUpTo(r, s, step.ok);
        } else {
          OtherUpTo(config, r, step, s);
        }
      }
    }
  }

  lemma OtherUpTo(config: Config, r: Relay, step: Step, s: nat)
    requires s < |r.sessions| && UpToOk(r, r.sessions[s]) && RowsMove(r, Next(config, r, step))
    requires !(step.Fetch? && step.session == s && InPhase(r, s, Fetching))
    ensures s < |Next(config, r, step).sessions| && UpToOk(Next(config, r, step), Next(config, r, step).sessions[s])
  {
    if !(step.Fetch? && step.session == s) {
      UpToSame(config, r, step, s);
      UpToStays(r, Next(config, r, step), r.sessions[s], Next(config, r, step).sessions[s]);
    }
  }

  lemma {:induction false} UpToRun(config: Config, r: Relay, steps: seq<Step>)
    requires Inv(r) && AllUpTo(r)
    ensures AllUpTo(Run(config, r, steps))
    decreases |steps|
  {
    if steps != [] {
      StepKeeps(config, r, steps[0]);
      UpToKept(config, r, steps[0]);
      UpToRun(config, Next(config, r, steps[0]), steps[1..]);
    }
  }

  /**
    In every reachable state, for every session of its mailbox, a queued post is in the table if and only
    if no tick has removed it, no other session has fetched it, and this session's fetch has not come or
    failed, or came before the post was queued.
   */
  lemma LeftInTableIff(config: Config, steps: seq<Step>, s: nat, p: nat)
    requires var r := Run(config, Empty, steps);
             && s < |r.sessions| && r.sessions[s].key.Some? && p < |r.posts|
             && r.posts[p].stage.Queued? && r.posts[p].message.recipient == Hash(r.sessions[s])
    ensures var r := Run(config, Empty, steps);
            InRows(r.rows, p)
            <==> && !WasRemoved(r, p) && (forall t | t != s :: !WasFetched(r, t, p))
                 && (r.sessions[s].upTo.None? || r.sessions[s].upTo.value < r.posts[p].stage.id)
  {
    var r := Run(config, Empty, steps);
    Reachable(config, []);
    Reachable(config, steps);
    UpToRun(config, Empty, steps);
    Conservation(config, steps, p);
    assert UpToOk(r, r.sessions[s]);
    LeftWhen(r, s, p);
  }

  /** A row of the mailbox is past upTo in the table, and up to it when this session has fetched it. */
  lemma LeftWhen(r: Relay, s: nat, p: nat)
    requires RowsTraced(r) && s < |r.sessions| && UpToOk(r, r.sessions[s]) && p < |r.posts| && r.posts[p].stage.Queued?
    requires r.posts[p].message.recipient == Hash(r.sessions[s])
    ensures var past := r.sessions[s].upTo.None? || r.sessions[s].upTo.value < r.posts[p].stage.id;
            && (InRows(r.rows, p) ==> past)
            && (WasFetched(r, s, p) ==> !past)
  {
    if InRows(r.rows, p) {
      var k :| 0 <= k < |r.rows| && r.rows[k].post == p;
      assert r.rows[k] in r.rows;
      assert Traced(r.posts, r.rows[k]);
    }
    if WasFetched(r, s, p) {
      var k :| 0 <= k < |r.sessions[s].fetched| && r.sessions[s].fetched[k].post == p;
      assert r.sessions[s].fetched[k] in r.sessions[s].fetched;
      assert Traced(r.posts, r.sessions[s].fetched[k]);
    }
  }

  // ---- Overtaking ----------------------------------------------------------------------------------

  /** What lies in the session before something it sent has been sent too. */
  lemma AheadIsSent(r: Relay, s: nat, i: nat, q: nat, p: nat)
    requires Inv(r) && FrameAt(r, s, i, p) && q < |r.posts| && p < |r.posts|
    requires WasFetched(r, s, q) || (PushedTo(r, s, q) && r.posts[p].stage.Pushed?)
    requires Ahead(r.posts[q].stage, r.posts[p].stage)
    ensures exists j :: FrameAt(r, s, j, q)
  {
    FrameOrigin(r, s, i);
    var session := r.sessions[s];
    assert SessionOk(session, r.channels, s);
    if WasFetched(r, s, q) {
      var k :| 0 <= k < |session.fetched| && session.fetched[k].post == q;
      assert session.fetched[k] in session.fetched;
      assert Traced(r.posts, session.fetched[k]);
      assert k < session.drained;
      assert session.frames[k] == session.fetched[k];
      assert FrameAt(r, s, k, q);
    } else {
      var k :| 0 <= k < |r.channels[s].pushed| && r.channels[s].pushed[k].1.post == q;
      assert PushOk(r.posts, Hash(session), r.channels[s].pushed[k]);
      EarlierPushIsSent(r, s, i, k);
    }
  }

  lemma OvertakenIn(r: Relay, v: Relay, q: nat, p: nat, s: nat, i: nat)
    requires Inv(r) && Inv(v) && PostsMove(r, v) && PushesLate(r, v) && ChannelGrows(r, v, s)
    requires q < |r.posts| <= p && Done(r.posts[q].stage) && FrameAt(v, s, i, p)
    ensures (exists j :: FrameAt(v, s, j, q)) <==> WasFetched(v, s, q) || PushedTo(v, s, q)
  {
    FrameSource(v, s, i, p);
    if j: nat :| FrameAt(v, s, j, q) {
      FrameSource(v, s, j, q);
    } else if WasFetched(v, s, q) {
      FetchedIsQueued(v, s, q);
      AheadIsSent(v, s, i, q, p);
    } else if PushedTo(v, s, q) {
      PushedIsPushed(v, s, q);
      if WasFetched(v, s, p) {
        PushedThenFetched(r, v, q, p, s);
      }
      AheadIsSent(v, s, i, q, p);
    }
  }

  lemma FetchedIsQueued(r: Relay, s: nat, q: nat)
    requires RowsTraced(r) && WasFetched(r, s, q)
    ensures q < |r.posts| && r.posts[q].stage.Queued?
  {
    var k :| 0 <= k < |r.sessions[s].fetched| && r.sessions[s].fetched[k].post == q;
    assert r.sessions[s].fetched[k] in r.sessions[s].fetched;
    assert Traced(r.posts, r.sessions[s].fetched[k]);
  }

  lemma PushedIsPushed(r: Relay, s: nat, q: nat)
    requires ChannelsOk(r) && SessionsOk(r) && PushedTo(r, s, q)
    ensures q < |r.posts| && r.posts[q].stage.Pushed?
  {
    var k :| 0 <= k < |r.channels[s].pushed| && r.channels[s].pushed[k].1.post == q;
    assert PushOk(r.posts, Hash(r.sessions[s]), r.channels[s].pushed[k]);
  }

  /**
    Once a session has sent a post p, what has become of a post q of the mailbox that was answered before
    p arrived: the session has sent it too, earlier, if and only if it fetched it or had it pushed; and p
    has overtaken it in the table if and only if it was queued, no tick removed it, no other session
    fetched it, and this session's fetch failed or came before q was queued.
   */
  lemma OvertakenIff(config: Config, before: seq<Step>, after: seq<Step>, q: nat, p: nat, s: nat, i: nat)
    requires var r := Run(config, Empty, before);
             var v := Run(config, r, after);
             && q < |r.posts| <= p < |v.posts| && Done(r.posts[q].stage) && FrameAt(v, s, i, p)
             && r.posts[q].message.recipient == v.posts[p].message.recipient
    ensures var r := Run(config, Empty, before);
            var v := Run(config, r, after);
            && ((exists j :: 0 <= j < i && FrameAt(v, s, j, q)) <==> WasFetched(v, s, q) || PushedTo(v, s, q))
            && (InRows(v.rows, q)
                <==> && r.posts[q].stage.Queued? && !WasRemoved(v, q) && (forall t | t != s :: !WasFetched(v, t, q))
                     && (v.sessions[s].upTo.None? || v.sessions[s].upTo.value < r.posts[q].stage.id))
  {
    var r := Run(config, Empty, before);
    var v := Run(config, r, after);
    Reachable(config, before);
    RunKeeps(config, r, after);
    PostsMoveRun(config, r, after);
    ChannelsRun(config, r, after, s);
    OvertakenIn(r, v, q, p, s, i);
    if j: nat :| FrameAt(v, s, j, q) {
      AnsweredFirstComesFirst(config, before, after, q, p, s, j, i);
      assert j < i && FrameAt(v, s, j, q);
    }
    RunSplit(config, Empty, before, after);
    FrameMailbox(v, s, i, p);
    if r.posts[q].stage.Queued? {
      LeftInTableIff(config, before + after, s, q);
    } else {
      Conservation(config, before + after, q);
    }
  }

  lemma FrameMailbox(r: Relay, s: nat, i: nat, p: nat)
    requires Inv(r) && FrameAt(r, s, i, p)
    ensures p < |r.posts| && r.sessions[s].key.Some? && r.posts[p].message.recipient == Hash(r.sessions[s])
  {
    FrameOrigin(r, s, i);
    var session := r.sessions[s];
    assert SessionOk(session, r.channels, s);
    if i < session.drained {
      assert session.fetched[i] in session.fetched;
      assert Traced(r.posts, session.fetched[i]);
    } else {
      assert PushOk(r.posts, Hash(session), r.channels[s].pushed[i - session.drained]);
    }
  }
}
