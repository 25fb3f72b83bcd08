/** What the relay guarantees in every reachable state, stated on that state alone. */
module RelayTheorems {
  import opened Wrappers
  import opened MessageTable
  import opened PeerRegistry
  import opened Relay
  import opened RelayInvariant
  import opened RelayKeeps

  ghost predicate InRows(rows: seq<QueuedMessage>, p: nat) {
    exists k :: 0 <= k < |rows| && rows[k].post == p
  }

  ghost predicate WasRemoved(r: Relay, p: nat) {
    exists k :: 0 <= k < |r.removed| && r.removed[k].0.post == p
  }

  ghost predicate WasFetched(r: Relay, s: nat, p: nat) {
    s < |r.sessions| && InRows(r.sessions[s].fetched, p)
  }

  ghost predicate WasPushed(r: Relay, p: nat) {
    exists c, i :: c in r.channels && 0 <= i < |r.channels[c].pushed| && r.channels[c].pushed[i].1.post == p
  }

  /** A row of request p lies where its id lies. */
  lemma RowsLie(r: Relay, places: seq<Place>, p: nat)
    requires PlacesOk(r, places) && RowsTraced(r) && PostsOk(r) && p < |r.posts|
    ensures InRows(r.rows, p) <==> r.posts[p].stage.Queued? && At(places, r.posts[p].stage.id, InTable)
    ensures forall s: nat ::
            WasFetched(r, s, p) <==> r.posts[p].stage.Queued? && At(places, r.posts[p].stage.id, WithSession(s))
    ensures WasRemoved(r, p) <==> r.posts[p].stage.Queued? && At(places, r.posts[p].stage.id, Removed)
  {
    RowsLieIn(r, r.rows, p);
    forall s: nat | s < |r.sessions| {
      RowsLieIn(r, r.sessions[s].fetched, p);
    }
    RowsLieIn(r, RemovedRows(r.removed), p);
    RemovedRowsOf(r, p);
    if r.posts[p].stage.Queued? {
      var id := r.posts[p].stage.id;
      assert id in Ids(r.rows) <==> At(places, id, InTable);
      assert id in Ids(RemovedRows(r.removed)) <==> At(places, id, Removed);
      forall s: nat | s < |r.sessions|
        ensures WasFetched(r, s, p) <==> At(places, id, WithSession(s))
      {
        assert id in Ids(r.sessions[s].fetched) <==> At(places, id, WithSession(s));
      }
    }
  }

  lemma RowsLieIn(r: Relay, rows: seq<QueuedMessage>, p: nat)
    requires PostsOk(r) && p < |r.posts| && forall m | m in rows :: Traced(r.posts, m)
    ensures InRows(rows, p) ==> r.posts[p].stage.Queued? && r.posts[p].stage.id in Ids(rows)
    ensures r.posts[p].stage.Queued? && r.posts[p].stage.id in Ids(rows) ==> InRows(rows, p)
  {
    if InRows(rows, p) {
      var k :| 0 <= k < |rows| && rows[k].post == p;
      assert rows[k] in rows;
    }
    if r.posts[p].stage.Queued? && r.posts[p].stage.id in Ids(rows) {
      var m :| m in rows && m.id == r.posts[p].stage.id;
      assert Traced(r.posts, m);
      assert m.post == p;
    }
  }

  lemma RemovedRowsOf(r: Relay, p: nat)
    ensures InRows(RemovedRows(r.removed), p) <==> WasRemoved(r, p)
  {
    if WasRemoved(r, p) {
      var k :| 0 <= k < |r.removed| && r.removed[k].0.post == p;
      assert RemovedRows(r.removed)[k].post == p;
    }
    if InRows(RemovedRows(r.removed), p) {
      var k :| 0 <= k < |RemovedRows(r.removed)| && RemovedRows(r.removed)[k].post == p;
      assert r.removed[k].0.post == p;
    }
  }

  // ---- Conservation ------------------------------------------------------------------------------

  /** A request is pushed live exactly when its handler says so. */
  lemma PushedMeansHeld(r: Relay, p: nat)
    requires Inv(r) && p < |r.posts|
    ensures WasPushed(r, p) <==> r.posts[p].stage.Pushed?
  {
    if r.posts[p].stage.Pushed? {
      var c: ChannelId, i: nat :| RelayInvariant.Holds(r, c, i, (r.posts[p].stage.stamp, r.posts[p].message));
      assert r.channels[c].pushed[i].1.post == p;
    }
    if WasPushed(r, p) {
      var c, i :| c in r.channels && 0 <= i < |r.channels[c].pushed| && r.channels[c].pushed[i].1.post == p;
      assert PushOk(r.posts, Hash(r.sessions[c]), r.channels[c].pushed[i]);
    }
  }

  /**
    In every reachable state each accepted request is in exactly one place: with its handler, pushed
    to live channels, in the table, fetched by exactly one session, or removed; a request whose INSERT
    failed is in none.
   */
  lemma Conservation(config: Config, steps: seq<Step>, p: nat)
    requires p < |Run(config, Empty, steps).posts|
    ensures var r := Run(config, Empty, steps);
            var queued := r.posts[p].stage.Queued?;
            && (r.posts[p].stage.Pushed? <==> WasPushed(r, p))
            && (queued <==> InRows(r.rows, p) || WasRemoved(r, p) || exists s :: WasFetched(r, s, p))
            && !(InRows(r.rows, p) && WasRemoved(r, p))
            && (forall s | WasFetched(r, s, p) ::
                !InRows(r.rows, p) && !WasRemoved(r, p) && forall t | WasFetched(r, t, p) :: t == s)
  {
    var r := Run(config, Empty, steps);
    Reachable(config, steps);
    PushedMeansHeld(r, p);
    var places: seq<Place> :| PlacesOk(r, places);
    RowsLie(r, places, p);
    if r.posts[p].stage.Queued? {
      var id := r.posts[p].stage.id;
      if places[id - 1].WithSession? {
        assert WasFetched(r, places[id - 1].session, p);
      }
    }
  }

  /** What was queued is what was asked for, and a tick removes nothing before its time. */
  lemma QueuedAsSent(config: Config, steps: seq<Step>, m: QueuedMessage)
    requires var r := Run(config, Empty, steps);
             m in r.rows || (exists s :: 0 <= s < |r.sessions| && m in r.sessions[s].fetched)
               || (exists t :: (m, t) in r.removed)
    ensures var r := Run(config, Empty, steps);
            && m.post < |r.posts| && r.posts[m.post].stage == Queued(m.id) && SameContent(m, r.posts[m.post].message)
            && forall t | (m, t) in r.removed :: m.expiresAt <= t
  {
    var r := Run(config, Empty, steps);
    Reachable(config, steps);
    if m in r.rows {
      assert Traced(r.posts, m);
    } else if t :| (m, t) in r.removed {
      assert Traced(r.posts, (m, t).0);
    } else {
      var s :| 0 <= s < |r.sessions| && m in r.sessions[s].fetched;
      assert Traced(r.posts, m);
    }
    forall t | (m, t) in r.removed
      ensures m.expiresAt <= t
    {
      assert (m, t).0.expiresAt <= (m, t).1;
    }
  }

  /** The session's client has signed this session's own challenge under a key that hashes to the mailbox. */
  predicate SignedFor(session: WsSession, mailbox: string) {
    && session.key.Some? && session.key.value.mailbox == mailbox
    && session.signature == Some(Signed(session.key.value, session.challenge))
  }

  /** In every reachable state, whoever is subscribed to a mailbox or has drained it has signed for it. */
  lemma OnlySignedSessions(config: Config, steps: seq<Step>)
    ensures var r := Run(config, Empty, steps);
            && (forall h, c | h in r.peers && c in r.peers[h] :: c < |r.sessions| && SignedFor(r.sessions[c], h))
            && (forall s: nat, m | s < |r.sessions| && m in r.sessions[s].fetched ::
                SignedFor(r.sessions[s], m.recipient))
  {
    var r := Run(config, Empty, steps);
    Reachable(config, steps);
    forall h, c | h in r.peers && c in r.peers[h]
      ensures c < |r.sessions| && SignedFor(r.sessions[c], h)
    {
      assert SessionOk(r.sessions[c], r.channels, c);
    }
    forall s: nat, m | s < |r.sessions| && m in r.sessions[s].fetched
      ensures SignedFor(r.sessions[s], m.recipient)
    {
      assert SessionOk(r.sessions[s], r.channels, s);
    }
  }

  /**
    A row leaves the table only through a fetch by a session authenticated for its mailbox, or through
    a tick at or after its expiry. So a message queued between a session's fetch and its subscribe
    stays there, whatever that session goes on to do.
   */
  lemma RowLeavesOnly(config: Config, r: Relay, step: Step, m: QueuedMessage)
    requires Inv(r) && m in r.rows && m !in Next(config, r, step).rows
    ensures match step
            case Fetch(s, ok) =>
              && ok && InPhase(r, s, Fetching) && SignedFor(r.sessions[s], m.recipient)
              && m in Next(config, r, step).sessions[s].fetched
            case Tick(now) => m.expiresAt <= now
            case _ => false
  {
    match step
    case Fetch(s, ok) =>
      if InPhase(r, s, Fetching) {
        assert SessionOk(r.sessions[s], r.channels, s);
        FetchPartitions(r.rows, Hash(r.sessions[s]));
      }
    case Tick(now) =>
      CleanupPartitions(r.rows, now);
    case _ =>
  }

  // ---- Sessions ----------------------------------------------------------------------------------

  /**
    The payload frames of a session are a prefix of its fetched rows, which are in id order, and then,
    once all of those are out, a prefix of what was pushed to it, in dispatch order; all of it belongs
    to the mailbox of a key that signed this session's own challenge.
   */
  lemma SessionFrames(config: Config, steps: seq<Step>, s: nat)
    requires s < |Run(config, Empty, steps).sessions|
    ensures var r := Run(config, Empty, steps);
            var session := r.sessions[s];
            var pushed := if s in r.channels then r.channels[s].pushed else [];
            && session.drained <= |session.fetched| && session.streamed <= |pushed|
            && session.frames == session.fetched[..session.drained] + Messages(pushed[..session.streamed])
            && (session.streamed > 0 ==> session.drained == |session.fetched|)
            && Increasing(session.fetched)
            && (forall i, j | 0 <= i < j < |pushed| :: pushed[i].0 < pushed[j].0)
            && (forall k | 0 <= k < |session.frames| ::
                  && session.key.Some?
                  && session.signature == Some(Signed(session.key.value, session.challenge))
                  && session.frames[k].recipient == session.key.value.mailbox)
  {
    var r := Run(config, Empty, steps);
    var session := r.sessions[s];
    Reachable(config, steps);
    assert SessionOk(session, r.channels, s);
    assert Messages([]) == [];
    assert session.fetched[..|session.fetched|] == session.fetched;
    forall k | 0 <= k < |session.frames|
      ensures session.key.Some? && session.frames[k].recipient == session.key.value.mailbox
    {
      if k < session.drained {
        assert session.frames[k] in session.fetched;
      } else {
        assert PushOk(r.posts, Hash(session), r.channels[s].pushed[k - session.drained]);
      }
    }
  }

  /** Where a frame of a session came from. */
  lemma FrameOrigin(r: Relay, s: nat, k: nat)
    requires Inv(r) && s < |r.sessions| && k < |r.sessions[s].frames|
    ensures var m := r.sessions[s].frames[k];
            && m.post < |r.posts|
            && (if k < r.sessions[s].drained
                then k < |r.sessions[s].fetched| && m == r.sessions[s].fetched[k]
                  && r.posts[m.post].stage == Queued(m.id)
                else
                  && s in r.channels && k - r.sessions[s].drained < |r.channels[s].pushed|
                  && m == r.channels[s].pushed[k - r.sessions[s].drained].1
                  && r.posts[m.post].stage == Pushed(r.channels[s].pushed[k - r.sessions[s].drained].0))
  {
    var session := r.sessions[s];
    assert SessionOk(session, r.channels, s);
    if k < session.drained {
      assert session.frames[k] == session.fetched[k];
      assert session.fetched[k] in r.sessions[s].fetched;
      assert Traced(r.posts, session.fetched[k]);
    } else {
      assert PushOk(r.posts, Hash(session), r.channels[s].pushed[k - session.drained]);
    }
  }

  /** No posted message appears twice in one session. */
  lemma NoDuplicates(config: Config, steps: seq<Step>, s: nat, i: nat, j: nat)
    requires var r := Run(config, Empty, steps);
             s < |r.sessions| && i < j < |r.sessions[s].frames|
    ensures var frames := Run(config, Empty, steps).sessions[s].frames;
            frames[i].post != frames[j].post
  {
    var r := Run(config, Empty, steps);
    Reachable(config, steps);
    FrameOrigin(r, s, i);
    FrameOrigin(r, s, j);
    assert SessionOk(r.sessions[s], r.channels, s);
  }

  /** A queued message appears in at most one session over the whole run. */
  lemma QueuedInOneSession(config: Config, steps: seq<Step>, s: nat, i: nat, t: nat, j: nat)
    requires var r := Run(config, Empty, steps);
             && s < |r.sessions| && i < |r.sessions[s].frames| && t < |r.sessions| && j < |r.sessions[t].frames|
             && r.sessions[s].frames[i].post == r.sessions[t].frames[j].post
             && r.sessions[s].frames[i].post < |r.posts|
             && r.posts[r.sessions[s].frames[i].post].stage.Queued?
    ensures s == t && i == j
  {
    var r := Run(config, Empty, steps);
    Reachable(config, steps);
    FrameOrigin(r, s, i);
    FrameOrigin(r, t, j);
    var p := r.sessions[s].frames[i].post;
    assert r.sessions[s].fetched[i].post == p && r.sessions[t].fetched[j].post == p;
    assert WasFetched(r, s, p) && WasFetched(r, t, p);
    Conservation(config, steps, p);
    if i < j {
      NoDuplicates(config, steps, s, i, j);
    } else if j < i {
      NoDuplicates(config, steps, s, j, i);
    }
  }

  // ---- Dispatch ----------------------------------------------------------------------------------

  /**
    dispatch_live reaches exactly the sessions then streaming for the mailbox, one copy each, and
    reports success exactly when there is one; otherwise the handler goes on to queue the message.
   */
  lemma DispatchReachesStreaming(config: Config, steps: seq<Step>, p: nat, s: nat)
    requires var r := Run(config, Empty, steps);
             p < |r.posts| && r.posts[p].stage.Validated? && s < |r.sessions|
    ensures var r := Run(config, Empty, steps);
            var v := Dispatched(r, p);
            var m := r.posts[p].message;
            var hit := r.sessions[s].phase.Streaming? && Hash(r.sessions[s]) == m.recipient;
            && v.posts[p].stage == (if ReachesSomeone(r.peers, r.channels, m) then Pushed(r.dispatches) else Unclaimed)
            && (hit ==> v.posts[p].stage.Pushed?)
            && (s in r.channels ==>
                  s in v.channels && v.channels[s].pushed
                    == r.channels[s].pushed + (if hit then [(r.dispatches, m)] else []))
  {
    var r := Run(config, Empty, steps);
    Reachable(config, steps);
    var m := r.posts[p].message;
    assert SessionOk(r.sessions[s], r.channels, s) && Registered(r, s);
    if m.recipient in r.peers {
      OpenOnesExact(r.channels, r.peers[m.recipient]);
      PushAllExact(r.channels, r.peers[m.recipient], r.dispatches, m);
    }
  }

  /** And when it reports success, some session was streaming for the mailbox. */
  lemma DispatchNeedsStreaming(config: Config, steps: seq<Step>, p: nat) returns (s: nat)
    requires var r := Run(config, Empty, steps);
             p < |r.posts| && r.posts[p].stage.Validated? && ReachesSomeone(r.peers, r.channels, r.posts[p].message)
    ensures var r := Run(config, Empty, steps);
            s < |r.sessions| && r.sessions[s].phase.Streaming? && Hash(r.sessions[s]) == r.posts[p].message.recipient
  {
    var r := Run(config, Empty, steps);
    Reachable(config, steps);
    var senders := r.peers[r.posts[p].message.recipient];
    OpenOnesExact(r.channels, senders);
    s := OpenOnes(r.channels, senders)[0];
    assert s in OpenOnes(r.channels, senders);
    assert SessionOk(r.sessions[s], r.channels, s);
  }

  /**
    In every reachable state each registered hash has a non-empty list of senders, without repeats, all
    of sessions that signed for it.
   */
  lemma RegistryPruned(config: Config, steps: seq<Step>, hash: string)
    requires hash in Run(config, Empty, steps).peers
    ensures var r := Run(config, Empty, steps);
            && r.peers[hash] != [] && NoRepeats(r.peers[hash])
            && forall c | c in r.peers[hash] :: c < |r.sessions| && SignedFor(r.sessions[c], hash)
  {
    Reachable(config, steps);
    OnlySignedSessions(config, steps);
  }
}
