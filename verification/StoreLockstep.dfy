/** Two real engines, one over each store, taken through the same calls. */
module StoreLockstep {
  import opened Wrappers
  import opened SignalStores
  import opened StoreRefinement
  import opened Engine

  /** One call on a real engine is one Perform, with a pick its store may make. */
  method Do(engine: CryptoEngine, call: Call) returns (r: Response, ghost pick: Option<SignedPreKey>)
    requires engine.store.Valid()
    modifies engine.store.Footprint()
    ensures engine.store.Valid() && fresh(engine.store.Footprint() - old(engine.store.Footprint()))
    ensures IsLatest(old(engine.store.View()).signedPreKeys, pick)
    ensures (engine.store.View(), r)
         == Perform(engine.store.InMemory?, old(engine.store.View()), engine.identity, engine.signing, call, pick)
  {
    pick := SomePick(engine.store.View().signedPreKeys);
    match call
    case Generate(signedId, signedPair, now, oneTime) =>
      var bundle := engine.GeneratePreKeyBundle(signedId, signedPair, now, oneTime);
      r := Generated(bundle);
    case Initiate(peer, bundle, ephemeral) =>
      var session := engine.InitiateSession(peer, bundle, ephemeral);
      r := Initiated(if session.Ok? then Ok(session.value.Value()) else Err(session.error));
    case Encrypt(peer, text, context, nonce) =>
      var message := engine.Encrypt(peer, text, context, nonce);
      r := Encrypted(message);
    case Decrypt(peer, m, first, second) =>
      r, pick := DoDecrypt(engine, call);
  }

  method DoDecrypt(engine: CryptoEngine, call: Call) returns (r: Response, ghost pick: Option<SignedPreKey>)
    requires engine.store.Valid() && call.Decrypt?
    modifies engine.store.Footprint()
    ensures engine.store.Valid() && fresh(engine.store.Footprint() - old(engine.store.Footprint()))
    ensures IsLatest(old(engine.store.View()).signedPreKeys, pick)
    ensures (engine.store.View(), r)
         == Perform(engine.store.InMemory?, old(engine.store.View()), engine.identity, engine.signing, call, pick)
  {
    ghost var keys := engine.store.View().signedPreKeys;
    pick := SomePick(keys);
    ghost var latest;
    var text;
    text, latest := engine.Decrypt(call.peer, call.message, call.first, call.second);
    r := Decrypted(text);
    if IsLatest(keys, latest) {
      pick := latest;
    }
  }

  lemma SomePick(keys: map<int, SignedPreKey>) returns (pick: Option<SignedPreKey>)
    ensures IsLatest(keys, pick)
  {
    pick := None;
    if exists id :: id in keys {
      var id := SomeLatest(keys);
      pick := Some(keys[id]);
    }
  }

  method DoAll(engine: CryptoEngine, calls: seq<Call>)
    returns (rs: seq<Response>, ghost picks: seq<Option<SignedPreKey>>)
    requires engine.store.Valid()
    modifies engine.store.Footprint()
    ensures engine.store.Valid() && fresh(engine.store.Footprint() - old(engine.store.Footprint()))
    ensures Picked(engine.store.InMemory?, old(engine.store.View()), engine.identity, engine.signing, calls, picks)
    ensures (engine.store.View(), rs)
         == PerformAll(engine.store.InMemory?, old(engine.store.View()), engine.identity, engine.signing, calls, picks)
    decreases |calls|
  {
    if calls == [] {
      return [], [];
    }
    var r;
    ghost var pick;
    r, pick := Do(engine, calls[0]);
    ghost var later;
    rs, later := DoAll(engine, calls[1..]);
    rs, picks := [r] + rs, [pick] + later;
  }

  /**
    Two engines of one identity start with the same contents, one over each store, and get the same
    calls. With distinct creation times, and no call torn, they answer alike and end alike.
   */
  method Lockstep(memory: CryptoEngine, database: CryptoEngine, calls: seq<Call>)
    returns (ours: seq<Response>, theirs: seq<Response>)
    requires memory.store.InMemory? && database.store.Sqlite? && memory.store.Valid()
    requires memory.store.Footprint() !! database.store.Footprint()
    requires memory.identity == database.identity && memory.signing == database.signing
    requires memory.store.View() == database.store.View()
    requires DistinctAlong(database.store.View().signedPreKeys, calls)
    requires forall picks | Picked(false, database.store.View(), database.identity, database.signing, calls, picks) ::
               NoneTorn(database.store.View(), database.identity, database.signing, calls, picks)
    modifies memory.store.Footprint(), database.store.Footprint()
    ensures ours == theirs && memory.store.View() == database.store.View()
  {
    ghost var v := database.store.View();
    ghost var mine, other;
    ours, mine := DoAll(memory, calls);
    theirs, other := DoAll(database, calls);
    StoresAgree(v, memory.identity, memory.signing, calls, mine, other);
  }
}
