/**
  The two stores under the engine. The SQLite store copies a session on every read and write; the
  in-memory store hands out, and keeps, the caller's own object.
 */
module SignalStores {
  import opened Wrappers
  import opened SymbolicCrypto
  import opened Ratchet

  datatype SignedPreKey = SignedPreKey(keyPair: KeyPair, createdAt: int)

  /** What a store holds, whichever store it is. */
  datatype StoreView = StoreView(
    signedPreKeys: map<int, SignedPreKey>,
    oneTimePreKeys: map<int, KeyPair>,
    sessions: map<PublicKey, Session>)

  /** A newest signed prekey, if there is any. */
  ghost predicate IsLatest(keys: map<int, SignedPreKey>, latest: Option<SignedPreKey>) {
    match latest
    case None => forall id :: id !in keys
    case Some(k) => exists id :: id in keys && keys[id] == k && Newest(keys, id)
  }

  ghost predicate Newest(keys: map<int, SignedPreKey>, id: int)
    requires id in keys
  {
    forall j | j in keys :: keys[j].createdAt <= keys[id].createdAt
  }

  /** Whatever is newest is one record: then, and only then, is there one answer to give. */
  ghost predicate OneNewest(keys: map<int, SignedPreKey>) {
    forall i, j | i in keys && j in keys && Newest(keys, i) && Newest(keys, j) :: keys[i] == keys[j]
  }

  predicate DistinctTimes(keys: map<int, SignedPreKey>) {
    forall i, j | i in keys && j in keys && i != j :: keys[i].createdAt != keys[j].createdAt
  }

  lemma DistinctTimesSuffice(keys: map<int, SignedPreKey>)
    requires DistinctTimes(keys)
    ensures OneNewest(keys)
  {
    forall i, j | i in keys && j in keys && Newest(keys, i) && Newest(keys, j)
      ensures keys[i] == keys[j]
    {
      assert keys[i].createdAt == keys[j].createdAt;
    }
  }

  /** Two answers to the query for the latest signed prekey agree. */
  lemma LatestUnique(keys: map<int, SignedPreKey>, k: Option<SignedPreKey>, l: Option<SignedPreKey>)
    requires OneNewest(keys) && IsLatest(keys, k) && IsLatest(keys, l)
    ensures k == l
  {
    if k.Some? && l.Some? {
      var i :| i in keys && keys[i] == k.value && Newest(keys, i);
      var j :| j in keys && keys[j] == l.value && Newest(keys, j);
    }
  }

  /** A key with a later time than all others is the answer. */
  lemma NewestIsNew(keys: map<int, SignedPreKey>, id: int, key: SignedPreKey, latest: Option<SignedPreKey>)
    requires forall j | j in keys :: keys[j].createdAt < key.createdAt
    requires IsLatest(keys[id := key], latest)
    ensures latest == Some(key)
  {
    var after := keys[id := key];
    assert id in after;
    if latest.Some? {
      var j :| j in after && after[j] == latest.value && Newest(after, j);
      assert after[id].createdAt <= after[j].createdAt;
    }
  }

  /** And they must agree only if whatever is newest is one record. */
  lemma LatestUniqueIff(keys: map<int, SignedPreKey>)
    ensures (forall k, l | IsLatest(keys, k) && IsLatest(keys, l) :: k == l) <==> OneNewest(keys)
  {
    if OneNewest(keys) {
      forall k, l | IsLatest(keys, k) && IsLatest(keys, l)
        ensures k == l
      {
        LatestUnique(keys, k, l);
      }
    } else {
      var i, j :| i in keys && j in keys && Newest(keys, i) && Newest(keys, j) && keys[i] != keys[j];
      assert IsLatest(keys, Some(keys[i])) && IsLatest(keys, Some(keys[j]));
    }
  }

  lemma {:induction false} SomeLatest(keys: map<int, SignedPreKey>) returns (id: int)
    requires exists i :: i in keys
    ensures id in keys && Newest(keys, id)
    decreases |keys|
  {
    var first: int :| first in keys;
    var rest := keys - {first};
    id := first;
    assert forall j | j in keys && j != first :: j in rest && rest[j] == keys[j];
    if exists i :: i in rest {
      assert rest.Keys == keys.Keys - {first};
      var other := SomeLatest(rest);
      if keys[first].createdAt < keys[other].createdAt {
        id := other;
      }
    }
  }

  /** A session as the engine holds it: one mutable object. */
  class SessionRecord {
    var root: Key
    var sendChain: Option<Key>
    var receiveChain: Option<Key>
    var localDh: KeyPair
    var remoteDh: Option<PublicKey>
    var sendNumber: nat
    var receiveNumber: nat
    var previousChainLength: nat
    var skipped: map<SkipId, Key>
    var oneTimePreKeyId: Option<int>

    function Value(): Session
      reads this
    {
      Session(root, sendChain, receiveChain, localDh, remoteDh, sendNumber, receiveNumber, previousChainLength, skipped,
              oneTimePreKeyId)
    }

    constructor (s: Session)
      ensures Value() == s
    {
      root, sendChain, receiveChain, localDh, remoteDh := s.root, s.sendChain, s.receiveChain, s.localDh, s.remoteDh;
      sendNumber, receiveNumber, previousChainLength := s.sendNumber, s.receiveNumber, s.previousChainLength;
      skipped, oneTimePreKeyId := s.skipped, s.oneTimePreKeyId;
    }
  }

  // ---- In memory -------------------------------------------------------------------------------

  /** Entries of a Map in insertion order; setting a present key keeps its place. */
  function SetEntry(entries: seq<(int, SignedPreKey)>, id: int, key: SignedPreKey): seq<(int, SignedPreKey)> {
    if entries == [] then [(id, key)]
    else if entries[0].0 == id then [(id, key)] + entries[1..]
    else [entries[0]] + SetEntry(entries[1..], id, key)
  }

  function Entries(entries: seq<(int, SignedPreKey)>): map<int, SignedPreKey> {
    if entries == [] then map[] else Entries(entries[1..])[entries[0].0 := entries[0].1]
  }

  predicate Distinct(entries: seq<(int, SignedPreKey)>) {
    forall i, j | 0 <= i < j < |entries| :: entries[i].0 != entries[j].0
  }

  lemma {:induction false} EntryIn(entries: seq<(int, SignedPreKey)>, i: nat)
    requires Distinct(entries) && i < |entries|
    ensures entries[i].0 in Entries(entries) && Entries(entries)[entries[i].0] == entries[i].1
  {
    if i > 0 {
      EntryIn(entries[1..], i - 1);
      assert entries[1..][i - 1] == entries[i];
    }
  }

  lemma {:induction false} EntryOf(entries: seq<(int, SignedPreKey)>, id: int) returns (i: nat)
    requires id in Entries(entries)
    ensures i < |entries| && entries[i] == (id, Entries(entries)[id])
  {
    if entries[0].0 == id {
      i := 0;
    } else {
      i := EntryOf(entries[1..], id);
      i := i + 1;
    }
  }

  lemma {:induction false} SetEntryIsUpdate(entries: seq<(int, SignedPreKey)>, id: int, key: SignedPreKey)
    requires Distinct(entries)
    ensures Entries(SetEntry(entries, id, key)) == Entries(entries)[id := key]
    ensures forall x | x in SetEntry(entries, id, key) :: x.0 == id || x in entries
    ensures Distinct(SetEntry(entries, id, key))
  {
    if entries != [] && entries[0].0 != id {
      SetEntryIsUpdate(entries[1..], id, key);
      assert SetEntry(entries, id, key)[1..] == SetEntry(entries[1..], id, key);
    } else if entries != [] {
      assert SetEntry(entries, id, key)[1..] == entries[1..];
    }
  }

  class InMemorySignalStore {
    var signedPreKeys: seq<(int, SignedPreKey)>
    var oneTimePreKeys: map<int, KeyPair>
    var sessions: map<PublicKey, SessionRecord>

    /** No two peers share one session object. */
    ghost predicate Valid()
      reads this
    {
      && Distinct(signedPreKeys)
      && (forall p, q | p in sessions && q in sessions && p != q :: sessions[p] != sessions[q])
    }

    ghost function View(): StoreView
      reads this, sessions.Values
    {
      StoreView(Entries(signedPreKeys), oneTimePreKeys, map p | p in sessions :: sessions[p].Value())
    }

    constructor ()
      ensures Valid() && View() == StoreView(map[], map[], map[])
    {
      signedPreKeys, oneTimePreKeys, sessions := [], map[], map[];
    }

    method SaveSignedPreKey(id: int, key: SignedPreKey)
      requires Valid()
      modifies this`signedPreKeys
      ensures Valid()
      ensures View() == old(View()).(signedPreKeys := old(View()).signedPreKeys[id := key])
    {
      SetEntryIsUpdate(signedPreKeys, id, key);
      signedPreKeys := SetEntry(signedPreKeys, id, key);
    }

    method GetLatestSignedPreKey() returns (latest: Option<SignedPreKey>)
      requires Valid()
      ensures IsLatest(View().signedPreKeys, latest)
    {
      latest := None;
      var i := 0;
      while i < |signedPreKeys|
        invariant 0 <= i <= |signedPreKeys|
        invariant latest.None? <==> i == 0
        invariant latest.Some? ==> exists j :: 0 <= j < i && signedPreKeys[j].1 == latest.value
        invariant forall j | 0 <= j < i :: latest.Some? && signedPreKeys[j].1.createdAt <= latest.value.createdAt
      {
        if latest.None? || signedPreKeys[i].1.createdAt > latest.value.createdAt {
          latest := Some(signedPreKeys[i].1);
        }
        i := i + 1;
      }
      if latest.Some? {
        ghost var j :| 0 <= j < |signedPreKeys| && signedPreKeys[j].1 == latest.value;
        EntryIn(signedPreKeys, j);
        forall id | id in Entries(signedPreKeys)
          ensures Entries(signedPreKeys)[id].createdAt <= latest.value.createdAt
        {
          var k := EntryOf(signedPreKeys, id);
        }
        assert Newest(Entries(signedPreKeys), signedPreKeys[j].0);
      }
    }

    method SaveSession(peer: PublicKey, session: SessionRecord)
      requires Valid()
      requires forall q | q in sessions && q != peer :: sessions[q] != session
      modifies this`sessions
      ensures Valid() && sessions == old(sessions)[peer := session]
      ensures View() == old(View()).(sessions := old(View()).sessions[peer := session.Value()])
    {
      sessions := sessions[peer := session];
    }
  }

  // ---- SQLite ----------------------------------------------------------------------------------

  /** Each table maps its primary key to the row; a row holds the serialised record, a value. */
  class SqliteSignalStore {
    var signedPreKeys: map<int, SignedPreKey>
    var oneTimePreKeys: map<int, KeyPair>
    var sessions: map<PublicKey, Session>

    function View(): StoreView
      reads this
    {
      StoreView(signedPreKeys, oneTimePreKeys, sessions)
    }

    constructor ()
      ensures View() == StoreView(map[], map[], map[])
    {
      signedPreKeys, oneTimePreKeys, sessions := map[], map[], map[];
    }

    /** ORDER BY created_at DESC LIMIT 1: among equal times any row may come first. */
    method GetLatestSignedPreKey() returns (latest: Option<SignedPreKey>)
      ensures IsLatest(View().signedPreKeys, latest)
    {
      if exists i :: i in signedPreKeys {
        ghost var newest := SomeLatest(signedPreKeys);
        var id :| id in signedPreKeys
          && forall j | j in signedPreKeys :: signedPreKeys[j].createdAt <= signedPreKeys[id].createdAt;
        latest := Some(signedPreKeys[id]);
      } else {
        latest := None;
      }
    }
  }

  // ---- The interface ----------------------------------------------------------------------------

  datatype SignalStore = InMemory(memory: InMemorySignalStore) | Sqlite(database: SqliteSignalStore) {

    /** The objects an engine call may change. */
    ghost function Footprint(): set<object>
      reads if InMemory? then {memory} else {}
    {
      if InMemory? then {memory} + memory.sessions.Values else {database}
    }

    ghost predicate Valid()
      reads if InMemory? then {memory} else {}
    {
      InMemory? ==> memory.Valid()
    }

    ghost function View(): StoreView
      reads Footprint()
    {
      if InMemory? then memory.View() else database.View()
    }

    /** The caller's object is the stored one, or a copy of the stored row. */
    ghost predicate Holds(peer: PublicKey, session: SessionRecord)
      reads Footprint(), session
    {
      && peer in View().sessions
      && View().sessions[peer] == session.Value()
      && (InMemory? ==> peer in memory.sessions && memory.sessions[peer] == session)
    }

    /** What writing s to the session object of a peer does to the view: all at once in memory, nothing in SQLite. */
    ghost function Written(v: StoreView, peer: PublicKey, s: Session): StoreView {
      if InMemory? then v.(sessions := v.sessions[peer := s]) else v
    }

    lemma Unwritten(v: StoreView, peer: PublicKey)
      requires peer in v.sessions
      ensures v.(sessions := v.sessions[peer := v.sessions[peer]]) == v
    {
      assert v.sessions[peer := v.sessions[peer]] == v.sessions;
    }

    lemma WrittenThenSaved(v: StoreView, peer: PublicKey, s: Session)
      ensures Written(v, peer, s).sessions[peer := s] == v.sessions[peer := s]
    {
    }

    method SaveSignedPreKey(id: int, key: SignedPreKey)
      requires Valid()
      modifies Footprint()
      ensures Valid() && Footprint() == old(Footprint())
      ensures View() == old(View()).(signedPreKeys := old(View()).signedPreKeys[id := key])
    {
      match this
      case InMemory(m) => m.SaveSignedPreKey(id, key);
      case Sqlite(d) => d.signedPreKeys := d.signedPreKeys[id := key];
    }

    method GetLatestSignedPreKey() returns (latest: Option<SignedPreKey>)
      requires Valid()
      ensures IsLatest(View().signedPreKeys, latest)
    {
      match this
      case InMemory(m) => latest := m.GetLatestSignedPreKey();
      case Sqlite(d) => latest := d.GetLatestSignedPreKey();
    }

    method SaveOneTimePreKey(id: int, key: KeyPair)
      requires Valid()
      modifies Footprint()
      ensures Valid() && Footprint() == old(Footprint())
      ensures View() == old(View()).(oneTimePreKeys := old(View()).oneTimePreKeys[id := key])
    {
      match this
      case InMemory(m) => m.oneTimePreKeys := m.oneTimePreKeys[id := key];
      case Sqlite(d) => d.oneTimePreKeys := d.oneTimePreKeys[id := key];
    }

    method GetOneTimePreKey(id: int) returns (key: Option<KeyPair>)
      requires Valid()
      ensures key == if id in View().oneTimePreKeys then Some(View().oneTimePreKeys[id]) else None
    {
      var keys := match this case InMemory(m) => m.oneTimePreKeys case Sqlite(d) => d.oneTimePreKeys;
      key := if id in keys then Some(keys[id]) else None;
    }

    method RemoveOneTimePreKey(id: int)
      requires Valid()
      modifies Footprint()
      ensures Valid() && Footprint() == old(Footprint())
      ensures View() == old(View()).(oneTimePreKeys := old(View()).oneTimePreKeys - {id})
    {
      match this
      case InMemory(m) => m.oneTimePreKeys := m.oneTimePreKeys - {id};
      case Sqlite(d) => d.oneTimePreKeys := d.oneTimePreKeys - {id};
    }

    method GetSession(peer: PublicKey) returns (session: SessionRecord?)
      requires Valid()
      ensures session == null <==> peer !in View().sessions
      ensures session != null ==> Holds(peer, session)
      ensures session != null ==> if InMemory? then session in Footprint() else fresh(session)
    {
      match this {
        case InMemory(m) =>
          session := if peer in m.sessions then m.sessions[peer] else null;
        case Sqlite(d) =>
          session := null;
          if peer in d.sessions {
            session := new SessionRecord(d.sessions[peer]);
          }
      }
    }

    method SaveSession(peer: PublicKey, session: SessionRecord)
      requires Valid()
      requires InMemory? ==> forall q | q in memory.sessions && q != peer :: memory.sessions[q] != session
      modifies if InMemory? then {memory as object} else {database as object}
      ensures Valid()
      ensures View() == old(View()).(sessions := old(View()).sessions[peer := session.Value()])
      ensures Holds(peer, session)
      ensures Footprint() <= old(Footprint()) + {session}
      ensures InMemory? ==> memory.sessions == old(memory.sessions)[peer := session]
    {
      match this
      case InMemory(m) => m.SaveSession(peer, session);
      case Sqlite(d) => d.sessions := d.sessions[peer := session.Value()];
    }
  }
}
