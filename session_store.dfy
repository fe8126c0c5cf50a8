/**
 * The credential store: the transport's authentication state kept in the `Session`
 * collection, one record per (userId, sessionId, dataType, dataId).
 */
module SessionStore {
  import opened Types

  /** A stored value. The buffer-aware JSON replacer and reviver are taken to be exact inverses, so a value is kept as is. */
  type Blob = seq<int>

  /** The key types the transport reads and writes through `keys.get` / `keys.set`. */
  datatype SignalKeyType = PreKey | SessionKey | SenderKey | AppStateSyncKey | AppStateSyncVersion | SenderKeyMemory {
    /** The transport's name for the type, as used for the keys of KEY_MAP. */
    function Name(): string {
      match this
      case PreKey => "pre-key"
      case SessionKey => "session"
      case SenderKey => "sender-key"
      case AppStateSyncKey => "app-state-sync-key"
      case AppStateSyncVersion => "app-state-sync-version"
      case SenderKeyMemory => "sender-key-memory"
    }
  }

  /** Transport key type name to stored `dataType`. */
  const KEY_MAP: map<string, string> := map[
    "pre-key" := "preKeys",
    "session" := "sessions",
    "sender-key" := "senderKeys",
    "app-state-sync-key" := "appStateSyncKeys",
    "app-state-sync-version" := "appStateVersions",
    "sender-key-memory" := "senderKeyMemory"]

  /** The record type the credentials object is stored under. */
  const CredsType: string := "creds"

  /** `KEY_MAP[type]` for one of the transport's key types. */
  function StoredType(t: SignalKeyType): (r: string)
    ensures t.Name() in KEY_MAP && r == KEY_MAP[t.Name()]
    ensures r != CredsType
  {
    KEY_MAP[t.Name()]
  }

  /** KEY_MAP's keys are exactly the six transport type names. */
  lemma KeyMapKeys()
    ensures |KEY_MAP| == 6
    ensures forall name :: name in KEY_MAP <==> exists t: SignalKeyType :: t.Name() == name
  {
    forall name | name in KEY_MAP ensures exists t: SignalKeyType :: t.Name() == name {
      if name == "pre-key" { assert PreKey.Name() == name; }
      else if name == "session" { assert SessionKey.Name() == name; }
      else if name == "sender-key" { assert SenderKey.Name() == name; }
      else if name == "app-state-sync-key" { assert AppStateSyncKey.Name() == name; }
      else if name == "app-state-sync-version" { assert AppStateSyncVersion.Name() == name; }
      else { assert SenderKeyMemory.Name() == name; }
    }
  }

  /** Distinct key types are stored under distinct data types, none of them the credentials' one. */
  lemma StoredTypeInjective(a: SignalKeyType, b: SignalKeyType)
    ensures StoredType(a) == StoredType(b) ==> a == b
  {
    var ra, rb := StoredType(a), StoredType(b);
    if a != b {
      assert |ra| != |rb| || (|ra| == 16 && ra[8] != rb[8]);
    }
  }

  datatype RecordKey = RecordKey(userId: UserId, sessionId: SessionId, dataType: string, dataId: string)

  /** The credentials `useMongoAuthState` starts from: the stored (creds, default) record when it can be read, else fresh ones. */
  function LoadedCreds(records: map<RecordKey, Blob>, userId: UserId, sessionId: SessionId, freshCreds: Blob, readFails: bool): Blob {
    var k := RecordKey(userId, sessionId, CredsType, "default");
    if !readFails && k in records then records[k] else freshCreds
  }

  /** A value handed back by `keys.get`: app-state sync keys are rebuilt into their protobuf message type. */
  datatype KeyValue = PlainValue(blob: Blob) | AppStateSyncKeyData(blob: Blob)

  function AsKeyValue(t: SignalKeyType, b: Blob): KeyValue {
    if t == AppStateSyncKey then AppStateSyncKeyData(b) else PlainValue(b)
  }

  /** The `Session` collection. */
  class SessionTable {
    var records: map<RecordKey, Blob>

    constructor ()
      ensures records == map[]
    {
      records := map[];
    }
  }

  /** Every record of the table except those of one session. */
  function WithoutSession(records: map<RecordKey, Blob>, userId: UserId, sessionId: SessionId): (r: map<RecordKey, Blob>)
    ensures forall k :: k in r <==> k in records && !(k.userId == userId && k.sessionId == sessionId)
    ensures forall k :: k in r ==> r[k] == records[k]
  {
    map k | k in records && !(k.userId == userId && k.sessionId == sessionId) :: records[k]
  }

  /** `deleteSession`: `Session.deleteMany({userId, sessionId})`. */
  method DeleteSession(table: SessionTable, userId: UserId, sessionId: SessionId)
    modifies table
    ensures table.records == WithoutSession(old(table.records), userId, sessionId)
  {
    table.records := WithoutSession(table.records, userId, sessionId);
  }

  /** The authentication state `useMongoAuthState(userId, sessionId)` returns, over the shared table. */
  class MongoAuthState {
    const userId: UserId
    const sessionId: SessionId
    const table: SessionTable
    /** The credentials object; the transport updates it in place before it asks for `saveCreds`. */
    var creds: Blob

    function Key(dataType: string, dataId: string): RecordKey {
      RecordKey(userId, sessionId, dataType, dataId)
    }

    /** Where `keys.set` / `keys.get` keep the value of one (type, id). */
    function Target(k: (SignalKeyType, string)): RecordKey {
      Key(StoredType(k.0), k.1)
    }

    lemma TargetInjective(a: (SignalKeyType, string), b: (SignalKeyType, string))
      ensures Target(a) == Target(b) ==> a == b
    {
      StoredTypeInjective(a.0, b.0);
    }

    /** `useMongoAuthState`: credentials come from the (creds, default) record, else fresh ones are used. */
    constructor (userId: UserId, sessionId: SessionId, table: SessionTable, freshCreds: Blob, readFails: bool)
      ensures this.userId == userId && this.sessionId == sessionId && this.table == table
      ensures creds == LoadedCreds(table.records, userId, sessionId, freshCreds, readFails)
    {
      this.userId := userId;
      this.sessionId := sessionId;
      this.table := table;
      new;
      var stored := ReadData(CredsType, "default", readFails);
      creds := if stored.Some? then stored.value else freshCreds;
    }

    /** `writeData`: upsert of the one record for the key; a database error is logged and swallowed. */
    method WriteData(data: Blob, dataType: string, dataId: string, fails: bool)
      modifies table
      ensures table.records == if fails then old(table.records) else old(table.records)[Key(dataType, dataId) := data]
    {
      if !fails {
        table.records := table.records[Key(dataType, dataId) := data];
      }
    }

    /** `readData`: null when there is no record or the read fails. */
    method ReadData(dataType: string, dataId: string, fails: bool) returns (r: Option<Blob>)
      ensures r.Some? <==> !fails && Key(dataType, dataId) in table.records
      ensures r.Some? ==> r.value == table.records[Key(dataType, dataId)]
    {
      if fails || Key(dataType, dataId) !in table.records {
        return None;
      }
      r := Some(table.records[Key(dataType, dataId)]);
    }

    /** `removeData`: a database error is logged and swallowed. */
    method RemoveData(dataType: string, dataId: string, fails: bool)
      modifies table
      ensures table.records == if fails then old(table.records) else old(table.records) - {Key(dataType, dataId)}
    {
      if !fails {
        table.records := table.records - {Key(dataType, dataId)};
      }
    }

    /** `keys.get(type, ids)`: an entry for exactly the requested ids whose read finds a value. */
    method KeysGet(t: SignalKeyType, ids: seq<string>, readFails: set<string>) returns (data: map<string, KeyValue>)
      ensures forall id :: id in data <==> id in ids && id !in readFails && Target((t, id)) in table.records
      ensures forall id :: id in data ==> data[id] == AsKeyValue(t, table.records[Target((t, id))])
    {
      data := map[];
      for i := 0 to |ids|
        invariant forall id :: id in data <==> id in ids[..i] && id !in readFails && Target((t, id)) in table.records
        invariant forall id :: id in data ==> data[id] == AsKeyValue(t, table.records[Target((t, id))])
      {
        var val := ReadData(StoredType(t), ids[i], ids[i] in readFails);
        if val.Some? {
          data := data[ids[i] := AsKeyValue(t, val.value)];
        }
        assert ids[..i + 1] == ids[..i] + [ids[i]];
      }
      assert ids[..|ids|] == ids;
    }

    /**
     * `keys.set(data)`: every (type, id) with a value is written and every one without is removed;
     * a write or removal listed in `fails` hits a database error and leaves its record as it was.
     */
    method KeysSet(data: map<(SignalKeyType, string), Option<Blob>>, fails: set<(SignalKeyType, string)>)
      modifies table
      ensures forall k :: k in data && k !in fails && data[k].Some? ==>
        Target(k) in table.records && table.records[Target(k)] == data[k].value
      ensures forall k :: k in data && k !in fails && data[k].None? ==> Target(k) !in table.records
      ensures forall rk :: rk !in Targets(data.Keys - fails) ==>
        (rk in table.records <==> rk in old(table.records)) &&
        (rk in table.records ==> table.records[rk] == old(table.records)[rk])
    {
      var todo := data.Keys;
      while todo != {}
        invariant todo <= data.Keys
        invariant forall k :: k in data && k !in todo && k !in fails && data[k].Some? ==>
          Target(k) in table.records && table.records[Target(k)] == data[k].value
        invariant forall k :: k in data && k !in todo && k !in fails && data[k].None? ==> Target(k) !in table.records
        invariant forall rk :: rk !in Targets(data.Keys - todo - fails) ==>
          (rk in table.records <==> rk in old(table.records)) &&
          (rk in table.records ==> table.records[rk] == old(table.records)[rk])
        decreases |todo|
      {
        var k :| k in todo;
        forall other | other != k ensures Target(other) != Target(k) {
          TargetInjective(other, k);
        }
        var dataType := StoredType(k.0);
        if data[k].Some? {
          WriteData(data[k].value, dataType, k.1, k in fails);
        } else {
          RemoveData(dataType, k.1, k in fails);
        }
        assert Targets(data.Keys - (todo - {k}) - fails) ==
          Targets(data.Keys - todo - fails) + (if k in fails then {} else {Target(k)});
        todo := todo - {k};
      }
    }

    function Targets(ks: set<(SignalKeyType, string)>): set<RecordKey> {
      set k | k in ks :: Target(k)
    }

    /** `saveCreds`: writes the current credentials back under (creds, default). */
    method SaveCreds(fails: bool)
      modifies table
      ensures table.records == if fails then old(table.records) else old(table.records)[Key(CredsType, "default") := creds]
    {
      WriteData(creds, CredsType, "default", fails);
    }
  }
}
