/** The end-to-end encryption key store of Quotient/database.h, as an
    in-memory model: one field per table, methods that read or rewrite
    them. Which SQL statements the original runs is not part of this
    model; sessions and the account are opaque pickles. */
module KeyStore {
  import opened Wrappers

  type UserId = string
  type DeviceId = string
  type RoomId = string
  type SessionId = string
  type EventId = string
  type CurveKey = string

  /** `uint32_t` and `qint64` of the original signatures. */
  newtype uint32 = x: int | 0 <= x < 0x1_0000_0000
  newtype int64 = x: int | -0x8000_0000_0000_0000 <= x < 0x8000_0000_0000_0000

  /** A `QDateTime`, as milliseconds since the epoch. */
  type DateTime = int

  datatype OlmAccount = OlmAccount(pickle: string)
  datatype OlmSession = OlmSession(sessionId: SessionId, pickle: string)
  datatype InboundGroupSession = InboundGroupSession(sessionId: SessionId, pickle: string)
  datatype OutboundGroupSession = OutboundGroupSession(sessionId: SessionId, pickle: string)

  /** A row of the olm session table: the session and when it last
      received a message. */
  datatype StoredOlmSession = StoredOlmSession(session: OlmSession, lastReceived: DateTime)

  /** The event that used a message index of a group session, and when. */
  datatype IndexRecord = IndexRecord(eventId: EventId, timestamp: int64)

  /** What `groupSessionIndexRecord` gives for an index with no record: a
      default-constructed pair. */
  const NoIndexRecord: IndexRecord := IndexRecord("", 0)

  /** A device that was sent a group session key: its user, its id and its
      curve key. */
  datatype Recipient = Recipient(userId: UserId, deviceId: DeviceId, curveKey: CurveKey)

  /** The identity key and message index a device received a session key at. */
  datatype SentKey = SentKey(curveKey: CurveKey, index: uint32)

  type SentKeyId = (RoomId, UserId, DeviceId, SessionId)
  type IndexRecordId = (RoomId, SessionId, uint32)

  /** The schema version the migrations lead to. */
  const LatestVersion: nat := 5

  /** What a store holds on disk: its schema version and its tables. */
  datatype StoredTables = StoredTables(
    version: nat,
    olmAccount: Option<OlmAccount>,
    olmSessions: map<CurveKey, seq<StoredOlmSession>>,
    megolmSessions: map<RoomId, map<SessionId, InboundGroupSession>>,
    outboundSessions: map<RoomId, OutboundGroupSession>,
    indexRecords: map<IndexRecordId, IndexRecord>,
    sentKeys: map<SentKeyId, SentKey>,
    edKeys: map<string, string>,
    verifiedKeyIds: set<string>)

  /** A store that has never been written: version 0, no rows. */
  const EmptyStore: StoredTables := StoredTables(0, None, map[], map[], map[], map[], map[], map[], {})

  /** The version a store opened at `stored` ends at after its migrations. */
  function MigratedVersion(stored: nat): (v: nat)
    ensures v >= stored && v >= LatestVersion
    ensures stored <= LatestVersion ==> v == LatestVersion
  {
    if stored <= LatestVersion then LatestVersion else stored
  }

  function StoredFor(olmSessions: map<CurveKey, seq<StoredOlmSession>>, senderKey: CurveKey): seq<StoredOlmSession>
  {
    if senderKey in olmSessions then olmSessions[senderKey] else []
  }

  /** The sessions of some stored rows, one per row: exactly the sessions the
      rows hold. */
  function SessionsOf(rows: seq<StoredOlmSession>): (r: seq<OlmSession>)
    ensures |r| == |rows|
    ensures forall s :: s in r <==> exists row :: row in rows && row.session == s
  {
    var r := seq(|rows|, i requires 0 <= i < |rows| => rows[i].session);
    assert forall s :: s in r ==> exists row :: row in rows && row.session == s by {
      forall s | s in r
        ensures exists row :: row in rows && row.session == s
      {
        var i :| 0 <= i < |r| && r[i] == s;
        assert rows[i] in rows;
      }
    }
    assert forall row :: row in rows ==> row.session in r by {
      forall row | row in rows
        ensures row.session in r
      {
        var i :| 0 <= i < |rows| && rows[i] == row;
        assert r[i] == row.session;
      }
    }
    r
  }

  /** The rows of one sender key with the given session's state replaced;
      their order and timestamps stay. */
  function ReplaceSession(rows: seq<StoredOlmSession>, session: OlmSession): (r: seq<StoredOlmSession>)
    ensures |r| == |rows|
    ensures forall i :: 0 <= i < |rows| ==>
              r[i].lastReceived == rows[i].lastReceived && r[i].session.sessionId == rows[i].session.sessionId
    ensures forall i :: 0 <= i < |rows| && rows[i].session.sessionId == session.sessionId ==> r[i].session == session
    ensures forall i :: 0 <= i < |rows| && rows[i].session.sessionId != session.sessionId ==> r[i] == rows[i]
  {
    seq(|rows|, i requires 0 <= i < |rows| =>
      if rows[i].session.sessionId == session.sessionId
      then StoredOlmSession(session, rows[i].lastReceived) else rows[i])
  }

  /** The rows of one sender key with the given session's timestamp set. */
  function TouchSession(rows: seq<StoredOlmSession>, sessionId: SessionId, timestamp: DateTime): (r: seq<StoredOlmSession>)
    ensures SessionsOf(r) == SessionsOf(rows)
    ensures forall i :: 0 <= i < |rows| && rows[i].session.sessionId == sessionId ==> r[i].lastReceived == timestamp
    ensures forall i :: 0 <= i < |rows| && rows[i].session.sessionId != sessionId ==> r[i] == rows[i]
  {
    seq(|rows|, i requires 0 <= i < |rows| =>
      if rows[i].session.sessionId == sessionId
      then StoredOlmSession(rows[i].session, timestamp) else rows[i])
  }

  function MegolmFor(megolm: map<RoomId, map<SessionId, InboundGroupSession>>, roomId: RoomId): map<SessionId, InboundGroupSession>
  {
    if roomId in megolm then megolm[roomId] else map[]
  }

  /** The key-sharing table after recording that each of `devices` received
      the key of `sessionId` at `index`, one device after the other. */
  function RecordReceived(sent: map<SentKeyId, SentKey>, roomId: RoomId, devices: seq<Recipient>,
                          sessionId: SessionId, index: uint32): map<SentKeyId, SentKey>
    decreases |devices|
  {
    if devices == [] then sent
    else
      var d := devices[0];
      RecordReceived(sent[(roomId, d.userId, d.deviceId, sessionId) := SentKey(d.curveKey, index)],
                     roomId, devices[1..], sessionId, index)
  }

  /** Every recorded device is in the table afterwards. */
  lemma {:induction false} RecordReceivedCovers(sent: map<SentKeyId, SentKey>, roomId: RoomId, devices: seq<Recipient>,
                                                sessionId: SessionId, index: uint32, k: nat)
    requires k < |devices|
    decreases |devices|
    ensures (roomId, devices[k].userId, devices[k].deviceId, sessionId) in RecordReceived(sent, roomId, devices, sessionId, index)
  {
    var d := devices[0];
    var sent' := sent[(roomId, d.userId, d.deviceId, sessionId) := SentKey(d.curveKey, index)];
    if k == 0 {
      RecordReceivedKeeps(sent', roomId, devices[1..], sessionId, index, (roomId, d.userId, d.deviceId, sessionId));
    } else {
      RecordReceivedCovers(sent', roomId, devices[1..], sessionId, index, k - 1);
    }
  }

  /** Recording never removes an entry. */
  lemma {:induction false} RecordReceivedKeeps(sent: map<SentKeyId, SentKey>, roomId: RoomId, devices: seq<Recipient>,
                                               sessionId: SessionId, index: uint32, key: SentKeyId)
    requires key in sent
    decreases |devices|
    ensures key in RecordReceived(sent, roomId, devices, sessionId, index)
  {
    if devices != [] {
      var d := devices[0];
      RecordReceivedKeeps(sent[(roomId, d.userId, d.deviceId, sessionId) := SentKey(d.curveKey, index)],
                          roomId, devices[1..], sessionId, index, key);
    }
  }

  /** Entries of devices not in the list stay as they were. */
  lemma {:induction false} RecordReceivedFrames(sent: map<SentKeyId, SentKey>, roomId: RoomId, devices: seq<Recipient>,
                                                sessionId: SessionId, index: uint32, key: SentKeyId)
    requires forall i :: 0 <= i < |devices| ==> key != (roomId, devices[i].userId, devices[i].deviceId, sessionId)
    decreases |devices|
    ensures var after := RecordReceived(sent, roomId, devices, sessionId, index);
            (key in after <==> key in sent) && (key in sent ==> after[key] == sent[key])
  {
    if devices != [] {
      var d := devices[0];
      assert key != (roomId, d.userId, d.deviceId, sessionId);
      assert forall i :: 0 <= i < |devices| - 1 ==> devices[1..][i] == devices[i + 1];
      RecordReceivedFrames(sent[(roomId, d.userId, d.deviceId, sessionId) := SentKey(d.curveKey, index)],
                           roomId, devices[1..], sessionId, index, key);
    }
  }

  /** The (user, device) pairs of a recipient list. */
  function DevicePairs(devices: seq<Recipient>): set<(UserId, DeviceId)>
  {
    set i | 0 <= i < |devices| :: (devices[i].userId, devices[i].deviceId)
  }

  /** The devices of `devices` with no record of having received the key of
      `sessionId` in `roomId`. */
  function DevicesLacking(sent: map<SentKeyId, SentKey>, roomId: RoomId, devices: set<(UserId, DeviceId)>,
                          sessionId: SessionId): (r: set<(UserId, DeviceId)>)
    ensures r <= devices
  {
    set d | d in devices && (roomId, d.0, d.1, sessionId) !in sent
  }

  /** After recording a share, the devices lacking the key are exactly the
      ones that lacked it before, less the devices just recorded. */
  lemma SharingRemovesExactlyTheRecipients(sent: map<SentKeyId, SentKey>, roomId: RoomId, recipients: seq<Recipient>,
                                           sessionId: SessionId, index: uint32, devices: set<(UserId, DeviceId)>)
    ensures DevicesLacking(RecordReceived(sent, roomId, recipients, sessionId, index), roomId, devices, sessionId)
            == DevicesLacking(sent, roomId, devices, sessionId) - DevicePairs(recipients)
  {
    var after := RecordReceived(sent, roomId, recipients, sessionId, index);
    forall d | d in devices
      ensures d in DevicesLacking(after, roomId, devices, sessionId)
              <==> d in DevicesLacking(sent, roomId, devices, sessionId) && d !in DevicePairs(recipients)
    {
      var key := (roomId, d.0, d.1, sessionId);
      if d in DevicePairs(recipients) {
        var k :| 0 <= k < |recipients| && d == (recipients[k].userId, recipients[k].deviceId);
        RecordReceivedCovers(sent, roomId, recipients, sessionId, index, k);
      } else {
        RecordReceivedFrames(sent, roomId, recipients, sessionId, index, key);
      }
    }
  }

  /** `Database`: the tables, the schema version and the account. */
  class Database {
    const userId: UserId
    const deviceId: DeviceId
    const picklingKey: string

    var version: nat
    /** The migrations applied so far, in the order they ran. */
    ghost var migrations: seq<nat>

    var olmAccount: Option<OlmAccount>
    var olmSessions: map<CurveKey, seq<StoredOlmSession>>
    var megolmSessions: map<RoomId, map<SessionId, InboundGroupSession>>
    var outboundSessions: map<RoomId, OutboundGroupSession>
    var indexRecords: map<IndexRecordId, IndexRecord>
    var sentKeys: map<SentKeyId, SentKey>
    /** The ed25519 key of each tracked device, by its key id
        ("ed25519:<device>"). */
    var edKeys: map<string, string>
    /** The key ids of the devices marked verified. */
    var verifiedKeyIds: set<string>

    /** Opens the store at `stored`: its tables are kept, and each migration
        numbered above the stored version runs, in increasing order. */
    constructor Open(userId: UserId, deviceId: DeviceId, picklingKey: string, stored: StoredTables)
      ensures this.userId == userId && this.deviceId == deviceId && this.picklingKey == picklingKey
      ensures version == MigratedVersion(stored.version) && version >= stored.version
      ensures migrations == seq(version - stored.version, i => stored.version + 1 + i)
      ensures olmAccount == stored.olmAccount && olmSessions == stored.olmSessions
      ensures megolmSessions == stored.megolmSessions && outboundSessions == stored.outboundSessions
      ensures indexRecords == stored.indexRecords && sentKeys == stored.sentKeys
      ensures edKeys == stored.edKeys && verifiedKeyIds == stored.verifiedKeyIds
    {
      this.userId := userId;
      this.deviceId := deviceId;
      this.picklingKey := picklingKey;
      version := stored.version;
      migrations := [];
      olmAccount := stored.olmAccount;
      olmSessions := stored.olmSessions;
      megolmSessions := stored.megolmSessions;
      outboundSessions := stored.outboundSessions;
      indexRecords := stored.indexRecords;
      sentKeys := stored.sentKeys;
      edKeys := stored.edKeys;
      verifiedKeyIds := stored.verifiedKeyIds;
      new;
      while version < LatestVersion
        invariant version >= stored.version
        invariant stored.version <= LatestVersion ==> version <= LatestVersion
        invariant stored.version > LatestVersion ==> version == stored.version
        invariant migrations == seq(version - stored.version, i => stored.version + 1 + i)
        invariant olmAccount == stored.olmAccount && olmSessions == stored.olmSessions
        invariant megolmSessions == stored.megolmSessions && outboundSessions == stored.outboundSessions
        invariant indexRecords == stored.indexRecords && sentKeys == stored.sentKeys
        invariant edKeys == stored.edKeys && verifiedKeyIds == stored.verifiedKeyIds
      {
        MigrateTo(version + 1);
      }
    }

    /** `migrateTo1` .. `migrateTo5`: each moves the schema one version up. */
    method MigrateTo(target: nat)
      requires 1 <= target <= LatestVersion && version == target - 1
      modifies this`version, this`migrations
      ensures version == target && version > old(version)
      ensures migrations == old(migrations) + [target]
    {
      version := target;
      migrations := migrations + [target];
    }

    method Version() returns (v: int)
      ensures v == version
    {
      v := version;
    }

    method StoreOlmAccount(account: OlmAccount)
      modifies this`olmAccount
      ensures olmAccount == Some(account)
    {
      olmAccount := Some(account);
    }

    /** `saveOlmSession`: a new row for the session under its sender key. */
    method SaveOlmSession(senderKey: CurveKey, session: OlmSession, timestamp: DateTime)
      modifies this`olmSessions
      ensures olmSessions == old(olmSessions)[senderKey := StoredFor(old(olmSessions), senderKey) + [StoredOlmSession(session, timestamp)]]
    {
      olmSessions := olmSessions[senderKey := StoredFor(olmSessions, senderKey) + [StoredOlmSession(session, timestamp)]];
    }

    /** `loadOlmSessions`: every stored session, grouped by sender key; the
        order within a sender key is left open. */
    method LoadOlmSessions() returns (r: map<CurveKey, seq<OlmSession>>)
      ensures r.Keys == olmSessions.Keys
      ensures forall k :: k in r ==> multiset(r[k]) == multiset(SessionsOf(olmSessions[k]))
    {
      r := map k | k in olmSessions :: SessionsOf(olmSessions[k]);
    }

    /** `updateOlmSession`: the new state of an already stored session; no
        row is added. */
    method UpdateOlmSession(senderKey: CurveKey, session: OlmSession)
      modifies this`olmSessions
      ensures olmSessions.Keys == old(olmSessions).Keys
      ensures forall k :: k in olmSessions && k != senderKey ==> olmSessions[k] == old(olmSessions)[k]
      ensures senderKey in olmSessions ==> olmSessions[senderKey] == ReplaceSession(old(olmSessions)[senderKey], session)
    {
      if senderKey in olmSessions {
        olmSessions := olmSessions[senderKey := ReplaceSession(olmSessions[senderKey], session)];
      }
    }

    /** `setOlmSessionLastReceived`: the timestamp of every row of the
        session. */
    method SetOlmSessionLastReceived(sessionId: SessionId, timestamp: DateTime)
      modifies this`olmSessions
      ensures olmSessions.Keys == old(olmSessions).Keys
      ensures forall k :: k in olmSessions ==> olmSessions[k] == TouchSession(old(olmSessions)[k], sessionId, timestamp)
    {
      olmSessions := map k | k in olmSessions :: TouchSession(olmSessions[k], sessionId, timestamp);
    }

    /** `loadMegolmSessions`: the inbound group sessions of one room by id. */
    method LoadMegolmSessions(roomId: RoomId) returns (r: map<SessionId, InboundGroupSession>)
      ensures roomId !in megolmSessions ==> r == map[]
      ensures roomId in megolmSessions ==> r == megolmSessions[roomId]
    {
      r := MegolmFor(megolmSessions, roomId);
    }

    /** `saveMegolmSession`: stores the session under its room and id. */
    method SaveMegolmSession(roomId: RoomId, session: InboundGroupSession)
      modifies this`megolmSessions
      ensures megolmSessions == old(megolmSessions)[roomId := MegolmFor(old(megolmSessions), roomId)[session.sessionId := session]]
    {
      megolmSessions := megolmSessions[roomId := MegolmFor(megolmSessions, roomId)[session.sessionId := session]];
    }

    method AddGroupSessionIndexRecord(roomId: RoomId, sessionId: SessionId, index: uint32,
                                      eventId: EventId, ts: int64)
      modifies this`indexRecords
      ensures indexRecords == old(indexRecords)[(roomId, sessionId, index) := IndexRecord(eventId, ts)]
    {
      indexRecords := indexRecords[(roomId, sessionId, index) := IndexRecord(eventId, ts)];
    }

    /** `groupSessionIndexRecord`: the event recorded for the index, or the
        empty record. */
    method GroupSessionIndexRecord(roomId: RoomId, sessionId: SessionId, index: int64) returns (r: IndexRecord)
      ensures !(0 <= index as int < 0x1_0000_0000) ==> r == NoIndexRecord
      ensures 0 <= index as int < 0x1_0000_0000 ==>
                var key := (roomId, sessionId, index as uint32);
                r == if key in indexRecords then indexRecords[key] else NoIndexRecord
    {
      if 0 <= index as int < 0x1_0000_0000 {
        var key := (roomId, sessionId, index as uint32);
        r := if key in indexRecords then indexRecords[key] else NoIndexRecord;
      } else {
        r := NoIndexRecord;
      }
    }

    /** `clearRoomData`: drops a room's inbound and outbound group sessions
        and its index records. */
    method ClearRoomData(roomId: RoomId)
      modifies this`megolmSessions, this`outboundSessions, this`indexRecords
      ensures megolmSessions == old(megolmSessions) - {roomId}
      ensures outboundSessions == old(outboundSessions) - {roomId}
      ensures forall key :: key in indexRecords <==> key in old(indexRecords) && key.0 != roomId
      ensures forall key :: key in indexRecords ==> indexRecords[key] == old(indexRecords)[key]
    {
      megolmSessions := megolmSessions - {roomId};
      outboundSessions := outboundSessions - {roomId};
      indexRecords := map key | key in indexRecords && key.0 != roomId :: indexRecords[key];
    }

    method LoadCurrentOutboundMegolmSession(roomId: RoomId) returns (r: Option<OutboundGroupSession>)
      ensures r.Some? <==> roomId in outboundSessions
      ensures r.Some? ==> r.value == outboundSessions[roomId]
    {
      r := if roomId in outboundSessions then Some(outboundSessions[roomId]) else None;
    }

    /** `saveCurrentOutboundMegolmSession`: the room's current outbound
        session is replaced. */
    method SaveCurrentOutboundMegolmSession(roomId: RoomId, session: OutboundGroupSession)
      modifies this`outboundSessions
      ensures outboundSessions == old(outboundSessions)[roomId := session]
    {
      outboundSessions := outboundSessions[roomId := session];
    }

    /** `devicesWithoutKey`: the given devices that have not been recorded
        as having received the key of `sessionId` in the room. */
    method DevicesWithoutKey(roomId: RoomId, devices: set<(UserId, DeviceId)>, sessionId: SessionId)
      returns (r: set<(UserId, DeviceId)>)
      ensures r <= devices
      ensures forall d :: d in r <==> d in devices && (roomId, d.0, d.1, sessionId) !in sentKeys
      ensures r == DevicesLacking(sentKeys, roomId, devices, sessionId)
    {
      r := set d | d in devices && (roomId, d.0, d.1, sessionId) !in sentKeys;
    }

    /** `setDevicesReceivedKey`: records, device by device, that each one
        received the key at `index`. */
    method SetDevicesReceivedKey(roomId: RoomId, devices: seq<Recipient>, sessionId: SessionId, index: uint32)
      modifies this`sentKeys
      ensures sentKeys == RecordReceived(old(sentKeys), roomId, devices, sessionId, index)
    {
      for i := 0 to |devices|
        invariant RecordReceived(sentKeys, roomId, devices[i..], sessionId, index)
                  == RecordReceived(old(sentKeys), roomId, devices, sessionId, index)
      {
        assert devices[i..][1..] == devices[i + 1..];
        var d := devices[i];
        sentKeys := sentKeys[(roomId, d.userId, d.deviceId, sessionId) := SentKey(d.curveKey, index)];
      }
    }

    /** `isSessionVerified`: asked by the ed25519 key itself; true exactly
        when a device carrying that key is marked verified. */
    method IsSessionVerified(edKey: string) returns (b: bool)
      ensures b <==> exists id :: id in verifiedKeyIds && id in edKeys && edKeys[id] == edKey
    {
      b := exists id | id in verifiedKeyIds :: id in edKeys && edKeys[id] == edKey;
    }

    /** `setSessionVerified`: marks the device with that key id verified. */
    method SetSessionVerified(edKeyId: string)
      modifies this`verifiedKeyIds
      ensures verifiedKeyIds == old(verifiedKeyIds) + {edKeyId}
    {
      verifiedKeyIds := verifiedKeyIds + {edKeyId};
    }
  }

  // === Save/load pairs of the store ===

  /** Replacing one session's state leaves how often every session of
      another id occurs. */
  lemma {:induction false} ReplaceSessionKeepsOthers(rows: seq<StoredOlmSession>, session: OlmSession, x: OlmSession)
    requires x.sessionId != session.sessionId
    ensures multiset(SessionsOf(ReplaceSession(rows, session)))[x] == multiset(SessionsOf(rows))[x]
  {
    if rows != [] {
      var replaced := ReplaceSession(rows, session);
      assert replaced[1..] == ReplaceSession(rows[1..], session);
      assert SessionsOf(rows) == [rows[0].session] + SessionsOf(rows[1..]);
      assert SessionsOf(replaced) == [replaced[0].session] + SessionsOf(replaced[1..]);
      assert replaced[0].session == x <==> rows[0].session == x;
      ReplaceSessionKeepsOthers(rows[1..], session, x);
    }
  }

  /** A saved olm session is loaded back under its sender key, together
      with the sessions saved there before. */
  method SavedOlmSessionIsLoaded(db: Database, senderKey: CurveKey, session: OlmSession, timestamp: DateTime)
    returns (loaded: map<CurveKey, seq<OlmSession>>)
    modifies db`olmSessions
    ensures db.olmSessions == old(db.olmSessions)[senderKey := StoredFor(old(db.olmSessions), senderKey) + [StoredOlmSession(session, timestamp)]]
    ensures senderKey in loaded && session in loaded[senderKey]
    ensures multiset(loaded[senderKey]) == multiset(SessionsOf(StoredFor(old(db.olmSessions), senderKey))) + multiset{session}
  {
    db.SaveOlmSession(senderKey, session, timestamp);
    loaded := db.LoadOlmSessions();
    var rows := StoredFor(old(db.olmSessions), senderKey);
    assert SessionsOf(rows + [StoredOlmSession(session, timestamp)]) == SessionsOf(rows) + [session];
    assert session in multiset(loaded[senderKey]);
  }

  /** Updating a session neither adds nor drops a row: every sender key
      loads as many sessions as before, the other sender keys load the same
      sessions, and under the updated key only that session's state differs. */
  method UpdateKeepsRows(db: Database, senderKey: CurveKey, session: OlmSession)
    returns (before: map<CurveKey, seq<OlmSession>>, after: map<CurveKey, seq<OlmSession>>)
    modifies db`olmSessions
    ensures db.olmSessions.Keys == old(db.olmSessions).Keys
    ensures forall k :: k in db.olmSessions && k != senderKey ==> db.olmSessions[k] == old(db.olmSessions)[k]
    ensures senderKey in db.olmSessions ==> db.olmSessions[senderKey] == ReplaceSession(old(db.olmSessions)[senderKey], session)
    ensures before.Keys == after.Keys == db.olmSessions.Keys
    ensures forall k :: k in before ==> |after[k]| == |before[k]|
    ensures forall k :: k in before && k != senderKey ==> multiset(after[k]) == multiset(before[k])
    ensures senderKey in after ==>
              forall x: OlmSession :: x.sessionId != session.sessionId ==> multiset(after[senderKey])[x] == multiset(before[senderKey])[x]
    ensures senderKey in old(db.olmSessions) ==>
              (exists i :: 0 <= i < |old(db.olmSessions)[senderKey]| &&
                           old(db.olmSessions)[senderKey][i].session.sessionId == session.sessionId)
              ==> session in after[senderKey]
  {
    before := db.LoadOlmSessions();
    db.UpdateOlmSession(senderKey, session);
    after := db.LoadOlmSessions();
    forall k | k in before
      ensures |after[k]| == |before[k]|
    {
      assert |multiset(after[k])| == |multiset(before[k])|;
    }
    if senderKey in after {
      var rows := old(db.olmSessions)[senderKey];
      forall x: OlmSession | x.sessionId != session.sessionId
        ensures multiset(after[senderKey])[x] == multiset(before[senderKey])[x]
      {
        ReplaceSessionKeepsOthers(rows, session, x);
      }
      if exists i :: 0 <= i < |rows| && rows[i].session.sessionId == session.sessionId {
        var i :| 0 <= i < |rows| && rows[i].session.sessionId == session.sessionId;
        assert SessionsOf(ReplaceSession(rows, session))[i] == session;
        assert session in multiset(after[senderKey]);
      }
    }
  }

  /** No outbound session is loaded for a room before one is saved; the
      saved one is loaded afterwards. */
  method OutboundSaveLoad(db: Database, roomId: RoomId, session: OutboundGroupSession)
    returns (before: Option<OutboundGroupSession>, after: Option<OutboundGroupSession>)
    modifies db`outboundSessions
    ensures db.outboundSessions == old(db.outboundSessions)[roomId := session]
    ensures roomId !in old(db.outboundSessions) ==> before == None
    ensures after == Some(session)
  {
    before := db.LoadCurrentOutboundMegolmSession(roomId);
    db.SaveCurrentOutboundMegolmSession(roomId, session);
    after := db.LoadCurrentOutboundMegolmSession(roomId);
  }

  /** A saved inbound group session is loaded back in its room. */
  method MegolmSaveLoad(db: Database, roomId: RoomId, session: InboundGroupSession)
    returns (loaded: map<SessionId, InboundGroupSession>)
    modifies db`megolmSessions
    ensures db.megolmSessions == old(db.megolmSessions)[roomId := MegolmFor(old(db.megolmSessions), roomId)[session.sessionId := session]]
    ensures session.sessionId in loaded && loaded[session.sessionId] == session
  {
    db.SaveMegolmSession(roomId, session);
    loaded := db.LoadMegolmSessions(roomId);
  }

  /** The record added for an index is the one read back for it. */
  method IndexRecordRoundTrip(db: Database, roomId: RoomId, sessionId: SessionId, index: uint32,
                              eventId: EventId, ts: int64) returns (r: IndexRecord)
    modifies db`indexRecords
    ensures db.indexRecords == old(db.indexRecords)[(roomId, sessionId, index) := IndexRecord(eventId, ts)]
    ensures r == IndexRecord(eventId, ts)
  {
    db.AddGroupSessionIndexRecord(roomId, sessionId, index, eventId, ts);
    r := db.GroupSessionIndexRecord(roomId, sessionId, index as int64);
  }

  /** Devices recorded as having received a key drop out of the next
      `devicesWithoutKey`; other devices are reported as before. */
  method ReceivedDevicesLeaveTheQuery(db: Database, roomId: RoomId, recipients: seq<Recipient>,
                                      sessionId: SessionId, index: uint32, devices: set<(UserId, DeviceId)>)
    returns (before: set<(UserId, DeviceId)>, after: set<(UserId, DeviceId)>)
    modifies db`sentKeys
    ensures db.sentKeys == RecordReceived(old(db.sentKeys), roomId, recipients, sessionId, index)
    ensures after == before - DevicePairs(recipients)
  {
    before := db.DevicesWithoutKey(roomId, devices, sessionId);
    db.SetDevicesReceivedKey(roomId, recipients, sessionId, index);
    after := db.DevicesWithoutKey(roomId, devices, sessionId);
    SharingRemovesExactlyTheRecipients(old(db.sentKeys), roomId, recipients, sessionId, index, devices);
  }

  /** Marking a device verified by its key id makes its ed25519 key read
      as verified, and leaves the flag of any other key as it was. */
  method VerifiedFlagIsSet(db: Database, edKeyId: string, other: string) returns (b: bool, otherBefore: bool, otherAfter: bool)
    modifies db`verifiedKeyIds
    requires edKeyId in db.edKeys && other != db.edKeys[edKeyId]
    ensures db.verifiedKeyIds == old(db.verifiedKeyIds) + {edKeyId}
    ensures b && otherBefore == otherAfter
  {
    otherBefore := db.IsSessionVerified(other);
    db.SetSessionVerified(edKeyId);
    b := db.IsSessionVerified(db.edKeys[edKeyId]);
    otherAfter := db.IsSessionVerified(other);
  }

  /** Clearing a room leaves every other room's data as it was. */
  method ClearRoomKeepsOtherRooms(db: Database, roomId: RoomId, other: RoomId)
    returns (before: Option<OutboundGroupSession>, after: Option<OutboundGroupSession>,
             megolmBefore: map<SessionId, InboundGroupSession>, megolmAfter: map<SessionId, InboundGroupSession>,
             cleared: Option<OutboundGroupSession>, clearedMegolm: map<SessionId, InboundGroupSession>)
    modifies db`megolmSessions, db`outboundSessions, db`indexRecords
    requires other != roomId
    ensures db.megolmSessions == old(db.megolmSessions) - {roomId}
    ensures db.outboundSessions == old(db.outboundSessions) - {roomId}
    ensures forall key :: key in db.indexRecords <==> key in old(db.indexRecords) && key.0 != roomId
    ensures forall key :: key in db.indexRecords ==> db.indexRecords[key] == old(db.indexRecords)[key]
    ensures before == after && megolmBefore == megolmAfter
    ensures cleared == None && clearedMegolm == map[]
  {
    before := db.LoadCurrentOutboundMegolmSession(other);
    megolmBefore := db.LoadMegolmSessions(other);
    db.ClearRoomData(roomId);
    after := db.LoadCurrentOutboundMegolmSession(other);
    megolmAfter := db.LoadMegolmSessions(other);
    cleared := db.LoadCurrentOutboundMegolmSession(roomId);
    clearedMegolm := db.LoadMegolmSessions(roomId);
  }

  /** Opening a store that was never written migrates it through versions
      1 to 5 in order and leaves it empty. */
  method OpenNewStore(userId: UserId, deviceId: DeviceId, picklingKey: string) returns (db: Database)
    ensures fresh(db)
    ensures db.version == LatestVersion && db.migrations == [1, 2, 3, 4, 5]
    ensures db.olmAccount == None && db.olmSessions == map[] && db.megolmSessions == map[]
    ensures db.outboundSessions == map[] && db.indexRecords == map[] && db.sentKeys == map[]
    ensures db.edKeys == map[] && db.verifiedKeyIds == {}
  {
    db := new Database.Open(userId, deviceId, picklingKey, EmptyStore);
    assert db.migrations == seq(5, i => 1 + i);
  }
}
