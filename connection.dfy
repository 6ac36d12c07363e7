/** The encryption bookkeeping of a connection,
    Quotient/connectionencryptiondata_p.h: the olm account, the key store,
    the olm sessions by curve key, the registry of key verification
    sessions by transaction id, and the device tracking sets. */
module ConnectionEncryption {
  import opened Wrappers
  import opened KeyStore

  /** The published keys of one device, by key id ("<algorithm>:<device>"). */
  datatype DeviceKeys = DeviceKeys(userId: UserId, deviceId: DeviceId, keys: map<string, string>)

  /** The key id of a device's curve25519 identity key. */
  function CurveKeyId(deviceId: DeviceId): string
  {
    "curve25519:" + deviceId
  }

  /** An olm-encrypted message: its type (pre-key or normal) and ciphertext. */
  datatype OlmMessage = OlmMessage(messageType: nat, ciphertext: string)

  /** A key verification flow with a remote device, named by its
      transaction id. */
  class KeyVerificationSession {
    const transactionId: string
    const remoteUserId: UserId
    const remoteDeviceId: DeviceId

    constructor (transactionId: string, remoteUserId: UserId, remoteDeviceId: DeviceId)
      ensures this.transactionId == transactionId
      ensures this.remoteUserId == remoteUserId && this.remoteDeviceId == remoteDeviceId
    {
      this.transactionId := transactionId;
      this.remoteUserId := remoteUserId;
      this.remoteDeviceId := remoteDeviceId;
    }
  }

  /** `ConnectionEncryptionData`. */
  class ConnectionEncryptionData {
    var olmAccount: OlmAccount
    const database: Database
    /** The olm sessions of each sender curve key. */
    var olmSessions: map<CurveKey, seq<OlmSession>>
    var verificationSessions: map<string, KeyVerificationSession>
    var trackedUsers: set<UserId>
    var outdatedUsers: set<UserId>
    var deviceKeys: map<UserId, map<DeviceId, DeviceKeys>>

    /** Starts from the given account and store: the olm sessions are those
        the store loads, and the containers initialised with `{}` are empty. */
    constructor (olmAccount: OlmAccount, database: Database)
      ensures this.olmAccount == olmAccount && this.database == database
      ensures olmSessions.Keys == database.olmSessions.Keys
      ensures forall k :: k in olmSessions ==> multiset(olmSessions[k]) == multiset(SessionsOf(database.olmSessions[k]))
      ensures verificationSessions == map[]
      ensures trackedUsers == {} && outdatedUsers == {} && deviceKeys == map[]
    {
      this.olmAccount := olmAccount;
      this.database := database;
      olmSessions := map[];
      verificationSessions := map[];
      trackedUsers := {};
      outdatedUsers := {};
      deviceKeys := map[];
      new;
      olmSessions := database.LoadOlmSessions();
    }

    /** `curveKeyForUserDevice`: the device's curve key from its published
        keys, empty when it is not known. */
    function CurveKeyForUserDevice(userId: UserId, deviceId: DeviceId): (r: string)
      reads this
      ensures r != "" ==> userId in deviceKeys && deviceId in deviceKeys[userId]
                          && CurveKeyId(deviceId) in deviceKeys[userId][deviceId].keys
                          && deviceKeys[userId][deviceId].keys[CurveKeyId(deviceId)] == r
      ensures userId !in deviceKeys || deviceId !in deviceKeys[userId] ==> r == ""
    {
      if userId in deviceKeys && deviceId in deviceKeys[userId]
         && CurveKeyId(deviceId) in deviceKeys[userId][deviceId].keys
      then deviceKeys[userId][deviceId].keys[CurveKeyId(deviceId)]
      else ""
    }

    /** `hasOlmSession`: some olm session exists with the device's curve key. */
    predicate HasOlmSession(userId: UserId, deviceId: DeviceId)
      reads this
      ensures HasOlmSession(userId, deviceId) <==>
                var curveKey := CurveKeyForUserDevice(userId, deviceId);
                curveKey in olmSessions && exists s :: s in olmSessions[curveKey]
    {
      var curveKey := CurveKeyForUserDevice(userId, deviceId);
      assert curveKey in olmSessions && olmSessions[curveKey] != [] ==> olmSessions[curveKey][0] in olmSessions[curveKey];
      curveKey in olmSessions && olmSessions[curveKey] != []
    }

    /** `saveSession`: stores the session under the sender key with the time
        of the call; nothing of this object changes. */
    method SaveSession(session: OlmSession, senderKey: CurveKey, now: DateTime)
      modifies database`olmSessions
      ensures database.olmSessions
              == old(database.olmSessions)[senderKey := StoredFor(old(database.olmSessions), senderKey) + [StoredOlmSession(session, now)]]
    {
      database.SaveOlmSession(senderKey, session, now);
    }

    /** `saveOlmAccount`: writes the current account to the store. */
    method SaveOlmAccount()
      modifies database`olmAccount
      ensures database.olmAccount == Some(olmAccount)
    {
      database.StoreOlmAccount(olmAccount);
    }

    /** `setupKeyVerificationSession`: a new session, registered under its
        transaction id (replacing any session registered there). */
    method SetupKeyVerificationSession(transactionId: string, remoteUserId: UserId, remoteDeviceId: DeviceId)
      returns (session: KeyVerificationSession)
      modifies this`verificationSessions
      ensures fresh(session)
      ensures session.transactionId == transactionId
      ensures session.remoteUserId == remoteUserId && session.remoteDeviceId == remoteDeviceId
      ensures verificationSessions == old(verificationSessions)[transactionId := session]
    {
      session := new KeyVerificationSession(transactionId, remoteUserId, remoteDeviceId);
      verificationSessions := verificationSessions[session.transactionId := session];
    }

    /** The hook run when a session registered under `transactionId` is
        destroyed: removes whatever is registered under that id. */
    method OnVerificationSessionDestroyed(transactionId: string)
      modifies this`verificationSessions
      ensures verificationSessions == old(verificationSessions) - {transactionId}
    {
      verificationSessions := verificationSessions - {transactionId};
    }

    /** `olmEncryptMessage`: only called when an olm session with the device
        exists; the message is encrypted with one of the device's sessions. */
    method OlmEncryptMessage(userId: UserId, deviceId: DeviceId, message: string,
                             encrypt: (OlmSession, string) -> OlmMessage) returns (m: OlmMessage)
      requires HasOlmSession(userId, deviceId)
      ensures var sessions := olmSessions[CurveKeyForUserDevice(userId, deviceId)];
              exists i :: 0 <= i < |sessions| && m == encrypt(sessions[i], message)
    {
      var sessions := olmSessions[CurveKeyForUserDevice(userId, deviceId)];
      m := encrypt(sessions[0], message);
    }
  }

  /** Setting up two sessions with one transaction id keeps one entry there:
      the later session. */
  method SameTransactionIdReplaces(data: ConnectionEncryptionData, transactionId: string,
                                   user: UserId, device: DeviceId, otherDevice: DeviceId)
    returns (first: KeyVerificationSession, second: KeyVerificationSession)
    modifies data`verificationSessions
    ensures first != second
    ensures data.verificationSessions == old(data.verificationSessions)[transactionId := second]
  {
    first := data.SetupKeyVerificationSession(transactionId, user, device);
    second := data.SetupKeyVerificationSession(transactionId, user, otherDevice);
  }

  /** Destroying a registered session removes exactly its entry: the
      registry is back to what it held before the setup, less that id. */
  method SetupThenDestroy(data: ConnectionEncryptionData, transactionId: string, user: UserId, device: DeviceId)
    returns (session: KeyVerificationSession)
    modifies data`verificationSessions
    ensures data.verificationSessions == old(data.verificationSessions) - {transactionId}
    ensures forall t :: t in data.verificationSessions ==> data.verificationSessions[t] == old(data.verificationSessions)[t]
  {
    session := data.SetupKeyVerificationSession(transactionId, user, device);
    data.OnVerificationSessionDestroyed(session.transactionId);
  }

  /** The destroy hook removes by transaction id, so destroying a session
      that a later setup replaced removes the later session's entry too. */
  method DestroyingReplacedSessionDropsNewer(data: ConnectionEncryptionData, transactionId: string,
                                             user: UserId, device: DeviceId, otherDevice: DeviceId)
    returns (first: KeyVerificationSession, second: KeyVerificationSession)
    modifies data`verificationSessions
    ensures first != second
    ensures first.transactionId == transactionId && second.transactionId == transactionId
    ensures data.verificationSessions == old(data.verificationSessions) - {transactionId}
    ensures second !in data.verificationSessions.Values
  {
    first := data.SetupKeyVerificationSession(transactionId, user, device);
    second := data.SetupKeyVerificationSession(transactionId, user, otherDevice);
    data.OnVerificationSessionDestroyed(first.transactionId);
  }

  /** A session saved through one connection state is among the sessions a
      state built afterwards on the same store starts with. */
  method SavedSessionSurvivesRestart(data: ConnectionEncryptionData, session: OlmSession,
                                     senderKey: CurveKey, now: DateTime)
    returns (restarted: ConnectionEncryptionData)
    modifies data.database`olmSessions
    ensures fresh(restarted) && restarted.database == data.database
    ensures senderKey in restarted.olmSessions && session in restarted.olmSessions[senderKey]
  {
    data.SaveSession(session, senderKey, now);
    restarted := new ConnectionEncryptionData(data.olmAccount, data.database);
    var rows := StoredFor(old(data.database.olmSessions), senderKey);
    assert SessionsOf(rows + [StoredOlmSession(session, now)]) == SessionsOf(rows) + [session];
    assert session in multiset(restarted.olmSessions[senderKey]);
  }
}
