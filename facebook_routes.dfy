/**
 * The ad-account routes: connecting an account after the OAuth exchange (an upsert on the pair
 * user and platform account id), starting a sync behind the ownership and active guards,
 * disconnecting by soft delete, reporting the sync status, and picking each listed campaign's
 * latest metrics.  The token exchange, the account lookup on the platform and the token cipher
 * are inputs.
 */
module FacebookRoutes {
  import opened Wrappers
  import opened Store
  import FacebookSync
  import CryptoUtils

  const AccountNotFound: string := "ACCOUNT_NOT_FOUND"
  const SyncStartError: string := "SYNC_START_ERROR"
  const NoAccessToken: string := "Token de acesso não recebido"
  const InProgress: string := "in_progress"
  const Incremental: string := "incremental"

  // ---------------------------------------------------------------------------------------------
  // Connect

  /** The token endpoint's answer: the access token and its lifetime in seconds, each possibly absent. */
  datatype TokenData = TokenData(accessToken: Option<string>, expiresIn: Option<int>)

  /** The platform's description of the authorised ad account. */
  datatype AccountInfo = AccountInfo(id: string, name: string)

  /** The expiry stored with a token: `expires_in` seconds from now, or none when it is absent or 0. */
  function TokenExpiry(expiresIn: Option<int>, now: int): (r: Option<int>)
    ensures r.Some? <==> expiresIn.Some? && expiresIn.value != 0
    ensures r.Some? ==> r.value - now == expiresIn.value * 1000
  {
    if expiresIn.Some? && expiresIn.value != 0 then Some(now + expiresIn.value * 1000) else None
  }

  /** The token is truthy: present and not the empty string. */
  predicate HasAccessToken(token: TokenData) {
    token.accessToken.Some? && token.accessToken.value != ""
  }

  /** The row of `accounts` with the natural key (userId, accountId), if there is one. */
  ghost function AccountFor(accounts: map<string, Account>, userId: string, accountId: string): (r: Option<string>)
    ensures r.Some? ==> r.value in accounts && accounts[r.value].userId == userId && accounts[r.value].accountId == accountId
    ensures r.None? ==> forall id :: id in accounts ==> !(accounts[id].userId == userId && accounts[id].accountId == accountId)
  {
    if exists id :: id in accounts && accounts[id].userId == userId && accounts[id].accountId == accountId then
      var id :| id in accounts && accounts[id].userId == userId && accounts[id].accountId == accountId;
      Some(id)
    else None
  }

  /**
   * The account table after the callback's upsert: the existing row for (userId, info.id) gets
   * the new name, token and expiry and is active again; otherwise a new active row is created
   * under `freshId`, never synced.
   */
  ghost function Upsert(accounts: map<string, Account>, userId: string, info: AccountInfo,
                        encryptedToken: string, expiry: Option<int>, freshId: string): map<string, Account>
  {
    match AccountFor(accounts, userId, info.id)
    case Some(id) =>
      accounts[id := accounts[id].(accountName := info.name, accessToken := Some(encryptedToken),
                                   tokenExpiry := expiry, isActive := true)]
    case None =>
      accounts[freshId := Account(freshId, userId, info.id, info.name, Some(encryptedToken), expiry, true, None)]
  }

  /**
   * The upsert keeps the table valid, leaves exactly one active row with the natural key, holding
   * the new name, token and expiry, and touches no other row.
   */
  lemma UpsertFacts(accounts: map<string, Account>, userId: string, info: AccountInfo,
                    encryptedToken: string, expiry: Option<int>, freshId: string)
    requires AccountsValid(accounts) && freshId !in accounts
    ensures var next := Upsert(accounts, userId, info, encryptedToken, expiry, freshId);
      && AccountsValid(next)
      && (exists id :: && id in next && next[id].userId == userId && next[id].accountId == info.id
                       && next[id].accountName == info.name && next[id].accessToken == Some(encryptedToken)
                       && next[id].tokenExpiry == expiry && next[id].isActive)
      && (forall id :: id in accounts && !(accounts[id].userId == userId && accounts[id].accountId == info.id)
                       ==> id in next && next[id] == accounts[id])
      && next.Keys <= accounts.Keys + {freshId}
  {
    var next := Upsert(accounts, userId, info, encryptedToken, expiry, freshId);
    match AccountFor(accounts, userId, info.id)
    case Some(id) =>
      RewriteKeepsAccountsValid(accounts, id, next[id]);
      assert next[id].accountName == info.name;
    case None =>
      assert forall i, j :: SameNaturalKey(next, i, j) && i != freshId && j != freshId ==> SameNaturalKey(accounts, i, j);
      assert next[freshId].accountId == info.id;
  }

  /** Connecting the same account twice with the same answer leaves the table as after the first time. */
  lemma UpsertIdempotent(accounts: map<string, Account>, userId: string, info: AccountInfo,
                         encryptedToken: string, expiry: Option<int>, freshId: string, freshId2: string)
    requires AccountsValid(accounts) && freshId !in accounts
    ensures var once := Upsert(accounts, userId, info, encryptedToken, expiry, freshId);
      Upsert(once, userId, info, encryptedToken, expiry, freshId2) == once
  {
    var once := Upsert(accounts, userId, info, encryptedToken, expiry, freshId);
    UpsertFacts(accounts, userId, info, encryptedToken, expiry, freshId);
    var id :| && id in once && once[id].userId == userId && once[id].accountId == info.id
              && once[id].accountName == info.name && once[id].accessToken == Some(encryptedToken)
              && once[id].tokenExpiry == expiry && once[id].isActive;
    var again := AccountFor(once, userId, info.id);
    assert again == Some(id) by {
      assert SameNaturalKey(once, again.value, id);
    }
    assert once[id := once[id].(accountName := info.name, accessToken := Some(encryptedToken),
                                 tokenExpiry := expiry, isActive := true)] == once;
  }

  /** What the callback answers with: the row's ids, name and active flag. */
  datatype Connected = Connected(id: string, accountId: string, accountName: string, isActive: bool)

  /**
   * `POST /callback`: a token answer without an access token fails before any write; otherwise
   * the access token is encrypted under the fresh 16-byte `iv` (an encryption failure also ends
   * the callback before any write) and the envelope is stored by the upsert.  `freshId` is the
   * row id the store would assign to a new row.
   */
  method Connect(db: Database, userId: string, token: TokenData, info: AccountInfo, iv: seq<CryptoUtils.Byte>,
                 cipher: CryptoUtils.Cipher, freshId: string, now: int)
    returns (r: Result<Connected, string>)
    requires db.Valid() && freshId !in db.accounts && |iv| == 16
    modifies db`accounts
    ensures db.Valid()
    ensures !HasAccessToken(token) ==> r == Err(NoAccessToken) && db.accounts == old(db.accounts)
    ensures HasAccessToken(token) && CryptoUtils.Encrypt(token.accessToken.value, iv, cipher).Err? ==>
      r == Err(CryptoUtils.Encrypt(token.accessToken.value, iv, cipher).error) && db.accounts == old(db.accounts)
    ensures HasAccessToken(token) && CryptoUtils.Encrypt(token.accessToken.value, iv, cipher).Ok? ==>
      && CryptoUtils.Encrypt(token.accessToken.value, iv, cipher).value.Some?
      && db.accounts == Upsert(old(db.accounts), userId, info, CryptoUtils.Encrypt(token.accessToken.value, iv, cipher).value.value,
                               TokenExpiry(token.expiresIn, now), freshId)
      && r.Ok? && r.value.id in db.accounts
      && r.value == Connected(r.value.id, info.id, info.name, true)
      && db.accounts[r.value.id].userId == userId && db.accounts[r.value.id].accountId == info.id
    ensures r.Ok? && CryptoUtils.Inverse(cipher, token.accessToken.value) ==>
      CryptoUtils.Decrypt(db.accounts[r.value.id].accessToken, cipher) == Ok(Some(token.accessToken.value))
  {
    if !HasAccessToken(token) {
      return Err(NoAccessToken);
    }
    var encrypted := CryptoUtils.Encrypt(token.accessToken.value, iv, cipher);
    if encrypted.Err? {
      return Err(encrypted.error);
    }
    if CryptoUtils.Inverse(cipher, token.accessToken.value) {
      CryptoUtils.EncryptDecrypt(token.accessToken.value, iv, cipher);
    }
    var encryptedToken := encrypted.value.value;
    var expiry := TokenExpiry(token.expiresIn, now);
    ghost var before := db.accounts;
    UpsertFacts(db.accounts, userId, info, encryptedToken, expiry, freshId);
    var id;
    if exists i :: i in db.accounts && db.accounts[i].userId == userId && db.accounts[i].accountId == info.id {
      id :| id in db.accounts && db.accounts[id].userId == userId && db.accounts[id].accountId == info.id;
      assert AccountFor(before, userId, info.id) == Some(id) by {
        assert SameNaturalKey(before, AccountFor(before, userId, info.id).value, id);
      }
      db.accounts := db.accounts[id := db.accounts[id].(accountName := info.name, accessToken := Some(encryptedToken),
                                                         tokenExpiry := expiry, isActive := true)];
    } else {
      id := freshId;
      db.accounts := db.accounts[id := Account(id, userId, info.id, info.name, Some(encryptedToken), expiry, true, None)];
    }
    r := Ok(Connected(id, info.id, info.name, true));
  }

  // ---------------------------------------------------------------------------------------------
  // Ownership guards

  /** The row `id` exists and belongs to the caller. */
  predicate Owned(accounts: map<string, Account>, userId: string, id: string) {
    id in accounts && accounts[id].userId == userId
  }

  /** The row `id` exists, belongs to the caller and is active: the guard of sync and listing. */
  predicate OwnedActive(accounts: map<string, Account>, userId: string, id: string) {
    Owned(accounts, userId, id) && accounts[id].isActive
  }

  /** The acknowledgement of a started sync. */
  datatype SyncAck = SyncAck(accountId: string, syncType: string, status: string)

  /** The token a sync run is handed: the decrypted text, or the empty string when none was stored. */
  function RunToken(decrypted: Option<string>): string {
    if decrypted.Some? then decrypted.value else ""
  }

  /**
   * `POST /sync/:accountId`: behind the guard, the stored token is decrypted (a failure answers
   * `SYNC_START_ERROR` before anything is written) and handed to a sync run whose outcome
   * never reaches the answer; the answer is `in_progress` with the requested type,
   * `incremental` by default.  `outcome` is the run's own result, which the route drops.
   */
  method StartSync(db: Database, userId: string, id: string, syncType: Option<string>, cipher: CryptoUtils.Cipher,
                   api: FacebookSync.GraphApi, faults: FacebookSync.Faults, now: int)
    returns (r: Result<SyncAck, string>, ghost outcome: Result<nat, string>)
    requires db.Valid()
    modifies db`campaigns, db`adSets, db`ads, db`campaignMetrics, db`accounts, db`syncLogs
    ensures db.Valid()
    ensures !OwnedActive(old(db.accounts), userId, id) ==> r == Err(AccountNotFound)
    ensures OwnedActive(old(db.accounts), userId, id) && CryptoUtils.Decrypt(old(db.accounts)[id].accessToken, cipher).Err?
            ==> r == Err(SyncStartError)
    ensures r.Ok? <==> OwnedActive(old(db.accounts), userId, id)
                       && CryptoUtils.Decrypt(old(db.accounts)[id].accessToken, cipher).Ok?
    ensures r.Ok? ==> r.value == SyncAck(id, if syncType.Some? then syncType.value else Incremental, InProgress)
    ensures r.Ok? ==>
      var account := old(db.accounts)[id];
      FacebookSync.SyncRan(db, account, RunToken(CryptoUtils.Decrypt(account.accessToken, cipher).value),
                           r.value.syncType, api, faults, now, outcome)
    ensures r.Err? ==> unchanged(db`campaigns, db`adSets, db`ads, db`campaignMetrics, db`accounts, db`syncLogs)
  {
    if !OwnedActive(db.accounts, userId, id) {
      return Err(AccountNotFound), Err(AccountNotFound);
    }
    var account := db.accounts[id];
    var decrypted := CryptoUtils.Decrypt(account.accessToken, cipher);
    if decrypted.Err? {
      return Err(SyncStartError), Err(SyncStartError);
    }
    var kind := if syncType.Some? then syncType.value else Incremental;
    outcome := FacebookSync.SyncAccountData(db, account, RunToken(decrypted.value), kind, api, faults, now);
    r := Ok(SyncAck(id, kind, InProgress));
  }

  // ---------------------------------------------------------------------------------------------
  // Disconnect

  /** The account table after a disconnect: only the flag of the caller's row is cleared. */
  function Deactivated(accounts: map<string, Account>, userId: string, id: string): (r: map<string, Account>)
    ensures Owned(accounts, userId, id) ==> r.Keys == accounts.Keys && !r[id].isActive
    ensures !Owned(accounts, userId, id) ==> r == accounts
    ensures forall i :: i in accounts && i != id ==> i in r && r[i] == accounts[i]
  {
    if Owned(accounts, userId, id) then accounts[id := accounts[id].(isActive := false)] else accounts
  }

  /** Disconnecting twice is disconnecting once. */
  lemma DeactivatedIdempotent(accounts: map<string, Account>, userId: string, id: string)
    ensures Deactivated(Deactivated(accounts, userId, id), userId, id) == Deactivated(accounts, userId, id)
  {
    if Owned(accounts, userId, id) {
      var once := Deactivated(accounts, userId, id);
      assert once[id := once[id].(isActive := false)] == once;
    }
  }

  /** A disconnected row keeps its token and everything else; the next sync is refused. */
  lemma DisconnectedRowIsKept(accounts: map<string, Account>, userId: string, id: string)
    requires Owned(accounts, userId, id)
    ensures var r := Deactivated(accounts, userId, id);
      && r[id] == accounts[id].(isActive := false)
      && !OwnedActive(r, userId, id)
  {
  }

  /** `DELETE /accounts/:accountId`: soft delete of an owned row, active or not. */
  method Disconnect(db: Database, userId: string, id: string) returns (r: Result<string, string>)
    requires db.Valid()
    modifies db`accounts
    ensures db.Valid()
    ensures db.accounts == Deactivated(old(db.accounts), userId, id)
    ensures r == if Owned(old(db.accounts), userId, id) then Ok(id) else Err(AccountNotFound)
  {
    if !Owned(db.accounts, userId, id) {
      return Err(AccountNotFound);
    }
    RewriteKeepsAccountsValid(db.accounts, id, db.accounts[id].(isActive := false));
    db.accounts := db.accounts[id := db.accounts[id].(isActive := false)];
    r := Ok(id);
  }

  // ---------------------------------------------------------------------------------------------
  // Sync status

  /** The entries of `logs` written under `key`, in order of writing. */
  function LogsUnder(logs: seq<SyncLog>, key: string): (r: seq<SyncLog>)
    ensures |r| <= |logs|
    ensures forall e :: e in r <==> e in logs && e.accountId == key
    decreases |logs|
  {
    if logs == [] then []
    else LogsUnder(logs[..|logs| - 1], key) + (if logs[|logs| - 1].accountId == key then [logs[|logs| - 1]] else [])
  }

  /** The last (at most) `n` entries of `logs`, newest first. */
  function NewestFirst(logs: seq<SyncLog>, n: nat): (r: seq<SyncLog>)
    ensures |r| == if |logs| < n then |logs| else n
    ensures forall i :: 0 <= i < |r| ==> r[i] == logs[|logs| - 1 - i]
    decreases n
  {
    if n == 0 || logs == [] then []
    else [logs[|logs| - 1]] + NewestFirst(logs[..|logs| - 1], n - 1)
  }

  datatype StatusReport = StatusReport(
    id: string, accountName: string, lastSync: Option<int>, isActive: bool, recentSyncs: seq<SyncLog>)

  /** `GET /sync-status/:accountId` as written: the log is searched under the row id. */
  function SyncStatusAsWritten(accounts: map<string, Account>, logs: seq<SyncLog>, userId: string, id: string)
    : (r: Result<StatusReport, string>)
    ensures r.Err? <==> !Owned(accounts, userId, id)
    ensures r.Err? ==> r.error == AccountNotFound
    ensures r.Ok? ==> r.value.recentSyncs == NewestFirst(LogsUnder(logs, id), 5)
  {
    if !Owned(accounts, userId, id) then Err(AccountNotFound)
    else
      var a := accounts[id];
      Ok(StatusReport(id, a.accountName, a.lastSync, a.isActive, NewestFirst(LogsUnder(logs, id), 5)))
  }

  /**
   * The sync status as intended: the log is searched under the platform account id, which is
   * the key a sync run writes its entry under.
   */
  function SyncStatus(accounts: map<string, Account>, logs: seq<SyncLog>, userId: string, id: string)
    : (r: Result<StatusReport, string>)
    ensures r.Err? <==> !Owned(accounts, userId, id)
    ensures r.Err? ==> r.error == AccountNotFound
    ensures r.Ok? ==> && r.value.id == id && r.value.accountName == accounts[id].accountName
                      && r.value.lastSync == accounts[id].lastSync && r.value.isActive == accounts[id].isActive
                      && |r.value.recentSyncs| <= 5
                      && forall e :: e in r.value.recentSyncs ==> e in logs && e.accountId == accounts[id].accountId
    ensures r.Ok? ==> r.value.recentSyncs == NewestFirst(LogsUnder(logs, accounts[id].accountId), 5)
  {
    if !Owned(accounts, userId, id) then Err(AccountNotFound)
    else
      var a := accounts[id];
      Ok(StatusReport(id, a.accountName, a.lastSync, a.isActive, NewestFirst(LogsUnder(logs, a.accountId), 5)))
  }

  lemma {:induction false} LogsUnderSnoc(logs: seq<SyncLog>, entry: SyncLog, key: string)
    ensures LogsUnder(logs + [entry], key) == LogsUnder(logs, key) + (if entry.accountId == key then [entry] else [])
  {
    assert (logs + [entry])[..|logs + [entry]| - 1] == logs;
  }

  /** After a sync run of an owned account has logged, the status reports that entry first. */
  lemma StatusReportsLatestRun(accounts: map<string, Account>, logs: seq<SyncLog>, userId: string, id: string,
                               syncType: string, records: nat, outcome: Result<nat, string>)
    requires Owned(accounts, userId, id)
    ensures var entry := FacebookSync.RunLog(accounts[id], syncType, records, outcome);
      var r := SyncStatus(accounts, logs + [entry], userId, id);
      r.Ok? && r.value.recentSyncs[0] == entry
  {
    var entry := FacebookSync.RunLog(accounts[id], syncType, records, outcome);
    LogsUnderSnoc(logs, entry, accounts[id].accountId);
  }

  /**
   * As written, the status of an account whose row id differs from its platform id never shows
   * the entry its own run just wrote.
   */
  lemma StatusAsWrittenMissesRun(accounts: map<string, Account>, logs: seq<SyncLog>, userId: string, id: string,
                                 syncType: string, records: nat, outcome: Result<nat, string>)
    requires Owned(accounts, userId, id) && accounts[id].accountId != id
    ensures var entry := FacebookSync.RunLog(accounts[id], syncType, records, outcome);
      var r := SyncStatusAsWritten(accounts, logs + [entry], userId, id);
      r.Ok? && r.value.recentSyncs == SyncStatusAsWritten(accounts, logs, userId, id).value.recentSyncs
  {
    var entry := FacebookSync.RunLog(accounts[id], syncType, records, outcome);
    assert entry.accountId == accounts[id].accountId;
    LogsUnderSnoc(logs, entry, id);
    assert LogsUnder(logs + [entry], id) == LogsUnder(logs, id);
  }

  /** A concrete account: row `row1`, platform id `act1`, and a first successful run. */
  lemma StatusAsWrittenExample()
    ensures var account := Account("row1", "u1", "act1", "Loja", None, None, true, Some(0));
      var entry := FacebookSync.RunLog(account, Incremental, 3, Ok(3));
      && SyncStatusAsWritten(map["row1" := account], [entry], "u1", "row1").value.recentSyncs == []
      && SyncStatus(map["row1" := account], [entry], "u1", "row1").value.recentSyncs == [entry]
  {
    var account := Account("row1", "u1", "act1", "Loja", None, None, true, Some(0));
    var entry := FacebookSync.RunLog(account, Incremental, 3, Ok(3));
    StatusAsWrittenMissesRun(map["row1" := account], [], "u1", "row1", Incremental, 3, Ok(3));
    StatusReportsLatestRun(map["row1" := account], [], "u1", "row1", Incremental, 3, Ok(3));
    assert [] + [entry] == [entry];
  }

  // ---------------------------------------------------------------------------------------------
  // Latest metrics of a listed campaign

  /** `row` is the metric row of `campaign` with the greatest date. */
  ghost predicate IsLatestRow(metrics: map<MetricKey, MetricRow>, campaign: CampaignKey, row: MetricRow) {
    exists k :: && k in metrics && k.campaign == campaign && metrics[k] == row
                && forall j :: j in metrics && j.campaign == campaign ==> j.date <= k.date
  }

  /**
   * `latestMetrics`: the campaign's metric row with the greatest date, or none when it has no
   * rows.  Dates are unique per campaign, so the row is determined.
   */
  method LatestMetrics(metrics: map<MetricKey, MetricRow>, campaign: CampaignKey) returns (latest: Option<MetricRow>)
    ensures latest.None? <==> forall k :: k in metrics ==> k.campaign != campaign
    ensures latest.Some? ==> IsLatestRow(metrics, campaign, latest.value)
  {
    var pending := metrics.Keys;
    var best: Option<MetricKey> := None;
    while pending != {}
      invariant pending <= metrics.Keys
      invariant best.None? <==> forall k :: k in metrics && k !in pending ==> k.campaign != campaign
      invariant best.Some? ==> && best.value in metrics && best.value !in pending && best.value.campaign == campaign
                               && forall j :: j in metrics && j !in pending && j.campaign == campaign ==> j.date <= best.value.date
      decreases |pending|
    {
      var k :| k in pending;
      if k.campaign == campaign && (best.None? || best.value.date < k.date) {
        best := Some(k);
      }
      pending := pending - {k};
    }
    latest := if best.Some? then Some(metrics[best.value]) else None;
  }

  /** Listing is guarded like a sync: the row must be the caller's and active. */
  method ListCampaigns(db: Database, userId: string, id: string)
    returns (r: Result<map<CampaignKey, Option<MetricRow>>, string>)
    ensures r.Err? <==> !OwnedActive(db.accounts, userId, id)
    ensures r.Err? ==> r.error == AccountNotFound
    ensures r.Ok? ==> forall k :: k in r.value <==> k in db.campaigns && k.facebookAccountId == id
    ensures r.Ok? ==> forall k :: k in r.value ==>
      (r.value[k].None? <==> forall m :: m in db.campaignMetrics ==> m.campaign != k)
    ensures r.Ok? ==> forall k :: k in r.value && r.value[k].Some? ==> IsLatestRow(db.campaignMetrics, k, r.value[k].value)
  {
    if !OwnedActive(db.accounts, userId, id) {
      return Err(AccountNotFound);
    }
    var listed: map<CampaignKey, Option<MetricRow>> := map[];
    var pending := set k | k in db.campaigns && k.facebookAccountId == id;
    while pending != {}
      invariant forall k :: k in listed <==> k in db.campaigns && k.facebookAccountId == id && k !in pending
      invariant forall k :: k in pending ==> k in db.campaigns && k.facebookAccountId == id
      invariant forall k :: k in listed ==> (listed[k].None? <==> forall m :: m in db.campaignMetrics ==> m.campaign != k)
      invariant forall k :: k in listed && listed[k].Some? ==> IsLatestRow(db.campaignMetrics, k, listed[k].value)
      decreases |pending|
    {
      var k :| k in pending;
      var latest := LatestMetrics(db.campaignMetrics, k);
      listed := listed[k := latest];
      pending := pending - {k};
    }
    r := Ok(listed);
  }
}
