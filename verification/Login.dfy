/**
Logging a profile in and out (internal/services/services.go, internal/auth/session.go). The key store and the account
table may fail at every call: a fault given as a parameter is what the call then reports, and it changes nothing.
*/
module Login {
  import opened Wrappers
  import opened Text

  datatype StoreError = NotFound | Unavailable | Broken

  type Fault = Option<StoreError>

  datatype Persistence = Keyring | Memory

  datatype Profile = Profile(id: string, guest: bool)

  datatype Identity = Identity(provider: string, subject: string, email: string)

  datatype Account = Account(
    provider: string, subject: string, email: string, connectedAt: string, persistence: Persistence)

  datatype Status = Pending | Idle | Connected(warning: bool) | Failed

  const DEFAULT_PROFILE := "default"

  /** `RefreshTokenKey` */
  function TokenKey(profile: string): string {
    "google.refresh_token/" + (if Trim(profile) == "" then DEFAULT_PROFILE else Trim(profile))
  }

  /** Profiles whose ids differ after trimming keep their tokens apart. */
  lemma TokenKeysDiffer(a: string, b: string)
    requires Trim(a) != "" && Trim(b) != ""
    ensures TokenKey(a) == TokenKey(b) <==> Trim(a) == Trim(b)
  {
    hide Trim;
    var prefix := "google.refresh_token/";
    assert TokenKey(a)[|prefix|..] == Trim(a) && TokenKey(b)[|prefix|..] == Trim(b);
  }

  class KeyStore {
    var secrets: map<string, string>

    constructor (secrets: map<string, string>)
      ensures this.secrets == secrets
    {
      this.secrets := secrets;
    }

    method Get(key: string, fault: Fault) returns (result: Result<string, StoreError>)
      ensures result == if fault.Some? then Err(fault.value) else if key in secrets then Ok(secrets[key])
          else Err(NotFound)
    {
      if fault.Some? {
        return Err(fault.value);
      }
      return if key in secrets then Ok(secrets[key]) else Err(NotFound);
    }

    method Set(key: string, value: string, fault: Fault) returns (error: Fault)
      modifies this
      ensures error == fault && secrets == if fault.Some? then old(secrets) else old(secrets)[key := value]
    {
      if fault.None? {
        secrets := secrets[key := value];
      }
      return fault;
    }

    method Delete(key: string, fault: Fault) returns (error: Fault)
      modifies this
      ensures error == if fault.Some? then fault else if key in old(secrets) then None else Some(NotFound)
      ensures secrets == if fault.Some? then old(secrets) else old(secrets) - {key}
    {
      if fault.Some? {
        return fault;
      }
      error := if key in secrets then None else Some(NotFound);
      secrets := secrets - {key};
    }
  }

  ghost predicate AreSameAccount(a: Account, b: Account) {
    a.provider == b.provider && a.subject == b.subject
  }

  /** No two profiles are connected to one account: UNIQUE (provider, provider_subject). */
  ghost predicate OneProfilePerAccount(rows: map<string, Account>) {
    forall a, b :: a in rows && b in rows && AreSameAccount(rows[a], rows[b]) ==> a == b
  }

  function ProviderOf(identity: Identity): string {
    if Trim(identity.provider) == "" then "google" else Trim(identity.provider)
  }

  /** The row `SaveAccount` writes. */
  function AccountRow(identity: Identity, connectedAt: string, persistence: Persistence): Account {
    Account(ProviderOf(identity), Trim(identity.subject), Trim(identity.email), connectedAt, persistence)
  }

  /** Whether saving is refused: no subject, no such profile, or an account another profile is connected to. */
  ghost predicate IsRefused(rows: map<string, Account>, profiles: set<string>, profile: string, row: Account) {
    || row.subject == "" || profile !in profiles
    || exists other :: other in rows && other != profile && AreSameAccount(rows[other], row)
  }

  lemma ProviderIs(identity: Identity)
    ensures ProviderOf(identity) == if Trim(identity.provider) == "" then "google" else Trim(identity.provider)
  {
  }

  /** Some other profile is connected to the account that this identity names. */
  ghost predicate IsTaken(rows: map<string, Account>, profile: string, identity: Identity) {
    exists other ::
      && other in rows && other != profile && rows[other].subject == Trim(identity.subject)
      && rows[other].provider == if Trim(identity.provider) == "" then "google" else Trim(identity.provider)
  }

  /** The row names the account of the identity by its subject, whatever the provider's blanks; the e-mail is extra. */
  ghost predicate Records(row: Account, identity: Identity, connectedAt: string, persistence: Persistence) {
    && row.subject == Trim(identity.subject) && row.email == Trim(identity.email)
    && row.provider == (if Trim(identity.provider) == "" then "google" else Trim(identity.provider))
    && row.connectedAt == connectedAt && row.persistence == persistence
  }

  lemma RowRecords(identity: Identity, connectedAt: string, persistence: Persistence)
    ensures Records(AccountRow(identity, connectedAt, persistence), identity, connectedAt, persistence)
  {
    hide Trim;
  }

  /** Nothing else failing, an account is refused for an empty subject, an unknown profile, or a taken account. */
  lemma RefusedExactly(
    rows: map<string, Account>, profiles: set<string>, profile: string, identity: Identity, connectedAt: string,
    persistence: Persistence)
    ensures IsRefused(rows, profiles, profile, AccountRow(identity, connectedAt, persistence)) <==>
              Trim(identity.subject) == "" || profile !in profiles || IsTaken(rows, profile, identity)
  {
    hide Trim;
  }

  /** profile_accounts, keyed by profile and tied to the profiles that exist. */
  class AccountTable {
    var rows: map<string, Account>
    var profiles: set<string>

    constructor (profiles: set<string>)
      ensures Valid() && rows == map[] && this.profiles == profiles
    {
      rows, this.profiles := map[], profiles;
    }

    ghost predicate Valid()
      reads this
    {
      rows.Keys <= profiles && OneProfilePerAccount(rows)
    }

    /** `SaveAccount` */
    method Save(profile: string, identity: Identity, connectedAt: string, persistence: Persistence, broken: bool)
      returns (saved: bool)
      requires Valid()
      modifies this`rows
      ensures Valid()
      ensures saved <==>
          !broken && !IsRefused(old(rows), profiles, profile, AccountRow(identity, connectedAt, persistence))
      ensures rows ==
              if saved then old(rows)[profile := AccountRow(identity, connectedAt, persistence)] else old(rows)
    {
      hide Trim, ProviderOf;
      var provider := Trim(identity.provider);
      if provider == "" {
        provider := "google";
      }
      assert provider == ProviderOf(identity) by {
        ProviderIs(identity);
      }
      var subject := Trim(identity.subject);
      if broken || subject == "" || profile !in profiles {
        return false;
      }
      var row := Account(provider, subject, Trim(identity.email), connectedAt, persistence);
      var taken := FindOther(profile, row);
      if taken {
        return false;
      }
      rows := rows[profile := row];
      return true;
    }

    method FindOther(profile: string, row: Account) returns (taken: bool)
      ensures taken <==> exists other :: other in rows && other != profile && AreSameAccount(rows[other], row)
    {
      var left := rows.Keys;
      while left != {}
        invariant left <= rows.Keys
        invariant forall other :: other in rows && other !in left && other != profile ==>
                    rows[other].provider != row.provider || rows[other].subject != row.subject
        decreases left
      {
        var other :| other in left;
        if other != profile && rows[other].provider == row.provider && rows[other].subject == row.subject {
          return true;
        }
        left := left - {other};
      }
      return false;
    }

    /** `ClearAccount` */
    method Clear(profile: string, broken: bool) returns (cleared: bool)
      requires Valid()
      modifies this`rows
      ensures Valid() && cleared == !broken
      ensures rows == if broken then old(rows) else old(rows) - {profile}
    {
      if !broken {
        rows := rows - {profile};
      }
      return !broken;
    }

    /** Deleting a profile takes its account along: ON DELETE CASCADE. */
    method DeleteProfile(profile: string, broken: bool) returns (deleted: bool)
      requires Valid()
      modifies this
      ensures Valid() && deleted == !broken
      ensures rows == if broken then old(rows) else old(rows) - {profile}
      ensures profiles == if broken then old(profiles) else old(profiles) - {profile}
    {
      if !broken {
        rows, profiles := rows - {profile}, profiles - {profile};
      }
      return !broken;
    }
  }

  class Session {
    const profile: string
    const ephemeral: bool
    var memoryToken: string
    var persistence: Option<Persistence>
    /** The refresh token the cached token source was made from. */
    var tokenSource: Option<string>

    /** `NewSessionForProfile`, for a profile with a trimmed, non-empty id. */
    constructor (profile: string, ephemeral: bool)
      ensures this.profile == profile && this.ephemeral == ephemeral && memoryToken == "" && persistence == None
      ensures tokenSource == None
    {
      this.profile, this.ephemeral := profile, ephemeral;
      memoryToken, persistence, tokenSource := "", None, None;
    }

    /** The token of the session and what was made from it are as they were. */
    twostate predicate Stays()
      reads this
    {
      memoryToken == old(memoryToken) && persistence == old(persistence) && tokenSource == old(tokenSource)
    }

    /** `setMemoryToken`: a source made from an older token is dropped. */
    method SetMemoryToken(token: string, persistence: Option<Persistence>)
      modifies this
      ensures memoryToken == token && this.persistence == persistence && tokenSource == None
    {
      memoryToken := token;
      this.persistence := persistence;
      tokenSource := None;
    }

    /**
    `StoreRefreshToken`: guests, a missing store and an unavailable one keep the token in memory; any other
    failure of the store is reported and changes nothing.
    */
    method StoreRefreshToken(store: KeyStore, configured: bool, refreshToken: string, fault: Fault)
      returns (result: Result<Persistence, StoreError>)
      modifies this, store
      ensures result == StoreResult(UsesStore(configured, ephemeral), refreshToken, fault)
      ensures result.Ok? <==>
          Trim(refreshToken) != "" && (configured && !ephemeral ==> fault in [None, Some(Unavailable)])
      ensures result.Ok? ==> (result.value == Keyring <==> configured && !ephemeral && fault.None?)
      ensures store.secrets == if result == Ok(Keyring) then old(store.secrets)[TokenKey(profile) := refreshToken]
          else old(store.secrets)
      ensures if result.Ok? then memoryToken == refreshToken && persistence == Some(result.value) && tokenSource == None
              else memoryToken == old(memoryToken) && persistence == old(persistence) && tokenSource == old(tokenSource)
    {
      if Trim(refreshToken) == "" {
        return Err(Broken);
      }
      if !ephemeral && configured {
        var error := store.Set(TokenKey(profile), refreshToken, fault);
        if error.None? {
          SetMemoryToken(refreshToken, Some(Keyring));
          return Ok(Keyring);
        }
        if error.value != Unavailable {
          return Err(error.value);
        }
      }
      SetMemoryToken(refreshToken, Some(Memory));
      return Ok(Memory);
    }

    /** `Clear`: the token is forgotten first; a token that was not stored counts as removed. */
    method Clear(store: KeyStore, configured: bool, fault: Fault) returns (error: Fault)
      modifies this, store
      ensures memoryToken == "" && persistence == None && tokenSource == None
      ensures if !UsesStore(configured, ephemeral) || fault.Some? then store.secrets == old(store.secrets)
              else store.secrets == old(store.secrets) - {TokenKey(profile)}
      ensures error.Some? <==> UsesStore(configured, ephemeral) && fault.Some? && fault.value != NotFound
    {
      SetMemoryToken("", None);
      if ephemeral || !configured {
        return None;
      }
      error := store.Delete(TokenKey(profile), fault);
      if error == Some(NotFound) {
        error := None;
      }
    }
  }

  predicate UsesStore(configured: bool, guest: bool) {
    configured && !guest
  }

  function StoreResult(usesStore: bool, refreshToken: string, fault: Fault): Result<Persistence, StoreError> {
    if Trim(refreshToken) == "" then Err(Broken)
    else if !usesStore || fault == Some(Unavailable) then Ok(Memory)
    else if fault.Some? then Err(fault.value)
    else Ok(Keyring)
  }

  /** The token to restore when the login cannot be completed; an empty stored token counts as none. */
  function Snapshot(
    secrets: map<string, string>, key: string, usesStore: bool, fault: Fault): Result<Option<string>, StoreError> {
    if !usesStore || fault == Some(NotFound) || fault == Some(Unavailable) then Ok(None)
    else if fault.Some? then Err(fault.value)
    else if key in secrets && secrets[key] != "" then Ok(Some(secrets[key]))
    else Ok(None)
  }

  /** What one login meets: a fault of each key store call, and whether the account table fails. */
  datatype Faults = Faults(read: Fault, store: Fault, save: bool, rollback: Fault)

  datatype Outcome = NoIdentity | Stale | NotPrepared | NotStored | NotSaved(rolledBack: bool) | LoggedIn

  /** The secrets after a login whose account could not be saved. */
  function AfterFailedSave(
    secrets: map<string, string>, key: string, usesStore: bool, refreshToken: string, faults: Faults)
    : (after: map<string, string>)
    ensures after - {key} == secrets - {key}
    ensures key in after ==> after[key] == refreshToken || (key in secrets && after[key] == secrets[key])
  {
    var stored := StoreResult(usesStore, refreshToken, faults.store);
    var snapshot := Snapshot(secrets, key, usesStore, faults.read);
    if stored != Ok(Keyring) then secrets
    else if faults.rollback.Some? then secrets[key := refreshToken]
    else if snapshot.Ok? && snapshot.value.Some? then secrets[key := snapshot.value.value]
    else secrets - {key}
  }

  /**
  Exactly when a failed login leaves the key store as it was: nothing was written to it, or what was there could be
  read, was not empty and was put back, or there was nothing and the new token was removed, or the old and
  the new token are the same.
  */
  lemma FailedLoginRestores(
    secrets: map<string, string>, key: string, usesStore: bool, refreshToken: string, faults: Faults)
    requires StoreResult(usesStore, refreshToken, faults.store).Ok?
    requires Snapshot(secrets, key, usesStore, faults.read).Ok?
    ensures AfterFailedSave(secrets, key, usesStore, refreshToken, faults) == secrets <==>
              || !usesStore || faults.store.Some?
              || (faults.rollback.None? && (key in secrets ==> secrets[key] != "" && faults.read.None?))
              || (faults.rollback.Some? && key in secrets && secrets[key] == refreshToken)
  {
    hide Trim;
    if usesStore && faults.store.None? && faults.rollback.Some? {
      assert secrets[key := refreshToken][key] == refreshToken;
    }
  }

  /** With a key store that does not fail and holds no empty token, a failed login leaves it as it was. */
  lemma ReliableStoreRestores(
    secrets: map<string, string>, key: string, usesStore: bool, refreshToken: string, save: bool)
    requires StoreResult(usesStore, refreshToken, None).Ok? && (key in secrets ==> secrets[key] != "")
    ensures AfterFailedSave(secrets, key, usesStore, refreshToken, Faults(None, None, save, None)) == secrets
  {
    FailedLoginRestores(secrets, key, usesStore, refreshToken, Faults(None, None, save, None));
  }

  /** An empty stored token is deleted by the rollback, even by a key store that never fails. */
  lemma EmptyTokenIsLost()
    ensures AfterFailedSave(map["k" := ""], "k", true, "new", Faults(None, None, true, None)) == map[]
  {
    assert Trim("new") != "" by {
      TrimSplits("new");
      assert "new"[0] == 'n';
    }
    assert map["k" := ""] - {"k"} == map[];
  }

  /** A token that could not be read for the snapshot is deleted by the rollback, although the store answers again. */
  lemma UnreadTokenIsLost()
    ensures AfterFailedSave(map["k" := "old"], "k", true, "new", Faults(Some(Unavailable), None, true, None)) == map[]
  {
    assert Trim("new") != "" by {
      TrimSplits("new");
      assert "new"[0] == 'n';
    }
    assert map["k" := "old"] - {"k"} == map[];
  }

  function GenerationOf(generations: map<string, nat>, profile: string): nat {
    if profile in generations then generations[profile] else 0
  }

  /** The status a failed step leaves: nothing changes for an attempt that is not the newest any more. */
  function WithStatus(
    statuses: map<string, Status>, generations: map<string, nat>, profile: string, generation: nat, status: Status)
    : map<string, Status>
  {
    if GenerationOf(generations, profile) == generation then statuses[profile := status] else statuses
  }

  /**
  How a login ends: it succeeds exactly when the attempt is the newest, its identity is known, the old token could
  be looked at, the new one stored, and the account table neither fails nor refuses the account.
  */
  ghost function LoginOutcome(
    newest: bool, identity: Option<Identity>, secrets: map<string, string>, key: string, usesStore: bool,
    refreshToken: string, connectedAt: string, rows: map<string, Account>, profiles: set<string>, profile: string,
    faults: Faults): (outcome: Outcome)
    ensures outcome == LoggedIn || outcome.NotSaved? <==>
              && newest && identity.Some? && Trim(refreshToken) != ""
              && (usesStore ==> faults.read in [None, Some(NotFound), Some(Unavailable)])
              && (usesStore ==> faults.store in [None, Some(Unavailable)])
    ensures outcome == LoggedIn ==>
              !faults.save && Trim(identity.value.subject) != "" && profile in profiles
              && !IsTaken(rows, profile, identity.value)
    ensures outcome.NotSaved? ==>
              || faults.save || Trim(identity.value.subject) == "" || profile !in profiles
              || IsTaken(rows, profile, identity.value)
  {
    var stored := StoreResult(usesStore, refreshToken, faults.store);
    if identity.None? then NoIdentity
    else if !newest then Stale
    else if Snapshot(secrets, key, usesStore, faults.read).Err? then NotPrepared
    else if stored.Err? then NotStored
    else
      RefusedExactly(rows, profiles, profile, identity.value, connectedAt, stored.value);
      if faults.save || IsRefused(rows, profiles, profile, AccountRow(identity.value, connectedAt, stored.value))
      then NotSaved(stored.value == Memory || faults.rollback.None?)
      else LoggedIn
  }

  class LoginService {
    const store: KeyStore
    const configured: bool
    const accounts: AccountTable
    var generations: map<string, nat>
    var statuses: map<string, Status>
    var sessions: map<string, Session>
    var oauthSession: Session?

    constructor (store: KeyStore, configured: bool, accounts: AccountTable)
      requires accounts.Valid()
      ensures Valid() && generations == map[] && sessions == map[] && oauthSession == null
      ensures this.store == store && this.configured == configured && this.accounts == accounts
    {
      this.store, this.configured, this.accounts := store, configured, accounts;
      generations, statuses, sessions, oauthSession := map[], map[], map[], null;
    }

    ghost predicate Valid()
      reads this, accounts, sessions.Values
    {
      accounts.Valid() && forall profile :: profile in sessions ==> sessions[profile].profile == profile
    }

    /** `beginLoginAttempt` */
    method BeginLoginAttempt(profile: string) returns (generation: nat)
      requires Valid()
      modifies this`generations, this`statuses
      ensures Valid() && generation == GenerationOf(old(generations), profile) + 1
      ensures generations == old(generations)[profile := generation] && statuses == old(statuses)[profile := Pending]
    {
      generation := GenerationOf(generations, profile) + 1;
      generations := generations[profile := generation];
      statuses := statuses[profile := Pending];
    }

    /** `setLoginStatusForAttempt` */
    method SetLoginStatusForAttempt(status: Status, profile: string, generation: nat)
      requires Valid()
      modifies this`statuses
      ensures Valid() && statuses == WithStatus(old(statuses), generations, profile, generation, status)
      ensures profile in generations && generations[profile] == generation ==>
          statuses == old(statuses)[profile := status]
      ensures profile in generations && generations[profile] != generation ==> statuses == old(statuses)
    {
      if GenerationOf(generations, profile) == generation {
        statuses := statuses[profile := status];
      }
    }

    /** `snapshotRefreshToken` */
    method SnapshotRefreshToken(profile: Profile, fault: Fault) returns (result: Result<Option<string>, StoreError>)
      ensures result == Snapshot(store.secrets, TokenKey(profile.id), UsesStore(configured, profile.guest), fault)
      ensures result.Err? <==> configured && !profile.guest && fault == Some(Broken)
      ensures result.Ok? ==>
                var key := TokenKey(profile.id);
                if configured && !profile.guest && fault.None? && key in store.secrets && store.secrets[key] != ""
                then result.value == Some(store.secrets[key]) else result.value == None
    {
      if profile.guest || !configured {
        return Ok(None);
      }
      var value := store.Get(TokenKey(profile.id), fault);
      match value
      case Ok(token) => return Ok(if |token| > 0 then Some(token) else None);
      case Err(error) =>
        if error == NotFound || error == Unavailable {
          return Ok(None);
        }
        return Err(error);
    }

    /** `rollbackRefreshToken`, after the new token was stored */
    method RollbackRefreshToken(profile: Profile, persistence: Persistence, previous: Option<string>, fault: Fault)
      returns (error: Fault)
      modifies store
      ensures store.secrets == if !UsesStore(configured, profile.guest) || persistence == Memory || fault.Some?
                               then old(store.secrets)
                               else if previous.Some? then old(store.secrets)[TokenKey(profile.id) := previous.value]
                               else old(store.secrets) - {TokenKey(profile.id)}
      ensures error == if !UsesStore(configured, profile.guest) || persistence == Memory then None
                       else if fault.Some? || previous.Some? || TokenKey(profile.id) in old(store.secrets) then fault
                       else Some(NotFound)
    {
      if profile.guest || persistence == Memory || !configured {
        return None;
      }
      if previous.Some? {
        error := store.Set(TokenKey(profile.id), previous.value, fault);
      } else {
        error := store.Delete(TokenKey(profile.id), fault);
      }
    }

    /**
    `completeLogin`: only the newest attempt of a profile gets past the first check, and whatever fails afterwards, the
    account rows, the session map and the session in use stay as they were; the key store is as
    `FailedLoginRestores` says.
    */
    method CompleteLogin(
      profile: Profile, generation: nat, identity: Option<Identity>, refreshToken: string, connectedAt: string,
      active: string, faults: Faults)
      returns (outcome: Outcome)
      requires Valid()
      modifies this`statuses, this`sessions, this`oauthSession, store, accounts`rows
      ensures Valid()
      ensures outcome == LoginOutcome(
                  GenerationOf(generations, profile.id) == generation, identity, old(store.secrets),
                  TokenKey(profile.id), UsesStore(configured, profile.guest), refreshToken, connectedAt,
                  old(accounts.rows), accounts.profiles, profile.id, faults)
      ensures outcome == Stale ==> statuses == old(statuses)
      ensures outcome != LoggedIn ==>
                && accounts.rows == old(accounts.rows) && sessions == old(sessions) && oauthSession == old(oauthSession)
                && (outcome != Stale ==>
                     statuses == WithStatus(old(statuses), generations, profile.id, generation, Failed))
      ensures outcome in {NoIdentity, Stale, NotPrepared, NotStored} ==> store.secrets == old(store.secrets)
      ensures outcome.NotSaved? ==>
                && StoreResult(UsesStore(configured, profile.guest), refreshToken, faults.store).Ok?
                && var key, usesStore := TokenKey(profile.id), UsesStore(configured, profile.guest);
                   && Snapshot(old(store.secrets), key, usesStore, faults.read).Ok?
                   && store.secrets == AfterFailedSave(old(store.secrets), key, usesStore, refreshToken, faults)
      ensures outcome == LoggedIn ==>
                && identity.Some? && profile.id in accounts.rows
                && Records(accounts.rows[profile.id], identity.value, connectedAt,
                           if configured && !profile.guest && faults.store.None? then Keyring else Memory)
      ensures outcome == LoggedIn ==>
                && identity.Some? && GenerationOf(generations, profile.id) == generation
                && profile.id in sessions && fresh(sessions[profile.id])
                && sessions == old(sessions)[profile.id := sessions[profile.id]]
                && oauthSession == (if active == profile.id then sessions[profile.id] else old(oauthSession))
                && var persistence := StoreResult(UsesStore(configured, profile.guest), refreshToken, faults.store);
                   && persistence.Ok? && sessions[profile.id].memoryToken == refreshToken
                   && sessions[profile.id].persistence == Some(persistence.value)
                   && store.secrets == (if persistence.value == Keyring
                                        then old(store.secrets)[TokenKey(profile.id) := refreshToken]
                                        else old(store.secrets))
                   && statuses == old(statuses)[profile.id := Connected(persistence.value == Memory)]
                   && var row := AccountRow(identity.value, connectedAt, persistence.value);
                      accounts.rows == old(accounts.rows)[profile.id := row]
    {
      hide Trim, TokenKey, AccountRow, IsRefused, OneProfilePerAccount, Records, IsTaken;
      if identity.None? {
        SetLoginStatusForAttempt(Failed, profile.id, generation);
        return NoIdentity;
      }
      if GenerationOf(generations, profile.id) != generation {
        return Stale;
      }
      var previous := SnapshotRefreshToken(profile, faults.read);
      if previous.Err? {
        SetLoginStatusForAttempt(Failed, profile.id, generation);
        return NotPrepared;
      }
      var session := new Session(profile.id, profile.guest);
      var persistence := session.StoreRefreshToken(store, configured, refreshToken, faults.store);
      if persistence.Err? {
        SetLoginStatusForAttempt(Failed, profile.id, generation);
        return NotStored;
      }
      var saved := accounts.Save(profile.id, identity.value, connectedAt, persistence.value, faults.save);
      if !saved {
        var error := RollbackRefreshToken(profile, persistence.value, previous.value, faults.rollback);
        SetLoginStatusForAttempt(Failed, profile.id, generation);
        return NotSaved(error.None?);
      }
      RowRecords(identity.value, connectedAt, persistence.value);
      Publish(profile.id, session, persistence.value == Memory, active);
      return LoggedIn;
    }

    /** The last section of `completeLogin` under the login mutex. */
    method Publish(profile: string, session: Session, warning: bool, active: string)
      requires Valid() && session.profile == profile
      modifies this`statuses, this`sessions, this`oauthSession
      ensures Valid() && sessions == old(sessions)[profile := session]
      ensures statuses == old(statuses)[profile := Connected(warning)]
      ensures oauthSession == if active == profile then session else old(oauthSession)
    {
      sessions := sessions[profile := session];
      if active == profile {
        oauthSession := session;
      }
      statuses := statuses[profile := Connected(warning)];
    }

    /** The session to clear: the one in the map, or a new one for the profile. */
    method SessionToClear(profile: Profile) returns (session: Session)
      requires Valid()
      ensures session.profile == profile.id
      ensures profile.id in sessions ==> session == sessions[profile.id]
      ensures profile.id !in sessions ==> fresh(session) && session.ephemeral == profile.guest
    {
      if profile.id in sessions {
        return sessions[profile.id];
      }
      session := new Session(profile.id, profile.guest);
    }

    /** The session of the profile forgets its token, in memory and in the key store; other sessions keep theirs. */
    method ClearSession(profile: Profile, clearing: Fault) returns (error: Fault)
      requires Valid() && (profile.id in sessions ==> sessions[profile.id].ephemeral == profile.guest)
      modifies store, sessions.Values
      ensures Valid()
      ensures error.Some? <==> UsesStore(configured, profile.guest) && clearing.Some? && clearing.value != NotFound
      ensures store.secrets == if UsesStore(configured, profile.guest) && clearing.None?
                               then old(store.secrets) - {TokenKey(profile.id)} else old(store.secrets)
      ensures profile.id in sessions ==>
          && sessions[profile.id].memoryToken == "" && sessions[profile.id].tokenSource == None
          && sessions[profile.id].persistence == None
      ensures forall other :: other in sessions && other != profile.id ==> sessions[other].Stays()
    {
      hide TokenKey, OneProfilePerAccount;
      var session := SessionToClear(profile);
      error := session.Clear(store, configured, clearing);
    }

    /**
    `DisconnectAccount`, for the active profile: earlier attempts are outdated in any case; the token, the account and
    the session go, in this order, up to the first that fails.
    */
    method DisconnectAccount(profile: Profile, clearing: Fault, broken: bool) returns (done: bool)
      requires Valid() && (profile.id in sessions ==> sessions[profile.id].ephemeral == profile.guest)
      modifies this, store, accounts`rows, sessions.Values
      ensures Valid() && generations == old(generations)[profile.id := GenerationOf(old(generations), profile.id) + 1]
      ensures done <==>
          !broken && !(UsesStore(configured, profile.guest) && clearing.Some? && clearing.value != NotFound)
      ensures done && clearing.None? && UsesStore(configured, profile.guest) ==>
          store.secrets == old(store.secrets) - {TokenKey(profile.id)}
      ensures done ==> accounts.rows == old(accounts.rows) - {profile.id} && sessions == old(sessions) - {profile.id}
      ensures done ==> statuses == old(statuses)[profile.id := Idle]
      ensures profile.id in old(sessions) ==>
          old(sessions[profile.id]).memoryToken == "" && old(sessions[profile.id]).tokenSource == None
      ensures done ==>
          oauthSession == if old(oauthSession) != null && old(oauthSession).profile == profile.id then null
                          else old(oauthSession)
      ensures forall other :: other in old(sessions) && other != profile.id ==> old(sessions)[other].Stays()
      ensures store.secrets - {TokenKey(profile.id)} == old(store.secrets) - {TokenKey(profile.id)}
      ensures clearing.Some? || !UsesStore(configured, profile.guest) ==> store.secrets == old(store.secrets)
      ensures !done ==>
          && accounts.rows == old(accounts.rows) && sessions == old(sessions) && statuses == old(statuses)
          && oauthSession == old(oauthSession)
    {
      hide TokenKey, OneProfilePerAccount;
      generations := generations[profile.id := GenerationOf(generations, profile.id) + 1];
      var error := ClearSession(profile, clearing);
      if error.Some? {
        return false;
      }
      var cleared := accounts.Clear(profile.id, broken);
      if !cleared {
        return false;
      }
      sessions := sessions - {profile.id};
      if oauthSession != null && oauthSession.profile == profile.id {
        oauthSession := null;
      }
      statuses := statuses[profile.id := Idle];
      return true;
    }

    /** `DeleteProfile`, up to the switch to another profile: the default profile stays. */
    method DeleteProfile(profile: Profile, clearing: Fault, broken: bool) returns (done: bool)
      requires Valid() && (profile.id in sessions ==> sessions[profile.id].ephemeral == profile.guest)
      modifies this, store, accounts, sessions.Values
      ensures Valid()
      ensures profile.id == DEFAULT_PROFILE || profile.id !in old(accounts.profiles) ==>
          !done && generations == old(generations)
      ensures profile.id != DEFAULT_PROFILE && profile.id in old(accounts.profiles) ==>
                && generations == old(generations)[profile.id := GenerationOf(old(generations), profile.id) + 1]
                && (done <==>
                     !broken && !(UsesStore(configured, profile.guest) && clearing.Some? && clearing.value != NotFound))
      ensures done ==>
                && accounts.profiles == old(accounts.profiles) - {profile.id}
                && accounts.rows == old(accounts.rows) - {profile.id}
                && sessions == old(sessions) - {profile.id} && statuses == old(statuses) - {profile.id}
                && (clearing.None? && UsesStore(configured, profile.guest) ==>
                     store.secrets == old(store.secrets) - {TokenKey(profile.id)})
      ensures done && profile.id in old(sessions) ==>
                old(sessions[profile.id]).memoryToken == "" && old(sessions[profile.id]).tokenSource == None
      ensures done ==>
          oauthSession == if old(oauthSession) != null && old(oauthSession).profile == profile.id then null
                          else old(oauthSession)
      ensures forall other :: other in old(sessions) && other != profile.id ==> old(sessions)[other].Stays()
      ensures store.secrets - {TokenKey(profile.id)} == old(store.secrets) - {TokenKey(profile.id)}
      ensures clearing.Some? || !UsesStore(configured, profile.guest) ==> store.secrets == old(store.secrets)
      ensures !done ==>
          && accounts.rows == old(accounts.rows) && accounts.profiles == old(accounts.profiles)
          && sessions == old(sessions)
    {
      hide TokenKey, OneProfilePerAccount;
      if profile.id == DEFAULT_PROFILE || profile.id !in accounts.profiles {
        return false;
      }
      generations := generations[profile.id := GenerationOf(generations, profile.id) + 1];
      var error := ClearSession(profile, clearing);
      if error.Some? {
        return false;
      }
      var deleted := accounts.DeleteProfile(profile.id, broken);
      if !deleted {
        return false;
      }
      sessions := sessions - {profile.id};
      statuses := statuses - {profile.id};
      if oauthSession != null && oauthSession.profile == profile.id {
        oauthSession := null;
      }
      return true;
    }
  }
}
