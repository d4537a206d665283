/**
The session table of the media proxy (internal/playback/media_proxy.go) as a value: what pruning, inserting,
looking up and marking do to it, and what they keep.
*/
module ProxySessions {
  import opened Wrappers
  import opened Text
  import opened Plans
  import opened Sequences

  const PATH_PREFIX := "/api/media/"
  const DEFAULT_TTL := 6 * HOUR
  const MAX_SESSIONS := 128
  const TOKEN_LENGTH := 48

  /** What parsing a reference of a playlist against the playlist's own URL gives. */
  datatype Reference = Malformed | Foreign | Joined(url: string)

  /** URL parsing, on which the proxy relies: validation, expiry, playlist names and reference resolution. */
  datatype UrlRules = UrlRules(
    validate: string -> Option<string>, expiry: UrlExpiry, isPlaylist: string -> bool,
    join: (string, string) -> Reference)

  /** A lifetime is the context of one plan, named by a number. */
  datatype Session = Session(
    target: string, headers: map<string, string>, expiresAt: int, isHls: bool, lastUsed: int, observed: bool,
    lifetime: nat)

  type Table = map<string, Session>

  const ALLOWED_HEADERS := {"accept", "accept-encoding", "accept-language", "origin", "referer", "user-agent"}

  /** `sanitizePlaybackHeaders` */
  function Sanitize(headers: map<string, string>): map<string, string> {
    map name | name in headers && Lower(Trim(name)) in ALLOWED_HEADERS && |headers[name]| <= 4096
               && '\r' !in headers[name] && '\n' !in headers[name] :: headers[name]
  }

  /** Exactly the headers of these six names, whatever their case, are kept, if their value is short and of one line. */
  lemma SanitizeKeepsAllowed(headers: map<string, string>, name: string)
    ensures name in Sanitize(headers) <==>
              && name in headers && |headers[name]| <= 4096 && '\r' !in headers[name] && '\n' !in headers[name]
              && Lower(Trim(name)) in
                   ["accept", "accept-encoding", "accept-language", "origin", "referer", "user-agent"]
    ensures name in Sanitize(headers) ==> Sanitize(headers)[name] == headers[name]
  {
    hide Trim, Lower;
  }

  /** Headers handed down from a playlist to its segments lose nothing on the way. */
  lemma SanitizeOnce(headers: map<string, string>)
    ensures Sanitize(Sanitize(headers)) == Sanitize(headers)
  {
    hide Trim, Lower;
  }

  /**
  What one call of `wrapStream` meets: the clock, the random token, and whether the plan's lifetime ends on the way.
  */
  datatype Draw = Draw(now: int, token: Option<string>, lateBefore: bool, lateDuring: bool)

  predicate IsToken(token: string) {
    |token| == TOKEN_LENGTH && forall i :: 0 <= i < |token| ==> '0' <= token[i] <= '9' || 'a' <= token[i] <= 'f'
  }

  function Least(a: int, b: int): int {
    if b < a then b else a
  }

  /** When a session made at `now` ends: after six hours, with the plan, or with its URL, whichever comes first. */
  function SessionExpiry(url: string, planExpiry: int, now: int, rules: UrlRules): int {
    var withPlan := Least(now + DEFAULT_TTL, planExpiry);
    var ofUrl := rules.expiry(url);
    if ofUrl.Some? then Least(withPlan, ofUrl.value) else withPlan
  }

  /**
  The session `wrapStream` makes for a stream: there is one exactly when the target is valid, a token was drawn, and
  neither the plan nor the URL has expired. It ends with the first of the plan, the URL and six hours.
  */
  function NewSession(
    stream: Stream, planExpiry: int, draw: Draw, lifetime: nat, rules: UrlRules): (session: Option<Session>)
    ensures session.Some? <==>
              && rules.validate(stream.url).Some? && draw.token.Some? && draw.now < planExpiry
              && (rules.expiry(stream.url).Some? ==> draw.now < rules.expiry(stream.url).value)
    ensures session.Some? ==>
              && rules.validate(stream.url) == Some(session.value.target)
              && session.value.headers == Sanitize(stream.headers)
              && session.value.lifetime == lifetime && draw.now < session.value.expiresAt <= planExpiry
              && session.value.isHls == rules.isPlaylist(session.value.target)
              && session.value.lastUsed == draw.now && !session.value.observed
    ensures session.Some? ==>
              && session.value.expiresAt <= draw.now + DEFAULT_TTL
              && (rules.expiry(stream.url).Some? ==> session.value.expiresAt <= rules.expiry(stream.url).value)
              && (|| session.value.expiresAt == draw.now + DEFAULT_TTL || session.value.expiresAt == planExpiry
                  || Some(session.value.expiresAt) == rules.expiry(stream.url))
  {
    var target := rules.validate(stream.url);
    var expiresAt := SessionExpiry(stream.url, planExpiry, draw.now, rules);
    if target.None? || expiresAt <= draw.now || draw.token.None? then None
    else Some(Session(target.value, Sanitize(stream.headers), expiresAt, rules.isPlaylist(target.value), draw.now,
      false, lifetime))
  }

  /** The URL a player is given for a token. */
  function LocalUrl(base: string, token: string, isHls: bool): string {
    base + PATH_PREFIX + token + if isHls then ".m3u8" else ""
  }

  /** What is neither expired nor part of a plan that ended. */
  function Live(table: Table, ended: set<nat>, now: int): Table {
    map token | token in table && now < table[token].expiresAt && table[token].lifetime !in ended :: table[token]
  }

  /** Pruning keeps live sessions only, fewer than the limit, and gives up those used longest ago. */
  ghost predicate IsPruned(before: Table, after: Table, ended: set<nat>, now: int, limit: nat) {
    var live := Live(before, ended, now);
    && after.Keys <= live.Keys
    && (forall token :: token in after ==> after[token] == before[token])
    && |after| == (if |live| < limit then |live| else limit - 1)
    && (forall kept, gone :: kept in after && gone in live && gone !in after ==>
         live[gone].lastUsed <= live[kept].lastUsed)
  }

  ghost predicate IsInserted(
    before: Table, after: Table, ended: set<nat>, now: int, limit: nat, token: string, session: Session) {
    exists pruned :: IsPruned(before, pruned, ended, now, limit) && after == pruned[token := session]
  }

  /** When every session is live and there is room, pruning changes nothing. */
  lemma PruneKeepsAll(before: Table, after: Table, ended: set<nat>, now: int, limit: nat)
    requires IsPruned(before, after, ended, now, limit) && |before| < limit
    requires forall token :: token in before ==> now < before[token].expiresAt && before[token].lifetime !in ended
    ensures after == before
  {
    var live := Live(before, ended, now);
    assert live == before;
    KeysSize(after);
    KeysSize(live);
    SubsetSize(after.Keys, live.Keys);
  }

  /** An insertion never exceeds the limit, keeps no session of an ended lifetime, and always holds the new one. */
  lemma InsertionFits(
    before: Table, after: Table, ended: set<nat>, now: int, limit: nat, token: string, session: Session)
    requires IsInserted(before, after, ended, now, limit, token, session) && limit > 0
    ensures |after| <= limit && |after| <= |before| + 1 && token in after && after[token] == session
    ensures forall other :: other in after && other != token ==>
              other in before && after[other] == before[other] && after[other].lifetime !in ended
                && now < after[other].expiresAt
  {
    hide IsPruned;
    var pruned :| IsPruned(before, pruned, ended, now, limit) && after == pruned[token := session];
    PrunedFits(before, pruned, ended, now, limit);
    assert after.Keys == pruned.Keys + {token};
    KeysSize(after);
    KeysSize(pruned);
  }

  lemma PrunedFits(before: Table, after: Table, ended: set<nat>, now: int, limit: nat)
    requires IsPruned(before, after, ended, now, limit) && limit > 0
    ensures |after| < limit && |after| <= |before|
    ensures forall token :: token in after ==>
              token in before && after[token] == before[token] && after[token].lifetime !in ended
                && now < after[token].expiresAt
  {
    KeysSize(after);
    KeysSize(before);
    SubsetSize(after.Keys, before.Keys);
  }

  /**
  The key of a session used longest ago: the inner loop of `pruneLocked`, where the empty key stands for "none yet".
  */
  method OldestToken(table: Table) returns (oldestToken: string)
    requires |table| > 0 && "" !in table
    ensures oldestToken in table
    ensures forall token :: token in table ==> table[oldestToken].lastUsed <= table[token].lastUsed
  {
    oldestToken := "";
    var oldest := 0;
    var left := table.Keys;
    while left != {}
      invariant left <= table.Keys
      invariant oldestToken == "" ==> left == table.Keys
      invariant oldestToken != "" ==>
                  && oldestToken in table && oldest == table[oldestToken].lastUsed
                  && forall token :: token in table && token !in left ==> oldest <= table[token].lastUsed
      decreases left
    {
      var token :| token in left;
      if oldestToken == "" || table[token].lastUsed < oldest {
        oldestToken := token;
        oldest := table[token].lastUsed;
      }
      left := left - {token};
    }
    assert table.Keys != {};
  }

  /** `pruneLocked` on a table. */
  method Prune(before: Table, ended: set<nat>, now: int, limit: nat) returns (after: Table)
    requires "" !in before && limit > 0
    ensures IsPruned(before, after, ended, now, limit)
  {
    var live := Sweep(before, ended, now);
    after := live;
    KeysSize(live);
    while |after| >= limit
      invariant after.Keys <= live.Keys && forall token :: token in after ==> after[token] == live[token]
      invariant |after| == |live| || limit - 1 <= |after| < |live|
      invariant |live| < limit ==> |after| == |live|
      invariant forall kept, gone :: kept in after && gone in live && gone !in after ==>
          live[gone].lastUsed <= live[kept].lastUsed
      decreases |after|
    {
      var oldestToken := OldestToken(after);
      RemovedSize(after, oldestToken);
      after := after - {oldestToken};
    }
  }

  /** The first loop of `pruneLocked`. */
  method Sweep(before: Table, ended: set<nat>, now: int) returns (after: Table)
    ensures after == Live(before, ended, now)
  {
    after := before;
    var left := before.Keys;
    while left != {}
      invariant left <= before.Keys
      invariant after == map token | token in before
          && (token in left || (now < before[token].expiresAt && before[token].lifetime !in ended))
                                   :: before[token]
      decreases left
    {
      var token :| token in left;
      if !(now < after[token].expiresAt) || after[token].lifetime in ended {
        after := after - {token};
      }
      left := left - {token};
    }
  }

  /** A lookup finds a session that is neither expired nor ended. */
  predicate IsFound(table: Table, ended: set<nat>, now: int, token: string) {
    token in table && now < table[token].expiresAt && table[token].lifetime !in ended
  }

  /** `session`: what a lookup leaves behind. */
  function LookedUp(table: Table, ended: set<nat>, now: int, token: string): Table {
    if IsFound(table, ended, now, token) then table[token := table[token].(lastUsed := now)] else table - {token}
  }

  /** `markSessionObserved`: what it leaves behind. */
  function Observed(table: Table, ended: set<nat>, token: string): Table {
    if token !in table then table
    else if table[token].lifetime in ended then table - {token}
    else table[token := table[token].(observed := true)]
  }

  /** Two states of one session: only its use and observation marks may differ. */
  predicate SameSession(a: Session, b: Session) {
    a.(lastUsed := 0, observed := false) == b.(lastUsed := 0, observed := false)
  }

  /** `after` holds sessions of `before` only, up to their marks. */
  ghost predicate OnlyFrom(after: Table, before: Table) {
    after.Keys <= before.Keys && forall token :: token in after ==> SameSession(after[token], before[token])
  }

  /** A session that was looked up and marked can be looked up again. */
  lemma StillThere(table: Table, ended: set<nat>, now: int, token: string)
    requires token in table && now < table[token].expiresAt && table[token].lifetime !in ended
    ensures var after := Observed(LookedUp(table, ended, now, token), ended, token);
            after.Keys == table.Keys && OnlyFrom(after, table)
  {
  }

  lemma LookupKeeps(table: Table, ended: set<nat>, now: int, token: string)
    ensures OnlyFrom(LookedUp(table, ended, now, token), table) && |LookedUp(table, ended, now, token)| <= |table|
    ensures OnlyFrom(Observed(table, ended, token), table) && |Observed(table, ended, token)| <= |table|
  {
    var a, b := LookedUp(table, ended, now, token), Observed(table, ended, token);
    KeysSize(a);
    KeysSize(b);
    KeysSize(table);
    SubsetSize(a.Keys, table.Keys);
    SubsetSize(b.Keys, table.Keys);
  }
}
