/**
Tokens and plans of the media proxy: which tokens are new, which sessions belong to which plan, and what
committing, revoking and inserting keep of that.
*/
module ProxyTokens {
  import opened Wrappers
  import opened Plans
  import opened Sequences
  import opened ProxySessions

  /** From draw `from` on, tokens are new: well formed, issued never before, and drawn once only. */
  ghost predicate AreFresh(draws: nat -> Draw, from: nat, issued: set<string>) {
    && (forall i :: from <= i && draws(i).token.Some? ==>
         IsToken(draws(i).token.value) && draws(i).token.value !in issued)
    && (forall i, j :: from <= i < j && draws(i).token.Some? && draws(j).token.Some? ==>
         draws(i).token != draws(j).token)
  }

  ghost predicate ClockRuns(now: int, draws: nat -> Draw) {
    (forall i :: now <= draws(i).now) && IsOrdered(draws)
  }

  ghost predicate IsOrdered(draws: nat -> Draw) {
    forall i, j :: i < j ==> draws(i).now <= draws(j).now
  }

  lemma FreshAfter(draws: nat -> Draw, from: nat, issued: set<string>, issued': set<string>)
    requires AreFresh(draws, from, issued)
    requires issued' == issued || (draws(from).token.Some? && issued' == issued + {draws(from).token.value})
    ensures AreFresh(draws, from + 1, issued')
  {
  }

  lemma FreshNow(draws: nat -> Draw, next: nat, issued: set<string>)
    requires AreFresh(draws, next, issued)
    ensures draws(next).token.Some? ==> IsToken(draws(next).token.value) && draws(next).token.value !in issued
  {
  }

  ghost predicate Extends(issued: Table, issued': Table) {
    forall token :: token in issued ==> token in issued' && issued'[token] == issued[token]
  }

  lemma ExtendsSelf(a: Table)
    ensures Extends(a, a)
  {
  }

  lemma ExtendsOn(a: Table, b: Table, c: Table)
    requires Extends(a, b) && Extends(b, c)
    ensures Extends(a, c)
  {
  }

  ghost predicate AreTokens(issued: Table) {
    forall token :: token in issued ==> IsToken(token)
  }

  /** Of the plans committed so far, only the current one may still live. */
  ghost predicate AreSuperseded(committed: map<nat, int>, current: Option<nat>, ended: set<nat>, next: nat) {
    && (current.Some? ==> current.value in committed)
    && (forall lifetime :: lifetime in committed ==>
         lifetime < next && (current == Some(lifetime) || lifetime in ended))
    && (forall lifetime :: lifetime in ended ==> lifetime < next)
  }

  /** Every session issued belongs to a committed plan and ends no later than that plan. */
  ghost predicate AreWithinPlans(issued: Table, committed: map<nat, int>) {
    forall token :: token in issued ==>
      issued[token].lifetime in committed && issued[token].expiresAt <= committed[issued[token].lifetime]
  }

  ghost predicate AreOfPlan(sessions: Table, current: Option<nat>) {
    forall token :: token in sessions ==> current == Some(sessions[token].lifetime)
  }

  lemma FewerSessions(after: Table, before: Table, issued: Table, current: Option<nat>)
    requires OnlyFrom(after, before) && OnlyFrom(before, issued)
    ensures OnlyFrom(after, issued) && (AreOfPlan(before, current) ==> AreOfPlan(after, current))
  {
  }

  lemma OneMoreSession(sessions: Table, issued: Table, token: string, session: Session)
    requires OnlyFrom(sessions, issued) && token !in issued && AreTokens(issued) && IsToken(token)
    ensures OnlyFrom(sessions[token := session], issued[token := session]) && AreTokens(issued[token := session])
  {
    hide IsToken;
  }

  lemma KeptBy(before: Table, after: Table, ended: set<nat>, now: int, limit: nat)
    requires IsPruned(before, after, ended, now, limit)
    ensures OnlyFrom(after, before)
  {
  }

  lemma NoEmptyToken(sessions: Table, issued: Table)
    requires OnlyFrom(sessions, issued) && AreTokens(issued)
    ensures "" !in sessions
  {
    assert !IsToken("");
  }

  lemma InsertedSize(
    before: Table, after: Table, ended: set<nat>, now: int, limit: nat, token: string, session: Session)
    requires IsInserted(before, after, ended, now, limit, token, session) && limit > 0
    ensures |after| <= limit
  {
    InsertionFits(before, after, ended, now, limit, token, session);
  }

  lemma OfCurrentPlan(sessions: Table, issued: Table, current: Option<nat>, committed: map<nat, int>, token: string)
    requires OnlyFrom(sessions, issued) && AreOfPlan(sessions, current) && AreWithinPlans(issued, committed)
    requires token in sessions
    ensures token in issued && SameSession(sessions[token], issued[token]) && current == Some(sessions[token].lifetime)
    ensures sessions[token].lifetime in committed && sessions[token].expiresAt <= committed[sessions[token].lifetime]
  {
  }

  lemma EndingKeeps(
    committed: map<nat, int>, current: Option<nat>, ended: set<nat>, ended': set<nat>, next: nat, lifetime: nat)
    requires AreSuperseded(committed, current, ended, next) && lifetime in committed
    requires ended <= ended' <= ended + {lifetime}
    ensures AreSuperseded(committed, current, ended', next)
  {
  }

  lemma FailedIsSuperseded(
    committed: map<nat, int>, current: Option<nat>, ended: set<nat>, ended': set<nat>, lifetime: nat)
    requires AreSuperseded(committed, current, ended, lifetime) && ended <= ended' <= ended + {lifetime}
    ensures AreSuperseded(committed, current, ended', lifetime + 1)
  {
  }

  lemma NewLifetime(committed: map<nat, int>, current: Option<nat>, ended: set<nat>, next: nat)
    requires AreSuperseded(committed, current, ended, next)
    ensures next !in ended && next !in committed
  {
  }

  /** A session inserted under a committed lifetime that had not ended belongs to the current plan, as all others do. */
  lemma StaysValid(
    before: Table, after: Table, ended: set<nat>, ended': set<nat>, now: int, limit: nat, token: string,
    session: Session, issued: Table, committed: map<nat, int>, current: Option<nat>, next: nat)
    requires IsInserted(before, after, ended', now, limit, token, session) && limit > 0
    requires session.lifetime in committed && session.lifetime !in ended
    requires session.expiresAt <= committed[session.lifetime]
    requires AreSuperseded(committed, current, ended, next) && AreWithinPlans(issued, committed)
    requires AreOfPlan(before, current)
    requires token !in issued && ended <= ended' <= ended + {session.lifetime}
    ensures AreSuperseded(committed, current, ended', next) && AreWithinPlans(issued[token := session], committed)
    ensures AreOfPlan(after, current)
    ensures Extends(issued, issued[token := session])
  {
    hide IsPruned, AreOfPlan;
    var pruned :| IsPruned(before, pruned, ended', now, limit) && after == pruned[token := session];
    KeptBy(before, pruned, ended', now, limit);
    OneMoreOfPlan(before, pruned, token, session, current);
  }

  lemma OneMoreOfPlan(before: Table, pruned: Table, token: string, session: Session, current: Option<nat>)
    requires OnlyFrom(pruned, before) && AreOfPlan(before, current) && current == Some(session.lifetime)
    ensures AreOfPlan(pruned[token := session], current)
  {
  }

  // ---------------------------------------------------------------- nothing is lost while there is room

  /** The table and the history of a proxy at some moment. */
  datatype Moment = Moment(sessions: Table, issued: Table)

  /**
  Between two moments no session is lost: what was in the table, or was issued in between, is in it now, unless it
  has expired or its plan has ended.
  */
  ghost predicate NoneLost(a: Moment, b: Moment, ended: set<nat>, clock: int) {
    forall token :: token in b.issued && (token in a.sessions || token !in a.issued) ==>
      token in b.sessions || b.issued[token].expiresAt <= clock || b.issued[token].lifetime in ended
  }

  /** With room for `count` further sessions, none is lost. */
  ghost predicate KeepsRoom(a: Moment, b: Moment, ended: set<nat>, clock: int, count: nat, limit: nat) {
    |a.sessions| + count <= limit ==> |b.sessions| <= |a.sessions| + count && NoneLost(a, b, ended, clock)
  }

  lemma RoomForNone(a: Moment, ended: set<nat>, clock: int, limit: nat)
    ensures KeepsRoom(a, a, ended, clock, 0, limit)
  {
  }

  lemma RoomLater(
    a: Moment, b: Moment, ended: set<nat>, ended': set<nat>, clock: int, clock': int, count: nat, limit: nat)
    requires KeepsRoom(a, b, ended, clock, count, limit) && ended <= ended' && clock <= clock'
    ensures KeepsRoom(a, b, ended', clock', count, limit)
  {
  }

  lemma RoomChain(
    a: Moment, b: Moment, c: Moment, ended: set<nat>, ended': set<nat>, clock: int, clock': int, first: nat,
    second: nat, limit: nat)
    requires KeepsRoom(a, b, ended, clock, first, limit) && KeepsRoom(b, c, ended', clock', second, limit)
    requires ended <= ended' && clock <= clock' && Extends(a.issued, b.issued) && Extends(b.issued, c.issued)
    requires OnlyFrom(a.sessions, a.issued)
    ensures KeepsRoom(a, c, ended', clock', first + second, limit)
  {
    if |a.sessions| + first + second <= limit {
      forall token | token in c.issued && (token in a.sessions || token !in a.issued)
        ensures token in c.sessions || c.issued[token].expiresAt <= clock' || c.issued[token].lifetime in ended'
      {
        assert token in a.sessions ==> token in a.issued;
        assert token in b.issued ==> c.issued[token] == b.issued[token];
      }
    }
  }

  /** An insertion with room gives up only what has expired or ended. */
  lemma RoomForOne(
    before: Table, after: Table, issued: Table, ended: set<nat>, now: int, limit: nat, token: string,
    session: Session)
    requires IsInserted(before, after, ended, now, limit, token, session) && OnlyFrom(before, issued)
    requires token !in issued
    ensures KeepsRoom(Moment(before, issued), Moment(after, issued[token := session]), ended, now, 1, limit)
  {
    hide IsPruned, Live, OnlyFrom;
    var pruned :| IsPruned(before, pruned, ended, now, limit) && after == pruned[token := session];
    assert after.Keys == pruned.Keys + {token};
    KeysSize(after);
    KeysSize(pruned);
    if |before| + 1 <= limit {
      PrunedIsLive(before, pruned, ended, now, limit);
      forall other | other in before && other !in pruned
        ensures other in issued && (issued[other].expiresAt <= now || issued[other].lifetime in ended)
      {
        NotLive(before, issued, ended, now, other);
      }
    }
  }

  lemma NotLive(before: Table, issued: Table, ended: set<nat>, now: int, token: string)
    requires OnlyFrom(before, issued) && token in before && token !in Live(before, ended, now)
    ensures token in issued && (issued[token].expiresAt <= now || issued[token].lifetime in ended)
  {
    assert SameSession(before[token], issued[token]);
  }

  lemma PrunedIsLive(before: Table, after: Table, ended: set<nat>, now: int, limit: nat)
    requires IsPruned(before, after, ended, now, limit) && |before| < limit
    ensures after.Keys == Live(before, ended, now).Keys && |after| <= |before|
  {
    var live := Live(before, ended, now);
    KeysSize(live);
    KeysSize(before);
    KeysSize(after);
    SubsetSize(live.Keys, before.Keys);
    SubsetSize(after.Keys, live.Keys);
  }

  /** What was not lost is found by any later lookup, until it expires or its plan ends. */
  lemma NotLostIsFound(
    a: Moment, b: Moment, ended: set<nat>, clock: int, count: nat, limit: nat, token: string, now: int)
    requires KeepsRoom(a, b, ended, clock, count, limit) && |a.sessions| + count <= limit
    requires OnlyFrom(b.sessions, b.issued)
    requires token in b.issued && (token in a.sessions || token !in a.issued)
    requires clock <= now < b.issued[token].expiresAt && b.issued[token].lifetime !in ended
    ensures IsFound(b.sessions, ended, now, token) && SameSession(b.sessions[token], b.issued[token])
  {
  }
}
