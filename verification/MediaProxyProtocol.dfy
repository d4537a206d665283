/**
Every interleaving of the media proxy's sections (internal/playback/media_proxy.go): plans staged off the lock and
committed, revocations, lookups, and playlist rewrites that go on while the plan they belong to is replaced.
*/
module MediaProxyProtocol {
  import opened Wrappers
  import opened ProxySessions
  import opened ProxyTokens

  datatype Staged = Staged(table: Table, expiry: int)

  /**
  The proxy with all calls in flight: `staged` by lifetime, `requests` by the number of an HTTP request, each with
  the copy of the session it looked up. `issued` (tokens drawn, with their lifetime) and `committed` are history.
  */
  datatype State = State(
    sessions: Table, current: Option<nat>, ended: set<nat>, next: nat, clock: int,
    staged: map<nat, Staged>, requests: map<nat, Session>, issued: map<string, nat>, committed: map<nat, int>)

  datatype Event =
    | Tick(now: int)
    | Timeout(lifetime: nat)
    | BeginWrap(expiry: int)
    | StageStream(lifetime: nat, token: string, session: Session, now: int, late: bool)
    | AbortWrap(lifetime: nat)
    | CommitWrap(lifetime: nat)
    | Revoke
    | Lookup(token: string, request: nat, now: int)
    | Observe(token: string)
    | RewriteReference(request: nat, token: string, session: Session, now: int, late: bool)
    | EndRequest(request: nat)

  predicate Init(s: State) {
    && s.sessions == map[] && s.current == None && s.ended == {} && s.next == 0
    && s.staged == map[] && s.requests == map[] && s.issued == map[] && s.committed == map[]
  }

  function Ended(s: State, lifetime: nat, late: bool): set<nat> {
    if late then s.ended + {lifetime} else s.ended
  }

  function WithoutCurrent(s: State): set<nat> {
    if s.current.Some? then s.ended + {s.current.value} else s.ended
  }

  /**
  One section under the mutex, or one step of the world. A timer may end any lifetime at any moment, also
  between the check and the pruning of one section (`late`); `now` was read before the section and may be old.
  */
  ghost predicate Next(s: State, event: Event, s': State, limit: nat) {
    match event
    case Tick(now) => s.clock <= now && s' == s.(clock := now)
    case Timeout(lifetime) => lifetime < s.next && s' == s.(ended := s.ended + {lifetime})
    case BeginWrap(expiry) => s' == s.(next := s.next + 1, staged := s.staged[s.next := Staged(map[], expiry)])
    case StageStream(lifetime, token, session, now, late) =>
      && lifetime in s.staged && lifetime !in s.ended && token !in s.issued && now <= s.clock
      && session.lifetime == lifetime && session.expiresAt <= s.staged[lifetime].expiry
      && (exists table :: IsInserted(s.staged[lifetime].table, table, Ended(s, lifetime, late), now, limit, token,
         session)
            && s' == s.(staged := s.staged[lifetime := s.staged[lifetime].(table := table)],
                        issued := s.issued[token := lifetime], ended := Ended(s, lifetime, late)))
    case AbortWrap(lifetime) => lifetime in s.staged
      && s' == s.(staged := s.staged - {lifetime}, ended := s.ended + {lifetime})
    case CommitWrap(lifetime) =>
      && lifetime in s.staged
      && s' == s.(sessions := s.staged[lifetime].table, current := Some(lifetime), ended := WithoutCurrent(s),
                  staged := s.staged - {lifetime}, committed := s.committed[lifetime := s.staged[lifetime].expiry])
    case Revoke => s' == s.(sessions := map[], current := None, ended := WithoutCurrent(s))
    case Lookup(token, request, now) =>
      && now <= s.clock
      && s' == s.(sessions := LookedUp(s.sessions, s.ended, now, token),
                  requests := if IsFound(s.sessions, s.ended, now, token) then s.requests[request := s.sessions[token]]
                    else s.requests)
    case Observe(token) => s' == s.(sessions := Observed(s.sessions, s.ended, token))
    case RewriteReference(request, token, session, now, late) =>
      && request in s.requests && s.requests[request].lifetime !in s.ended && token !in s.issued && now <= s.clock
      && session.lifetime == s.requests[request].lifetime && session.expiresAt <= s.requests[request].expiresAt
      && (exists table :: IsInserted(s.sessions, table, Ended(s, session.lifetime, late), now, limit, token, session)
            && s' == s.(sessions := table, issued := s.issued[token := session.lifetime],
               ended := Ended(s, session.lifetime, late)))
    case EndRequest(request) => s' == s.(requests := s.requests - {request})
  }

  /** The sessions of a table belong to one lifetime, end by its expiry, and are recorded as issued for it. */
  ghost predicate IsTableOf(table: Table, lifetime: nat, expiry: int, issued: map<string, nat>, limit: nat) {
    && |table| <= limit
    && forall token :: token in table ==>
         table[token].lifetime == lifetime && table[token].expiresAt <= expiry && token in issued
           && issued[token] == lifetime
  }

  ghost predicate TableIsCurrent(s: State, limit: nat) {
    && (s.current.None? ==> s.sessions == map[])
    && (s.current.Some? ==>
          s.current.value in s.committed
            && IsTableOf(s.sessions, s.current.value, s.committed[s.current.value], s.issued, limit))
  }

  ghost predicate PlansAreSuperseded(s: State) {
    && AreSuperseded(s.committed, s.current, s.ended, s.next)
    && (forall lifetime :: lifetime in s.staged ==> lifetime < s.next && lifetime !in s.committed)
  }

  ghost predicate StagedAreTables(s: State, limit: nat) {
    forall lifetime :: lifetime in s.staged ==>
      IsTableOf(s.staged[lifetime].table, lifetime, s.staged[lifetime].expiry, s.issued, limit)
  }

  /** What a request looked up belonged to a committed plan. */
  ghost predicate RequestsAreCommitted(s: State) {
    forall request :: request in s.requests ==>
      && s.requests[request].lifetime in s.committed
      && s.requests[request].expiresAt <= s.committed[s.requests[request].lifetime]
  }

  ghost predicate Inv(s: State, limit: nat) {
    TableIsCurrent(s, limit) && PlansAreSuperseded(s) && StagedAreTables(s, limit) && RequestsAreCommitted(s)
  }

  lemma InitInv(s: State, limit: nat)
    requires Init(s)
    ensures Inv(s, limit)
  {
  }

  /** Inserting a session of the table's own lifetime keeps the table one of that lifetime. */
  lemma InsertKeepsTable(
    before: Table, after: Table, lifetime: nat, expiry: int, issued: map<string, nat>, limit: nat, ended: set<nat>,
    now: int, token: string, session: Session)
    requires IsTableOf(before, lifetime, expiry, issued, limit) && limit > 0 && token !in issued
    requires session.lifetime == lifetime && session.expiresAt <= expiry
    requires IsInserted(before, after, ended, now, limit, token, session)
    ensures IsTableOf(after, lifetime, expiry, issued[token := lifetime], limit)
  {
    hide IsInserted;
    InsertionFits(before, after, ended, now, limit, token, session);
  }

  /** A new token changes nothing for other tables. */
  lemma IssuingKeepsTable(
    table: Table, lifetime: nat, expiry: int, issued: map<string, nat>, limit: nat, token: string, owner: nat)
    requires IsTableOf(table, lifetime, expiry, issued, limit) && token !in issued
    ensures IsTableOf(table, lifetime, expiry, issued[token := owner], limit)
  {
  }

  lemma MarkingKeepsTable(before: Table, after: Table, lifetime: nat, expiry: int, issued: map<string, nat>, limit: nat)
    requires IsTableOf(before, lifetime, expiry, issued, limit) && OnlyFrom(after, before) && |after| <= |before|
    ensures IsTableOf(after, lifetime, expiry, issued, limit)
  {
  }

  lemma StageKeepsInv(s: State, event: Event, s': State, limit: nat)
    requires Inv(s, limit) && limit > 0 && event.StageStream? && Next(s, event, s', limit)
    ensures Inv(s', limit)
  {
    hide IsTableOf, IsInserted;
    var l, token := event.lifetime, event.token;
    var table :| IsInserted(s.staged[l].table, table, s'.ended, event.now, limit, token, event.session)
      && s'.staged[l].table == table;
    InsertKeepsTable(s.staged[l].table, table, l, s.staged[l].expiry, s.issued, limit, s'.ended, event.now, token,
      event.session);
    forall other | other in s'.staged
      ensures IsTableOf(s'.staged[other].table, other, s'.staged[other].expiry, s'.issued, limit) {
      if other != l {
        IssuingKeepsTable(s.staged[other].table, other, s.staged[other].expiry, s.issued, limit, token, l);
      }
    }
    if s.current.Some? {
      IssuingKeepsTable(s.sessions, s.current.value, s.committed[s.current.value], s.issued, limit, token, l);
    }
  }

  lemma RewriteKeepsInv(s: State, event: Event, s': State, limit: nat)
    requires Inv(s, limit) && limit > 0 && event.RewriteReference? && Next(s, event, s', limit)
    ensures Inv(s', limit)
  {
    hide IsTableOf, IsInserted;
    var l, token := event.session.lifetime, event.token;
    assert s.current == Some(l);
    InsertKeepsTable(s.sessions, s'.sessions, l, s.committed[l], s.issued, limit, s'.ended, event.now, token,
      event.session);
    forall other | other in s'.staged
      ensures IsTableOf(s'.staged[other].table, other, s'.staged[other].expiry, s'.issued, limit) {
      IssuingKeepsTable(s.staged[other].table, other, s.staged[other].expiry, s.issued, limit, token, l);
    }
  }

  lemma BeginKeepsInv(s: State, event: Event, s': State, limit: nat)
    requires Inv(s, limit) && event.BeginWrap? && Next(s, event, s', limit)
    ensures Inv(s', limit)
  {
    hide IsTableOf;
    EmptyTable(s.next, event.expiry, s.issued, limit);
  }

  lemma EmptyTable(lifetime: nat, expiry: int, issued: map<string, nat>, limit: nat)
    ensures IsTableOf(map[], lifetime, expiry, issued, limit)
  {
  }

  lemma CommitKeepsInv(s: State, event: Event, s': State, limit: nat)
    requires Inv(s, limit) && event.CommitWrap? && Next(s, event, s', limit)
    ensures Inv(s', limit)
  {
    hide IsTableOf;
    var l := event.lifetime;
    assert s'.sessions == s.staged[l].table && s'.committed[l] == s.staged[l].expiry;
    assert forall other :: other in s'.staged ==> other in s.staged && s'.staged[other] == s.staged[other];
    assert forall other :: other in s.committed ==> other in s'.committed && s'.committed[other] == s.committed[other];
  }

  lemma DropKeepsInv(s: State, event: Event, s': State, limit: nat)
    requires Inv(s, limit) && (event.Revoke? || event.AbortWrap?) && Next(s, event, s', limit)
    ensures Inv(s', limit)
  {
    hide IsTableOf;
    assert forall other :: other in s'.staged ==> other in s.staged && s'.staged[other] == s.staged[other];
  }

  lemma LookupKeepsInv(s: State, event: Event, s': State, limit: nat)
    requires Inv(s, limit) && (event.Lookup? || event.Observe?) && Next(s, event, s', limit)
    ensures Inv(s', limit)
  {
    hide IsTableOf, LookedUp, Observed, OnlyFrom, IsFound;
    LookupKeeps(s.sessions, s.ended, if event.Lookup? then event.now else 0, event.token);
    if s.current.Some? {
      MarkingKeepsTable(s.sessions, s'.sessions, s.current.value, s.committed[s.current.value], s.issued, limit);
    } else {
      OnlyFromNothing(s'.sessions);
    }
    if event.Lookup? {
      FoundIsCommitted(s, limit, event.token, event.now);
    }
  }

  lemma OnlyFromNothing(table: Table)
    ensures OnlyFrom(table, map[]) ==> table == map[]
  {
  }

  lemma FoundIsCommitted(s: State, limit: nat, token: string, now: int)
    requires TableIsCurrent(s, limit)
    ensures IsFound(s.sessions, s.ended, now, token) ==>
              && token in s.sessions && s.sessions[token].lifetime in s.committed
              && s.sessions[token].expiresAt <= s.committed[s.sessions[token].lifetime]
  {
  }

  lemma OtherKeepsInv(s: State, event: Event, s': State, limit: nat)
    requires Inv(s, limit) && (event.Tick? || event.Timeout? || event.EndRequest?) && Next(s, event, s', limit)
    ensures Inv(s', limit)
  {
    hide IsTableOf;
  }

  lemma StepKeepsInv(s: State, event: Event, s': State, limit: nat)
    requires Inv(s, limit) && limit > 0 && Next(s, event, s', limit)
    ensures Inv(s', limit)
  {
    hide Inv, Next;
    match event
    case StageStream(_, _, _, _, _) => StageKeepsInv(s, event, s', limit);
    case RewriteReference(_, _, _, _, _) => RewriteKeepsInv(s, event, s', limit);
    case CommitWrap(_) => CommitKeepsInv(s, event, s', limit);
    case Revoke => DropKeepsInv(s, event, s', limit);
    case AbortWrap(_) => DropKeepsInv(s, event, s', limit);
    case BeginWrap(_) => BeginKeepsInv(s, event, s', limit);
    case Lookup(_, _, _) => LookupKeepsInv(s, event, s', limit);
    case Observe(_) => LookupKeepsInv(s, event, s', limit);
    case _ => OtherKeepsInv(s, event, s', limit);
  }

  /** A run: each state follows from the one before by an event. */
  ghost predicate IsRun(states: seq<State>, events: seq<Event>, limit: nat) {
    && |states| == |events| + 1 && Init(states[0])
    && forall i :: 0 <= i < |events| ==> Next(states[i], events[i], states[i + 1], limit)
  }

  lemma {:induction false} RunKeepsInv(states: seq<State>, events: seq<Event>, limit: nat, n: nat)
    requires IsRun(states, events, limit) && limit > 0 && n < |states|
    ensures Inv(states[n], limit)
  {
    hide Inv, Next;
    if n == 0 {
      InitInv(states[0], limit);
    } else {
      RunKeepsInv(states, events, limit, n - 1);
      StepKeepsInv(states[n - 1], events[n - 1], states[n], limit);
    }
  }

  /**
  In every interleaving, the table holds at most `limit` sessions, all of them carry the lifetime of the plan
  committed last, and none outlives that plan; what a lookup finds is such a session, unexpired.
  */
  lemma SessionsAreOfLastPlan(states: seq<State>, events: seq<Event>, limit: nat, n: nat, token: string, now: int)
    requires IsRun(states, events, limit) && limit > 0 && n < |states|
    ensures |states[n].sessions| <= limit
    ensures var s := states[n];
            token in s.sessions ==>
              && s.current == Some(s.sessions[token].lifetime) && s.current.value in s.committed
              && s.sessions[token].expiresAt <= s.committed[s.current.value]
              && (IsFound(s.sessions, s.ended, now, token) ==> now < s.committed[s.current.value])
  {
    RunKeepsInv(states, events, limit, n);
  }

  /** The plan was committed once and is not the current one. */
  ghost predicate IsRetired(s: State, lifetime: nat) {
    lifetime in s.committed && s.current != Some(lifetime)
  }

  /** A retired plan stays retired: its lifetime was taken off the staged ones when it was committed. */
  lemma StaysRetired(s: State, event: Event, s': State, limit: nat, lifetime: nat)
    requires Inv(s, limit) && Next(s, event, s', limit) && IsRetired(s, lifetime)
    ensures IsRetired(s', lifetime)
  {
    hide IsTableOf, IsInserted, LookedUp, Observed;
  }

  /** A token keeps its owner for good. */
  lemma OwnerStays(s: State, event: Event, s': State, limit: nat, token: string)
    requires Next(s, event, s', limit) && token in s.issued
    ensures token in s'.issued && s'.issued[token] == s.issued[token]
  {
    hide IsInserted, LookedUp, Observed;
  }

  lemma {:induction false} RetiredForGood(
    states: seq<State>, events: seq<Event>, limit: nat, i: nat, j: nat, lifetime: nat, token: string)
    requires IsRun(states, events, limit) && limit > 0 && i <= j < |states|
    requires IsRetired(states[i], lifetime) && token in states[i].issued && states[i].issued[token] == lifetime
    ensures IsRetired(states[j], lifetime) && token in states[j].issued && states[j].issued[token] == lifetime
    decreases j - i
  {
    hide Next, Inv;
    if i < j {
      RunKeepsInv(states, events, limit, i);
      StaysRetired(states[i], events[i], states[i + 1], limit, lifetime);
      OwnerStays(states[i], events[i], states[i + 1], limit, token);
      RetiredForGood(states, events, limit, i + 1, j, lifetime, token);
    }
  }

  /**
  Once another plan is committed, or the plan revoked, no token of an earlier plan is ever in the table again,
  whatever lookups and rewrites of it are still in flight.
  */
  lemma OldTokensNeverReturn(states: seq<State>, events: seq<Event>, limit: nat, i: nat, j: nat, token: string)
    requires IsRun(states, events, limit) && limit > 0 && i < j < |states|
    requires token in states[i].issued && states[i].issued[token] in states[i].committed
    requires events[i].Revoke? || (events[i].CommitWrap? && events[i].lifetime != states[i].issued[token])
    ensures token !in states[j].sessions
  {
    var lifetime := states[i].issued[token];
    assert Next(states[i], events[i], states[i + 1], limit);
    assert IsRetired(states[i + 1], lifetime);
    RetiredForGood(states, events, limit, i + 1, j, lifetime, token);
    RunKeepsInv(states, events, limit, j);
  }

  /** The current plan's lifetime is not staged any more, so it is committed once only. */
  lemma CommittedOnce(states: seq<State>, events: seq<Event>, limit: nat, i: nat)
    requires IsRun(states, events, limit) && limit > 0 && i < |events| && events[i].CommitWrap?
    ensures events[i].lifetime !in states[i].committed && states[i].current != Some(events[i].lifetime)
  {
    RunKeepsInv(states, events, limit, i);
    assert Next(states[i], events[i], states[i + 1], limit);
  }
}
