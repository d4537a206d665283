/**
What the media proxy gets done in every interleaving (internal/playback/media_proxy.go): from every state it can reach,
a new plan can be staged and committed whole, and what a lookup finds can be rewritten.
*/
module ProxyProgress {
  import opened Wrappers
  import opened Sequences
  import opened ProxySessions
  import opened ProxyTokens
  import opened MediaProxyProtocol

  /** These events lead from one state to another. */
  ghost predicate Leads(s: State, events: seq<Event>, s': State, limit: nat)
    decreases |events|
  {
    if events == [] then s' == s
    else exists between :: Next(s, events[0], between, limit) && Leads(between, events[1..], s', limit)
  }

  lemma LeadsOn(s: State, event: Event, between: State, events: seq<Event>, s': State, limit: nat)
    requires Next(s, event, between, limit) && Leads(between, events, s', limit)
    ensures Leads(s, [event] + events, s', limit)
  {
    hide Next;
    assert ([event] + events)[1..] == events;
  }

  lemma LeadsNowhere(s: State, limit: nat)
    ensures Leads(s, [], s, limit)
  {
  }

  /** The sessions of a new plan from number n on: new tokens, one lifetime, none expired. */
  ghost predicate ArePlanned(
    s: State, lifetime: nat, expiry: int, tokens: seq<string>, sessions: seq<Session>, n: nat) {
    && |tokens| == |sessions|
    && (forall i :: n <= i < |tokens| ==> tokens[i] !in s.issued)
    && (forall i, j :: n <= i < j < |tokens| ==> tokens[i] != tokens[j])
    && (forall i :: n <= i < |sessions| ==>
         sessions[i].lifetime == lifetime && s.clock < sessions[i].expiresAt <= expiry)
  }

  /** What is staged so far was issued, and is alive. */
  ghost predicate IsAlive(s: State, table: Table) {
    forall token :: token in table ==>
      token in s.issued && s.clock < table[token].expiresAt && table[token].lifetime !in s.ended
  }

  /** With room and nothing dead in the table, an insertion adds one session. */
  lemma InsertsWithRoom(table: Table, ended: set<nat>, now: int, limit: nat, token: string, session: Session)
    requires |table| < limit
    requires forall other :: other in table ==> now < table[other].expiresAt && table[other].lifetime !in ended
    ensures IsInserted(table, table[token := session], ended, now, limit, token, session)
  {
    assert Live(table, ended, now) == table;
    assert IsPruned(table, table, ended, now, limit);
  }

  lemma OneLarger(table: Table, token: string, session: Session)
    requires token !in table
    ensures |table[token := session]| == |table| + 1
  {
    KeysSize(table[token := session]);
    KeysSize(table);
    assert table[token := session].Keys == table.Keys + {token};
  }

  lemma StagesOne(s: State, lifetime: nat, token: string, session: Session, limit: nat) returns (s': State)
    requires lifetime in s.staged && lifetime !in s.ended && |s.staged[lifetime].table| < limit
    requires IsAlive(s, s.staged[lifetime].table) && token !in s.issued
    requires session.lifetime == lifetime && s.clock < session.expiresAt <= s.staged[lifetime].expiry
    ensures Next(s, StageStream(lifetime, token, session, s.clock, false), s', limit)
    ensures var staged := s.staged[lifetime].(table := s.staged[lifetime].table[token := session]);
            && s' == s.(staged := s.staged[lifetime := staged], issued := s.issued[token := lifetime])
            && IsAlive(s', staged.table) && |staged.table| == |s.staged[lifetime].table| + 1
  {
    var table := s.staged[lifetime].table;
    InsertsWithRoom(table, s.ended, s.clock, limit, token, session);
    OneLarger(table, token, session);
    s' := s.(staged := s.staged[lifetime := s.staged[lifetime].(table := table[token := session])],
             issued := s.issued[token := lifetime]);
    StaysAlive(s, s', table, token, session);
    hide IsInserted, IsAlive;
  }

  lemma StaysAlive(s: State, s': State, table: Table, token: string, session: Session)
    requires IsAlive(s, table) && s.clock < session.expiresAt && session.lifetime !in s.ended
    requires s'.issued == s.issued[token := session.lifetime] && s'.clock == s.clock && s'.ended == s.ended
    ensures IsAlive(s', table[token := session])
  {
  }

  /** The table holds what was staged before, and the sessions from number n on. */
  ghost predicate HoldsRest(table: Table, before: Table, tokens: seq<string>, sessions: seq<Session>, n: nat)
    requires n <= |tokens| == |sessions|
  {
    && |table| == |before| + |tokens| - n
    && (forall token :: token in before ==> token in table && table[token] == before[token])
    && (forall i :: n <= i < |tokens| ==> tokens[i] in table && table[tokens[i]] == sessions[i])
  }

  lemma HoldsOneMore(
    table: Table, between: Table, before: Table, tokens: seq<string>, sessions: seq<Session>, n: nat)
    requires n < |tokens| == |sessions| && tokens[n] !in before && between == before[tokens[n] := sessions[n]]
    requires |between| == |before| + 1 && HoldsRest(table, between, tokens, sessions, n + 1)
    ensures HoldsRest(table, before, tokens, sessions, n)
  {
    assert tokens[n] in between && between[tokens[n]] == sessions[n];
    forall token | token in before ensures token in table && table[token] == before[token] {
      assert token in between && between[token] == before[token];
    }
  }

  /** Stream by stream all of a plan is staged, and committed. */
  lemma {:induction false} StagesRest(
    s: State, lifetime: nat, expiry: int, tokens: seq<string>, sessions: seq<Session>, n: nat, limit: nat)
    returns (events: seq<Event>, s': State)
    requires ArePlanned(s, lifetime, expiry, tokens, sessions, n) && n <= |tokens| == |sessions|
    requires lifetime in s.staged && s.staged[lifetime].expiry == expiry && lifetime !in s.ended
    requires IsAlive(s, s.staged[lifetime].table) && |s.staged[lifetime].table| + |tokens| - n <= limit
    ensures Leads(s, events, s', limit)
    ensures s'.current == Some(lifetime) && s'.ended == WithoutCurrent(s) && s'.clock == s.clock
    ensures HoldsRest(s'.sessions, s.staged[lifetime].table, tokens, sessions, n)
    decreases |tokens| - n
  {
    hide Next, HoldsRest, IsAlive, Leads;
    if n == |tokens| {
      s' := Committed(s, lifetime, limit);
      LeadsNowhere(s', limit);
      LeadsOn(s, CommitWrap(lifetime), s', [], s', limit);
      NothingMore(s'.sessions, tokens, sessions);
      return [CommitWrap(lifetime)] + [], s';
    }
    NewToStaged(s, s.staged[lifetime].table, tokens[n]);
    var between := StagesOne(s, lifetime, tokens[n], sessions[n], limit);
    var rest;
    rest, s' := StagesRest(between, lifetime, expiry, tokens, sessions, n + 1, limit);
    var event := StageStream(lifetime, tokens[n], sessions[n], s.clock, false);
    LeadsOn(s, event, between, rest, s', limit);
    HoldsOneMore(s'.sessions, between.staged[lifetime].table, s.staged[lifetime].table, tokens, sessions, n);
    return [event] + rest, s';
  }

  lemma NewToStaged(s: State, table: Table, token: string)
    requires IsAlive(s, table) && token !in s.issued
    ensures token !in table
  {
  }

  lemma NothingMore(table: Table, tokens: seq<string>, sessions: seq<Session>)
    requires |tokens| == |sessions|
    ensures HoldsRest(table, table, tokens, sessions, |tokens|)
  {
  }

  lemma Committed(s: State, lifetime: nat, limit: nat) returns (s': State)
    requires lifetime in s.staged
    ensures Next(s, CommitWrap(lifetime), s', limit)
    ensures s'.current == Some(lifetime) && s'.sessions == s.staged[lifetime].table && s'.clock == s.clock
    ensures s'.ended == WithoutCurrent(s)
  {
    s' := s.(sessions := s.staged[lifetime].table, current := Some(lifetime), ended := WithoutCurrent(s),
             staged := s.staged - {lifetime}, committed := s.committed[lifetime := s.staged[lifetime].expiry]);
  }

  /**
  From every state that can be reached, a plan within the limit can be wrapped: it is current, the one before has ended,
  and each of its tokens is looked up with success, whatever was staged, served or rewritten before.
  */
  lemma PlanCanBeWrapped(
    states: seq<State>, before: seq<Event>, tokens: seq<string>, sessions: seq<Session>, expiry: int, limit: nat)
    returns (events: seq<Event>, s': State)
    requires IsRun(states, before, limit) && limit > 0 && |tokens| <= limit
    requires var s := states[|before|]; ArePlanned(s, s.next, expiry, tokens, sessions, 0)
    ensures Leads(states[|before|], events, s', limit) && s'.current == Some(states[|before|].next)
    ensures |s'.sessions| == |tokens|
    ensures forall i :: 0 <= i < |tokens| ==>
              && tokens[i] in s'.sessions && s'.sessions[tokens[i]] == sessions[i]
              && s'.clock < sessions[i].expiresAt && sessions[i].lifetime !in s'.ended
    ensures var s := states[|before|]; s.current.Some? ==> s.current.value in s'.ended
  {
    var s := states[|before|];
    RunKeepsInv(states, before, limit, |before|);
    NewIsAlive(s, limit);
    var begun := s.(next := s.next + 1, staged := s.staged[s.next := Staged(map[], expiry)]);
    assert Next(s, BeginWrap(expiry), begun, limit);
    hide Next, Leads, IsRun, Inv;
    var rest;
    rest, s' := StagesRest(begun, s.next, expiry, tokens, sessions, 0, limit);
    LeadsOn(s, BeginWrap(expiry), begun, rest, s', limit);
    return [BeginWrap(expiry)] + rest, s';
  }

  lemma NewIsAlive(s: State, limit: nat)
    requires Inv(s, limit)
    ensures s.next !in s.ended && s.current != Some(s.next)
  {
    hide IsTableOf;
  }

  /** What a lookup finds can be rewritten while there is room: a reference gets a session of the same lifetime. */
  lemma FoundCanBeRewritten(s: State, token: string, request: nat, added: string, session: Session, limit: nat)
    returns (s': State)
    requires token in s.sessions && s.clock < s.sessions[token].expiresAt && s.sessions[token].lifetime !in s.ended
    requires forall other :: other in s.sessions ==>
               s.clock < s.sessions[other].expiresAt && s.sessions[other].lifetime !in s.ended
    requires added !in s.issued && added !in s.sessions && |s.sessions| < limit
    requires session.lifetime == s.sessions[token].lifetime && session.expiresAt <= s.sessions[token].expiresAt
    ensures Leads(
              s, [Lookup(token, request, s.clock)] + ([RewriteReference(request, added, session, s.clock, false)] + []),
              s', limit)
    ensures s'.sessions.Keys == s.sessions.Keys + {added} && s'.sessions[added] == session
  {
    var looked := LooksUp(s, token, request, limit);
    KeysSize(looked.sessions);
    KeysSize(s.sessions);
    s' := RewritesOne(looked, request, added, session, limit);
    hide Next;
    LeadsNowhere(s', limit);
    LeadsOn(looked, RewriteReference(request, added, session, s.clock, false), s', [], s', limit);
    LeadsOn(s, Lookup(token, request, s.clock), looked,
            [RewriteReference(request, added, session, s.clock, false)] + [], s', limit);
  }

  lemma LooksUp(s: State, token: string, request: nat, limit: nat) returns (s': State)
    requires token in s.sessions && s.clock < s.sessions[token].expiresAt && s.sessions[token].lifetime !in s.ended
    ensures Next(s, Lookup(token, request, s.clock), s', limit)
    ensures s'.sessions == s.sessions[token := s.sessions[token].(lastUsed := s.clock)]
    ensures s' == s.(sessions := s'.sessions, requests := s.requests[request := s.sessions[token]])
  {
    assert IsFound(s.sessions, s.ended, s.clock, token);
    s' := s.(sessions := s.sessions[token := s.sessions[token].(lastUsed := s.clock)],
             requests := s.requests[request := s.sessions[token]]);
  }

  lemma RewritesOne(s: State, request: nat, added: string, session: Session, limit: nat) returns (s': State)
    requires forall other :: other in s.sessions ==>
               s.clock < s.sessions[other].expiresAt && s.sessions[other].lifetime !in s.ended
    requires added !in s.issued && |s.sessions| < limit && request in s.requests
    requires s.requests[request].lifetime !in s.ended && session.lifetime == s.requests[request].lifetime
    requires session.expiresAt <= s.requests[request].expiresAt
    ensures Next(s, RewriteReference(request, added, session, s.clock, false), s', limit)
    ensures s'.sessions == s.sessions[added := session]
  {
    InsertsWithRoom(s.sessions, s.ended, s.clock, limit, added, session);
    hide IsInserted;
    assert Ended(s, session.lifetime, false) == s.ended;
    s' := s.(sessions := s.sessions[added := session], issued := s.issued[added := session.lifetime]);
  }
}
