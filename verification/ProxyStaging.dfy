/**
Wrapping a whole plan (`WrapPlan`, `wrapPlan` and `wrapStream` in internal/playback/media_proxy.go): the resources
of a plan, their common expiry, and the table staged for them.
*/
module ProxyStaging {
  import opened Wrappers
  import opened Text
  import opened Plans
  import opened Sequences
  import opened HlsManifest
  import opened ProxySessions
  import opened ProxyTokens
  import opened ProxyReferences

  /** The streams a plan hands to the proxy, in order: all its streams, then its subtitles with a URL. */
  function Resources(plan: Plan): seq<Stream> {
    Streams(plan) + SubtitleStreams(plan.subtitles)
  }

  function SubtitleStream(subtitle: Subtitle): seq<Stream> {
    if Trim(subtitle.url) == "" then [] else [Stream(subtitle.url, map[])]
  }

  function SubtitleStreams(subtitles: seq<Subtitle>): seq<Stream> {
    FlatMap(SubtitleStream, subtitles)
  }

  /** The URLs counted against the limit: subtitles without a URL count as well. */
  function CountedUrls(plan: Plan): seq<string> {
    Urls(plan) + seq(|plan.subtitles|, i requires 0 <= i < |plan.subtitles| => plan.subtitles[i].url)
  }

  lemma {:induction false} FewerSubtitleStreams(subtitles: seq<Subtitle>)
    ensures |SubtitleStreams(subtitles)| <= |subtitles|
    ensures forall i :: 0 <= i < |SubtitleStreams(subtitles)| ==>
        exists j :: 0 <= j < |subtitles| && SubtitleStreams(subtitles)[i].url == subtitles[j].url
  {
    if subtitles != [] {
      FewerSubtitleStreams(subtitles[..|subtitles| - 1]);
      var front, last := SubtitleStreams(subtitles[..|subtitles| - 1]), SubtitleStream(subtitles[|subtitles| - 1]);
      var all: seq<Stream> := front + last;
      assert SubtitleStreams(subtitles) == all;
      forall i | 0 <= i < |all| ensures exists j :: 0 <= j < |subtitles| && all[i].url == subtitles[j].url {
        if i < |front| {
          var j :| 0 <= j < |subtitles| - 1 && front[i].url == subtitles[..|subtitles| - 1][j].url;
          assert all[i].url == subtitles[j].url;
        } else {
          assert all[i].url == subtitles[|subtitles| - 1].url;
        }
      }
    }
  }

  /** Every resource is among the counted URLs. */
  lemma ResourcesAreCounted(plan: Plan)
    ensures |Resources(plan)| <= |CountedUrls(plan)|
    ensures forall i :: 0 <= i < |Resources(plan)| ==> Resources(plan)[i].url in CountedUrls(plan)
  {
    hide Streams, SubtitleStreams;
    FewerSubtitleStreams(plan.subtitles);
    var n, urls := |Streams(plan)|, CountedUrls(plan);
    forall i | 0 <= i < |Resources(plan)| ensures Resources(plan)[i].url in urls {
      if i < n {
        assert urls[i] == Streams(plan)[i].url;
      } else {
        var j :| 0 <= j < |plan.subtitles| && SubtitleStreams(plan.subtitles)[i - n].url == plan.subtitles[j].url;
        assert urls[n + j] == plan.subtitles[j].url;
      }
    }
  }

  /** When the whole plan ends: after six hours, or with the first of its URLs or the plan itself to expire. */
  function PlanExpiry(plan: Plan, now: int, rules: UrlRules): int {
    EarliestIsLeast(Some(now + DEFAULT_TTL), CountedUrls(plan), rules.expiry);
    Earlier(EarliestExpiry(Some(now + DEFAULT_TTL), CountedUrls(plan), rules.expiry), plan.expiresAt).value
  }

  /** Counted is the URL of every stream and of every subtitle, one by one. */
  lemma CountedAre(plan: Plan, url: string)
    ensures url in CountedUrls(plan) <==>
              || url == plan.primary.url || (plan.audio.Some? && url == plan.audio.value.url)
              || (plan.audioOnly.Some? && url == plan.audioOnly.value.url)
              || (exists i :: 0 <= i < |plan.variants| && url == plan.variants[i].stream.url)
              || (exists i :: 0 <= i < |plan.subtitles| && url == plan.subtitles[i].url)
    ensures |CountedUrls(plan)| == 1 + |plan.variants| + |plan.subtitles|
        + (if plan.audio.Some? then 1 else 0) + (if plan.audioOnly.Some? then 1 else 0)
  {
    var streams := Streams(plan);
    var audio, audioOnly := |Optional(plan.audio)|, |Optional(plan.audioOnly)|;
    assert streams[0] == plan.primary;
    assert plan.audio.Some? ==> streams[1] == plan.audio.value;
    assert plan.audioOnly.Some? ==> streams[1 + audio] == plan.audioOnly.value;
    assert forall i :: 0 <= i < |plan.variants| ==> streams[1 + audio + audioOnly + i] == plan.variants[i].stream;
    assert forall i :: 0 <= i < |Urls(plan)| ==> CountedUrls(plan)[i] == streams[i].url;
    assert forall i :: 0 <= i < |plan.subtitles| ==> CountedUrls(plan)[|Urls(plan)| + i] == plan.subtitles[i].url;
  }

  lemma PlanExpiryIsLeast(plan: Plan, now: int, rules: UrlRules)
    ensures PlanExpiry(plan, now, rules) <= now + DEFAULT_TTL
    ensures || PlanExpiry(plan, now, rules) == now + DEFAULT_TTL
            || Some(PlanExpiry(plan, now, rules)) == plan.expiresAt
            || exists url :: url in CountedUrls(plan) && rules.expiry(url) == Some(PlanExpiry(plan, now, rules))
    ensures plan.expiresAt.Some? ==> PlanExpiry(plan, now, rules) <= plan.expiresAt.value
    ensures forall url :: url in CountedUrls(plan) && rules.expiry(url).Some? ==>
        PlanExpiry(plan, now, rules) <= rules.expiry(url).value
  {
    hide CountedUrls;
    EarliestIsLeast(Some(now + DEFAULT_TTL), CountedUrls(plan), rules.expiry);
  }

  /** A stream behind the proxy: a local URL, and no headers. */
  function LocalStream(stream: Stream, draw: Draw, base: string, rules: UrlRules): Stream
    requires draw.token.Some? && rules.validate(stream.url).Some?
  {
    Stream(LocalUrl(base, draw.token.value, rules.isPlaylist(rules.validate(stream.url).value)), map[])
  }

  /** The wrapped plan differs in its streams and its subtitle URLs only; blank subtitles stay as they are. */
  ghost predicate SameShape(plan: Plan, wrapped: Plan) {
    && wrapped.mode == plan.mode && wrapped.loadTarget == plan.loadTarget && wrapped.title == plan.title
    && wrapped.expiresAt == plan.expiresAt
    && (wrapped.audio.Some? <==> plan.audio.Some?) && (wrapped.audioOnly.Some? <==> plan.audioOnly.Some?)
    && SameVariants(plan.variants, wrapped.variants) && SameSubtitles(plan.subtitles, wrapped.subtitles)
  }

  ghost predicate SameVariants(before: seq<Variant>, after: seq<Variant>) {
    |after| == |before| && forall i :: 0 <= i < |before| ==> after[i].id == before[i].id
  }

  ghost predicate SameSubtitles(before: seq<Subtitle>, after: seq<Subtitle>) {
    && |after| == |before|
    && forall i :: 0 <= i < |before| ==>
         && after[i].language == before[i].language
         && (Trim(before[i].url) == "" ==> after[i] == before[i])
         && (Trim(before[i].url) != "" ==> Trim(after[i].url) != "")
  }

  /** Resource `i` went through draw `i`: it was acceptable, and `locals[i]` is what the player gets for it. */
  ghost predicate AreLocal(
    resources: seq<Stream>, locals: seq<Stream>, draws: nat -> Draw, base: string, rules: UrlRules) {
    && |locals| == |resources|
    && forall i :: 0 <= i < |resources| ==>
         && draws(i).token.Some? && rules.validate(resources[i].url).Some?
         && locals[i] == LocalStream(resources[i], draws(i), base, rules)
  }

  /** The table holds the session of every resource under its token, and nothing else. */
  ghost predicate Holds(
    table: Table, resources: seq<Stream>, draws: nat -> Draw, expiry: int, lifetime: nat, rules: UrlRules) {
    HoldsEach(table, resources, draws, expiry, lifetime, rules) && HoldsOnly(table, |resources|, draws)
  }

  ghost predicate HoldsEach(
    table: Table, resources: seq<Stream>, draws: nat -> Draw, expiry: int, lifetime: nat, rules: UrlRules) {
    forall i :: 0 <= i < |resources| ==>
      && draws(i).token.Some? && draws(i).token.value in table
      && NewSession(resources[i], expiry, draws(i), lifetime, rules) == Some(table[draws(i).token.value])
  }

  ghost predicate HoldsOnly(table: Table, count: nat, draws: nat -> Draw) {
    forall token :: token in table ==> exists i :: 0 <= i < count && draws(i).token == Some(token)
  }

  lemma HoldsMore(
    before: Table, after: Table, resources: seq<Stream>, stream: Stream, draws: nat -> Draw, expiry: int,
    lifetime: nat, rules: UrlRules)
    requires Holds(before, resources, draws, expiry, lifetime, rules)
    requires draws(|resources|).token.Some? && draws(|resources|).token.value !in before
    requires after.Keys == before.Keys + {draws(|resources|).token.value}
    requires forall token :: token in before ==> after[token] == before[token]
    requires NewSession(stream, expiry, draws(|resources|), lifetime, rules)
        == Some(after[draws(|resources|).token.value])
    ensures Holds(after, resources + [stream], draws, expiry, lifetime, rules)
  {
    hide NewSession, HoldsEach, HoldsOnly;
    OnlyMore(before, after, |resources|, draws);
    EachMore(before, after, resources, stream, draws, expiry, lifetime, rules);
  }

  lemma EachMore(
    before: Table, after: Table, resources: seq<Stream>, stream: Stream, draws: nat -> Draw, expiry: int,
    lifetime: nat, rules: UrlRules)
    requires HoldsEach(before, resources, draws, expiry, lifetime, rules)
    requires before.Keys <= after.Keys && forall token :: token in before ==> after[token] == before[token]
    requires draws(|resources|).token.Some? && draws(|resources|).token.value in after
    requires NewSession(stream, expiry, draws(|resources|), lifetime, rules)
        == Some(after[draws(|resources|).token.value])
    ensures HoldsEach(after, resources + [stream], draws, expiry, lifetime, rules)
  {
    hide NewSession;
    var more := resources + [stream];
    assert forall i :: 0 <= i < |resources| ==> more[i] == resources[i];
  }

  lemma OnlyMore(before: Table, after: Table, count: nat, draws: nat -> Draw)
    requires HoldsOnly(before, count, draws)
    requires draws(count).token.Some? && after.Keys == before.Keys + {draws(count).token.value}
    ensures HoldsOnly(after, count + 1, draws)
  {
    forall token | token in after ensures exists i :: 0 <= i < count + 1 && draws(i).token == Some(token) {
      if token in before {
        var i :| 0 <= i < count && draws(i).token == Some(token);
        assert i < count + 1;
      } else {
        assert draws(count).token == Some(token);
      }
    }
  }

  /** What `wrapStream` hands out: a URL and no headers. */
  predicate IsPlayable(stream: Stream) {
    Trim(stream.url) != "" && stream.headers == map[]
  }

  /** What one `WrapPlan` call stages with: the lifetime and expiry it gave the plan, and what its wraps meet. */
  datatype Staging = Staging(lifetime: nat, expiry: int, draws: nat -> Draw)

  /** No session of these streams is cut short by its URL or by the six hours: the plan's expiry is the least. */
  ghost predicate AreBounded(streams: seq<Stream>, staging: Staging, rules: UrlRules) {
    && (forall i :: staging.expiry <= staging.draws(i).now + DEFAULT_TTL)
    && (forall i :: 0 <= i < |streams| && rules.expiry(streams[i].url).Some? ==>
         staging.expiry <= rules.expiry(streams[i].url).value)
  }

  /** Wrap `i` accepts its resource, and the plan has not ended when it begins. */
  predicate IsWrappable(stream: Stream, i: nat, staging: Staging, rules: UrlRules) {
    && NewSession(stream, staging.expiry, staging.draws(i), staging.lifetime, rules).Some?
    && !staging.draws(i).lateBefore
  }

  /** Every resource is accepted, and the plan does not end before the last wrap has passed its check. */
  ghost predicate IsStageable(resources: seq<Stream>, staging: Staging, rules: UrlRules) {
    && (forall i :: 0 <= i < |resources| ==> IsWrappable(resources[i], i, staging, rules))
    && (forall i :: 0 <= i < |resources| - 1 ==> !staging.draws(i).lateDuring)
  }

  /** The plan ends while the last wrap is between its check and its pruning. */
  predicate LastIsLate(resources: seq<Stream>, staging: Staging) {
    resources != [] && staging.draws(|resources| - 1).lateDuring
  }

  lemma StageableFront(resources: seq<Stream>, more: seq<Stream>, staging: Staging, rules: UrlRules)
    requires IsStageable(resources + more, staging, rules)
    ensures IsStageable(resources, staging, rules) && (more != [] ==> !LastIsLate(resources, staging))
  {
    hide IsWrappable;
    assert forall i :: 0 <= i < |resources| ==> (resources + more)[i] == resources[i];
  }

  lemma StageableMore(resources: seq<Stream>, stream: Stream, staging: Staging, rules: UrlRules)
    ensures IsStageable(resources + [stream], staging, rules) <==>
              && IsStageable(resources, staging, rules) && !LastIsLate(resources, staging)
              && IsWrappable(stream, |resources|, staging, rules)
  {
    hide IsWrappable;
    var more := resources + [stream];
    assert forall i :: 0 <= i < |resources| ==> more[i] == resources[i];
    assert more[|resources|] == stream;
    if IsStageable(more, staging, rules) {
      StageableFront(resources, [stream], staging, rules);
    }
  }

  /** What was issued beyond `before` belongs to the staged plan and ends exactly with it. */
  ghost predicate IssuedHere(before: Table, issued: Table, staging: Staging) {
    && Extends(before, issued)
    && forall token :: token in issued && token !in before ==>
         issued[token].lifetime == staging.lifetime && issued[token].expiresAt == staging.expiry
  }

  /** Everything known of a staged table after wrapping `done` into `locals`; `before` was issued already. */
  ghost predicate IsStaging(
    sessions: Table, issued: Table, ended: set<nat>, before: Table, done: seq<Stream>, locals: seq<Stream>,
    staging: Staging, base: string, rules: UrlRules)
  {
    && IsStagedTable(sessions, ended, done, staging, rules) && IssuedHere(before, issued, staging)
    && AreLocal(done, locals, staging.draws, base, rules) && AreFresh(staging.draws, |done|, issued.Keys)
  }

  /**
  The staged table holds the session of every resource wrapped; only when the plan ends during the last wrap, the
  pruning of that wrap takes all others along.
  */
  ghost predicate IsStagedTable(
    sessions: Table, ended: set<nat>, done: seq<Stream>, staging: Staging, rules: UrlRules) {
    && IsStageable(done, staging, rules) && |sessions| <= |done| && EndTogether(sessions, staging)
    && HoldsOnly(sessions, |done|, staging.draws)
    && (staging.lifetime in ended <==> LastIsLate(done, staging))
    && (if LastIsLate(done, staging) then HoldsLast(sessions, done, staging, rules)
        else HoldsEach(sessions, done, staging.draws, staging.expiry, staging.lifetime, rules))
  }

  /** The table holds the session of the last resource and nothing else. */
  ghost predicate HoldsLast(sessions: Table, done: seq<Stream>, staging: Staging, rules: UrlRules)
    requires done != []
  {
    var draw := staging.draws(|done| - 1);
    var session := NewSession(done[|done| - 1], staging.expiry, draw, staging.lifetime, rules);
    draw.token.Some? && session.Some? && sessions == map[draw.token.value := session.value]
  }

  ghost predicate EndTogether(sessions: Table, staging: Staging) {
    forall token :: token in sessions ==>
      sessions[token].lifetime == staging.lifetime && sessions[token].expiresAt == staging.expiry
  }

  lemma NothingStaged(issued: Table, ended: set<nat>, staging: Staging, base: string, rules: UrlRules)
    requires staging.lifetime !in ended && AreFresh(staging.draws, 0, issued.Keys)
    ensures IsStaging(map[], issued, ended, issued, [], [], staging, base, rules)
  {
  }

  /** A bounded session ends exactly when the plan does. */
  lemma EndsWithPlan(stream: Stream, i: nat, streams: seq<Stream>, staging: Staging, rules: UrlRules)
    requires AreBounded(streams, staging, rules) && stream in streams
    ensures SessionExpiry(stream.url, staging.expiry, staging.draws(i).now, rules) == staging.expiry
    ensures var session := NewSession(stream, staging.expiry, staging.draws(i), staging.lifetime, rules);
            session.Some? ==> session.value.expiresAt == staging.expiry
  {
  }

  /** Wrapping one more stream: nothing staged before is given up, unless the plan ends in between. */
  lemma StagesOneMore(
    sessions: Table, sessions': Table, issued: Table, ended: set<nat>, ended': set<nat>, before: Table,
    done: seq<Stream>, locals: seq<Stream>, stream: Stream, staging: Staging, base: string, rules: UrlRules,
    limit: nat)
    requires IsStaging(sessions, issued, ended, before, done, locals, staging, base, rules) && |done| < limit
    requires staging.draws(|done|).token.Some? && rules.validate(stream.url).Some?
    requires staging.lifetime !in ended && (staging.lifetime in ended' <==> staging.draws(|done|).lateDuring)
    requires !staging.draws(|done|).lateBefore
    requires var draw := staging.draws(|done|);
             var session := NewSession(stream, staging.expiry, draw, staging.lifetime, rules);
             && session.Some? && session.value.expiresAt == staging.expiry
             && IsInserted(sessions, sessions', ended', draw.now, limit, draw.token.value, session.value)
    requires OnlyFrom(sessions, issued)
    ensures var draw := staging.draws(|done|);
            var session := NewSession(stream, staging.expiry, draw, staging.lifetime, rules);
            IsStaging(sessions', issued[draw.token.value := session.value], ended', before, done + [stream],
                      locals + [LocalStream(stream, draw, base, rules)], staging, base, rules)
  {
    hide NewSession, IsInserted, AreFresh, AreLocal, IsStagedTable, IssuedHere, OnlyFrom, LocalStream;
    var i := |done|;
    var draw := staging.draws(i);
    var token, session := draw.token.value, NewSession(stream, staging.expiry, draw, staging.lifetime, rules).value;
    FreshNow(staging.draws, i, issued.Keys);
    NotYetIn(sessions, issued, token);
    FreshAfter(staging.draws, i, issued.Keys, issued.Keys + {token});
    assert issued[token := session].Keys == issued.Keys + {token};
    IssuesOneMore(before, issued, token, session, staging);
    LocalsOneMore(done, locals, stream, staging.draws, base, rules);
    TableOneMore(sessions, sessions', ended, ended', limit, done, stream, staging, rules);
  }

  lemma TableOneMore(
    sessions: Table, sessions': Table, ended: set<nat>, ended': set<nat>, limit: nat, done: seq<Stream>,
    stream: Stream, staging: Staging, rules: UrlRules)
    requires IsStagedTable(sessions, ended, done, staging, rules) && |done| < limit
    requires staging.lifetime !in ended && (staging.lifetime in ended' <==> staging.draws(|done|).lateDuring)
    requires !staging.draws(|done|).lateBefore
    requires var draw := staging.draws(|done|);
             var session := NewSession(stream, staging.expiry, draw, staging.lifetime, rules);
             && draw.token.Some? && draw.token.value !in sessions && session.Some?
             && session.value.expiresAt == staging.expiry
             && IsInserted(sessions, sessions', ended', draw.now, limit, draw.token.value, session.value)
    ensures IsStagedTable(sessions', ended', done + [stream], staging, rules)
  {
    hide NewSession, IsInserted, HoldsOnly, HoldsEach, EndTogether, IsStageable;
    var i := |done|;
    var draw := staging.draws(i);
    var token, session := draw.token.value, NewSession(stream, staging.expiry, draw, staging.lifetime, rules).value;
    InsertsOneMore(sessions, sessions', ended', draw.now, limit, token, session, i, staging);
    InsertionFits(sessions, sessions', ended', draw.now, limit, token, session);
    StageableMore(done, stream, staging, rules);
    assert |done + [stream]| - 1 == i && (done + [stream])[i] == stream;
    if staging.lifetime in ended' {
      LateInsertion(sessions, sessions', ended', draw.now, limit, token, session, staging);
    } else {
      KeepsStaged(sessions, sessions', ended', limit, done, stream, staging, rules);
    }
  }

  lemma NotYetIn(sessions: Table, issued: Table, token: string)
    requires OnlyFrom(sessions, issued) && token !in issued
    ensures token !in sessions
  {
  }

  lemma IssuesOneMore(before: Table, issued: Table, token: string, session: Session, staging: Staging)
    requires IssuedHere(before, issued, staging) && token !in issued
    requires session.lifetime == staging.lifetime && session.expiresAt == staging.expiry
    ensures IssuedHere(before, issued[token := session], staging)
  {
  }

  lemma LocalsOneMore(
    done: seq<Stream>, locals: seq<Stream>, stream: Stream, draws: nat -> Draw, base: string, rules: UrlRules)
    requires AreLocal(done, locals, draws, base, rules)
    requires draws(|done|).token.Some? && rules.validate(stream.url).Some?
    ensures AreLocal(done + [stream], locals + [LocalStream(stream, draws(|done|), base, rules)], draws, base, rules)
  {
    hide LocalStream;
  }

  lemma InsertsOneMore(
    sessions: Table, sessions': Table, ended: set<nat>, now: int, limit: nat, token: string, session: Session,
    count: nat, staging: Staging)
    requires IsInserted(sessions, sessions', ended, now, limit, token, session)
    requires HoldsOnly(sessions, count, staging.draws)
    requires staging.draws(count).token == Some(token) && limit > 0 && EndTogether(sessions, staging)
    requires session.lifetime == staging.lifetime && session.expiresAt == staging.expiry
    ensures HoldsOnly(sessions', count + 1, staging.draws) && EndTogether(sessions', staging)
  {
    hide IsInserted;
    var draws := staging.draws;
    InsertionFits(sessions, sessions', ended, now, limit, token, session);
    forall other | other in sessions' ensures exists i :: 0 <= i < count + 1 && draws(i).token == Some(other) {
      if other == token {
        assert draws(count).token == Some(other);
      } else {
        var i :| 0 <= i < count && draws(i).token == Some(other);
        assert i < count + 1;
      }
    }
  }

  /** Once the plan has ended, pruning empties its table. */
  lemma LateInsertion(
    sessions: Table, sessions': Table, ended: set<nat>, now: int, limit: nat, token: string, session: Session,
    staging: Staging)
    requires IsInserted(sessions, sessions', ended, now, limit, token, session) && limit > 0
    requires EndTogether(sessions, staging) && staging.lifetime in ended
    ensures sessions' == map[token := session]
  {
    hide IsPruned;
    var pruned :| IsPruned(sessions, pruned, ended, now, limit) && sessions' == pruned[token := session];
    PrunedFits(sessions, pruned, ended, now, limit);
    assert pruned == map[] by {
      assert forall other :: other in pruned ==> other in sessions;
    }
  }

  lemma KeepsStaged(
    sessions: Table, sessions': Table, ended: set<nat>, limit: nat, done: seq<Stream>, stream: Stream,
    staging: Staging, rules: UrlRules)
    requires HoldsOnly(sessions, |done|, staging.draws)
    requires HoldsEach(sessions, done, staging.draws, staging.expiry, staging.lifetime, rules)
    requires |sessions| <= |done| < limit && EndTogether(sessions, staging) && staging.lifetime !in ended
    requires staging.draws(|done|).token.Some? && staging.draws(|done|).token.value !in sessions
    requires var session := NewSession(stream, staging.expiry, staging.draws(|done|), staging.lifetime, rules);
             && session.Some? && session.value.expiresAt == staging.expiry
             && IsInserted(sessions, sessions', ended, staging.draws(|done|).now, limit,
                staging.draws(|done|).token.value, session.value)
    ensures HoldsEach(sessions', done + [stream], staging.draws, staging.expiry, staging.lifetime, rules)
  {
    hide IsPruned, NewSession, HoldsEach, HoldsOnly;
    var draw := staging.draws(|done|);
    var session := NewSession(stream, staging.expiry, draw, staging.lifetime, rules).value;
    var pruned :| IsPruned(sessions, pruned, ended, draw.now, limit)
      && sessions' == pruned[draw.token.value := session];
    PruneKeepsAll(sessions, pruned, ended, draw.now, limit);
    assert Holds(sessions, done, staging.draws, staging.expiry, staging.lifetime, rules);
    HoldsMore(sessions, sessions', done, stream, staging.draws, staging.expiry, staging.lifetime, rules);
  }

  lemma OneMoreVariant(front: seq<Stream>, variants: seq<Variant>, variant: Variant)
    ensures front + VariantStreams(variants + [variant]) == front + VariantStreams(variants) + [variant.stream]
  {
    assert VariantStreams(variants + [variant]) == VariantStreams(variants) + [variant.stream];
  }

  lemma NoSubtitleStreams()
    ensures SubtitleStreams([]) == []
  {
  }

  lemma OneMoreSubtitle(front: seq<Stream>, subtitles: seq<Subtitle>, subtitle: Subtitle)
    ensures SubtitleStreams(subtitles + [subtitle]) == SubtitleStreams(subtitles) + SubtitleStream(subtitle)
    ensures front + SubtitleStreams(subtitles + [subtitle])
        == front + SubtitleStreams(subtitles) + SubtitleStream(subtitle)
  {
    FlatMapAppend(SubtitleStream, subtitles, [subtitle]);
    FlatMapOne(SubtitleStream, subtitle);
    Associative(front, SubtitleStreams(subtitles), SubtitleStream(subtitle));
  }

  lemma SubtitlesSplit(front: seq<Stream>, subtitles: seq<Subtitle>, i: nat)
    requires i < |subtitles|
    ensures SubtitleStreams(subtitles)
        == SubtitleStreams(subtitles[..i]) + SubtitleStream(subtitles[i]) + SubtitleStreams(subtitles[i + 1..])
    ensures front + SubtitleStreams(subtitles)
        == front + SubtitleStreams(subtitles[..i + 1]) + SubtitleStreams(subtitles[i + 1..])
  {
    hide FlatMap, SubtitleStream;
    assert subtitles == subtitles[..i + 1] + subtitles[i + 1..];
    assert subtitles[..i + 1] == subtitles[..i] + [subtitles[i]];
    FlatMapAppend(SubtitleStream, subtitles[..i + 1], subtitles[i + 1..]);
    OneMoreSubtitle(front, subtitles[..i], subtitles[i]);
    Associative(front, SubtitleStreams(subtitles[..i + 1]), SubtitleStreams(subtitles[i + 1..]));
  }

  /** The resources of a plan as `wrapPlan` adds them up. */
  datatype PlanParts = PlanParts(primary: seq<Stream>, withAudio: seq<Stream>, withAudioOnly: seq<Stream>,
    withVariants: seq<Stream>)

  function Parts(plan: Plan): PlanParts {
    var a := [plan.primary];
    var b := a + Optional(plan.audio);
    var c := b + Optional(plan.audioOnly);
    PlanParts(a, b, c, c + VariantStreams(plan.variants))
  }

  lemma PartsAreResources(plan: Plan)
    ensures Parts(plan).withVariants + SubtitleStreams(plan.subtitles) == Resources(plan)
  {
  }

  /** The first `n` resources end where the tail begins, and all parts of them are bounded when all are. */
  lemma PartsMakeUp(plan: Plan, staging: Staging, rules: UrlRules)
    requires AreBounded(Resources(plan), staging, rules)
    ensures var parts := Parts(plan);
            && |parts.withAudio| == 1 + |Optional(plan.audio)|
            && |parts.withAudioOnly| == |parts.withAudio| + |Optional(plan.audioOnly)|
            && |parts.withVariants| == |parts.withAudioOnly| + |plan.variants|
            && |Resources(plan)| == |parts.withVariants| + |SubtitleStreams(plan.subtitles)|
            && parts.withVariants + SubtitleStreams(plan.subtitles) == Resources(plan)
    ensures AreBounded([plan.primary], staging, rules) && AreBounded(Optional(plan.audio), staging, rules)
    ensures AreBounded(Optional(plan.audioOnly), staging, rules)
    ensures AreBounded(VariantStreams(plan.variants), staging, rules)
    ensures AreBounded(SubtitleStreams(plan.subtitles), staging, rules)
    ensures var parts := Parts(plan);
            IsStageable(Resources(plan), staging, rules) ==>
              && IsStageable(parts.primary, staging, rules) && IsStageable(parts.withAudio, staging, rules)
              && IsStageable(parts.withAudioOnly, staging, rules) && IsStageable(parts.withVariants, staging, rules)
  {
    hide IsStageable, SubtitleStreams, AreBounded;
    var parts, all := Parts(plan), Resources(plan);
    var n1, n2, n3, n4 := 1, |parts.withAudio|, |parts.withAudioOnly|, |parts.withVariants|;
    PartIs(all, n1, parts.primary, 0, [plan.primary], staging, rules);
    PartIs(all, n2, parts.withAudio, n1, Optional(plan.audio), staging, rules);
    PartIs(all, n3, parts.withAudioOnly, n2, Optional(plan.audioOnly), staging, rules);
    PartIs(all, n4, parts.withVariants, n3, VariantStreams(plan.variants), staging, rules);
    PartIs(all, |all|, all, n4, SubtitleStreams(plan.subtitles), staging, rules);
  }

  lemma PartIs(
    all: seq<Stream>, n: nat, front: seq<Stream>, from: nat, part: seq<Stream>, staging: Staging, rules: UrlRules)
    requires AreBounded(all, staging, rules) && from <= n <= |all| && front == all[..n] && part == all[from..n]
    ensures AreBounded(part, staging, rules)
    ensures IsStageable(all, staging, rules) ==> IsStageable(front, staging, rules)
  {
    if IsStageable(all, staging, rules) {
      assert all == front + all[n..];
      StageableFront(front, all[n..], staging, rules);
    }
  }

  lemma LocalIsPlayable(stream: Stream, draw: Draw, base: string, rules: UrlRules)
    requires draw.token.Some? && IsToken(draw.token.value) && rules.validate(stream.url).Some?
    requires (base == "" || IsPlain(base))
    ensures IsPlayable(LocalStream(stream, draw, base, rules))
  {
    LocalUrlIsPlain(base, draw.token.value, rules.isPlaylist(rules.validate(stream.url).value));
  }

  lemma BoundedOne(streams: seq<Stream>, staging: Staging, rules: UrlRules, i: nat)
    requires AreBounded(streams, staging, rules) && i < |streams|
    ensures AreBounded([streams[i]], staging, rules)
  {
  }

  lemma StagedFacts(
    sessions: Table, issued: Table, ended: set<nat>, before: Table, done: seq<Stream>, locals: seq<Stream>,
    staging: Staging, base: string, rules: UrlRules)
    requires IsStaging(sessions, issued, ended, before, done, locals, staging, base, rules)
    ensures IsStageable(done, staging, rules) && (staging.lifetime in ended <==> LastIsLate(done, staging))
    ensures staging.draws(|done|).token.Some? ==>
              IsToken(staging.draws(|done|).token.value) && staging.draws(|done|).token.value !in issued
  {
    hide HoldsOnly, HoldsEach, HoldsLast, EndTogether, IssuedHere, AreLocal, IsStageable, IsToken;
  }

  /** Committing a staged plan supersedes the one before, and keeps every session within its plan. */
  lemma CommitIsValid(
    sessions: Table, issued: Table, issued': Table, ended0: set<nat>, ended: set<nat>, committed: map<nat, int>,
    current: Option<nat>, done: seq<Stream>, staging: Staging, rules: UrlRules)
    requires AreWithinPlans(issued, committed) && AreSuperseded(committed, current, ended0, staging.lifetime)
    requires ended0 <= ended <= ended0 + {staging.lifetime}
    requires IssuedHere(issued, issued', staging) && IsStagedTable(sessions, ended, done, staging, rules)
    ensures var committed' := committed[staging.lifetime := staging.expiry];
            var ended' := if current.Some? then ended + {current.value} else ended;
            && AreSuperseded(committed', Some(staging.lifetime), ended', staging.lifetime + 1)
            && AreWithinPlans(issued', committed') && AreOfPlan(sessions, Some(staging.lifetime))
            && IsStagedTable(sessions, ended', done, staging, rules) && Extends(issued, issued')
  {
    hide HoldsOnly, HoldsEach, HoldsLast, IsStageable, IssuedHere, AreWithinPlans;
    NewLifetime(committed, current, ended0, staging.lifetime);
    CommittedPlans(issued, issued', committed, staging);
  }

  lemma CommittedPlans(issued: Table, issued': Table, committed: map<nat, int>, staging: Staging)
    requires AreWithinPlans(issued, committed) && IssuedHere(issued, issued', staging) && staging.lifetime !in committed
    ensures AreWithinPlans(issued', committed[staging.lifetime := staging.expiry]) && Extends(issued, issued')
  {
  }

  lemma PlanIsBounded(plan: Plan, now: int, staging: Staging, rules: UrlRules)
    requires staging.expiry == PlanExpiry(plan, now, rules) && ClockRuns(now, staging.draws)
    ensures var plan' := plan.(expiresAt := Some(staging.expiry));
            Resources(plan') == Resources(plan) && AreBounded(Resources(plan'), staging, rules)
  {
    hide CountedUrls, SubtitleStreams, Streams, PlanExpiry;
    ResourcesAreCounted(plan);
    PlanExpiryIsLeast(plan, now, rules);
    SameResources(plan, staging.expiry);
  }

  lemma SameResources(plan: Plan, expiry: int)
    ensures Resources(plan.(expiresAt := Some(expiry))) == Resources(plan)
  {
  }

  /**
  What a successful `WrapPlan` is for: until the plan ends, every resource is found under its own token, with its
  target and headers.
  */
  lemma WrappedPlanPlays(
    sessions: Table, ended: set<nat>, resources: seq<Stream>, locals: seq<Stream>, staging: Staging, base: string,
    rules: UrlRules, i: nat, now: int)
    requires IsStagedTable(sessions, ended, resources, staging, rules)
    requires AreLocal(resources, locals, staging.draws, base, rules)
    requires i < |resources| && staging.lifetime !in ended && now < staging.expiry
    ensures staging.draws(i).token.Some?
    ensures var token := staging.draws(i).token.value;
            && IsFound(sessions, ended, now, token)
            && rules.validate(resources[i].url) == Some(sessions[token].target)
            && sessions[token].headers == Sanitize(resources[i].headers)
            && sessions[token].isHls == rules.isPlaylist(sessions[token].target)
            && locals[i].url == LocalUrl(base, token, sessions[token].isHls)
  {
    hide Sanitize, LocalUrl, SessionExpiry;
  }

  /**
  After a successful `WrapPlan` every resource has its session in the table exactly when the plan did not end
  during the last wrap, or there is one resource only.
  */
  lemma StagedTableIsWholeExactly(
    sessions: Table, ended: set<nat>, resources: seq<Stream>, staging: Staging, rules: UrlRules, issued: set<string>)
    requires IsStagedTable(sessions, ended, resources, staging, rules) && resources != []
    requires AreFresh(staging.draws, 0, issued)
    ensures HoldsEach(sessions, resources, staging.draws, staging.expiry, staging.lifetime, rules)
            <==> !LastIsLate(resources, staging) || |resources| == 1
    ensures LastIsLate(resources, staging) ==> |sessions| == 1
  {
    hide NewSession, IsToken;
    var last := |resources| - 1;
    if LastIsLate(resources, staging) {
      assert |sessions| == 1;
      assert last > 0 && staging.draws(0).token.Some? ==> staging.draws(0).token != staging.draws(last).token;
    }
  }
}
