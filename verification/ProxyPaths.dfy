/**
The paths of the media proxy (internal/playback/media_proxy.go): what `wrapStream` hands out as a URL, `parseMediaToken`
reads back as the token of a session, for every stream of a plan and for every reference of a playlist.
*/
module ProxyPaths {
  import opened Wrappers
  import opened Text
  import opened Plans
  import opened Sequences
  import opened HlsManifest
  import opened ProxySessions
  import opened ProxyTokens
  import opened ProxyReferences
  import opened ProxyStaging

  predicate IsHexDigit(c: char) {
    '0' <= c <= '9' || 'a' <= c <= 'f' || 'A' <= c <= 'F'
  }

  /** `parseMediaToken` */
  function MediaToken(path: string): Option<string> {
    var value := WithoutPrefix(path, "/api/media/");
    if value == path || '/' in value then None
    else
      var name := WithoutSuffix(value, ".m3u8");
      if |name| == 48 && forall i :: 0 <= i < |name| ==> IsHexDigit(name[i]) then Some(name) else None
  }

  /** A path names a token exactly when it is the prefix, 48 hexadecimal digits, and perhaps a playlist suffix. */
  lemma MediaTokenIs(path: string, token: string)
    ensures MediaToken(path) == Some(token) <==>
              && |token| == 48 && (forall i :: 0 <= i < |token| ==> IsHexDigit(token[i]))
              && (path == "/api/media/" + token || path == "/api/media/" + token + ".m3u8")
  {
    var prefix, suffix := "/api/media/", ".m3u8";
    var value := WithoutPrefix(path, prefix);
    if |token| == 48 && forall i :: 0 <= i < |token| ==> IsHexDigit(token[i]) {
      if path == prefix + token || path == prefix + token + suffix {
        assert value == token || value == token + suffix;
        assert value == token ==> token[|token| - 1] != '8' || token[|token| - 2] != 'u';
        assert '/' !in value;
      }
    }
  }

  /** The URL is the base followed by a path that names the token. */
  predicate Names(url: string, base: string, token: string) {
    base <= url && MediaToken(url[|base|..]) == Some(token)
  }

  lemma LocalUrlNames(base: string, token: string, isHls: bool)
    requires IsToken(token)
    ensures Names(LocalUrl(base, token, isHls), base, token)
    ensures HasSuffix(LocalUrl(base, token, isHls), ".m3u8") <==> isHls
  {
    var url := LocalUrl(base, token, isHls);
    var path := url[|base|..];
    assert path == "/api/media/" + token + if isHls then ".m3u8" else "";
    MediaTokenIs(path, token);
    if !isHls {
      assert url[|url| - 2] == token[|token| - 2];
    }
  }

  // ---------------------------------------------------------------- plans

  /**
  The player gets `local` for `stream`: a URL without headers that names a session with the stream's target and
  allowed headers, ends in ".m3u8" for a playlist, and is good until the plan expires.
  */
  ghost predicate LeadsTo(
    local: Stream, stream: Stream, sessions: Table, base: string, expiry: int, lifetime: nat, rules: UrlRules) {
    && local.headers == map[]
    && exists token ::
         && token in sessions && Names(local.url, base, token)
         && Some(sessions[token].target) == rules.validate(stream.url)
         && sessions[token].headers == Sanitize(stream.headers)
         && sessions[token].isHls == HasSuffix(local.url, ".m3u8") == rules.isPlaylist(sessions[token].target)
         && sessions[token].expiresAt == expiry && sessions[token].lifetime == lifetime
  }

  /** Stream by stream the wrapped plan leads to the given one; everything else in it stays. */
  ghost predicate PlanLeadsTo(
    wrapped: Plan, plan: Plan, sessions: Table, base: string, expiry: int, lifetime: nat, rules: UrlRules) {
    && wrapped.mode == plan.mode && wrapped.loadTarget == plan.loadTarget && wrapped.title == plan.title
    && wrapped.expiresAt == Some(expiry)
    && LeadsTo(wrapped.primary, plan.primary, sessions, base, expiry, lifetime, rules)
    && OptionLeadsTo(wrapped.audio, plan.audio, sessions, base, expiry, lifetime, rules)
    && OptionLeadsTo(wrapped.audioOnly, plan.audioOnly, sessions, base, expiry, lifetime, rules)
    && |wrapped.variants| == |plan.variants| && |wrapped.subtitles| == |plan.subtitles|
    && (forall i :: 0 <= i < |plan.variants| ==>
         && wrapped.variants[i].id == plan.variants[i].id
         && LeadsTo(wrapped.variants[i].stream, plan.variants[i].stream, sessions, base, expiry, lifetime, rules))
    && (forall i :: 0 <= i < |plan.subtitles| ==>
         SubtitleLeadsTo(wrapped.subtitles[i], plan.subtitles[i], sessions, base, expiry, lifetime, rules))
  }

  ghost predicate OptionLeadsTo(
    local: Option<Stream>, stream: Option<Stream>, sessions: Table, base: string, expiry: int, lifetime: nat,
    rules: UrlRules)
  {
    && (local.Some? <==> stream.Some?)
    && (stream.Some? ==> LeadsTo(local.value, stream.value, sessions, base, expiry, lifetime, rules))
  }

  ghost predicate SubtitleLeadsTo(
    local: Subtitle, subtitle: Subtitle, sessions: Table, base: string, expiry: int, lifetime: nat, rules: UrlRules)
  {
    && local.language == subtitle.language
    && if Trim(subtitle.url) == "" then local.url == subtitle.url
       else LeadsTo(Stream(local.url, map[]), Stream(subtitle.url, map[]), sessions, base, expiry, lifetime, rules)
  }

  /** Every resource of a wrapped plan has a URL that names the token drawn for it. */
  lemma ResourceIsNamed(
    resources: seq<Stream>, locals: seq<Stream>, staging: Staging, base: string, rules: UrlRules, issued: set<string>,
    i: nat)
    requires AreLocal(resources, locals, staging.draws, base, rules) && AreFresh(staging.draws, 0, issued)
    requires i < |resources|
    ensures staging.draws(i).token.Some? && Names(locals[i].url, base, staging.draws(i).token.value)
  {
    hide LocalUrl, IsToken, Names;
    LocalUrlNames(base, staging.draws(i).token.value, rules.isPlaylist(rules.validate(resources[i].url).value));
  }

  /** The URLs of a wrapped plan name the tokens drawn for its resources, in order. */
  ghost predicate AreNamed(locals: seq<Stream>, draws: nat -> Draw, base: string) {
    forall i :: 0 <= i < |locals| ==> draws(i).token.Some? && Names(locals[i].url, base, draws(i).token.value)
  }

  lemma ResourceLeads(
    sessions: Table, resources: seq<Stream>, locals: seq<Stream>, staging: Staging, base: string, rules: UrlRules,
    issued: set<string>, i: nat)
    requires AreLocal(resources, locals, staging.draws, base, rules) && AreFresh(staging.draws, 0, issued)
    requires HoldsEach(sessions, resources, staging.draws, staging.expiry, staging.lifetime, rules)
    requires EndTogether(sessions, staging) && i < |resources|
    ensures LeadsTo(locals[i], resources[i], sessions, base, staging.expiry, staging.lifetime, rules)
  {
    hide LocalUrl, IsToken, Names, NewSession, HasSuffix, Sanitize;
    var token := staging.draws(i).token.value;
    var session := NewSession(resources[i], staging.expiry, staging.draws(i), staging.lifetime, rules);
    assert session == Some(sessions[token]);
    LocalUrlNames(base, token, rules.isPlaylist(rules.validate(resources[i].url).value));
    assert Names(locals[i].url, base, token);
  }

  /** Where the resource of a subtitle stands among all of them. */
  function SubtitleAt(plan: Plan, i: nat): nat
    requires i < |plan.subtitles|
  {
    |Streams(plan)| + |SubtitleStreams(plan.subtitles[..i])|
  }

  lemma {:induction false} SameSubtitleStreams(before: seq<Subtitle>, after: seq<Subtitle>, n: nat)
    requires SameSubtitles(before, after) && n <= |before|
    ensures |SubtitleStreams(before[..n])| == |SubtitleStreams(after[..n])|
  {
    hide Trim;
    if n > 0 {
      SameSubtitleStreams(before, after, n - 1);
      FlatMapStep(SubtitleStream, before, n - 1);
      FlatMapStep(SubtitleStream, after, n - 1);
    }
  }

  lemma SubtitleIsAt(plan: Plan, i: nat)
    requires i < |plan.subtitles| && Trim(plan.subtitles[i].url) != ""
    ensures SubtitleAt(plan, i) < |Resources(plan)|
    ensures Resources(plan)[SubtitleAt(plan, i)] == Stream(plan.subtitles[i].url, map[])
  {
    hide Trim, Streams;
    var all := SubtitleStreams(plan.subtitles);
    var n := |SubtitleStreams(plan.subtitles[..i])|;
    SubtitlesSplit([], plan.subtitles, i);
    assert all[n] == Stream(plan.subtitles[i].url, map[]);
  }

  /** While the table holds every resource, the wrapped plan leads to the given one stream by stream. */
  lemma WrappedPlanLeads(
    sessions: Table, plan: Plan, wrapped: Plan, staging: Staging, base: string, rules: UrlRules, issued: set<string>)
    requires SameShape(plan.(expiresAt := Some(staging.expiry)), wrapped) && AreFresh(staging.draws, 0, issued)
    requires AreLocal(Resources(plan), Resources(wrapped), staging.draws, base, rules)
    requires HoldsEach(sessions, Resources(plan), staging.draws, staging.expiry, staging.lifetime, rules)
    requires EndTogether(sessions, staging)
    ensures PlanLeadsTo(wrapped, plan, sessions, base, staging.expiry, staging.lifetime, rules)
  {
    hide AreLocal, HoldsEach, EndTogether, AreFresh, LeadsTo, SubtitleLeadsTo, OptionLeadsTo, SubtitleStreams;
    var all, locals := Resources(plan), Resources(wrapped);
    AreLocalLength(all, locals, staging.draws, base, rules);
    assert AllLead(locals, all, sessions, staging, base, rules) by {
      forall i | 0 <= i < |all|
        ensures LeadsTo(locals[i], all[i], sessions, base, staging.expiry, staging.lifetime, rules) {
        ResourceLeads(sessions, all, locals, staging, base, rules, issued, i);
      }
    }
    OptionsLead(sessions, plan, wrapped, staging, base, rules);
    forall i | 0 <= i < |plan.variants|
      ensures LeadsTo(wrapped.variants[i].stream, plan.variants[i].stream, sessions, base, staging.expiry,
                      staging.lifetime, rules)
    {
      var k := 1 + |Optional(plan.audio)| + |Optional(plan.audioOnly)| + i;
      assert all[k] == plan.variants[i].stream && locals[k] == wrapped.variants[i].stream;
    }
    forall i | 0 <= i < |plan.subtitles|
      ensures SubtitleLeadsTo(wrapped.subtitles[i], plan.subtitles[i], sessions, base, staging.expiry,
                              staging.lifetime, rules)
    {
      SubtitleLeads(sessions, plan, wrapped, staging, base, rules, i);
    }
  }

  ghost predicate AllLead(
    locals: seq<Stream>, all: seq<Stream>, sessions: Table, staging: Staging, base: string, rules: UrlRules) {
    && |locals| == |all|
    && forall i :: 0 <= i < |all| ==>
         LeadsTo(locals[i], all[i], sessions, base, staging.expiry, staging.lifetime, rules)
  }

  lemma OptionsLead(
    sessions: Table, plan: Plan, wrapped: Plan, staging: Staging, base: string, rules: UrlRules)
    requires (wrapped.audio.Some? <==> plan.audio.Some?) && (wrapped.audioOnly.Some? <==> plan.audioOnly.Some?)
    requires AllLead(Resources(wrapped), Resources(plan), sessions, staging, base, rules)
    ensures LeadsTo(wrapped.primary, plan.primary, sessions, base, staging.expiry, staging.lifetime, rules)
    ensures OptionLeadsTo(wrapped.audio, plan.audio, sessions, base, staging.expiry, staging.lifetime, rules)
    ensures OptionLeadsTo(wrapped.audioOnly, plan.audioOnly, sessions, base, staging.expiry, staging.lifetime, rules)
  {
    hide LeadsTo, SubtitleStreams;
    var all, locals, audio := Resources(plan), Resources(wrapped), |Optional(plan.audio)|;
    assert all[0] == plan.primary && locals[0] == wrapped.primary;
    assert plan.audio.Some? ==> all[1] == plan.audio.value && locals[1] == wrapped.audio.value;
    assert plan.audioOnly.Some? ==>
      all[1 + audio] == plan.audioOnly.value && locals[1 + audio] == wrapped.audioOnly.value;
  }

  lemma SubtitleLeads(
    sessions: Table, plan: Plan, wrapped: Plan, staging: Staging, base: string, rules: UrlRules, i: nat)
    requires SameShape(plan.(expiresAt := Some(staging.expiry)), wrapped) && i < |plan.subtitles|
    requires AllLead(Resources(wrapped), Resources(plan), sessions, staging, base, rules)
    ensures SubtitleLeadsTo(wrapped.subtitles[i], plan.subtitles[i], sessions, base, staging.expiry, staging.lifetime,
                            rules)
  {
    hide LeadsTo, Trim, SubtitleStreams, Resources;
    if Trim(plan.subtitles[i].url) != "" {
      SubtitleIsAt(plan, i);
      SubtitleIsAt(wrapped, i);
      SameSubtitleStreams(plan.subtitles, wrapped.subtitles, i);
      assert SubtitleAt(wrapped, i) == SubtitleAt(plan, i);
    }
  }

  /** What a successful `WrapPlan` leaves: named URLs and, as long as its table is whole, a plan that leads on. */
  lemma StagedPlanLeads(
    sessions: Table, ended: set<nat>, plan: Plan, wrapped: Plan, staging: Staging, base: string, rules: UrlRules,
    issued: set<string>)
    requires SameShape(plan.(expiresAt := Some(staging.expiry)), wrapped) && AreFresh(staging.draws, 0, issued)
    requires AreLocal(Resources(plan), Resources(wrapped), staging.draws, base, rules)
    requires IsStagedTable(sessions, ended, Resources(plan), staging, rules)
    ensures AreNamed(Resources(wrapped), staging.draws, base)
    ensures !LastIsLate(Resources(plan), staging) || |Resources(plan)| == 1 ==>
              PlanLeadsTo(wrapped, plan, sessions, base, staging.expiry, staging.lifetime, rules)
  {
    hide AreLocal, HoldsEach, EndTogether, AreFresh, Names, SameShape, PlanLeadsTo, Resources, IsStageable;
    var all, locals := Resources(plan), Resources(wrapped);
    AreLocalLength(all, locals, staging.draws, base, rules);
    forall i | 0 <= i < |locals|
      ensures staging.draws(i).token.Some? && Names(locals[i].url, base, staging.draws(i).token.value) {
      ResourceIsNamed(all, locals, staging, base, rules, issued, i);
    }
    assert all != [] by {
      SomeResource(plan);
    }
    StagedTableIsWholeExactly(sessions, ended, all, staging, rules, issued);
    if !LastIsLate(all, staging) || |all| == 1 {
      WrappedPlanLeads(sessions, plan, wrapped, staging, base, rules, issued);
    }
  }

  lemma SomeResource(plan: Plan)
    ensures Resources(plan) != []
  {
  }

  lemma AreLocalLength(
    resources: seq<Stream>, locals: seq<Stream>, draws: nat -> Draw, base: string, rules: UrlRules)
    requires AreLocal(resources, locals, draws, base, rules)
    ensures |locals| == |resources|
  {
  }

  // ---------------------------------------------------------------- playlists

  /**
  What a player gets for reference `ref` of a playlist. Blank references, local ones and those of a foreign scheme
  stay. Any other becomes a URL that names the token drawn for it, which was issued for the target resolved against the
  playlist's URL, with the playlist's headers and lifetime, and ends no later than the playlist.
  */
  ghost predicate ReferenceLeadsTo(
    local: string, ref: string, playlist: Playlist, draw: Draw, base: string, rules: UrlRules, issued: Table)
  {
    var value := Trim(ref);
    if value == "" || "/api/media/" <= value || rules.join(playlist.url, value) == Foreign then local == ref
    else
      && draw.token.Some? && draw.token.value in issued && Names(local, base, draw.token.value)
      && rules.join(playlist.url, value).Joined?
      && var session := issued[draw.token.value];
         && Some(session.target) == rules.validate(rules.join(playlist.url, value).url)
         && session.headers == Sanitize(playlist.headers) && session.lifetime == playlist.lifetime
         && session.expiresAt <= playlist.expiresAt
         && session.isHls == HasSuffix(local, ".m3u8") == rules.isPlaylist(session.target)
  }

  /** Line by line and reference by reference, the rewritten playlist leads where the given one does. */
  ghost predicate PlaylistLeadsTo(
    cuts: seq<Cut>, locals: seq<seq<string>>, playlist: Playlist, draws: nat -> Draw, base: string, rules: UrlRules,
    issued: Table)
  {
    && |locals| == |cuts| && (forall i :: 0 <= i < |cuts| ==> |locals[i]| == |cuts[i].refs|)
    && forall i, k :: 0 <= i < |cuts| && 0 <= k < |cuts[i].refs| ==>
         ReferenceLeadsTo(locals[i][k], cuts[i].refs[k], playlist, draws(NumberAt(cuts, i) + k), base, rules, issued)
  }

  lemma IssuedLeads(ref: string, local: string, k: nat, rw: Rewriting, issued: Table)
    requires IsIssuedFor(ref, local, k, rw, issued) && AreTokens(issued)
    ensures ReferenceLeadsTo(local, ref, rw.playlist, rw.draws(k), rw.base, rw.rules, issued)
  {
    hide LocalUrl, IsToken, Names, HasSuffix, Sanitize, Trim;
    if IsReplaced(ref, rw) {
      var token := rw.draws(k).token.value;
      LocalUrlNames(rw.base, token, issued[token].isHls);
    }
  }

  lemma RewrittenPlaylistLeads(
    lines: seq<string>, cuts: seq<Cut>, locals: seq<seq<string>>, written: string, rw: Rewriting, issued: Table)
    requires AreTokens(issued) && AreRewritten(lines, cuts, locals, written, rw, issued)
    ensures PlaylistLeadsTo(cuts, locals, rw.playlist, rw.draws, rw.base, rw.rules, issued)
  {
    hide IsIssuedFor, ReferenceLeadsTo, AreTokens, NumberAt, IsLineCut;
    assert forall i :: 0 <= i < |cuts| ==> AreIssuedFor(cuts[i].refs, locals[i], NumberAt(cuts, i), rw, issued);
    forall i, k | 0 <= i < |cuts| && 0 <= k < |cuts[i].refs|
      ensures ReferenceLeadsTo(locals[i][k], cuts[i].refs[k], rw.playlist, rw.draws(NumberAt(cuts, i) + k), rw.base,
                               rw.rules, issued)
    {
      IssuedLeads(cuts[i].refs[k], locals[i][k], NumberAt(cuts, i) + k, rw, issued);
    }
  }
}
