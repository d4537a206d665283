/**
The media proxy (internal/playback/media_proxy.go): wrapping a plan behind fresh tokens, revoking it, looking
tokens up, and rewriting the playlists fetched through them.
*/
module MediaProxyModel {
  import opened Wrappers
  import opened Text
  import opened Plans
  import opened Sequences
  import opened HlsManifest
  import opened ProxySessions
  import opened ProxyTokens
  import opened ProxyReferences
  import opened ProxyStaging
  import opened ProxyPaths

  datatype ProxyError =
    | RequestEnded | TooManyResources | Expired | InvalidTarget
    | NoToken | PlanEnded | NoHeader | Unclosed | BadReference

  /** What a request is answered with; media is passed on from its target, which the headers are sent to. */
  datatype Response =
    | NotFound | Media(target: string, headers: map<string, string>) | Manifest(text: string) | BadManifest

  /** The contexts of plans: which lifetimes have ended, by cancellation or by timeout. */
  class Contexts {
    var ended: set<nat>
    var next: nat

    constructor ()
      ensures ended == {} && next == 0
    {
      ended, next := {}, 0;
    }
  }

  class MediaProxy {
    const rules: UrlRules
    const maxSessions: int
    const contexts: Contexts
    var sessions: Table
    var cancelPlan: Option<nat>
    var localBaseUrl: string
    /** Every session ever put into the table, as it was then; a plan's sessions count once the plan is committed. */
    ghost var issued: Table
    /** The lifetimes of the plans committed so far, with their expiry. */
    ghost var committed: map<nat, int>

    constructor (rules: UrlRules, maxSessions: int, contexts: Contexts, localBaseUrl: string)
      requires (localBaseUrl == "" || IsPlain(localBaseUrl)) && contexts.ended == {}
      ensures Valid() && sessions == map[] && issued == map[] && committed == map[] && cancelPlan == None
      ensures this.rules == rules && this.maxSessions == maxSessions && this.contexts == contexts
      ensures this.localBaseUrl == localBaseUrl
    {
      this.rules, this.maxSessions, this.contexts, this.localBaseUrl := rules, maxSessions, contexts, localBaseUrl;
      sessions, cancelPlan, issued, committed := map[], None, map[], map[];
    }

    /** The private proxy that `WrapPlan` stages a plan in; its tokens are new to the proxy it is staged for. */
    constructor Staged(proxy: MediaProxy, ghost staging: Staging)
      requires proxy.ValidTable() && staging.lifetime !in proxy.contexts.ended
      requires AreFresh(staging.draws, 0, proxy.issued.Keys)
      ensures rules == proxy.rules && contexts == proxy.contexts && Limit() == proxy.Limit()
      ensures localBaseUrl == proxy.localBaseUrl
      ensures Stages(proxy.issued, [], [], staging)
    {
      this.rules, this.maxSessions, this.contexts := proxy.rules, proxy.maxSessions, proxy.contexts;
      this.localBaseUrl := proxy.localBaseUrl;
      sessions, cancelPlan, issued, committed := map[], None, proxy.issued, map[];
      new;
      NothingStaged(issued, contexts.ended, staging, localBaseUrl, rules);
    }

    function Limit(): (limit: nat)
      ensures limit > 0
    {
      if maxSessions <= 0 then MAX_SESSIONS else maxSessions
    }

    /** What holds of the table of any proxy, a staged one included. */
    ghost predicate ValidTable()
      reads this
    {
      && |sessions| <= Limit()
      && AreTokens(issued)
      && OnlyFrom(sessions, issued)
      && (localBaseUrl == "" || IsPlain(localBaseUrl))
    }

    /** The plan of every session is the one committed last, and no session outlives that plan. */
    ghost predicate Valid()
      reads this, contexts
    {
      && ValidTable()
      && AreSuperseded(committed, cancelPlan, contexts.ended, contexts.next)
      && AreWithinPlans(issued, committed)
      && AreOfPlan(sessions, cancelPlan)
    }

    /**
    `SetLocalBaseURL`: a blank value clears the base, any other is normalized or refused. `normalize` is what URL
    parsing and the checks on its parts make of a value: http, a loopback address with a port, and nothing behind
    it.
    */
    method SetLocalBaseUrl(raw: string, normalize: string -> Option<string>) returns (accepted: bool)
      requires Valid() && forall value :: normalize(value).Some? ==> IsPlain(normalize(value).value)
      modifies this`localBaseUrl
      ensures Valid() && (accepted <==> Trim(raw) == "" || normalize(Trim(raw)).Some?)
      ensures localBaseUrl == if !accepted then old(localBaseUrl)
                              else if Trim(raw) == "" then ""
                              else normalize(Trim(raw)).value
    {
      hide Trim, IsPlain;
      var value := Trim(raw);
      if value == "" {
        localBaseUrl := "";
        return true;
      }
      var normalized := normalize(value);
      if normalized.None? {
        return false;
      }
      localBaseUrl := normalized.value;
      return true;
    }

    /** `pruneLocked` */
    method PruneLocked(now: int)
      requires ValidTable()
      modifies this`sessions
      ensures ValidTable() && IsPruned(old(sessions), sessions, contexts.ended, now, Limit())
    {
      hide IsPruned, OnlyFrom, AreTokens, IsPlain;
      NoEmptyToken(sessions, issued);
      sessions := Prune(sessions, contexts.ended, now, Limit());
      PrunedFits(old(sessions), sessions, contexts.ended, now, Limit());
      KeptBy(old(sessions), sessions, contexts.ended, now, Limit());
      FewerSessions(sessions, old(sessions), issued, None);
    }

    /** `wrapStream` */
    method WrapStream(lifetime: nat, stream: Stream, planExpiry: int, draw: Draw)
      returns (result: Result<Stream, ProxyError>)
      requires ValidTable()
      requires draw.token.Some? ==> IsToken(draw.token.value) && draw.token.value !in issued
      modifies this`sessions, this`issued, contexts`ended
      ensures ValidTable() && old(contexts.ended) <= contexts.ended <= old(contexts.ended) + {lifetime}
      ensures result.Ok? <==>
                NewSession(stream, planExpiry, draw, lifetime, rules).Some? && lifetime !in old(contexts.ended)
                  && !draw.lateBefore
      ensures result.Err? ==>
                && sessions == old(sessions) && issued == old(issued)
                && result.error in {InvalidTarget, Expired, NoToken, PlanEnded}
      ensures result.Ok? ==>
                var token, session := draw.token.value, NewSession(stream, planExpiry, draw, lifetime, rules).value;
                && result.value == LocalStream(stream, draw, localBaseUrl, rules)
                && result.value.headers == map[] && Names(result.value.url, localBaseUrl, token)
                && IsInserted(old(sessions), sessions, contexts.ended, draw.now, Limit(), token, session)
                && issued == old(issued)[token := session]
                && (lifetime in contexts.ended <==> draw.lateDuring)
    {
      hide IsPruned, IsInserted, IsToken, IsPlain, OnlyFrom, AreTokens;
      if draw.lateBefore {
        contexts.ended := contexts.ended + {lifetime};
      }
      var target := rules.validate(stream.url);
      if target.None? {
        return Err(InvalidTarget);
      }
      var expiresAt := draw.now + DEFAULT_TTL;
      if planExpiry < expiresAt {
        expiresAt := planExpiry;
      }
      var ofUrl := rules.expiry(stream.url);
      if ofUrl.Some? && ofUrl.value < expiresAt {
        expiresAt := ofUrl.value;
      }
      if expiresAt <= draw.now {
        return Err(Expired);
      }
      if draw.token.None? {
        return Err(NoToken);
      }
      var token := draw.token.value;
      var isHls := rules.isPlaylist(target.value);
      if lifetime in contexts.ended {
        return Err(PlanEnded);
      }
      if draw.lateDuring {
        contexts.ended := contexts.ended + {lifetime};
      }
      Insert(token, Session(target.value, Sanitize(stream.headers), expiresAt, isHls, draw.now, false, lifetime),
        draw.now);
      LocalUrlNames(localBaseUrl, token, isHls);
      return Ok(Stream(LocalUrl(localBaseUrl, token, isHls), map[]));
    }

    method Insert(token: string, session: Session, now: int)
      requires ValidTable() && IsToken(token) && token !in issued
      modifies this`sessions, this`issued
      ensures ValidTable() && issued == old(issued)[token := session]
      ensures IsInserted(old(sessions), sessions, contexts.ended, now, Limit(), token, session)
    {
      hide IsPruned, IsToken, IsPlain, OnlyFrom, AreTokens;
      PruneLocked(now);
      assert IsInserted(old(sessions), sessions[token := session], contexts.ended, now, Limit(), token, session);
      InsertedSize(old(sessions), sessions[token := session], contexts.ended, now, Limit(), token, session);
      OneMoreSession(sessions, issued, token, session);
      sessions := sessions[token := session];
      issued := issued[token := session];
    }

    /** `Revoke` */
    method Revoke()
      requires Valid()
      modifies this`sessions, this`cancelPlan, contexts`ended
      ensures Valid() && sessions == map[] && cancelPlan == None
      ensures contexts.ended == old(contexts.ended) + (if old(cancelPlan).Some? then {old(cancelPlan).value} else {})
    {
      if cancelPlan.Some? {
        contexts.ended := contexts.ended + {cancelPlan.value};
        cancelPlan := None;
      }
      sessions := map[];
    }

    /** `session`: a token is found only while it belongs to the plan committed last and that plan has not expired. */
    method Lookup(token: string, now: int) returns (found: Option<Session>)
      requires Valid()
      modifies this`sessions
      ensures Valid() && sessions == LookedUp(old(sessions), contexts.ended, now, token)
      ensures found.Some? <==>
          && token in old(sessions) && now < old(sessions)[token].expiresAt
          && old(sessions)[token].lifetime !in contexts.ended
      ensures sessions - {token} == old(sessions) - {token}
      ensures found.Some? ==>
                && token in issued && SameSession(found.value, issued[token]) && found == Some(sessions[token])
                && cancelPlan == Some(found.value.lifetime) && found.value.lifetime in committed
                && now < found.value.expiresAt <= committed[found.value.lifetime]
    {
      hide OnlyFrom, AreTokens, IsPlain, AreSuperseded, AreWithinPlans, AreOfPlan, SameSession;
      LookupKeeps(sessions, contexts.ended, now, token);
      FewerSessions(LookedUp(sessions, contexts.ended, now, token), sessions, issued, cancelPlan);
      if token !in sessions || !(now < sessions[token].expiresAt) || sessions[token].lifetime in contexts.ended {
        sessions := sessions - {token};
        return None;
      }
      var session := sessions[token].(lastUsed := now);
      sessions := sessions[token := session];
      OfCurrentPlan(sessions, issued, cancelPlan, committed, token);
      return Some(session);
    }

    /** `markSessionObserved` */
    method MarkSessionObserved(token: string) returns (first: bool)
      requires Valid()
      modifies this`sessions
      ensures Valid() && sessions == Observed(old(sessions), contexts.ended, token)
      ensures sessions - {token} == old(sessions) - {token}
      ensures first <==>
          && token in old(sessions) && old(sessions)[token].lifetime !in contexts.ended
          && !old(sessions)[token].observed
    {
      hide OnlyFrom, AreTokens, IsPlain, AreSuperseded, AreWithinPlans, AreOfPlan;
      LookupKeeps(sessions, contexts.ended, 0, token);
      FewerSessions(Observed(sessions, contexts.ended, token), sessions, issued, cancelPlan);
      if token !in sessions || sessions[token].lifetime in contexts.ended || sessions[token].observed {
        if token in sessions && sessions[token].lifetime in contexts.ended {
          sessions := sessions - {token};
        }
        return false;
      }
      sessions := sessions[token := sessions[token].(observed := true)];
      return true;
    }

    /**
    What an HLS rewrite may do to the proxy: it issues further tokens under one lifetime, and that lifetime may end.
    */
    twostate predicate IssuesTo(lifetime: nat)
      reads this, contexts
    {
      && Extends(old(issued), issued)
      && old(contexts.ended) <= contexts.ended <= old(contexts.ended) + {lifetime}
    }

    /** A playlist of a committed plan can be rewritten with tokens drawn from `next` on. */
    ghost predicate CanRewrite(playlist: Playlist, draws: nat -> Draw, next: nat)
      reads this, contexts
    {
      && Valid() && playlist.lifetime in committed && playlist.expiresAt <= committed[playlist.lifetime]
      && AreFresh(draws, next, issued.Keys) && IsOrdered(draws)
    }

    lemma CanRewriteSays(playlist: Playlist, draws: nat -> Draw, next: nat)
      requires CanRewrite(playlist, draws, next)
      ensures Valid() && OnlyFrom(sessions, issued) && IsOrdered(draws)
    {
    }

    ghost function Now(): Moment
      reads this
    {
      Moment(sessions, issued)
    }

    function RewritingOf(playlist: Playlist, draws: nat -> Draw): Rewriting
      reads this
    {
      Rewriting(playlist, localBaseUrl, rules, draws)
    }

    /** `wrapHLSReference` */
    method WrapHlsReference(raw: string, playlist: Playlist, draws: nat -> Draw, next: nat)
      returns (result: Result<string, ProxyError>)
      requires CanRewrite(playlist, draws, next)
      modifies this`sessions, this`issued, contexts`ended
      ensures IssuesTo(playlist.lifetime) && CanRewrite(playlist, draws, next + 1)
      ensures result.Ok? <==>
          IsAccepted(raw, next, RewritingOf(playlist, draws), playlist.lifetime in old(contexts.ended))
      ensures result.Ok? ==>
                && IsIssuedFor(raw, result.value, next, RewritingOf(playlist, draws), issued)
                && ReferenceLeadsTo(result.value, raw, playlist, draws(next), localBaseUrl, rules, issued)
                && HasRewritten(old(Now()), playlist.lifetime in old(contexts.ended), Now(), contexts.ended, [raw],
                   next, RewritingOf(playlist, draws), Limit())
      ensures result.Err? ==> result.error != Unclosed && result.error != NoHeader
    {
      hide Trim, OnlyFrom, AreTokens, IsPlain, AreSuperseded, AreWithinPlans, AreOfPlan, IsInserted, LocalUrl, Sanitize;
      hide AreFresh;
      hide HasRewritten, IsOrdered, ReferenceLeadsTo, Names;
      var value := Trim(raw);
      ghost var rw := RewritingOf(playlist, draws);
      FreshAfter(draws, next, issued.Keys, issued.Keys);
      if value == "" || PATH_PREFIX <= value {
        RewrittenKept(Now(), contexts.ended, raw, next, rw, Limit());
        IssuedLeads(raw, raw, next, rw, issued);
        return Ok(raw);
      }
      var reference := rules.join(playlist.url, value);
      if reference.Malformed? {
        return Err(BadReference);
      }
      if reference.Foreign? {
        RewrittenKept(Now(), contexts.ended, raw, next, rw, Limit());
        IssuedLeads(raw, raw, next, rw, issued);
        return Ok(raw);
      }
      var stream, draw := Stream(reference.url, playlist.headers), draws(next);
      FreshNow(draws, next, issued.Keys);
      var wrapped := WrapStream(playlist.lifetime, stream, playlist.expiresAt, draw);
      if wrapped.Err? {
        EndingKeeps(committed, cancelPlan, old(contexts.ended), contexts.ended, contexts.next, playlist.lifetime);
        return Err(wrapped.error);
      }
      FreshAfter(draws, next, old(issued.Keys), issued.Keys);
      assert issued[draw.token.value] == SessionFor(raw, next, rw).value;
      StaysValid(old(sessions), sessions, old(contexts.ended), contexts.ended, draw.now, Limit(), draw.token.value,
        issued[draw.token.value], old(issued), committed, cancelPlan, contexts.next);
      RewrittenOne(old(sessions), sessions, old(issued), old(contexts.ended), contexts.ended, raw, next, rw, Limit());
      IssuedLeads(raw, wrapped.value.url, next, rw, issued);
      return Ok(wrapped.value.url);
    }

    /** `rewriteHLSAttributes` */
    method RewriteHlsAttributes(line: string, playlist: Playlist, draws: nat -> Draw, from: nat)
      returns (result: Result<string, ProxyError>, next: nat, ghost cut: Cut, ghost locals: seq<string>)
      requires CanRewrite(playlist, draws, from)
      modifies this`sessions, this`issued, contexts`ended
      ensures IssuesTo(playlist.lifetime) && CanRewrite(playlist, draws, next)
      ensures result.Ok? <==>
          IsRewritableTag(line, from, RewritingOf(playlist, draws), playlist.lifetime in old(contexts.ended))
      ensures result.Ok? ==>
                && IsAttributeCut(cut) && line == Weave(cut.texts, cut.refs) && next == from + |cut.refs|
                && AreIssuedFor(cut.refs, locals, from, RewritingOf(playlist, draws), issued)
                && result.value == Weave(cut.texts, locals)
                && HasRewritten(old(Now()), playlist.lifetime in old(contexts.ended), Now(), contexts.ended, cut.refs,
                   from, RewritingOf(playlist, draws), Limit())
      ensures result == Err(Unclosed) ==> IsUnclosedLine(line)
      ensures result.Err? ==> result.error != NoHeader
    {
      hide IsReading, Leads, Weave, IsAttributeCut, IsUnclosedLine, CanRewrite, AreIssuedFor, Extends, OpensAt;
      hide HasRewritten, AreAccepted;
      hide IsRewritableTag, TagSoFar;
      var rewritten, position := "", 0;
      next := from;
      ghost var scan := Scan([], [], 0);
      ghost var rw, ended0 := RewritingOf(playlist, draws), playlist.lifetime in contexts.ended;
      cut, locals := Cut([], []), [];
      ScanStarts(line);
      TagStarts(from, playlist, draws);
      while position < |line|
        invariant TagSoFar(scan.refs, locals, from, playlist, draws, next, old(Now()), ended0)
        invariant old(contexts.ended) <= contexts.ended <= old(contexts.ended) + {playlist.lifetime}
        invariant position <= |line| && IsReading(line, scan, position, locals, rewritten)
        decreases |line| - position
      {
        var step := NextStep(line, position);
        LeadsOn(line, position, step);
        match step {
          case Rest =>
            ReadText(line, scan, position, locals, rewritten, |line|);
            rewritten, position := rewritten + line[position..|line|], |line|;
            break;
          case Skip(to) =>
            ReadText(line, scan, position, locals, rewritten, to);
            rewritten, position := rewritten + line[position..to], to;
          case Open(start) =>
            TagSays(scan.refs, locals, from, playlist, draws, next, old(Now()), ended0);
            ReadUnclosed(line, scan, position, locals, rewritten, start);
            UnclosedTag(line, from, rw, ended0);
            return Err(Unclosed), next, cut, locals;
          case Value(start, end) =>
            var local := RewriteValue(line[start..end], from, playlist, draws, next, scan.refs, locals, old(Now()),
              ended0);
            next := next + 1;
            if local.Err? {
              RefusedTag(line, scan, position, locals, rewritten, start, end, from, rw, ended0);
              return Err(local.error), next, cut, locals;
            }
            ReadReference(line, scan, position, locals, rewritten, start, end, local.value);
            rewritten := rewritten + line[position..start] + local.value + [line[end]];
            position := end + 1;
            scan, locals := HlsManifest.Next(line, scan, start, end), locals + [local.value];
        }
      }
      ReadAll(line, scan, locals, rewritten);
      ShapesOfCuts();
      cut := Cut(scan.texts + [line[scan.began..]], scan.refs);
      TagSays(scan.refs, locals, from, playlist, draws, next, old(Now()), ended0);
      TagRewritable(line, cut, from, rw, ended0);
      return Ok(rewritten), next, cut, locals;
    }

    /** Since `start`, these references of a tag were rewritten. */
    ghost predicate TagSoFar(
      refs: seq<string>, locals: seq<string>, from: nat, playlist: Playlist, draws: nat -> Draw, next: nat,
      start: Moment, ended0: bool)
      reads this, contexts
    {
      && CanRewrite(playlist, draws, next) && next == from + |refs| && Extends(start.issued, issued)
      && OnlyFrom(start.sessions, start.issued)
      && AreIssuedFor(refs, locals, from, RewritingOf(playlist, draws), issued)
      && AreAccepted(refs, from, RewritingOf(playlist, draws), ended0)
      && HasRewritten(start, ended0, Now(), contexts.ended, refs, from, RewritingOf(playlist, draws), Limit())
    }

    lemma TagStarts(from: nat, playlist: Playlist, draws: nat -> Draw)
      requires CanRewrite(playlist, draws, from)
      ensures TagSoFar([], [], from, playlist, draws, from, Now(), playlist.lifetime in contexts.ended)
    {
      hide HasRewritten, AreAccepted, AreIssuedFor;
      var rw := RewritingOf(playlist, draws);
      NoneIssued(from, rw, issued);
      RewrittenNone(Now(), contexts.ended, from, rw, Limit());
      NoneAccepted(from, rw, playlist.lifetime in contexts.ended);
      CanRewriteSays(playlist, draws, from);
      ExtendsSelf(issued);
    }

    lemma TagSays(
      refs: seq<string>, locals: seq<string>, from: nat, playlist: Playlist, draws: nat -> Draw, next: nat,
      start: Moment, ended0: bool)
      requires TagSoFar(refs, locals, from, playlist, draws, next, start, ended0)
      ensures CanRewrite(playlist, draws, next) && next == from + |refs| && Extends(start.issued, issued)
      ensures AreIssuedFor(refs, locals, from, RewritingOf(playlist, draws), issued)
      ensures AreAccepted(refs, from, RewritingOf(playlist, draws), ended0)
      ensures HasRewritten(start, ended0, Now(), contexts.ended, refs, from, RewritingOf(playlist, draws), Limit())
    {
    }

    /** One value of a tag, behind the references rewritten before it. */
    method RewriteValue(
      raw: string, ghost from: nat, playlist: Playlist, draws: nat -> Draw, next: nat, ghost refs: seq<string>,
      ghost locals: seq<string>, ghost start: Moment, ghost ended0: bool)
      returns (result: Result<string, ProxyError>)
      requires TagSoFar(refs, locals, from, playlist, draws, next, start, ended0)
      modifies this`sessions, this`issued, contexts`ended
      ensures old(contexts.ended) <= contexts.ended <= old(contexts.ended) + {playlist.lifetime}
      ensures CanRewrite(playlist, draws, next + 1) && Extends(start.issued, issued)
      ensures result.Ok? <==> AreAccepted(refs + [raw], from, RewritingOf(playlist, draws), ended0)
      ensures result.Ok? ==>
          TagSoFar(refs + [raw], locals + [result.value], from, playlist, draws, next + 1, start, ended0)
      ensures result.Err? ==> result.error != Unclosed && result.error != NoHeader
    {
      hide AreIssuedFor, IsIssuedFor, Extends, IsAccepted, AreAccepted, CountReplaced, KeepsRoom, OnlyFrom, AreFresh;
      hide IsOrdered;
      hide AreSuperseded, AreWithinPlans, AreOfPlan, AreTokens, IsPlain, IsReplaced;
      ghost var rw := RewritingOf(playlist, draws);
      OneMoreReference(refs, raw, from, rw, ended0);
      result := WrapHlsReference(raw, playlist, draws, next);
      ExtendsOn(start.issued, old(issued), issued);
      if result.Ok? {
        OneMoreIssued(refs, locals, raw, result.value, from, rw, old(issued), issued);
        RewrittenMore(start, ended0, old(Now()), old(contexts.ended), Now(), contexts.ended, refs, [raw], from, rw,
          Limit());
      }
    }

    /** `rewriteHLSLine` */
    method RewriteHlsLine(line: string, playlist: Playlist, draws: nat -> Draw, from: nat)
      returns (result: Result<string, ProxyError>, next: nat, ghost cut: Cut, ghost locals: seq<string>)
      requires CanRewrite(playlist, draws, from)
      modifies this`sessions, this`issued, contexts`ended
      ensures IssuesTo(playlist.lifetime) && CanRewrite(playlist, draws, next)
      ensures result.Ok? <==>
          IsRewritableLine(line, from, RewritingOf(playlist, draws), playlist.lifetime in old(contexts.ended))
      ensures result.Ok? ==>
                && IsRewritten(line, cut, locals, result.value, from, RewritingOf(playlist, draws), issued)
                && next == from + |cut.refs|
                && HasRewritten(old(Now()), playlist.lifetime in old(contexts.ended), Now(), contexts.ended, cut.refs,
                   from, RewritingOf(playlist, draws), Limit())
      ensures result == Err(Unclosed) ==> KindOf(line) == Tag && IsUnclosedLine(line)
      ensures result.Err? ==> result.error != NoHeader
    {
      hide Trim, Indent, IsLineCut, Weave, IsAttributeCut, IsUnclosedLine, CanRewrite, AreIssuedFor, Extends;
      hide HasRewritten, IsAccepted;
      hide IsRewritableTag, IsRewritableLine, IsIssuedFor;
      var trimmed := Trim(line);
      ghost var rw, ended0 := RewritingOf(playlist, draws), playlist.lifetime in contexts.ended;
      next, cut, locals := from, Cut([line], []), [];
      NoneIssued(from, rw, issued);
      ExtendsSelf(issued);
      if trimmed == "" || HEADER <= trimmed {
        WholeLine(line);
        NoneAccepted(from, rw, ended0);
        RewritableBy(line, cut, from, rw, ended0);
        RewrittenNone(Now(), contexts.ended, from, rw, Limit());
        return Ok(line), next, cut, locals;
      }
      if "#" <= trimmed {
        result, next, cut, locals := RewriteHlsAttributes(line, playlist, draws, from);
        TagIsLine(line, from, rw, ended0);
        TagLine(line, cut);
        return result, next, cut, locals;
      }
      TrimmedStarts(line);
      LocationIsLine(line, from, rw, ended0);
      var start := Index(line, trimmed).value;
      var local := WrapHlsReference(trimmed, playlist, draws, from);
      next := from + 1;
      if local.Err? {
        return Err(local.error), next, cut, locals;
      }
      cut, locals := LocationCut(line), [local.value];
      LocationLine(line, local.value);
      OneMoreIssued([], [], trimmed, local.value, from, rw, old(issued), issued);
      return Ok(line[..start] + local.value + line[start + |trimmed|..]), next, cut, locals;
    }

    /** `rewriteHLSManifest` */
    method RewriteHlsManifest(body: string, playlist: Playlist, draws: nat -> Draw)
      returns (result: Result<string, ProxyError>, ghost cuts: seq<Cut>, ghost locals: seq<seq<string>>)
      requires CanRewrite(playlist, draws, 0)
      modifies this`sessions, this`issued, contexts`ended
      ensures Valid() && IssuesTo(playlist.lifetime)
      ensures result.Ok? <==>
                && HEADER <= Trim(body)
                && IsRewritable(SplitAfter(body, '\n'), RewritingOf(playlist, draws),
                   playlist.lifetime in old(contexts.ended))
      ensures result.Ok? ==>
                && AreRewritten(SplitAfter(body, '\n'), cuts, locals, result.value, RewritingOf(playlist, draws),
                   issued)
                && PlaylistLeadsTo(cuts, locals, playlist, draws, localBaseUrl, rules, issued)
                && IsManifestCut(SplitAfter(result.value, '\n'), Replaced(cuts, locals))
                && HasRewritten(old(Now()), playlist.lifetime in old(contexts.ended), Now(), contexts.ended,
                   AllRefs(cuts), 0, RewritingOf(playlist, draws), Limit())
      ensures result == Err(NoHeader) <==> !(HEADER <= Trim(body))
      ensures result == Err(Unclosed) ==>
          exists line :: line in SplitAfter(body, '\n') && KindOf(line) == Tag && IsUnclosedLine(line)
    {
      hide Trim, KindOf, IsUnclosedLine, ManifestSoFar, AreRewritten, AllRefs, HasRewritten, IsRewritable, CanRewrite;
      hide Valid, PlaylistLeadsTo, IsManifestCut, Replaced;
      cuts, locals := [], [];
      ghost var ended0 := playlist.lifetime in contexts.ended;
      CanRewriteSays(playlist, draws, 0);
      ExtendsSelf(issued);
      if !(HEADER <= Trim(body)) {
        return Err(NoHeader), cuts, locals;
      }
      var lines, rewritten, next := SplitAfter(body, '\n'), "", 0;
      ManifestStarts(playlist, draws);
      assert lines[..0] == [];
      for i := 0 to |lines|
        invariant ManifestSoFar(lines[..i], cuts, locals, rewritten, playlist, draws, next, old(Now()), ended0)
        invariant old(contexts.ended) <= contexts.ended <= old(contexts.ended) + {playlist.lifetime}
      {
        var updated;
        ghost var cut, lineLocals;
        updated, next, cut, lineLocals :=
          RewriteOneLine(lines, i, playlist, draws, next, cuts, locals, rewritten, old(Now()), ended0);
        if updated.Err? {
          CanRewriteSays(playlist, draws, next);
          return Err(updated.error), cuts, locals;
        }
        rewritten, cuts, locals := rewritten + updated.value, cuts + [cut], locals + [lineLocals];
      }
      assert lines[..|lines|] == lines;
      ManifestSays(lines, cuts, locals, rewritten, playlist, draws, next, old(Now()), ended0);
      CanRewriteSays(playlist, draws, next);
      AllRewritable(lines, cuts, locals, rewritten, RewritingOf(playlist, draws), ended0, issued);
      ManifestLeads(body, cuts, locals, rewritten, playlist, draws);
      return Ok(rewritten), cuts, locals;
    }

    lemma ManifestLeads(
      body: string, cuts: seq<Cut>, locals: seq<seq<string>>, written: string, playlist: Playlist, draws: nat -> Draw)
      requires Valid()
      requires AreRewritten(SplitAfter(body, '\n'), cuts, locals, written, RewritingOf(playlist, draws), issued)
      ensures PlaylistLeadsTo(cuts, locals, playlist, draws, localBaseUrl, rules, issued)
      ensures IsManifestCut(SplitAfter(written, '\n'), Replaced(cuts, locals))
    {
      hide AreRewritten, PlaylistLeadsTo, IsManifestCut, OnlyFrom, AreTokens, IsPlain;
      RewrittenPlaylistLeads(SplitAfter(body, '\n'), cuts, locals, written, RewritingOf(playlist, draws), issued);
      PlayerReadsIssued(body, cuts, locals, written, RewritingOf(playlist, draws), issued);
    }

    /** Since `start`, these lines of a playlist were rewritten. */
    ghost predicate ManifestSoFar(
      lines: seq<string>, cuts: seq<Cut>, locals: seq<seq<string>>, written: string, playlist: Playlist,
      draws: nat -> Draw, next: nat, start: Moment, ended0: bool)
      reads this, contexts
    {
      && CanRewrite(playlist, draws, next) && next == |AllRefs(cuts)| && Extends(start.issued, issued)
      && OnlyFrom(start.sessions, start.issued)
      && AreRewritten(lines, cuts, locals, written, RewritingOf(playlist, draws), issued)
      && AreAccepted(AllRefs(cuts), 0, RewritingOf(playlist, draws), ended0)
      && HasRewritten(start, ended0, Now(), contexts.ended, AllRefs(cuts), 0, RewritingOf(playlist, draws), Limit())
    }

    lemma ManifestStarts(playlist: Playlist, draws: nat -> Draw)
      requires CanRewrite(playlist, draws, 0)
      ensures ManifestSoFar([], [], [], "", playlist, draws, 0, Now(), playlist.lifetime in contexts.ended)
    {
      hide HasRewritten, AreAccepted, AreRewritten, AllRefs;
      var rw := RewritingOf(playlist, draws);
      NoLineRewritten(rw, issued);
      NoRefs();
      NoneAccepted(0, rw, playlist.lifetime in contexts.ended);
      RewrittenNone(Now(), contexts.ended, 0, rw, Limit());
      CanRewriteSays(playlist, draws, 0);
      ExtendsSelf(issued);
    }

    lemma ManifestSays(
      lines: seq<string>, cuts: seq<Cut>, locals: seq<seq<string>>, written: string, playlist: Playlist,
      draws: nat -> Draw, next: nat, start: Moment, ended0: bool)
      requires ManifestSoFar(lines, cuts, locals, written, playlist, draws, next, start, ended0)
      ensures CanRewrite(playlist, draws, next) && Extends(start.issued, issued)
      ensures AreRewritten(lines, cuts, locals, written, RewritingOf(playlist, draws), issued)
      ensures AreAccepted(AllRefs(cuts), 0, RewritingOf(playlist, draws), ended0)
      ensures HasRewritten(start, ended0, Now(), contexts.ended, AllRefs(cuts), 0, RewritingOf(playlist, draws),
          Limit())
    {
    }

    /** One round of the loop over the lines. */
    method RewriteOneLine(
      lines: seq<string>, i: nat, playlist: Playlist, draws: nat -> Draw, from: nat, ghost cuts: seq<Cut>,
      ghost locals: seq<seq<string>>, ghost written: string, ghost start: Moment, ghost ended0: bool)
      returns (updated: Result<string, ProxyError>, next: nat, ghost cut: Cut, ghost lineLocals: seq<string>)
      requires i < |lines| && ManifestSoFar(lines[..i], cuts, locals, written, playlist, draws, from, start, ended0)
      modifies this`sessions, this`issued, contexts`ended
      ensures old(contexts.ended) <= contexts.ended <= old(contexts.ended) + {playlist.lifetime}
      ensures CanRewrite(playlist, draws, next) && Extends(start.issued, issued)
      ensures updated.Ok? ==>
                ManifestSoFar(lines[..i + 1], cuts + [cut], locals + [lineLocals], written + updated.value, playlist,
                  draws, next, start, ended0)
      ensures updated.Err? ==> !IsRewritable(lines, RewritingOf(playlist, draws), ended0) && updated.error != NoHeader
      ensures updated == Err(Unclosed) ==> KindOf(lines[i]) == Tag && IsUnclosedLine(lines[i])
    {
      hide KindOf, AreRewritten, IsRewritten, IsUnclosedLine, Extends, HasRewritten, AllRefs, AreAccepted, IsRewritable;
      hide IsRewritableLine;
      hide OnlyFrom, CanRewrite, Ends;
      ghost var rw, before, ended := RewritingOf(playlist, draws), Now(), contexts.ended;
      ManifestIsCut(lines[..i], cuts, locals, written, rw, issued);
      CanRewriteSays(playlist, draws, from);
      EndsSoFar(start, ended0, before, ended, AllRefs(cuts), 0, rw, Limit());
      updated, next, cut, lineLocals := RewriteHlsLine(lines[i], playlist, draws, from);
      ExtendsOn(start.issued, before.issued, issued);
      if updated.Err? {
        RefusedLine(lines, i, cuts, rw, ended0);
        return;
      }
      assert lines[..i + 1] == lines[..i] + [lines[i]];
      LineAccepted(lines[i], cut, lineLocals, updated.value, AllRefs(cuts), rw, ended0, issued);
      OneMoreLine(lines[..i], cuts, locals, written, lines[i], cut, lineLocals, updated.value, rw, before.issued,
        issued);
      RewrittenMore(start, ended0, before, ended, Now(), contexts.ended, AllRefs(cuts), cut.refs, 0, rw, Limit());
    }

    /**
    What `ServeHTTP` does for the path of a GET request, given the body that would be fetched with success: a path that
    names a session found in the table leads to the target and headers of that session; a playlist is rewritten under
    the lifetime, headers and expiry of its own session, and a player that reads it finds the URLs issued in it.
    */
    method Serve(path: string, now: int, body: string, draws: nat -> Draw)
      returns (response: Response, ghost cuts: seq<Cut>, ghost locals: seq<seq<string>>)
      requires Valid() && AreFresh(draws, 0, issued.Keys) && IsOrdered(draws)
      modifies this`sessions, this`issued, contexts`ended
      ensures Valid() && Extends(old(issued), issued)
      ensures response != NotFound <==>
                && MediaToken(path).Some? && MediaToken(path).value in old(sessions)
                && now < old(sessions)[MediaToken(path).value].expiresAt
                && old(sessions)[MediaToken(path).value].lifetime !in old(contexts.ended)
      ensures response != NotFound ==>
                var session := old(sessions)[MediaToken(path).value];
                var rw := RewritingOf(PlaylistOf(session), draws);
                && (response.Media? <==> !session.isHls)
                && (response.Media? ==>
                      && response == Media(session.target, session.headers)
                      && sessions.Keys == old(sessions).Keys && OnlyFrom(sessions, old(sessions)))
                && (response.Manifest? <==>
                      && session.isHls && HEADER <= Trim(body)
                      && IsRewritable(SplitAfter(body, '\n'), rw, false))
                && (response.Manifest? ==>
                      && AreRewritten(SplitAfter(body, '\n'), cuts, locals, response.text, rw, issued)
                      && PlaylistLeadsTo(
                           cuts, locals, Playlist(session.target, session.headers, session.expiresAt, session.lifetime),
                           draws, localBaseUrl, rules, issued)
                      && IsManifestCut(SplitAfter(response.text, '\n'), Replaced(cuts, locals))
                      && HasRewritten(old(Now()), false, Now(), contexts.ended, AllRefs(cuts), 0, rw, Limit()))
    {
      hide AreSuperseded, AreOfPlan, OnlyFrom, AreTokens, IsPlain, AreFresh, AreRewritten, Extends, IsRewritable;
      hide HasRewritten, Trim, IsOrdered, AllRefs, MediaToken, PlaylistLeadsTo, IsManifestCut, Replaced, SameSession;
      cuts, locals := [], [];
      ExtendsSelf(issued);
      var token := MediaToken(path);
      if token.None? {
        return NotFound, cuts, locals;
      }
      var session := Lookup(token.value, now);
      if session.None? {
        return NotFound, cuts, locals;
      }
      var first := MarkSessionObserved(token.value);
      if !session.value.isHls {
        StillThere(old(sessions), contexts.ended, now, token.value);
        return Media(session.value.target, session.value.headers), cuts, locals;
      }
      var result;
      ghost var found := Now();
      result, cuts, locals := RewriteHlsManifest(body, PlaylistOf(session.value), draws);
      if result.Err? {
        return BadManifest, cuts, locals;
      }
      RewrittenAlike(old(Now()), found, false, Now(), contexts.ended, AllRefs(cuts), 0,
                     RewritingOf(PlaylistOf(session.value), draws), Limit());
      return Manifest(result.value), cuts, locals;
    }

    /** A staged proxy that has wrapped `done` into `locals`. */
    ghost predicate Stages(before: Table, done: seq<Stream>, locals: seq<Stream>, staging: Staging)
      reads this, contexts
    {
      ValidTable() && IsStaging(sessions, issued, contexts.ended, before, done, locals, staging, localBaseUrl, rules)
    }

    /** One `wrapStream` of `wrapPlan`: draw `index` serves resource `index`. */
    method StageOne(
      stream: Stream, index: nat, staging: Staging, ghost before: Table, ghost done: seq<Stream>,
      ghost locals: seq<Stream>)
      returns (result: Result<Stream, ProxyError>)
      requires Stages(before, done, locals, staging) && |done| == index < Limit()
      requires AreBounded([stream], staging, rules)
      modifies this`sessions, this`issued, contexts`ended
      ensures old(contexts.ended) <= contexts.ended <= old(contexts.ended) + {staging.lifetime}
      ensures result.Ok? ==>
          Stages(before, done + [stream], locals + [result.value], staging) && IsPlayable(result.value)
      ensures result.Ok? <==> IsStageable(done + [stream], staging, rules)
    {
      hide IsStaging, ValidTable, AreBounded, IsInserted, IsStageable, OnlyFrom;
      StagedFacts(sessions, issued, contexts.ended, before, done, locals, staging, localBaseUrl, rules);
      StageableMore(done, stream, staging, rules);
      var draw := staging.draws(index);
      FromIssued();
      BaseIsPlain();
      result := WrapStream(staging.lifetime, stream, staging.expiry, draw);
      if result.Ok? {
        EndsWithPlan(stream, index, [stream], staging, rules);
        LocalIsPlayable(stream, draw, localBaseUrl, rules);
        StagesOneMore(old(sessions), sessions, old(issued), old(contexts.ended), contexts.ended, before, done, locals,
          stream, staging, localBaseUrl, rules, Limit());
      }
    }

    lemma StagesStageable(before: Table, done: seq<Stream>, locals: seq<Stream>, staging: Staging)
      requires Stages(before, done, locals, staging)
      ensures IsStageable(done, staging, rules)
    {
      hide IsStaging, ValidTable, IsStageable;
      StagedFacts(sessions, issued, contexts.ended, before, done, locals, staging, localBaseUrl, rules);
    }

    lemma BaseIsPlain()
      requires ValidTable()
      ensures localBaseUrl == "" || IsPlain(localBaseUrl)
    {
    }

    /** The variants of `wrapPlan`. */
    method StageVariants(
      variants: seq<Variant>, from: nat, staging: Staging, ghost before: Table, ghost done: seq<Stream>,
      ghost locals: seq<Stream>)
      returns (result: Result<seq<Variant>, ProxyError>)
      requires Stages(before, done, locals, staging) && |done| == from && from + |variants| <= Limit()
      requires AreBounded(VariantStreams(variants), staging, rules)
      modifies this`sessions, this`issued, contexts`ended
      ensures old(contexts.ended) <= contexts.ended <= old(contexts.ended) + {staging.lifetime}
      ensures result.Ok? ==>
                && SameVariants(variants, result.value)
                && Stages(before, done + VariantStreams(variants), locals + VariantStreams(result.value), staging)
      ensures result.Ok? <==> IsStageable(done + VariantStreams(variants), staging, rules)
    {
      hide Stages, AreBounded, IsStageable;
      var wrapped: seq<Variant> := [];
      assert done + VariantStreams(variants[..0]) == done && locals + VariantStreams([]) == locals;
      for i := 0 to |variants|
        invariant SameVariants(variants[..i], wrapped)
        invariant old(contexts.ended) <= contexts.ended <= old(contexts.ended) + {staging.lifetime}
        invariant Stages(before, done + VariantStreams(variants[..i]), locals + VariantStreams(wrapped), staging)
      {
        BoundedOne(VariantStreams(variants), staging, rules, i);
        var stream := StageOne(variants[i].stream, from + i, staging, before,
          done + VariantStreams(variants[..i]), locals + VariantStreams(wrapped));
        OneMoreVariant(done, variants[..i], variants[i]);
        assert variants[..i + 1] == variants[..i] + [variants[i]];
        if stream.Err? {
          assert VariantStreams(variants) == VariantStreams(variants[..i + 1]) + VariantStreams(variants[i + 1..]);
          assert done + VariantStreams(variants)
            == done + VariantStreams(variants[..i + 1]) + VariantStreams(variants[i + 1..]);
          if IsStageable(done + VariantStreams(variants), staging, rules) {
            StageableFront(done + VariantStreams(variants[..i + 1]), VariantStreams(variants[i + 1..]), staging, rules);
          }
          return Err(stream.error);
        }
        OneMoreVariant(locals, wrapped, variants[i].(stream := stream.value));
        wrapped := wrapped + [variants[i].(stream := stream.value)];
      }
      assert variants[..|variants|] == variants;
      StagesStageable(before, done + VariantStreams(variants), locals + VariantStreams(wrapped), staging);
      return Ok(wrapped);
    }

    /** The subtitles of `wrapPlan`; those without a URL are left alone. */
    method StageSubtitles(
      subtitles: seq<Subtitle>, from: nat, staging: Staging, ghost before: Table, ghost done: seq<Stream>,
      ghost locals: seq<Stream>)
      returns (result: Result<seq<Subtitle>, ProxyError>)
      requires Stages(before, done, locals, staging) && |done| == from && from + |SubtitleStreams(subtitles)| <= Limit()
      requires AreBounded(SubtitleStreams(subtitles), staging, rules)
      modifies this`sessions, this`issued, contexts`ended
      ensures old(contexts.ended) <= contexts.ended <= old(contexts.ended) + {staging.lifetime}
      ensures result.Ok? ==>
                && SameSubtitles(subtitles, result.value)
                && Stages(before, done + SubtitleStreams(subtitles), locals + SubtitleStreams(result.value), staging)
      ensures result.Ok? <==> IsStageable(done + SubtitleStreams(subtitles), staging, rules)
    {
      hide Stages, AreBounded, IsStageable, Trim, SubtitleStreams;
      var wrapped: seq<Subtitle> := [];
      var index := from;
      NoSubtitleStreams();
      assert subtitles[..0] == [] && done + [] == done && locals + [] == locals;
      for i := 0 to |subtitles|
        invariant SameSubtitles(subtitles[..i], wrapped)
        invariant old(contexts.ended) <= contexts.ended <= old(contexts.ended) + {staging.lifetime}
        invariant index == from + |SubtitleStreams(subtitles[..i])|
        invariant Stages(before, done + SubtitleStreams(subtitles[..i]), locals + SubtitleStreams(wrapped), staging)
      {
        assert subtitles[..i + 1] == subtitles[..i] + [subtitles[i]];
        OneMoreSubtitle(done, subtitles[..i], subtitles[i]);
        SubtitlesSplit(done, subtitles, i);
        if Trim(subtitles[i].url) == "" {
          OneMoreSubtitle(locals, wrapped, subtitles[i]);
          NothingMore(done + SubtitleStreams(subtitles[..i]));
          NothingMore(locals + SubtitleStreams(wrapped));
          wrapped := wrapped + [subtitles[i]];
          continue;
        }
        BoundedOne(SubtitleStreams(subtitles), staging, rules, index - from);
        var stream := StageOne(Stream(subtitles[i].url, map[]), index, staging, before,
          done + SubtitleStreams(subtitles[..i]), locals + SubtitleStreams(wrapped));
        if stream.Err? {
          if IsStageable(done + SubtitleStreams(subtitles), staging, rules) {
            StageableFront(done + SubtitleStreams(subtitles[..i + 1]), SubtitleStreams(subtitles[i + 1..]), staging,
              rules);
          }
          return Err(stream.error);
        }
        index := index + 1;
        OneMoreSubtitle(locals, wrapped, subtitles[i].(url := stream.value.url));
        wrapped := wrapped + [subtitles[i].(url := stream.value.url)];
      }
      assert subtitles[..|subtitles|] == subtitles;
      StagesStageable(before, done + SubtitleStreams(subtitles), locals + SubtitleStreams(wrapped), staging);
      return Ok(wrapped);
    }

    /** An optional stream of `wrapPlan`. */
    method StageOptional(
      stream: Option<Stream>, index: nat, staging: Staging, ghost before: Table, ghost done: seq<Stream>,
      ghost locals: seq<Stream>)
      returns (result: Result<Option<Stream>, ProxyError>)
      requires Stages(before, done, locals, staging) && |done| == index && index + |Optional(stream)| <= Limit()
      requires AreBounded(Optional(stream), staging, rules)
      modifies this`sessions, this`issued, contexts`ended
      ensures old(contexts.ended) <= contexts.ended <= old(contexts.ended) + {staging.lifetime}
      ensures result.Ok? ==>
                && (result.value.Some? <==> stream.Some?)
                && Stages(before, done + Optional(stream), locals + Optional(result.value), staging)
      ensures result.Ok? <==> IsStageable(done + Optional(stream), staging, rules)
    {
      hide Stages, AreBounded, IsStageable;
      if stream.None? {
        StagesStageable(before, done, locals, staging);
        NothingMore(done);
        NothingMore(locals);
        return Ok(None);
      }
      var local := StageOne(stream.value, index, staging, before, done, locals);
      if local.Err? {
        return Err(local.error);
      }
      return Ok(Some(local.value));
    }

    /** `wrapPlan`, on a staged proxy that holds nothing yet. */
    method StagePlan(plan: Plan, staging: Staging, ghost before: Table) returns (result: Result<Plan, ProxyError>)
      requires Stages(before, [], [], staging) && |Resources(plan)| <= Limit()
      requires AreBounded(Resources(plan), staging, rules)
      modifies this`sessions, this`issued, contexts`ended
      ensures old(contexts.ended) <= contexts.ended <= old(contexts.ended) + {staging.lifetime}
      ensures result.Ok? ==>
          SameShape(plan, result.value) && Stages(before, Resources(plan), Resources(result.value), staging)
      ensures result.Ok? <==> IsStageable(Resources(plan), staging, rules)
    {
      hide Stages, AreBounded, IsStageable, Resources, Streams, SubtitleStreams, VariantStreams, SameVariants;
      hide SameSubtitles;
      ghost var parts := Parts(plan);
      PartsMakeUp(plan, staging, rules);
      NothingMore([plan.primary]);
      var primary := StageOne(plan.primary, 0, staging, before, [], []);
      if primary.Err? {
        return Err(primary.error);
      }
      NothingMore([primary.value]);
      ghost var locals := [primary.value];
      var audio := StageOptional(plan.audio, 1, staging, before, parts.primary, locals);
      if audio.Err? {
        return Err(audio.error);
      }
      locals := locals + Optional(audio.value);
      var index := 1 + |Optional(plan.audio)|;
      var audioOnly := StageOptional(plan.audioOnly, index, staging, before, parts.withAudio, locals);
      if audioOnly.Err? {
        return Err(audioOnly.error);
      }
      locals := locals + Optional(audioOnly.value);
      index := index + |Optional(plan.audioOnly)|;
      var variants := StageVariants(plan.variants, index, staging, before, parts.withAudioOnly, locals);
      if variants.Err? {
        return Err(variants.error);
      }
      locals := locals + VariantStreams(variants.value);
      index := index + |plan.variants|;
      var subtitles := StageSubtitles(plan.subtitles, index, staging, before, parts.withVariants, locals);
      if subtitles.Err? {
        return Err(subtitles.error);
      }
      var wrapped := plan.(primary := primary.value, audio := audio.value, audioOnly := audioOnly.value,
                           variants := variants.value, subtitles := subtitles.value);
      PartsAreResources(wrapped);
      return Ok(wrapped);
    }

    /**
    `WrapPlan`: `endedBefore` and `endedAfter` say whether the request had ended when the call began and when
    the plan was staged; `now` and `draws` are the clock readings and tokens it meets.
    */
    method WrapPlan(plan: Plan, endedBefore: bool, now: int, draws: nat -> Draw, endedAfter: bool)
      returns (result: Result<Plan, ProxyError>)
      requires Valid() && ClockRuns(now, draws) && AreFresh(draws, 0, issued.Keys)
      modifies this`sessions, this`cancelPlan, this`issued, this`committed, contexts
      ensures Valid() && Extends(old(issued), issued) && old(contexts.ended) <= contexts.ended
      ensures result.Err? ==> sessions == old(sessions) && cancelPlan == old(cancelPlan) && committed == old(committed)
      ensures !endedBefore && plan.mode != ResolvedMedia ==>
                && result == Ok(plan) && sessions == map[] && cancelPlan == None
                && (old(cancelPlan).Some? ==> old(cancelPlan).value in contexts.ended)
      ensures plan.mode == ResolvedMedia ==>
                var expiry := PlanExpiry(plan, now, rules);
                var staging := Staging(old(contexts.next), expiry, draws);
                && (result.Ok? <==>
                      && !endedBefore && !endedAfter && now < expiry && |CountedUrls(plan)| <= Limit()
                      && IsStageable(Resources(plan), staging, rules))
                && (result.Ok? ==>
                      && cancelPlan == Some(staging.lifetime) && committed == old(committed)[staging.lifetime := expiry]
                      && (old(cancelPlan).Some? ==> old(cancelPlan).value in contexts.ended)
                      && SameShape(plan.(expiresAt := Some(expiry)), result.value)
                      && AreLocal(Resources(plan), Resources(result.value), draws, localBaseUrl, rules)
                      && IsStagedTable(sessions, contexts.ended, Resources(plan), staging, rules)
                      && AreNamed(Resources(result.value), draws, localBaseUrl)
                      && (!LastIsLate(Resources(plan), staging) || |Resources(plan)| == 1 ==>
                            PlanLeadsTo(
                              result.value, plan, sessions, localBaseUrl, expiry, staging.lifetime, rules)))
      ensures endedBefore ==> result.Err?
    {
      hide AreSuperseded, AreWithinPlans, AreOfPlan, OnlyFrom, AreTokens, IsPlain, AreFresh, IsStagedTable, AreLocal;
      hide IsStageable, SameShape, AreNamed, PlanLeadsTo, LastIsLate;
      hide Resources, CountedUrls, Extends, PlanExpiry, IsStaging, ClockRuns, AreBounded;
      ExtendsSelf(issued);
      if endedBefore {
        return Err(RequestEnded);
      }
      if plan.mode != ResolvedMedia {
        Revoke();
        return Ok(plan);
      }
      ResourcesAreCounted(plan);
      NewLifetime(committed, cancelPlan, contexts.ended, contexts.next);
      var urls := CountedUrls(plan);
      if |urls| > Limit() {
        return Err(TooManyResources);
      }
      var expiresAt := LeastExpiry(plan, urls, now);
      if expiresAt <= now {
        return Err(Expired);
      }
      var staging := Staging(contexts.next, expiresAt, draws);
      contexts.next := contexts.next + 1;
      var staged := new MediaProxy.Staged(this, staging);
      PlanIsBounded(plan, now, staging, rules);
      var wrapped := staged.StagePlan(plan.(expiresAt := Some(expiresAt)), staging, issued);
      if wrapped.Err? || endedAfter {
        contexts.ended := contexts.ended + {staging.lifetime};
        FailedIsSuperseded(committed, cancelPlan, old(contexts.ended), contexts.ended, staging.lifetime);
        return Err(if wrapped.Err? then wrapped.error else RequestEnded);
      }
      Commit(staged, staging, old(contexts.ended), Resources(plan), Resources(wrapped.value));
      StagedPlanLeads(sessions, contexts.ended, plan, wrapped.value, staging, localBaseUrl, rules, old(issued.Keys));
      return Ok(wrapped.value);
    }

    /**
    The last section of `WrapPlan` under the mutex: the staged table replaces the old one, whose plan is cancelled.
    */
    method Commit(
      staged: MediaProxy, staging: Staging, ghost ended0: set<nat>, ghost done: seq<Stream>,
      ghost locals: seq<Stream>)
      requires ValidTable() && AreWithinPlans(issued, committed)
      requires AreSuperseded(committed, cancelPlan, ended0, staging.lifetime) && contexts.next == staging.lifetime + 1
      requires ended0 <= contexts.ended <= ended0 + {staging.lifetime}
      requires staged.contexts == contexts && staged.rules == rules && staged.Limit() == Limit()
      requires staged.localBaseUrl == localBaseUrl
      requires staged.Stages(issued, done, locals, staging)
      modifies this`sessions, this`cancelPlan, this`issued, this`committed, contexts`ended
      ensures Valid() && Extends(old(issued), issued) && old(contexts.ended) <= contexts.ended
      ensures cancelPlan == Some(staging.lifetime) && committed == old(committed)[staging.lifetime := staging.expiry]
      ensures old(cancelPlan).Some? ==> old(cancelPlan).value in contexts.ended
      ensures AreLocal(done, locals, staging.draws, localBaseUrl, rules)
      ensures IsStagedTable(sessions, contexts.ended, done, staging, rules)
    {
      hide AreSuperseded, AreWithinPlans, AreOfPlan, OnlyFrom, AreTokens, IsPlain, AreFresh, IsStagedTable, AreLocal;
      hide IssuedHere;
      assert staged.ValidTable()
        && IsStaging(staged.sessions, staged.issued, contexts.ended, issued, done, locals, staging, localBaseUrl,
           rules);
      CommitIsValid(staged.sessions, issued, staged.issued, ended0, contexts.ended, committed, cancelPlan, done,
        staging, rules);
      if cancelPlan.Some? {
        contexts.ended := contexts.ended + {cancelPlan.value};
      }
      sessions := staged.sessions;
      cancelPlan := Some(staging.lifetime);
      issued := staged.issued;
      committed := committed[staging.lifetime := staging.expiry];
    }

    /** The loop of `WrapPlan` over all URLs, and the plan's own expiry. */
    method LeastExpiry(plan: Plan, urls: seq<string>, now: int) returns (expiresAt: int)
      requires urls == CountedUrls(plan)
      ensures expiresAt == PlanExpiry(plan, now, rules)
    {
      hide CountedUrls;
      expiresAt := now + DEFAULT_TTL;
      for i := 0 to |urls|
        invariant Some(expiresAt) == EarliestExpiry(Some(now + DEFAULT_TTL), urls[..i], rules.expiry)
      {
        assert urls[..i + 1][..i] == urls[..i];
        var expiry := rules.expiry(urls[i]);
        if expiry.Some? && expiry.value < expiresAt {
          expiresAt := expiry.value;
        }
      }
      assert urls[..|urls|] == urls;
      if plan.expiresAt.Some? && plan.expiresAt.value < expiresAt {
        expiresAt := plan.expiresAt.value;
      }
    }

    lemma FromIssued()
      requires ValidTable()
      ensures OnlyFrom(sessions, issued)
    {
    }
  }

  /** URLs that are valid, never expire, and are no playlists. */
  function PlainRules(): UrlRules {
    UrlRules((url: string) => Some(url), (url: string) => None, (url: string) => false,
      (base: string, url: string) => Malformed)
  }

  function TokenOf(digit: char): (token: string)
    ensures |token| == TOKEN_LENGTH && forall i :: 0 <= i < |token| ==> token[i] == digit
  {
    seq(TOKEN_LENGTH, i => digit)
  }

  /** Two wraps at the same instant; the plan ends while the second is between its check and its pruning. */
  function LateDraw(i: nat): Draw {
    if i == 0 then Draw(0, Some(TokenOf('0')), false, false)
    else if i == 1 then Draw(0, Some(TokenOf('1')), false, true)
    else Draw(0, None, false, false)
  }

  const TWO_STREAMS := Plan(
    ResolvedMedia, "", Stream("video", map[]), Some(Stream("audio", map[])), None, [], [], "", None)

  lemma TwoStreamsAreStageable()
    ensures Resources(TWO_STREAMS) == [Stream("video", map[]), Stream("audio", map[])]
    ensures |CountedUrls(TWO_STREAMS)| == 2 && PlanExpiry(TWO_STREAMS, 0, PlainRules()) == DEFAULT_TTL
    ensures IsStageable(Resources(TWO_STREAMS), Staging(0, DEFAULT_TTL, LateDraw), PlainRules())
    ensures AreFresh(LateDraw, 0, {}) && ClockRuns(0, LateDraw)
    ensures LastIsLate(Resources(TWO_STREAMS), Staging(0, DEFAULT_TTL, LateDraw))
  {
    var video, audio := Stream("video", map[]), Stream("audio", map[]);
    NoSubtitleStreams();
    assert VariantStreams([]) == [];
    assert Streams(TWO_STREAMS) == [video, audio];
    assert Resources(TWO_STREAMS) == [video, audio];
    var urls := CountedUrls(TWO_STREAMS);
    assert |urls| == 2;
    NeverExpires(DEFAULT_TTL, urls);
    assert TokenOf('0')[0] == '0' && TokenOf('1')[0] == '1';
  }

  lemma {:induction false} NeverExpires(known: int, urls: seq<string>)
    ensures EarliestExpiry(Some(known), urls, PlainRules().expiry) == Some(known)
  {
    if urls != [] {
      NeverExpires(known, urls[..|urls| - 1]);
    }
  }

  /** A plan of two streams is wrapped with success, and the session of the first is not in the table. */
  method LateWrapLosesEarlier() returns (result: Result<Plan, ProxyError>, proxy: MediaProxy)
    ensures result.Ok? && fresh(proxy) && TokenOf('0') !in proxy.sessions && TokenOf('1') in proxy.sessions
  {
    hide Resources, CountedUrls, PlanExpiry, IsStageable, AreFresh, ClockRuns, SameShape, AreLocal, IsToken;
    var contexts := new Contexts();
    proxy := new MediaProxy(PlainRules(), 2, contexts, "");
    TwoStreamsAreStageable();
    result := proxy.WrapPlan(TWO_STREAMS, false, 0, LateDraw, false);
    assert TokenOf('0')[0] != TokenOf('1')[0];
  }
}
