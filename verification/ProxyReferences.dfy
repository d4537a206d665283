/**
What rewriting a playlist issues (`wrapHLSReference`, `rewriteHLSLine` and `rewriteHLSManifest` in
internal/playback/media_proxy.go): for each reference its own session, or the reference as it was.
*/
module ProxyReferences {
  import opened Wrappers
  import opened Text
  import opened Plans
  import opened Sequences
  import opened HlsManifest
  import opened ProxySessions
  import opened ProxyTokens

  /**
  What the rewriter is told about the playlist it rewrites: its URL, and the headers, expiry and lifetime of its
  session.
  */
  datatype Playlist = Playlist(url: string, headers: map<string, string>, expiresAt: int, lifetime: nat)

  function PlaylistOf(session: Session): Playlist {
    Playlist(session.target, session.headers, session.expiresAt, session.lifetime)
  }

  /**
  One rewriting: the playlist, the base of local URLs, the rules for URLs, and what the wraps meet; draw k serves
  reference k.
  */
  datatype Rewriting = Rewriting(playlist: Playlist, base: string, rules: UrlRules, draws: nat -> Draw)

  /** References that stay as they are: blank ones, local ones, and those of a foreign scheme. */
  predicate IsKept(value: string, base: string, rules: UrlRules) {
    value == "" || PATH_PREFIX <= value || rules.join(base, value).Foreign?
  }

  predicate IsReplaced(ref: string, rw: Rewriting) {
    !IsKept(Trim(ref), rw.playlist.url, rw.rules)
  }

  /**
  The session `wrapHLSReference` makes for reference k: for its target resolved against the playlist, unless it is
  refused.
  */
  function SessionFor(ref: string, k: nat, rw: Rewriting): (session: Option<Session>)
    ensures session.Some? ==>
              && rw.draws(k).token.Some? && session.value.expiresAt <= rw.playlist.expiresAt
              && session.value.lifetime == rw.playlist.lifetime
              && session.value.headers == Sanitize(rw.playlist.headers)
              && rw.rules.join(rw.playlist.url, Trim(ref)).Joined?
              && rw.rules.validate(rw.rules.join(rw.playlist.url, Trim(ref)).url) == Some(session.value.target)
  {
    match rw.rules.join(rw.playlist.url, Trim(ref))
    case Joined(url) =>
      NewSession(Stream(url, rw.playlist.headers), rw.playlist.expiresAt, rw.draws(k), rw.playlist.lifetime, rw.rules)
    case _ => None
  }

  /** Whether reference k can be rewritten; `ended` says whether the plan has ended before. */
  predicate IsAccepted(ref: string, k: nat, rw: Rewriting, ended: bool) {
    IsReplaced(ref, rw) ==> SessionFor(ref, k, rw).Some? && !ended && !rw.draws(k).lateBefore
  }

  /** Whether the plan ends while these references, from number `from` on, are rewritten. */
  function Ends(refs: seq<string>, from: nat, rw: Rewriting, ended: bool): bool {
    if refs == [] then ended
    else
      var n := |refs| - 1;
      Ends(refs[..n], from, rw, ended) || (IsReplaced(refs[n], rw) && rw.draws(from + n).lateDuring)
  }

  /** Whether all these references, from number `from` on, can be rewritten. */
  predicate AreAccepted(refs: seq<string>, from: nat, rw: Rewriting, ended: bool) {
    refs != [] ==>
      var n := |refs| - 1;
      && AreAccepted(refs[..n], from, rw, ended)
      && IsAccepted(refs[n], from + n, rw, Ends(refs[..n], from, rw, ended))
  }

  /** How many of the references are replaced. */
  function CountReplaced(refs: seq<string>, rw: Rewriting): nat {
    if refs == [] then 0 else CountReplaced(refs[..|refs| - 1], rw) + if IsReplaced(refs[|refs| - 1], rw) then 1 else 0
  }

  lemma OneMoreReference(refs: seq<string>, ref: string, from: nat, rw: Rewriting, ended: bool)
    ensures AreAccepted(refs + [ref], from, rw, ended) <==>
              AreAccepted(refs, from, rw, ended) && IsAccepted(ref, from + |refs|, rw, Ends(refs, from, rw, ended))
    ensures Ends(refs + [ref], from, rw, ended)
            == (Ends(refs, from, rw, ended) || (IsReplaced(ref, rw) && rw.draws(from + |refs|).lateDuring))
    ensures CountReplaced(refs + [ref], rw) == CountReplaced(refs, rw) + if IsReplaced(ref, rw) then 1 else 0
  {
    hide IsAccepted, IsReplaced;
    assert (refs + [ref])[..|refs|] == refs;
  }

  lemma {:induction false} MoreReferences(a: seq<string>, b: seq<string>, from: nat, rw: Rewriting, ended: bool)
    ensures AreAccepted(a + b, from, rw, ended) <==>
              AreAccepted(a, from, rw, ended) && AreAccepted(b, from + |a|, rw, Ends(a, from, rw, ended))
    ensures Ends(a + b, from, rw, ended) == Ends(b, from + |a|, rw, Ends(a, from, rw, ended))
    ensures CountReplaced(a + b, rw) == CountReplaced(a, rw) + CountReplaced(b, rw)
  {
    hide IsAccepted, IsReplaced;
    if b == [] {
      assert a + b == a;
    } else {
      var n := |b| - 1;
      assert (a + b)[..|a + b| - 1] == a + b[..n] && (a + b)[|a + b| - 1] == b[n];
      MoreReferences(a, b[..n], from, rw, ended);
    }
  }

  lemma FirstReferences(a: seq<string>, b: seq<string>, from: nat, rw: Rewriting, ended: bool)
    requires a <= b && AreAccepted(b, from, rw, ended)
    ensures AreAccepted(a, from, rw, ended)
  {
    assert b == a + b[|a|..];
    MoreReferences(a, b[|a|..], from, rw, ended);
  }

  /**
  What `wrapHLSReference` returns for reference k: the reference itself, or the local URL of the session made for
  it, which was issued under the token of draw k.
  */
  ghost predicate IsIssuedFor(ref: string, local: string, k: nat, rw: Rewriting, issued: Table) {
    if !IsReplaced(ref, rw) then local == ref
    else
      var session := SessionFor(ref, k, rw);
      && session.Some? && rw.draws(k).token.value in issued && issued[rw.draws(k).token.value] == session.value
      && local == LocalUrl(rw.base, rw.draws(k).token.value, session.value.isHls)
  }

  ghost predicate AreIssuedFor(refs: seq<string>, locals: seq<string>, from: nat, rw: Rewriting, issued: Table) {
    && |locals| == |refs|
    && forall k :: 0 <= k < |refs| ==> IsIssuedFor(refs[k], locals[k], from + k, rw, issued)
  }

  /** A replaced reference was issued the token of its draw, which is new. */
  lemma IssuedIsNew(
    refs: seq<string>, locals: seq<string>, from: nat, rw: Rewriting, issued: Table, before: set<string>, k: nat)
    requires AreIssuedFor(refs, locals, from, rw, issued) && AreFresh(rw.draws, 0, before)
    requires k < |refs| && IsReplaced(refs[k], rw)
    ensures rw.draws(from + k).token.Some? && rw.draws(from + k).token.value in issued
    ensures rw.draws(from + k).token.value !in before
    ensures issued[rw.draws(from + k).token.value].lifetime == rw.playlist.lifetime
    ensures Some(issued[rw.draws(from + k).token.value].target)
            == rw.rules.validate(rw.rules.join(rw.playlist.url, Trim(refs[k])).url)
  {
    hide IsReplaced, IsToken, Sanitize, Trim;
    assert IsIssuedFor(refs[k], locals[k], from + k, rw, issued);
  }

  /**
  From one moment to a later one, these references were rewritten: the plan ended in between exactly when a draw
  says so, and with room for all that were replaced nothing was lost.
  */
  ghost predicate HasRewritten(
    a: Moment, ended0: bool, b: Moment, ended: set<nat>, refs: seq<string>, from: nat, rw: Rewriting, limit: nat)
  {
    && (rw.playlist.lifetime in ended <==> Ends(refs, from, rw, ended0))
    && KeepsRoom(a, b, ended, rw.draws(from + |refs|).now, CountReplaced(refs, rw), limit)
  }

  /** Looking a session up and marking it, which come before a rewriting, do not matter. */
  lemma RewrittenAlike(
    a: Moment, found: Moment, ended0: bool, b: Moment, ended: set<nat>, refs: seq<string>, from: nat, rw: Rewriting,
    limit: nat)
    requires HasRewritten(found, ended0, b, ended, refs, from, rw, limit)
    requires a.sessions.Keys == found.sessions.Keys && a.issued == found.issued
    ensures HasRewritten(a, ended0, b, ended, refs, from, rw, limit)
  {
    hide Ends, CountReplaced;
    KeysSize(a.sessions);
    KeysSize(found.sessions);
  }

  lemma RewrittenNone(a: Moment, ended: set<nat>, from: nat, rw: Rewriting, limit: nat)
    ensures HasRewritten(a, rw.playlist.lifetime in ended, a, ended, [], from, rw, limit)
  {
    RoomForNone(a, ended, rw.draws(from).now, limit);
  }

  /** Keeping a reference changes nothing. */
  lemma RewrittenKept(a: Moment, ended: set<nat>, ref: string, from: nat, rw: Rewriting, limit: nat)
    requires !IsReplaced(ref, rw)
    ensures HasRewritten(a, rw.playlist.lifetime in ended, a, ended, [ref], from, rw, limit)
  {
    hide IsReplaced;
    OneMoreReference([], ref, from, rw, rw.playlist.lifetime in ended);
    assert [] + [ref] == [ref];
    RoomForNone(a, ended, rw.draws(from + 1).now, limit);
  }

  /** Replacing a reference inserts one session. */
  lemma RewrittenOne(
    before: Table, after: Table, issued: Table, ended: set<nat>, ended': set<nat>, ref: string, from: nat,
    rw: Rewriting, limit: nat)
    requires IsReplaced(ref, rw) && SessionFor(ref, from, rw).Some? && rw.draws(from).token.Some? && IsOrdered(rw.draws)
    requires var token, session := rw.draws(from).token.value, SessionFor(ref, from, rw).value;
             IsInserted(before, after, ended', rw.draws(from).now, limit, token, session) && OnlyFrom(before, issued)
               && token !in issued
    requires rw.playlist.lifetime in ended' <==> rw.playlist.lifetime in ended || rw.draws(from).lateDuring
    ensures var token, session := rw.draws(from).token.value, SessionFor(ref, from, rw).value;
            HasRewritten(Moment(before, issued), rw.playlist.lifetime in ended, Moment(after, issued[token := session]),
              ended', [ref], from, rw, limit)
  {
    hide IsReplaced, SessionFor, IsInserted, OnlyFrom, KeepsRoom;
    var token, session := rw.draws(from).token.value, SessionFor(ref, from, rw).value;
    OneMoreReference([], ref, from, rw, rw.playlist.lifetime in ended);
    assert [] + [ref] == [ref];
    RoomForOne(before, after, issued, ended', rw.draws(from).now, limit, token, session);
    RoomLater(Moment(before, issued), Moment(after, issued[token := session]), ended', ended', rw.draws(from).now,
      rw.draws(from + 1).now, 1, limit);
  }

  lemma RewrittenMore(
    a: Moment, ended0: bool, b: Moment, ended1: set<nat>, c: Moment, ended2: set<nat>, first: seq<string>,
    second: seq<string>, from: nat, rw: Rewriting, limit: nat)
    requires HasRewritten(a, ended0, b, ended1, first, from, rw, limit)
    requires HasRewritten(b, rw.playlist.lifetime in ended1, c, ended2, second, from + |first|, rw, limit)
    requires ended1 <= ended2 && Extends(a.issued, b.issued) && Extends(b.issued, c.issued)
    requires OnlyFrom(a.sessions, a.issued)
    requires IsOrdered(rw.draws)
    ensures HasRewritten(a, ended0, c, ended2, first + second, from, rw, limit)
  {
    hide KeepsRoom, Extends, OnlyFrom, Ends, CountReplaced;
    MoreReferences(first, second, from, rw, ended0);
    var n, m := from + |first|, from + |first| + |second|;
    assert |first + second| == |first| + |second|;
    RoomChain(a, b, c, ended1, ended2, rw.draws(n).now, rw.draws(m).now, CountReplaced(first, rw),
      CountReplaced(second, rw), limit);
  }

  /** What was issued stays issued. */
  lemma IssuedStays(refs: seq<string>, locals: seq<string>, from: nat, rw: Rewriting, issued: Table, issued': Table)
    requires AreIssuedFor(refs, locals, from, rw, issued) && Extends(issued, issued')
    ensures AreIssuedFor(refs, locals, from, rw, issued')
  {
    hide LocalUrl, IsReplaced, SessionFor;
    forall k | 0 <= k < |refs| ensures IsIssuedFor(refs[k], locals[k], from + k, rw, issued') {
      assert IsIssuedFor(refs[k], locals[k], from + k, rw, issued);
    }
  }

  /** A local URL is one plain word, so that a player reads it back whole. */
  lemma LocalUrlIsPlain(base: string, token: string, isHls: bool)
    requires (base == "" || IsPlain(base)) && IsToken(token)
    ensures IsPlain(LocalUrl(base, token, isHls)) && Trim(LocalUrl(base, token, isHls)) != ""
  {
    hide Trim;
    var url := LocalUrl(base, token, isHls);
    var suffix := if isHls then ".m3u8" else "";
    assert url == base + PATH_PREFIX + token + suffix;
    forall i | 0 <= i < |url| ensures !IsSpace(url[i]) && !IsQuote(url[i]) {
      if i < |base| {
        assert url[i] == base[i];
      } else if i < |base| + |PATH_PREFIX| {
        assert url[i] == PATH_PREFIX[i - |base|];
      } else if i < |base| + |PATH_PREFIX| + |token| {
        assert url[i] == token[i - |base| - |PATH_PREFIX|];
      } else {
        assert url[i] == suffix[i - |base| - |PATH_PREFIX| - |token|];
      }
    }
    assert url[0] == if base == "" then '/' else base[0];
    TrimKeeps(url);
  }

  /** The replacements of issued references are plain, so the rewritten text reads back. */
  lemma IssuedArePlain(refs: seq<string>, locals: seq<string>, from: nat, rw: Rewriting, issued: Table)
    requires AreIssuedFor(refs, locals, from, rw, issued) && (rw.base == "" || IsPlain(rw.base)) && AreTokens(issued)
    ensures ArePlain(refs, locals)
  {
    hide LocalUrl, IsToken, IsPlain, IsReplaced, SessionFor;
    forall k | 0 <= k < |refs| ensures locals[k] == refs[k] || IsPlain(locals[k]) {
      assert IsIssuedFor(refs[k], locals[k], from + k, rw, issued);
      if IsReplaced(refs[k], rw) {
        LocalUrlIsPlain(rw.base, rw.draws(from + k).token.value, SessionFor(refs[k], from + k, rw).value.isHls);
      }
    }
  }

  /** The line was cut into its references, each was issued for, and `written` has the issued URLs in their places. */
  ghost predicate IsRewritten(
    line: string, cut: Cut, locals: seq<string>, written: string, from: nat, rw: Rewriting, issued: Table) {
    IsLineCut(line, cut) && AreIssuedFor(cut.refs, locals, from, rw, issued) && written == Weave(cut.texts, locals)
  }

  function RefsOf(cut: Cut): seq<string> {
    cut.refs
  }

  /** All references of a playlist, in order. */
  function AllRefs(cuts: seq<Cut>): seq<string> {
    FlatMap(RefsOf, cuts)
  }

  /** The number of the first reference of line i. */
  function NumberAt(cuts: seq<Cut>, i: nat): nat
    requires i <= |cuts|
  {
    |AllRefs(cuts[..i])|
  }

  /** Every line was rewritten, and `written` is all of them in order; references are numbered through the playlist. */
  ghost predicate AreRewritten(
    lines: seq<string>, cuts: seq<Cut>, locals: seq<seq<string>>, written: string, rw: Rewriting, issued: Table)
  {
    && IsManifestCut(lines, cuts) && Fit(cuts, locals) && written == Concat(Woven(cuts, locals))
    && forall i :: 0 <= i < |cuts| ==> AreIssuedFor(cuts[i].refs, locals[i], NumberAt(cuts, i), rw, issued)
  }

  lemma NoLineRewritten(rw: Rewriting, issued: Table)
    ensures AreRewritten([], [], [], "", rw, issued)
  {
  }

  lemma OneMoreLine(
    lines: seq<string>, cuts: seq<Cut>, locals: seq<seq<string>>, written: string, line: string, cut: Cut,
    lineLocals: seq<string>, lineWritten: string, rw: Rewriting, issued: Table, issued': Table)
    requires AreRewritten(lines, cuts, locals, written, rw, issued) && Extends(issued, issued')
    requires IsRewritten(line, cut, lineLocals, lineWritten, |AllRefs(cuts)|, rw, issued')
    ensures AreRewritten(lines + [line], cuts + [cut], locals + [lineLocals], written + lineWritten, rw, issued')
    ensures AllRefs(cuts + [cut]) == AllRefs(cuts) + cut.refs
  {
    hide AreIssuedFor, Extends, Weave, AllRefs;
    var cuts', locals' := cuts + [cut], locals + [lineLocals];
    forall i | 0 <= i < |cuts| ensures AreIssuedFor(cuts'[i].refs, locals'[i], NumberAt(cuts', i), rw, issued') {
      assert cuts'[..i] == cuts[..i] && cuts'[i] == cuts[i] && locals'[i] == locals[i];
      IssuedStays(cuts[i].refs, locals[i], NumberAt(cuts, i), rw, issued, issued');
    }
    assert cuts'[..|cuts|] == cuts && cuts'[|cuts|] == cut && locals'[|cuts|] == lineLocals;
    CutFits(cut, lineLocals, |AllRefs(cuts)|, rw, issued', line);
    OneMoreCut(lines, cuts, line, cut);
    WovenMore(cuts, locals, cut, lineLocals);
    MoreRefs(cuts, cut);
  }

  lemma MoreRefs(cuts: seq<Cut>, cut: Cut)
    ensures AllRefs(cuts + [cut]) == AllRefs(cuts) + cut.refs
  {
    FlatMapAppend(RefsOf, cuts, [cut]);
    FlatMapOne(RefsOf, cut);
  }

  lemma OneMoreCut(lines: seq<string>, cuts: seq<Cut>, line: string, cut: Cut)
    requires IsManifestCut(lines, cuts) && IsLineCut(line, cut)
    ensures IsManifestCut(lines + [line], cuts + [cut])
  {
    hide IsLineCut;
  }

  lemma CutFits(cut: Cut, locals: seq<string>, from: nat, rw: Rewriting, issued: Table, line: string)
    requires IsLineCut(line, cut) && AreIssuedFor(cut.refs, locals, from, rw, issued)
    ensures |cut.texts| == |locals| + 1
  {
  }

  lemma WovenMore(cuts: seq<Cut>, locals: seq<seq<string>>, cut: Cut, lineLocals: seq<string>)
    requires Fit(cuts, locals) && |cut.texts| == |lineLocals| + 1
    ensures Fit(cuts + [cut], locals + [lineLocals])
    ensures Concat(Woven(cuts + [cut], locals + [lineLocals]))
        == Concat(Woven(cuts, locals)) + Weave(cut.texts, lineLocals)
  {
    hide Weave, Concat, Woven;
    var written := Weave(cut.texts, lineLocals);
    WovenAppend(cuts, locals, cut, lineLocals);
    ConcatAppend(Woven(cuts, locals), [written]);
    ConcatOne(written);
  }

  lemma ConcatOne(s: string)
    ensures Concat([s]) == s
  {
    assert Concat([s]) == s + Concat([]) == s;
  }

  lemma WovenAppend(cuts: seq<Cut>, locals: seq<seq<string>>, cut: Cut, lineLocals: seq<string>)
    requires Fit(cuts, locals) && |cut.texts| == |lineLocals| + 1
    ensures Fit(cuts + [cut], locals + [lineLocals])
    ensures Woven(cuts + [cut], locals + [lineLocals]) == Woven(cuts, locals) + [Weave(cut.texts, lineLocals)]
  {
    hide Weave, Woven;
    FitAppend(cuts, locals, cut, lineLocals);
    var cuts', locals' := cuts + [cut], locals + [lineLocals];
    var a, b, n := Woven(cuts', locals'), Woven(cuts, locals), |cuts|;
    forall i | 0 <= i < n ensures a[i] == b[i] {
      assert cuts'[i] == cuts[i] && locals'[i] == locals[i];
    }
    assert a[n] == Weave(cut.texts, lineLocals) by {
      assert cuts'[n] == cut && locals'[n] == lineLocals;
    }
    OneLonger(a, b, Weave(cut.texts, lineLocals));
  }

  lemma FitAppend(cuts: seq<Cut>, locals: seq<seq<string>>, cut: Cut, lineLocals: seq<string>)
    requires Fit(cuts, locals) && |cut.texts| == |lineLocals| + 1
    ensures Fit(cuts + [cut], locals + [lineLocals])
  {
  }

  lemma WholeLine(line: string)
    requires KindOf(line) == Untouched
    ensures IsLineCut(line, Cut([line], [])) && line == Weave([line], [])
  {
  }

  lemma TagLine(line: string, cut: Cut)
    requires KindOf(line) == Tag
    ensures IsAttributeCut(cut) && line == Weave(cut.texts, cut.refs) ==> IsLineCut(line, cut)
  {
  }

  lemma LocationLine(line: string, local: string)
    requires KindOf(line) == Location
    ensures var cut, start := LocationCut(line), Indent(line);
            && cut.refs == [] + [Trim(line)] && IsLineCut(line, cut) && |cut.texts| == 2
            && start + |Trim(line)| <= |line|
            && [local] == [] + [local]
            && Weave(cut.texts, [local]) == line[..start] + local + line[start + |Trim(line)|..]
  {
    hide Trim, Indent;
    TrimSplits(line);
    var cut := LocationCut(line);
    WeaveOne(cut.texts, local);
    WeaveOne(cut.texts, Trim(line));
  }

  /** References are numbered through the lines. */
  lemma {:induction false} NumbersGrow(cuts: seq<Cut>, i: nat, j: nat)
    requires i < j <= |cuts|
    ensures NumberAt(cuts, i) + |cuts[i].refs| <= NumberAt(cuts, j)
    decreases j
  {
    hide AllRefs;
    var last := j - 1;
    assert cuts[..j] == cuts[..last] + [cuts[last]];
    MoreRefs(cuts[..last], cuts[last]);
    if i < last {
      NumbersGrow(cuts, i, last);
    }
  }

  /** Different references of a playlist are issued different tokens, and all of them are new. */
  lemma TokensDiffer(
    lines: seq<string>, cuts: seq<Cut>, locals: seq<seq<string>>, written: string, rw: Rewriting, issued: Table,
    before: set<string>, i: nat, k: nat, j: nat, m: nat)
    requires AreRewritten(lines, cuts, locals, written, rw, issued) && AreFresh(rw.draws, 0, before)
    requires i < |cuts| && k < |cuts[i].refs| && IsReplaced(cuts[i].refs[k], rw)
    requires j < |cuts| && m < |cuts[j].refs| && IsReplaced(cuts[j].refs[m], rw)
    requires i < j || (i == j && k < m)
    ensures var a, b := rw.draws(NumberAt(cuts, i) + k).token, rw.draws(NumberAt(cuts, j) + m).token;
            a.Some? && b.Some? && a != b && a.value !in before && b.value !in before
  {
    hide IsReplaced, AreIssuedFor, IsToken, AllRefs, Trim;
    IssuedIsNew(cuts[i].refs, locals[i], NumberAt(cuts, i), rw, issued, before, k);
    IssuedIsNew(cuts[j].refs, locals[j], NumberAt(cuts, j), rw, issued, before, m);
    if i < j {
      NumbersGrow(cuts, i, j);
    }
  }

  /**
  When the table has room for all replaced references, a player finds every one of them: after the rewriting, the
  token in place of a reference leads to its target, resolved against the playlist, until that session expires or
  the plan ends.
  */
  lemma PlaylistIsFound(
    lines: seq<string>, cuts: seq<Cut>, locals: seq<seq<string>>, written: string, rw: Rewriting, a: Moment,
    ended0: bool, b: Moment, ended: set<nat>, limit: nat, i: nat, k: nat, now: int)
    requires AreRewritten(lines, cuts, locals, written, rw, b.issued) && AreFresh(rw.draws, 0, a.issued.Keys)
    requires HasRewritten(a, ended0, b, ended, AllRefs(cuts), 0, rw, limit)
    requires |a.sessions| + CountReplaced(AllRefs(cuts), rw) <= limit && OnlyFrom(b.sessions, b.issued)
    requires i < |cuts| && k < |cuts[i].refs| && IsReplaced(cuts[i].refs[k], rw)
    ensures rw.draws(NumberAt(cuts, i) + k).token.Some? && rw.draws(NumberAt(cuts, i) + k).token.value in b.issued
    ensures var token := rw.draws(NumberAt(cuts, i) + k).token.value;
            && rw.draws(|AllRefs(cuts)|).now <= now < b.issued[token].expiresAt && rw.playlist.lifetime !in ended ==>
              && IsFound(b.sessions, ended, now, token)
              && Some(b.sessions[token].target)
                 == rw.rules.validate(rw.rules.join(rw.playlist.url, Trim(cuts[i].refs[k])).url)
  {
    hide IsReplaced, AreIssuedFor, IsToken, AllRefs, Trim, KeepsRoom, OnlyFrom, CountReplaced;
    IssuedIsNew(cuts[i].refs, locals[i], NumberAt(cuts, i), rw, b.issued, a.issued.Keys, k);
    var token, clock := rw.draws(NumberAt(cuts, i) + k).token.value, rw.draws(|AllRefs(cuts)|).now;
    if clock <= now < b.issued[token].expiresAt && rw.playlist.lifetime !in ended {
      NotLostIsFound(a, b, ended, clock, CountReplaced(AllRefs(cuts), rw), limit, token, now);
    }
  }

  /** When the rewriting of a line goes through: it has a cut, and all its references are accepted. */
  ghost predicate IsRewritableLine(line: string, from: nat, rw: Rewriting, ended: bool) {
    exists cut :: IsLineCut(line, cut) && AreAccepted(cut.refs, from, rw, ended)
  }

  ghost predicate IsRewritableTag(line: string, from: nat, rw: Rewriting, ended: bool) {
    exists cut :: IsAttributeCut(cut) && line == Weave(cut.texts, cut.refs) && AreAccepted(cut.refs, from, rw, ended)
  }

  /** When the rewriting of a playlist goes through: every line has a cut, and all references are accepted. */
  ghost predicate IsRewritable(lines: seq<string>, rw: Rewriting, ended: bool) {
    exists cuts :: IsManifestCut(lines, cuts) && AreAccepted(AllRefs(cuts), 0, rw, ended)
  }

  lemma TagIsLine(line: string, from: nat, rw: Rewriting, ended: bool)
    requires KindOf(line) == Tag
    ensures IsRewritableTag(line, from, rw, ended) <==> IsRewritableLine(line, from, rw, ended)
  {
    hide IsAttributeCut, KindOf, LocationCut, AreAccepted;
    ShapesOfCuts();
    if cut: Cut :| IsAttributeCut(cut) && line == Weave(cut.texts, cut.refs) && AreAccepted(cut.refs, from, rw, ended) {
      TagLine(line, cut);
    }
  }

  lemma LocationIsLine(line: string, from: nat, rw: Rewriting, ended: bool)
    requires KindOf(line) == Location
    ensures IsRewritableLine(line, from, rw, ended) <==> IsAccepted(Trim(line), from, rw, ended)
    ensures CountReplaced([Trim(line)], rw) == if IsReplaced(Trim(line), rw) then 1 else 0
    ensures Ends([Trim(line)], from, rw, ended) == (ended || (IsReplaced(Trim(line), rw) && rw.draws(from).lateDuring))
  {
    hide Trim, KindOf, Weave, IsAccepted, IsReplaced;
    LocationLine(line, "");
    OneMoreReference([], Trim(line), from, rw, ended);
    assert [] + [Trim(line)] == [Trim(line)];
    if IsAccepted(Trim(line), from, rw, ended) {
      assert AreAccepted(LocationCut(line).refs, from, rw, ended);
    }
  }

  /** A reference refused while reading a tag is in every cut of it. */
  lemma RefusedTag(
    line: string, scan: Scan, position: nat, values: seq<string>, written: string, start: nat, end: nat, from: nat,
    rw: Rewriting, ended: bool)
    requires IsReading(line, scan, position, values, written) && Leads(line, position, Value(start, end))
    requires end <= |line| && start <= end
    requires !AreAccepted(scan.refs + [line[start..end]], from, rw, ended)
    ensures !IsRewritableTag(line, from, rw, ended)
  {
    hide IsReading, Leads, IsAttributeCut, AreAccepted, Weave;
    forall cut | IsAttributeCut(cut) && |cut.texts| == |cut.refs| + 1 && line == Weave(cut.texts, cut.refs)
      ensures !AreAccepted(cut.refs, from, rw, ended)
    {
      ReadBeginsEveryCut(line, scan, position, values, written, start, end, cut);
      if AreAccepted(cut.refs, from, rw, ended) {
        FirstReferences(scan.refs + [line[start..end]], cut.refs, from, rw, ended);
      }
    }
    ShapesOfCuts();
  }

  lemma ShapesOfCuts()
    ensures forall cut :: IsAttributeCut(cut) ==> |cut.texts| == |cut.refs| + 1
  {
  }

  lemma UnclosedTag(line: string, from: nat, rw: Rewriting, ended: bool)
    requires IsUnclosedLine(line)
    ensures !IsRewritableTag(line, from, rw, ended)
  {
    hide IsAttributeCut, AreAccepted, Weave, IsUnclosedLine;
    ShapesOfCuts();
    forall cut | IsAttributeCut(cut) ensures line != Weave(cut.texts, cut.refs) {
      UnclosedOrCut(line, cut);
    }
  }

  /** A line refused while rewriting a playlist refuses the playlist. */
  lemma RefusedLine(lines: seq<string>, i: nat, cuts: seq<Cut>, rw: Rewriting, ended: bool)
    requires i < |lines| && IsManifestCut(lines[..i], cuts)
    requires !IsRewritableLine(lines[i], |AllRefs(cuts)|, rw, Ends(AllRefs(cuts), 0, rw, ended))
    ensures !IsRewritable(lines, rw, ended)
  {
    hide IsManifestCut, AreAccepted, Ends, AllRefs, IsRewritableLine;
    forall all: seq<Cut> | IsManifestCut(lines, all) ensures !AreAccepted(AllRefs(all), 0, rw, ended) {
      RefusedCuts(lines, i, cuts, all, rw, ended);
    }
  }

  lemma RefusedCuts(lines: seq<string>, i: nat, cuts: seq<Cut>, all: seq<Cut>, rw: Rewriting, ended: bool)
    requires i < |lines| && IsManifestCut(lines[..i], cuts) && IsManifestCut(lines, all)
    requires !IsRewritableLine(lines[i], |AllRefs(cuts)|, rw, Ends(AllRefs(cuts), 0, rw, ended))
    ensures !AreAccepted(AllRefs(all), 0, rw, ended)
  {
    hide IsLineCut, IsManifestCut, AreAccepted, Ends, AllRefs, IsRewritableLine, CountReplaced;
    CutsAgree(lines, i, cuts, all);
    RefsSplit(all, i);
    var before, refs := AllRefs(cuts), all[i].refs;
    if AreAccepted(AllRefs(all), 0, rw, ended) {
      FirstReferences(before + refs, AllRefs(all), 0, rw, ended);
      MoreReferences(before, refs, 0, rw, ended);
      RewritableBy(lines[i], all[i], 0 + |before|, rw, Ends(before, 0, rw, ended));
    }
  }

  lemma RewritableBy(line: string, cut: Cut, from: nat, rw: Rewriting, ended: bool)
    requires IsLineCut(line, cut) && AreAccepted(cut.refs, from, rw, ended)
    ensures IsRewritableLine(line, from, rw, ended)
  {
  }

  lemma CutsAgree(lines: seq<string>, i: nat, cuts: seq<Cut>, all: seq<Cut>)
    requires i < |lines| && IsManifestCut(lines[..i], cuts) && IsManifestCut(lines, all)
    ensures |all| == |lines| && all[..i] == cuts && IsLineCut(lines[i], all[i])
  {
    hide IsLineCut;
    forall k | 0 <= k < i ensures all[k] == cuts[k] {
      assert lines[..i][k] == lines[k];
      LineCutIsUnique(lines[k], all[k], cuts[k]);
    }
  }

  lemma RefsSplit(cuts: seq<Cut>, i: nat)
    requires i < |cuts|
    ensures AllRefs(cuts[..i]) + cuts[i].refs <= AllRefs(cuts)
  {
    hide FlatMap;
    assert cuts == cuts[..i + 1] + cuts[i + 1..] && cuts[..i + 1] == cuts[..i] + [cuts[i]];
    FlatMapAppend(RefsOf, cuts[..i + 1], cuts[i + 1..]);
    MoreRefs(cuts[..i], cuts[i]);
  }

  /**
  A player that reads the rewritten manifest finds the same lines cut into the same texts, and in place of
  each reference the URL issued for it, whole.
  */
  lemma PlayerReadsIssued(
    body: string, cuts: seq<Cut>, locals: seq<seq<string>>, written: string, rw: Rewriting, issued: Table)
    requires AreRewritten(SplitAfter(body, '\n'), cuts, locals, written, rw, issued)
    requires (rw.base == "" || IsPlain(rw.base)) && AreTokens(issued)
    ensures IsManifestCut(SplitAfter(written, '\n'), Replaced(cuts, locals))
  {
    hide IsLineCut, AreIssuedFor, IsPlain, AreTokens, Woven, ArePlain, AllRefs;
    forall i | 0 <= i < |cuts| ensures ArePlain(cuts[i].refs, locals[i]) {
      IssuedArePlain(cuts[i].refs, locals[i], NumberAt(cuts, i), rw, issued);
    }
    ManifestReadsBack(body, cuts, locals);
  }

  lemma LeadsOn(line: string, position: nat, step: Step)
    requires Leads(line, position, step)
    ensures match step
            case Rest => forall i :: position <= i < |line| ==> !OpensAt(line, i)
            case Skip(to) => position < to <= |line| && forall i :: position <= i < to ==> !OpensAt(line, i)
            case Open(start) => position < start <= |line|
            case Value(start, end) => position < start <= end < |line|
  {
  }

  lemma NoneAccepted(from: nat, rw: Rewriting, ended: bool)
    ensures AreAccepted([], from, rw, ended)
  {
  }

  lemma NoRefs()
    ensures AllRefs([]) == []
  {
  }

  lemma TagRewritable(line: string, cut: Cut, from: nat, rw: Rewriting, ended: bool)
    requires IsAttributeCut(cut) && |cut.texts| == |cut.refs| + 1 && line == Weave(cut.texts, cut.refs)
    requires AreAccepted(cut.refs, from, rw, ended)
    ensures IsRewritableTag(line, from, rw, ended)
  {
  }

  lemma ManifestIsCut(
    lines: seq<string>, cuts: seq<Cut>, locals: seq<seq<string>>, written: string, rw: Rewriting, issued: Table)
    requires AreRewritten(lines, cuts, locals, written, rw, issued)
    ensures IsManifestCut(lines, cuts)
  {
  }

  lemma EndsSoFar(
    a: Moment, ended0: bool, b: Moment, ended: set<nat>, refs: seq<string>, from: nat, rw: Rewriting, limit: nat)
    requires HasRewritten(a, ended0, b, ended, refs, from, rw, limit)
    ensures rw.playlist.lifetime in ended <==> Ends(refs, from, rw, ended0)
  {
  }

  /** The references of a line that was rewritten were accepted behind those before. */
  lemma LineAccepted(
    line: string, cut: Cut, locals: seq<string>, written: string, refs: seq<string>, rw: Rewriting, ended: bool,
    issued: Table)
    requires IsRewritten(line, cut, locals, written, |refs|, rw, issued)
    requires AreAccepted(refs, 0, rw, ended) && IsRewritableLine(line, |refs|, rw, Ends(refs, 0, rw, ended))
    ensures AreAccepted(refs + cut.refs, 0, rw, ended)
  {
    hide IsLineCut, AreAccepted, Ends, AreIssuedFor, Weave;
    var other :| IsLineCut(line, other) && AreAccepted(other.refs, |refs|, rw, Ends(refs, 0, rw, ended));
    LineCutIsUnique(line, cut, other);
    MoreReferences(refs, cut.refs, 0, rw, ended);
  }

  lemma AllRewritable(
    lines: seq<string>, cuts: seq<Cut>, locals: seq<seq<string>>, written: string, rw: Rewriting, ended: bool,
    issued: Table)
    requires AreRewritten(lines, cuts, locals, written, rw, issued) && AreAccepted(AllRefs(cuts), 0, rw, ended)
    ensures IsRewritable(lines, rw, ended)
  {
  }

  lemma NoneIssued(from: nat, rw: Rewriting, issued: Table)
    ensures AreIssuedFor([], [], from, rw, issued)
  {
  }

  lemma OneMoreIssued(
    refs: seq<string>, locals: seq<string>, ref: string, local: string, from: nat, rw: Rewriting, issued: Table,
    issued': Table)
    requires AreIssuedFor(refs, locals, from, rw, issued) && Extends(issued, issued')
    requires IsIssuedFor(ref, local, from + |refs|, rw, issued')
    ensures AreIssuedFor(refs + [ref], locals + [local], from, rw, issued')
  {
    hide IsIssuedFor;
    IssuedStays(refs, locals, from, rw, issued, issued');
    assert |refs + [ref]| == |refs| + 1;
  }
}
