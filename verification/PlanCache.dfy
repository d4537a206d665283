/**
The plan cache and the provider cascade of the playback resolver (internal/playback/cache.go and
internal/playback/cascading.go). Every method is one section under the resolver's mutex or a sequence of such
sections, so what `Valid` says holds in every interleaving of concurrent requests.
*/
module PlanCache {
  import opened Wrappers
  import opened Text
  import opened Plans
  import opened Sequences
  import opened FailurePolicy

  const DEFAULT_TTL := 2 * MINUTE
  const MAXIMUM_TTL := 10 * MINUTE
  const SAFETY_MARGIN := 90 * SECOND
  const MAXIMUM_ENTRIES := 64

  /** `playbackRequestKey` */
  function RequestKey(video: string, source: string): (key: string)
    ensures key != ""
  {
    Trim(video) + "\0" + Trim(source)
  }

  /** Two requests share a key exactly when they ask for the same video and source, for ids without the separator. */
  lemma KeysSeparate(video: string, source: string, video': string, source': string)
    requires '\0' !in Trim(video) && '\0' !in Trim(video')
    ensures RequestKey(video, source) == RequestKey(video', source') <==>
        Trim(video) == Trim(video') && Trim(source) == Trim(source')
  {
    hide Trim;
    var v, s, v', s' := Trim(video), Trim(source), Trim(video'), Trim(source');
    if v + "\0" + s == v' + "\0" + s' {
      var key := v + "\0" + s;
      FirstChar(key, '\0', |v|);
      assert key[..|v'|] == v' && key[|v'|] == '\0';
      FirstChar(key, '\0', |v'|);
      assert key[..|v|] == v && key[|v| + 1..] == s && key[|v'| + 1..] == s';
    }
  }

  /** Until when a plan stored at `now` may be served. */
  function Deadline(plan: Plan, now: int, expiry: UrlExpiry): int {
    var earliest := EarliestExpiry(plan.expiresAt, Urls(plan), expiry);
    var margin := (if earliest.Some? then earliest.value else now + DEFAULT_TTL) - SAFETY_MARGIN;
    if now + MAXIMUM_TTL < margin then now + MAXIMUM_TTL else margin
  }

  /** At the instant `at` no stream of the plan, nor the plan itself, expires within the next 90 seconds. */
  ghost predicate Playable(plan: Plan, at: int, expiry: UrlExpiry) {
    && (plan.expiresAt.Some? ==> at + SAFETY_MARGIN < plan.expiresAt.value)
    && (forall url :: url in Urls(plan) && expiry(url).Some? ==> at + SAFETY_MARGIN < expiry(url).value)
  }

  /**
  What staying before the deadline means: at most ten minutes have passed, every known expiry lies
  more than 90 seconds ahead, and a plan without any known expiry is served for 30 seconds.
  */
  lemma DeadlineMeaning(plan: Plan, now: int, expiry: UrlExpiry, at: int)
    ensures at < Deadline(plan, now, expiry) <==>
              && at < now + MAXIMUM_TTL && Playable(plan, at, expiry)
              && ((plan.expiresAt.None? && forall url :: url in Urls(plan) ==> expiry(url).None?) ==>
                    at < now + DEFAULT_TTL - SAFETY_MARGIN)
  {
    hide Urls;
    EarliestIsLeast(plan.expiresAt, Urls(plan), expiry);
    var earliest := EarliestExpiry(plan.expiresAt, Urls(plan), expiry);
    if earliest.Some? && earliest != plan.expiresAt {
      var url :| url in Urls(plan) && expiry(url) == earliest;
    }
  }

  /** `playbackPlanCacheDeadline` */
  method CacheDeadline(plan: Plan, now: int, expiry: UrlExpiry) returns (deadline: int)
    ensures deadline == Deadline(plan, now, expiry)
  {
    hide Urls;
    var urls := Urls(plan);
    var expiresAt := plan.expiresAt;
    for i := 0 to |urls|
      invariant expiresAt == EarliestExpiry(plan.expiresAt, urls[..i], expiry)
    {
      assert urls[..i + 1][..i] == urls[..i];
      var candidate := expiry(urls[i]);
      if candidate.None? || (expiresAt.Some? && !(candidate.value < expiresAt.value)) {
        continue;
      }
      expiresAt := candidate;
    }
    assert urls[..|urls|] == urls;
    deadline := (if expiresAt.Some? then expiresAt.value else now + DEFAULT_TTL) - SAFETY_MARGIN;
    var maximum := now + MAXIMUM_TTL;
    if maximum < deadline {
      deadline := maximum;
    }
  }

  datatype CacheEntry = CacheEntry(plan: Plan, validUntil: int)

  type Cache = map<string, CacheEntry>

  function Live(cache: Cache, now: int): Cache {
    map key | key in cache && now < cache[key].validUntil :: cache[key]
  }

  /** Pruning drops every entry past its deadline, and one with the nearest deadline when 64 or more are left. */
  ghost predicate IsPruned(before: Cache, after: Cache, now: int) {
    var live := Live(before, now);
    if |live| < MAXIMUM_ENTRIES then after == live
    else exists key :: IsNearest(live, key) && after == live - {key}
  }

  ghost predicate IsNearest(cache: Cache, key: string) {
    key in cache && forall other :: other in cache ==> cache[key].validUntil <= cache[other].validUntil
  }

  lemma InsertedSize(cache: Cache, key: string, entry: CacheEntry)
    ensures |cache[key := entry]| <= |cache| + 1
  {
    assert cache[key := entry].Keys == cache.Keys + {key};
    assert |cache[key := entry].Keys| == |cache[key := entry]| && |cache.Keys| == |cache|;
  }

  /** Only resolved media with a primary URL is stored, and only when it would be served at once. */
  predicate IsCacheable(plan: Plan, now: int, expiry: UrlExpiry) {
    plan.mode == ResolvedMedia && Trim(plan.primary.url) != "" && now < Deadline(plan, now, expiry)
  }

  ghost predicate WasStored(before: Cache, after: Cache, key: string, plan: Plan, now: int, expiry: UrlExpiry) {
    exists pruned :: IsPruned(before, pruned, now)
      && after == pruned[key := CacheEntry(plan, Deadline(plan, now, expiry))]
  }

  /**
  What a request for `key` leaves of all other entries: they are as they were, unless they had expired by `until`, or
  were evicted. One is evicted at most, from a full cache, and it is the one closest to its deadline.
  */
  ghost predicate KeepsOthers(before: Cache, after: Cache, key: string, until: int, evicted: Option<string>) {
    && (forall other :: other in after && other != key ==> other in before && after[other] == before[other])
    && (forall other :: other in before && other != key && until < before[other].validUntil ==>
         other in after || evicted == Some(other))
    && (evicted.Some? ==>
          && evicted.value in before && |before| >= MAXIMUM_ENTRIES
          && forall other :: other in before ==> before[evicted.value].validUntil <= before[other].validUntil)
  }

  lemma OthersStay(cache: Cache, key: string, until: int)
    ensures KeepsOthers(cache, cache - {key}, key, until, None) && KeepsOthers(cache, cache, key, until, None)
    ensures KeepsOthers(cache - {key}, cache, key, until, None)
    ensures KeepsOthers(cache - {key}, cache - {key}, key, until, None)
  {
  }

  /** Storing a plan, in terms of the other entries. */
  lemma StoringKeeps(
    before: Cache, after: Cache, key: string, plan: Plan, now: int, expiry: UrlExpiry, until: int)
    returns (evicted: Option<string>)
    requires WasStored(before, after, key, plan, now, expiry) && |before| <= MAXIMUM_ENTRIES && now <= until
    ensures KeepsOthers(before, after, key, until, evicted)
    ensures evicted.Some? ==> evicted.value in before
    ensures key in after && after[key] == CacheEntry(plan, Deadline(plan, now, expiry))
  {
    hide Deadline;
    var pruned :|
      IsPruned(before, pruned, now) && after == pruned[key := CacheEntry(plan, Deadline(plan, now, expiry))];
    var live := Live(before, now);
    assert live.Keys <= before.Keys;
    SubsetSize(live.Keys, before.Keys);
    KeysSize(live);
    KeysSize(before);
    evicted := None;
    if |live| >= MAXIMUM_ENTRIES {
      var nearest :| IsNearest(live, nearest) && pruned == live - {nearest};
      SameSize(live.Keys, before.Keys);
      assert live == before;
      evicted := Some(nearest);
    }
  }


  /** `storePlan`, whether it stored the plan or not. */
  lemma PlanStored(
    before: Cache, after: Cache, key: string, plan: Plan, now: int, expiry: UrlExpiry, until: int)
    returns (evicted: Option<string>)
    requires |before| <= MAXIMUM_ENTRIES && now <= until
    requires if IsCacheable(plan, now, expiry) then WasStored(before, after, key, plan, now, expiry)
             else after == before
    ensures KeepsOthers(before, after, key, until, evicted) && (evicted.Some? ==> |before| >= MAXIMUM_ENTRIES)
    ensures if IsCacheable(plan, now, expiry) then
              && |after - {key}| < MAXIMUM_ENTRIES && key in after
              && after[key] == CacheEntry(plan, Deadline(plan, now, expiry))
            else evicted == None
  {
    hide Deadline, IsCacheable;
    evicted := None;
    if IsCacheable(plan, now, expiry) {
      evicted := StoringKeeps(before, after, key, plan, now, expiry, until);
      hide IsPruned;
      var pruned :|
        IsPruned(before, pruned, now) && after == pruned[key := CacheEntry(plan, Deadline(plan, now, expiry))];
      PrunedFits(before, pruned, now);
      SubsetSize((after - {key}).Keys, pruned.Keys);
      KeysSize(after - {key});
      KeysSize(pruned);
    }
  }

  /** One step after another, other entries are kept. */
  lemma KeepsAgain(
    a: Cache, b: Cache, c: Cache, key: string, until: int, first: Option<string>, second: Option<string>)
    requires KeepsOthers(a, b, key, until, first) && KeepsOthers(b, c, key, until, second) && |a| <= MAXIMUM_ENTRIES
    requires first.Some? ==> second.None?
    requires second.Some? ==> b == a || b == a - {key}
    ensures KeepsOthers(a, c, key, until, if first.Some? then first else second)
  {
    if second.Some? {
      SubsetSize(b.Keys, a.Keys);
      KeysSize(a);
      KeysSize(b);
      SameSize(b.Keys, a.Keys);
    }
  }

  /**
  The cache during a request: `b` without the key, `c` after a plan was stored meanwhile or not, `d` at the end. Only
  one of the two times something is stored can evict anything.
  */
  lemma KeepsAllAlong(
    a: Cache, b: Cache, c: Cache, d: Cache, key: string, until: int, first: Option<string>, second: Option<string>)
    requires b == a - {key} && |a| <= MAXIMUM_ENTRIES && KeepsOthers(b, c, key, until, first)
    requires c == b || |c - {key}| < MAXIMUM_ENTRIES
    requires c == b ==> first.None?
    requires KeepsOthers(c - {key}, d, key, until, second)
    requires second.Some? ==> |c - {key}| >= MAXIMUM_ENTRIES
    ensures exists evicted :: KeepsOthers(a, d, key, until, evicted)
  {
    OthersStay(a, key, until);
    OthersStay(c, key, until);
    hide KeepsOthers;
    var e := c - {key};
    SubsetSize(b.Keys, a.Keys);
    KeysSize(a);
    KeysSize(b);
    KeepsAgain(a, b, c, key, until, None, first);
    KeepsAgain(a, c, e, key, until, first, None);
    assert c == b ==> e == a - {key};
    KeepsAgain(a, e, d, key, until, first, second);
  }

  lemma PrunedFits(before: Cache, after: Cache, now: int)
    requires IsPruned(before, after, now) && |before| <= MAXIMUM_ENTRIES
    ensures |after| < MAXIMUM_ENTRIES
  {
    var live := Live(before, now);
    assert live.Keys <= before.Keys;
    SubsetSize(live.Keys, before.Keys);
    assert |live.Keys| == |live| && |before.Keys| == |before|;
    if |live| >= MAXIMUM_ENTRIES {
      var key :| IsNearest(live, key) && after == live - {key};
      RemovedSize(live, key);
    }
  }

  /** What the resolver did, in the order of its sections under the mutex. */
  datatype Event =
    | Stored(key: string, plan: Plan, at: int)
    | Hit(key: string, plan: Plan, at: int)
    | Limited(at: int)
    | Began(at: int)

  /** Hit `i` served the plan stored last for its key, at most ten minutes earlier and playable for 90 seconds more. */
  ghost predicate HitIsFresh(log: seq<Event>, i: nat, expiry: UrlExpiry)
    requires i < |log| && log[i].Hit?
  {
    exists j :: 0 <= j < i && IsLatestStore(log[..i], j, log[i].key)
      && log[j].plan == log[i].plan
      && log[j].at <= log[i].at < log[j].at + MAXIMUM_TTL
      && Playable(log[i].plan, log[i].at, expiry)
  }

  ghost predicate IsLatestStore(log: seq<Event>, j: int, key: string) {
    && 0 <= j < |log| && log[j].Stored? && log[j].key == key
    && forall k :: j < k < |log| && log[k].Stored? ==> log[k].key != key
  }

  /** The properties of a whole run. */
  ghost predicate GoodLog(log: seq<Event>, expiry: UrlExpiry) {
    && (forall i :: 0 <= i < |log| && log[i].Hit? ==> HitIsFresh(log, i, expiry))
    && (forall i, j :: 0 <= i < j < |log| && log[i].Limited? && log[j].Began? ==> log[i].at + MINUTE <= log[j].at)
  }

  /** One more event keeps a run good when it is good itself. */
  lemma GoodLogGrows(log: seq<Event>, event: Event, expiry: UrlExpiry)
    requires GoodLog(log, expiry)
    requires event.Hit? ==> HitIsFresh(log + [event], |log|, expiry)
    requires event.Began? ==> forall i :: 0 <= i < |log| && log[i].Limited? ==> log[i].at + MINUTE <= event.at
    ensures GoodLog(log + [event], expiry)
  {
    hide Playable, IsLatestStore;
    var longer := log + [event];
    forall i | 0 <= i < |longer| && longer[i].Hit? ensures HitIsFresh(longer, i, expiry) {
      if i < |log| {
        assert HitIsFresh(log, i, expiry);
        assert longer[..i] == log[..i];
      }
    }
  }

  /** Every entry of the cache holds the plan stored last for its key, with the deadline that plan had then. */
  ghost predicate EntriesStored(
    cache: Cache, log: seq<Event>, stored: map<string, nat>, latest: int, expiry: UrlExpiry) {
    forall key :: key in cache ==>
      && key in stored && IsLatestStore(log, stored[key], key)
      && log[stored[key]].plan == cache[key].plan
      && log[stored[key]].at <= latest
      && cache[key].validUntil == Deadline(cache[key].plan, log[stored[key]].at, expiry)
  }

  /** The rate limit in force covers the minute after every recorded limit, and no more than the next minute. */
  ghost predicate LimitCovers(log: seq<Event>, until: Option<int>, latest: int) {
    && (forall i :: 0 <= i < |log| && log[i].Limited? ==> until.Some? && log[i].at + MINUTE <= until.value)
    && (until.Some? ==> until.value <= latest + MINUTE)
  }

  lemma EntriesStay(
    cache: Cache, log: seq<Event>, stored: map<string, nat>, latest: int, expiry: UrlExpiry, event: Event,
    latest': int)
    requires EntriesStored(cache, log, stored, latest, expiry) && !event.Stored? && latest <= latest'
    ensures EntriesStored(cache, log + [event], stored, latest', expiry)
  {
    hide Deadline;
  }

  lemma EntriesLater(cache: Cache, log: seq<Event>, stored: map<string, nat>, latest: int, expiry: UrlExpiry, now: int)
    requires EntriesStored(cache, log, stored, latest, expiry)
    ensures EntriesStored(cache, log, stored, if now < latest then latest else now, expiry)
  {
    hide Deadline;
  }

  lemma FewerEntries(
    cache: Cache, log: seq<Event>, stored: map<string, nat>, latest: int, expiry: UrlExpiry, smaller: Cache)
    requires EntriesStored(cache, log, stored, latest, expiry) && IsPart(smaller, cache)
    ensures EntriesStored(smaller, log, stored, latest, expiry) && |smaller| <= |cache|
  {
    hide Deadline;
    SubsetSize(smaller.Keys, cache.Keys);
    assert |smaller.Keys| == |smaller| && |cache.Keys| == |cache|;
  }

  ghost predicate IsPart(smaller: Cache, cache: Cache) {
    smaller.Keys <= cache.Keys && forall key :: key in smaller ==> smaller[key] == cache[key]
  }

  lemma StoreKeepsEntries(
    cache: Cache, log: seq<Event>, stored: map<string, nat>, latest: int, expiry: UrlExpiry, event: Event,
    validUntil: int)
    requires EntriesStored(cache, log, stored, latest, expiry) && event.Stored? && event.at <= latest
    requires validUntil == Deadline(event.plan, event.at, expiry)
    ensures EntriesStored(cache[event.key := CacheEntry(event.plan, validUntil)], log + [event],
        stored[event.key := |log|], latest, expiry)
  {
    hide Deadline;
    var log' := log + [event];
    assert IsLatestStore(log', |log|, event.key);
    forall key | key in cache && key != event.key ensures IsLatestStore(log', stored[key], key) {
      assert IsLatestStore(log, stored[key], key);
    }
  }

  /** What a provider answered. */
  datatype Answer = Answered(plan: Plan) | Failed(error: ProviderError)

  /**
  What the world does to one request: whether it ended before provider `i` is asked, and what each provider answers.
  */
  datatype World = World(ended: nat -> bool, answers: nat -> Answer, authenticated: Answer)

  datatype Outcome =
    | Resolved(plan: Plan)
    | NoProvider
    | LimitActive
    | RequestEnded
    | Stopped(error: ProviderError)
    | AllFailed(errors: map<string, ProviderError>)

  /** Provider `i` was asked and its failure let the chain go on. */
  predicate PassedOn(world: World, i: nat) {
    !world.ended(i) && world.answers(i).Failed? && !StopsProviderFallback(world.answers(i).error)
  }

  /** The providers asked form the prefix of length `asked`; each but the last let the chain go on. */
  ghost predicate IsPrefix(world: World, count: nat, asked: nat) {
    && asked <= count
    && (forall i :: 0 <= i < asked - 1 ==> PassedOn(world, i))
    && (asked > 0 ==> !world.ended(asked - 1))
    && (asked < count ==> world.ended(asked) || (asked > 0 && !PassedOn(world, asked - 1)))
  }

  /**
  The errors collected from the first `asked` providers; a later provider of the same name overwrites an earlier
  one.
  */
  ghost predicate Collected(names: seq<string>, world: World, asked: nat, errors: map<string, ProviderError>) {
    && asked <= |names|
    && errors.Keys == (set i | 0 <= i < asked :: names[i])
    && forall i :: 0 <= i < asked && (forall k :: i < k < asked ==> names[k] != names[i]) ==>
         names[i] in errors && world.answers(i) == Failed(errors[names[i]])
  }

  /** What the request ends with when the authenticated provider was asked last. */
  function FallbackOutcome(answer: Answer, errors: map<string, ProviderError>, name: string): (outcome: Outcome)
    ensures outcome.Resolved? || outcome.RequestEnded? || outcome.AllFailed?
    ensures outcome.Resolved? <==> answer.Answered?
  {
    if answer.Answered? then Resolved(answer.plan)
    else if answer.error.cancelled then RequestEnded
    else AllFailed(errors[name := answer.error])
  }

  predicate LimitsAfterFallback(answer: Answer) {
    answer.Failed? && !answer.error.cancelled && HasKind(answer.error, {RateLimited})
  }

  /**
  What the cascade remembers between requests: the provider that answered last, and until when it is rate limited.
  */
  datatype Marks = Marks(lastUsed: string, limitedUntil: Option<int>)

  /** How a request that is not in the cache ends. */
  ghost predicate CascadeEnds(
    names: seq<string>, fallback: Option<string>, world: World, began: int, now: int, asked: nat, authenticated: bool,
    outcome: Outcome, before: Marks, after: Marks)
  {
    && (outcome == NoProvider <==> names == [])
    && (outcome == LimitActive <==> names != [] && before.limitedUntil.Some? && began < before.limitedUntil.value)
    && (outcome == NoProvider || outcome == LimitActive ==> asked == 0 && !authenticated && after == before)
    && (outcome != NoProvider && outcome != LimitActive ==>
          && IsPrefix(world, |names|, asked)
          && Decided(names, fallback, world, asked, authenticated, outcome, before, after, now))
  }

  /** What follows from how far the chain was asked. */
  ghost predicate Decided(
    names: seq<string>, fallback: Option<string>, world: World, asked: nat, authenticated: bool, outcome: Outcome,
    before: Marks, after: Marks, now: int)
    requires IsPrefix(world, |names|, asked)
  {
    var passedAll := asked == |names| && (asked == 0 || PassedOn(world, asked - 1));
    if asked < |names| && world.ended(asked) && (asked == 0 || PassedOn(world, asked - 1)) then
      outcome == RequestEnded && !authenticated && after == before
    else if asked > 0 && world.answers(asked - 1).Answered? then
      && outcome == Resolved(world.answers(asked - 1).plan) && !authenticated
      && after == before.(lastUsed := names[asked - 1])
    else
      exists errors :: Collected(names, world, asked, errors)
        && (authenticated <==>
              && fallback.Some?
              && (if passedAll then MayBenefitFromAuthentication(errors)
                  else CanTryAuthenticated(world.answers(asked - 1).error)))
        && (authenticated ==>
              && outcome == FallbackOutcome(world.authenticated, errors, fallback.value)
              && after == AfterFallback(world.authenticated, fallback.value, before, now))
        && (!authenticated ==>
              && outcome == (if passedAll then AllFailed(errors) else Stopped(world.answers(asked - 1).error))
              && after == (if !passedAll && HasKind(world.answers(asked - 1).error, {RateLimited})
                           then before.(limitedUntil := Some(now + MINUTE)) else before))
  }

  function AfterFallback(answer: Answer, name: string, before: Marks, now: int): Marks {
    if answer.Answered? then before.(lastUsed := name)
    else if LimitsAfterFallback(answer) then before.(limitedUntil := Some(now + MINUTE))
    else before
  }

  class CascadingResolver {
    const names: seq<string>
    const fallback: Option<string>
    const expiry: UrlExpiry
    var cache: Cache
    var lastUsed: string
    var rateLimitedUntil: Option<int>
    ghost var log: seq<Event>
    ghost var stored: map<string, nat>
    ghost var latest: int
    /** The names of the providers asked, in order. */
    ghost var called: seq<string>

    constructor (names: seq<string>, fallback: Option<string>, expiry: UrlExpiry, ghost start: int)
      ensures Valid() && this.names == names && this.fallback == fallback && this.expiry == expiry
      ensures cache == map[] && log == [] && rateLimitedUntil == None && latest == start
    {
      this.names, this.fallback, this.expiry := names, fallback, expiry;
      cache, lastUsed, rateLimitedUntil := map[], "", None;
      log, stored, latest, called := [], map[], start, [];
    }

    function State(): Marks
      reads this
    {
      Marks(lastUsed, rateLimitedUntil)
    }

    ghost predicate Valid()
      reads this
    {
      && |cache| <= MAXIMUM_ENTRIES && "" !in cache
      && GoodLog(log, expiry)
      && EntriesStored(cache, log, stored, latest, expiry)
      && LimitCovers(log, rateLimitedUntil, latest)
    }

    /** `cachedPlan`: `now` is read under the mutex. */
    method CachedPlan(key: string, now: int) returns (plan: Option<Plan>)
      requires Valid() && latest <= now
      modifies this`cache, this`log, this`latest
      ensures Valid() && latest == now
      ensures plan.Some? <==> key in old(cache) && now < old(cache)[key].validUntil
      ensures plan.Some? ==>
          plan == Some(old(cache)[key].plan) && cache == old(cache) && log == old(log) + [Hit(key, plan.value, now)]
      ensures plan.None? ==> cache == old(cache) - {key} && log == old(log)
    {
      hide GoodLog, Deadline, IsLatestStore;
      latest := now;
      if key !in cache || !(now < cache[key].validUntil) {
        cache := cache - {key};
        SubsetSize(cache.Keys, old(cache).Keys);
        assert |cache.Keys| == |cache| && |old(cache).Keys| == |old(cache)|;
        return None;
      }
      plan := Some(cache[key].plan);
      LogHit(key, now);
    }

    ghost method LogHit(key: string, now: int)
      requires Valid() && latest == now && key in cache && now < cache[key].validUntil
      modifies this`log
      ensures Valid() && log == old(log) + [Hit(key, cache[key].plan, now)]
    {
      hide GoodLog, Deadline, Playable;
      var event := Hit(key, cache[key].plan, now);
      var j := stored[key];
      DeadlineMeaning(event.plan, log[j].at, expiry, now);
      assert (log + [event])[..|log|] == log;
      assert (log + [event])[j] == log[j];
      assert HitIsFresh(log + [event], |log|, expiry);
      GoodLogGrows(log, event, expiry);
      EntriesStay(cache, log, stored, latest, expiry, event, latest);
      log := log + [event];
    }

    /** `storePlan`: `now` is read before the mutex is taken, so it may be older than the latest reading. */
    method StorePlan(key: string, plan: Plan, now: int)
      requires Valid() && key != ""
      modifies this`cache, this`log, this`stored, this`latest
      ensures Valid()
      ensures if IsCacheable(plan, now, expiry) then
                && WasStored(old(cache), cache, key, plan, now, expiry) && log == old(log) + [Stored(key, plan, now)]
                && latest == (if now < old(latest) then old(latest) else now)
              else cache == old(cache) && log == old(log) && latest == old(latest)
    {
      hide Valid, WasStored, Trim;
      if plan.mode != ResolvedMedia || Trim(plan.primary.url) == "" {
        return;
      }
      var validUntil := CacheDeadline(plan, now, expiry);
      if !(now < validUntil) {
        return;
      }
      Insert(key, plan, now, validUntil);
    }

    /** The section of `storePlan` under the mutex. */
    method Insert(key: string, plan: Plan, now: int, validUntil: int)
      requires Valid() && key != "" && validUntil == Deadline(plan, now, expiry)
      modifies this`cache, this`log, this`stored, this`latest
      ensures Valid() && latest == (if now < old(latest) then old(latest) else now)
      ensures WasStored(old(cache), cache, key, plan, now, expiry) && log == old(log) + [Stored(key, plan, now)]
    {
      hide GoodLog, Deadline, IsPruned, EntriesStored;
      PruneCacheLocked(now);
      PrunedFits(old(cache), cache, now);
      EntriesLater(cache, log, stored, latest, expiry, now);
      latest := if now < latest then latest else now;
      GoodLogGrows(log, Stored(key, plan, now), expiry);
      StoreKeepsEntries(cache, log, stored, latest, expiry, Stored(key, plan, now), validUntil);
      InsertedSize(cache, key, CacheEntry(plan, validUntil));
      assert WasStored(old(cache), cache[key := CacheEntry(plan, validUntil)], key, plan, now, expiry);
      cache := cache[key := CacheEntry(plan, validUntil)];
      stored := stored[key := |log|];
      log := log + [Stored(key, plan, now)];
    }

    /** `pruneCacheLocked` */
    method PruneCacheLocked(now: int)
      requires Valid()
      modifies this`cache
      ensures IsPruned(old(cache), cache, now) && Valid() && cache.Keys <= old(cache).Keys
    {
      hide GoodLog, Deadline, EntriesStored;
      SweepExpired(now);
      if |cache| < MAXIMUM_ENTRIES {
        return;
      }
      ghost var live := cache;
      var oldestKey := NearestKey(cache);
      cache := cache - {oldestKey};
      FewerEntries(live, log, stored, latest, expiry, cache);
    }

    /** The first loop of `pruneCacheLocked`. */
    method SweepExpired(now: int)
      requires Valid()
      modifies this`cache
      ensures cache == Live(old(cache), now) && Valid() && cache.Keys <= old(cache).Keys
    {
      hide GoodLog, Deadline, EntriesStored;
      var left := cache.Keys;
      while left != {}
        invariant left <= old(cache).Keys
        invariant cache == map key | key in old(cache)
            && (key in left || now < old(cache)[key].validUntil) :: old(cache)[key]
        decreases left
      {
        var key :| key in left;
        if !(now < cache[key].validUntil) {
          cache := cache - {key};
        }
        left := left - {key};
      }
      FewerEntries(old(cache), log, stored, latest, expiry, cache);
    }

    /** `recordSuccess` */
    method RecordSuccess(name: string)
      requires Valid()
      modifies this`lastUsed
      ensures lastUsed == name && Valid()
    {
      lastUsed := name;
    }

    /** `recordRateLimit`: the clock is read under the mutex. */
    method RecordRateLimit(error: ProviderError, now: int)
      requires Valid() && latest <= now
      modifies this`rateLimitedUntil, this`log, this`latest
      ensures Valid() && latest == now
      ensures if HasKind(error, {RateLimited})
              then rateLimitedUntil == Some(now + MINUTE) && log == old(log) + [Limited(now)]
              else rateLimitedUntil == old(rateLimitedUntil) && log == old(log)
    {
      hide GoodLog, EntriesStored;
      EntriesLater(cache, log, stored, latest, expiry, now);
      latest := now;
      if error.kind != Some(RateLimited) {
        return;
      }
      rateLimitedUntil := Some(now + MINUTE);
      GoodLogGrows(log, Limited(now), expiry);
      EntriesStay(cache, log, stored, latest, expiry, Limited(now), latest);
      log := log + [Limited(now)];
    }

    /** `rateLimitActive`; when it is not, the request goes on to ask providers. */
    method RateLimitActive(now: int) returns (active: bool)
      requires Valid() && latest <= now
      modifies this`log, this`latest
      ensures Valid() && latest == now
      ensures active <==> rateLimitedUntil.Some? && now < rateLimitedUntil.value
      ensures log == if active then old(log) else old(log) + [Began(now)]
    {
      hide GoodLog, EntriesStored;
      EntriesLater(cache, log, stored, latest, expiry, now);
      latest := now;
      active := rateLimitedUntil.Some? && now < rateLimitedUntil.value;
      if !active {
        GoodLogGrows(log, Began(now), expiry);
        EntriesStay(cache, log, stored, latest, expiry, Began(now), latest);
        log := log + [Began(now)];
      }
    }

    /** Asks a provider; what it answers is up to the world. */
    method Ask(name: string, answer: Answer) returns (given: Answer)
      requires Valid()
      modifies this`called
      ensures Valid() && given == answer && called == old(called) + [name]
    {
      hide GoodLog, EntriesStored, LimitCovers;
      called := called + [name];
      return answer;
    }

    /** `resolveAuthenticated` */
    method ResolveAuthenticated(world: World, errors: map<string, ProviderError>, now: int) returns (outcome: Outcome)
      requires Valid() && latest <= now && fallback.Some?
      modifies this`lastUsed, this`rateLimitedUntil, this`log, this`latest, this`called
      ensures Valid() && latest <= now && called == old(called) + [fallback.value]
      ensures outcome == FallbackOutcome(world.authenticated, errors, fallback.value)
      ensures State() == AfterFallback(world.authenticated, fallback.value, old(State()), now)
      ensures forall event :: event in log ==> event in old(log) || event == Limited(now)
    {
      hide Valid;
      var answer := Ask(fallback.value, world.authenticated);
      match answer
      case Answered(plan) =>
        RecordSuccess(fallback.value);
        outcome := Resolved(plan);
      case Failed(error) =>
        if error.cancelled {
          return RequestEnded;
        }
        RecordRateLimit(error, now);
        outcome := AllFailed(errors[fallback.value := error]);
    }

    /** The chain up to `asked`, and behind it the authenticated provider, once at most. */
    ghost function Asked(asked: nat, authenticated: bool): seq<string>
      requires asked <= |names| && (authenticated ==> fallback.Some?)
    {
      names[..asked] + if authenticated then [fallback.value] else []
    }

    /**
    `resolveUncached`: `began` and `now` are the clock readings at its start and at its end. The ghost results say
    how many providers of the chain were asked, and whether the authenticated one was asked after them.
    */
    method ResolveUncached(world: World, began: int, now: int)
      returns (outcome: Outcome, ghost asked: nat, ghost authenticated: bool)
      requires Valid() && latest <= began <= now
      modifies this`lastUsed, this`rateLimitedUntil, this`log, this`latest, this`called
      ensures Valid() && latest <= now && asked <= |names| && (authenticated ==> fallback.Some?)
      ensures called == old(called) + Asked(asked, authenticated)
      ensures CascadeEnds(names, fallback, world, began, now, asked, authenticated, outcome, old(State()), State())
    {
      hide Valid, StopsProviderFallback, CanTryAuthenticated, Collected, MayBenefitFromAuthentication, FallbackOutcome;
      hide LimitsAfterFallback;
      hide HasKind, CascadeEnds, IsPrefix, AfterFallback, Decided, KeepsOthers, Live, IsNearest, IsPruned;
      asked, authenticated := 0, false;
      ghost var before := State();
      if |names| == 0 {
        EndsEarly(names, fallback, world, began, now, before);
        return NoProvider, asked, authenticated;
      }
      var active := RateLimitActive(began);
      if active {
        EndsEarly(names, fallback, world, began, now, before);
        return LimitActive, asked, authenticated;
      }
      var errors: map<string, ProviderError> := map[];
      NoneCollected(names, world);
      for i := 0 to |names|
        invariant Valid() && latest <= now && asked == i && !authenticated
        invariant called == old(called) + names[..i] && State() == before
        invariant forall k :: 0 <= k < i ==> PassedOn(world, k)
        invariant Collected(names, world, i, errors)
      {
        if world.ended(i) {
          EndsByRequest(names, fallback, world, began, now, i, before);
          return RequestEnded, asked, authenticated;
        }
        asked := i + 1;
        var answer := Ask(names[i], world.answers(i));
        assert old(called) + names[..i + 1] == old(called) + names[..i] + [names[i]];
        match answer {
          case Answered(plan) =>
            RecordSuccess(names[i]);
            EndsByAnswer(names, fallback, world, began, now, asked, before);
            return Resolved(plan), asked, authenticated;
          case Failed(error) =>
            CollectedGrows(names, world, i, errors);
            errors := errors[names[i] := error];
            RestrictedStops(error);
            if CanTryAuthenticated(error) && fallback.Some? {
              authenticated := true;
              outcome := ResolveAuthenticated(world, errors, now);
              EndsByFallback(names, fallback, world, began, now, asked, errors, before);
              return outcome, asked, authenticated;
            }
            if StopsProviderFallback(error) {
              RecordRateLimit(error, now);
              EndsByStop(names, fallback, world, began, now, asked, errors, before);
              return Stopped(error), asked, authenticated;
            }
        }
      }
      assert PassedOn(world, asked - 1);
      if fallback.Some? && MayBenefitFromAuthentication(errors) {
        authenticated := true;
        outcome := ResolveAuthenticated(world, errors, now);
        EndsByFallback(names, fallback, world, began, now, asked, errors, before);
        return outcome, asked, authenticated;
      }
      EndsByExhaustion(names, fallback, world, began, now, errors, before);
      return AllFailed(errors), asked, authenticated;
    }

    /**
    What `Resolve` does when the request has its turn: the cache is looked at once more, the cascade is asked, and a
    plan from it is stored.
    */
    method ResolveInTurn(key: string, world: World, times: nat -> int)
      returns (outcome: Outcome, ghost asked: nat, ghost authenticated: bool, ghost evicted: Option<string>)
      requires Valid() && key != "" && latest <= times(2) && forall i, j :: i < j ==> times(i) <= times(j)
      modifies this`cache, this`lastUsed, this`rateLimitedUntil, this`log, this`stored, this`latest, this`called
      ensures Valid() && latest <= times(5) && asked <= |names| && (authenticated ==> fallback.Some?)
      ensures called == old(called) + Asked(asked, authenticated)
      ensures if key in old(cache) && times(2) < old(cache)[key].validUntil then
                && outcome == Resolved(old(cache)[key].plan) && asked == 0 && !authenticated && cache == old(cache)
                && State() == old(State())
              else
                && CascadeEnds(names, fallback, world, times(3), times(4), asked, authenticated, outcome,
                               old(State()), State())
                && IsLeft(key, cache, outcome, times(5), expiry)
      ensures KeepsOthers(old(cache) - {key}, cache, key, times(5), evicted)
      ensures evicted.Some? ==> |old(cache) - {key}| >= MAXIMUM_ENTRIES
    {
      hide Valid, RequestKey, CascadeEnds, IsCacheable, IsPruned, Deadline, WasStored, KeepsOthers, Live, Asked;
      asked, authenticated, evicted := 0, false, None;
      NothingAsked();
      OthersStay(cache, key, times(5));
      var cached := CachedPlan(key, times(2));
      if cached.Some? {
        return Resolved(cached.value), asked, authenticated, evicted;
      }
      ghost var dropped := cache;
      outcome, asked, authenticated := ResolveUncached(world, times(3), times(4));
      SizeFits();
      if outcome.Resolved? {
        StorePlan(key, outcome.plan, times(5));
        evicted := PlanStored(dropped, cache, key, outcome.plan, times(5), expiry, times(5));
      }
    }

    /** Another request for the same key may have had its turn before. */
    method StoreMeanwhile(key: string, meanwhile: Option<Plan>, now: int, ghost until: int)
      returns (ghost evicted: Option<string>)
      requires Valid() && key != "" && latest <= now <= until
      modifies this`cache, this`log, this`stored, this`latest
      ensures Valid() && latest <= now && KeepsOthers(old(cache), cache, key, until, evicted)
      ensures if meanwhile.Some? && IsCacheable(meanwhile.value, now, expiry) then
                && |cache - {key}| < MAXIMUM_ENTRIES && key in cache
                && cache[key] == CacheEntry(meanwhile.value, Deadline(meanwhile.value, now, expiry))
              else cache == old(cache) && evicted == None
    {
      hide Valid, IsCacheable, IsPruned, Deadline, WasStored, KeepsOthers;
      evicted := None;
      OthersStay(cache, key, until);
      if meanwhile.Some? {
        SizeFits();
        StorePlan(key, meanwhile.value, now);
        evicted := PlanStored(old(cache), cache, key, meanwhile.value, now, expiry, until);
      }
    }

    lemma SizeFits()
      requires Valid()
      ensures |cache| <= MAXIMUM_ENTRIES
    {
    }

    /** A request that found nothing in the cache: another one may have its turn before. */
    method ResolveMissed(key: string, meanwhile: Option<Plan>, world: World, times: nat -> int)
      returns (outcome: Outcome, ghost asked: nat, ghost authenticated: bool)
      requires Valid() && key != "" && latest <= times(1) && forall i, j :: i < j ==> times(i) <= times(j)
      requires key !in cache
      modifies this`cache, this`lastUsed, this`rateLimitedUntil, this`log, this`stored, this`latest, this`called
      ensures Valid() && latest <= times(5) && asked <= |names| && (authenticated ==> fallback.Some?)
      ensures called == old(called) + Asked(asked, authenticated)
      ensures if IsOvertaken(meanwhile, times, expiry) then
                outcome == Resolved(meanwhile.value) && asked == 0 && !authenticated && State() == old(State())
              else
                && CascadeEnds(names, fallback, world, times(3), times(4), asked, authenticated, outcome,
                               old(State()), State())
                && IsLeft(key, cache, outcome, times(5), expiry)
      ensures exists evicted :: KeepsOthers(old(cache), cache, key, times(5), evicted)
    {
      hide Valid, CascadeEnds, IsCacheable, IsPruned, Deadline, WasStored, KeepsOthers, Live, Asked, IsLeft;
      SizeFits();
      assert cache - {key} == cache;
      OthersStay(cache, key, times(5));
      ghost var first := StoreMeanwhile(key, meanwhile, times(1), times(5));
      ghost var middle, second := cache, None;
      outcome, asked, authenticated, second := ResolveInTurn(key, world, times);
      KeepsAllAlong(old(cache), old(cache), middle, cache, key, times(5), first, second);
    }

    /**
    `Resolve`: the cache is looked at, and once more when the request has its turn; by then another request for
    the same key may have stored a plan (`meanwhile`). `times` are the clock readings on the way. A hit leaves the
    cache alone; otherwise `KeepsOthers` says what becomes of the other entries.
    */
    method Resolve(video: string, source: string, ended: bool, meanwhile: Option<Plan>, world: World, times: nat -> int)
      returns (outcome: Outcome, ghost asked: nat, ghost authenticated: bool)
      requires Valid() && latest <= times(0) && forall i, j :: i < j ==> times(i) <= times(j)
      modifies this`cache, this`lastUsed, this`rateLimitedUntil, this`log, this`stored, this`latest, this`called
      ensures Valid() && latest <= times(5) && asked <= |names| && (authenticated ==> fallback.Some?)
      ensures called == old(called) + Asked(asked, authenticated)
      ensures ended ==> outcome == RequestEnded && cache == old(cache) && asked == 0 && !authenticated
      ensures var key := RequestKey(video, source);
              !ended ==>
                if key in old(cache) && times(0) < old(cache)[key].validUntil then
                  && outcome == Resolved(old(cache)[key].plan) && asked == 0 && !authenticated
                  && cache == old(cache) && State() == old(State())
                else if IsOvertaken(meanwhile, times, expiry) then
                  outcome == Resolved(meanwhile.value) && asked == 0 && !authenticated && State() == old(State())
                else
                  && CascadeEnds(names, fallback, world, times(3), times(4), asked, authenticated, outcome,
                                 old(State()), State())
                  && IsLeft(key, cache, outcome, times(5), expiry)
      ensures exists evicted :: KeepsOthers(old(cache), cache, RequestKey(video, source), times(5), evicted)
    {
      hide Valid, RequestKey, CascadeEnds, IsCacheable, IsOvertaken, Deadline, KeepsOthers, Asked, IsLeft;
      asked, authenticated := 0, false;
      NothingAsked();
      SizeFits();
      var key := RequestKey(video, source);
      OthersStay(cache, key, times(5));
      if ended {
        return RequestEnded, asked, authenticated;
      }
      var cached := CachedPlan(key, times(0));
      if cached.Some? {
        return Resolved(cached.value), asked, authenticated;
      }
      ghost var before := cache;
      outcome, asked, authenticated := ResolveMissed(key, meanwhile, world, times);
      KeepsWithout(old(cache), before, cache, key, times(5));
    }

    lemma NothingAsked()
      ensures Asked(0, false) == [] && called + [] == called
    {
    }
  }

  /** Another request for the same key stored a plan, and it is still good when this one has its turn. */
  predicate IsOvertaken(meanwhile: Option<Plan>, times: nat -> int, expiry: UrlExpiry) {
    && meanwhile.Some? && IsCacheable(meanwhile.value, times(1), expiry)
    && times(2) < Deadline(meanwhile.value, times(1), expiry)
  }

  /** What a request that went to the providers leaves under its key: the plan they gave, if it may be stored. */
  predicate IsLeft(key: string, cache: Cache, outcome: Outcome, now: int, expiry: UrlExpiry) {
    if outcome.Resolved? && IsCacheable(outcome.plan, now, expiry) then
      key in cache && cache[key] == CacheEntry(outcome.plan, Deadline(outcome.plan, now, expiry))
    else key !in cache
  }

  lemma KeepsWithout(a: Cache, b: Cache, c: Cache, key: string, until: int)
    requires b == a - {key} && |a| <= MAXIMUM_ENTRIES && exists evicted :: KeepsOthers(b, c, key, until, evicted)
    ensures exists evicted :: KeepsOthers(a, c, key, until, evicted)
  {
    OthersStay(a, key, until);
    hide KeepsOthers;
    var evicted :| KeepsOthers(b, c, key, until, evicted);
    KeepsAgain(a, b, c, key, until, None, evicted);
  }

  /** The request goes on to the providers. */
  predicate GoesOn(names: seq<string>, began: int, before: Marks) {
    names != [] && !(before.limitedUntil.Some? && began < before.limitedUntil.value)
  }

  lemma EndsEarly(names: seq<string>, fallback: Option<string>, world: World, began: int, now: int, before: Marks)
    requires !GoesOn(names, began, before)
    ensures CascadeEnds(names, fallback, world, began, now, 0, false,
                        if names == [] then NoProvider else LimitActive, before, before)
  {
    hide Decided, IsPrefix;
  }

  lemma EndsByRequest(
    names: seq<string>, fallback: Option<string>, world: World, began: int, now: int, i: nat, before: Marks)
    requires GoesOn(names, began, before) && i < |names| && world.ended(i)
    requires forall k :: 0 <= k < i ==> PassedOn(world, k)
    ensures CascadeEnds(names, fallback, world, began, now, i, false, RequestEnded, before, before)
  {
    hide Collected, StopsProviderFallback;
    assert i > 0 ==> PassedOn(world, i - 1);
  }

  lemma EndsByAnswer(
    names: seq<string>, fallback: Option<string>, world: World, began: int, now: int, asked: nat, before: Marks)
    requires GoesOn(names, began, before) && 0 < asked <= |names|
    requires forall k :: 0 <= k < asked - 1 ==> PassedOn(world, k)
    requires !world.ended(asked - 1) && world.answers(asked - 1).Answered?
    ensures CascadeEnds(names, fallback, world, began, now, asked, false, Resolved(world.answers(asked - 1).plan),
                        before, before.(lastUsed := names[asked - 1]))
  {
    hide Collected, StopsProviderFallback;
  }

  /** The authenticated provider is asked behind a restriction, or behind the whole chain. */
  lemma EndsByFallback(
    names: seq<string>, fallback: Option<string>, world: World, began: int, now: int, asked: nat,
    errors: map<string, ProviderError>, before: Marks)
    requires GoesOn(names, began, before) && fallback.Some? && 0 < asked <= |names|
    requires Collected(names, world, asked, errors)
    requires (forall k :: 0 <= k < asked - 1 ==> PassedOn(world, k)) && !world.ended(asked - 1)
    requires world.answers(asked - 1).Failed?
    requires if PassedOn(world, asked - 1) then asked == |names| && MayBenefitFromAuthentication(errors)
             else CanTryAuthenticated(world.answers(asked - 1).error)
    ensures CascadeEnds(names, fallback, world, began, now, asked, true,
                        FallbackOutcome(world.authenticated, errors, fallback.value), before,
                        AfterFallback(world.authenticated, fallback.value, before, now))
  {
    hide Collected, StopsProviderFallback, CanTryAuthenticated, MayBenefitFromAuthentication;
  }

  lemma EndsByStop(
    names: seq<string>, fallback: Option<string>, world: World, began: int, now: int, asked: nat,
    errors: map<string, ProviderError>, before: Marks)
    requires GoesOn(names, began, before) && 0 < asked <= |names| && Collected(names, world, asked, errors)
    requires (forall k :: 0 <= k < asked - 1 ==> PassedOn(world, k)) && !world.ended(asked - 1)
    requires world.answers(asked - 1).Failed?
    requires StopsProviderFallback(world.answers(asked - 1).error)
    requires !(CanTryAuthenticated(world.answers(asked - 1).error) && fallback.Some?)
    ensures var error := world.answers(asked - 1).error;
            CascadeEnds(names, fallback, world, began, now, asked, false, Stopped(error), before,
                        if HasKind(error, {RateLimited}) then before.(limitedUntil := Some(now + MINUTE)) else before)
  {
    hide Collected, StopsProviderFallback, CanTryAuthenticated, MayBenefitFromAuthentication, HasKind;
  }

  lemma EndsByExhaustion(
    names: seq<string>, fallback: Option<string>, world: World, began: int, now: int,
    errors: map<string, ProviderError>, before: Marks)
    requires GoesOn(names, began, before) && Collected(names, world, |names|, errors)
    requires forall k :: 0 <= k < |names| ==> PassedOn(world, k)
    requires !(fallback.Some? && MayBenefitFromAuthentication(errors))
    ensures CascadeEnds(names, fallback, world, began, now, |names|, false, AllFailed(errors), before, before)
  {
    hide Collected, StopsProviderFallback, CanTryAuthenticated, MayBenefitFromAuthentication, HasKind;
    assert PassedOn(world, |names| - 1);
  }

  lemma RestrictedStops(error: ProviderError)
    ensures CanTryAuthenticated(error) ==> StopsProviderFallback(error)
  {
  }

  lemma NoneCollected(names: seq<string>, world: World)
    ensures Collected(names, world, 0, map[])
  {
  }

  lemma CollectedGrows(names: seq<string>, world: World, i: nat, errors: map<string, ProviderError>)
    requires i < |names| && Collected(names, world, i, errors) && world.answers(i).Failed?
    ensures Collected(names, world, i + 1, errors[names[i] := world.answers(i).error])
  {
    var errors' := errors[names[i] := world.answers(i).error];
    forall k | 0 <= k < i + 1 && (forall m :: k < m < i + 1 ==> names[m] != names[k])
      ensures names[k] in errors' && world.answers(k) == Failed(errors'[names[k]])
    {
      assert k < i ==> names[i] != names[k];
      assert forall m :: k < m < i ==> names[m] != names[k];
    }
  }

  /** The key an eviction removes: the loop of `pruneCacheLocked`, where the empty key stands for "none yet". */
  method NearestKey(cache: Cache) returns (oldestKey: string)
    requires |cache| > 0 && "" !in cache
    ensures IsNearest(cache, oldestKey)
  {
    oldestKey := "";
    var oldestDeadline := 0;
    var left := cache.Keys;
    while left != {}
      invariant left <= cache.Keys
      invariant oldestKey == "" ==> left == cache.Keys
      invariant oldestKey != "" ==>
                  && oldestKey in cache && oldestDeadline == cache[oldestKey].validUntil
                  && forall key :: key in cache && key !in left ==> oldestDeadline <= cache[key].validUntil
      decreases left
    {
      var key :| key in left;
      if oldestKey == "" || cache[key].validUntil < oldestDeadline {
        oldestKey := key;
        oldestDeadline := cache[key].validUntil;
      }
      left := left - {key};
    }
    assert cache.Keys != {};
  }

  /**
  The authenticated provider is asked only after a failure that signing in can cure: the last provider
  asked reported a restriction, or the whole chain failed and a provider was stopped by a bot check.
  */
  lemma AuthenticatedOnlyWhenUseful(
    names: seq<string>, fallback: Option<string>, world: World, began: int, now: int, asked: nat, outcome: Outcome,
    before: Marks, after: Marks)
    requires CascadeEnds(names, fallback, world, began, now, asked, true, outcome, before, after)
    ensures asked > 0 && world.answers(asked - 1).Failed?
    ensures || HasKind(world.answers(asked - 1).error, {Restricted})
            || (&& asked == |names|
                && exists i ::
                    0 <= i < asked && world.answers(i).Failed? && HasKind(world.answers(i).error, {BotCheck}))
  {
    hide StopsProviderFallback;
    var errors :| Collected(names, world, asked, errors)
      && fallback.Some?
      && (if asked == |names| && (asked == 0 || PassedOn(world, asked - 1)) then MayBenefitFromAuthentication(errors)
          else CanTryAuthenticated(world.answers(asked - 1).error));
    if asked == |names| && (asked == 0 || PassedOn(world, asked - 1)) {
      var name :| name in errors && HasKind(errors[name], {BotCheck});
      var i := LastNamed(names, asked, name);
      assert world.answers(i) == Failed(errors[name]);
    }
  }

  function LastNamed(names: seq<string>, asked: nat, name: string): (i: nat)
    requires asked <= |names| && exists k :: 0 <= k < asked && names[k] == name
    ensures i < asked && names[i] == name && forall k :: i < k < asked ==> names[k] != name
  {
    if names[asked - 1] == name then asked - 1 else LastNamed(names, asked - 1, name)
  }

  // ---------------------------------------------------------------- what the chain comes to

  /** A failure that says nothing against asking the next provider. */
  predicate IsPlainFailure(answer: Answer) {
    && answer.Failed?
    && answer.error.kind !in
         [Some(Restricted), Some(Drm), Some(Unavailable), Some(RateLimited), Some(CookieDecryption)]
  }

  /** The first k providers fail in ways that say nothing against asking the next, and the request goes on. */
  predicate FailPlainly(world: World, k: nat) {
    forall i :: 0 <= i < k ==> !world.ended(i) && IsPlainFailure(world.answers(i))
  }

  lemma PlainPassesOn(world: World, k: nat)
    ensures FailPlainly(world, k) <==> forall i :: 0 <= i < k ==> PassedOn(world, i)
  {
    forall i | 0 <= i < k
      ensures PassedOn(world, i) <==> !world.ended(i) && IsPlainFailure(world.answers(i)) {
      if world.answers(i).Failed? {
        WhatStops(world.answers(i).error);
      }
    }
  }

  /** How far the chain is asked, when provider k is the first that does not fail plainly. */
  lemma AskedUpTo(world: World, count: nat, asked: nat, k: nat)
    requires IsPrefix(world, count, asked) && k < count && FailPlainly(world, k)
    requires !world.ended(k) && !IsPlainFailure(world.answers(k))
    ensures asked == k + 1 && !PassedOn(world, k)
  {
    PlainPassesOn(world, k);
    PlainPassesOn(world, k + 1);
    assert !PassedOn(world, k);
  }

  /** The first provider that answers behind plain failures decides: its plan is the outcome, nobody else is asked. */
  lemma FirstAnswerWins(
    names: seq<string>, fallback: Option<string>, world: World, began: int, now: int, asked: nat, authenticated: bool,
    outcome: Outcome, before: Marks, after: Marks, k: nat)
    requires CascadeEnds(names, fallback, world, began, now, asked, authenticated, outcome, before, after)
    requires before.limitedUntil.Some? ==> before.limitedUntil.value <= began
    requires k < |names| && FailPlainly(world, k) && !world.ended(k) && world.answers(k).Answered?
    ensures outcome == Resolved(world.answers(k).plan) && asked == k + 1 && !authenticated
    ensures after == Marks(names[k], before.limitedUntil)
  {
    hide FailPlainly, PassedOn;
    AskedUpTo(world, |names|, asked, k);
  }

  /** A failure that is not plain ends the chain; only behind a restriction the authenticated provider is asked. */
  lemma HardFailureEnds(
    names: seq<string>, fallback: Option<string>, world: World, began: int, now: int, asked: nat, authenticated: bool,
    outcome: Outcome, before: Marks, after: Marks, k: nat)
    requires CascadeEnds(names, fallback, world, began, now, asked, authenticated, outcome, before, after)
    requires before.limitedUntil.Some? ==> before.limitedUntil.value <= began
    requires k < |names| && FailPlainly(world, k) && !world.ended(k)
    requires world.answers(k).Failed? && !IsPlainFailure(world.answers(k))
    ensures asked == k + 1
    ensures authenticated <==> fallback.Some? && world.answers(k).error.kind == Some(Restricted)
    ensures !authenticated ==>
              && outcome == Stopped(world.answers(k).error) && after.lastUsed == before.lastUsed
              && after.limitedUntil == if world.answers(k).error.kind == Some(RateLimited) then Some(now + MINUTE)
                                       else before.limitedUntil
    ensures authenticated && world.authenticated.Answered? ==> outcome == Resolved(world.authenticated.plan)
  {
    hide FailPlainly, PassedOn, StopsProviderFallback, Collected;
    AskedUpTo(world, |names|, asked, k);
    WhatStops(world.answers(k).error);
  }

  /** When all fail plainly, the authenticated provider is asked exactly behind a bot check. */
  lemma PlainFailuresEnd(
    names: seq<string>, fallback: Option<string>, world: World, began: int, now: int, asked: nat, authenticated: bool,
    outcome: Outcome, before: Marks, after: Marks)
    requires CascadeEnds(names, fallback, world, began, now, asked, authenticated, outcome, before, after)
    requires before.limitedUntil.Some? ==> before.limitedUntil.value <= began
    requires names != [] && FailPlainly(world, |names|) && DistinctNames(names)
    ensures asked == |names|
    ensures authenticated <==>
              && fallback.Some?
              && exists i :: 0 <= i < |names| && world.answers(i).error.kind == Some(BotCheck)
    ensures !authenticated ==>
              && after == before && outcome.AllFailed?
              && (forall i :: 0 <= i < |names| ==>
                   names[i] in outcome.errors && outcome.errors[names[i]] == world.answers(i).error)
    ensures authenticated ==>
              match world.authenticated
              case Answered(plan) => outcome == Resolved(plan) && after == Marks(fallback.value, before.limitedUntil)
              case Failed(error) =>
                if error.cancelled then outcome == RequestEnded && after == before
                else outcome.AllFailed? && after.lastUsed == before.lastUsed
  {
    PlainPassesOn(world, |names|);
    hide FailPlainly, PassedOn, StopsProviderFallback;
    assert world.answers(|names| - 1).Failed? by { PlainAreFailed(world, |names|); }
    assert asked == |names|;
    assert PassedOn(world, |names| - 1);
    var errors :| Collected(names, world, asked, errors)
      && (authenticated <==> fallback.Some? && MayBenefitFromAuthentication(errors))
      && (!authenticated ==> outcome == AllFailed(errors) && after == before)
      && (authenticated ==> outcome == FallbackOutcome(world.authenticated, errors, fallback.value));
    forall i | 0 <= i < |names| ensures names[i] in errors && world.answers(i) == Failed(errors[names[i]]) {
      assert forall k :: i < k < asked ==> names[k] != names[i];
    }
    if MayBenefitFromAuthentication(errors) {
      var name :| name in errors && HasKind(errors[name], {BotCheck});
      var i := LastNamed(names, asked, name);
      assert world.answers(i).error.kind == Some(BotCheck);
    }
    if i :| 0 <= i < |names| && world.answers(i).error.kind == Some(BotCheck) {
      assert HasKind(errors[names[i]], {BotCheck});
    }
  }

  ghost predicate DistinctNames(names: seq<string>) {
    forall i, j :: 0 <= i < j < |names| ==> names[i] != names[j]
  }

  lemma PlainAreFailed(world: World, k: nat)
    requires FailPlainly(world, k)
    ensures forall i :: 0 <= i < k ==> world.answers(i).Failed?
  {
  }

  // ---------------------------------------------------------------- a plan is served again

  /** Resolved media with a URL that was stored at one instant is good at a later one. */
  ghost predicate IsGood(plan: Plan, stored: int, at: int, expiry: UrlExpiry) {
    && plan.mode == ResolvedMedia && Trim(plan.primary.url) != ""
    && at < stored + 10 * MINUTE && Playable(plan, at, expiry)
    && ((plan.expiresAt.None? && forall url :: url in Urls(plan) ==> expiry(url).None?) ==> at < stored + 30 * SECOND)
  }

  lemma GoodIsServed(plan: Plan, stored: int, at: int, expiry: UrlExpiry)
    requires IsGood(plan, stored, at, expiry) && stored <= at
    ensures IsCacheable(plan, stored, expiry) && at < Deadline(plan, stored, expiry)
  {
    hide Trim, Urls, Deadline;
    DeadlineMeaning(plan, stored, expiry, at);
  }

  lemma RoomIsKept(before: Cache, after: Cache, key: string, until: int, other: string)
    requires (exists evicted :: KeepsOthers(before, after, key, until, evicted)) && |before| < MAXIMUM_ENTRIES
    ensures |after| <= |before| + 1
    ensures other in before && other != key && until < before[other].validUntil ==>
              other in after && after[other] == before[other]
  {
    SubsetSize(after.Keys, before.Keys + {key});
    KeysSize(after);
    KeysSize(before);
  }

  /** When request k reads the clock: in order, and in order with the requests before and behind it. */
  ghost predicate TimesRun(times: (nat, nat) -> int) {
    && (forall k: nat, i: nat, j: nat :: i < j ==> times(k, i) <= times(k, j))
    && (forall k: nat :: times(k, 5) <= times(k + 1, 0))
  }

  datatype Request = Request(video: string, source: string)

  /** One more request, while there is room: an entry of another key stays until its deadline. */
  method ResolveWithRoom(
    resolver: CascadingResolver, request: Request, world: World, readings: nat -> int, ghost key: string)
    returns (outcome: Outcome, ghost asked: nat)
    requires resolver.Valid() && resolver.latest <= readings(0) && |resolver.cache| < MAXIMUM_ENTRIES
    requires forall i, j :: i < j ==> readings(i) <= readings(j)
    modifies resolver
    ensures resolver.Valid() && resolver.latest <= readings(5) && |resolver.cache| <= old(|resolver.cache|) + 1
    ensures key in old(resolver.cache) && RequestKey(request.video, request.source) != key
            && readings(5) < old(resolver.cache)[key].validUntil ==>
              key in resolver.cache && resolver.cache[key] == old(resolver.cache)[key]
    ensures key == RequestKey(request.video, request.source) && outcome.Resolved? && asked > 0
            && IsCacheable(outcome.plan, readings(5), resolver.expiry) ==>
              key in resolver.cache
              && resolver.cache[key] == CacheEntry(outcome.plan, Deadline(outcome.plan, readings(5), resolver.expiry))
    ensures key == RequestKey(request.video, request.source) && key in old(resolver.cache)
            && readings(0) < old(resolver.cache)[key].validUntil ==>
              outcome == Resolved(old(resolver.cache)[key].plan) && resolver.called == old(resolver.called)
  {
    hide CascadingResolver.Valid, RequestKey, CascadeEnds, IsCacheable, Deadline, KeepsOthers, IsOvertaken;
    ghost var authenticated;
    outcome, asked, authenticated :=
      resolver.Resolve(request.video, request.source, false, None, world, readings);
    resolver.NothingAsked();
    RoomIsKept(old(resolver.cache), resolver.cache, RequestKey(request.video, request.source), readings(5), key);
  }

  predicate Keeps(cache: Cache, key: string, entry: CacheEntry) {
    key in cache && cache[key] == entry
  }

  /** Requests 1 to n: while there is room, an entry of another key stays until its deadline. */
  method ResolveOthers(
    resolver: CascadingResolver, others: seq<Request>, worlds: nat -> World, times: (nat, nat) -> int,
    ghost key: string, ghost entry: CacheEntry)
    requires resolver.Valid() && resolver.latest <= times(0, 5) && TimesRun(times)
    requires |resolver.cache| + |others| <= MAXIMUM_ENTRIES
    requires forall k :: 0 <= k < |others| ==> RequestKey(others[k].video, others[k].source) != key
    modifies resolver
    ensures resolver.Valid() && resolver.latest <= times(|others|, 5)
    ensures |resolver.cache| <= old(|resolver.cache|) + |others|
    ensures Keeps(old(resolver.cache), key, entry) && times(|others| + 1, 0) < entry.validUntil ==>
              Keeps(resolver.cache, key, entry)
  {
    hide CascadingResolver.Valid, RequestKey, IsCacheable, Deadline, TimesRun;
    for k := 0 to |others|
      invariant resolver.Valid() && resolver.latest <= times(k, 5)
      invariant |resolver.cache| <= old(|resolver.cache|) + k
      invariant Keeps(old(resolver.cache), key, entry) && times(|others| + 1, 0) < entry.validUntil ==>
                  Keeps(resolver.cache, key, entry)
    {
      InOrder(times, k, k + 1);
      InOrder(times, k + 1, |others| + 1);
      var other;
      ghost var count;
      other, count := ResolveWithRoom(resolver, others[k], worlds(k + 1), Readings(times, k + 1), key);
    }
  }

  /**
  A plan that a provider gave is given again: while it is good, the same request later is answered with the same plan
  and nobody is asked, whatever else is requested in between, as long as there is room in the cache.
  */
  method ResolveAgain(
    resolver: CascadingResolver, request: Request, between: seq<Request>, worlds: nat -> World,
    times: (nat, nat) -> int)
    returns (first: Outcome, ghost asked: nat, second: Outcome, ghost called: seq<string>)
    requires resolver.Valid() && resolver.latest <= times(0, 0) && TimesRun(times)
    requires |resolver.cache| + |between| + 1 < MAXIMUM_ENTRIES
    requires forall k :: 0 <= k < |between| ==>
               RequestKey(between[k].video, between[k].source) != RequestKey(request.video, request.source)
    modifies resolver
    ensures resolver.Valid()
    ensures var last := |between| + 1;
            first.Resolved? && asked > 0 && IsGood(first.plan, times(0, 5), times(last, 0), resolver.expiry) ==>
              second == first && resolver.called == called
  {
    hide CascadingResolver.Valid, RequestKey, IsCacheable, Deadline, IsGood, TimesRun;
    ghost var key := RequestKey(request.video, request.source);
    var last := |between| + 1;
    InOrder(times, 0, last);
    first, asked := ResolveWithRoom(resolver, request, worlds(0), Readings(times, 0), key);
    ghost var entry := CacheEntry(Plan(Direct, "", Stream("", map[]), None, None, [], [], "", None), 0);
    if first.Resolved? && asked > 0 && IsGood(first.plan, times(0, 5), times(last, 0), resolver.expiry) {
      GoodIsServed(first.plan, times(0, 5), times(last, 0), resolver.expiry);
      entry := CacheEntry(first.plan, Deadline(first.plan, times(0, 5), resolver.expiry));
    }
    ResolveOthers(resolver, between, worlds, times, key, entry);
    InOrder(times, |between|, last);
    InOrder(times, last, last);
    called := resolver.called;
    ghost var count;
    second, count := ResolveWithRoom(resolver, request, worlds(last), Readings(times, last), key);
  }

  /** The clock readings of request k. */
  function Readings(times: (nat, nat) -> int, k: nat): nat -> int {
    (i: nat) => times(k, i)
  }

  lemma {:induction false} InOrder(times: (nat, nat) -> int, k: nat, n: nat)
    requires TimesRun(times) && k <= n
    ensures forall i, j :: i < j ==> Readings(times, k)(i) <= Readings(times, k)(j)
    ensures k < n ==> times(k, 5) <= times(n, 0)
    decreases n
  {
    if k + 1 < n {
      InOrder(times, k, n - 1);
      assert times(n - 1, 0) <= times(n - 1, 5) <= times(n - 1 + 1, 0);
    } else if k < n {
      assert times(k, 5) <= times(k + 1, 0);
    }
  }
}
