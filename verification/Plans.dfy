/** Playback plans (internal/domain/ports.go) and the stream URLs they name. Times are nanoseconds. */
module Plans {
  import opened Wrappers

  const SECOND := 1_000_000_000
  const MINUTE := 60 * SECOND
  const HOUR := 60 * MINUTE

  datatype Mode = Direct | YtdlHook | ResolvedMedia

  datatype Stream = Stream(url: string, headers: map<string, string>)

  datatype Variant = Variant(id: string, stream: Stream)

  datatype Subtitle = Subtitle(language: string, url: string)

  datatype Plan = Plan(
    mode: Mode, loadTarget: string, primary: Stream, audio: Option<Stream>, audioOnly: Option<Stream>,
    variants: seq<Variant>, subtitles: seq<Subtitle>, title: string, expiresAt: Option<int>)

  /** `mediaURLExpiry`: the expiry a URL carries in its query, which needs URL parsing. */
  type UrlExpiry = string -> Option<int>

  function Optional<T>(value: Option<T>): seq<T> {
    if value.Some? then [value.value] else []
  }

  function VariantStreams(variants: seq<Variant>): seq<Stream> {
    seq(|variants|, i requires 0 <= i < |variants| => variants[i].stream)
  }

  /** The streams of a plan in the order the source visits them. */
  function Streams(plan: Plan): seq<Stream> {
    [plan.primary] + Optional(plan.audio) + Optional(plan.audioOnly) + VariantStreams(plan.variants)
  }

  /** `playbackPlanURLs` */
  function Urls(plan: Plan): (urls: seq<string>)
    ensures |urls| == |Streams(plan)| && forall i :: 0 <= i < |urls| ==> urls[i] == Streams(plan)[i].url
  {
    seq(|Streams(plan)|, i requires 0 <= i < |Streams(plan)| => Streams(plan)[i].url)
  }

  /** The earlier of two optional instants; an absent one does not constrain. */
  function Earlier(a: Option<int>, b: Option<int>): Option<int> {
    if a.None? then b else if b.None? || a.value <= b.value then a else b
  }

  /** The earliest known expiry among some URLs, starting from one known already. */
  function EarliestExpiry(known: Option<int>, urls: seq<string>, expiry: UrlExpiry): Option<int> {
    if urls == [] then known else Earlier(EarliestExpiry(known, urls[..|urls| - 1], expiry), expiry(urls[|urls| - 1]))
  }

  /** No later than every known expiry, and equal to one of them unless none is known. */
  lemma {:induction false} EarliestIsLeast(known: Option<int>, urls: seq<string>, expiry: UrlExpiry)
    ensures var least := EarliestExpiry(known, urls, expiry);
            && (known.Some? ==> least.Some? && least.value <= known.value)
            && (forall url :: url in urls && expiry(url).Some? ==> least.Some? && least.value <= expiry(url).value)
            && (least.Some? ==> least == known || exists url :: url in urls && expiry(url) == least)
  {
    if urls != [] {
      var front, last := urls[..|urls| - 1], urls[|urls| - 1];
      EarliestIsLeast(known, front, expiry);
      assert forall url :: url in urls <==> url in front || url == last;
    }
  }
}
