/** How failure kinds steer the fallback between resolvers (internal/playback/explicit_ytdlp.go). */
module FailurePolicy {
  import opened Wrappers

  datatype Kind =
    | Unknown | BotCheck | RateLimited | NoFormats | MediaBlocked | YtdlpMissing | Unavailable | Network
    | ExtractorMissing | ExtractorOutdated | JsRuntimeMissing | EjsMissing | PotProviderMissing | PotGeneration
    | VisitorDataMissing | ExtractorTimeout | OutputLimit | GvsForbidden | Drm | Restricted | CookieDecryption
    | ExpiredMediaUrl | Player

  /** An error as the policy sees it: the failure found in its chain, if any, and whether the context ended. */
  datatype ProviderError = ProviderError(kind: Option<Kind>, cancelled: bool)

  predicate HasKind(error: ProviderError, kinds: set<Kind>) {
    error.kind.Some? && error.kind.value in kinds
  }

  predicate StopsProviderFallback(error: ProviderError) {
    HasKind(error, {Restricted, Drm, Unavailable, RateLimited, CookieDecryption})
  }

  predicate CanTryAuthenticated(error: ProviderError) {
    HasKind(error, {Restricted})
  }

  predicate MayBenefitFromAuthentication(errors: map<string, ProviderError>) {
    exists name :: name in errors && HasKind(errors[name], {BotCheck})
  }

  /** Five kinds end the chain; a restriction alone is handed to the authenticated provider at once. */
  lemma WhatStops(error: ProviderError)
    ensures StopsProviderFallback(error) <==>
              error.kind in [Some(Restricted), Some(Drm), Some(Unavailable), Some(RateLimited), Some(CookieDecryption)]
    ensures CanTryAuthenticated(error) <==> error.kind == Some(Restricted)
    ensures CanTryAuthenticated(error) ==> StopsProviderFallback(error)
  {
  }

  function SelectionScore(kind: Kind): nat {
    match kind
    case CookieDecryption => 5
    case Restricted | Drm | Unavailable => 4
    case PotProviderMissing | PotGeneration | JsRuntimeMissing | EjsMissing => 3
    case BotCheck | NoFormats | VisitorDataMissing => 2
    case Unknown => 0
    case _ => 1
  }

  /** Index `at` holds the failure to report: none scores higher, and none behind it scores as high. */
  ghost predicate IsFinal(attempts: seq<ProviderError>, at: nat) {
    && at < |attempts| && attempts[at].kind.Some?
    && (forall i :: 0 <= i < |attempts| && attempts[i].kind.Some? ==>
          SelectionScore(attempts[i].kind.value) <= SelectionScore(attempts[at].kind.value))
    && (forall i :: at < i < |attempts| && attempts[i].kind.Some? ==>
          SelectionScore(attempts[i].kind.value) < SelectionScore(attempts[at].kind.value))
  }

  /** The most telling failure of all attempts, the last one among equals; None when no attempt holds a failure. */
  method SelectFinalFailure(attempts: seq<ProviderError>) returns (selected: Option<Kind>)
    ensures selected.None? <==> forall i :: 0 <= i < |attempts| ==> attempts[i].kind.None?
    ensures selected.Some? ==> exists at: nat :: IsFinal(attempts, at) && attempts[at].kind == selected
  {
    var selectedScore: int := -1;
    ghost var at: nat := 0;
    selected := None;
    for i := 0 to |attempts|
      invariant selectedScore == (if selected.Some? then SelectionScore(selected.value) else -1)
      invariant selected.None? ==> forall j :: 0 <= j < i ==> attempts[j].kind.None?
      invariant selected.Some? ==> IsFinal(attempts[..i], at) && attempts[at].kind == selected
    {
      if attempts[i].kind.None? {
        continue;
      }
      var score := SelectionScore(attempts[i].kind.value);
      if score >= selectedScore {
        selected := attempts[i].kind;
        selectedScore := score;
        at := i;
      }
    }
    assert attempts[..|attempts|] == attempts;
  }

  /** The failure to report is unique: a list has at most one final index. */
  lemma FinalIsUnique(attempts: seq<ProviderError>, a: nat, b: nat)
    requires IsFinal(attempts, a) && IsFinal(attempts, b)
    ensures a == b
  {
    hide SelectionScore;
    assert attempts[a].kind.Some? && attempts[b].kind.Some?;
  }

  ghost predicate Occurs(attempts: seq<ProviderError>, kinds: set<Kind>) {
    exists i :: 0 <= i < |attempts| && attempts[i].kind.Some? && attempts[i].kind.value in kinds
  }

  /**
  What is reported: a failure to decrypt cookies before anything else, then what is wrong with the video itself, then
  what is missing on this machine, then what another client may not meet; the unknown last.
  */
  lemma MostTellingIsReported(attempts: seq<ProviderError>, at: nat)
    requires IsFinal(attempts, at)
    ensures var kind := attempts[at].kind.value;
            var video := {Restricted, Drm, Unavailable};
            var machine := {PotProviderMissing, PotGeneration, JsRuntimeMissing, EjsMissing};
            var client := {BotCheck, NoFormats, VisitorDataMissing};
            && (Occurs(attempts, {CookieDecryption}) ==> kind == CookieDecryption)
            && (Occurs(attempts, video) ==> kind in video + {CookieDecryption})
            && (Occurs(attempts, machine) ==> kind in machine + video + {CookieDecryption})
            && (Occurs(attempts, client) ==> kind in client + machine + video + {CookieDecryption})
            && (kind == Unknown ==>
                  forall i :: 0 <= i < |attempts| && attempts[i].kind.Some? ==> attempts[i].kind.value == Unknown)
  {
  }
}
