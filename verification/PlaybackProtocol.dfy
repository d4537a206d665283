/**
Every interleaving of `PlayAtTracked`, the goroutines it starts, `Stop` and `Close` (internal/playback/controller.go):
one program counter for each goroutine, the mutex around loads, the player, and a log of what happened.
*/
module PlaybackProtocol {
  import opened Wrappers
  import opened ControllerModel

  /** Where a playing goroutine stands; from `Checking` to `Reporting` it holds the load mutex. */
  datatype Pc =
    | Resolving | Complaining | Waiting
    | Checking | Admitted | Announced | Loading | Loaded(ok: bool) | Reporting
    | Done

  datatype Attempt = Attempt(request: Request, title: string, pc: Pc)

  datatype StopPc = Bumped | Unloading | Finished(ok: bool)

  datatype ClosePc = Open | Flagged | Cancelling | Closing | Closed

  datatype Holder = Player(generation: nat) | Stopper(generation: nat) | Closer

  /** What the player has loaded. */
  datatype Media = Nothing | Media(generation: nat) | Shut

  datatype Entry =
    | Started(generation: nat)
    | LoadBegan(generation: nat)
    | BecameCurrent(generation: nat)
    | LoadFailed(generation: nat)
    | ResolveFailed(generation: nat)
    | PlayerStopped(generation: nat, ok: bool)
    | PlayerClosed

  /**
  `attempts` by generation; `stops` by the generation the stop made; `plays` and `stopCalls` count callers that
  found the controller open and have not gone on yet; `currentOf` and `log` are history.
  */
  datatype State = State(
    fields: Fields, holder: Option<Holder>, media: Media, attempts: map<nat, Attempt>, stops: map<nat, StopPc>,
    close: ClosePc, plays: nat, stopCalls: nat, currentOf: Option<nat>, log: seq<Entry>)

  datatype Event =
    | CheckPlay
    | BeginPlay(request: Request)
    | EndContext(generation: nat)
    | Resolve(generation: nat, title: string)
    | FailResolve(generation: nat, cancelled: bool)
    | ReportResolve(generation: nat)
    | TakeLoad(generation: nat)
    | Check(generation: nat)
    | Announce(generation: nat)
    | BeginLoad(generation: nat)
    | EndLoad(generation: nat, ok: bool, media: Media)
    | RecordLoad(generation: nat, quiet: bool)
    | ReportLoad(generation: nat)
    | CheckStop
    | BumpStop
    | TakeStop(generation: nat)
    | StopPlayer(generation: nat, ok: bool, media: Media)
    | FlagClose
    | CancelClose
    | TakeClose
    | ClosePlayer

  predicate IsAt(s: State, generation: nat, pc: Pc) {
    generation in s.attempts && s.attempts[generation].pc == pc
  }

  /** Which steps can be taken; the player and the world choose freely within these bounds. */
  predicate Enabled(s: State, event: Event) {
    match event
    case CheckPlay => !s.fields.closed
    case BeginPlay(_) => s.plays > 0
    case EndContext(generation) => generation in s.attempts
    case Resolve(generation, _) => IsAt(s, generation, Resolving)
    case FailResolve(generation, _) => IsAt(s, generation, Resolving)
    case ReportResolve(generation) => IsAt(s, generation, Complaining)
    case TakeLoad(generation) => IsAt(s, generation, Waiting) && s.holder == None
    case Check(generation) => IsAt(s, generation, Checking)
    case Announce(generation) => IsAt(s, generation, Admitted)
    case BeginLoad(generation) => IsAt(s, generation, Announced)
    case EndLoad(generation, ok, media) =>
      && IsAt(s, generation, Loading)
      && (if ok then media == Media(generation)
          else media == s.media || media == Nothing || media == Media(generation))
    case RecordLoad(generation, quiet) =>
      generation in s.attempts && s.attempts[generation].pc.Loaded? && (generation in s.fields.cancelled ==> quiet)
    case ReportLoad(generation) => IsAt(s, generation, Reporting)
    case CheckStop => !s.fields.closed
    case BumpStop => s.stopCalls > 0
    case TakeStop(generation) => generation in s.stops && s.stops[generation] == Bumped && s.holder == None
    case StopPlayer(generation, ok, media) =>
      && generation in s.stops && s.stops[generation] == Unloading
      && (if s.media == Shut then media == Shut
          else if ok then media == Nothing
          else media == s.media || media == Nothing)
    case FlagClose => !s.fields.closed
    case CancelClose => s.close == Flagged
    case TakeClose => s.close == Cancelling && s.holder == None
    case ClosePlayer => s.close == Closing
  }

  function Move(s: State, generation: nat, pc: Pc): State
    requires generation in s.attempts
  {
    s.(attempts := s.attempts[generation := s.attempts[generation].(pc := pc)])
  }

  function Log(s: State, entry: Entry): State {
    s.(log := s.log + [entry])
  }

  /** One step. */
  function Apply(s: State, event: Event): State
    requires Enabled(s, event)
  {
    match event
    case CheckPlay => s.(plays := s.plays + 1)
    case BeginPlay(request) =>
      s.(plays := s.plays - 1, fields := Begun(s.fields),
         attempts := s.attempts[s.fields.generation + 1 := Attempt(request, "", Resolving)])
    case EndContext(generation) => s.(fields := s.fields.(cancelled := s.fields.cancelled + {generation}))
    case Resolve(generation, title) =>
      s.(attempts := s.attempts[generation := s.attempts[generation].(title := title, pc := Waiting)])
    case FailResolve(generation, cancelled) =>
      Move(s, generation, if cancelled || generation in s.fields.cancelled then Done else Complaining)
    case ReportResolve(generation) => Log(Move(s, generation, Done), ResolveFailed(generation))
    case TakeLoad(generation) => Move(s, generation, Checking).(holder := Some(Player(generation)))
    case Check(generation) =>
      if IsAdmitted(s.fields, generation) then Move(s, generation, Admitted)
      else Move(s, generation, Done).(holder := None)
    case Announce(generation) => Log(Move(s, generation, Announced), Started(generation))
    case BeginLoad(generation) => Log(Move(s, generation, Loading), LoadBegan(generation))
    case EndLoad(generation, ok, media) => Move(s, generation, Loaded(ok)).(media := media)
    case RecordLoad(generation, quiet) =>
      var attempt := s.attempts[generation];
      var active := IsActive(s.fields, generation);
      var s' := s.(fields := Recorded(s.fields, generation, attempt.request, attempt.title, attempt.pc.ok));
      if attempt.pc.ok && active then
        Log(Move(s', generation, Done).(holder := None, currentOf := Some(generation)), BecameCurrent(generation))
      else if attempt.pc.ok || quiet || !active then Move(s', generation, Done).(holder := None)
      else Move(s', generation, Reporting)
    case ReportLoad(generation) => Log(Move(s, generation, Done).(holder := None), LoadFailed(generation))
    case CheckStop => s.(stopCalls := s.stopCalls + 1)
    case BumpStop =>
      s.(stopCalls := s.stopCalls - 1, fields := Stopped(s.fields),
         stops := s.stops[s.fields.generation + 1 := Bumped], currentOf := None)
    case TakeStop(generation) => s.(stops := s.stops[generation := Unloading], holder := Some(Stopper(generation)))
    case StopPlayer(generation, ok, media) =>
      var s' := s.(stops := s.stops[generation := Finished(ok)], holder := None, media := media);
      Log(s', PlayerStopped(generation, ok))
    case FlagClose => s.(fields := s.fields.(closed := true), close := Flagged)
    case CancelClose => s.(fields := s.fields.(cancelled := Cancelled(s.fields)), close := Cancelling)
    case TakeClose => s.(close := Closing, holder := Some(Closer))
    case ClosePlayer => Log(s.(close := Closed, holder := None, media := Shut), PlayerClosed)
  }

  const INITIAL := State(Fields(NO_REQUEST, "", 0, None, {}, false), None, Nothing, map[], map[], Open, 0, 0, None, [])

  /** Whether a sequence of events can happen from a state, and where it leads. */
  predicate CanRun(s: State, events: seq<Event>)
    decreases |events|
  {
    events == [] || (Enabled(s, events[0]) && CanRun(Apply(s, events[0]), events[1..]))
  }

  function Run(s: State, events: seq<Event>): State
    requires CanRun(s, events)
    decreases |events|
  {
    if events == [] then s else Run(Apply(s, events[0]), events[1..])
  }

  /** How far an attempt has come. */
  function Rank(pc: Pc): nat {
    match pc
    case Resolving => 0 case Complaining => 0 case Waiting => 0 case Checking => 1
    case Admitted => 2 case Announced => 3 case Loading => 4 case Loaded(_) => 5 case Reporting => 6 case Done => 7
  }

  predicate HoldsLoad(pc: Pc) {
    pc.Checking? || IsCritical(pc)
  }

  /** Past the check, up to the end of the load. */
  predicate IsCritical(pc: Pc) {
    pc.Admitted? || pc.Announced? || pc.Loading? || pc.Loaded? || pc.Reporting?
  }

  predicate IsCriticalAt(s: State, g: nat) {
    g in s.attempts && IsCritical(s.attempts[g].pc)
  }

  predicate IsFinishedAt(s: State, stop: nat) {
    stop in s.stops && s.stops[stop].Finished?
  }

  predicate HasUnloaded(s: State, stop: nat) {
    stop in s.stops && s.stops[stop] == Finished(true)
  }

  /** Generations are given out once, to an attempt or to a stop. */
  ghost predicate GenerationsAreUnique(s: State) {
    && (forall g :: g in s.attempts ==> g <= s.fields.generation && g !in s.stops)
    && (forall g :: g in s.stops ==> g <= s.fields.generation)
  }

  /** The load mutex has one holder. */
  ghost predicate HolderHolds(s: State) {
    && (forall g :: g in s.attempts && HoldsLoad(s.attempts[g].pc) ==> s.holder == Some(Player(g)))
    && (forall g :: g in s.stops && s.stops[g] == Unloading ==> s.holder == Some(Stopper(g)))
    && (s.close == Closing ==> s.holder == Some(Closer))
    && (s.close != Open <==> s.fields.closed)
  }

  /** An attempt past the check is newer than every finished stop, and none is past it once the player is shut. */
  ghost predicate CriticalIsNewest(s: State) {
    && (forall g, stop :: IsCriticalAt(s, g) && IsFinishedAt(s, stop) ==> stop < g)
    && (forall g :: IsCriticalAt(s, g) ==> s.close != Closed)
  }

  /** What a log entry says about its attempt. */
  predicate EntryIsTrue(s: State, entry: Entry) {
    match entry
    case Started(g) => g in s.attempts && Rank(s.attempts[g].pc) >= 3
    case LoadBegan(g) => g in s.attempts && Rank(s.attempts[g].pc) >= 4
    case BecameCurrent(g) => g in s.attempts && s.attempts[g].pc == Done
    case LoadFailed(g) => g in s.attempts && s.attempts[g].pc == Done
    case ResolveFailed(g) => g in s.attempts && s.attempts[g].pc == Done
    case PlayerStopped(g, ok) => g in s.stops && s.stops[g] == Finished(ok)
    case PlayerClosed => s.close == Closed
  }

  ghost predicate LogIsTrue(s: State) {
    forall i :: 0 <= i < |s.log| ==> EntryIsTrue(s, s.log[i])
  }

  predicate IsOfLoad(entry: Entry) {
    entry.Started? || entry.LoadBegan? || entry.BecameCurrent? || entry.LoadFailed?
  }

  /** Whoever is past the check is at least as new as everything loaded before. */
  ghost predicate CriticalIsLast(s: State) {
    forall g, i :: IsCriticalAt(s, g) && 0 <= i < |s.log| && IsOfLoad(s.log[i]) ==> s.log[i].generation <= g
  }

  /** `a` before `b` in the log is in order. */
  predicate InOrder(a: Entry, b: Entry) {
    && (IsOfLoad(a) && IsOfLoad(b) ==> a.generation <= b.generation)
    && (a.Started? && b.Started? ==> a.generation < b.generation)
    && (a.LoadBegan? && b.LoadBegan? ==> a.generation < b.generation)
    && (a.BecameCurrent? && b.BecameCurrent? ==> a.generation < b.generation)
    && (a.PlayerStopped? && (b.Started? || b.LoadBegan?) ==> a.generation < b.generation)
    && (a.PlayerClosed? ==> !IsOfLoad(b))
  }

  ghost predicate LogIsOrdered(s: State) {
    forall i, j :: 0 <= i < j < |s.log| ==> InOrder(s.log[i], s.log[j])
  }

  /** What is current was recorded by an attempt newer than every stop; otherwise nothing is current. */
  ghost predicate CurrentIsNewest(s: State) {
    match s.currentOf
    case None => s.fields.current == NO_REQUEST && s.fields.title == ""
    case Some(g) =>
      && g in s.attempts && s.attempts[g].pc == Done && s.fields.current == s.attempts[g].request
      && s.fields.title == s.attempts[g].title
      && forall stop :: stop in s.stops ==> stop < g
  }

  /** What the player holds is newer than every stop that succeeded. */
  ghost predicate MediaIsNewest(s: State) {
    && (s.media.Media? ==>
          && s.media.generation in s.attempts
          && forall stop: nat :: HasUnloaded(s, stop) ==> stop < s.media.generation)
    && (s.media == Shut <==> s.close == Closed)
  }

  /** Only the newest generation may have a living context, the one that the next play or stop will cancel. */
  ghost predicate LivingIsNewest(s: State) {
    forall g :: g in s.attempts && g !in s.fields.cancelled ==> g == s.fields.generation && s.fields.cancel == Some(g)
  }

  ghost predicate Inv(s: State) {
    && LivingIsNewest(s) && GenerationsAreUnique(s) && HolderHolds(s) && CriticalIsNewest(s) && LogIsTrue(s)
    && CriticalIsLast(s) && LogIsOrdered(s) && CurrentIsNewest(s) && MediaIsNewest(s)
  }

  lemma InitialInv()
    ensures Inv(INITIAL)
  {
  }

  lemma KeepsUnique(s: State, event: Event)
    requires Enabled(s, event) && GenerationsAreUnique(s)
    ensures GenerationsAreUnique(Apply(s, event))
  {
    hide Cancelled, IsAdmitted, IsActive;
  }

  predicate HoldsLoadAt(s: State, g: nat) {
    g in s.attempts && HoldsLoad(s.attempts[g].pc)
  }

  /** An attempt holds the load mutex by taking it, or because it did before. */
  lemma HoldingComesFrom(s: State, event: Event, g: nat)
    requires Enabled(s, event) && HoldsLoadAt(Apply(s, event), g)
    ensures HoldsLoadAt(s, g) || event == TakeLoad(g)
  {
    hide Cancelled, IsAdmitted, IsActive;
  }

  /** While an attempt goes on holding the load mutex, nobody else takes or releases it. */
  lemma HolderStays(s: State, event: Event, g: nat)
    requires Enabled(s, event) && HolderHolds(s) && s.holder == Some(Player(g)) && HoldsLoadAt(Apply(s, event), g)
    ensures Apply(s, event).holder == s.holder
  {
    hide Cancelled, IsAdmitted, IsActive;
  }

  lemma KeepsPlayerHolder(s: State, event: Event, g: nat)
    requires Enabled(s, event) && HolderHolds(s) && GenerationsAreUnique(s)
    ensures HoldsLoadAt(Apply(s, event), g) ==> Apply(s, event).holder == Some(Player(g))
  {
    hide Cancelled, IsAdmitted, IsActive;
    if HoldsLoadAt(Apply(s, event), g) && event != TakeLoad(g) {
      hide Apply, Enabled;
      HoldingComesFrom(s, event, g);
      HolderStays(s, event, g);
    }
  }

  lemma KeepsStopHolder(s: State, event: Event, g: nat)
    requires Enabled(s, event) && HolderHolds(s) && GenerationsAreUnique(s)
    ensures var s' := Apply(s, event);
            g in s'.stops && s'.stops[g] == Unloading ==> s'.holder == Some(Stopper(g))
  {
    hide Cancelled, IsAdmitted, IsActive;
  }

  lemma KeepsCloser(s: State, event: Event)
    requires Enabled(s, event) && HolderHolds(s)
    ensures var s' := Apply(s, event);
            (s'.close == Closing ==> s'.holder == Some(Closer)) && (s'.close != Open <==> s'.fields.closed)
  {
    hide Cancelled, IsAdmitted, IsActive;
  }

  lemma KeepsHolder(s: State, event: Event)
    requires Enabled(s, event) && HolderHolds(s) && GenerationsAreUnique(s)
    ensures HolderHolds(Apply(s, event))
  {
    hide Apply, Enabled, HoldsLoad;
    var s' := Apply(s, event);
    KeepsCloser(s, event);
    forall g | HoldsLoadAt(s', g) ensures s'.holder == Some(Player(g)) {
      KeepsPlayerHolder(s, event, g);
    }
    forall g | g in s'.stops && s'.stops[g] == Unloading ensures s'.holder == Some(Stopper(g)) {
      KeepsStopHolder(s, event, g);
    }
  }

  /** An attempt gets past the check only by being checked as the newest generation of an open controller. */
  lemma CriticalComesFrom(s: State, event: Event, g: nat)
    requires Enabled(s, event) && IsCriticalAt(Apply(s, event), g)
    ensures IsCriticalAt(s, g) || (event == Check(g) && IsAdmitted(s.fields, g))
  {
    hide Cancelled, IsActive;
  }

  /** A stop finishes, and the player is shut, only by whoever holds the load mutex. */
  lemma FinishedComesFrom(s: State, event: Event, stop: nat)
    requires Enabled(s, event)
    ensures IsFinishedAt(Apply(s, event), stop) ==>
        IsFinishedAt(s, stop) || (event.StopPlayer? && event.generation == stop)
    ensures Apply(s, event).close == Closed ==> s.close == Closed || event.ClosePlayer?
  {
    hide Cancelled, IsAdmitted, IsActive;
  }

  lemma KeepsCritical(s: State, event: Event)
    requires Enabled(s, event) && CriticalIsNewest(s) && HolderHolds(s) && GenerationsAreUnique(s)
    ensures CriticalIsNewest(Apply(s, event))
  {
    hide Apply;
    var s' := Apply(s, event);
    FinishedComesFrom(s, event, 0);
    forall g | IsCriticalAt(s', g) ensures s'.close != Closed {
      CriticalComesFrom(s, event, g);
    }
    forall g, stop | IsCriticalAt(s', g) && IsFinishedAt(s', stop) ensures stop < g {
      CriticalComesFrom(s, event, g);
      FinishedComesFrom(s, event, stop);
    }
  }

  /** Attempts, stops and the closing only move forward. */
  ghost predicate IsForward(s: State, s': State) {
    (forall g :: AttemptIsForward(s, s', g) && StopIsForward(s, s', g)) && (s.close == Closed ==> s'.close == Closed)
  }

  predicate AttemptIsForward(s: State, s': State, g: nat) {
    g in s.attempts ==> g in s'.attempts && Rank(s.attempts[g].pc) <= Rank(s'.attempts[g].pc)
  }

  predicate StopIsForward(s: State, s': State, stop: nat) {
    IsFinishedAt(s, stop) ==> stop in s'.stops && s'.stops[stop] == s.stops[stop]
  }

  lemma AttemptGoesForward(s: State, event: Event, g: nat)
    requires Enabled(s, event) && GenerationsAreUnique(s)
    ensures AttemptIsForward(s, Apply(s, event), g)
  {
    hide Cancelled, IsAdmitted, IsActive;
  }

  lemma StopGoesForward(s: State, event: Event, stop: nat)
    requires Enabled(s, event) && GenerationsAreUnique(s) && HolderHolds(s)
    ensures StopIsForward(s, Apply(s, event), stop) && (s.close == Closed ==> Apply(s, event).close == Closed)
  {
    hide Cancelled, IsAdmitted, IsActive;
  }

  lemma GoesForward(s: State, event: Event)
    requires Enabled(s, event) && GenerationsAreUnique(s) && HolderHolds(s)
    ensures IsForward(s, Apply(s, event))
  {
    hide Enabled, Apply, AttemptIsForward, StopIsForward, GenerationsAreUnique, HolderHolds;
    StopGoesForward(s, event, 0);
    forall g ensures AttemptIsForward(s, Apply(s, event), g) && StopIsForward(s, Apply(s, event), g) {
      AttemptGoesForward(s, event, g);
      StopGoesForward(s, event, g);
    }
  }

  lemma AppendsTrue(s: State, event: Event)
    requires Enabled(s, event)
    ensures forall entry :: entry in Appended(s, event) ==> EntryIsTrue(Apply(s, event), entry)
  {
    hide Cancelled, IsAdmitted;
  }

  lemma KeepsTrue(s: State, event: Event)
    requires Enabled(s, event) && LogIsTrue(s) && GenerationsAreUnique(s) && HolderHolds(s)
    ensures LogIsTrue(Apply(s, event))
  {
    hide Apply, Appended, Enabled;
    var s' := Apply(s, event);
    GoesForward(s, event);
    AppendsToLog(s, event);
    AppendsTrue(s, event);
    forall i | 0 <= i < |s'.log| ensures EntryIsTrue(s', s'.log[i]) {
      if i < |s.log| {
        StaysTrue(s, s', s.log[i]);
      }
    }
  }

  lemma StaysTrue(s: State, s': State, entry: Entry)
    requires IsForward(s, s') && EntryIsTrue(s, entry)
    ensures EntryIsTrue(s', entry)
  {
    assert entry.Started? || entry.LoadBegan? || entry.BecameCurrent? || entry.LoadFailed? || entry.ResolveFailed? ==>
             AttemptIsForward(s, s', entry.generation);
    assert entry.PlayerStopped? ==> StopIsForward(s, s', entry.generation);
  }

  lemma KeepsLast(s: State, event: Event)
    requires Enabled(s, event) && CriticalIsLast(s) && LogIsTrue(s) && HolderHolds(s) && GenerationsAreUnique(s)
    ensures CriticalIsLast(Apply(s, event))
  {
    hide Apply, Cancelled, IsActive;
    var s' := Apply(s, event);
    AppendsToLog(s, event);
    forall g, i | IsCriticalAt(s', g) && 0 <= i < |s'.log| && IsOfLoad(s'.log[i]) ensures s'.log[i].generation <= g {
      CriticalComesFrom(s, event, g);
      if i < |s.log| {
        assert EntryIsTrue(s, s.log[i]);
      }
    }
  }

  /** The entry a step appends to the log, if any. */
  function Appended(s: State, event: Event): seq<Entry>
    requires Enabled(s, event)
  {
    match event
    case ReportResolve(g) => [ResolveFailed(g)]
    case Announce(g) => [Started(g)]
    case BeginLoad(g) => [LoadBegan(g)]
    case RecordLoad(g, _) => if s.attempts[g].pc.ok && IsActive(s.fields, g) then [BecameCurrent(g)] else []
    case ReportLoad(g) => [LoadFailed(g)]
    case StopPlayer(g, ok, _) => [PlayerStopped(g, ok)]
    case ClosePlayer => [PlayerClosed]
    case _ => []
  }

  lemma AppendsToLog(s: State, event: Event)
    requires Enabled(s, event)
    ensures Apply(s, event).log == s.log + Appended(s, event)
  {
  }

  /** What is appended is in order with everything before. */
  lemma AppendsInOrder(s: State, event: Event, i: nat)
    requires Enabled(s, event) && Inv(s) && Appended(s, event) != [] && i < |s.log|
    ensures InOrder(s.log[i], Appended(s, event)[0])
  {
    hide Cancelled, IsAdmitted, IsActive, LogIsOrdered, CurrentIsNewest, MediaIsNewest;
    var entry := s.log[i];
    assert EntryIsTrue(s, entry);
    assert event.Announce? || event.BeginLoad? || event.RecordLoad? || event.ReportLoad? ==>
      IsCriticalAt(s, event.generation);
    assert entry.PlayerStopped? ==> IsFinishedAt(s, entry.generation);
  }

  lemma KeepsOrder(s: State, event: Event)
    requires Enabled(s, event) && Inv(s)
    ensures LogIsOrdered(Apply(s, event))
  {
    hide Apply, Appended, InOrder, Enabled, Inv;
    AppendsToLog(s, event);
    AppendsOneAtMost(s, event);
    forall i | 0 <= i < |s.log| && Appended(s, event) != [] ensures InOrder(s.log[i], Appended(s, event)[0]) {
      AppendsInOrder(s, event, i);
    }
    LogWasOrdered(s);
  }

  lemma LogWasOrdered(s: State)
    requires Inv(s)
    ensures LogIsOrdered(s)
  {
  }

  lemma AppendsOneAtMost(s: State, event: Event)
    requires Enabled(s, event)
    ensures |Appended(s, event)| <= 1
  {
  }

  /** Other steps leave what is current alone, and the stops there are. */
  lemma CurrentStays(s: State, event: Event, g: nat)
    requires Enabled(s, event) && !event.RecordLoad? && !event.BumpStop? && GenerationsAreUnique(s)
    ensures var s' := Apply(s, event);
            && s'.currentOf == s.currentOf && s'.fields.current == s.fields.current && s'.fields.title == s.fields.title
            && s'.stops.Keys == s.stops.Keys
            && (g in s.attempts && s.attempts[g].pc == Done ==> g in s'.attempts && s'.attempts[g] == s.attempts[g])
  {
    hide Cancelled, IsAdmitted;
  }

  lemma KeepsCurrent(s: State, event: Event)
    requires Enabled(s, event) && CurrentIsNewest(s) && GenerationsAreUnique(s)
    ensures CurrentIsNewest(Apply(s, event))
  {
    hide Cancelled, IsAdmitted;
    if !event.RecordLoad? && !event.BumpStop? {
      hide Apply, Enabled;
      CurrentStays(s, event, if s.currentOf.Some? then s.currentOf.value else 0);
    }
  }

  lemma KeepsMedia(s: State, event: Event)
    requires Enabled(s, event) && MediaIsNewest(s) && CriticalIsNewest(s) && GenerationsAreUnique(s) && HolderHolds(s)
    ensures MediaIsNewest(Apply(s, event))
  {
    hide Cancelled, IsAdmitted, IsActive;
    var s' := Apply(s, event);
    assert event.EndLoad? ==> IsCriticalAt(s, event.generation);
    forall stop: nat | s'.media.Media? && HasUnloaded(s', stop) ensures stop < s'.media.generation {
      assert HasUnloaded(s, stop) ==> IsFinishedAt(s, stop);
    }
  }

  lemma KeepsLiving(s: State, event: Event)
    requires Enabled(s, event) && LivingIsNewest(s) && GenerationsAreUnique(s)
    ensures LivingIsNewest(Apply(s, event))
  {
    hide IsAdmitted, IsActive;
  }

  lemma StepKeepsInv(s: State, event: Event)
    requires Enabled(s, event) && Inv(s)
    ensures Inv(Apply(s, event))
  {
    hide Enabled, Apply, LivingIsNewest, GenerationsAreUnique, HolderHolds, CriticalIsNewest, LogIsTrue, CriticalIsLast;
    hide LogIsOrdered, CurrentIsNewest, MediaIsNewest;
    KeepsUnique(s, event);
    KeepsHolder(s, event);
    KeepsCritical(s, event);
    KeepsTrue(s, event);
    KeepsLast(s, event);
    KeepsOrder(s, event);
    KeepsCurrent(s, event);
    KeepsMedia(s, event);
    KeepsLiving(s, event);
  }

  lemma {:induction false} RunKeepsInv(s: State, events: seq<Event>)
    requires CanRun(s, events) && Inv(s)
    ensures Inv(Run(s, events))
    decreases |events|
  {
    hide Enabled, Apply, Inv;
    if events != [] {
      StepKeepsInv(s, events[0]);
      RunKeepsInv(Apply(s, events[0]), events[1..]);
    }
  }

  /**
  In every interleaving, the attempts handed to the player are of strictly increasing generations, and so are
  the load announcements and the attempts that become current; a failed load is reported before any newer one is
  announced.
  */
  lemma GenerationsIncrease(events: seq<Event>, i: nat, j: nat)
    requires CanRun(INITIAL, events) && i < j < |Run(INITIAL, events).log|
    ensures var log := Run(INITIAL, events).log;
            && (log[i].Started? && log[j].Started? ==> log[i].generation < log[j].generation)
            && (log[i].LoadBegan? && log[j].LoadBegan? ==> log[i].generation < log[j].generation)
            && (log[i].BecameCurrent? && log[j].BecameCurrent? ==> log[i].generation < log[j].generation)
            && (log[i].Started? && log[j].LoadFailed? ==> log[i].generation <= log[j].generation)
  {
    hide Enabled, Apply, CanRun, Run;
    InitialInv();
    RunKeepsInv(INITIAL, events);
    assert InOrder(Run(INITIAL, events).log[i], Run(INITIAL, events).log[j]);
  }

  /**
  Once a stop has reached the player, no older attempt is announced or loaded; once the player is closed, none is.
  */
  lemma NothingOldLoads(events: seq<Event>, i: nat, j: nat)
    requires CanRun(INITIAL, events) && i < j < |Run(INITIAL, events).log|
    ensures var log := Run(INITIAL, events).log;
            && (log[i].PlayerStopped? && (log[j].LoadBegan? || log[j].Started?) ==>
                 log[i].generation < log[j].generation)
            && (log[i].PlayerClosed? ==> !log[j].LoadBegan? && !log[j].Started? && !log[j].BecameCurrent?)
  {
    hide Enabled, Apply, CanRun, Run;
    InitialInv();
    RunKeepsInv(INITIAL, events);
    assert InOrder(Run(INITIAL, events).log[i], Run(INITIAL, events).log[j]);
  }

  /** A stop that unloaded the player and was followed by no play. */
  ghost predicate StoppedForGood(s: State, stop: nat) {
    stop in s.stops && s.stops[stop] == Finished(true) && forall g :: g in s.attempts ==> g < stop
  }

  /** Then the player holds nothing, nothing is current, and no attempt is past its check. */
  lemma StoppedMeansUnloaded(events: seq<Event>, stop: nat)
    requires CanRun(INITIAL, events) && StoppedForGood(Run(INITIAL, events), stop)
    ensures var s := Run(INITIAL, events);
            && (s.media == Nothing || s.media == Shut)
            && s.fields.current == NO_REQUEST && s.fields.title == ""
            && forall g :: g in s.attempts ==> !IsCritical(s.attempts[g].pc) && !IsAdmitted(s.fields, g)
  {
    hide Enabled, Apply, CanRun, Run;
    InitialInv();
    RunKeepsInv(INITIAL, events);
    var s := Run(INITIAL, events);
    assert IsFinishedAt(s, stop) && HasUnloaded(s, stop);
    assert forall g :: g in s.attempts && IsCritical(s.attempts[g].pc) ==> IsCriticalAt(s, g);
  }

  /**
  What is current changes in two ways only: a stop clears it, or the attempt that is newest at that moment
  records its own request and title after its load succeeded.
  */
  lemma CurrentIsWrittenByNewest(s: State, event: Event)
    requires Enabled(s, event)
    requires Apply(s, event).fields.current != s.fields.current || Apply(s, event).fields.title != s.fields.title
    ensures var f := Apply(s, event).fields;
            || (event.BumpStop? && f.current == NO_REQUEST && f.title == "" && f.generation == s.fields.generation + 1)
            || (event.RecordLoad? && event.generation == s.fields.generation && !s.fields.closed
                && s.attempts[event.generation].pc == Loaded(true)
                && f.current == s.attempts[event.generation].request && f.title == s.attempts[event.generation].title)
  {
  }

  /** A current request was loaded by the attempt that recorded it, and every stop is older. */
  lemma CurrentBelongs(events: seq<Event>)
    requires CanRun(INITIAL, events) && Run(INITIAL, events).fields.current != NO_REQUEST
    ensures var s := Run(INITIAL, events);
            exists g :: g in s.attempts && s.currentOf == Some(g) && s.attempts[g].request == s.fields.current
              && s.attempts[g].title == s.fields.title && forall stop :: stop in s.stops ==> stop < g
  {
    hide Enabled, Apply, CanRun, Run;
    InitialInv();
    RunKeepsInv(INITIAL, events);
    assert CurrentIsNewest(Run(INITIAL, events));
  }

  /** A run put together from two. */
  lemma {:induction false} RunAppend(s: State, a: seq<Event>, b: seq<Event>)
    requires CanRun(s, a) && CanRun(Run(s, a), b)
    ensures CanRun(s, a + b) && Run(s, a + b) == Run(Run(s, a), b)
    decreases |a|
  {
    hide Enabled, Apply;
    if a == [] {
      assert a + b == b;
    } else {
      assert (a + b)[1..] == a[1..] + b;
      RunAppend(Apply(s, a[0]), a[1..], b);
    }
  }
}
