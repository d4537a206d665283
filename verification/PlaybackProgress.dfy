/**
What the player controller gets done (internal/playback/controller.go): from every state it can reach, a play can be
carried through to the player, a failure to the listener, a stop and a close to their ends.
*/
module PlaybackProgress {
  import opened Wrappers
  import opened ControllerModel
  import opened PlaybackProtocol
  import opened PlaybackRuns

  lemma OneStep(s: State, event: Event, rest: seq<Event>)
    requires Enabled(s, event) && CanRun(Apply(s, event), rest)
    ensures CanRun(s, [event] + rest) && Run(s, [event] + rest) == Run(Apply(s, event), rest)
  {
    hide Enabled, Apply;
    assert ([event] + rest)[1..] == rest;
  }

  lemma LastStep(s: State, event: Event)
    requires Enabled(s, event)
    ensures CanRun(s, [event]) && Run(s, [event]) == Apply(s, event)
  {
    assert [event][1..] == [];
  }

  /** Attempt g is the newest of an open controller, and its context lives. */
  predicate MayLoad(s: State, g: nat) {
    g == s.fields.generation && g !in s.fields.cancelled && !s.fields.closed
  }

  /** Since s, attempt g has taken the load mutex and come to pc, and these entries were logged. */
  ghost predicate HasComeTo(s: State, s': State, g: nat, pc: Pc, entries: seq<Entry>)
    requires g in s.attempts
  {
    && s'.fields == s.fields && s'.holder == Some(Player(g)) && s'.log == s.log + entries
    && s'.currentOf == s.currentOf && s'.stops == s.stops && s'.close == s.close
    && g in s'.attempts && s'.attempts[g] == s.attempts[g].(pc := pc)
  }

  /** From taking the mutex to the player's answer. */
  function UpToLoad(g: nat, ok: bool, media: Media): seq<Event> {
    [TakeLoad(g)] + ([Check(g)] + ([Announce(g)] + ([BeginLoad(g)] + [EndLoad(g, ok, media)])))
  }

  /** A resolved attempt that may load gets its plan to the player, whatever is current or loaded. */
  lemma ReachesPlayer(s: State, g: nat, ok: bool)
    requires IsAt(s, g, Waiting) && MayLoad(s, g) && s.holder == None
    ensures var media := if ok then Media(g) else Nothing;
            && CanRun(s, UpToLoad(g, ok, media)) && Run(s, UpToLoad(g, ok, media)).media == media
            && HasComeTo(s, Run(s, UpToLoad(g, ok, media)), g, Loaded(ok), [Started(g), LoadBegan(g)])
  {
    hide CanRun, Run, Cancelled, IsActive;
    var media := if ok then Media(g) else Nothing;
    var s1 := Apply(s, TakeLoad(g));
    var s2 := Apply(s1, Check(g));
    var s3 := Apply(s2, Announce(g));
    var s4 := Apply(s3, BeginLoad(g));
    var s5 := Apply(s4, EndLoad(g, ok, media));
    LastStep(s4, EndLoad(g, ok, media));
    OneStep(s3, BeginLoad(g), [EndLoad(g, ok, media)]);
    OneStep(s2, Announce(g), [BeginLoad(g)] + [EndLoad(g, ok, media)]);
    OneStep(s1, Check(g), [Announce(g)] + ([BeginLoad(g)] + [EndLoad(g, ok, media)]));
    OneStep(s, TakeLoad(g), [Check(g)] + ([Announce(g)] + ([BeginLoad(g)] + [EndLoad(g, ok, media)])));
    assert s5.log == s.log + [Started(g), LoadBegan(g)];
  }

  /** It then becomes current, and the log ends with its announcement, its load and that. */
  lemma NewestIsLoaded(before: seq<Event>, g: nat)
    requires CanRun(INITIAL, before) && IsAt(Run(INITIAL, before), g, Waiting)
    requires MayLoad(Run(INITIAL, before), g) && Run(INITIAL, before).holder == None
    ensures var s := Run(INITIAL, before);
            var events := before + (UpToLoad(g, true, Media(g)) + [RecordLoad(g, false)]);
            && CanRun(INITIAL, events)
            && var s' := Run(INITIAL, events);
               && s'.fields == s.fields.(current := s.attempts[g].request, title := s.attempts[g].title)
               && s'.media == Media(g) && s'.holder == None && s'.currentOf == Some(g)
               && s'.log == s.log + [Started(g), LoadBegan(g), BecameCurrent(g)]
  {
    hide CanRun, Run, Apply, Enabled;
    var s := Run(INITIAL, before);
    ReachesPlayer(s, g, true);
    var loaded := Run(s, UpToLoad(g, true, Media(g)));
    LoadIsRecorded(s, loaded, g);
    LastStep(loaded, RecordLoad(g, false));
    RunAppend(s, UpToLoad(g, true, Media(g)), [RecordLoad(g, false)]);
    RunAppend(INITIAL, before, UpToLoad(g, true, Media(g)) + [RecordLoad(g, false)]);
  }

  lemma LoadIsRecorded(s: State, loaded: State, g: nat)
    requires g in s.attempts && MayLoad(s, g)
    requires HasComeTo(s, loaded, g, Loaded(true), [Started(g), LoadBegan(g)]) && loaded.media == Media(g)
    ensures Enabled(loaded, RecordLoad(g, false))
    ensures var s' := Apply(loaded, RecordLoad(g, false));
            && s'.fields == s.fields.(current := s.attempts[g].request, title := s.attempts[g].title)
            && s'.media == Media(g) && s'.holder == None && s'.currentOf == Some(g)
            && s'.log == s.log + [Started(g), LoadBegan(g), BecameCurrent(g)]
  {
  }

  /** When the player refuses it, the failure is reported and what was current stays so. */
  lemma NewestFailureIsReported(before: seq<Event>, g: nat)
    requires CanRun(INITIAL, before) && IsAt(Run(INITIAL, before), g, Waiting)
    requires MayLoad(Run(INITIAL, before), g) && Run(INITIAL, before).holder == None
    ensures var s := Run(INITIAL, before);
            var events := before + (UpToLoad(g, false, Nothing) + ([RecordLoad(g, false)] + [ReportLoad(g)]));
            && CanRun(INITIAL, events)
            && var s' := Run(INITIAL, events);
               && s'.fields == s.fields && s'.holder == None && s'.currentOf == s.currentOf
               && s'.log == s.log + [Started(g), LoadBegan(g), LoadFailed(g)]
  {
    hide CanRun, Run, Apply, Enabled;
    var s := Run(INITIAL, before);
    ReachesPlayer(s, g, false);
    var loaded := Run(s, UpToLoad(g, false, Nothing));
    FailureIsReported(s, loaded, g);
    LastStep(Apply(loaded, RecordLoad(g, false)), ReportLoad(g));
    OneStep(loaded, RecordLoad(g, false), [ReportLoad(g)]);
    RunAppend(s, UpToLoad(g, false, Nothing), [RecordLoad(g, false)] + [ReportLoad(g)]);
    RunAppend(INITIAL, before, UpToLoad(g, false, Nothing) + ([RecordLoad(g, false)] + [ReportLoad(g)]));
  }

  lemma FailureIsReported(s: State, loaded: State, g: nat)
    requires g in s.attempts && MayLoad(s, g)
    requires HasComeTo(s, loaded, g, Loaded(false), [Started(g), LoadBegan(g)])
    ensures Enabled(loaded, RecordLoad(g, false))
    ensures Enabled(Apply(loaded, RecordLoad(g, false)), ReportLoad(g))
    ensures var s' := Apply(Apply(loaded, RecordLoad(g, false)), ReportLoad(g));
            && s'.fields == s.fields && s'.holder == None && s'.currentOf == s.currentOf
            && s'.log == s.log + [Started(g), LoadBegan(g), LoadFailed(g)]
  {
  }

  /** A failed resolution is reported, unless its context was cancelled. */
  lemma ResolutionFailureIsReported(s: State, g: nat)
    requires IsAt(s, g, Resolving) && g !in s.fields.cancelled
    ensures CanRun(s, [FailResolve(g, false)] + [ReportResolve(g)])
    ensures Run(s, [FailResolve(g, false)] + [ReportResolve(g)]).log == s.log + [ResolveFailed(g)]
  {
    hide CanRun, Run;
    LastStep(Apply(s, FailResolve(g, false)), ReportResolve(g));
    OneStep(s, FailResolve(g, false), [ReportResolve(g)]);
  }

  // ---------------------------------------------------------------- plays, stops and closes from the start

  /** No context is cancelled before its attempt is there. */
  ghost predicate CancelledArePast(s: State) {
    && (forall g :: g in s.fields.cancelled ==> g <= s.fields.generation)
    && (s.fields.cancel.Some? ==> s.fields.cancel.value <= s.fields.generation)
  }

  lemma KeepsPast(s: State, event: Event)
    requires Enabled(s, event) && CancelledArePast(s) && GenerationsAreUnique(s)
    ensures CancelledArePast(Apply(s, event))
  {
    hide IsAdmitted, IsActive;
  }

  /** Whoever holds the load mutex is at a step that leads to its release. */
  ghost predicate HolderIsReal(s: State) {
    match s.holder
    case None => true
    case Some(Player(g)) => HoldsLoadAt(s, g)
    case Some(Stopper(g)) => g in s.stops && s.stops[g] == Unloading
    case Some(Closer) => s.close == Closing
  }

  lemma KeepsReal(s: State, event: Event)
    requires Enabled(s, event) && HolderIsReal(s) && GenerationsAreUnique(s) && HolderHolds(s)
    ensures HolderIsReal(Apply(s, event))
  {
    hide IsAdmitted, IsActive, Cancelled;
  }

  /** What is known of every state that can be reached. */
  ghost predicate IsSound(s: State) {
    Inv(s) && CancelledArePast(s) && HolderIsReal(s)
  }

  lemma HolderIsKnown(s: State)
    requires Inv(s)
    ensures HolderHolds(s)
  {
    hide CriticalIsLast, LogIsOrdered, MediaIsNewest, CurrentIsNewest, CriticalIsNewest;
  }

  lemma StepIsSound(s: State, event: Event)
    requires IsSound(s) && Enabled(s, event)
    ensures IsSound(Apply(s, event))
  {
    hide Enabled, Apply, Inv, CancelledArePast, HolderIsReal;
    InvSays(s);
    HolderIsKnown(s);
    StepKeepsInv(s, event);
    KeepsPast(s, event);
    KeepsReal(s, event);
  }

  lemma {:induction false} RunIsSound(s: State, events: seq<Event>)
    requires CanRun(s, events) && IsSound(s)
    ensures IsSound(Run(s, events))
    decreases |events|
  {
    hide Enabled, Apply, IsSound;
    if events != [] {
      StepIsSound(s, events[0]);
      RunIsSound(Apply(s, events[0]), events[1..]);
    }
  }

  lemma Reached(before: seq<Event>)
    requires CanRun(INITIAL, before)
    ensures IsSound(Run(INITIAL, before))
  {
    InitialInv();
    RunIsSound(INITIAL, before);
  }

  // ---------------------------------------------------------------- the mutex is released

  /** The next step of whoever holds the load mutex, when the player refuses everything. */
  function Release(s: State): Event
    requires s.holder.Some?
  {
    match s.holder.value
    case Stopper(g) => StopPlayer(g, false, s.media)
    case Closer => ClosePlayer
    case Player(g) =>
      if IsAt(s, g, Checking) then Check(g)
      else if IsAt(s, g, Admitted) then Announce(g)
      else if IsAt(s, g, Announced) then BeginLoad(g)
      else if IsAt(s, g, Loading) then EndLoad(g, false, s.media)
      else if IsAt(s, g, Reporting) then ReportLoad(g)
      else RecordLoad(g, true)
  }

  function StepsToRelease(s: State): nat {
    match s.holder
    case None => 0
    case Some(Player(g)) => if g in s.attempts then 8 - Rank(s.attempts[g].pc) else 1
    case Some(_) => 1
  }

  /** What the release of the mutex leaves alone: the generations, the contexts, and who waits for the mutex. */
  ghost predicate SameBut(s: State, s': State) {
    && s'.fields.generation == s.fields.generation && s'.fields.cancelled == s.fields.cancelled
    && s'.fields.closed == s.fields.closed && s'.stopCalls == s.stopCalls
    && (forall g :: IsAt(s, g, Waiting) ==> g in s'.attempts && s'.attempts[g] == s.attempts[g])
    && (forall g :: g in s.stops && s.stops[g] == Bumped ==> g in s'.stops && s'.stops[g] == Bumped)
  }

  lemma ReleaseIsPossible(s: State)
    requires HolderIsReal(s) && s.holder.Some?
    ensures Enabled(s, Release(s)) && StepsToRelease(Apply(s, Release(s))) < StepsToRelease(s)
  {
    hide IsAdmitted, IsActive;
  }

  lemma ReleaseLeaves(s: State)
    requires HolderIsReal(s) && s.holder.Some? && Enabled(s, Release(s))
    ensures SameBut(s, Apply(s, Release(s)))
  {
    hide IsAdmitted, IsActive;
  }

  /** There is no deadlock: from every state that can be reached, the load mutex can be released. */
  lemma {:induction false} MutexIsReleased(s: State) returns (events: seq<Event>)
    requires IsSound(s)
    ensures CanRun(s, events) && Run(s, events).holder == None && SameBut(s, Run(s, events))
    ensures IsSound(Run(s, events))
    decreases StepsToRelease(s)
  {
    hide Enabled, Apply, Inv, CancelledArePast, HolderIsReal, StepsToRelease, CanRun, Run;
    if s.holder == None {
      EmptyRun(s);
      return [];
    }
    ReleaseIsPossible(s);
    ReleaseLeaves(s);
    StepIsSound(s, Release(s));
    var s1 := Apply(s, Release(s));
    var rest := MutexIsReleased(s1);
    OneStep(s, Release(s), rest);
    SameAgain(s, s1, Run(s1, rest));
    return [Release(s)] + rest;
  }

  lemma SameAgain(a: State, b: State, c: State)
    requires SameBut(a, b) && SameBut(b, c)
    ensures SameBut(a, c)
  {
  }

  function ToWaiting(g: nat, request: Request, title: string): seq<Event> {
    [CheckPlay] + ([BeginPlay(request)] + [Resolve(g, title)])
  }

  /** A new play of an open controller is resolved as the newest attempt, and cancels the one before. */
  lemma PlayIsResolved(s: State, request: Request, title: string)
    requires Inv(s) && CancelledArePast(s) && !s.fields.closed
    ensures var g := s.fields.generation + 1;
            && CanRun(s, ToWaiting(g, request, title))
            && var s' := Run(s, ToWaiting(g, request, title));
               && IsAt(s', g, Waiting) && s'.attempts[g].request == request && s'.attempts[g].title == title
               && MayLoad(s', g) && s'.holder == s.holder && s'.log == s.log && s'.media == s.media
               && s'.fields.current == s.fields.current
               && forall older :: older in s.attempts ==> older in s'.fields.cancelled
  {
    hide CanRun, Run;
    hide CriticalIsLast, LogIsOrdered, MediaIsNewest, HolderHolds, CriticalIsNewest, CurrentIsNewest, LogIsTrue;
    var g := s.fields.generation + 1;
    var s1 := Apply(s, CheckPlay);
    var s2 := Apply(s1, BeginPlay(request));
    LastStep(s2, Resolve(g, title));
    OneStep(s1, BeginPlay(request), [Resolve(g, title)]);
    OneStep(s, CheckPlay, [BeginPlay(request)] + [Resolve(g, title)]);
  }

  // ---------------------------------------------------------------- nothing is stuck

  /**
  From every state that can be reached, an attempt that waits for the load mutex as the newest of an open controller
  can be carried through, whoever holds the mutex: it ends as what is current and what the player holds.
  */
  lemma WaitingCanBeLoaded(before: seq<Event>, g: nat) returns (events: seq<Event>)
    requires CanRun(INITIAL, before) && IsAt(Run(INITIAL, before), g, Waiting) && MayLoad(Run(INITIAL, before), g)
    ensures CanRun(INITIAL, before + events)
    ensures var s, s' := Run(INITIAL, before), Run(INITIAL, before + events);
            && s'.fields.current == s.attempts[g].request && s'.fields.title == s.attempts[g].title
            && s'.media == Media(g) && s'.fields.generation == s.fields.generation && s'.holder == None
  {
    hide CanRun, Run, Apply, Enabled, IsSound;
    var s := Run(INITIAL, before);
    Reached(before);
    var release := MutexIsReleased(s);
    RunAppend(INITIAL, before, release);
    NewestIsLoaded(before + release, g);
    var load := UpToLoad(g, true, Media(g)) + [RecordLoad(g, false)];
    assert before + release + load == before + (release + load);
    return release + load;
  }

  /** From every state of an open controller, any request can be played until it is current. */
  lemma PlayCanBeCarriedOut(before: seq<Event>, request: Request, title: string) returns (events: seq<Event>)
    requires CanRun(INITIAL, before) && !Run(INITIAL, before).fields.closed
    ensures CanRun(INITIAL, before + events)
    ensures var s, s' := Run(INITIAL, before), Run(INITIAL, before + events);
            && s'.fields.current == request && s'.fields.title == title
            && s'.fields.generation == s.fields.generation + 1 && s'.media == Media(s'.fields.generation)
  {
    hide CanRun, Run, Apply, Enabled, Inv, CancelledArePast, HolderIsReal;
    var s := Run(INITIAL, before);
    var g := s.fields.generation + 1;
    Reached(before);
    PlayIsResolved(s, request, title);
    var resolve := ToWaiting(g, request, title);
    RunAppend(INITIAL, before, resolve);
    var load := WaitingCanBeLoaded(before + resolve, g);
    assert before + resolve + load == before + (resolve + load);
    return resolve + load;
  }

  lemma StopBegun(s: State)
    requires !s.fields.closed
    ensures var stop := s.fields.generation + 1;
            && CanRun(s, [CheckStop] + [BumpStop])
            && var s' := Run(s, [CheckStop] + [BumpStop]);
               && stop in s'.stops && s'.stops[stop] == Bumped && s'.fields.current == NO_REQUEST
               && s'.fields.title == "" && s'.fields.closed == s.fields.closed && s'.fields.generation == stop
  {
    hide CanRun, Run;
    LastStep(Apply(s, CheckStop), BumpStop);
    OneStep(s, CheckStop, [BumpStop]);
  }

  /** While a stop is the newest generation, nothing is current. */
  lemma NothingIsCurrent(s: State)
    requires Inv(s) && s.fields.generation in s.stops
    ensures s.fields.current == NO_REQUEST && s.fields.title == ""
  {
    hide CriticalIsLast, LogIsOrdered, LivingIsNewest, MediaIsNewest, CriticalIsNewest, LogIsTrue, HolderHolds;
  }

  lemma StopUnloads(s: State, stop: nat)
    requires Inv(s) && stop in s.stops && s.stops[stop] == Bumped && s.holder == None && !s.fields.closed
    ensures var events := [TakeStop(stop)] + [StopPlayer(stop, true, Nothing)];
            && CanRun(s, events) && Run(s, events).media == Nothing && Run(s, events).holder == None
            && Run(s, events).fields == s.fields && HasUnloaded(Run(s, events), stop)
            && Run(s, events).log == s.log + [PlayerStopped(stop, true)]
  {
    hide CanRun, Run;
    hide CriticalIsLast, LogIsOrdered, LivingIsNewest, CurrentIsNewest, CriticalIsNewest, LogIsTrue;
    hide GenerationsAreUnique;
    var taken := Apply(s, TakeStop(stop));
    LastStep(taken, StopPlayer(stop, true, Nothing));
    OneStep(s, TakeStop(stop), [StopPlayer(stop, true, Nothing)]);
  }

  /** From every state of an open controller, a stop can be carried out: nothing is loaded and nothing is current. */
  lemma StopCanBeCarriedOut(before: seq<Event>) returns (events: seq<Event>)
    requires CanRun(INITIAL, before) && !Run(INITIAL, before).fields.closed
    ensures CanRun(INITIAL, before + events)
    ensures var s' := Run(INITIAL, before + events);
            s'.media == Nothing && s'.fields.current == NO_REQUEST && s'.fields.title == "" && s'.holder == None
  {
    hide CanRun, Run, Apply, Enabled, Inv, CancelledArePast, HolderIsReal;
    var s := Run(INITIAL, before);
    var stop := s.fields.generation + 1;
    StopBegun(s);
    var begin := [CheckStop] + [BumpStop];
    RunAppend(INITIAL, before, begin);
    Reached(before + begin);
    var release := MutexIsReleased(Run(s, begin));
    RunAppend(INITIAL, before + begin, release);
    var free := Run(INITIAL, before + begin + release);
    NothingIsCurrent(free);
    StopUnloads(free, stop);
    var unload := [TakeStop(stop)] + [StopPlayer(stop, true, Nothing)];
    RunAppend(INITIAL, before + begin + release, unload);
    assert before + begin + release + unload == before + (begin + release + unload);
    return begin + release + unload;
  }

  /** From every state of an open controller, it can be closed: the player is shut and every context has ended. */
  lemma CloseCanBeCarriedOut(before: seq<Event>) returns (events: seq<Event>)
    requires CanRun(INITIAL, before) && !Run(INITIAL, before).fields.closed
    ensures CanRun(INITIAL, before + events)
    ensures var s' := Run(INITIAL, before + events);
            && s'.media == Shut && s'.fields.closed && s'.holder == None
            && forall g :: g in s'.attempts ==> g in s'.fields.cancelled
  {
    hide CanRun, Run, Apply, Enabled, Inv, CancelledArePast, HolderIsReal;
    var s := Run(INITIAL, before);
    Reached(before);
    var release := MutexIsReleased(s);
    RunAppend(INITIAL, before, release);
    var free := Run(INITIAL, before + release);
    CloseShuts(free);
    var close := [FlagClose] + ([CancelClose] + ([TakeClose] + [ClosePlayer]));
    RunAppend(INITIAL, before + release, close);
    assert before + release + close == before + (release + close);
    return release + close;
  }

  lemma CloseShuts(s: State)
    requires Inv(s) && !s.fields.closed && s.holder == None
    ensures var events := [FlagClose] + ([CancelClose] + ([TakeClose] + [ClosePlayer]));
            && CanRun(s, events)
            && var s' := Run(s, events);
               && s'.media == Shut && s'.fields.closed && s'.holder == None
               && forall g :: g in s'.attempts ==> g in s'.fields.cancelled
  {
    hide CanRun, Run;
    hide CriticalIsLast, LogIsOrdered, CurrentIsNewest, CriticalIsNewest, LogIsTrue, GenerationsAreUnique;
    var s1 := Apply(s, FlagClose);
    var s2 := Apply(s1, CancelClose);
    var s3 := Apply(s2, TakeClose);
    LastStep(s3, ClosePlayer);
    OneStep(s2, TakeClose, [ClosePlayer]);
    OneStep(s1, CancelClose, [TakeClose] + [ClosePlayer]);
    OneStep(s, FlagClose, [CancelClose] + ([TakeClose] + [ClosePlayer]));
  }

  // ---------------------------------------------------------------- when a load becomes current

  lemma {:induction false} RunCloses(s: State, events: seq<Event>)
    requires CanRun(s, events)
    ensures Run(s, events).fields.closed <==> s.fields.closed || FlagClose in events
    decreases |events|
  {
    hide Enabled, Apply;
    if events != [] {
      StepCloses(s, events[0]);
      RunCloses(Apply(s, events[0]), events[1..]);
      assert events == [events[0]] + events[1..];
    }
  }

  lemma StepCloses(s: State, event: Event)
    requires Enabled(s, event)
    ensures Apply(s, event).fields.closed <==> s.fields.closed || event.FlagClose?
  {
    hide IsAdmitted, IsActive, Cancelled;
  }

  /** Attempt g passes its check after `before`, and `between` happens until its load has succeeded. */
  ghost predicate LoadsAfter(before: seq<Event>, g: nat, between: seq<Event>) {
    && CanRun(INITIAL, before) && IsAt(Run(INITIAL, before), g, Checking) && MayLoad(Run(INITIAL, before), g)
    && var checked := Apply(Run(INITIAL, before), Check(g));
       CanRun(checked, between) && IsAt(Run(checked, between), g, Loaded(true))
  }

  /** A load that succeeded becomes current exactly when no play, stop or close began since its check. */
  lemma LoadBecomesCurrentExactly(before: seq<Event>, g: nat, between: seq<Event>)
    requires LoadsAfter(before, g, between)
    ensures var loaded := Run(Apply(Run(INITIAL, before), Check(g)), between);
            var s' := Apply(loaded, RecordLoad(g, true));
            var kept := forall i :: 0 <= i < |between| ==> !Bumps(between[i]) && !between[i].FlagClose?;
            && (s'.log == loaded.log + [BecameCurrent(g)] <==> kept)
            && (kept ==> s'.fields.current == loaded.attempts[g].request && s'.fields.title == loaded.attempts[g].title)
            && (!kept ==> s'.fields == loaded.fields && s'.log == loaded.log)
  {
    hide CanRun, Run, Bumps;
    var s := Run(INITIAL, before);
    var checked := Apply(s, Check(g));
    RunBumps(checked, between);
    RunCloses(checked, between);
    assert FlagClose in between <==> exists i :: 0 <= i < |between| && between[i].FlagClose?;
  }
}
