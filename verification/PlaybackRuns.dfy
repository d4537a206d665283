/**
Runs of the player controller in which a play overtakes an older stop or an older failure
(internal/playback/controller.go): exactly when that happens, and that it does.
*/
module PlaybackRuns {
  import opened Wrappers
  import opened ControllerModel
  import opened PlaybackProtocol

  /** A step that makes a newer generation. */
  predicate Bumps(event: Event) {
    event.BeginPlay? || event.BumpStop?
  }

  lemma {:induction false} RunSplits(s: State, a: seq<Event>, b: seq<Event>)
    requires CanRun(s, a + b)
    ensures CanRun(s, a) && CanRun(Run(s, a), b) && Run(s, a + b) == Run(Run(s, a), b)
    decreases |a|
  {
    hide Enabled, Apply;
    if a == [] {
      assert a + b == b;
    } else {
      assert (a + b)[0] == a[0] && (a + b)[1..] == a[1..] + b;
      RunSplits(Apply(s, a[0]), a[1..], b);
    }
  }

  lemma RunOne(s: State, event: Event)
    requires Enabled(s, event)
    ensures CanRun(s, [event]) && Run(s, [event]) == Apply(s, event)
  {
    assert [event][1..] == [];
  }

  /** Every event of a run is enabled where the events before it lead. */
  lemma StepOfRun(s: State, events: seq<Event>, i: nat)
    requires CanRun(s, events) && i < |events|
    ensures CanRun(s, events[..i]) && Enabled(Run(s, events[..i]), events[i])
    ensures CanRun(s, events[..i + 1]) && Run(s, events[..i + 1]) == Apply(Run(s, events[..i]), events[i])
  {
    hide Enabled, Apply;
    assert events == events[..i] + events[i..];
    RunSplits(s, events[..i], events[i..]);
    RunOne(Run(s, events[..i]), events[i]);
    RunAppend(s, events[..i], [events[i]]);
    assert events[..i] + [events[i]] == events[..i + 1];
  }

  // ---------------------------------------------------------------- failures reported late

  lemma StepBumps(s: State, event: Event)
    requires Enabled(s, event)
    ensures Apply(s, event).fields.generation == s.fields.generation + if Bumps(event) then 1 else 0
  {
    hide Cancelled, IsAdmitted, IsActive;
  }

  /** The generation grows, and stays only without plays and stops. */
  lemma {:induction false} RunBumps(s: State, events: seq<Event>)
    requires CanRun(s, events)
    ensures s.fields.generation <= Run(s, events).fields.generation
    ensures Run(s, events).fields.generation == s.fields.generation <==>
        forall i :: 0 <= i < |events| ==> !Bumps(events[i])
    decreases |events|
  {
    hide Enabled, Apply, Bumps;
    if events != [] {
      StepBumps(s, events[0]);
      RunBumps(Apply(s, events[0]), events[1..]);
      assert forall i :: 1 <= i < |events| ==> events[i] == events[1..][i - 1];
      assert forall i :: 0 <= i < |events| - 1 ==> events[1..][i] == events[i + 1];
    }
  }

  /** The log of a run holds what its announcements appended. */
  lemma {:induction false} RunAnnounces(s: State, events: seq<Event>, h: nat)
    requires CanRun(s, events)
    ensures Started(h) in Run(s, events).log <==> Started(h) in s.log || Announce(h) in events
    decreases |events|
  {
    hide Enabled, Apply;
    if events != [] {
      StepAnnounces(s, events[0], h);
      RunAnnounces(Apply(s, events[0]), events[1..], h);
      assert events == [events[0]] + events[1..];
    }
  }

  lemma StepAnnounces(s: State, event: Event, h: nat)
    requires Enabled(s, event)
    ensures Started(h) in Apply(s, event).log <==> Started(h) in s.log || event == Announce(h)
  {
    hide Apply;
    AppendsToLog(s, event);
  }

  /**
  The resolution of attempt g failed after `before`, and is worth reporting; `between` happens until it is reported.
  */
  ghost predicate ReportsAfter(before: seq<Event>, g: nat, between: seq<Event>) {
    && CanRun(INITIAL, before) && Enabled(Run(INITIAL, before), FailResolve(g, false))
    && g !in Run(INITIAL, before).fields.cancelled
    && var failed := Apply(Run(INITIAL, before), FailResolve(g, false));
       CanRun(failed, between) && Enabled(Run(failed, between), ReportResolve(g))
  }

  /** The state in which the failure is about to be reported. */
  function Reporting(before: seq<Event>, g: nat, between: seq<Event>): State
    requires ReportsAfter(before, g, between)
  {
    Run(Apply(Run(INITIAL, before), FailResolve(g, false)), between)
  }

  /**
  A failed resolution is found worth reporting by the newest attempt only, and it still is the newest when the
  report is sent exactly when no play and no stop began in between.
  */
  lemma ReportIsOfNewestExactly(before: seq<Event>, g: nat, between: seq<Event>)
    requires ReportsAfter(before, g, between)
    ensures Run(INITIAL, before).fields.generation == g
    ensures Reporting(before, g, between).fields.generation == g <==>
        forall i :: 0 <= i < |between| ==> !Bumps(between[i])
  {
    hide CanRun, Run;
    InitialInv();
    RunKeepsInv(INITIAL, before);
    var failed := Apply(Run(INITIAL, before), FailResolve(g, false));
    RunBumps(failed, between);
  }

  /**
  In the log, the report stands behind the announcement of a newer attempt exactly when that was announced in
  between.
  */
  lemma ReportIsLateExactly(before: seq<Event>, g: nat, between: seq<Event>, h: nat)
    requires ReportsAfter(before, g, between) && g < h
    ensures var log := Apply(Reporting(before, g, between), ReportResolve(g)).log;
            && log[|log| - 1] == ResolveFailed(g)
            && (Started(h) in log[..|log| - 1] <==> Announce(h) in between)
  {
    hide CanRun, Run;
    InitialInv();
    RunKeepsInv(INITIAL, before);
    var s := Run(INITIAL, before);
    ReportIsOfNewestExactly(before, g, between);
    var failed := Apply(s, FailResolve(g, false));
    StepAnnounces(s, FailResolve(g, false), h);
    RunAnnounces(failed, between, h);
    NothingNewerStarted(s, h);
    var late := Reporting(before, g, between);
    AppendsToLog(late, ReportResolve(g));
    assert (late.log + [ResolveFailed(g)])[..|late.log|] == late.log;
  }

  lemma NothingNewerStarted(s: State, h: nat)
    requires Inv(s) && s.fields.generation < h
    ensures Started(h) !in s.log
  {
    hide CriticalIsLast, LogIsOrdered, CurrentIsNewest, MediaIsNewest, HolderHolds, CriticalIsNewest;
    assert forall i :: 0 <= i < |s.log| ==> EntryIsTrue(s, s.log[i]);
  }

  // ---------------------------------------------------------------- stops overtaken by a play

  /** Event i of a run is a load that becomes current: it succeeded as the newest attempt of an open controller. */
  ghost predicate BecomesCurrentAt(s: State, events: seq<Event>, i: nat, g: nat) {
    && i < |events| && CanRun(s, events[..i])
    && events[i].RecordLoad? && events[i].generation == g
    && BecomesCurrent(Run(s, events[..i]), events[i])
  }

  predicate BecomesCurrent(s: State, event: Event) {
    && event.RecordLoad? && event.generation in s.attempts && s.attempts[event.generation].pc == Loaded(true)
    && IsActive(s.fields, event.generation)
  }

  lemma StepSetsCurrent(s: State, event: Event)
    requires Enabled(s, event)
    ensures Apply(s, event).currentOf ==
            if BecomesCurrent(s, event) then Some(event.generation) else if event.BumpStop? then None else s.currentOf
    ensures BecomesCurrent(s, event) ==> event.RecordLoad?
  {
    hide Cancelled, IsAdmitted;
  }

  /** No stop begins in the run behind event i. */
  predicate NoStopBehind(events: seq<Event>, i: int) {
    forall j :: 0 <= j < |events| && i < j ==> !events[j].BumpStop?
  }

  /** What is current after a run is what became current last, unless a stop began since. */
  lemma {:induction false} CurrentAfterRun(s: State, events: seq<Event>, g: nat)
    requires CanRun(s, events)
    ensures Run(s, events).currentOf == Some(g) ==>
              || (exists i: nat :: BecomesCurrentAt(s, events, i, g) && NoStopBehind(events, i))
              || (s.currentOf == Some(g) && NoStopBehind(events, -1))
    ensures (exists i: nat :: BecomesCurrentAt(s, events, i, g) && NoStopBehind(events, i)) ==>
        Run(s, events).currentOf.Some?
    decreases |events|
  {
    hide Enabled, Apply, CanRun, Run, BecomesCurrent;
    if events == [] {
      EmptyRun(s);
    } else {
      var n := |events| - 1;
      var front, last := events[..n], events[n];
      StepOfRun(s, events, n);
      assert events[..n + 1] == events;
      var before := Run(s, front);
      StepSetsCurrent(before, last);
      CurrentAfterRun(s, front, g);
      assert forall i: nat :: i < n ==> events[..i] == front[..i] && events[i] == front[i];
      if Run(s, events).currentOf == Some(g) {
        if BecomesCurrent(before, last) {
          assert BecomesCurrentAt(s, events, n, g) && NoStopBehind(events, n);
        } else if i: nat :| BecomesCurrentAt(s, front, i, g) && NoStopBehind(front, i) {
          assert BecomesCurrentAt(s, events, i, g) && NoStopBehind(events, i);
        }
      }
      if i: nat :| BecomesCurrentAt(s, events, i, g) && NoStopBehind(events, i) {
        if i < n {
          assert BecomesCurrentAt(s, front, i, g) && NoStopBehind(front, i);
        }
      }
    }
  }

  lemma EmptyRun(s: State)
    ensures CanRun(s, []) && Run(s, []) == s
  {
  }

  /** A stop begins after `before`, and `between` happens until it reaches the player. */
  ghost predicate StopsAfter(before: seq<Event>, between: seq<Event>) {
    && CanRun(INITIAL, before) && Enabled(Run(INITIAL, before), BumpStop)
    && var bumped := Apply(Run(INITIAL, before), BumpStop);
       && CanRun(bumped, between)
       && Enabled(Run(bumped, between), StopPlayer(bumped.fields.generation, true, Nothing))
  }

  /** The state once the stop has unloaded the player. */
  function Unloaded(before: seq<Event>, between: seq<Event>): State
    requires StopsAfter(before, between)
  {
    var bumped := Apply(Run(INITIAL, before), BumpStop);
    Apply(Run(bumped, between), StopPlayer(bumped.fields.generation, true, Nothing))
  }

  /**
  A stop that reaches the player leaves it empty. Something is current all the same exactly when, since the stop began,
  a load succeeded as the newest attempt and no other stop began after it; the attempt is then newer than the stop.
  */
  lemma StopMissesExactly(before: seq<Event>, between: seq<Event>)
    requires StopsAfter(before, between)
    ensures var bumped, s := Apply(Run(INITIAL, before), BumpStop), Unloaded(before, between);
            && s.media == Nothing
            && (s.currentOf.Some? <==>
                 exists i: nat, g :: BecomesCurrentAt(bumped, between, i, g) && NoStopBehind(between, i))
            && (s.currentOf.Some? ==>
                  && bumped.fields.generation < s.currentOf.value && s.currentOf.value in s.attempts
                  && s.fields.current == s.attempts[s.currentOf.value].request)
            && (s.currentOf.None? ==> s.fields.current == NO_REQUEST)
  {
    hide CanRun, Run, BecomesCurrentAt, NoStopBehind;
    var bumped, s := Apply(Run(INITIAL, before), BumpStop), Unloaded(before, between);
    UnloadedIsKnown(before, between);
    hide Apply, Enabled;
    if s.currentOf.Some? {
      CurrentAfterRun(bumped, between, s.currentOf.value);
    }
    if i: nat, g :| BecomesCurrentAt(bumped, between, i, g) && NoStopBehind(between, i) {
      CurrentAfterRun(bumped, between, g);
    }
  }

  /** What the unloading changes, and what the invariant says of its result. */
  lemma UnloadedIsKnown(before: seq<Event>, between: seq<Event>)
    requires StopsAfter(before, between)
    ensures var bumped, s := Apply(Run(INITIAL, before), BumpStop), Unloaded(before, between);
            && s.media == Nothing && s.currentOf == Run(bumped, between).currentOf
            && s.attempts == Run(bumped, between).attempts
            && CurrentIsNewest(s) && bumped.fields.generation in s.stops && GenerationsAreUnique(bumped)
  {
    hide CanRun, Run, Inv;
    InitialInv();
    RunKeepsInv(INITIAL, before);
    StepKeepsInv(Run(INITIAL, before), BumpStop);
    var bumped := Apply(Run(INITIAL, before), BumpStop);
    RunKeepsInv(bumped, between);
    StepKeepsInv(Run(bumped, between), StopPlayer(bumped.fields.generation, true, Nothing));
    InvSays(bumped);
    InvSays(Unloaded(before, between));
  }

  lemma InvSays(s: State)
    requires Inv(s)
    ensures CurrentIsNewest(s) && GenerationsAreUnique(s)
  {
    hide CriticalIsLast, LogIsOrdered, MediaIsNewest, HolderHolds, CriticalIsNewest;
  }

  lemma {:induction false} AttemptsWithoutPlay(s: State, events: seq<Event>)
    requires CanRun(s, events) && forall i :: 0 <= i < |events| ==> !events[i].BeginPlay?
    ensures Run(s, events).attempts.Keys == s.attempts.Keys
    decreases |events|
  {
    hide Enabled, Apply;
    if events != [] {
      StepWithoutPlay(s, events[0]);
      AttemptsWithoutPlay(Apply(s, events[0]), events[1..]);
    }
  }

  lemma StepWithoutPlay(s: State, event: Event)
    requires Enabled(s, event) && !event.BeginPlay?
    ensures Apply(s, event).attempts.Keys == s.attempts.Keys
  {
    hide Cancelled, IsAdmitted, IsActive;
  }

  /** Without any play since it began, a stop leaves nothing current. */
  lemma StopWithoutPlay(before: seq<Event>, between: seq<Event>)
    requires StopsAfter(before, between) && forall i :: 0 <= i < |between| ==> !between[i].BeginPlay?
    ensures Unloaded(before, between).currentOf == None && Unloaded(before, between).fields.current == NO_REQUEST
  {
    hide CanRun, Run;
    var bumped, s := Apply(Run(INITIAL, before), BumpStop), Unloaded(before, between);
    UnloadedIsKnown(before, between);
    AttemptsWithoutPlay(bumped, between);
    hide Apply, Enabled;
    assert forall g :: g in s.attempts ==> g in bumped.attempts && g <= bumped.fields.generation;
  }

  /** These events lead from the start to this state. */
  predicate Reaches(events: seq<Event>, s: State) {
    CanRun(INITIAL, events) && Run(INITIAL, events) == s
  }

  lemma Onward(events: seq<Event>, s: State, event: Event)
    requires Reaches(events, s) && Enabled(s, event)
    ensures Reaches(events + [event], Apply(s, event))
  {
    assert CanRun(s, [event]) && Run(s, [event]) == Apply(s, event) by {
      assert [event][1..] == [];
    }
    RunAppend(INITIAL, events, [event]);
  }

  const SECOND := Request("second", "")

  /** A stop begins, and a play overtakes it before it reaches the player. */
  const OVERTAKEN := State(
    Fields(NO_REQUEST, "", 2, Some(2), {}, false), None, Nothing, map[2 := Attempt(SECOND, "", Resolving)],
    map[1 := Bumped], Open, 0, 0, None, [])

  /** The play has been loaded and is current, while the stop is still on its way. */
  const LOADED := State(
    Fields(SECOND, "title", 2, Some(2), {}, false), None, Media(2), map[2 := Attempt(SECOND, "title", Done)],
    map[1 := Bumped], Open, 0, 0, Some(2), [Started(2), LoadBegan(2), BecameCurrent(2)])

  const STOPPING := State(
    Fields(NO_REQUEST, "", 1, None, {}, false), None, Nothing, map[], map[1 := Bumped], Open, 0, 0, None, [])

  lemma StopBegins(start: State, before: seq<Event>) returns (events: seq<Event>)
    requires start == INITIAL && Reaches(before, start)
    ensures Reaches(events, STOPPING)
  {
    hide Reaches, CanRun, Run;
    Onward(before, start, CheckStop);
    var s1, e1 := Apply(start, CheckStop), before + [CheckStop];
    Onward(e1, s1, BumpStop);
    events := e1 + [BumpStop];
    assert Apply(s1, BumpStop) == STOPPING;
  }

  lemma StopIsOvertaken(before: seq<Event>) returns (events: seq<Event>)
    requires Reaches(before, STOPPING)
    ensures Reaches(events, OVERTAKEN)
  {
    hide Reaches, CanRun, Run;
    Onward(before, STOPPING, CheckPlay);
    var s1, e1 := Apply(STOPPING, CheckPlay), before + [CheckPlay];
    Onward(e1, s1, BeginPlay(SECOND));
    events := e1 + [BeginPlay(SECOND)];
    assert Apply(s1, BeginPlay(SECOND)) == OVERTAKEN;
  }

  const TAKEN := State(
    Fields(NO_REQUEST, "", 2, Some(2), {}, false), Some(Player(2)), Nothing,
    map[2 := Attempt(SECOND, "title", Announced)], map[1 := Bumped], Open, 0, 0, None, [Started(2)])

  const ADMITTED := State(
    Fields(NO_REQUEST, "", 2, Some(2), {}, false), Some(Player(2)), Nothing,
    map[2 := Attempt(SECOND, "title", Checking)], map[1 := Bumped], Open, 0, 0, None, [])

  lemma PlayTakesLoad(before: seq<Event>) returns (events: seq<Event>)
    requires Reaches(before, OVERTAKEN)
    ensures Reaches(events, ADMITTED)
  {
    hide Reaches, CanRun, Run;
    Onward(before, OVERTAKEN, Resolve(2, "title"));
    var s1, e1 := Apply(OVERTAKEN, Resolve(2, "title")), before + [Resolve(2, "title")];
    Onward(e1, s1, TakeLoad(2));
    events := e1 + [TakeLoad(2)];
    assert Apply(s1, TakeLoad(2)) == ADMITTED;
  }

  lemma PlayIsAnnounced(before: seq<Event>) returns (events: seq<Event>)
    requires Reaches(before, OVERTAKEN)
    ensures Reaches(events, TAKEN)
  {
    hide Reaches, CanRun, Run;
    var taken := PlayTakesLoad(before);
    Onward(taken, ADMITTED, Check(2));
    var s1, e1 := Apply(ADMITTED, Check(2)), taken + [Check(2)];
    Onward(e1, s1, Announce(2));
    events := e1 + [Announce(2)];
    assert Apply(s1, Announce(2)) == TAKEN;
  }

  const ENDED := State(
    Fields(NO_REQUEST, "", 2, Some(2), {}, false), Some(Player(2)), Media(2),
    map[2 := Attempt(SECOND, "title", Loaded(true))], map[1 := Bumped], Open, 0, 0, None,
    [Started(2), LoadBegan(2)])

  lemma PlayEndsLoading(before: seq<Event>) returns (events: seq<Event>)
    requires Reaches(before, TAKEN)
    ensures Reaches(events, ENDED)
  {
    hide Reaches, CanRun, Run;
    Onward(before, TAKEN, BeginLoad(2));
    var s1, e1 := Apply(TAKEN, BeginLoad(2)), before + [BeginLoad(2)];
    Onward(e1, s1, EndLoad(2, true, Media(2)));
    events := e1 + [EndLoad(2, true, Media(2))];
    assert Apply(s1, EndLoad(2, true, Media(2))) == ENDED;
  }

  lemma PlayIsLoaded(before: seq<Event>) returns (events: seq<Event>)
    requires Reaches(before, TAKEN)
    ensures Reaches(events, LOADED)
  {
    hide Reaches, CanRun, Run;
    var ended := PlayEndsLoading(before);
    Onward(ended, ENDED, RecordLoad(2, false));
    events := ended + [RecordLoad(2, false)];
    assert Apply(ENDED, RecordLoad(2, false)) == LOADED;
  }

  /** A stop overtaken by a newer play reaches the player last: it unloads the newer media, which stays current. */
  lemma OvertakenStopUnloads()
    ensures exists events, s ::
        Reaches(events, s) && s.media == Nothing && s.fields.current == SECOND && s.fields.generation == 2
  {
    assert Reaches([], INITIAL);
    hide Reaches, CanRun, Run;
    var stopping := StopBegins(INITIAL, []);
    var before := StopIsOvertaken(stopping);
    var taken := PlayIsAnnounced(before);
    var events := PlayIsLoaded(taken);
    Onward(events, LOADED, TakeStop(1));
    var s := Apply(LOADED, TakeStop(1));
    Onward(events + [TakeStop(1)], s, StopPlayer(1, true, Nothing));
    var s' := Apply(s, StopPlayer(1, true, Nothing));
    assert Reaches(events + [TakeStop(1)] + [StopPlayer(1, true, Nothing)], s');
  }

  /** A failed resolution is reported without looking at the generation: here after the newer play was announced. */
  lemma OldFailureIsReportedLate()
    ensures exists events, s :: Reaches(events, s) && s.log == [Started(2), ResolveFailed(1)]
  {
    hide Reaches, CanRun, Run;
    var before := OldFailureWaits();
    var events := NewPlayIsAnnounced(before);
    Onward(events, ANNOUNCED, ReportResolve(1));
    assert Reaches(events + [ReportResolve(1)], Apply(ANNOUNCED, ReportResolve(1)));
  }

  const FIRST := Request("first", "")

  /** The first resolution failed and was found worth reporting; then a newer play begins. */
  const COMPLAINING := State(
    Fields(NO_REQUEST, "", 2, Some(2), {1}, false), None, Nothing,
    map[1 := Attempt(FIRST, "", Complaining), 2 := Attempt(SECOND, "", Resolving)], map[], Open, 0, 0, None, [])

  const ANNOUNCED := State(
    Fields(NO_REQUEST, "", 2, Some(2), {1}, false), Some(Player(2)), Nothing,
    map[1 := Attempt(FIRST, "", Complaining), 2 := Attempt(SECOND, "title", Announced)], map[], Open, 0, 0, None,
    [Started(2)])

  lemma OldFailureWaits() returns (events: seq<Event>)
    ensures Reaches(events, COMPLAINING)
  {
    assert Reaches([], INITIAL);
    hide Reaches, CanRun, Run;
    Onward([], INITIAL, CheckPlay);
    var s1, e1 := Apply(INITIAL, CheckPlay), [] + [CheckPlay];
    Onward(e1, s1, CheckPlay);
    var s2, e2 := Apply(s1, CheckPlay), e1 + [CheckPlay];
    Onward(e2, s2, BeginPlay(FIRST));
    var s3, e3 := Apply(s2, BeginPlay(FIRST)), e2 + [BeginPlay(FIRST)];
    Onward(e3, s3, FailResolve(1, false));
    var s4, e4 := Apply(s3, FailResolve(1, false)), e3 + [FailResolve(1, false)];
    Onward(e4, s4, BeginPlay(SECOND));
    events := e4 + [BeginPlay(SECOND)];
    assert Apply(s4, BeginPlay(SECOND)) == COMPLAINING;
  }

  const CHECKING := State(
    Fields(NO_REQUEST, "", 2, Some(2), {1}, false), Some(Player(2)), Nothing,
    map[1 := Attempt(FIRST, "", Complaining), 2 := Attempt(SECOND, "title", Checking)], map[], Open, 0, 0, None, [])

  lemma NewPlayTakesLoad(before: seq<Event>) returns (events: seq<Event>)
    requires Reaches(before, COMPLAINING)
    ensures Reaches(events, CHECKING)
  {
    hide Reaches, CanRun, Run;
    Onward(before, COMPLAINING, Resolve(2, "title"));
    var s1, e1 := Apply(COMPLAINING, Resolve(2, "title")), before + [Resolve(2, "title")];
    Onward(e1, s1, TakeLoad(2));
    events := e1 + [TakeLoad(2)];
    assert Apply(s1, TakeLoad(2)) == CHECKING;
  }

  lemma NewPlayIsAnnounced(before: seq<Event>) returns (events: seq<Event>)
    requires Reaches(before, COMPLAINING)
    ensures Reaches(events, ANNOUNCED)
  {
    hide Reaches, CanRun, Run;
    var taken := NewPlayTakesLoad(before);
    Onward(taken, CHECKING, Check(2));
    var s1, e1 := Apply(CHECKING, Check(2)), taken + [Check(2)];
    Onward(e1, s1, Announce(2));
    events := e1 + [Announce(2)];
    assert Apply(s1, Announce(2)) == ANNOUNCED;
  }
}
