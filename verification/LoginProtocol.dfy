/**
Every interleaving of logins, disconnections and profile removals (internal/services/services.go): which of them may
still write a profile's token, account row, session and status. `loginCommitMu` is held over whole sections, within
which other goroutines go on; each step below is atomic. Profiles are numbered.
*/
module LoginProtocol {
  import opened Wrappers

  /** One login attempt, disconnection or removal: the generation it made for its profile. */
  datatype Id = Id(profile: nat, generation: nat)

  /** Where a login attempt stands, up to `Failing`, or a disconnection or removal. */
  datatype Pc =
    | Identifying
    | Unchecked
    | Checked
    | Snapped(previous: Option<nat>)
    | Stored(previous: Option<nat>, keyring: bool)
    | Undoing(previous: Option<nat>, keyring: bool)
    | Saved
    | Failing
    | Clearing
    | Forgetting
    | Dropping
    | Removed
    | Done

  datatype Entry =
    | Outdated(id: Id)
    | TokenWritten(id: Id)
    | AccountWritten(id: Id)
    | SessionWritten(id: Id)
    | StatusWritten(id: Id)

  /**
  `tokens`, `accounts` and `sessions` say whose token, account row and session a profile has: the generation that
  wrote it, 0 for what was there before and for a session restored from a stored token. `removed` has the newest
  removal of each profile that was carried out; it and `log` are history.
  */
  datatype State = State(
    generations: map<nat, nat>, holder: Option<Id>, actors: map<Id, Pc>,
    tokens: map<nat, nat>, accounts: map<nat, nat>, sessions: map<nat, nat>, removed: map<nat, nat>, log: seq<Entry>)

  datatype Event =
    | Begin(profile: nat)
    | FailIdentity(id: Id)
    | ReportFailure(id: Id)
    | Take(id: Id)
    | Check(id: Id)
    | Snapshot(id: Id, readable: bool, broken: bool)
    | Store(id: Id, keyring: bool, broken: bool)
    | Save(id: Id, broken: bool)
    | Undo(id: Id, broken: bool)
    | Publish(id: Id)
    | BeginRemoval(profile: nat)
    | ClearToken(id: Id, broken: bool)
    | ClearAccount(id: Id, broken: bool)
    | DropSession(id: Id)
    | RestoreSession(profile: nat)

  function Generation(s: State, profile: nat): nat {
    if profile in s.generations then s.generations[profile] else 0
  }

  function NextId(s: State, profile: nat): Id {
    Id(profile, Generation(s, profile) + 1)
  }

  function PcOf(s: State, id: Id): Pc {
    if id in s.actors then s.actors[id] else Done
  }

  predicate Enabled(s: State, event: Event) {
    match event
    case Begin(_) => s.holder == None
    case FailIdentity(id) => PcOf(s, id).Identifying?
    case ReportFailure(id) => PcOf(s, id).Failing?
    case Take(id) => PcOf(s, id).Identifying? && s.holder == None
    case Check(id) => PcOf(s, id).Unchecked?
    case Snapshot(id, _, _) => PcOf(s, id).Checked?
    case Store(id, _, _) => PcOf(s, id).Snapped?
    case Save(id, _) => PcOf(s, id).Stored?
    case Undo(id, _) => PcOf(s, id).Undoing?
    case Publish(id) => PcOf(s, id).Saved?
    case BeginRemoval(_) => s.holder == None
    case ClearToken(id, _) => PcOf(s, id).Clearing?
    case ClearAccount(id, _) => PcOf(s, id).Forgetting?
    case DropSession(id) => PcOf(s, id).Dropping?
    case RestoreSession(_) => true
  }

  /** The actor goes on to `pc`; it holds the commit mutex exactly in the sections under it. */
  function Move(s: State, id: Id, pc: Pc): State {
    s.(actors := s.actors[id := pc],
       holder := if HoldsCommit(pc) then Some(id) else if HoldsCommit(PcOf(s, id)) then None else s.holder)
  }

  predicate HoldsCommit(pc: Pc) {
    || pc.Unchecked? || pc.Checked? || pc.Snapped? || pc.Stored? || pc.Undoing? || pc.Saved?
    || pc.Clearing? || pc.Forgetting? || pc.Dropping?
  }

  function Outdate(s: State, id: Id): State {
    s.(generations := s.generations[id.profile := id.generation])
  }

  /** The token there was before the attempt comes back, or none. */
  function Restored(s: State, id: Id): map<nat, nat>
    requires PcOf(s, id).Undoing?
  {
    if PcOf(s, id).previous.Some? then s.tokens[id.profile := PcOf(s, id).previous.value] else s.tokens - {id.profile}
  }

  /** The pc an actor goes on to. */
  function Next(s: State, event: Event): Pc
    requires Enabled(s, event)
  {
    match event
    case Begin(_) => Identifying
    case FailIdentity(_) => Failing
    case ReportFailure(_) => Done
    case Take(_) => Unchecked
    case Check(id) => if Generation(s, id.profile) == id.generation then Checked else Done
    case Snapshot(id, readable, broken) =>
      if broken then Failing
      else Snapped(if readable && id.profile in s.tokens then Some(s.tokens[id.profile]) else None)
    case Store(id, keyring, broken) => if broken then Failing else Stored(PcOf(s, id).previous, keyring)
    case Save(id, broken) => if broken then Undoing(PcOf(s, id).previous, PcOf(s, id).keyring) else Saved
    case Undo(_, _) => Failing
    case Publish(_) => Done
    case BeginRemoval(_) => Clearing
    case ClearToken(_, broken) => if broken then Done else Forgetting
    case ClearAccount(_, broken) => if broken then Done else Dropping
    case DropSession(_) => Removed
    case RestoreSession(_) => Done
  }

  /** Who takes the step. */
  function ActorOf(s: State, event: Event): Id {
    match event
    case Begin(profile) => NextId(s, profile)
    case BeginRemoval(profile) => NextId(s, profile)
    case RestoreSession(profile) => Id(profile, 0)
    case FailIdentity(id) => id
    case ReportFailure(id) => id
    case Take(id) => id
    case Check(id) => id
    case Snapshot(id, _, _) => id
    case Store(id, _, _) => id
    case Save(id, _) => id
    case Undo(id, _) => id
    case Publish(id) => id
    case ClearToken(id, _) => id
    case ClearAccount(id, _) => id
    case DropSession(id) => id
  }

  /** What is written, in order. */
  function Written(s: State, event: Event): seq<Entry>
    requires Enabled(s, event)
  {
    match event
    case Begin(profile) => [Outdated(NextId(s, profile)), StatusWritten(NextId(s, profile))]
    case ReportFailure(id) => if Generation(s, id.profile) == id.generation then [StatusWritten(id)] else []
    case Store(id, keyring, broken) => if !broken && keyring then [TokenWritten(id)] else []
    case Save(id, broken) => if broken then [] else [AccountWritten(id)]
    case Undo(id, broken) => if broken || !PcOf(s, id).keyring then [] else [TokenWritten(id)]
    case Publish(id) => [SessionWritten(id)]
    case BeginRemoval(profile) => [Outdated(NextId(s, profile))]
    case _ => []
  }

  /** The tokens, accounts and sessions after a step. */
  function Data(s: State, event: Event): State
    requires Enabled(s, event)
  {
    match event
    case Begin(profile) => Outdate(s, NextId(s, profile))
    case BeginRemoval(profile) => Outdate(s, NextId(s, profile))
    case Store(id, keyring, broken) =>
      if !broken && keyring then s.(tokens := s.tokens[id.profile := id.generation]) else s
    case Save(id, broken) => if broken then s else s.(accounts := s.accounts[id.profile := id.generation])
    case Undo(id, broken) => if broken || !PcOf(s, id).keyring then s else s.(tokens := Restored(s, id))
    case Publish(id) => s.(sessions := s.sessions[id.profile := id.generation])
    case ClearToken(id, broken) => if broken then s else s.(tokens := s.tokens - {id.profile})
    case ClearAccount(id, broken) => if broken then s else s.(accounts := s.accounts - {id.profile})
    case DropSession(id) => s.(sessions := s.sessions - {id.profile}, removed := s.removed[id.profile := id.generation])
    case RestoreSession(profile) => if profile in s.sessions then s else s.(sessions := s.sessions[profile := 0])
    case _ => s
  }

  function Apply(s: State, event: Event): State
    requires Enabled(s, event)
  {
    if event.RestoreSession? then Data(s, event)
    else Move(Data(s, event), ActorOf(s, event), Next(s, event)).(log := s.log + Written(s, event))
  }

  /** At the start nobody is logging in; tokens, accounts and sessions may be there from before. */
  predicate Init(s: State) {
    && s.generations == map[] && s.holder == None && s.actors == map[] && s.removed == map[] && s.log == []
    && (forall p :: p in s.tokens ==> s.tokens[p] == 0) && (forall p :: p in s.accounts ==> s.accounts[p] == 0)
    && (forall p :: p in s.sessions ==> s.sessions[p] == 0)
  }

  predicate CanRun(s: State, events: seq<Event>)
    decreases |events|
  {
    events == [] || (Enabled(s, events[0]) && CanRun(Apply(s, events[0]), events[1..]))
  }

  function Run(s: State, events: seq<Event>): State
    requires CanRun(s, events)
    decreases |events|
  {
    if events == [] then s else Run(Apply(s, events[0]), events[1..])
  }

  /** The commit mutex is held by whoever is in a section under it. */
  predicate HolderAt(s: State, id: Id) {
    HoldsCommit(PcOf(s, id)) ==> s.holder == Some(id)
  }

  /** A generation was made by its actor; past the check, or removing, it is the newest of its profile. */
  predicate NewestAt(s: State, id: Id) {
    && (id in s.actors ==> 0 < id.generation <= Generation(s, id.profile))
    && (HoldsCommit(PcOf(s, id)) && !PcOf(s, id).Unchecked? ==> id.generation == Generation(s, id.profile))
  }

  predicate IsPast(s: State, entry: Entry) {
    entry.id.generation <= Generation(s, entry.id.profile)
  }

  /** Of one profile, nothing is written by an attempt older than one that outdated it. */
  predicate InOrder(a: Entry, b: Entry) {
    a.Outdated? && a.id.profile == b.id.profile ==> a.id.generation <= b.id.generation
  }

  ghost predicate LogIsOrdered(log: seq<Entry>) {
    forall i, j :: 0 <= i < j < |log| ==> InOrder(log[i], log[j])
  }

  ghost predicate LogIsPast(s: State) {
    forall i :: 0 <= i < |s.log| ==> IsPast(s, s.log[i])
  }

  predicate IsAfterRemoval(s: State, profile: nat, generation: nat) {
    profile in s.removed ==> s.removed[profile] < generation
  }

  /** What a profile has was written after its last removal; a session may also have been restored since. */
  predicate NewerAt(s: State, profile: nat) {
    && (profile in s.tokens ==> IsAfterRemoval(s, profile, s.tokens[profile]))
    && (profile in s.accounts ==> IsAfterRemoval(s, profile, s.accounts[profile]))
    && (profile in s.sessions && s.sessions[profile] != 0 ==> IsAfterRemoval(s, profile, s.sessions[profile]))
    && (profile in s.removed ==>
         PcOf(s, Id(profile, s.removed[profile])).Removed? && Id(profile, s.removed[profile]) in s.actors)
  }

  function PreviousOf(pc: Pc): Option<nat> {
    if pc.Snapped? || pc.Stored? || pc.Undoing? then pc.previous else None
  }

  /** The token an attempt may put back is newer than the last removal; a removal goes step by step. */
  predicate StageAt(s: State, id: Id) {
    && (PreviousOf(PcOf(s, id)).Some? ==> IsAfterRemoval(s, id.profile, PreviousOf(PcOf(s, id)).value))
    && (PcOf(s, id).Forgetting? ==> id.profile !in s.tokens)
    && (PcOf(s, id).Dropping? ==> id.profile !in s.tokens && id.profile !in s.accounts)
  }

  ghost predicate Inv(s: State) {
    && (forall id :: HolderAt(s, id) && NewestAt(s, id) && StageAt(s, id))
    && (forall profile :: NewerAt(s, profile))
    && LogIsPast(s) && LogIsOrdered(s.log)
  }

  lemma InitInv(s: State)
    requires Init(s)
    ensures Inv(s)
  {
  }

  /** A step moves its actor only, and outdates a profile only by beginning something for it. */
  lemma MovesActor(s: State, event: Event, id: Id)
    requires Enabled(s, event)
    ensures PcOf(Apply(s, event), id) ==
            if id == ActorOf(s, event) && !event.RestoreSession? then Next(s, event) else PcOf(s, id)
    ensures id in Apply(s, event).actors <==> id in s.actors || (id == ActorOf(s, event) && !event.RestoreSession?)
  {
    hide Restored, Written, Next, HoldsCommit;
  }

  lemma Outdates(s: State, event: Event, profile: nat)
    requires Enabled(s, event)
    ensures Generation(Apply(s, event), profile) ==
            Generation(s, profile)
              + (if (event.Begin? || event.BeginRemoval?) && event.profile == profile then 1 else 0)
  {
    hide Restored, Written, Next, HoldsCommit;
  }

  lemma HolderMoves(s: State, event: Event)
    requires Enabled(s, event) && HolderAt(s, ActorOf(s, event))
    ensures var s' := Apply(s, event);
            if event.RestoreSession? then s'.holder == s.holder
            else s'.holder == if HoldsCommit(Next(s, event)) then Some(ActorOf(s, event))
                              else if HoldsCommit(PcOf(s, ActorOf(s, event))) then None else s.holder
  {
    hide Restored, Written, Next, HoldsCommit;
  }

  /** Only an actor that holds the commit mutex, or finds it free, gets into a section under it. */
  lemma EntersFree(s: State, event: Event)
    requires Enabled(s, event) && !event.RestoreSession? && HoldsCommit(Next(s, event))
    ensures HoldsCommit(PcOf(s, ActorOf(s, event))) || s.holder == None
  {
    hide Restored, Written, Generation;
  }

  lemma KeepsHolderAt(s: State, event: Event, id: Id)
    requires Enabled(s, event) && HolderAt(s, id) && HolderAt(s, ActorOf(s, event))
    ensures HolderAt(Apply(s, event), id)
  {
    hide Apply, Enabled, HoldsCommit, Next, ActorOf, PcOf;
    MovesActor(s, event, id);
    HolderMoves(s, event);
    if !event.RestoreSession? && HoldsCommit(Next(s, event)) {
      EntersFree(s, event);
    }
  }

  /** Getting past the check, or beginning a removal, takes being the newest. */
  lemma KeepsNewestAt(s: State, event: Event, id: Id)
    requires Enabled(s, event) && NewestAt(s, id) && HolderAt(s, id)
    ensures NewestAt(Apply(s, event), id)
  {
    hide Apply;
    MovesActor(s, event, id);
    Outdates(s, event, id.profile);
  }

  /** Whoever writes something is the newest of its profile. */
  lemma WritesAsNewest(s: State, event: Event, k: nat)
    requires Enabled(s, event) && NewestAt(s, ActorOf(s, event)) && k < |Written(s, event)|
    ensures var id := ActorOf(s, event);
            Written(s, event)[k].id == id && id.generation == Generation(Apply(s, event), id.profile)
    ensures Written(s, event)[k].Outdated? ==> k == 0
  {
    hide Apply;
    Outdates(s, event, ActorOf(s, event).profile);
  }

  lemma AppendsWritten(s: State, event: Event)
    requires Enabled(s, event)
    ensures Apply(s, event).log == s.log + Written(s, event)
  {
    hide Restored, Next, HoldsCommit;
    assert event.RestoreSession? ==> Written(s, event) == [];
  }

  lemma KeepsPast(s: State, event: Event)
    requires Enabled(s, event) && Inv(s)
    ensures LogIsPast(Apply(s, event))
  {
    hide Apply, Enabled, Written, ActorOf, Generation;
    var s' := Apply(s, event);
    AppendsWritten(s, event);
    forall i | 0 <= i < |s'.log| ensures IsPast(s', s'.log[i]) {
      Outdates(s, event, s'.log[i].id.profile);
      if i < |s.log| {
        assert IsPast(s, s.log[i]);
      } else {
        WritesAsNewest(s, event, i - |s.log|);
      }
    }
  }

  lemma KeepsOrder(s: State, event: Event)
    requires Enabled(s, event) && Inv(s)
    ensures LogIsOrdered(Apply(s, event).log)
  {
    hide Apply, Enabled, Written, ActorOf, Generation;
    var s' := Apply(s, event);
    AppendsWritten(s, event);
    forall i, j | 0 <= i < j < |s'.log| ensures InOrder(s'.log[i], s'.log[j]) {
      if j >= |s.log| {
        WritesAsNewest(s, event, j - |s.log|);
        if i < |s.log| {
          assert IsPast(s, s.log[i]);
          Outdates(s, event, s.log[i].id.profile);
        } else {
          WritesAsNewest(s, event, i - |s.log|);
        }
      } else {
        assert InOrder(s.log[i], s.log[j]);
      }
    }
  }

  lemma DataIsApplied(s: State, event: Event)
    requires Enabled(s, event)
    ensures var s', data := Apply(s, event), Data(s, event);
            s'.tokens == data.tokens && s'.accounts == data.accounts && s'.sessions == data.sessions
              && s'.removed == data.removed
  {
    hide Data, Enabled, Next, Written, ActorOf, HoldsCommit;
  }

  /** What a step changes for a profile it changes for its actor's profile, whom nobody else can change meanwhile. */
  lemma ChangesOwnProfile(s: State, event: Event, profile: nat)
    requires Enabled(s, event)
    ensures var s' := Apply(s, event);
            profile != ActorOf(s, event).profile ==>
              && (profile in s'.tokens <==> profile in s.tokens)
              && (profile in s.tokens ==> s'.tokens[profile] == s.tokens[profile])
              && (profile in s'.accounts <==> profile in s.accounts)
              && (profile in s.accounts ==> s'.accounts[profile] == s.accounts[profile])
              && (profile in s'.sessions <==> profile in s.sessions)
              && (profile in s.sessions ==> s'.sessions[profile] == s.sessions[profile])
              && (profile in s'.removed <==> profile in s.removed)
              && (profile in s.removed ==> s'.removed[profile] == s.removed[profile])
  {
    hide Apply;
    DataIsApplied(s, event);
  }

  /** Data is changed under the commit mutex only, but for restored sessions. */
  lemma ChangesUnderMutex(s: State, event: Event)
    requires Enabled(s, event) && !HoldsCommit(PcOf(s, ActorOf(s, event)))
    ensures var s' := Apply(s, event);
            && s'.tokens == s.tokens && s'.accounts == s.accounts && s'.removed == s.removed
            && (event.RestoreSession? || s'.sessions == s.sessions)
  {
    hide Apply;
    DataIsApplied(s, event);
  }

  lemma KeepsStageAt(s: State, event: Event, id: Id)
    requires Enabled(s, event) && Inv(s)
    ensures StageAt(Apply(s, event), id)
  {
    var actor := ActorOf(s, event);
    assert HolderAt(s, id) && HolderAt(s, actor) && StageAt(s, id) && NewerAt(s, id.profile);
    MovesActor(s, event, id);
    if id == actor {
      KeepsOwnStage(s, event);
    } else {
      hide Apply, Enabled, ActorOf;
      if !HoldsCommit(PcOf(s, actor)) {
        ChangesUnderMutex(s, event);
      }
    }
  }

  lemma KeepsOwnStage(s: State, event: Event)
    requires Enabled(s, event) && StageAt(s, ActorOf(s, event)) && NewerAt(s, ActorOf(s, event).profile)
    ensures StageAt(Apply(s, event), ActorOf(s, event))
  {
    hide Apply;
    DataIsApplied(s, event);
    MovesActor(s, event, ActorOf(s, event));
  }

  lemma KeepsNewerAt(s: State, event: Event, profile: nat)
    requires Enabled(s, event) && Inv(s)
    ensures NewerAt(Apply(s, event), profile)
  {
    hide Apply, Enabled, ActorOf, HoldsCommit;
    var actor := ActorOf(s, event);
    assert NewerAt(s, profile) && NewestAt(s, actor) && StageAt(s, actor);
    if profile in s.removed {
      var last := Id(profile, s.removed[profile]);
      assert NewestAt(s, last);
      RemovedStays(s, event, last);
    }
    if profile == actor.profile {
      KeepsOwnNewer(s, event);
    } else {
      ChangesOwnProfile(s, event, profile);
    }
  }

  lemma RemovedStays(s: State, event: Event, id: Id)
    requires Enabled(s, event) && PcOf(s, id).Removed? && id in s.actors && NewestAt(s, id)
    ensures PcOf(Apply(s, event), id).Removed? && id in Apply(s, event).actors
  {
    hide Apply;
    MovesActor(s, event, id);
  }

  lemma KeepsOwnNewer(s: State, event: Event)
    requires Enabled(s, event)
    requires var actor := ActorOf(s, event);
             && NewerAt(s, actor.profile) && NewestAt(s, actor) && StageAt(s, actor)
             && (actor.profile in s.removed ==>
                   && NewestAt(s, Id(actor.profile, s.removed[actor.profile]))
                   && PcOf(Apply(s, event), Id(actor.profile, s.removed[actor.profile])).Removed?
                   && Id(actor.profile, s.removed[actor.profile]) in Apply(s, event).actors)
    ensures NewerAt(Apply(s, event), ActorOf(s, event).profile)
  {
    hide Apply;
    DataIsApplied(s, event);
    MovesActor(s, event, ActorOf(s, event));
  }

  lemma StepKeepsInv(s: State, event: Event)
    requires Enabled(s, event) && Inv(s)
    ensures Inv(Apply(s, event))
  {
    hide Enabled, Apply, HolderAt, NewestAt, StageAt, NewerAt, LogIsPast, LogIsOrdered;
    forall id ensures HolderAt(Apply(s, event), id) && NewestAt(Apply(s, event), id) && StageAt(Apply(s, event), id) {
      assert HolderAt(s, id) && HolderAt(s, ActorOf(s, event)) && NewestAt(s, id);
      KeepsHolderAt(s, event, id);
      KeepsNewestAt(s, event, id);
      KeepsStageAt(s, event, id);
    }
    forall profile: nat ensures NewerAt(Apply(s, event), profile) {
      KeepsNewerAt(s, event, profile);
    }
    KeepsPast(s, event);
    KeepsOrder(s, event);
  }

  lemma {:induction false} RunKeepsInv(s: State, events: seq<Event>)
    requires CanRun(s, events) && Inv(s)
    ensures Inv(Run(s, events))
    decreases |events|
  {
    hide Enabled, Apply, Inv;
    if events != [] {
      StepKeepsInv(s, events[0]);
      RunKeepsInv(Apply(s, events[0]), events[1..]);
    }
  }

  /**
  In every interleaving, once a newer attempt, a disconnection or a removal has outdated a profile's logins, no earlier
  attempt writes the profile's token, account row, session or status any more.
  */
  lemma OutdatedNeverWrites(start: State, events: seq<Event>, i: nat, j: nat)
    requires Init(start) && CanRun(start, events) && i < j < |Run(start, events).log|
    requires var log := Run(start, events).log;
             log[i].Outdated? && log[j].id.profile == log[i].id.profile
    ensures Run(start, events).log[i].id.generation <= Run(start, events).log[j].id.generation
  {
    hide Enabled, Apply, CanRun, Run;
    InitInv(start);
    RunKeepsInv(start, events);
    assert InOrder(Run(start, events).log[i], Run(start, events).log[j]);
  }

  /**
  After a disconnection or removal that was carried out, and as long as nothing has begun for the profile since, the
  profile has no token and no account row, and no session but one restored from a stored token.
  */
  lemma RemovalIsFinal(start: State, events: seq<Event>, profile: nat)
    requires Init(start) && CanRun(start, events)
    requires var s := Run(start, events);
             profile in s.removed && Generation(s, profile) == s.removed[profile]
    ensures var s := Run(start, events);
            && profile !in s.tokens && profile !in s.accounts && (profile in s.sessions ==> s.sessions[profile] == 0)
  {
    hide Enabled, Apply, CanRun, Run;
    InitInv(start);
    RunKeepsInv(start, events);
    OwnersAreKnown(start, events, profile);
    assert NewerAt(Run(start, events), profile);
  }

  /** Whatever a profile has was written by one of its generations. */
  ghost predicate OwnersKnownAt(s: State, profile: nat) {
    && (profile in s.tokens ==> s.tokens[profile] <= Generation(s, profile))
    && (profile in s.accounts ==> s.accounts[profile] <= Generation(s, profile))
    && (profile in s.sessions ==> s.sessions[profile] <= Generation(s, profile))
    && forall id: Id :: id.profile == profile && PreviousOf(PcOf(s, id)).Some? ==>
         PreviousOf(PcOf(s, id)).value <= Generation(s, profile)
  }

  lemma {:induction false} OwnersAreKnown(s: State, events: seq<Event>, profile: nat)
    requires CanRun(s, events) && Inv(s) && OwnersKnownAt(s, profile)
    ensures OwnersKnownAt(Run(s, events), profile)
    decreases |events|
  {
    hide Enabled, Apply, Inv, OwnersKnownAt;
    if events != [] {
      StepKeepsInv(s, events[0]);
      StepKeepsOwners(s, events[0], profile);
      OwnersAreKnown(Apply(s, events[0]), events[1..], profile);
    }
  }

  lemma StepKeepsOwners(s: State, event: Event, profile: nat)
    requires Enabled(s, event) && Inv(s) && OwnersKnownAt(s, profile)
    ensures OwnersKnownAt(Apply(s, event), profile)
  {
    hide Inv, Apply, Enabled, ActorOf;
    Outdates(s, event, profile);
    ActorIsKnown(s, event);
    if profile == ActorOf(s, event).profile {
      KeepsOwnOwners(s, event);
    } else {
      ChangesOwnProfile(s, event, profile);
    }
    forall id: Id | id.profile == profile && PreviousOf(PcOf(Apply(s, event), id)).Some?
      ensures PreviousOf(PcOf(Apply(s, event), id)).value <= Generation(Apply(s, event), profile)
    {
      MovesActor(s, event, id);
      if id == ActorOf(s, event) && !event.RestoreSession? {
        NextPrevious(s, event);
      }
    }
  }

  lemma KeepsOwnOwners(s: State, event: Event)
    requires Enabled(s, event) && OwnersKnownAt(s, ActorOf(s, event).profile) && NewestAt(s, ActorOf(s, event))
    ensures var s', profile := Apply(s, event), ActorOf(s, event).profile;
            && (profile in s'.tokens ==> s'.tokens[profile] <= Generation(s', profile))
            && (profile in s'.accounts ==> s'.accounts[profile] <= Generation(s', profile))
            && (profile in s'.sessions ==> s'.sessions[profile] <= Generation(s', profile))
  {
    hide Apply;
    DataIsApplied(s, event);
    Outdates(s, event, ActorOf(s, event).profile);
    assert PreviousOf(PcOf(s, ActorOf(s, event))).Some? ==>
             PreviousOf(PcOf(s, ActorOf(s, event))).value <= Generation(s, ActorOf(s, event).profile);
  }

  /** The token kept for a rollback is the one there was, or the one kept before. */
  lemma NextPrevious(s: State, event: Event)
    requires Enabled(s, event) && PreviousOf(Next(s, event)).Some?
    ensures var id := ActorOf(s, event);
            || (id.profile in s.tokens && PreviousOf(Next(s, event)).value == s.tokens[id.profile])
            || PreviousOf(Next(s, event)) == PreviousOf(PcOf(s, id))
  {
  }

  lemma ActorIsKnown(s: State, event: Event)
    requires Inv(s)
    ensures NewestAt(s, ActorOf(s, event))
  {
  }

  lemma OneStep(s: State, event: Event, events: seq<Event>)
    requires Enabled(s, event) && CanRun(Apply(s, event), events)
    ensures CanRun(s, [event] + events) && Run(s, [event] + events) == Run(Apply(s, event), events)
  {
    hide Enabled, Apply;
    assert ([event] + events)[1..] == events;
  }

  /** From the stored token on: the account cannot be saved, and the token is put back if the key store lets it. */
  lemma UndoneRun(s: State, id: Id, broken: bool)
    requires PcOf(s, id).Stored?
    ensures var events := [Save(id, true)] + ([Undo(id, broken)] + []);
            && CanRun(s, events) && Run(s, events).accounts == s.accounts && Run(s, events).sessions == s.sessions
            && Run(s, events).tokens ==
               (if broken || !PcOf(s, id).keyring then s.tokens
                else if PcOf(s, id).previous.Some? then s.tokens[id.profile := PcOf(s, id).previous.value]
                else s.tokens - {id.profile})
  {
    var s1 := Apply(s, Save(id, true));
    MovesActor(s, Save(id, true), id);
    DataIsApplied(s, Save(id, true));
    DataIsApplied(s1, Undo(id, broken));
    hide Apply, Next;
    OneStep(s1, Undo(id, broken), []);
    OneStep(s, Save(id, true), [Undo(id, broken)] + []);
  }

  /** The attempt by itself. */
  lemma FailedAttemptRestores(s: State, id: Id, readable: bool, keyring: bool, broken: bool)
    requires PcOf(s, id).Identifying? && s.holder == None && id.generation == Generation(s, id.profile)
    requires id.profile in s.tokens ==> s.tokens[id.profile] != id.generation
    ensures var events := [Take(id)] + ([Check(id)] + ([Snapshot(id, readable, false)] + ([Store(id, keyring, false)]
                          + ([Save(id, true)] + ([Undo(id, broken)] + [])))));
            && CanRun(s, events) && Run(s, events).accounts == s.accounts && Run(s, events).sessions == s.sessions
            && (Run(s, events).tokens == s.tokens <==> !keyring || (!broken && (id.profile in s.tokens ==> readable)))
  {
    hide Apply, Restored;
    var e4 := [Store(id, keyring, false)] + ([Save(id, true)] + ([Undo(id, broken)] + []));
    var s1 := Apply(s, Take(id));
    Follows(s, Take(id));
    var s2 := Apply(s1, Check(id));
    Follows(s1, Check(id));
    var s3 := Apply(s2, Snapshot(id, readable, false));
    Follows(s2, Snapshot(id, readable, false));
    SnappedRun(s3, id, keyring, broken);
    OneStep(s2, Snapshot(id, readable, false), e4);
    OneStep(s1, Check(id), [Snapshot(id, readable, false)] + e4);
    OneStep(s, Take(id), [Check(id)] + ([Snapshot(id, readable, false)] + e4));
  }

  /** From the snapshot on. */
  lemma SnappedRun(s: State, id: Id, keyring: bool, broken: bool)
    requires PcOf(s, id).Snapped?
    requires id.profile in s.tokens ==> s.tokens[id.profile] != id.generation
    requires PcOf(s, id).previous.Some? ==> id.profile in s.tokens && s.tokens[id.profile] == PcOf(s, id).previous.value
    ensures var events := [Store(id, keyring, false)] + ([Save(id, true)] + ([Undo(id, broken)] + []));
            && CanRun(s, events) && Run(s, events).accounts == s.accounts && Run(s, events).sessions == s.sessions
            && (Run(s, events).tokens == s.tokens <==>
                  !keyring || (!broken && (id.profile in s.tokens ==> PcOf(s, id).previous.Some?)))
  {
    hide Apply, Restored;
    var s1 := Apply(s, Store(id, keyring, false));
    Follows(s, Store(id, keyring, false));
    UndoneRun(s1, id, broken);
    OneStep(s, Store(id, keyring, false), [Save(id, true)] + ([Undo(id, broken)] + []));
  }

  /** What a step of an actor leaves: its next pc, and the data it changes. */
  lemma Follows(s: State, event: Event)
    requires Enabled(s, event) && !event.RestoreSession?
    ensures var s', id := Apply(s, event), ActorOf(s, event);
            && PcOf(s', id) == Next(s, event) && s'.tokens == Data(s, event).tokens
            && s'.accounts == Data(s, event).accounts && s'.sessions == Data(s, event).sessions
    ensures !event.Begin? && !event.BeginRemoval? ==>
              Generation(Apply(s, event), ActorOf(s, event).profile) == Generation(s, ActorOf(s, event).profile)
  {
    hide Apply, Data, Next;
    MovesActor(s, event, ActorOf(s, event));
    DataIsApplied(s, event);
    Outdates(s, event, ActorOf(s, event).profile);
  }

  /** The attempt or removal whose own step this is, if any. */
  function IdOf(event: Event): Option<Id> {
    if event.Begin? || event.BeginRemoval? || event.RestoreSession? then None else Some(event.id)
  }

  /** The steps of one attempt among those of all. */
  function Own(events: seq<Event>, id: Id): seq<Event> {
    if events == [] then []
    else if IdOf(events[0]) == Some(id) then [events[0]] + Own(events[1..], id)
    else Own(events[1..], id)
  }

  /** As far as an attempt under the commit mutex can tell, two states are the same. */
  ghost predicate SameView(s: State, t: State, id: Id) {
    && PcOf(s, id) == PcOf(t, id) && s.tokens == t.tokens && s.accounts == t.accounts
    && Generation(s, id.profile) == Generation(t, id.profile)
  }

  /** What others do while an attempt holds the commit mutex does not concern it; they may restore sessions. */
  lemma OthersLeave(s: State, event: Event, id: Id)
    requires Enabled(s, event) && Inv(s) && HoldsCommit(PcOf(s, id)) && IdOf(event) != Some(id)
    ensures SameView(Apply(s, event), s, id)
  {
    hide Apply;
    assert HolderAt(s, id) && HolderAt(s, ActorOf(s, event));
    MovesActor(s, event, id);
    Outdates(s, event, id.profile);
    if event.RestoreSession? {
      DataIsApplied(s, event);
    } else {
      ChangesUnderMutex(s, event);
    }
  }

  lemma NextAgrees(s: State, t: State, event: Event, id: Id)
    requires Enabled(s, event) && SameView(s, t, id) && IdOf(event) == Some(id) && HoldsCommit(PcOf(s, id))
    ensures Enabled(t, event) && Next(s, event) == Next(t, event)
  {
  }

  lemma TokensAgree(s: State, t: State, event: Event, id: Id)
    requires Enabled(s, event) && Enabled(t, event) && SameView(s, t, id) && IdOf(event) == Some(id)
    ensures Data(s, event).tokens == Data(t, event).tokens
  {
    hide Generation, HoldsCommit, Enabled;
  }

  lemma AccountsAgree(s: State, t: State, event: Event, id: Id)
    requires Enabled(s, event) && Enabled(t, event) && SameView(s, t, id) && IdOf(event) == Some(id)
    ensures Data(s, event).accounts == Data(t, event).accounts
  {
    hide Generation, HoldsCommit, Restored, Enabled;
  }

  /** Its own steps lead from the same view to the same view. */
  lemma OwnStepAgrees(s: State, t: State, event: Event, id: Id)
    requires Enabled(s, event) && SameView(s, t, id) && IdOf(event) == Some(id) && HoldsCommit(PcOf(s, id))
    ensures Enabled(t, event) && SameView(Apply(s, event), Apply(t, event), id)
  {
    hide Apply, Data, Next, HoldsCommit;
    NextAgrees(s, t, event, id);
    TokensAgree(s, t, event, id);
    AccountsAgree(s, t, event, id);
    MovesActor(s, event, id);
    MovesActor(t, event, id);
    DataIsApplied(s, event);
    DataIsApplied(t, event);
    Outdates(s, event, id.profile);
    Outdates(t, event, id.profile);
  }

  /** The attempt holds the commit mutex before every step of the run. */
  ghost predicate HoldsThroughout(s: State, events: seq<Event>, id: Id)
    requires CanRun(s, events)
    decreases |events|
  {
    events != [] ==> HoldsCommit(PcOf(s, id)) && HoldsThroughout(Apply(s, events[0]), events[1..], id)
  }

  /** Under the commit mutex, an interleaved run does to token and account what the attempt's own steps do alone. */
  lemma {:induction false} OthersDoNotMatter(s: State, t: State, events: seq<Event>, id: Id)
    requires CanRun(s, events) && Inv(s) && SameView(s, t, id) && HoldsThroughout(s, events, id)
    ensures CanRun(t, Own(events, id)) && SameView(Run(s, events), Run(t, Own(events, id)), id)
    decreases |events|
  {
    hide Enabled, Apply, Inv, SameView, HoldsCommit, IdOf;
    if events != [] {
      var event, rest := events[0], events[1..];
      StepKeepsInv(s, event);
      if IdOf(event) == Some(id) {
        OwnStepAgrees(s, t, event, id);
        OthersDoNotMatter(Apply(s, event), Apply(t, event), rest, id);
        OneStep(t, event, Own(rest, id));
      } else {
        OthersLeave(s, event, id);
        ViewsChain(Apply(s, event), s, t, id);
        OthersDoNotMatter(Apply(s, event), t, rest, id);
      }
    }
  }

  lemma ViewsChain(a: State, b: State, c: State, id: Id)
    requires SameView(a, b, id) && SameView(b, c, id)
    ensures SameView(a, c, id)
  {
  }

  /** The steps of an attempt whose account cannot be saved, once it has the commit mutex. */
  function FailedSteps(id: Id, readable: bool, keyring: bool, broken: bool): seq<Event> {
    [Check(id)] + ([Snapshot(id, readable, false)]
      + ([Store(id, keyring, false)] + ([Save(id, true)] + ([Undo(id, broken)] + []))))
  }

  /**
  Whatever others do while it holds the commit mutex, the newest attempt whose account cannot be saved leaves the
  account rows as they were; the tokens are those there were exactly when none was stored, or the rollback worked and
  the token there was could be read.
  */
  lemma FailedRunRestores(
    start: State, before: seq<Event>, id: Id, events: seq<Event>, readable: bool, keyring: bool, broken: bool)
    requires Init(start) && CanRun(start, before) && Enabled(Run(start, before), Take(id))
    requires id.generation == Generation(Run(start, before), id.profile)
    requires CanRun(Apply(Run(start, before), Take(id)), events)
    requires HoldsThroughout(Apply(Run(start, before), Take(id)), events, id)
    requires Own(events, id) == FailedSteps(id, readable, keyring, broken)
    ensures var s, s' := Run(start, before), Run(Apply(Run(start, before), Take(id)), events);
            && s'.accounts == s.accounts
            && (s'.tokens == s.tokens <==> !keyring || (!broken && (id.profile in s.tokens ==> readable)))
  {
    hide Enabled, Apply, Inv, Own, HoldsThroughout, CanRun, Run;
    InitInv(start);
    RunKeepsInv(start, before);
    var s := Run(start, before);
    NothingUsed(start, id);
    RunKeepsUnused(start, before, id);
    TokenIsNotOwn(s, id);
    StepKeepsInv(s, Take(id));
    var taken := Apply(s, Take(id));
    OthersDoNotMatter(taken, taken, events, id);
    TakenIsIdentifying(s, id);
    FailedAttemptRestores(s, id, readable, keyring, broken);
    OneStep(s, Take(id), FailedSteps(id, readable, keyring, broken));
  }

  lemma TakenIsIdentifying(s: State, id: Id)
    requires Enabled(s, Take(id))
    ensures PcOf(s, id).Identifying? && s.holder == None
  {
  }

  predicate HasNotStored(pc: Pc) {
    pc.Identifying? || pc.Unchecked? || pc.Checked? || pc.Snapped?
  }

  /** Before an attempt stores its token, no token is its own, nor is one kept for a rollback. */
  ghost predicate UnusedAt(s: State, id: Id) {
    id in s.actors && HasNotStored(PcOf(s, id)) ==>
      && (id.profile in s.tokens ==> s.tokens[id.profile] != id.generation)
      && forall other: Id :: other.profile == id.profile ==> PreviousOf(PcOf(s, other)) != Some(id.generation)
  }

  lemma NothingUsed(s: State, id: Id)
    requires Init(s)
    ensures UnusedAt(s, id) && OwnersKnownAt(s, id.profile)
  {
  }

  lemma TokenIsNotOwn(s: State, id: Id)
    requires UnusedAt(s, id) && Enabled(s, Take(id))
    ensures id.profile in s.tokens ==> s.tokens[id.profile] != id.generation
  {
  }

  lemma {:induction false} RunKeepsUnused(s: State, events: seq<Event>, id: Id)
    requires CanRun(s, events) && Inv(s) && OwnersKnownAt(s, id.profile) && UnusedAt(s, id)
    ensures UnusedAt(Run(s, events), id)
    decreases |events|
  {
    hide Enabled, Apply, Inv, OwnersKnownAt, UnusedAt;
    if events != [] {
      StepKeepsInv(s, events[0]);
      StepKeepsOwners(s, events[0], id.profile);
      StepKeepsUnused(s, events[0], id);
      RunKeepsUnused(Apply(s, events[0]), events[1..], id);
    }
  }

  lemma StepKeepsUnused(s: State, event: Event, id: Id)
    requires Enabled(s, event) && Inv(s) && OwnersKnownAt(s, id.profile) && UnusedAt(s, id)
    ensures UnusedAt(Apply(s, event), id)
  {
    hide Apply, Enabled, Inv;
    var s' := Apply(s, event);
    MovesActor(s, event, id);
    ActorIsKnown(s, event);
    if id in s'.actors && HasNotStored(PcOf(s', id)) {
      WasUnused(s, event, id);
      TokenStaysUnused(s, event, id);
      forall other: Id | other.profile == id.profile ensures PreviousOf(PcOf(s', other)) != Some(id.generation) {
        MovesActor(s, event, other);
        if other == ActorOf(s, event) && !event.RestoreSession? && PreviousOf(Next(s, event)).Some? {
          NextPrevious(s, event);
        }
      }
    }
  }

  /**
  Whoever has not stored yet after a step had not before it, or has just begun as a newer generation than any owner.
  */
  lemma WasUnused(s: State, event: Event, id: Id)
    requires Enabled(s, event) && OwnersKnownAt(s, id.profile) && UnusedAt(s, id)
    requires id in Apply(s, event).actors && HasNotStored(PcOf(Apply(s, event), id))
    ensures id.profile in s.tokens ==> s.tokens[id.profile] != id.generation
    ensures forall other: Id :: other.profile == id.profile ==> PreviousOf(PcOf(s, other)) != Some(id.generation)
  {
    hide Apply;
    MovesActor(s, event, id);
    if id == ActorOf(s, event) && (event.Begin? || event.BeginRemoval?) {
      assert id.generation == Generation(s, id.profile) + 1;
    }
  }

  /** The token of a profile changes only to the actor's own, or back to one that was kept. */
  lemma TokenStaysUnused(s: State, event: Event, id: Id)
    requires Enabled(s, event)
    requires id in Apply(s, event).actors && HasNotStored(PcOf(Apply(s, event), id))
    requires id.profile in s.tokens ==> s.tokens[id.profile] != id.generation
    requires forall other: Id :: other.profile == id.profile ==> PreviousOf(PcOf(s, other)) != Some(id.generation)
    ensures var tokens := Apply(s, event).tokens; id.profile in tokens ==> tokens[id.profile] != id.generation
  {
    hide Apply;
    MovesActor(s, event, id);
    DataIsApplied(s, event);
    assert PreviousOf(PcOf(s, ActorOf(s, event))) != Some(id.generation) || ActorOf(s, event).profile != id.profile;
  }
}
