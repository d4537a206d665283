/**
What logins and removals get done (internal/services/services.go): from every state they can reach, the commit mutex
can be released, a login carried through until its token, account and session are stored, and a removal to its end.
*/
module LoginProgress {
  import opened Wrappers
  import opened LoginProtocol

  /** Whoever is recorded as the holder of the commit mutex is in a section under it. */
  predicate HolderIsReal(s: State) {
    s.holder.Some? ==> HoldsCommit(PcOf(s, s.holder.value))
  }

  ghost predicate IsSound(s: State) {
    Inv(s) && HolderIsReal(s)
  }

  lemma KeepsReal(s: State, event: Event)
    requires Enabled(s, event) && HolderIsReal(s) && HolderAt(s, ActorOf(s, event))
    ensures HolderIsReal(Apply(s, event))
  {
    hide Apply, Enabled, HoldsCommit, Next, ActorOf, PcOf;
    HolderMoves(s, event);
    if Apply(s, event).holder.Some? {
      MovesActor(s, event, Apply(s, event).holder.value);
    }
  }

  lemma StepIsSound(s: State, event: Event)
    requires IsSound(s) && Enabled(s, event)
    ensures IsSound(Apply(s, event))
  {
    hide Enabled, Apply, HolderIsReal;
    assert HolderAt(s, ActorOf(s, event));
    hide Inv;
    StepKeepsInv(s, event);
    KeepsReal(s, event);
  }

  lemma {:induction false} RunIsSound(s: State, events: seq<Event>)
    requires CanRun(s, events) && IsSound(s)
    ensures IsSound(Run(s, events))
    decreases |events|
  {
    hide Enabled, Apply, IsSound;
    if events != [] {
      StepIsSound(s, events[0]);
      RunIsSound(Apply(s, events[0]), events[1..]);
    }
  }

  lemma Reached(start: State, before: seq<Event>)
    requires Init(start) && CanRun(start, before)
    ensures IsSound(Run(start, before))
  {
    hide Enabled, Apply;
    InitInv(start);
    RunIsSound(start, before);
  }

  lemma {:induction false} RunAppend(s: State, a: seq<Event>, b: seq<Event>)
    requires CanRun(s, a) && CanRun(Run(s, a), b)
    ensures CanRun(s, a + b) && Run(s, a + b) == Run(Run(s, a), b)
    decreases |a|
  {
    hide Enabled, Apply;
    if a == [] {
      assert a + b == b;
    } else {
      assert (a + b)[1..] == a[1..] + b;
      RunAppend(Apply(s, a[0]), a[1..], b);
    }
  }

  /** The next step of the holder of the commit mutex, when every store fails. */
  function Release(s: State): Event
    requires s.holder.Some?
  {
    var id := s.holder.value;
    match PcOf(s, id)
    case Unchecked => Check(id)
    case Checked => Snapshot(id, false, true)
    case Snapped(_) => Store(id, false, true)
    case Stored(_, _) => Save(id, true)
    case Undoing(_, _) => Undo(id, true)
    case Saved => Publish(id)
    case Clearing => ClearToken(id, true)
    case Forgetting => ClearAccount(id, true)
    case _ => DropSession(id)
  }

  function StepsToRelease(s: State): nat {
    match s.holder
    case None => 0
    case Some(id) => if PcOf(s, id).Unchecked? then 4 else if PcOf(s, id).Checked? then 3 else
      if PcOf(s, id).Stored? then 2 else 1
  }

  lemma ReleaseIsPossible(s: State)
    requires IsSound(s) && s.holder.Some?
    ensures Enabled(s, Release(s)) && StepsToRelease(Apply(s, Release(s))) < StepsToRelease(s)
  {
    hide Apply;
    var id := s.holder.value;
    assert HolderAt(s, id);
    hide Inv;
    HolderMoves(s, Release(s));
    MovesActor(s, Release(s), id);
  }

  /** There is no deadlock: from every state that can be reached, the commit mutex can be released. */
  lemma {:induction false} MutexIsReleased(s: State) returns (events: seq<Event>)
    requires IsSound(s)
    ensures CanRun(s, events) && Run(s, events).holder == None && IsSound(Run(s, events))
    decreases StepsToRelease(s)
  {
    hide Enabled, Apply, IsSound, StepsToRelease, CanRun, Run;
    if s.holder == None {
      assert CanRun(s, []) && Run(s, []) == s by { NoStep(s); }
      return [];
    }
    ReleaseIsPossible(s);
    StepIsSound(s, Release(s));
    var rest := MutexIsReleased(Apply(s, Release(s)));
    OneStep(s, Release(s), rest);
    return [Release(s)] + rest;
  }

  lemma NoStep(s: State)
    ensures CanRun(s, []) && Run(s, []) == s
  {
  }

  /** The steps of a login that nothing goes wrong with. */
  function LoginSteps(id: Id, readable: bool, keyring: bool): seq<Event> {
    [Begin(id.profile)] + ([Take(id)] + ([Check(id)] + SavingSteps(id, readable, keyring)))
  }

  function SavingSteps(id: Id, readable: bool, keyring: bool): seq<Event> {
    [Snapshot(id, readable, false)] + ([Store(id, keyring, false)] + ([Save(id, false)] + ([Publish(id)] + [])))
  }

  /** From a passed check on, token, account and session become the attempt's. */
  lemma CheckedIsSaved(s: State, id: Id, readable: bool, keyring: bool)
    requires PcOf(s, id).Checked?
    ensures CanRun(s, SavingSteps(id, readable, keyring))
    ensures var s' := Run(s, SavingSteps(id, readable, keyring));
            && s'.tokens == (if keyring then s.tokens[id.profile := id.generation] else s.tokens)
            && s'.accounts == s.accounts[id.profile := id.generation]
            && s'.sessions == s.sessions[id.profile := id.generation]
            && Generation(s', id.profile) == Generation(s, id.profile)
  {
    hide Apply, Restored, PcOf;
    var s1 := Apply(s, Snapshot(id, readable, false));
    Follows(s, Snapshot(id, readable, false));
    var s2 := Apply(s1, Store(id, keyring, false));
    Follows(s1, Store(id, keyring, false));
    var s3 := Apply(s2, Save(id, false));
    Follows(s2, Save(id, false));
    Follows(s3, Publish(id));
    OneStep(s3, Publish(id), []);
    OneStep(s2, Save(id, false), [Publish(id)] + []);
    OneStep(s1, Store(id, keyring, false), [Save(id, false)] + ([Publish(id)] + []));
    OneStep(s, Snapshot(id, readable, false), [Store(id, keyring, false)] + ([Save(id, false)] + ([Publish(id)] + [])));
  }

  /** With the commit mutex free, a new login of any profile gets past its check. */
  lemma LoginIsSaved(s: State, profile: nat, readable: bool, keyring: bool)
    requires IsSound(s) && s.holder == None
    ensures var id := NextId(s, profile);
            && CanRun(s, LoginSteps(id, readable, keyring))
            && var s' := Run(s, LoginSteps(id, readable, keyring));
               && s'.tokens == (if keyring then s.tokens[profile := id.generation] else s.tokens)
               && s'.accounts == s.accounts[profile := id.generation]
               && s'.sessions == s.sessions[profile := id.generation]
               && Generation(s', profile) == id.generation
  {
    var id := NextId(s, profile);
    assert NewestAt(s, id);
    hide Apply, Restored, Inv, HolderIsReal;
    var s1 := Apply(s, Begin(profile));
    Follows(s, Begin(profile));
    Outdates(s, Begin(profile), profile);
    HolderMoves(s, Begin(profile));
    var s2 := Apply(s1, Take(id));
    Follows(s1, Take(id));
    var s3 := Apply(s2, Check(id));
    Follows(s2, Check(id));
    CheckedIsSaved(s3, id, readable, keyring);
    hide SavingSteps;
    OneStep(s2, Check(id), SavingSteps(id, readable, keyring));
    OneStep(s1, Take(id), [Check(id)] + SavingSteps(id, readable, keyring));
    OneStep(s, Begin(profile), [Take(id)] + ([Check(id)] + SavingSteps(id, readable, keyring)));
  }

  /**
  From every state that can be reached, whoever holds the commit mutex and whatever the profile has, a login can be
  carried through: its account and session are stored, and its token as well when the key store takes it.
  */
  lemma LoginCanBeCarriedOut(start: State, before: seq<Event>, profile: nat, readable: bool, keyring: bool)
    returns (events: seq<Event>)
    requires Init(start) && CanRun(start, before)
    ensures CanRun(start, before + events)
    ensures var s' := Run(start, before + events);
            && profile in s'.accounts && s'.accounts[profile] == Generation(s', profile)
            && profile in s'.sessions && s'.sessions[profile] == Generation(s', profile)
            && (keyring ==> profile in s'.tokens && s'.tokens[profile] == Generation(s', profile))
  {
    hide CanRun, Run, Apply, Enabled, IsSound, LoginSteps;
    Reached(start, before);
    var release := MutexIsReleased(Run(start, before));
    RunAppend(start, before, release);
    var free := Run(start, before + release);
    LoginIsSaved(free, profile, readable, keyring);
    var login := LoginSteps(NextId(free, profile), readable, keyring);
    RunAppend(start, before + release, login);
    assert before + release + login == before + (release + login);
    return release + login;
  }

  function RemovalSteps(id: Id): seq<Event> {
    [BeginRemoval(id.profile)] + ClearingSteps(id)
  }

  function ClearingSteps(id: Id): seq<Event> {
    [ClearToken(id, false)] + ([ClearAccount(id, false)] + ([DropSession(id)] + []))
  }

  lemma ClearingGoesOn(s: State, id: Id)
    requires PcOf(s, id).Clearing?
    ensures CanRun(s, ClearingSteps(id))
    ensures var s' := Run(s, ClearingSteps(id));
            && s'.tokens == s.tokens - {id.profile} && s'.accounts == s.accounts - {id.profile}
            && s'.sessions == s.sessions - {id.profile}
  {
    hide Apply, Restored, PcOf;
    var s1 := Apply(s, ClearToken(id, false));
    Follows(s, ClearToken(id, false));
    var s2 := Apply(s1, ClearAccount(id, false));
    Follows(s1, ClearAccount(id, false));
    Follows(s2, DropSession(id));
    OneStep(s2, DropSession(id), []);
    OneStep(s1, ClearAccount(id, false), [DropSession(id)] + []);
    OneStep(s, ClearToken(id, false), [ClearAccount(id, false)] + ([DropSession(id)] + []));
  }

  /** With the commit mutex free, a removal takes token, account and session away. */
  lemma ProfileIsCleared(s: State, profile: nat)
    requires s.holder == None
    ensures var id := NextId(s, profile);
            && CanRun(s, RemovalSteps(id))
            && var s' := Run(s, RemovalSteps(id));
               && s'.tokens == s.tokens - {profile} && s'.accounts == s.accounts - {profile}
               && s'.sessions == s.sessions - {profile}
  {
    var id := NextId(s, profile);
    hide Apply, Restored, ClearingSteps;
    var s1 := Apply(s, BeginRemoval(profile));
    Follows(s, BeginRemoval(profile));
    ClearingGoesOn(s1, id);
    OneStep(s, BeginRemoval(profile), ClearingSteps(id));
  }

  /** From every state that can be reached, a disconnection or removal can be carried through. */
  lemma RemovalCanBeCarriedOut(start: State, before: seq<Event>, profile: nat) returns (events: seq<Event>)
    requires Init(start) && CanRun(start, before)
    ensures CanRun(start, before + events)
    ensures var s' := Run(start, before + events);
            profile !in s'.tokens && profile !in s'.accounts && profile !in s'.sessions
  {
    hide CanRun, Run, Apply, Enabled, IsSound, RemovalSteps;
    Reached(start, before);
    var release := MutexIsReleased(Run(start, before));
    RunAppend(start, before, release);
    var free := Run(start, before + release);
    ProfileIsCleared(free, profile);
    var removal := RemovalSteps(NextId(free, profile));
    RunAppend(start, before + release, removal);
    assert before + release + removal == before + (release + removal);
    return release + removal;
  }
}
