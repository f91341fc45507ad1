/**
 What keeps the protocol going: an object the event predicates accept is queued, being worked on, or
 still to be announced by the informer, unless a round that missed the namespace dropped its key. And
 the machine's rounds and ticks, undisturbed, are the methods of the controllers.
 */
module Progress {
  import opened ConfigMaps
  import opened Faults
  import opened History
  import opened Store
  import opened Protocol

  // ---- Lost wake-ups ------------------------------------------------------------------------

  ghost predicate CacheOk(s: State) {
    forall n | n in s.cache :: Exists(s.objects, (n, s.cache[n]))
  }

  ghost predicate Acceptable(objects: Objects, name: Name) {
    Live(objects, name) && Accepts(Latest(objects, name))
  }

  /** The informer has announced the latest revision. */
  predicate UpToDate(s: State, name: Name) {
    name in s.cache && name in s.objects && s.cache[name] + 1 >= |s.objects[name].revisions|
  }

  /** An acceptable object will be picked up: the worker or the queue has it, or its event is still due. */
  ghost predicate Awake(s: State, name: Name) {
    Acceptable(s.objects, name) ==> name in s.queue || Held(s.actors, name) || !UpToDate(s, name)
  }

  /**
   A worker takes the key of an acceptable object that the informer has announced, and does not find
   the namespace: `Reconcile` returns nil, so the key is not queued again.
   */
  ghost predicate Forgets(s: State, a: Action, name: Name) {
    && a.Fetch? && a.name == name && a.answer.NamespaceMissing? && MayTake(s, a.actor, name)
    && Acceptable(s.objects, name) && UpToDate(s, name)
  }

  /** Somebody else writes or deletes the object, the informer announces it once more, or a restart. */
  ghost predicate Revives(c: Config, s: State, a: Action, name: Name) {
    || a.Restart?
    || (a.RemoveOutside? && a.name == name)
    || (a.WriteOutside? && a.name == name && MayWrite(c, s, name, a.content))
    || (a.Observe? && a.name == name && MayObserve(s, name, a.version))
  }

  lemma CacheStep(c: Config, s: State, a: Action, n: Name)
    requires n in Exec(c, s, a).cache
    ensures (n in s.cache && Exec(c, s, a).cache[n] == s.cache[n]) ||
            (Exec(c, s, a).objects == s.objects && Exists(s.objects, (n, Exec(c, s, a).cache[n])))
  {
  }

  lemma CacheKept(c: Config, s: State, a: Action)
    requires Inv(c, s) && CacheOk(s)
    ensures CacheOk(Exec(c, s, a))
  {
    StepKeeps(c, s, a);
    var s' := Exec(c, s, a);
    forall n | n in s'.cache
      ensures Exists(s'.objects, (n, s'.cache[n]))
    {
      CacheStep(c, s, a, n);
      if n in s.cache && s'.cache[n] == s.cache[n] {
        assert Exists(s.objects, (n, s.cache[n]));
      }
    }
  }

  /** Only a step that ends an actor's round can release the keys it holds. */
  lemma HoldKept(actors: seq<Actor>, i: nat, a: Actor, name: Name)
    requires i < |actors| && Held(actors, name)
    requires InRound(actors[i]) && actors[i].from.name == name ==> InRound(a) && a.from.name == name
    ensures Held(actors[i := a], name)
  {
    var j :| 0 <= j < |actors| && InRound(actors[j]) && actors[j].from.name == name;
    assert InRound(actors[i := a][j]);
  }

  lemma FetchStaysAwake(s: State, i: nat, n: Name, answer: Answer, name: Name)
    requires CacheOk(s) && Awake(s, name) && !Forgets(s, Fetch(i, n, answer), name)
    ensures Awake(ExecFetch(s, i, n, answer), name)
  {
    var s' := ExecFetch(s, i, n, answer);
    if s'.actors != s.actors {
      if Held(s.actors, name) {
        HoldKept(s.actors, i, s'.actors[i], name);
      } else if n == name {
        assert InRound(s'.actors[i]) && s'.actors[i].from.name == name;
      }
    }
  }

  lemma RoundStaysAwake(c: Config, s: State, a: Action, name: Name)
    requires (a.CallNext? || a.Prepare?) && Awake(s, name)
    ensures Awake(Exec(c, s, a), name)
  {
    var s' := Exec(c, s, a);
    if s'.actors != s.actors && Held(s.actors, name) {
      HoldKept(s.actors, a.actor, s'.actors[a.actor], name);
    }
  }

  lemma CommitEnds(c: Config, s: State, i: nat, fault: Fault)
    requires i < |s.actors| && s.actors[i].Ready? && |s.actors[i].outcomes| == |c.processors|
    ensures var name := s.actors[i].from.name;
            var s' := ExecCommit(c, s, i, fault);
            && s'.cache == s.cache
            && (name in s'.queue ||
                 (name in s.objects && name in s'.objects
                     && |s'.objects[name].revisions| == |s.objects[name].revisions| + 1))
  {
  }

  lemma CommitStaysAwake(c: Config, s: State, i: nat, fault: Fault, name: Name)
    requires Inv(c, s) && CacheOk(s) && Awake(s, name)
    ensures Awake(ExecCommit(c, s, i, fault), name)
  {
    if i < |s.actors| && s.actors[i].Ready? {
      var r := s.actors[i];
      assert ActorOk(c, s.objects, r);
      if name == r.from.name {
        assert name in s.cache ==> Exists(s.objects, (name, s.cache[name]));
        CommitEnds(c, s, i, fault);
      } else if Held(s.actors, name) {
        HoldKept(s.actors, i, Idle, name);
      }
    }
  }

  lemma AbortStaysAwake(c: Config, s: State, i: nat, name: Name)
    requires Awake(s, name)
    ensures Awake(ExecAbort(c, s, i), name)
  {
    if i < |s.actors| && Held(s.actors, name) && !(InRound(s.actors[i]) && s.actors[i].from.name == name) {
      HoldKept(s.actors, i, Idle, name);
    }
  }

  lemma ListStaysAwake(c: Config, s: State, a: Action, name: Name)
    requires (a.ListDeferred? || a.ListInsights?) && Awake(s, name)
    ensures Awake(Exec(c, s, a), name)
  {
    var s' := Exec(c, s, a);
    if s'.actors != s.actors && Held(s.actors, name) {
      HoldKept(s.actors, a.actor, s'.actors[a.actor], name);
    }
  }

  lemma ClearStaysAwake(s: State, i: nat, at: int, fault: Fault, name: Name)
    requires CacheOk(s) && Awake(s, name)
    ensures Awake(ExecClear(s, i, at, fault), name)
  {
    var s' := ExecClear(s, i, at, fault);
    if s' != s {
      if Held(s.actors, name) {
        HoldKept(s.actors, i, s'.actors[i], name);
      }
      assert name in s.cache ==> Exists(s.objects, (name, s.cache[name]));
    }
  }

  lemma BurnStaysAwake(s: State, i: nat, fault: Fault, name: Name)
    requires Awake(s, name)
    ensures Awake(ExecBurn(s, i, fault), name)
  {
    var s' := ExecBurn(s, i, fault);
    if s' != s && Held(s.actors, name) {
      HoldKept(s.actors, i, s'.actors[i], name);
    }
  }

  lemma OutsideStaysAwake(c: Config, s: State, a: Action, name: Name)
    requires (a.Create? || a.WriteOutside? || a.RemoveOutside?) && CacheOk(s) && Awake(s, name)
    ensures Awake(Exec(c, s, a), name)
  {
    assert name in s.cache ==> Exists(s.objects, (name, s.cache[name]));
  }

  lemma RoundStepStaysAwake(c: Config, s: State, a: Action, name: Name)
    requires Inv(c, s) && CacheOk(s) && Awake(s, name) && OfRound(a) && !Forgets(s, a, name)
    ensures Awake(Exec(c, s, a), name)
  {
    if a.Fetch? {
      FetchStaysAwake(s, a.actor, a.name, a.answer, name);
    } else if a.Commit? {
      CommitStaysAwake(c, s, a.actor, a.fault, name);
    } else if a.Abort? {
      AbortStaysAwake(c, s, a.actor, name);
    } else {
      RoundStaysAwake(c, s, a, name);
    }
  }

  lemma TickStepStaysAwake(c: Config, s: State, a: Action, name: Name)
    requires CacheOk(s) && Awake(s, name) && OfTick(a)
    ensures Awake(Exec(c, s, a), name)
  {
    if a.ClearNext? {
      ClearStaysAwake(s, a.actor, a.at, a.fault, name);
    } else if a.BurnNext? {
      BurnStaysAwake(s, a.actor, a.fault, name);
    } else {
      ListStaysAwake(c, s, a, name);
    }
  }

  lemma WorldStepStaysAwake(c: Config, s: State, a: Action, name: Name)
    requires CacheOk(s) && Awake(s, name) && !OfRound(a) && !OfTick(a)
    ensures Awake(Exec(c, s, a), name)
  {
    if a.Create? || a.WriteOutside? || a.RemoveOutside? {
      OutsideStaysAwake(c, s, a, name);
    }
  }

  lemma StepStaysAwake(c: Config, s: State, a: Action, name: Name)
    requires Inv(c, s) && CacheOk(s) && Awake(s, name) && !Forgets(s, a, name)
    ensures Awake(Exec(c, s, a), name)
  {
    if OfRound(a) {
      RoundStepStaysAwake(c, s, a, name);
    } else if OfTick(a) {
      TickStepStaysAwake(c, s, a, name);
    } else {
      WorldStepStaysAwake(c, s, a, name);
    }
  }

  // ---- What happens to a forgotten object ---------------------------------------------------

  lemma ForgettingLoses(c: Config, s: State, a: Action, name: Name)
    requires Forgets(s, a, name)
    ensures !Awake(Exec(c, s, a), name)
  {
  }

  lemma RevivalWakes(c: Config, s: State, a: Action, name: Name)
    requires CacheOk(s) && Revives(c, s, a, name)
    ensures Awake(Exec(c, s, a), name)
  {
    assert name in s.cache ==> Exists(s.objects, (name, s.cache[name]));
  }

  /** A step that does not touch the object, its cache entry, its key or the workers holding it. */
  ghost predicate LeavesAlone(s: State, s': State, name: Name) {
    && name in s'.objects && name in s.objects && s'.objects[name] == s.objects[name]
    && name in s.cache && name in s'.cache && s'.cache[name] == s.cache[name]
    && name !in s'.queue && !Held(s'.actors, name)
  }

  lemma NotHeld(actors: seq<Actor>, i: nat, a: Actor, name: Name)
    requires i < |actors| && !Held(actors, name) && !(InRound(a) && a.from.name == name)
    ensures !Held(actors[i := a], name)
  {
    var after := actors[i := a];
    forall j | 0 <= j < |after|
      ensures !(InRound(after[j]) && after[j].from.name == name)
    {
      assert j != i ==> after[j] == actors[j];
    }
  }

  lemma CallingLeavesAlone(c: Config, s: State, a: Action, name: Name)
    requires !Awake(s, name) && (a.Fetch? || a.CallNext? || a.Prepare?)
    ensures LeavesAlone(s, Exec(c, s, a), name)
  {
    var s' := Exec(c, s, a);
    if s'.actors != s.actors {
      assert InRound(s.actors[a.actor]) ==> s.actors[a.actor].from.name != name;
      NotHeld(s.actors, a.actor, s'.actors[a.actor], name);
    }
  }

  lemma CommitLeavesAlone(c: Config, s: State, i: nat, fault: Fault, name: Name)
    requires !Awake(s, name)
    ensures LeavesAlone(s, ExecCommit(c, s, i, fault), name)
  {
    if i < |s.actors| && s.actors[i].Ready? {
      assert s.actors[i].from.name != name;
      NotHeld(s.actors, i, Idle, name);
    }
  }

  lemma AbortLeavesAlone(c: Config, s: State, i: nat, name: Name)
    requires !Awake(s, name)
    ensures LeavesAlone(s, ExecAbort(c, s, i), name)
  {
    if i < |s.actors| {
      assert InRound(s.actors[i]) ==> s.actors[i].from.name != name;
      NotHeld(s.actors, i, Idle, name);
    }
  }

  lemma RoundLeavesAlone(c: Config, s: State, a: Action, name: Name)
    requires !Awake(s, name) && OfRound(a)
    ensures LeavesAlone(s, Exec(c, s, a), name)
  {
    if a.Commit? {
      CommitLeavesAlone(c, s, a.actor, a.fault, name);
    } else if a.Abort? {
      AbortLeavesAlone(c, s, a.actor, name);
    } else {
      CallingLeavesAlone(c, s, a, name);
    }
  }

  /** A release is written only over the latest revision, which has no deferral label. */
  lemma ClearLeavesAlone(c: Config, s: State, i: nat, at: int, fault: Fault, name: Name)
    requires Inv(c, s) && !Awake(s, name)
    ensures LeavesAlone(s, ExecClear(s, i, at, fault), name)
  {
    var s' := ExecClear(s, i, at, fault);
    if s' != s {
      assert ActorOk(c, s.objects, s.actors[i]);
      var item := s.actors[i].items[0];
      NotHeld(s.actors, i, s'.actors[i], name);
      if item.name == name && Applies(s.objects, item, fault) {
        assert item.content == Latest(s.objects, name);
        NotDeferred(item.content);
      }
    }
  }

  lemma NotDeferred(content: Content)
    requires Accepts(content)
    ensures DEFERRED !in content.labels
  {
  }

  /** A processed mark is final, and the latest revision has none. */
  lemma BurnLeavesAlone(c: Config, s: State, i: nat, fault: Fault, name: Name)
    requires WellFormed(c) && Inv(c, s) && !Awake(s, name)
    ensures LeavesAlone(s, ExecBurn(s, i, fault), name)
  {
    if i < |s.actors| && s.actors[i].Burning? && s.actors[i].items != [] {
      var items := s.actors[i].items;
      assert ActorOk(c, s.objects, s.actors[i]);
      NotHeld(s.actors, i, Rest(items, Burning(items[1..])), name);
      if items[0].name == name && Marked(items[0].content) {
        ProcessedIsFinal(c, s.objects[name].revisions, items[0].version, |s.objects[name].revisions| - 1);
        assert false;
      }
    }
  }

  lemma ListLeavesAlone(c: Config, s: State, a: Action, name: Name)
    requires (a.ListDeferred? || a.ListInsights?) && !Awake(s, name)
    ensures LeavesAlone(s, Exec(c, s, a), name)
  {
    var s' := Exec(c, s, a);
    if s' != s {
      NotHeld(s.actors, a.actor, s'.actors[a.actor], name);
    }
  }

  lemma WorldLeavesAlone(c: Config, s: State, a: Action, name: Name)
    requires !Awake(s, name) && !OfRound(a) && !OfTick(a) && !Revives(c, s, a, name)
    ensures LeavesAlone(s, Exec(c, s, a), name)
  {
  }

  /** Nothing the controllers do brings a forgotten object back. */
  lemma StaysForgotten(c: Config, s: State, a: Action, name: Name)
    requires WellFormed(c) && Inv(c, s) && !Awake(s, name) && !Revives(c, s, a, name)
    ensures !Awake(Exec(c, s, a), name)
  {
    if OfRound(a) {
      RoundLeavesAlone(c, s, a, name);
    } else if a.ClearNext? {
      ClearLeavesAlone(c, s, a.actor, a.at, a.fault, name);
    } else if a.BurnNext? {
      BurnLeavesAlone(c, s, a.actor, a.fault, name);
    } else if OfTick(a) {
      ListLeavesAlone(c, s, a, name);
    } else {
      WorldLeavesAlone(c, s, a, name);
    }
  }

  // ---- Over whole runs ----------------------------------------------------------------------

  ghost predicate ForgetsAt(c: Config, s: State, actions: seq<Action>, k: nat, name: Name)
    requires k < |actions|
  {
    Forgets(Run(c, s, actions[..k]), actions[k], name)
  }

  ghost predicate RevivesAt(c: Config, s: State, actions: seq<Action>, k: nat, name: Name)
    requires k < |actions|
  {
    Revives(c, Run(c, s, actions[..k]), actions[k], name)
  }

  /** Among the first `n` steps, one forgets the object and no later one revives it. */
  ghost predicate Forgotten(c: Config, s: State, actions: seq<Action>, n: nat, name: Name)
    requires n <= |actions|
  {
    exists k | 0 <= k < n ::
      ForgetsAt(c, s, actions, k, name) && forall j | k < j < n :: !RevivesAt(c, s, actions, j, name)
  }

  lemma ForgottenStep(c: Config, s: State, actions: seq<Action>, n: nat, name: Name)
    requires n < |actions|
    ensures Forgotten(c, s, actions, n + 1, name) <==>
              ForgetsAt(c, s, actions, n, name) ||
              (!RevivesAt(c, s, actions, n, name) && Forgotten(c, s, actions, n, name))
  {
  }

  lemma PrefixAlike(c: Config, s: State, actions: seq<Action>, n: nat, k: nat, name: Name)
    requires k < n <= |actions|
    ensures ForgetsAt(c, s, actions[..n], k, name) == ForgetsAt(c, s, actions, k, name)
    ensures RevivesAt(c, s, actions[..n], k, name) == RevivesAt(c, s, actions, k, name)
  {
    assert actions[..n][..k] == actions[..k];
  }

  lemma ForgottenPrefix(c: Config, s: State, actions: seq<Action>, n: nat, name: Name)
    requires n <= |actions|
    ensures Forgotten(c, s, actions[..n], n, name) == Forgotten(c, s, actions, n, name)
  {
    forall k | 0 <= k < n
      ensures ForgetsAt(c, s, actions[..n], k, name) == ForgetsAt(c, s, actions, k, name)
      ensures RevivesAt(c, s, actions[..n], k, name) == RevivesAt(c, s, actions, k, name)
    {
      PrefixAlike(c, s, actions, n, k, name);
    }
  }

  lemma AwakeStep(c: Config, s: State, a: Action, name: Name)
    requires WellFormed(c) && Inv(c, s) && CacheOk(s)
    ensures !Awake(Exec(c, s, a), name) <==> Forgets(s, a, name) || (!Revives(c, s, a, name) && !Awake(s, name))
  {
    if Forgets(s, a, name) {
      ForgettingLoses(c, s, a, name);
    } else if Revives(c, s, a, name) {
      RevivalWakes(c, s, a, name);
    } else if Awake(s, name) {
      StepStaysAwake(c, s, a, name);
    } else {
      StaysForgotten(c, s, a, name);
    }
  }

  /**
   In every run: an acceptable object is queued, held or still to be announced, if and only if no
   round that missed its namespace dropped it since it was last revived.
   */
  lemma {:induction false} NoLostWakeups(c: Config, actors: nat, clock: int, actions: seq<Action>, name: Name)
    requires WellFormed(c)
    ensures var s := Run(c, Start(actors, clock), actions);
            CacheOk(s) && (Awake(s, name) <==> !Forgotten(c, Start(actors, clock), actions, |actions|, name))
  {
    if actions != [] {
      var k := |actions| - 1;
      var s := Run(c, Start(actors, clock), actions[..k]);
      NoLostWakeups(c, actors, clock, actions[..k], name);
      ForgottenPrefix(c, Start(actors, clock), actions, k, name);
      ForgottenStep(c, Start(actors, clock), actions, k, name);
      EveryHistoryIsLawful(c, actors, clock, actions[..k]);
      CacheKept(c, s, actions[k]);
      AwakeStep(c, s, actions[k], name);
    }
  }

  lemma ThreeSteps(c: Config, s: State, a0: Action, a1: Action, a2: Action)
    ensures Run(c, s, [a0, a1, a2]) == Exec(c, Exec(c, Exec(c, s, a0), a1), a2)
  {
    OneStep(c, s, a0);
    RunSnoc(c, s, [a0], a1);
    RunSnoc(c, s, [a0] + [a1], a2);
    assert [a0] + [a1] + [a2] == [a0, a1, a2];
  }

  /** A ConfigMap whose event outruns that of its new namespace is announced, taken once, and forgotten. */
  lemma NamespaceRaceForgets(c: Config, actors: nat, clock: int, name: Name, content: Content)
    requires actors > 0 && Fresh(c, content) && Accepts(content)
    ensures !Awake(Run(c, Start(actors, clock),
                       [Create(name, content), Observe(name, 0), Fetch(0, name, NamespaceMissing)]), name)
  {
    var s := ExecObserve(ExecCreate(c, Start(actors, clock), name, content), name, 0);
    var fetch := Fetch(0, name, NamespaceMissing);
    assert s.objects[name].revisions == [Revision(content, Created)];
    assert Forgets(s, fetch, name);
    ForgettingLoses(c, s, fetch, name);
    ThreeSteps(c, Start(actors, clock), Create(name, content), Observe(name, 0), fetch);
  }

  // ---- The machine's rounds are the reconciler's --------------------------------------------

  lemma OneStep(c: Config, s: State, a: Action)
    ensures Run(c, s, [a]) == Exec(c, s, a)
  {
    assert [a][..0] == [];
    assert Run(c, s, []) == s;
  }

  lemma RunSnoc(c: Config, s: State, actions: seq<Action>, a: Action)
    ensures Run(c, s, actions + [a]) == Exec(c, Run(c, s, actions), a)
  {
    assert (actions + [a])[..|actions|] == actions;
  }

  function CallList(i: nat, outcomes: seq<Outcome>): seq<Action> {
    if outcomes == [] then []
    else CallList(i, outcomes[..|outcomes| - 1]) + [CallNext(i, outcomes[|outcomes| - 1])]
  }

  /** The state when worker `i` has got these outcomes in its round on `from` and nothing else happened. */
  function HavingCalled(c: Config, s: State, i: nat, from: Snapshot, outcomes: seq<Outcome>): State
    requires i < |s.actors| && |outcomes| <= |c.processors|
  {
    s.(actors := s.actors[i := Working(from, outcomes)], delivered := s.delivered + NilCalls(c, from, outcomes))
  }

  lemma CallStep(c: Config, s: State, i: nat, from: Snapshot, outcomes: seq<Outcome>, outcome: Outcome)
    requires i < |s.actors| && |outcomes| < |c.processors|
    ensures ExecCall(c, HavingCalled(c, s, i, from, outcomes), i, outcome) ==
              HavingCalled(c, s, i, from, outcomes + [outcome])
  {
    assert (outcomes + [outcome])[..|outcomes|] == outcomes;
  }

  lemma RunCall(c: Config, s: State, actions: seq<Action>, i: nat, outcome: Outcome)
    ensures Run(c, s, actions + [CallNext(i, outcome)]) == ExecCall(c, Run(c, s, actions), i, outcome)
  {
    RunSnoc(c, s, actions, CallNext(i, outcome));
  }

  lemma OneMoreCall(c: Config, s: State, i: nat, calls: seq<Action>, from: Snapshot, outcomes: seq<Outcome>,
                    outcome: Outcome)
    requires i < |s.actors| && |outcomes| < |c.processors|
    requires Run(c, s, calls) == HavingCalled(c, s, i, from, outcomes)
    ensures Run(c, s, calls + [CallNext(i, outcome)]) == HavingCalled(c, s, i, from, outcomes + [outcome])
  {
    RunCall(c, s, calls, i, outcome);
    CallStep(c, s, i, from, outcomes, outcome);
  }

  lemma NoCallYet(c: Config, s: State, i: nat)
    requires i < |s.actors| && s.actors[i].Working? && s.actors[i].outcomes == []
    ensures HavingCalled(c, s, i, s.actors[i].from, []) == s
  {
    assert s.actors[i := Working(s.actors[i].from, [])] == s.actors;
  }

  lemma {:induction false} CallsInOrder(c: Config, s: State, i: nat, outcomes: seq<Outcome>)
    requires i < |s.actors| && s.actors[i].Working? && s.actors[i].outcomes == [] && |outcomes| <= |c.processors|
    ensures Run(c, s, CallList(i, outcomes)) == HavingCalled(c, s, i, s.actors[i].from, outcomes)
  {
    if outcomes == [] {
      NoCallYet(c, s, i);
    } else {
      var k := |outcomes| - 1;
      CallsInOrder(c, s, i, outcomes[..k]);
      OneMoreCall(c, s, i, CallList(i, outcomes[..k]), s.actors[i].from, outcomes[..k], outcomes[k]);
      assert outcomes[..k] + [outcomes[k]] == outcomes;
    }
  }

  /** Without a round to carry on, the steps of one do nothing. */
  lemma {:induction false} CallsIdle(c: Config, s: State, i: nat, outcomes: seq<Outcome>)
    requires IsIdle(s, i)
    ensures Run(c, s, CallList(i, outcomes)) == s
  {
    if outcomes != [] {
      var k := |outcomes| - 1;
      CallsIdle(c, s, i, outcomes[..k]);
      RunCall(c, s, CallList(i, outcomes[..k]), i, outcomes[k]);
    }
  }

  function RoundList(i: nat, name: Name, answer: Answer, outcomes: seq<Outcome>, stamp: string,
                     fault: Fault): seq<Action> {
    ([Fetch(i, name, answer)] + CallList(i, outcomes)) + [Prepare(i, stamp), Commit(i, fault)]
  }

  lemma RunFetch(c: Config, s: State, i: nat, name: Name, answer: Answer)
    ensures Run(c, s, [Fetch(i, name, answer)]) == ExecFetch(s, i, name, answer)
  {
    OneStep(c, s, Fetch(i, name, answer));
  }

  lemma RunPrepare(c: Config, s: State, i: nat, stamp: string)
    ensures Run(c, s, [Prepare(i, stamp)]) == ExecPrepare(c, s, i, stamp)
  {
    OneStep(c, s, Prepare(i, stamp));
  }

  lemma RunCommit(c: Config, s: State, actions: seq<Action>, i: nat, fault: Fault)
    ensures Run(c, s, actions + [Commit(i, fault)]) == ExecCommit(c, Run(c, s, actions), i, fault)
  {
    RunSnoc(c, s, actions, Commit(i, fault));
  }

  lemma RunPrepareCommit(c: Config, s: State, i: nat, stamp: string, fault: Fault)
    ensures Run(c, s, [Prepare(i, stamp), Commit(i, fault)]) == ExecCommit(c, ExecPrepare(c, s, i, stamp), i, fault)
  {
    RunPrepare(c, s, i, stamp);
    RunCommit(c, s, [Prepare(i, stamp)], i, fault);
    assert [Prepare(i, stamp)] + [Commit(i, fault)] == [Prepare(i, stamp), Commit(i, fault)];
  }

  lemma RoundUnfolds(c: Config, s: State, i: nat, name: Name, answer: Answer, outcomes: seq<Outcome>, stamp: string,
                     fault: Fault)
    ensures Run(c, s, RoundList(i, name, answer, outcomes, stamp, fault)) ==
            ExecCommit(c, ExecPrepare(c, Run(c, ExecFetch(s, i, name, answer), CallList(i, outcomes)), i, stamp), i,
                       fault)
  {
    var first := [Fetch(i, name, answer)] + CallList(i, outcomes);
    RunFetch(c, s, i, name, answer);
    RunAppend(c, s, [Fetch(i, name, answer)], CallList(i, outcomes));
    RunPrepareCommit(c, Run(c, s, first), i, stamp, fault);
    RunAppend(c, s, first, [Prepare(i, stamp), Commit(i, fault)]);
  }

  /** The machine after a whole `Reconcile` of this key: all workers as before, the key dropped or kept. */
  predicate EndsAs(s: State, s': State, name: Name, w: Written) {
    && s'.objects == w.objects && s'.actors == s.actors && s'.cache == s.cache && s'.clock == s.clock
    && s'.queue == (if w.ok then s.queue - {name} else s.queue)
  }

  /** The nil-returning calls of one `Reconcile`. */
  function CallsMade(c: Config, got: Got, outcomes: seq<Outcome>): multiset<Delivery>
    requires |outcomes| == |c.processors|
  {
    if got.Found? && Recognised(got.from.content.labels) then NilCalls(c, got.from, outcomes) else multiset{}
  }

  lemma CommitEndsRound(c: Config, s: State, i: nat, name: Name, from: Snapshot, outcomes: seq<Outcome>, stamp: string,
                        fault: Fault)
    requires MayTake(s, i, name) && from.name == name && |outcomes| == |c.processors|
    ensures var t := s.(actors := s.actors[i := Working(from, [])], queue := s.queue - {name});
            var s' := ExecCommit(c, ExecPrepare(c, HavingCalled(c, t, i, from, outcomes), i, stamp), i, fault);
            && EndsAs(s, s', name, CommitRound(c, s.objects, from, outcomes, s.clock, stamp, fault))
            && s'.delivered == s.delivered + NilCalls(c, from, outcomes)
  {
    BackToIdle(s.actors, i, Working(from, []), Working(from, outcomes), Ready(from, outcomes, s.clock, stamp));
    assert s.queue - {name} + {name} == s.queue;
  }

  lemma BackToIdle(actors: seq<Actor>, i: nat, a0: Actor, a1: Actor, a2: Actor)
    requires i < |actors| && actors[i].Idle?
    ensures actors[i := a0][i := a1][i := a2][i := Idle] == actors
  {
  }

  /**
   Fetch, one call per processor, Prepare and Commit by one worker with nothing in between are one
   call of `Reconcile`, whatever its Gets find: the same objects, the same processor calls, and the
   key is queued again exactly when it returns an error.
   */
  lemma RoundRefinesReconcile(c: Config, s: State, i: nat, name: Name, answer: Answer, outcomes: seq<Outcome>,
                              stamp: string, fault: Fault)
    requires |outcomes| == |c.processors| && MayTake(s, i, name)
    ensures var s' := Run(c, s, RoundList(i, name, answer, outcomes, stamp, fault));
            && EndsAs(s, s', name, ReconcileOnce(c, s.objects, Lookup(s, name, answer), outcomes, s.clock, stamp,
                                                 fault))
            && s'.delivered == s.delivered + CallsMade(c, Lookup(s, name, answer), outcomes)
  {
    RoundUnfolds(c, s, i, name, answer, outcomes, stamp, fault);
    var got := Lookup(s, name, answer);
    var t := ExecFetch(s, i, name, answer);
    if got.Found? && Recognised(got.from.content.labels) {
      CallsInOrder(c, t, i, outcomes);
      CommitEndsRound(c, s, i, name, got.from, outcomes, stamp, fault);
    } else {
      CallsIdle(c, t, i, outcomes);
      NothingToCommit(c, t, i, stamp, fault);
    }
  }

  lemma NothingToCommit(c: Config, s: State, i: nat, stamp: string, fault: Fault)
    requires IsIdle(s, i)
    ensures ExecCommit(c, ExecPrepare(c, s, i, stamp), i, fault) == s
  {
  }

  // ---- The machine's ticks are the crons' ---------------------------------------------------

  function ClearList(i: nat, turns: seq<Turn>): seq<Action> {
    if turns == [] then [] else [ClearNext(i, turns[0].at, turns[0].fault)] + ClearList(i, turns[1..])
  }

  function BurnList(i: nat, faults: seq<Fault>): seq<Action> {
    if faults == [] then [] else [BurnNext(i, faults[0])] + BurnList(i, faults[1..])
  }

  /** Clock reads of one tick: after its List, in order, none in the future. */
  ghost predicate InOrder(turns: seq<Turn>, since: int, clock: int) {
    && (forall k | 0 <= k < |turns| :: since <= turns[k].at <= clock)
    && forall j, k | 0 <= j < k < |turns| :: turns[j].at <= turns[k].at
  }

  lemma ClearStep(c: Config, s: State, i: nat, turn: Turn)
    requires i < |s.actors| && s.actors[i].Clearing? && s.actors[i].items != []
    requires s.actors[i].since <= turn.at <= s.clock
    ensures var items := s.actors[i].items;
            var t := ClearItem(s.objects, items[0], s.actors[i].failed, turn.at, turn.fault);
            var s' := Run(c, s, [ClearNext(i, turn.at, turn.fault)]);
            && s'.objects == t.objects && s'.clock == s.clock && |s'.actors| == |s.actors|
            && s'.actors[i] == Rest(items, Clearing(items[1..], t.failed, turn.at))
  {
    OneStep(c, s, ClearNext(i, turn.at, turn.fault));
  }

  /** A tick's steps with nothing in between change the objects as one run of the cron's loop does. */
  lemma {:induction false} TickRefinesClearDeferred(c: Config, s: State, i: nat, turns: seq<Turn>)
    requires i < |s.actors| && s.actors[i].Clearing? && s.actors[i].items != [] && |turns| == |s.actors[i].items|
    requires InOrder(turns, s.actors[i].since, s.clock)
    ensures Run(c, s, ClearList(i, turns)).objects ==
              ClearItems(s.objects, s.actors[i].items, s.actors[i].failed, turns).objects
    decreases |turns|
  {
    var first := [ClearNext(i, turns[0].at, turns[0].fault)];
    ClearStep(c, s, i, turns[0]);
    RunAppend(c, s, first, ClearList(i, turns[1..]));
    if |turns| > 1 {
      TickRefinesClearDeferred(c, Run(c, s, first), i, turns[1..]);
    } else {
      assert ClearList(i, turns[1..]) == [];
    }
  }

  lemma BurnStep(c: Config, s: State, i: nat, fault: Fault)
    requires i < |s.actors| && s.actors[i].Burning? && s.actors[i].items != []
    ensures var items := s.actors[i].items;
            var s' := Run(c, s, [BurnNext(i, fault)]);
            && s'.objects == BurnItem(s.objects, items[0], fault) && |s'.actors| == |s.actors|
            && s'.actors[i] == Rest(items, Burning(items[1..]))
  {
    OneStep(c, s, BurnNext(i, fault));
  }

  lemma {:induction false} TickRefinesBurnProcessed(c: Config, s: State, i: nat, faults: seq<Fault>)
    requires i < |s.actors| && s.actors[i].Burning? && s.actors[i].items != [] && |faults| == |s.actors[i].items|
    ensures Run(c, s, BurnList(i, faults)).objects == BurnItems(s.objects, s.actors[i].items, faults)
    decreases |faults|
  {
    var first := [BurnNext(i, faults[0])];
    BurnStep(c, s, i, faults[0]);
    RunAppend(c, s, first, BurnList(i, faults[1..]));
    if |faults| > 1 {
      TickRefinesBurnProcessed(c, Run(c, s, first), i, faults[1..]);
    } else {
      assert BurnList(i, faults[1..]) == [];
    }
  }
}
