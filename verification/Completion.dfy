/**
 Which objects can still be completed: from every reachable state, exactly those with a key, an
 accepted revision to announce, or a deferral to clear. Nothing needs a restart or another writer.
 */
module Completion {
  import opened Decimal
  import opened ConfigMaps
  import opened Faults
  import opened History
  import opened Store
  import opened Protocol
  import opened Progress

  // ---- Finishing what is under way ----------------------------------------------------------

  /** No tick has read the clock ahead of time. */
  ghost predicate Timely(s: State) {
    forall i | 0 <= i < |s.actors| && s.actors[i].Clearing? :: s.actors[i].since <= s.clock
  }

  ghost predicate Steady(c: Config, s: State) {
    Inv(c, s) && CacheOk(s) && Timely(s)
  }

  lemma TimelyKept(c: Config, s: State, a: Action)
    requires Timely(s)
    ensures Timely(Exec(c, s, a)) && |Exec(c, s, a).actors| == |s.actors|
  {
    var s' := Exec(c, s, a);
    forall i | 0 <= i < |s'.actors| && s'.actors[i].Clearing?
      ensures s'.actors[i].since <= s'.clock
    {
      ClockReads(c, s, a, i);
    }
  }

  lemma ClockReads(c: Config, s: State, a: Action, i: nat)
    requires i < |Exec(c, s, a).actors| && Exec(c, s, a).actors[i].Clearing?
    ensures var s' := Exec(c, s, a);
            && s.clock <= s'.clock && |s'.actors| == |s.actors|
            && (s'.actors[i] == s.actors[i] || s'.actors[i].since <= s'.clock)
  {
  }

  lemma SteadyKept(c: Config, s: State, a: Action)
    requires Steady(c, s)
    ensures Steady(c, Exec(c, s, a)) && |Exec(c, s, a).actors| == |s.actors|
  {
    StepKeeps(c, s, a);
    CacheKept(c, s, a);
    TimelyKept(c, s, a);
  }

  lemma {:induction false} EveryStateIsSteady(c: Config, actors: nat, clock: int, actions: seq<Action>)
    ensures var s := Run(c, Start(actors, clock), actions);
            Steady(c, s) && |s.actors| == actors
  {
    if actions != [] {
      var k := |actions| - 1;
      EveryStateIsSteady(c, actors, clock, actions[..k]);
      SteadyKept(c, Run(c, Start(actors, clock), actions[..k]), actions[k]);
    }
  }

  /** Steps of the running controllers and the informer: no restart, no panic, no other writer. */
  predicate Ordinary(a: Action) {
    (OfRound(a) && !a.Abort?) || OfTick(a) || a.Observe? || a.Elapse?
  }

  ghost predicate AllOrdinary(actions: seq<Action>) {
    forall k | 0 <= k < |actions| :: Ordinary(actions[k])
  }

  ghost predicate NothingAnnounced(actions: seq<Action>) {
    forall k | 0 <= k < |actions| :: !actions[k].Observe?
  }

  /** The next step of a busy actor, with every call to the server failing. */
  function Advance(c: Config, s: State, i: nat): Action
    requires i < |s.actors| && !s.actors[i].Idle?
  {
    match s.actors[i]
    case Working(_, outcomes) => if |outcomes| < |c.processors| then CallNext(i, Failed("")) else Prepare(i, "")
    case Ready(_, _, _, _) => Commit(i, Refused)
    case Clearing(_, _, _) => ClearNext(i, s.clock, Refused)
    case Burning(_) => BurnNext(i, Refused)
  }

  function StepsLeft(c: Config, a: Actor): int {
    match a
    case Idle => 0
    case Working(_, outcomes) => 2 + |c.processors| - |outcomes|
    case Ready(_, _, _, _) => 1
    case Clearing(items, _, _) => |items|
    case Burning(items) => |items|
  }

  /** Only actor `i` has changed, and keys may have been queued. */
  predicate OnlyActor(s: State, s': State, i: nat)
    requires i < |s.actors|
  {
    && s'.objects == s.objects && s'.cache == s.cache && s'.clock == s.clock && s.queue <= s'.queue
    && |s'.actors| == |s.actors| && s'.actors == s.actors[i := s'.actors[i]]
  }

  ghost predicate HasKey(s: State, name: Name) {
    name in s.queue || Held(s.actors, name)
  }

  ghost predicate KeepsKeys(s: State, s': State) {
    forall n :: HasKey(s, n) ==> HasKey(s', n)
  }

  /** A round that ends with a failing call queues its key again. */
  lemma AdvanceKeepsKeys(c: Config, s: State, i: nat, n: Name)
    requires Steady(c, s) && i < |s.actors| && !s.actors[i].Idle? && HasKey(s, n)
    ensures HasKey(Exec(c, s, Advance(c, s, i)), n)
  {
    AdvanceStep(c, s, i);
    var s' := Exec(c, s, Advance(c, s, i));
    if Held(s.actors, n) && n !in s'.queue {
      AdvanceHolds(c, s, i, n);
      HoldKept(s.actors, i, s'.actors[i], n);
    }
  }

  lemma AdvanceHolds(c: Config, s: State, i: nat, n: Name)
    requires Steady(c, s) && i < |s.actors| && !s.actors[i].Idle?
    ensures var s' := Exec(c, s, Advance(c, s, i));
            InRound(s.actors[i]) && s.actors[i].from.name == n ==>
              n in s'.queue || (InRound(s'.actors[i]) && s'.actors[i].from.name == n)
  {
    assert ActorOk(c, s.objects, s.actors[i]);
  }

  lemma AdvanceTick(c: Config, s: State, i: nat)
    requires Steady(c, s) && i < |s.actors| && (s.actors[i].Clearing? || s.actors[i].Burning?)
    ensures var s' := Exec(c, s, Advance(c, s, i));
            OnlyActor(s, s', i) && 0 <= StepsLeft(c, s'.actors[i]) < StepsLeft(c, s.actors[i])
  {
    assert ActorOk(c, s.objects, s.actors[i]);
  }

  lemma AdvanceRound(c: Config, s: State, i: nat)
    requires Steady(c, s) && i < |s.actors| && InRound(s.actors[i])
    ensures var s' := Exec(c, s, Advance(c, s, i));
            OnlyActor(s, s', i) && 0 <= StepsLeft(c, s'.actors[i]) < StepsLeft(c, s.actors[i])
  {
    assert ActorOk(c, s.objects, s.actors[i]);
  }

  lemma AdvanceStep(c: Config, s: State, i: nat)
    requires Steady(c, s) && i < |s.actors| && !s.actors[i].Idle?
    ensures var s' := Exec(c, s, Advance(c, s, i));
            OnlyActor(s, s', i) && 0 <= StepsLeft(c, s'.actors[i]) < StepsLeft(c, s.actors[i])
  {
    if s.actors[i].Clearing? || s.actors[i].Burning? {
      AdvanceTick(c, s, i);
    } else {
      AdvanceRound(c, s, i);
    }
  }

  lemma RunCons(c: Config, s: State, a: Action, more: seq<Action>)
    ensures Run(c, s, [a] + more) == Run(c, Exec(c, s, a), more)
  {
    OneStep(c, s, a);
    RunAppend(c, s, [a], more);
  }

  /** A busy actor can finish what it is doing without changing any object. */
  lemma {:induction false} DrainOne(c: Config, s: State, i: nat) returns (more: seq<Action>)
    requires Steady(c, s) && i < |s.actors|
    ensures AllOrdinary(more) && NothingAnnounced(more)
    ensures var s' := Run(c, s, more);
            Steady(c, s') && OnlyActor(s, s', i) && s'.actors[i].Idle? && KeepsKeys(s, s')
    decreases StepsLeft(c, s.actors[i])
  {
    more := [];
    if !s.actors[i].Idle? {
      var a := Advance(c, s, i);
      AdvanceStep(c, s, i);
      SteadyKept(c, s, a);
      forall n | HasKey(s, n)
        ensures HasKey(Exec(c, s, a), n)
      {
        AdvanceKeepsKeys(c, s, i, n);
      }
      var rest := DrainOne(c, Exec(c, s, a), i);
      more := [a] + rest;
      RunCons(c, s, a, rest);
    }
  }

  /** Nothing stored has changed, no key is lost, and the first `n` actors are idle. */
  ghost predicate Calmed(s: State, s': State, n: nat) {
    && s'.objects == s.objects && s'.cache == s.cache && s'.clock == s.clock && KeepsKeys(s, s')
    && |s'.actors| == |s.actors| && n <= |s.actors| && forall i | 0 <= i < n :: s'.actors[i].Idle?
  }

  lemma {:induction false} DrainAll(c: Config, s: State, n: nat) returns (more: seq<Action>)
    requires Steady(c, s) && n <= |s.actors|
    ensures AllOrdinary(more) && NothingAnnounced(more)
    ensures Steady(c, Run(c, s, more)) && Calmed(s, Run(c, s, more), n)
  {
    more := [];
    if n > 0 {
      var before := DrainAll(c, s, n - 1);
      var last := DrainOne(c, Run(c, s, before), n - 1);
      RunAppend(c, s, before, last);
      more := before + last;
    }
  }

  ghost predicate Rested(s: State) {
    |s.actors| > 0 && CacheOk(s) && forall i | 0 <= i < |s.actors| :: s.actors[i].Idle?
  }

  function DeliverAll(c: Config): seq<Outcome> {
    seq(|c.processors|, i => Delivered)
  }

  ghost predicate Completed(objects: Objects, name: Name) {
    Live(objects, name) && Marked(Latest(objects, name))
  }

  lemma {:induction false} CallsAreOrdinary(i: nat, outcomes: seq<Outcome>)
    ensures AllOrdinary(CallList(i, outcomes)) && NothingAnnounced(CallList(i, outcomes))
  {
    if outcomes != [] {
      CallsAreOrdinary(i, outcomes[..|outcomes| - 1]);
    }
  }

  lemma RoundIsOrdinary(i: nat, name: Name, answer: Answer, outcomes: seq<Outcome>, stamp: string, fault: Fault)
    ensures var round := RoundList(i, name, answer, outcomes, stamp, fault);
            AllOrdinary(round) && NothingAnnounced(round)
  {
    CallsAreOrdinary(i, outcomes);
  }

  /** A round on the current revision of a recognised object in which every call returns nil. */
  lemma CleanRoundCompletes(c: Config, objects: Objects, name: Name, at: int)
    requires WellFormed(c) && Live(objects, name) && Recognised(Latest(objects, name).labels)
    ensures var from := SnapshotOf(objects, (name, |objects[name].revisions| - 1));
            Completed(ReconcileOnce(c, objects, Found(from), DeliverAll(c), at, "", NoFault).objects, name)
  {
    var content := Latest(objects, name);
    RetryListed(c, content.annotations, DeliverAll(c));
    RoundMeaning(c, content, DeliverAll(c), at, "");
  }

  function CleanRound(c: Config, name: Name): seq<Action> {
    RoundList(0, name, NamespaceFound, DeliverAll(c), "", NoFault)
  }

  /** A queued object whose latest revision is cached can be completed by an idle worker. */
  lemma QueuedCanComplete(c: Config, s: State, name: Name)
    requires WellFormed(c) && MayTake(s, 0, name) && Live(s.objects, name)
    requires name in s.cache && s.cache[name] == |s.objects[name].revisions| - 1
    requires Recognised(Latest(s.objects, name).labels)
    ensures Completed(Run(c, s, CleanRound(c, name)).objects, name)
  {
    RoundRefinesReconcile(c, s, 0, name, NamespaceFound, DeliverAll(c), "", NoFault);
    CleanRoundEnds(c, s, Run(c, s, CleanRound(c, name)), name);
  }

  lemma CleanRoundEnds(c: Config, s: State, s': State, name: Name)
    requires WellFormed(c) && Live(s.objects, name) && Recognised(Latest(s.objects, name).labels)
    requires name in s.cache && s.cache[name] == |s.objects[name].revisions| - 1
    requires EndsAs(s, s', name,
                    ReconcileOnce(c, s.objects, Lookup(s, name, NamespaceFound), DeliverAll(c), s.clock, "", NoFault))
    ensures Completed(s'.objects, name)
  {
    CleanRoundCompletes(c, s.objects, name, s.clock);
  }

  /** With all actors idle, a queued key is enough; the informer may have to catch up first. */
  lemma QueuedCanFinish(c: Config, s: State, name: Name) returns (more: seq<Action>)
    requires WellFormed(c) && Rested(s) && name in s.queue
    requires Live(s.objects, name) && Recognised(Latest(s.objects, name).labels)
    ensures AllOrdinary(more) && Completed(Run(c, s, more).objects, name)
    ensures forall k | 0 <= k < |more| && more[k].Observe? ::
              !UpToDate(s, name) && more[k] == Observe(name, |s.objects[name].revisions| - 1)
  {
    var v := |s.objects[name].revisions| - 1;
    assert name in s.cache ==> Exists(s.objects, (name, s.cache[name]));
    RoundIsOrdinary(0, name, NamespaceFound, DeliverAll(c), "", NoFault);
    if UpToDate(s, name) {
      QueuedCanComplete(c, s, name);
      more := CleanRound(c, name);
    } else {
      ObservedCanComplete(c, s, name);
      more := [Observe(name, v)] + CleanRound(c, name);
    }
  }

  lemma ObservedCanComplete(c: Config, s: State, name: Name)
    requires WellFormed(c) && Rested(s) && name in s.queue
    requires Live(s.objects, name) && Recognised(Latest(s.objects, name).labels)
    ensures Completed(Run(c, s, [Observe(name, |s.objects[name].revisions| - 1)] + CleanRound(c, name)).objects, name)
  {
    var v := |s.objects[name].revisions| - 1;
    assert name in s.cache ==> Exists(s.objects, (name, s.cache[name]));
    ObserveFirst(c, s, name, v, CleanRound(c, name));
    QueuedCanComplete(c, ExecObserve(s, name, v), name);
  }

  lemma ObserveFirst(c: Config, s: State, name: Name, v: nat, more: seq<Action>)
    ensures Run(c, s, [Observe(name, v)] + more) == Run(c, ExecObserve(s, name, v), more)
  {
    RunCons(c, s, Observe(name, v), more);
  }

  /** With all actors idle, announcing an accepted revision, old or new, is enough. */
  lemma AnnouncedCanFinish(c: Config, s: State, name: Name, v: nat) returns (more: seq<Action>)
    requires WellFormed(c) && Rested(s) && Announceable(s, name, v)
    requires Live(s.objects, name) && Recognised(Latest(s.objects, name).labels)
    ensures AllOrdinary(more) && Completed(Run(c, s, more).objects, name)
    ensures v + 1 == |s.objects[name].revisions| ==>
              forall k | 0 <= k < |more| && more[k].Observe? :: more[k] == Observe(name, v)
  {
    var s1 := ExecObserve(s, name, v);
    var rest := QueuedCanFinish(c, s1, name);
    more := [Observe(name, v)] + rest;
    ObserveFirst(c, s, name, v, rest);
  }

  /** A tick whose list is one current, expired object releases it. */
  lemma TickReleasesOne(c: Config, s: State, name: Name) returns (tick: seq<Action>)
    requires Rested(s) && Live(s.objects, name)
    requires DEFERRED in Latest(s.objects, name).labels && Expired(Latest(s.objects, name).labels[DEFERRED], s.clock)
    ensures AllOrdinary(tick)
    ensures var s' := Run(c, s, tick);
            && s'.actors == s.actors && s'.cache == s.cache
            && s'.objects == Append(s.objects, name, Revision(Undeferred(Latest(s.objects, name)), Released(s.clock)))
  {
    var v := |s.objects[name].revisions| - 1;
    var item := SnapshotOf(s.objects, (name, v));
    var list := ListDeferred(0, [(name, v)]);
    tick := [list] + [ClearNext(0, s.clock, NoFault)];
    RunSnoc(c, s, [list], ClearNext(0, s.clock, NoFault));
    OneStep(c, s, list);
    assert Listed(s.objects, [(name, v)], DEFERRED);
    assert Snapshots(s.objects, [(name, v)]) == [item];
    assert s.actors[0 := Clearing([item], false, s.clock)][0 := Idle] == s.actors;
  }

  lemma WaitUntil(c: Config, s: State, time: int) returns (wait: seq<Action>)
    ensures AllOrdinary(wait) && Run(c, s, wait) == s.(clock := if time > s.clock then time else s.clock)
  {
    var d: nat := if time > s.clock then time - s.clock else 0;
    wait := [Elapse(d)];
    OneStep(c, s, Elapse(d));
  }

  /** With all actors idle, a deferred object can be released once its deadline has passed. */
  lemma DeferredCanRelease(c: Config, s: State, name: Name) returns (more: seq<Action>)
    requires Rested(s) && Live(s.objects, name) && DEFERRED in Latest(s.objects, name).labels
    ensures AllOrdinary(more)
    ensures var s' := Run(c, s, more);
            Rested(s') && Live(s'.objects, name) && Latest(s'.objects, name) == Undeferred(Latest(s.objects, name))
  {
    var wait := WaitUntil(c, s, ParseInt32(Latest(s.objects, name).labels[DEFERRED]).value * SECOND + 1);
    var tick := TickReleasesOne(c, Run(c, s, wait), name);
    RunAppend(c, s, wait, tick);
    more := wait + tick;
    var s' := Run(c, s, more);
    forall n | n in s'.cache
      ensures Exists(s'.objects, (n, s'.cache[n]))
    {
      assert Exists(s.objects, (n, s.cache[n]));
    }
  }

  lemma TypeKept(content: Content)
    ensures InsightsType(Undeferred(content).labels) == InsightsType(content.labels)
  {
    assert |DEFERRED| != |TYPE| && |DEFERRED| != |INSIGHTS|;
  }

  // ---- From every reachable state -----------------------------------------------------------

  /** The informer may still announce version `v`, and that would queue the object. */
  predicate Announceable(s: State, name: Name, v: nat) {
    MayObserve(s, name, v) && Accepts(SnapshotOf(s.objects, (name, v)).content)
  }

  /**
   What it takes to be processed some day: to be so already; or to be of a known type and either to
   have a key with the controller, or a revision still to be announced that the predicates accept, or
   a deferral as the only thing that keeps them from accepting.
   */
  ghost predicate Completable(s: State, name: Name) {
    && Live(s.objects, name)
    && var content := Latest(s.objects, name);
       Marked(content) ||
       (Recognised(content.labels) &&
         (HasKey(s, name) || (exists v :: Announceable(s, name, v)) ||
          (DEFERRED in content.labels && Accepts(Undeferred(content)))))
  }

  lemma CompletableIsCompleted(c: Config, s: State, name: Name) returns (more: seq<Action>)
    requires WellFormed(c) && Steady(c, s) && |s.actors| > 0 && Completable(s, name)
    ensures AllOrdinary(more) && Completed(Run(c, s, more).objects, name)
  {
    if Marked(Latest(s.objects, name)) {
      return [];
    }
    var drain := DrainAll(c, s, |s.actors|);
    var s1 := Run(c, s, drain);
    var rest: seq<Action>;
    if HasKey(s, name) {
      rest := QueuedCanFinish(c, s1, name);
    } else if v :| Announceable(s, name, v) {
      rest := AnnouncedCanFinish(c, s1, name, v);
    } else {
      rest := ReleasedCanFinish(c, s1, name);
    }
    RunAppend(c, s, drain, rest);
    more := drain + rest;
  }

  lemma LatestAnnounceable(s: State, name: Name)
    requires Rested(s) && Live(s.objects, name) && Accepts(Latest(s.objects, name))
    ensures Announceable(s, name, |s.objects[name].revisions| - 1)
  {
    assert name in s.cache ==> Exists(s.objects, (name, s.cache[name]));
  }

  lemma ReleasedCanFinish(c: Config, s: State, name: Name) returns (more: seq<Action>)
    requires WellFormed(c) && Rested(s) && Live(s.objects, name) && Recognised(Latest(s.objects, name).labels)
    requires DEFERRED in Latest(s.objects, name).labels && Accepts(Undeferred(Latest(s.objects, name)))
    ensures AllOrdinary(more) && Completed(Run(c, s, more).objects, name)
  {
    var release := DeferredCanRelease(c, s, name);
    var s1 := Run(c, s, release);
    TypeKept(Latest(s.objects, name));
    LatestAnnounceable(s1, name);
    var rest := AnnouncedCanFinish(c, s1, name, |s1.objects[name].revisions| - 1);
    RunAppend(c, s, release, rest);
    more := release + rest;
  }

  // ---- What cannot be completed stays so ----------------------------------------------------

  /** Unprocessed, and of no known type or without a key. */
  ghost predicate OutOfReach(s: State, name: Name) {
    && Live(s.objects, name) && !Marked(Latest(s.objects, name))
    && (Recognised(Latest(s.objects, name).labels) ==> !HasKey(s, name))
  }

  /** The object is as it was, or has lost its deferral. */
  ghost predicate AtMostReleased(before: Objects, after: Objects, name: Name)
    requires Live(before, name)
  {
    && name in after
    && (after[name] == before[name] ||
        (DEFERRED in Latest(before, name).labels && Live(after, name)
         && before[name].revisions <= after[name].revisions && |after[name].revisions| == |before[name].revisions| + 1
         && Latest(after, name) == Undeferred(Latest(before, name))))
  }

  lemma CommitElsewhere(c: Config, s: State, i: nat, fault: Fault, name: Name)
    requires name in s.objects && i < |s.actors| && s.actors[i].Ready? && |s.actors[i].outcomes| == |c.processors|
    requires s.actors[i].from.name != name || !Applies(s.objects, s.actors[i].from, fault)
    ensures var after := ExecCommit(c, s, i, fault).objects;
            name in after && after[name] == s.objects[name]
  {
  }

  /** A commit needs a known type and the latest revision, whose worker holds the key. */
  lemma CommitOutOfReach(c: Config, s: State, i: nat, fault: Fault, name: Name)
    requires Inv(c, s) && OutOfReach(s, name)
    ensures AtMostReleased(s.objects, ExecCommit(c, s, i, fault).objects, name)
  {
    if i < |s.actors| && s.actors[i].Ready? {
      var from := s.actors[i].from;
      assert ActorOk(c, s.objects, s.actors[i]);
      assert from.name == name ==> HasKey(s, name);
      CommitElsewhere(c, s, i, fault, name);
    }
  }

  lemma ClearOutOfReach(c: Config, s: State, i: nat, at: int, fault: Fault, name: Name)
    requires Inv(c, s) && OutOfReach(s, name)
    ensures AtMostReleased(s.objects, ExecClear(s, i, at, fault).objects, name)
  {
    var s' := ExecClear(s, i, at, fault);
    if s' != s {
      assert ActorOk(c, s.objects, s.actors[i]);
      var item := s.actors[i].items[0];
      if item.name == name && Applies(s.objects, item, fault) {
        assert item.content == Latest(s.objects, name);
      }
    }
  }

  lemma BurnOutOfReach(c: Config, s: State, i: nat, fault: Fault, name: Name)
    requires WellFormed(c) && Inv(c, s) && OutOfReach(s, name)
    ensures AtMostReleased(s.objects, ExecBurn(s, i, fault).objects, name)
  {
    if i < |s.actors| && s.actors[i].Burning? && s.actors[i].items != [] {
      assert ActorOk(c, s.objects, s.actors[i]);
      var item := s.actors[i].items[0];
      if item.name == name && Marked(item.content) {
        ProcessedIsFinal(c, s.objects[name].revisions, item.version, |s.objects[name].revisions| - 1);
        assert false;
      }
    }
  }

  lemma TickOutOfReach(c: Config, s: State, a: Action, name: Name)
    requires WellFormed(c) && Inv(c, s) && OutOfReach(s, name) && (a.ClearNext? || a.BurnNext?)
    ensures AtMostReleased(s.objects, Exec(c, s, a).objects, name)
  {
    if a.ClearNext? {
      ClearOutOfReach(c, s, a.actor, a.at, a.fault, name);
    } else {
      BurnOutOfReach(c, s, a.actor, a.fault, name);
    }
  }

  lemma OrdinaryOutOfReach(c: Config, s: State, a: Action, name: Name)
    requires WellFormed(c) && Inv(c, s) && OutOfReach(s, name) && Ordinary(a)
    ensures AtMostReleased(s.objects, Exec(c, s, a).objects, name)
  {
    if !WritesObjects(a) {
      OthersOnlyRead(c, s, a);
    } else if a.Commit? {
      CommitOutOfReach(c, s, a.actor, a.fault, name);
    } else {
      TickOutOfReach(c, s, a, name);
    }
  }

  /** A controller gets a key only from another of its rounds or from an accepted announcement. */
  lemma CallingGainsNoKey(c: Config, s: State, a: Action, name: Name)
    requires (a.Fetch? || a.CallNext? || a.Prepare?) && !HasKey(s, name)
    ensures !HasKey(Exec(c, s, a), name)
  {
    var s' := Exec(c, s, a);
    if s'.actors != s.actors {
      assert InRound(s.actors[a.actor]) ==> s.actors[a.actor].from.name != name;
      NotHeld(s.actors, a.actor, s'.actors[a.actor], name);
    }
  }

  lemma CommitGainsNoKey(c: Config, s: State, i: nat, fault: Fault, name: Name)
    requires !HasKey(s, name)
    ensures !HasKey(ExecCommit(c, s, i, fault), name)
  {
    if i < |s.actors| && s.actors[i].Ready? {
      assert s.actors[i].from.name != name;
      NotHeld(s.actors, i, Idle, name);
    }
  }

  lemma TickGainsNoKey(c: Config, s: State, a: Action, name: Name)
    requires OfTick(a) && !HasKey(s, name)
    ensures !HasKey(Exec(c, s, a), name)
  {
    var s' := Exec(c, s, a);
    if s'.actors != s.actors {
      NotHeld(s.actors, a.actor, s'.actors[a.actor], name);
    }
  }

  lemma GainsNoKey(c: Config, s: State, a: Action, name: Name)
    requires Ordinary(a) && !HasKey(s, name)
    requires a.Observe? && a.name == name ==> !Announceable(s, name, a.version)
    ensures !HasKey(Exec(c, s, a), name)
  {
    if a.Commit? {
      CommitGainsNoKey(c, s, a.actor, a.fault, name);
    } else if OfRound(a) {
      CallingGainsNoKey(c, s, a, name);
    } else if OfTick(a) {
      TickGainsNoKey(c, s, a, name);
    }
  }

  /** The cache only moves forward. */
  lemma CacheAdvances(c: Config, s: State, a: Action, name: Name)
    requires Ordinary(a) && name in s.cache
    ensures name in Exec(c, s, a).cache && s.cache[name] <= Exec(c, s, a).cache[name]
  {
  }

  lemma NoneAppears(c: Config, s: State, a: Action, name: Name)
    requires Ordinary(a) && name !in s.objects
    ensures name !in Exec(c, s, a).objects
  {
    if !WritesObjects(a) {
      OthersOnlyRead(c, s, a);
    }
  }

  lemma DeadStaysDead(c: Config, s: State, a: Action, name: Name)
    requires Inv(c, s) && Ordinary(a) && !Live(s.objects, name)
    ensures !Live(Exec(c, s, a).objects, name)
  {
    StepKeeps(c, s, a);
    if name !in s.objects {
      NoneAppears(c, s, a, name);
    } else {
      assert Lawful(c, s.objects[name].revisions);
    }
  }

  /** No revision becomes announceable, old or new. */
  lemma NothingToAnnounce(s: State, s': State, name: Name, v: nat)
    requires Live(s.objects, name) && AtMostReleased(s.objects, s'.objects, name)
    requires name in s.cache ==> name in s'.cache && s.cache[name] <= s'.cache[name]
    requires !(DEFERRED in Latest(s.objects, name).labels && Accepts(Undeferred(Latest(s.objects, name))))
    requires !Announceable(s, name, v)
    ensures !Announceable(s', name, v)
  {
    if v < |s.objects[name].revisions| {
      assert s'.objects[name].revisions[v] == s.objects[name].revisions[v];
    }
  }

  /** Out of reach, with nothing to announce and no deferral to clear. */
  lemma NotCompletable(s: State, s': State, name: Name)
    requires Live(s.objects, name) && !Completable(s, name) && AtMostReleased(s.objects, s'.objects, name)
    requires Recognised(Latest(s.objects, name).labels) ==>
               !HasKey(s', name) && forall v: nat :: !Announceable(s', name, v)
    ensures !Completable(s', name)
  {
    TypeKept(Latest(s.objects, name));
  }

  lemma OutOfReachStays(c: Config, s: State, a: Action, name: Name)
    requires WellFormed(c) && Steady(c, s) && Ordinary(a) && Live(s.objects, name) && !Completable(s, name)
    ensures !Completable(Exec(c, s, a), name)
  {
    var s' := Exec(c, s, a);
    OrdinaryOutOfReach(c, s, a, name);
    if Recognised(Latest(s.objects, name).labels) {
      GainsNoKey(c, s, a, name);
      if name in s.cache {
        CacheAdvances(c, s, a, name);
      }
      forall v: nat
        ensures !Announceable(s', name, v)
      {
        NothingToAnnounce(s, s', name, v);
      }
    }
    NotCompletable(s, s', name);
  }

  lemma {:induction false} NeverCompletable(c: Config, s: State, more: seq<Action>, name: Name)
    requires WellFormed(c) && Steady(c, s) && AllOrdinary(more) && !Completable(s, name)
    ensures Steady(c, Run(c, s, more)) && !Completable(Run(c, s, more), name)
  {
    if more != [] {
      var k := |more| - 1;
      NeverCompletable(c, s, more[..k], name);
      var s1 := Run(c, s, more[..k]);
      SteadyKept(c, s1, more[k]);
      if Live(s1.objects, name) {
        OutOfReachStays(c, s1, more[k], name);
      } else {
        DeadStaysDead(c, s1, more[k], name);
      }
    }
  }

  ghost predicate CanComplete(c: Config, s: State, name: Name) {
    exists more :: AllOrdinary(more) && Completed(Run(c, s, more).objects, name)
  }

  /**
   From every reachable state, an object has a continuation without restart, panic or other writer that
   ends with it processed, if and only if it is completable as the state stands.
   */
  lemma CanCompleteIff(c: Config, actors: nat, clock: int, actions: seq<Action>, name: Name)
    requires WellFormed(c) && actors > 0
    ensures var s := Run(c, Start(actors, clock), actions);
            CanComplete(c, s, name) <==> Completable(s, name)
  {
    var s := Run(c, Start(actors, clock), actions);
    EveryStateIsSteady(c, actors, clock, actions);
    if Completable(s, name) {
      var more := CompletableIsCompleted(c, s, name);
    } else {
      forall more | AllOrdinary(more)
        ensures !Completed(Run(c, s, more).objects, name)
      {
        NeverCompletable(c, s, more, name);
      }
    }
  }

  /**
   The deferred case: an object of a known type that is acceptable but for its deferral has such a
   continuation.
   */
  lemma EveryDeferredCanComplete(c: Config, actors: nat, clock: int, actions: seq<Action>, name: Name)
    returns (more: seq<Action>)
    requires WellFormed(c) && actors > 0
    requires var s := Run(c, Start(actors, clock), actions);
             && Live(s.objects, name) && DEFERRED in Latest(s.objects, name).labels
             && Recognised(Latest(s.objects, name).labels) && Accepts(Undeferred(Latest(s.objects, name)))
    ensures AllOrdinary(more) && Completed(Run(c, Start(actors, clock), actions + more).objects, name)
  {
    var s := Run(c, Start(actors, clock), actions);
    EveryStateIsSteady(c, actors, clock, actions);
    more := CompletableIsCompleted(c, s, name);
    RunAppend(c, Start(actors, clock), actions, more);
  }

  /**
   The accepted case: such a continuation announces at most the latest revision, and only if the
   informer has not done so yet or the object was forgotten.
   */
  lemma EveryAcceptedCanComplete(c: Config, actors: nat, clock: int, actions: seq<Action>, name: Name)
    returns (more: seq<Action>)
    requires WellFormed(c) && actors > 0
    requires var s := Run(c, Start(actors, clock), actions);
             Acceptable(s.objects, name) && Recognised(Latest(s.objects, name).labels)
    ensures AllOrdinary(more) && Completed(Run(c, Start(actors, clock), actions + more).objects, name)
    ensures var s := Run(c, Start(actors, clock), actions);
            forall k | 0 <= k < |more| && more[k].Observe? ::
              more[k] == Observe(name, |s.objects[name].revisions| - 1) && (UpToDate(s, name) ==> !Awake(s, name))
  {
    var s := Run(c, Start(actors, clock), actions);
    EveryStateIsSteady(c, actors, clock, actions);
    more := AcceptedIsCompleted(c, s, name);
    RunAppend(c, Start(actors, clock), actions, more);
  }

  lemma AcceptedIsCompleted(c: Config, s: State, name: Name) returns (more: seq<Action>)
    requires WellFormed(c) && Steady(c, s) && |s.actors| > 0
    requires Acceptable(s.objects, name) && Recognised(Latest(s.objects, name).labels)
    ensures AllOrdinary(more) && Completed(Run(c, s, more).objects, name)
    ensures forall k | 0 <= k < |more| && more[k].Observe? ::
              more[k] == Observe(name, |s.objects[name].revisions| - 1) && (UpToDate(s, name) ==> !Awake(s, name))
  {
    var v := |s.objects[name].revisions| - 1;
    var drain := DrainAll(c, s, |s.actors|);
    var s1 := Run(c, s, drain);
    var rest: seq<Action>;
    if HasKey(s, name) {
      rest := QueuedCanFinish(c, s1, name);
    } else {
      assert name in s.cache ==> Exists(s.objects, (name, s.cache[name]));
      rest := AnnouncedCanFinish(c, s1, name, v);
    }
    RunAppend(c, s, drain, rest);
    more := drain + rest;
  }
}
