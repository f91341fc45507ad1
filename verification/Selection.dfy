/**
 Which ConfigMaps the controller touches at all: in every run, only those that some revision made
 eligible by its labels, and what it writes on them comes from an applied commit of one of its rounds.
 */
module Selection {
  import opened ConfigMaps
  import opened Faults
  import opened History
  import opened Store
  import opened Protocol
  import opened Progress
  import opened Completion

  ghost predicate EverAccepted(objects: Objects, name: Name) {
    name in objects && exists r | 0 <= r < |objects[name].revisions| :: Accepts(objects[name].revisions[r].content)
  }

  /** Queued, in the hands of a worker, or already given to a processor. */
  ghost predicate Touched(s: State, name: Name) {
    HasKey(s, name) || exists l :: (name, l) in s.delivered
  }

  lemma StaysEverAccepted(before: Objects, after: Objects, name: Name)
    requires Grows(before, after) && EverAccepted(before, name)
    ensures EverAccepted(after, name)
  {
    var r :| 0 <= r < |before[name].revisions| && Accepts(before[name].revisions[r].content);
    assert after[name].revisions[r] == before[name].revisions[r];
  }

  lemma AbortGainsNoKey(c: Config, s: State, i: nat, name: Name)
    requires !HasKey(s, name)
    ensures !HasKey(ExecAbort(c, s, i), name)
  {
    if i < |s.actors| {
      assert InRound(s.actors[i]) ==> s.actors[i].from.name != name;
      NotHeld(s.actors, i, Idle, name);
    }
  }

  lemma OthersGainNoKey(c: Config, s: State, a: Action, name: Name)
    requires !Ordinary(a) && !HasKey(s, name)
    ensures !HasKey(Exec(c, s, a), name)
  {
    if a.Abort? {
      AbortGainsNoKey(c, s, a.actor, name);
    }
  }

  /** Only the announcement of an accepted revision brings a new key in. */
  lemma KeysComeFromEvents(c: Config, s: State, a: Action, name: Name)
    requires Inv(c, s) && !HasKey(s, name) && HasKey(Exec(c, s, a), name)
    ensures EverAccepted(Exec(c, s, a).objects, name)
  {
    if !Ordinary(a) {
      OthersGainNoKey(c, s, a, name);
    } else if a.Observe? && a.name == name && Announceable(s, name, a.version) {
      assert Exec(c, s, a).objects == s.objects;
    } else {
      GainsNoKey(c, s, a, name);
    }
  }

  /** Only a worker that holds the key calls processors for it. */
  lemma CallsNeedTheKey(c: Config, s: State, a: Action, name: Name, l: string)
    requires (name, l) in Exec(c, s, a).delivered && (name, l) !in s.delivered
    ensures HasKey(s, name)
  {
    if a.CallNext? && a.actor < |s.actors| && s.actors[a.actor].Working? {
      assert s.actors[a.actor].from.name == name;
    }
  }

  lemma {:induction false} TouchedWasAccepted(c: Config, actors: nat, clock: int, actions: seq<Action>, name: Name)
    ensures var s := Run(c, Start(actors, clock), actions);
            Touched(s, name) ==> EverAccepted(s.objects, name)
  {
    if actions != [] {
      var k := |actions| - 1;
      var s := Run(c, Start(actors, clock), actions[..k]);
      TouchedWasAccepted(c, actors, clock, actions[..k], name);
      EveryHistoryIsLawful(c, actors, clock, actions[..k]);
      TouchedStep(c, s, actions[k], name);
    }
  }

  lemma TouchedStep(c: Config, s: State, a: Action, name: Name)
    requires Inv(c, s) && (Touched(s, name) ==> EverAccepted(s.objects, name))
    ensures Touched(Exec(c, s, a), name) ==> EverAccepted(Exec(c, s, a).objects, name)
  {
    var s' := Exec(c, s, a);
    StepKeeps(c, s, a);
    if Touched(s, name) {
      StaysEverAccepted(s.objects, s'.objects, name);
    } else if HasKey(s', name) {
      KeysComeFromEvents(c, s, a, name);
    } else if l :| (name, l) in s'.delivered {
      CallsNeedTheKey(c, s, a, name, l);
    }
  }

  // ---- Rounds are commits -------------------------------------------------------------------

  /** Step `k` is the applied Commit that wrote this cause for the object. */
  ghost predicate CommittedAt(c: Config, s: State, actions: seq<Action>, k: nat, name: Name, cause: Cause)
    requires k < |actions|
  {
    Commits(c, Run(c, s, actions[..k]), actions[k], name, cause)
  }

  ghost predicate Commits(c: Config, s: State, a: Action, name: Name, cause: Cause) {
    && a.Commit? && a.actor < |s.actors| && s.actors[a.actor].Ready? && cause.Round?
    && var r := s.actors[a.actor];
       && r.from.name == name && Applies(s.objects, r.from, a.fault)
       && cause.outcomes == r.outcomes && cause.at == r.at && cause.stamp == r.stamp
  }

  lemma CommitWritesRound(c: Config, s: State, i: nat, fault: Fault, name: Name, r: nat)
    requires Inv(c, s)
    requires var after := ExecCommit(c, s, i, fault).objects;
             name in after && r < |after[name].revisions| && (name in s.objects ==> r >= |s.objects[name].revisions|)
    ensures Commits(c, s, Commit(i, fault), name, ExecCommit(c, s, i, fault).objects[name].revisions[r].cause)
  {
    var a := s.actors[i];
    assert ActorOk(c, s.objects, a);
    var plan := PlanRound(c, a.from.content.annotations, a.outcomes, a.at, a.stamp);
    WriteAppends(s.objects, a.from, Overlay(a.from.content, plan), Round(a.outcomes, a.at, a.stamp, plan.failing),
                 fault, name);
  }

  lemma ClearWritesRelease(s: State, i: nat, at: int, fault: Fault, name: Name, r: nat)
    requires var after := ExecClear(s, i, at, fault).objects;
             name in after && r < |after[name].revisions| && (name in s.objects ==> r >= |s.objects[name].revisions|)
    ensures ExecClear(s, i, at, fault).objects[name].revisions[r].cause.Released?
  {
  }

  /** A step that adds a round's revision is the Commit of that round. */
  lemma OnlyCommitsWriteRounds(c: Config, s: State, a: Action, name: Name, r: nat)
    requires Inv(c, s)
    requires var after := Exec(c, s, a).objects;
             && name in after && r < |after[name].revisions| && after[name].revisions[r].cause.Round?
             && (name in s.objects ==> r >= |s.objects[name].revisions|)
    ensures Commits(c, s, a, name, Exec(c, s, a).objects[name].revisions[r].cause)
  {
    if !WritesObjects(a) {
      OthersOnlyRead(c, s, a);
    } else if a.Commit? {
      CommitWritesRound(c, s, a.actor, a.fault, name, r);
    } else if a.ClearNext? {
      ClearWritesRelease(s, a.actor, a.at, a.fault, name, r);
    }
  }

  /** Every round revision of a run was written by an applied Commit, with that round's outcomes and clocks. */
  lemma {:induction false} RoundsAreCommits(c: Config, actors: nat, clock: int, actions: seq<Action>, name: Name,
                                            r: nat)
    returns (k: nat)
    requires var objects := Run(c, Start(actors, clock), actions).objects;
             name in objects && r < |objects[name].revisions| && objects[name].revisions[r].cause.Round?
    ensures k < |actions|
    ensures var s := Start(actors, clock);
            CommittedAt(c, s, actions, k, name, Run(c, s, actions).objects[name].revisions[r].cause)
  {
    var last := |actions| - 1;
    var start := Start(actors, clock);
    var s := Run(c, start, actions[..last]);
    EveryHistoryIsLawful(c, actors, clock, actions[..last]);
    StepKeeps(c, s, actions[last]);
    if name in s.objects && r < |s.objects[name].revisions| {
      k := RoundsAreCommits(c, actors, clock, actions[..last], name, r);
      assert actions[..last][..k] == actions[..k];
    } else {
      OnlyCommitsWriteRounds(c, s, actions[last], name, r);
      k := last;
    }
  }

  /** Step `p` is the Prepare in which worker `i`, having called every processor, read the clock and the time. */
  ghost predicate PreparedAt(c: Config, s: State, actions: seq<Action>, p: nat, i: nat, ready: Actor)
    requires p < |actions| && ready.Ready?
  {
    Prepares(c, Run(c, s, actions[..p]), actions[p], i, ready)
  }

  ghost predicate Prepares(c: Config, s: State, a: Action, i: nat, ready: Actor)
    requires ready.Ready?
  {
    && a == Prepare(i, ready.stamp) && s.clock == ready.at
    && i < |s.actors| && s.actors[i] == Working(ready.from, ready.outcomes) && |ready.outcomes| == |c.processors|
  }

  lemma OnlyPrepareReadies(c: Config, s: State, a: Action, i: nat)
    requires var after := Exec(c, s, a).actors; i < |after| && after[i].Ready?
    ensures i < |s.actors|
    ensures s.actors[i] == Exec(c, s, a).actors[i] || Prepares(c, s, a, i, Exec(c, s, a).actors[i])
  {
  }

  /** A worker about to write had its clock reads in some earlier step, after its last call. */
  lemma {:induction false} ReadyWasPrepared(c: Config, actors: nat, clock: int, actions: seq<Action>, i: nat)
    returns (p: nat)
    requires var s := Run(c, Start(actors, clock), actions); i < |s.actors| && s.actors[i].Ready?
    ensures p < |actions|
    ensures PreparedAt(c, Start(actors, clock), actions, p, i, Run(c, Start(actors, clock), actions).actors[i])
  {
    var last := |actions| - 1;
    var s := Run(c, Start(actors, clock), actions[..last]);
    OnlyPrepareReadies(c, s, actions[last], i);
    if s.actors[i] == Run(c, Start(actors, clock), actions).actors[i] {
      p := ReadyWasPrepared(c, actors, clock, actions[..last], i);
      assert actions[..last][..p] == actions[..p];
    } else {
      p := last;
    }
  }

  // ---- Whole runs ---------------------------------------------------------------------------

  /** The insights label is among the label keys or values. */
  predicate Mentions(content: Content) {
    INSIGHTS in content.labels.Keys + content.labels.Values
  }

  /**
   In every run: an object no revision of which has the insights label among its label keys or values
   is never queued or held by a worker, never given to a processor, and never written by a round.
   */
  lemma UnlabelledAreUntouched(c: Config, actors: nat, clock: int, actions: seq<Action>, name: Name)
    requires var objects := Run(c, Start(actors, clock), actions).objects;
             name in objects ==> forall r | 0 <= r < |objects[name].revisions| ::
                 !Mentions(objects[name].revisions[r].content)
    ensures var s := Run(c, Start(actors, clock), actions);
            && name !in s.queue && !Held(s.actors, name)
            && (forall l :: (name, l) !in s.delivered)
            && (name in s.objects ==>
                  forall r | 0 <= r < |s.objects[name].revisions| :: !s.objects[name].revisions[r].cause.Round?)
  {
    var s := Run(c, Start(actors, clock), actions);
    TouchedWasAccepted(c, actors, clock, actions, name);
    NeverMentioned(s.objects, name);
    if name in s.objects {
      forall r | 0 <= r < |s.objects[name].revisions|
        ensures !s.objects[name].revisions[r].cause.Round?
      {
        if s.objects[name].revisions[r].cause.Round? {
          RoundWasAccepted(c, actors, clock, actions, name, r);
        }
      }
    }
  }

  lemma NeverMentioned(objects: Objects, name: Name)
    requires name in objects ==>
               forall r | 0 <= r < |objects[name].revisions| :: !Mentions(objects[name].revisions[r].content)
    ensures !EverAccepted(objects, name)
  {
    if name in objects {
      forall r | 0 <= r < |objects[name].revisions|
        ensures !Accepts(objects[name].revisions[r].content)
      {
        AcceptsIff(objects[name].revisions[r].content);
      }
    }
  }

  lemma RunGrowsFrom(c: Config, actors: nat, clock: int, actions: seq<Action>, k: nat)
    requires k <= |actions|
    ensures Grows(Run(c, Start(actors, clock), actions[..k]).objects, Run(c, Start(actors, clock), actions).objects)
  {
    RunSplits(c, Start(actors, clock), actions, k);
    EveryHistoryIsLawful(c, actors, clock, actions[..k]);
    RunGrows(c, Run(c, Start(actors, clock), actions[..k]), actions[k..]);
  }

  lemma RunSplits(c: Config, s: State, actions: seq<Action>, k: nat)
    requires k <= |actions|
    ensures Run(c, s, actions) == Run(c, Run(c, s, actions[..k]), actions[k..])
  {
    var first, second := actions[..k], actions[k..];
    assert first + second == actions;
    RunAppend(c, s, first, second);
  }

  lemma RoundWasAccepted(c: Config, actors: nat, clock: int, actions: seq<Action>, name: Name, r: nat)
    requires var objects := Run(c, Start(actors, clock), actions).objects;
             name in objects && r < |objects[name].revisions| && objects[name].revisions[r].cause.Round?
    ensures EverAccepted(Run(c, Start(actors, clock), actions).objects, name)
  {
    var k := RoundsAreCommits(c, actors, clock, actions, name, r);
    var s := Run(c, Start(actors, clock), actions[..k]);
    TouchedWasAccepted(c, actors, clock, actions[..k], name);
    assert Held(s.actors, name);
    RunGrowsFrom(c, actors, clock, actions, k);
    StaysEverAccepted(s.objects, Run(c, Start(actors, clock), actions).objects, name);
  }

  /**
   In every run: the processed mark of an object holds the time that the worker of an applied, clean
   commit on it, at step `k`, had read at step `p`.
   */
  lemma MarkIsCommitTime(c: Config, actors: nat, clock: int, actions: seq<Action>, name: Name)
    returns (p: nat, k: nat, r: nat)
    requires WellFormed(c)
    requires var objects := Run(c, Start(actors, clock), actions).objects;
             name in objects && objects[name].revisions != [] && Marked(Latest(objects, name))
    ensures var s := Start(actors, clock);
            var objects := Run(c, s, actions).objects;
            && p < k < |actions| && r < |objects[name].revisions|
            && var cause := objects[name].revisions[r].cause;
               && CommittedAt(c, s, actions, k, name, cause) && !cause.failing
               && Latest(objects, name).annotations[PROCESSED] == cause.stamp
               && PreparedAt(c, s, actions, p, actions[k].actor, Run(c, s, actions[..k]).actors[actions[k].actor])
  {
    var revisions := Run(c, Start(actors, clock), actions).objects[name].revisions;
    EveryHistoryIsLawful(c, actors, clock, actions);
    MarkHoldsLastStamp(c, revisions);
    r := LastCleanAt(revisions);
    k := RoundsAreCommits(c, actors, clock, actions, name, r);
    p := ReadyWasPrepared(c, actors, clock, actions[..k], actions[k].actor);
    assert actions[..k][..p] == actions[..p];
  }

  lemma {:induction false} LastCleanAt(revisions: seq<Revision>) returns (r: nat)
    requires LastClean(revisions).Some?
    ensures r < |revisions| && revisions[r].cause.Round? && !revisions[r].cause.failing
    ensures revisions[r].cause.stamp == LastClean(revisions).value
  {
    var last := |revisions| - 1;
    if revisions[last].cause.Round? && !revisions[last].cause.failing {
      r := last;
    } else {
      r := LastCleanAt(revisions[..last]);
    }
  }
}
