/**
 What the delivery protocol guarantees over whole runs. Each statement is about every list of actions
 from the empty cluster, with any number of workers.
 */
module Guarantees {
  import opened Options
  import opened Decimal
  import opened ConfigMaps
  import opened Faults
  import opened History
  import opened Store
  import opened Protocol

  /** Once an object has carried the processed mark it has it, and every success, for ever. */
  lemma ProcessedMeansDelivered(c: Config, actors: nat, clock: int, actions: seq<Action>, more: seq<Action>, name: Name,
                                i: nat)
    requires WellFormed(c)
    requires var s := Run(c, Start(actors, clock), actions);
             name in s.objects && i < |s.objects[name].revisions| && Marked(s.objects[name].revisions[i].content)
    ensures var s' := Run(c, Start(actors, clock), actions + more);
            && name in s'.objects && i < |s'.objects[name].revisions|
            && forall j | i <= j < |s'.objects[name].revisions| ::
                 Marked(s'.objects[name].revisions[j].content) && AllSucceeded(c, s'.objects[name].revisions[j].content)
  {
    var s := Run(c, Start(actors, clock), actions);
    EveryHistoryIsLawful(c, actors, clock, actions);
    RunGrows(c, s, more);
    RunAppend(c, Start(actors, clock), actions, more);
    var revisions := Run(c, s, more).objects[name].revisions;
    assert s.objects[name].revisions[i] == revisions[i];
    forall j | i <= j < |revisions|
      ensures Marked(revisions[j].content) && AllSucceeded(c, revisions[j].content)
    {
      ProcessedIsFinal(c, revisions, i, j);
    }
  }

  /** At most one round more than the limit starts on an object the predicates accept. */
  lemma RetriesAreBounded(c: Config, actors: nat, clock: int, actions: seq<Action>, name: Name)
    requires WellFormed(c) && Limit(c) < MAX_INT64
    requires name in Run(c, Start(actors, clock), actions).objects
    ensures AcceptedRounds(Run(c, Start(actors, clock), actions).objects[name].revisions) <= Limit(c) + 1
  {
    EveryHistoryIsLawful(c, actors, clock, actions);
    AcceptedRoundsBound(c, Run(c, Start(actors, clock), actions).objects[name].revisions);
  }

  /** The stored counter and the max-retry label agree with the number of committed failing rounds. */
  lemma CounterIsExact(c: Config, actors: nat, clock: int, actions: seq<Action>, name: Name)
    requires WellFormed(c) && name in Run(c, Start(actors, clock), actions).objects
    ensures var revisions := Run(c, Start(actors, clock), actions).objects[name].revisions;
            revisions != [] && CounterMatches(c, revisions)
  {
    EveryHistoryIsLawful(c, actors, clock, actions);
    CounterCountsFailures(c, Run(c, Start(actors, clock), actions).objects[name].revisions);
  }

  /** A commit never leaves an object that would start another round by itself. */
  lemma CommitsNeverRetrigger(c: Config, actors: nat, clock: int, actions: seq<Action>, i: nat, fault: Fault,
                              name: Name)
    requires WellFormed(c)
    requires var s := Run(c, Start(actors, clock), actions);
             && name in s.objects && name in ExecCommit(c, s, i, fault).objects
             && ExecCommit(c, s, i, fault).objects[name] != s.objects[name]
    ensures var after := ExecCommit(c, Run(c, Start(actors, clock), actions), i, fault).objects;
            after[name].revisions != [] && !Accepts(Latest(after, name))
  {
    var s := Run(c, Start(actors, clock), actions);
    EveryHistoryIsLawful(c, actors, clock, actions);
    CommitKeeps(c, s, i, fault);
    var r := s.actors[i];
    var plan := PlanRound(c, r.from.content.annotations, r.outcomes, r.at, r.stamp);
    WriteAppends(s.objects, r.from, Overlay(r.from.content, plan), Round(r.outcomes, r.at, r.stamp, plan.failing),
                 fault, name);
    var revisions := ExecCommit(c, s, i, fault).objects[name].revisions;
    RoundsNeverRetrigger(c, revisions, |revisions| - 1);
  }

  /** A committed round had an object whose type label, or else whose insights label, is a known one. */
  lemma RoundsHaveKnownTypes(c: Config, actors: nat, clock: int, actions: seq<Action>, name: Name, i: nat)
    requires name in Run(c, Start(actors, clock), actions).objects
    requires var revisions := Run(c, Start(actors, clock), actions).objects[name].revisions;
             i < |revisions| && revisions[i].cause.Round?
    ensures var revisions := Run(c, Start(actors, clock), actions).objects[name].revisions;
            && i > 0
            && var labels := revisions[i - 1].content.labels;
               if TYPE in labels then labels[TYPE] in {"sbom", "inspect"}
               else INSIGHTS in labels && labels[INSIGHTS] in {"sbom-gz", "image-gz"}
  {
    EveryHistoryIsLawful(c, actors, clock, actions);
    var revisions := Run(c, Start(actors, clock), actions).objects[name].revisions;
    assert FollowsAt(c, revisions, i);
    RecognisedIff(revisions[i - 1].content.labels);
  }

  /**
   When a tick releases an object, more than the configured delay less one second has passed since the
   clock read of the failing round that deferred it, as long as that deadline fits 32 bits.
   */
  lemma ReleaseWaits(c: Config, actors: nat, clock: int, actions: seq<Action>, i: nat, at: int, fault: Fault,
                     name: Name)
    requires WellFormed(c)
    requires var s := Run(c, Start(actors, clock), actions);
             name in s.objects && name in ExecClear(s, i, at, fault).objects
             && ExecClear(s, i, at, fault).objects[name] != s.objects[name]
    ensures var s := Run(c, Start(actors, clock), actions);
            var failure := LastFailure(s.objects[name].revisions);
            failure.Some? && (Deadline(c, failure.value) <= MAX_INT32 ==> s.clock - failure.value > Delay(c) - SECOND)
  {
    var s := Run(c, Start(actors, clock), actions);
    EveryHistoryIsLawful(c, actors, clock, actions);
    ClearKeeps(c, s, i, at, fault);
    assert ActorOk(c, s.objects, s.actors[i]);
    var before := s.objects[name].revisions;
    var after := ExecClear(s, i, at, fault).objects[name].revisions;
    assert after == before + [Revision(after[|before|].content, Released(at))];
    ReleasedLateEnough(c, after, |before|);
    assert after[..|before|] == before;
  }

  const CORE_STATUS := "core.insights.lagoon.sh/status"
  const DEFAULT_STATUS := "dependencytrack.insights.lagoon.sh/default-status"
  const CUSTOM_STATUS := "dependencytrack.insights.lagoon.sh/custom-status"

  function Installed(key: string, enabled: bool): Option<string> {
    if enabled then Some(key) else None
  }

  lemma LengthsTellApart(c: Config)
    requires MIN_INT64 <= c.minutes <= MAX_INT64 && MIN_INT64 <= c.maxRetries <= MAX_INT64
    requires forall i, j | 0 <= i < j < |c.processors| && c.processors[i].Some? :: c.processors[i] != c.processors[j]
    requires forall l | IsLabel(c, l) :: |l| == 30 || |l| == 48 || |l| == 49
    ensures WellFormed(c)
  {
    assert |PROCESSED| == 27 && |RETRIES| == 26;
    assert forall l :: |ErrorKey(l)| == |l| + 6;
  }

  lemma ThreeProcessors(a: string, b: string, d: string, core: bool, standard: bool, custom: bool, minutes: int,
                        maxRetries: int)
    requires |a| == 30 && |b| == 49 && |d| == 48
    requires MIN_INT64 <= minutes <= MAX_INT64 && MIN_INT64 <= maxRetries <= MAX_INT64
    ensures WellFormed(Config([Installed(a, core), Installed(b, standard), Installed(d, custom)], minutes, maxRetries))
  {
    LengthsTellApart(Config([Installed(a, core), Installed(b, standard), Installed(d, custom)], minutes, maxRetries));
  }

  /** The three processors `main` installs, any of which may be nil, meet the naming assumptions. */
  lemma ShippedProcessorsAreWellFormed(core: bool, standard: bool, custom: bool, minutes: int, maxRetries: int)
    requires MIN_INT64 <= minutes <= MAX_INT64 && MIN_INT64 <= maxRetries <= MAX_INT64
    ensures WellFormed(Config([Installed(CORE_STATUS, core), Installed(DEFAULT_STATUS, standard),
                               Installed(CUSTOM_STATUS, custom)],
                              minutes, maxRetries))
  {
    ThreeProcessors(CORE_STATUS, DEFAULT_STATUS, CUSTOM_STATUS, core, standard, custom, minutes, maxRetries);
  }
}
