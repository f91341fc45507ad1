/**
 Delivery accounting: every nil-returning `PostProcess` call is either the one recorded on the object,
 part of a round still under way, or part of a round whose Update was never applied.
 */
module Delivery {
  import opened Options
  import opened ConfigMaps
  import opened Faults
  import opened History
  import opened Store
  import opened Protocol

  ghost predicate Recorded(objects: Objects, name: Name, l: string) {
    name in objects && objects[name].revisions != [] && Succeeded(Latest(objects, name).annotations, l)
  }

  ghost predicate Accounted(c: Config, s: State, name: Name, l: string) {
    s.delivered[(name, l)] ==
    s.lost[(name, l)] + InFlight(c, s.actors)[(name, l)] + (if Recorded(s.objects, name, l) then 1 else 0)
  }

  lemma {:induction false} InFlightUpdate(c: Config, actors: seq<Actor>, i: nat, a: Actor, d: Delivery)
    requires i < |actors|
    ensures InFlight(c, actors[i := a])[d] + Pending(c, actors[i])[d] == InFlight(c, actors)[d] + Pending(c, a)[d]
  {
    if i == 0 {
      assert actors[i := a][1..] == actors[1..];
    } else {
      InFlightUpdate(c, actors[1..], i - 1, a, d);
      assert actors[i := a][1..] == actors[1..][i - 1 := a];
    }
  }

  lemma {:induction false} IdleInFlight(c: Config, actors: seq<Actor>)
    requires forall i | 0 <= i < |actors| :: actors[i].Idle?
    ensures InFlight(c, actors) == multiset{}
  {
    if actors != [] {
      IdleInFlight(c, actors[1..]);
    }
  }

  /** A round calls each processor at most once. */
  lemma {:induction false} NilCallsOfLabel(c: Config, from: Snapshot, outcomes: seq<Outcome>, k: nat, name: Name)
    requires WellFormed(c) && |outcomes| <= |c.processors|
    requires k < |c.processors| && c.processors[k].Some?
    ensures NilCalls(c, from, outcomes)[(name, c.processors[k].value)] ==
            if name == from.name && k < |outcomes| && Calls(from.content.annotations, c.processors[k])
                && outcomes[k].Delivered?
            then 1 else 0
  {
    if outcomes != [] {
      var last := |outcomes| - 1;
      NilCallsOfLabel(c, from, outcomes[..last], k, name);
      if k != last && c.processors[last].Some? {
        assert c.processors[k] != c.processors[last];
      }
    }
  }

  lemma CallAccounts(c: Config, s: State, i: nat, outcome: Outcome, name: Name, l: string)
    requires Inv(c, s) && Accounted(c, s, name, l)
    ensures Accounted(c, ExecCall(c, s, i, outcome), name, l)
  {
    if i < |s.actors| && s.actors[i].Working? && |s.actors[i].outcomes| < |c.processors| {
      var w := s.actors[i];
      var next := Working(w.from, w.outcomes + [outcome]);
      assert next.outcomes[..|w.outcomes|] == w.outcomes;
      assert Pending(c, next) == Pending(c, w) + NilCall(c, w.from, |w.outcomes|, outcome);
      InFlightUpdate(c, s.actors, i, next, (name, l));
    }
  }

  lemma CommitStores(c: Config, objects: Objects, from: Snapshot, outcomes: seq<Outcome>, at: int, stamp: string,
                     fault: Fault, name: Name)
    requires |outcomes| == |c.processors| && Applies(objects, from, fault)
    ensures var after := CommitRound(c, objects, from, outcomes, at, stamp, fault).objects;
            && (name in after <==> name in objects)
            && (name in objects && name != from.name ==> after[name] == objects[name])
            && after[from.name].revisions != []
            && Latest(after, from.name) ==
                 Overlay(from.content, PlanRound(c, from.content.annotations, outcomes, at, stamp))
  {
  }

  /** Within one round: a processor's success is new exactly when the round called it and got nil. */
  lemma RoundRecords(c: Config, from: Snapshot, outcomes: seq<Outcome>, at: int, stamp: string, k: nat)
    requires WellFormed(c) && |outcomes| == |c.processors| && k < |c.processors| && c.processors[k].Some?
    ensures var l := c.processors[k].value;
            var next := Overlay(from.content, PlanRound(c, from.content.annotations, outcomes, at, stamp));
            (if Succeeded(next.annotations, l) then 1 else 0) ==
            (if Succeeded(from.content.annotations, l) then 1 else 0) + NilCalls(c, from, outcomes)[(from.name, l)]
  {
    NilCallsOfLabel(c, from, outcomes, k, from.name);
    RoundMeaning(c, from.content, outcomes, at, stamp);
  }

  lemma CommitLeavesOthers(c: Config, objects: Objects, r: Actor, fault: Fault, k: nat, name: Name)
    requires WellFormed(c) && k < |c.processors| && c.processors[k].Some?
    requires r.Ready? && |r.outcomes| == |c.processors| && Applies(objects, r.from, fault) && name != r.from.name
    ensures var l := c.processors[k].value;
            && Recorded(CommitRound(c, objects, r.from, r.outcomes, r.at, r.stamp, fault).objects, name, l) ==
                 Recorded(objects, name, l)
            && Pending(c, r)[(name, l)] == 0
  {
    CommitStores(c, objects, r.from, r.outcomes, r.at, r.stamp, fault, name);
    NilCallsOfLabel(c, r.from, r.outcomes, k, name);
  }

  /** An applied commit records exactly the successes its round delivered. */
  lemma CommitRecords(c: Config, objects: Objects, r: Actor, fault: Fault, k: nat, name: Name)
    requires WellFormed(c) && k < |c.processors| && c.processors[k].Some?
    requires r.Ready? && ActorOk(c, objects, r) && Applies(objects, r.from, fault)
    ensures var l := c.processors[k].value;
            var after := CommitRound(c, objects, r.from, r.outcomes, r.at, r.stamp, fault).objects;
            (if Recorded(after, name, l) then 1 else 0) ==
            (if Recorded(objects, name, l) then 1 else 0) + Pending(c, r)[(name, l)]
  {
    if name == r.from.name {
      CommitStores(c, objects, r.from, r.outcomes, r.at, r.stamp, fault, name);
      assert Latest(objects, name) == r.from.content;
      RoundRecords(c, r.from, r.outcomes, r.at, r.stamp, k);
    } else {
      CommitLeavesOthers(c, objects, r, fault, k, name);
    }
  }

  /** A commit records its calls or loses them. */
  lemma CommitBalances(c: Config, objects: Objects, r: Actor, fault: Fault, k: nat, name: Name)
    requires WellFormed(c) && k < |c.processors| && c.processors[k].Some?
    requires r.Ready? && ActorOk(c, objects, r)
    ensures var l := c.processors[k].value;
            var after := CommitRound(c, objects, r.from, r.outcomes, r.at, r.stamp, fault).objects;
            (if Recorded(after, name, l) then 1 else 0) +
            (if Applies(objects, r.from, fault) then 0 else Pending(c, r)[(name, l)]) ==
            (if Recorded(objects, name, l) then 1 else 0) + Pending(c, r)[(name, l)]
  {
    if Applies(objects, r.from, fault) {
      CommitRecords(c, objects, r, fault, k, name);
    }
  }

  /** Worker `i` is done: its calls are recorded, or lost if its commit did not apply. */
  lemma RoundIsSettled(c: Config, s: State, s': State, i: nat, applies: bool, name: Name, l: string)
    requires Accounted(c, s, name, l) && i < |s.actors| && s'.actors == s.actors[i := Idle]
    requires s'.delivered == s.delivered && s'.lost == if applies then s.lost else s.lost + Pending(c, s.actors[i])
    requires (if Recorded(s'.objects, name, l) then 1 else 0) +
             (if applies then 0 else Pending(c, s.actors[i])[(name, l)]) ==
             (if Recorded(s.objects, name, l) then 1 else 0) + Pending(c, s.actors[i])[(name, l)]
    ensures Accounted(c, s', name, l)
  {
    InFlightUpdate(c, s.actors, i, Idle, (name, l));
  }

  lemma CommitAccounts(c: Config, s: State, i: nat, fault: Fault, k: nat, name: Name)
    requires WellFormed(c) && Inv(c, s) && k < |c.processors| && c.processors[k].Some?
    requires Accounted(c, s, name, c.processors[k].value)
    ensures Accounted(c, ExecCommit(c, s, i, fault), name, c.processors[k].value)
  {
    if i < |s.actors| && s.actors[i].Ready? {
      var r := s.actors[i];
      assert ActorOk(c, s.objects, r);
      var applies := Applies(s.objects, r.from, fault);
      CommitBalances(c, s.objects, r, fault, k, name);
      RoundIsSettled(c, s, ExecCommit(c, s, i, fault), i, applies, name, c.processors[k].value);
    }
  }

  lemma AbortAccounts(c: Config, s: State, i: nat, name: Name, l: string)
    requires Accounted(c, s, name, l)
    ensures Accounted(c, ExecAbort(c, s, i), name, l)
  {
    if i < |s.actors| {
      InFlightUpdate(c, s.actors, i, Idle, (name, l));
    }
  }

  lemma RestartAccounts(c: Config, s: State, name: Name, l: string)
    requires Accounted(c, s, name, l)
    ensures Accounted(c, ExecRestart(c, s), name, l)
  {
    IdleInFlight(c, ExecRestart(c, s).actors);
  }

  /** Replacing an actor by one with as many nil-returning calls under way. */
  lemma SwapAccounts(c: Config, s: State, i: nat, a: Actor, objects: Objects, queue: set<Name>, name: Name, l: string)
    requires Accounted(c, s, name, l) && i < |s.actors| && Pending(c, a) == Pending(c, s.actors[i])
    requires Recorded(objects, name, l) == Recorded(s.objects, name, l)
    ensures Accounted(c, s.(objects := objects, queue := queue, actors := s.actors[i := a]), name, l)
  {
    InFlightUpdate(c, s.actors, i, a, (name, l));
  }

  lemma FetchAccounts(c: Config, s: State, i: nat, n: Name, answer: Answer, name: Name, l: string)
    requires Accounted(c, s, name, l)
    ensures Accounted(c, ExecFetch(s, i, n, answer), name, l)
  {
    var got := Lookup(s, n, answer);
    if MayTake(s, i, n) && got.Found? && Recognised(got.from.content.labels) {
      var w := Working(got.from, []);
      assert Pending(c, w) == multiset{};
      SwapAccounts(c, s, i, w, s.objects, s.queue - {n}, name, l);
    }
  }

  lemma PrepareAccounts(c: Config, s: State, i: nat, stamp: string, name: Name, l: string)
    requires Accounted(c, s, name, l)
    ensures Accounted(c, ExecPrepare(c, s, i, stamp), name, l)
  {
    var s' := ExecPrepare(c, s, i, stamp);
    if s'.actors != s.actors {
      SwapAccounts(c, s, i, s'.actors[i], s.objects, s.queue, name, l);
    }
  }

  /** A release concerns the deferral label only. */
  lemma ClearKeepsRecord(c: Config, objects: Objects, item: Snapshot, failed: bool, at: int, fault: Fault, n: Name,
                         l: string)
    requires SnapshotOk(objects, item)
    ensures Recorded(ClearItem(objects, item, failed, at, fault).objects, n, l) == Recorded(objects, n, l)
  {
    if Applies(objects, item, fault) {
      assert Latest(objects, item.name) == item.content;
    }
  }

  lemma ClearAccounts(c: Config, s: State, i: nat, at: int, fault: Fault, name: Name, l: string)
    requires Inv(c, s) && Accounted(c, s, name, l)
    ensures Accounted(c, ExecClear(s, i, at, fault), name, l)
  {
    var s' := ExecClear(s, i, at, fault);
    if s' != s {
      assert ActorOk(c, s.objects, s.actors[i]);
      ClearKeepsRecord(c, s.objects, s.actors[i].items[0], s.actors[i].failed, at, fault, name, l);
      SwapAccounts(c, s, i, s'.actors[i], s'.objects, s.queue, name, l);
    }
  }

  lemma EraseKeepsRecord(objects: Objects, erased: Name, fault: Fault, n: Name, l: string)
    ensures Recorded(Erase(objects, erased, fault), n, l) == Recorded(objects, n, l)
  {
  }

  lemma BurnAccounts(c: Config, s: State, i: nat, fault: Fault, name: Name, l: string)
    requires Accounted(c, s, name, l)
    ensures Accounted(c, ExecBurn(s, i, fault), name, l)
  {
    var s' := ExecBurn(s, i, fault);
    if i < |s.actors| && s.actors[i].Burning? && s.actors[i].items != [] {
      EraseKeepsRecord(s.objects, s.actors[i].items[0].name, fault, name, l);
      SwapAccounts(c, s, i, s'.actors[i], s'.objects, s.queue, name, l);
    }
  }

  lemma CreateAccounts(c: Config, s: State, n: Name, content: Content, name: Name, l: string)
    requires IsLabel(c, l) && Accounted(c, s, name, l)
    ensures Accounted(c, ExecCreate(c, s, n, content), name, l)
  {
  }

  lemma OutsideAccounts(c: Config, s: State, n: Name, content: Content, name: Name, l: string)
    requires IsLabel(c, l) && Accounted(c, s, name, l)
    ensures Accounted(c, ExecOutside(c, s, n, content), name, l)
  {
    if MayWrite(c, s, n, content) {
      assert Same(Latest(s.objects, n).annotations, content.annotations, l);
    }
  }

  lemma RoundStepAccounts(c: Config, s: State, a: Action, name: Name, l: string)
    requires WellFormed(c) && Inv(c, s) && IsLabel(c, l) && Accounted(c, s, name, l) && OfRound(a)
    ensures Accounted(c, Exec(c, s, a), name, l)
  {
    if a.Fetch? {
      FetchAccounts(c, s, a.actor, a.name, a.answer, name, l);
    } else if a.CallNext? {
      CallAccounts(c, s, a.actor, a.outcome, name, l);
    } else if a.Prepare? {
      PrepareAccounts(c, s, a.actor, a.stamp, name, l);
    } else if a.Commit? {
      var k :| 0 <= k < |c.processors| && c.processors[k] == Some(l);
      CommitAccounts(c, s, a.actor, a.fault, k, name);
    } else {
      AbortAccounts(c, s, a.actor, name, l);
    }
  }

  lemma ListDeferredAccounts(c: Config, s: State, i: nat, picks: seq<(Name, nat)>, name: Name, l: string)
    requires Accounted(c, s, name, l)
    ensures Accounted(c, ExecListDeferred(s, i, picks), name, l)
  {
    var s' := ExecListDeferred(s, i, picks);
    if s' != s {
      SwapAccounts(c, s, i, s'.actors[i], s.objects, s.queue, name, l);
    }
  }

  lemma ListInsightsAccounts(c: Config, s: State, i: nat, picks: seq<(Name, nat)>, name: Name, l: string)
    requires Accounted(c, s, name, l)
    ensures Accounted(c, ExecListInsights(s, i, picks), name, l)
  {
    var s' := ExecListInsights(s, i, picks);
    if s' != s {
      SwapAccounts(c, s, i, s'.actors[i], s.objects, s.queue, name, l);
    }
  }

  lemma ListDeferredStepAccounts(c: Config, s: State, a: Action, name: Name, l: string)
    requires Accounted(c, s, name, l) && a.ListDeferred?
    ensures Accounted(c, Exec(c, s, a), name, l)
  {
    ListDeferredAccounts(c, s, a.actor, a.picks, name, l);
  }

  lemma ListInsightsStepAccounts(c: Config, s: State, a: Action, name: Name, l: string)
    requires Accounted(c, s, name, l) && a.ListInsights?
    ensures Accounted(c, Exec(c, s, a), name, l)
  {
    ListInsightsAccounts(c, s, a.actor, a.picks, name, l);
  }

  lemma TickStepAccounts(c: Config, s: State, a: Action, name: Name, l: string)
    requires Inv(c, s) && Accounted(c, s, name, l) && OfTick(a)
    ensures Accounted(c, Exec(c, s, a), name, l)
  {
    if a.ClearNext? {
      ClearAccounts(c, s, a.actor, a.at, a.fault, name, l);
    } else if a.BurnNext? {
      BurnAccounts(c, s, a.actor, a.fault, name, l);
    } else if a.ListDeferred? {
      ListDeferredStepAccounts(c, s, a, name, l);
    } else {
      ListInsightsStepAccounts(c, s, a, name, l);
    }
  }

  lemma WorldStepAccounts(c: Config, s: State, a: Action, name: Name, l: string)
    requires IsLabel(c, l) && Accounted(c, s, name, l) && !OfRound(a) && !OfTick(a)
    ensures Accounted(c, Exec(c, s, a), name, l)
  {
    if a.Create? {
      CreateAccounts(c, s, a.name, a.content, name, l);
    } else if a.WriteOutside? {
      OutsideAccounts(c, s, a.name, a.content, name, l);
    } else if a.RemoveOutside? {
      EraseKeepsRecord(s.objects, a.name, NoFault, name, l);
    } else if a.Restart? {
      RestartAccounts(c, s, name, l);
    }
  }

  lemma StepAccounts(c: Config, s: State, a: Action, name: Name, l: string)
    requires WellFormed(c) && Inv(c, s) && IsLabel(c, l) && Accounted(c, s, name, l)
    ensures Accounted(c, Exec(c, s, a), name, l)
  {
    if OfRound(a) {
      RoundStepAccounts(c, s, a, name, l);
    } else if OfTick(a) {
      TickStepAccounts(c, s, a, name, l);
    } else {
      WorldStepAccounts(c, s, a, name, l);
    }
  }

  /**
   After any run, for every object and processor: nil-returning calls so far = calls of rounds whose
   Update was not applied + calls of rounds still under way + 1 if success is recorded.
   */
  lemma {:induction false} DeliveriesAddUp(c: Config, actors: nat, clock: int, actions: seq<Action>, name: Name,
                                           l: string)
    requires WellFormed(c) && IsLabel(c, l)
    ensures Accounted(c, Run(c, Start(actors, clock), actions), name, l)
  {
    if actions == [] {
      IdleInFlight(c, Start(actors, clock).actors);
    } else {
      var k := |actions| - 1;
      DeliveriesAddUp(c, actors, clock, actions[..k], name, l);
      EveryHistoryIsLawful(c, actors, clock, actions[..k]);
      StepAccounts(c, Run(c, Start(actors, clock), actions[..k]), actions[k], name, l);
    }
  }

  /** A write may lengthen an object's history but never deletes it. */
  lemma WriteNeverDeletes(objects: Objects, from: Snapshot, content: Content, cause: Cause, fault: Fault, name: Name)
    requires name in objects
    ensures var after := Write(objects, from, content, cause, fault).objects;
            name in after && after[name].gone == objects[name].gone
  {
  }

  lemma CommitNeverDeletes(c: Config, s: State, i: nat, fault: Fault, name: Name)
    requires name in s.objects
    ensures var after := ExecCommit(c, s, i, fault).objects;
            name in after && after[name].gone == s.objects[name].gone
  {
    if i < |s.actors| && s.actors[i].Ready? && |s.actors[i].outcomes| == |c.processors| {
      var r := s.actors[i];
      var plan := PlanRound(c, r.from.content.annotations, r.outcomes, r.at, r.stamp);
      WriteNeverDeletes(s.objects, r.from, Overlay(r.from.content, plan),
                        Round(r.outcomes, r.at, r.stamp, plan.failing), fault, name);
    }
  }

  lemma ClearNeverDeletes(s: State, i: nat, at: int, fault: Fault, name: Name)
    requires name in s.objects
    ensures var after := ExecClear(s, i, at, fault).objects;
            name in after && after[name].gone == s.objects[name].gone
  {
  }

  lemma DeletionNeedsBurn(c: Config, s: State, a: Action, name: Name)
    requires !a.RemoveOutside? && name in s.objects && !s.objects[name].gone
    requires name in Exec(c, s, a).objects && Exec(c, s, a).objects[name].gone
    ensures a.BurnNext? && a.actor < |s.actors| && s.actors[a.actor].Burning? && s.actors[a.actor].items != []
    ensures s.actors[a.actor].items[0].name == name && Marked(s.actors[a.actor].items[0].content)
  {
    if !WritesObjects(a) {
      OthersOnlyRead(c, s, a);
    } else if a.Commit? {
      CommitNeverDeletes(c, s, a.actor, a.fault, name);
    } else if a.ClearNext? {
      ClearNeverDeletes(s, a.actor, a.at, a.fault, name);
    }
  }

  /** An object is never removed by this controller before every active processor returned nil for it. */
  lemma BurnsOnlyDelivered(c: Config, actors: nat, clock: int, actions: seq<Action>, a: Action, name: Name)
    requires WellFormed(c) && !a.RemoveOutside?
    requires var s := Run(c, Start(actors, clock), actions);
             name in s.objects && !s.objects[name].gone &&
             name in Exec(c, s, a).objects && Exec(c, s, a).objects[name].gone
    ensures var s := Run(c, Start(actors, clock), actions);
            && s.objects[name].revisions != [] && Marked(Latest(s.objects, name))
                 && AllSucceeded(c, Latest(s.objects, name))
            && forall l | IsLabel(c, l) :: (name, l) in s.delivered
  {
    var s := Run(c, Start(actors, clock), actions);
    EveryHistoryIsLawful(c, actors, clock, actions);
    DeletionNeedsBurn(c, s, a, name);
    BurnedWasProcessed(c, s, a.actor);
    forall l | IsLabel(c, l)
      ensures (name, l) in s.delivered
    {
      DeliveriesAddUp(c, actors, clock, actions, name, l);
    }
  }

  /** However old the tick's list is, a listed processed mark still holds on the stored object. */
  lemma BurnedWasProcessed(c: Config, s: State, i: nat)
    requires WellFormed(c) && Inv(c, s) && i < |s.actors| && s.actors[i].Burning? && s.actors[i].items != []
    requires Marked(s.actors[i].items[0].content)
    ensures var name := s.actors[i].items[0].name;
            && name in s.objects && s.objects[name].revisions != []
            && Marked(Latest(s.objects, name)) && AllSucceeded(c, Latest(s.objects, name))
  {
    assert ActorOk(c, s.objects, s.actors[i]);
    var item := s.actors[i].items[0];
    var revisions := s.objects[item.name].revisions;
    assert SnapshotOk(s.objects, item);
    ProcessedIsFinal(c, revisions, item.version, |revisions| - 1);
  }
}
