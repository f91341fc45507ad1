/**
 The delivery protocol as one state machine: reconcile workers, cron ticks, the informer cache, the
 work queue, other writers and process restarts, interleaved step by step over the stored objects.
 An action that is not possible in a state leaves it unchanged, so every list of actions is a run.
 */
module Protocol {
  import opened ConfigMaps
  import opened Faults
  import opened History
  import opened Store

  /** A goroutine: idle, inside a reconcile round, or inside a tick of one of the two crons. */
  datatype Actor =
    | Idle
    | Working(from: Snapshot, outcomes: seq<Outcome>)
    | Ready(from: Snapshot, outcomes: seq<Outcome>, at: int, stamp: string)
    | Clearing(items: seq<Snapshot>, failed: bool, since: int)
    | Burning(items: seq<Snapshot>)

  /** One nil-returning `PostProcess` call, by object and processor label. */
  type Delivery = (Name, string)

  /**
   `cache` is the informer's latest observed version of each object. `delivered` counts every
   nil-returning call ever made and `lost` those of rounds whose Update was never applied.
   */
  datatype State = State(
    objects: Objects,
    cache: map<Name, nat>,
    queue: set<Name>,
    actors: seq<Actor>,
    clock: int,
    delivered: multiset<Delivery>,
    lost: multiset<Delivery>)

  /** How the Get of the object's namespace goes; namespaces have a cache of their own. */
  datatype Answer = NamespaceFound | NamespaceMissing | GetError

  datatype Action =
    | Elapse(nanoseconds: nat)
    | Create(name: Name, content: Content)
    | WriteOutside(name: Name, content: Content)
    | RemoveOutside(name: Name)
    | Observe(name: Name, version: nat)
    | Forget(name: Name)
    | Fetch(actor: nat, name: Name, answer: Answer)
    | CallNext(actor: nat, outcome: Outcome)
    | Prepare(actor: nat, stamp: string)
    | Commit(actor: nat, fault: Fault)
    | Abort(actor: nat)
    | ListDeferred(actor: nat, picks: seq<(Name, nat)>)
    | ClearNext(actor: nat, at: int, fault: Fault)
    | ListInsights(actor: nat, picks: seq<(Name, nat)>)
    | BurnNext(actor: nat, fault: Fault)
    | Restart

  function Latest(objects: Objects, name: Name): Content
    requires name in objects && objects[name].revisions != []
  {
    objects[name].revisions[|objects[name].revisions| - 1].content
  }

  predicate InRound(a: Actor) {
    a.Working? || a.Ready?
  }

  /** The work queue never hands one key to two workers at a time. */
  predicate Held(actors: seq<Actor>, name: Name) {
    exists i | 0 <= i < |actors| :: InRound(actors[i]) && actors[i].from.name == name
  }

  /** The nil-returning calls among the first `|outcomes|` processors of a round. */
  function NilCalls(c: Config, from: Snapshot, outcomes: seq<Outcome>): multiset<Delivery>
    requires |outcomes| <= |c.processors|
  {
    if outcomes == [] then multiset{}
    else
      var k := |outcomes| - 1;
      NilCalls(c, from, outcomes[..k]) + NilCall(c, from, k, outcomes[k])
  }

  function NilCall(c: Config, from: Snapshot, k: nat, outcome: Outcome): multiset<Delivery>
    requires k < |c.processors|
  {
    if Calls(from.content.annotations, c.processors[k]) && outcome.Delivered?
    then multiset{(from.name, c.processors[k].value)} else multiset{}
  }

  function Pending(c: Config, a: Actor): multiset<Delivery> {
    if InRound(a) && |a.outcomes| <= |c.processors| then NilCalls(c, a.from, a.outcomes) else multiset{}
  }

  function InFlight(c: Config, actors: seq<Actor>): multiset<Delivery> {
    if actors == [] then multiset{} else Pending(c, actors[0]) + InFlight(c, actors[1..])
  }

  predicate Exists(objects: Objects, pick: (Name, nat)) {
    pick.0 in objects && pick.1 < |objects[pick.0].revisions|
  }

  function SnapshotOf(objects: Objects, pick: (Name, nat)): Snapshot
    requires Exists(objects, pick)
  {
    Snapshot(pick.0, pick.1, objects[pick.0].revisions[pick.1].content)
  }

  function Snapshots(objects: Objects, picks: seq<(Name, nat)>): seq<Snapshot>
    requires forall i | 0 <= i < |picks| :: Exists(objects, picks[i])
  {
    seq(|picks|, i requires 0 <= i < |picks| => SnapshotOf(objects, picks[i]))
  }

  /**
   A List with a label selector and `Limit: 5`, answered from any earlier versions of up to five
   objects whose labels had the key then.
   */
  ghost predicate Listed(objects: Objects, picks: seq<(Name, nat)>, key: string) {
    && 0 < |picks| <= 5
    && (forall i, j | 0 <= i < j < |picks| :: picks[i].0 != picks[j].0)
    && forall i | 0 <= i < |picks| :: Exists(objects, picks[i]) && key in SnapshotOf(objects, picks[i]).content.labels
  }

  predicate IsIdle(s: State, actor: nat) {
    actor < |s.actors| && s.actors[actor].Idle?
  }

  function Rest(items: seq<Snapshot>, next: Actor): Actor {
    if |items| <= 1 then Idle else next
  }

  predicate OfRound(a: Action) {
    a.Fetch? || a.CallNext? || a.Prepare? || a.Commit? || a.Abort?
  }

  predicate OfTick(a: Action) {
    a.ListDeferred? || a.ClearNext? || a.ListInsights? || a.BurnNext?
  }

  ghost function Exec(c: Config, s: State, a: Action): State {
    match a
    case Elapse(d) => s.(clock := s.clock + d)
    case Create(name, content) => ExecCreate(c, s, name, content)
    case WriteOutside(name, content) => ExecOutside(c, s, name, content)
    case RemoveOutside(name) => s.(objects := Erase(s.objects, name, NoFault))
    case Observe(name, version) => ExecObserve(s, name, version)
    case Forget(name) => ExecForget(s, name)
    case Fetch(i, name, answer) => ExecFetch(s, i, name, answer)
    case CallNext(i, outcome) => ExecCall(c, s, i, outcome)
    case Prepare(i, stamp) => ExecPrepare(c, s, i, stamp)
    case Commit(i, fault) => ExecCommit(c, s, i, fault)
    case Abort(i) => ExecAbort(c, s, i)
    case ListDeferred(i, picks) => ExecListDeferred(s, i, picks)
    case ClearNext(i, at, fault) => ExecClear(s, i, at, fault)
    case ListInsights(i, picks) => ExecListInsights(s, i, picks)
    case BurnNext(i, fault) => ExecBurn(s, i, fault)
    case Restart => ExecRestart(c, s)
  }

  ghost function ExecListDeferred(s: State, i: nat, picks: seq<(Name, nat)>): State {
    if !(IsIdle(s, i) && Listed(s.objects, picks, DEFERRED)) then s
    else s.(actors := s.actors[i := Clearing(Snapshots(s.objects, picks), false, s.clock)])
  }

  ghost function ExecListInsights(s: State, i: nat, picks: seq<(Name, nat)>): State {
    if !(IsIdle(s, i) && Listed(s.objects, picks, INSIGHTS)) then s
    else s.(actors := s.actors[i := Burning(Snapshots(s.objects, picks))])
  }

  /** A new name appears, with none of the keys only this controller writes. */
  ghost function ExecCreate(c: Config, s: State, name: Name, content: Content): State {
    if name in s.objects || !Fresh(c, content) then s
    else s.(objects := s.objects[name := Stored([Revision(content, Created)], false)])
  }

  predicate Live(objects: Objects, name: Name) {
    name in objects && !objects[name].gone && objects[name].revisions != []
  }

  ghost predicate MayWrite(c: Config, s: State, name: Name, content: Content) {
    Live(s.objects, name) && SameProtocolKeys(c, Latest(s.objects, name), content)
  }

  /** Another writer changes anything but those keys. */
  ghost function ExecOutside(c: Config, s: State, name: Name, content: Content): State {
    if !MayWrite(c, s, name, content) then s
    else s.(objects := Append(s.objects, name, Revision(content, Outside)))
  }

  function ExecForget(s: State, name: Name): State {
    if name in s.objects && s.objects[name].gone then s.(cache := s.cache - {name}) else s
  }

  /** The loop is over: `Reconcile` reads the clock and fixes what it will write. */
  function ExecPrepare(c: Config, s: State, i: nat, stamp: string): State {
    if !(i < |s.actors| && s.actors[i].Working? && |s.actors[i].outcomes| == |c.processors|) then s
    else s.(actors := s.actors[i := Ready(s.actors[i].from, s.actors[i].outcomes, s.clock, stamp)])
  }

  /** A round or tick dies half-way (a recovered panic, say); a round's key is queued again. */
  function ExecAbort(c: Config, s: State, i: nat): State {
    if !(i < |s.actors|) then s
    else s.(actors := s.actors[i := Idle],
            queue := if InRound(s.actors[i]) then s.queue + {s.actors[i].from.name} else s.queue,
            lost := s.lost + Pending(c, s.actors[i]))
  }

  function ExecBurn(s: State, i: nat, fault: Fault): State {
    if !(i < |s.actors| && s.actors[i].Burning? && s.actors[i].items != []) then s
    else
      var items := s.actors[i].items;
      s.(objects := BurnItem(s.objects, items[0], fault),
         actors := s.actors[i := Rest(items, Burning(items[1..]))])
  }

  /** The whole process restarts: cache, queue and goroutines are gone, the stored objects are not. */
  function ExecRestart(c: Config, s: State): State {
    s.(actors := seq(|s.actors|, i => Idle), queue := {}, cache := map[],
       lost := s.lost + InFlight(c, s.actors))
  }

  /** The informer announces versions in order, and may announce the one it has again. */
  predicate MayObserve(s: State, name: Name, version: nat) {
    Exists(s.objects, (name, version)) && (name in s.cache ==> s.cache[name] <= version)
  }

  /** The informer delivers an event: the cache moves forward and an accepted object is queued. */
  function ExecObserve(s: State, name: Name, version: nat): State {
    if !MayObserve(s, name, version) then s
    else s.(cache := s.cache[name := version],
            queue := if Accepts(SnapshotOf(s.objects, (name, version)).content) then s.queue + {name} else s.queue)
  }

  /** A worker may take this key: it is queued and no other worker has it. */
  predicate MayTake(s: State, i: nat, name: Name) {
    IsIdle(s, i) && name in s.queue && !Held(s.actors, name)
  }

  /** What `Reconcile` Gets for a key: the cached object, if its namespace is found too. */
  function Lookup(s: State, name: Name, answer: Answer): Got {
    if answer.GetError? then GetFailed
    else if answer.NamespaceMissing? || !(name in s.cache && Exists(s.objects, (name, s.cache[name]))) then NotFound
    else Found(SnapshotOf(s.objects, (name, s.cache[name])))
  }

  /**
   A worker takes a key and Gets the object and its namespace from the caches; no event predicate is
   rechecked. Anything not found drops the key; a failing Get or an unrecognised type queues it again.
   */
  function ExecFetch(s: State, i: nat, name: Name, answer: Answer): State {
    if !MayTake(s, i, name) then s
    else
      match Lookup(s, name, answer)
      case GetFailed => s
      case NotFound => s.(queue := s.queue - {name})
      case Found(from) =>
        if !Recognised(from.content.labels) then s
        else s.(actors := s.actors[i := Working(from, [])], queue := s.queue - {name})
  }

  /** One iteration of the post-processor loop; `outcome` counts only if the processor is called. */
  function ExecCall(c: Config, s: State, i: nat, outcome: Outcome): State {
    if !(i < |s.actors| && s.actors[i].Working? && |s.actors[i].outcomes| < |c.processors|) then s
    else
      var w := s.actors[i];
      s.(actors := s.actors[i := Working(w.from, w.outcomes + [outcome])],
         delivered := s.delivered + NilCall(c, w.from, |w.outcomes|, outcome))
  }

  /** The closing Update; a round whose Update reports an error is queued again. */
  function ExecCommit(c: Config, s: State, i: nat, fault: Fault): State {
    if !(i < |s.actors| && s.actors[i].Ready? && |s.actors[i].outcomes| == |c.processors|) then s
    else
      var r := s.actors[i];
      var w := CommitRound(c, s.objects, r.from, r.outcomes, r.at, r.stamp, fault);
      s.(objects := w.objects,
         queue := if w.ok then s.queue else s.queue + {r.from.name},
         actors := s.actors[i := Idle],
         lost := if Applies(s.objects, r.from, fault) then s.lost else s.lost + Pending(c, r))
  }

  /** One item of a deferred-clear tick, with the clock it read at some moment since the last one. */
  function ExecClear(s: State, i: nat, at: int, fault: Fault): State {
    if !(i < |s.actors| && s.actors[i].Clearing? && s.actors[i].items != []
         && s.actors[i].since <= at <= s.clock) then s
    else
      var items := s.actors[i].items;
      var t := ClearItem(s.objects, items[0], s.actors[i].failed, at, fault);
      s.(objects := t.objects, actors := s.actors[i := Rest(items, Clearing(items[1..], t.failed, at))])
  }

  function Start(actors: nat, clock: int): State {
    State(map[], map[], {}, seq(actors, i => Idle), clock, multiset{}, multiset{})
  }

  /** The state after a list of actions. */
  ghost function Run(c: Config, s: State, actions: seq<Action>): State {
    if actions == [] then s
    else Exec(c, Run(c, s, actions[..|actions| - 1]), actions[|actions| - 1])
  }

  lemma {:induction false} RunAppend(c: Config, s: State, first: seq<Action>, second: seq<Action>)
    ensures Run(c, s, first + second) == Run(c, Run(c, s, first), second)
  {
    if second == [] {
      assert first + second == first;
    } else {
      var k := |second| - 1;
      RunAppend(c, s, first, second[..k]);
      assert (first + second)[..|first + second| - 1] == first + second[..k];
    }
  }

  // ---- The invariant ------------------------------------------------------------------------

  ghost predicate SnapshotOk(objects: Objects, from: Snapshot) {
    Exists(objects, (from.name, from.version)) && from == SnapshotOf(objects, (from.name, from.version))
  }

  ghost predicate ActorOk(c: Config, objects: Objects, a: Actor) {
    match a
    case Idle => true
    case Working(from, outcomes) =>
      SnapshotOk(objects, from) && Recognised(from.content.labels) && |outcomes| <= |c.processors|
    case Ready(from, outcomes, _, _) =>
      SnapshotOk(objects, from) && Recognised(from.content.labels) && |outcomes| == |c.processors|
    case Clearing(items, _, _) => items != [] && forall k | 0 <= k < |items| :: SnapshotOk(objects, items[k])
    case Burning(items) => items != [] && forall k | 0 <= k < |items| :: SnapshotOk(objects, items[k])
  }

  ghost predicate ObjectsLawful(c: Config, objects: Objects) {
    forall n | n in objects :: Lawful(c, objects[n].revisions)
  }

  ghost predicate ActorsOk(c: Config, objects: Objects, actors: seq<Actor>) {
    forall i | 0 <= i < |actors| :: ActorOk(c, objects, actors[i])
  }

  /** Objects keep their past: histories only grow and a deleted object stays deleted. */
  ghost predicate Grows(before: Objects, after: Objects) {
    forall n | n in before ::
      n in after && before[n].revisions <= after[n].revisions && (before[n].gone ==> after[n].gone)
  }

  ghost predicate Inv(c: Config, s: State) {
    ObjectsLawful(c, s.objects) && ActorsOk(c, s.objects, s.actors)
  }

  lemma ActorsKept(c: Config, before: Objects, after: Objects, actors: seq<Actor>)
    requires Grows(before, after) && ActorsOk(c, before, actors)
    ensures ActorsOk(c, after, actors)
  {
    forall i | 0 <= i < |actors|
      ensures ActorOk(c, after, actors[i])
    {
      assert ActorOk(c, before, actors[i]);
    }
  }

  lemma OneActorChanges(c: Config, objects: Objects, actors: seq<Actor>, i: nat, a: Actor)
    requires ActorsOk(c, objects, actors) && i < |actors| && ActorOk(c, objects, a)
    ensures ActorsOk(c, objects, actors[i := a])
  {
  }

  lemma AppendKeeps(c: Config, objects: Objects, name: Name, r: Revision)
    requires ObjectsLawful(c, objects) && name in objects
    requires Follows(c, Latest(objects, name), r)
    ensures ObjectsLawful(c, Append(objects, name, r)) && Grows(objects, Append(objects, name, r))
  {
    AppendLawful(c, objects[name].revisions, r);
  }

  lemma CreateKeeps(c: Config, s: State, name: Name, content: Content)
    requires ObjectsLawful(c, s.objects)
    ensures var after := ExecCreate(c, s, name, content).objects;
            ObjectsLawful(c, after) && Grows(s.objects, after)
  {
  }

  lemma OutsideKeeps(c: Config, s: State, name: Name, content: Content)
    requires ObjectsLawful(c, s.objects)
    ensures var after := ExecOutside(c, s, name, content).objects;
            ObjectsLawful(c, after) && Grows(s.objects, after)
  {
    if name in s.objects && SameProtocolKeys(c, Latest(s.objects, name), content) {
      AppendKeeps(c, s.objects, name, Revision(content, Outside));
    }
  }

  lemma WriteKeeps(c: Config, objects: Objects, from: Snapshot, content: Content, cause: Cause, fault: Fault)
    requires ObjectsLawful(c, objects) && SnapshotOk(objects, from)
             && Follows(c, from.content, Revision(content, cause))
    ensures var after := Write(objects, from, content, cause, fault).objects;
            ObjectsLawful(c, after) && Grows(objects, after)
  {
    if Applies(objects, from, fault) {
      AppendKeeps(c, objects, from.name, Revision(content, cause));
    }
  }

  lemma CommitKeeps(c: Config, s: State, i: nat, fault: Fault)
    requires Inv(c, s)
    ensures var after := ExecCommit(c, s, i, fault).objects;
            ObjectsLawful(c, after) && Grows(s.objects, after)
  {
    if i < |s.actors| && s.actors[i].Ready? {
      var r := s.actors[i];
      assert ActorOk(c, s.objects, r);
      var plan := PlanRound(c, r.from.content.annotations, r.outcomes, r.at, r.stamp);
      WriteKeeps(c, s.objects, r.from, Overlay(r.from.content, plan), Round(r.outcomes, r.at, r.stamp, plan.failing),
                 fault);
    }
  }

  lemma ClearKeeps(c: Config, s: State, i: nat, at: int, fault: Fault)
    requires Inv(c, s)
    ensures var after := ExecClear(s, i, at, fault).objects;
            ObjectsLawful(c, after) && Grows(s.objects, after)
  {
    if i < |s.actors| && s.actors[i].Clearing? && s.actors[i].items != [] {
      assert ActorOk(c, s.objects, s.actors[i]);
      var item := s.actors[i].items[0];
      if DEFERRED in item.content.labels && Expired(item.content.labels[DEFERRED], at) {
        WriteKeeps(c, s.objects, item, Undeferred(item.content), Released(at), fault);
      }
    }
  }

  lemma EraseKeeps(c: Config, objects: Objects, name: Name, fault: Fault)
    requires ObjectsLawful(c, objects)
    ensures ObjectsLawful(c, Erase(objects, name, fault)) && Grows(objects, Erase(objects, name, fault))
  {
  }

  lemma BurnKeeps(c: Config, s: State, i: nat, fault: Fault)
    requires ObjectsLawful(c, s.objects)
    ensures ObjectsLawful(c, ExecBurn(s, i, fault).objects) && Grows(s.objects, ExecBurn(s, i, fault).objects)
  {
    if i < |s.actors| && s.actors[i].Burning? && s.actors[i].items != [] {
      EraseKeeps(c, s.objects, s.actors[i].items[0].name, fault);
    }
  }

  predicate WritesObjects(a: Action) {
    a.Create? || a.WriteOutside? || a.RemoveOutside? || a.Commit? || a.ClearNext? || a.BurnNext?
  }

  lemma OthersOnlyRead(c: Config, s: State, a: Action)
    requires !WritesObjects(a)
    ensures Exec(c, s, a).objects == s.objects
  {
  }

  lemma ExecKeeps(c: Config, s: State, a: Action)
    requires Inv(c, s)
    ensures ObjectsLawful(c, Exec(c, s, a).objects) && Grows(s.objects, Exec(c, s, a).objects)
  {
    if a.Create? {
      CreateKeeps(c, s, a.name, a.content);
    } else if a.WriteOutside? {
      OutsideKeeps(c, s, a.name, a.content);
    } else if a.RemoveOutside? {
      EraseKeeps(c, s.objects, a.name, NoFault);
    } else if a.Commit? {
      CommitKeeps(c, s, a.actor, a.fault);
    } else if a.ClearNext? {
      ClearKeeps(c, s, a.actor, a.at, a.fault);
    } else if a.BurnNext? {
      BurnKeeps(c, s, a.actor, a.fault);
    } else {
      OthersOnlyRead(c, s, a);
    }
  }

  lemma ClearKeepsActors(c: Config, s: State, i: nat, at: int, fault: Fault)
    requires Inv(c, s)
    ensures ActorsOk(c, s.objects, ExecClear(s, i, at, fault).actors)
  {
    if ExecClear(s, i, at, fault) != s {
      var items := s.actors[i].items;
      assert ActorOk(c, s.objects, s.actors[i]);
      assert forall k | 0 <= k < |items[1..]| :: items[1..][k] == items[k + 1];
      OneActorChanges(c, s.objects, s.actors, i, ExecClear(s, i, at, fault).actors[i]);
    }
  }

  lemma BurnKeepsActors(c: Config, s: State, i: nat, fault: Fault)
    requires Inv(c, s)
    ensures ActorsOk(c, s.objects, ExecBurn(s, i, fault).actors)
  {
    if i < |s.actors| && s.actors[i].Burning? && s.actors[i].items != [] {
      var items := s.actors[i].items;
      assert ActorOk(c, s.objects, s.actors[i]);
      assert forall k | 0 <= k < |items[1..]| :: items[1..][k] == items[k + 1];
      OneActorChanges(c, s.objects, s.actors, i, Rest(items, Burning(items[1..])));
    }
  }

  lemma ListKeepsActors(c: Config, s: State, a: Action)
    requires Inv(c, s) && (a.ListDeferred? || a.ListInsights?)
    ensures ActorsOk(c, s.objects, Exec(c, s, a).actors)
  {
    if Exec(c, s, a) != s {
      OneActorChanges(c, s.objects, s.actors, a.actor, Exec(c, s, a).actors[a.actor]);
    }
  }

  lemma RoundKeepsActors(c: Config, s: State, a: Action)
    requires Inv(c, s) && (a.Fetch? || a.CallNext? || a.Prepare?)
    ensures ActorsOk(c, s.objects, Exec(c, s, a).actors)
  {
    if Exec(c, s, a).actors != s.actors {
      assert ActorOk(c, s.objects, s.actors[a.actor]);
      OneActorChanges(c, s.objects, s.actors, a.actor, Exec(c, s, a).actors[a.actor]);
    }
  }

  lemma ExecKeepsActors(c: Config, s: State, a: Action)
    requires Inv(c, s)
    ensures ActorsOk(c, s.objects, Exec(c, s, a).actors)
  {
    match a
    case Fetch(_, _, _) => RoundKeepsActors(c, s, a);
    case CallNext(_, _) => RoundKeepsActors(c, s, a);
    case Prepare(_, _) => RoundKeepsActors(c, s, a);
    case ListDeferred(_, _) => ListKeepsActors(c, s, a);
    case ListInsights(_, _) => ListKeepsActors(c, s, a);
    case ClearNext(i, at, fault) => ClearKeepsActors(c, s, i, at, fault);
    case BurnNext(i, fault) => BurnKeepsActors(c, s, i, fault);
    case _ =>
  }

  /** One step keeps the invariant, extends histories, and never revives a deleted object. */
  lemma StepKeeps(c: Config, s: State, a: Action)
    requires Inv(c, s)
    ensures Inv(c, Exec(c, s, a)) && Grows(s.objects, Exec(c, s, a).objects)
  {
    ExecKeeps(c, s, a);
    ExecKeepsActors(c, s, a);
    ActorsKept(c, s.objects, Exec(c, s, a).objects, Exec(c, s, a).actors);
  }

  /** In every reachable state every object's history is lawful, whatever the interleaving was. */
  lemma {:induction false} EveryHistoryIsLawful(c: Config, actors: nat, clock: int, actions: seq<Action>)
    ensures Inv(c, Run(c, Start(actors, clock), actions))
  {
    if actions != [] {
      var k := |actions| - 1;
      EveryHistoryIsLawful(c, actors, clock, actions[..k]);
      StepKeeps(c, Run(c, Start(actors, clock), actions[..k]), actions[k]);
    }
  }

  lemma {:induction false} RunGrows(c: Config, s: State, actions: seq<Action>)
    requires Inv(c, s)
    ensures Inv(c, Run(c, s, actions)) && Grows(s.objects, Run(c, s, actions).objects)
  {
    if actions != [] {
      var k := |actions| - 1;
      RunGrows(c, s, actions[..k]);
      StepKeeps(c, Run(c, s, actions[..k]), actions[k]);
    }
  }
}
