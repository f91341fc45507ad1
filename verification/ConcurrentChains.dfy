/**
 Several post-processors growing parent chains on the same Dependency Track server, one call at a time
 and interleaved in any way: what still holds, and exactly when two active projects get one name.
 */
module ConcurrentChains {
  import opened Faults
  import opened Options
  import opened ProjectForest

  /**
   Where a chain is: before looking `name` up, before fetching `ids[0]`, or before creating `name`,
   which was not in use when it was looked up and there were `seen` projects. `rest` are the names still to come.
   */
  datatype Worker =
    | Finished(ok: bool, project: Option<nat>)
    | Looking(name: string, rest: seq<string>, parent: Option<nat>)
    | Searching(name: string, rest: seq<string>, under: nat, ids: seq<nat>)
    | Creating(name: string, rest: seq<string>, parent: Option<nat>, seen: nat)

  datatype State = State(forest: Forest, workers: seq<Worker>)

  /** A worker that is free starts a chain, or a busy one makes its next call. */
  datatype Action =
    | Begin(worker: nat, names: seq<string>)
    | Call(worker: nat, fault: Fault)

  const FAILED := Finished(false, None)

  function ToGo(names: seq<string>, project: Option<nat>): Worker {
    if names == [] then Finished(true, project) else Looking(names[0], names[1..], project)
  }

  /** One call to the server, as `getOrCreateProject` and the parent loop make them. */
  function Advance(f: Forest, w: Worker, fault: Fault): (Forest, Worker) {
    match w
    case Finished(_, _) => (f, w)
    case Looking(name, rest, parent) =>
      var ids := Matches(f, name);
      if fault != NoFault then (f, FAILED)
      else if ids == [] then (f, Creating(name, rest, parent, |f|))
      else (match parent
            case None => (f, ToGo(rest, Some(ids[0])))
            case Some(id) => (f, Searching(name, rest, id, ids)))
    case Searching(name, rest, under, ids) =>
      if fault != NoFault || ids == [] || ids[0] >= |f| then (f, FAILED)
      else if f[ids[0]].parent == Some(under) then (f, ToGo(rest, Some(ids[0])))
      else if |ids| == 1 then (f, FAILED)
      else (f, Searching(name, rest, under, ids[1..]))
    case Creating(name, rest, parent, _) =>
      match fault
      case Refused => (f, FAILED)
      case AnswerLost => (f + [Project(name, parent, true, true)], FAILED)
      case NoFault => (f + [Project(name, parent, true, true)], ToGo(rest, Some(|f|)))
  }

  function Next(s: State, a: Action): State {
    match a
    case Begin(i, names) =>
      if i < |s.workers| && s.workers[i].Finished? then s.(workers := s.workers[i := ToGo(names, None)]) else s
    case Call(i, fault) =>
      if i < |s.workers| then
        var (f, w) := Advance(s.forest, s.workers[i], fault);
        State(f, s.workers[i := w])
      else s
  }

  function Start(f: Forest, workers: nat): State {
    State(f, seq(workers, i => FAILED))
  }

  function Run(s: State, actions: seq<Action>): State {
    if actions == [] then s else Next(Run(s, actions[..|actions| - 1]), actions[|actions| - 1])
  }

  // ---- One worker by itself -----------------------------------------------------------------

  /** Calling on and on with nobody else around. */
  function Alone(f: Forest, w: Worker, faults: seq<Fault>): (Forest, Worker)
    decreases if w.Finished? then 0 else 1 + |w.rest|, if w.Looking? then 1 else 0, if w.Searching? then |w.ids| else 0
  {
    if w.Finished? then (f, w)
    else
      var (g, v) := Advance(f, w, Head(faults));
      Alone(g, v, Tail(faults))
  }

  lemma {:induction false} SearchAlone(f: Forest, name: string, rest: seq<string>, under: nat, ids: seq<nat>,
                                       faults: seq<Fault>)
    requires ids != [] && Known(f, ids)
    ensures var got := Search(f, ids, under, faults);
            Alone(f, Searching(name, rest, under, ids), faults) ==
            Alone(f, if got.project.None? then FAILED else ToGo(rest, got.project), got.faults)
    decreases |ids|
  {
    if |ids| > 1 {
      SearchAlone(f, name, rest, under, ids[1..], Tail(faults));
    } else {
      assert ids[1..] == [];
    }
  }

  lemma CreateAlone(f: Forest, name: string, rest: seq<string>, parent: Option<nat>, faults: seq<Fault>)
    ensures var got := Create(f, Project(name, parent, true, true), faults);
            Alone(f, Creating(name, rest, parent, |f|), faults) ==
            Alone(got.forest, if got.project.None? then FAILED else ToGo(rest, got.project), got.faults)
  {
  }

  lemma GetAlone(f: Forest, name: string, rest: seq<string>, parent: Option<nat>, faults: seq<Fault>)
    ensures var got := GetOrCreate(f, name, parent, false, faults);
            Alone(f, Looking(name, rest, parent), faults) ==
            Alone(got.forest, if got.project.None? then FAILED else ToGo(rest, got.project), got.faults)
  {
    var ids := Matches(f, name);
    MatchesAreIds(f, name);
    if Head(faults).NoFault? {
      if ids == [] {
        CreateAlone(f, name, rest, parent, Tail(faults));
      } else if parent.Some? {
        SearchOnlyReads(f, ids, parent.value, Tail(faults));
        SearchAlone(f, name, rest, parent.value, ids, Tail(faults));
      }
    }
  }

  /** How a chain attempt from `project` on ends for the worker that made it. */
  function Ending(a: Attempt, project: Option<nat>): Worker {
    if a.failed then FAILED else Finished(true, if a.path == [] then project else Some(a.path[|a.path| - 1]))
  }

  lemma EndingUnfolds(f: Forest, names: seq<string>, project: Option<nat>, faults: seq<Fault>)
    requires names != []
    ensures var got := GetOrCreate(f, names[0], project, false, faults);
            var a := Chain(f, names, project, faults);
            if got.project.None? then a.forest == got.forest && Ending(a, project) == FAILED
            else
              var rest := Chain(got.forest, names[1..], got.project, got.faults);
              a.forest == rest.forest && Ending(a, project) == Ending(rest, got.project)
  {
    var got := GetOrCreate(f, names[0], project, false, faults);
    if got.project.Some? {
      var rest := Chain(got.forest, names[1..], got.project, got.faults);
      assert Chain(f, names, project, faults) == rest.(path := [got.project.value] + rest.path);
      EndingExtends(rest, project, got.project.value);
    }
  }

  lemma EndingExtends(rest: Attempt, project: Option<nat>, id: nat)
    ensures Ending(rest.(path := [id] + rest.path), project) == Ending(rest, Some(id))
  {
  }

  /** A worker that is not disturbed does what the chain of `ProjectForest` says. */
  lemma {:induction false} AloneIsChain(f: Forest, names: seq<string>, project: Option<nat>, faults: seq<Fault>)
    ensures var a := Chain(f, names, project, faults);
            Alone(f, ToGo(names, project), faults) == (a.forest, Ending(a, project))
    decreases |names|
  {
    if names != [] {
      GetAlone(f, names[0], names[1..], project, faults);
      EndingUnfolds(f, names, project, faults);
      var got := GetOrCreate(f, names[0], project, false, faults);
      if got.project.Some? {
        AloneIsChain(got.forest, names[1..], got.project, got.faults);
      }
    }
  }

  // ---- What every interleaving keeps --------------------------------------------------------

  ghost predicate WorkerOk(f: Forest, w: Worker) {
    match w
    case Finished(_, _) => true
    case Looking(_, _, parent) => parent.Some? ==> parent.value < |f|
    case Searching(_, _, _, ids) => Known(f, ids)
    case Creating(name, _, parent, seen) =>
      && (parent.Some? ==> parent.value < |f|) && seen <= |f|
      && forall j | 0 <= j < seen :: !Named(f[j], name)
  }

  ghost predicate Inv(s: State) {
    IsForest(s.forest) && forall i | 0 <= i < |s.workers| :: WorkerOk(s.forest, s.workers[i])
  }

  lemma OkInLonger(f: Forest, g: Forest, w: Worker)
    requires f <= g && WorkerOk(f, w)
    ensures WorkerOk(g, w)
  {
  }

  lemma AdvanceKeeps(f: Forest, w: Worker, fault: Fault)
    requires IsForest(f) && WorkerOk(f, w)
    ensures var (g, v) := Advance(f, w, fault);
            f <= g && IsForest(g) && WorkerOk(g, v)
  {
    match w
    case Looking(name, _, _) =>
      MatchesAreIds(f, name);
      MatchesIffActive(f, name);
      assert Matches(f, name) != [] ==> Matches(f, name)[0] in Matches(f, name);
    case Creating(name, _, parent, _) => AppendIsForest(f, Project(name, parent, true, true));
    case _ =>
  }

  lemma NextKeeps(s: State, a: Action)
    requires Inv(s)
    ensures Inv(Next(s, a)) && s.forest <= Next(s, a).forest && |Next(s, a).workers| == |s.workers|
  {
    if a.Call? && a.worker < |s.workers| {
      AdvanceKeeps(s.forest, s.workers[a.worker], a.fault);
      var t := Next(s, a);
      forall i | 0 <= i < |t.workers|
        ensures WorkerOk(t.forest, t.workers[i])
      {
        if i != a.worker {
          OkInLonger(s.forest, t.forest, s.workers[i]);
        }
      }
    }
  }

  /** However chains interleave and fail, parents exist, links have no cycle, and nothing is lost. */
  lemma {:induction false} EveryRunKeepsForest(f: Forest, workers: nat, actions: seq<Action>)
    requires IsForest(f)
    ensures Inv(Run(Start(f, workers), actions)) && f <= Run(Start(f, workers), actions).forest
    ensures |Run(Start(f, workers), actions).workers| == workers
  {
    if actions != [] {
      EveryRunKeepsForest(f, workers, actions[..|actions| - 1]);
      NextKeeps(Run(Start(f, workers), actions[..|actions| - 1]), actions[|actions| - 1]);
    }
  }

  // ---- When names stay unique ---------------------------------------------------------------

  /** This call creates a name that somebody else has created since it was looked up. */
  ghost predicate Races(s: State, a: Action) {
    && a.Call? && a.worker < |s.workers| && s.workers[a.worker].Creating? && a.fault != Refused
    && var w := s.workers[a.worker];
       exists j | w.seen <= j < |s.forest| :: Named(s.forest[j], w.name)
  }

  lemma AppendUnique(f: Forest, p: Project)
    requires p.active
    ensures UniqueActive(f + [p]) <==> UniqueActive(f) && forall j | 0 <= j < |f| :: !Named(f[j], p.name)
  {
    var g := f + [p];
    assert forall j | 0 <= j < |f| :: g[j] == f[j];
    assert g[|f|] == p;
    if UniqueActive(g) {
      forall j | 0 <= j < |f|
        ensures !Named(f[j], p.name)
      {
        assert g[j].active && g[|f|].active ==> g[j].name != g[|f|].name;
      }
    }
  }

  lemma NextUnique(s: State, a: Action)
    requires Inv(s)
    ensures UniqueActive(Next(s, a).forest) <==> UniqueActive(s.forest) && !Races(s, a)
  {
    if a.Call? && a.worker < |s.workers| && s.workers[a.worker].Creating? && a.fault != Refused {
      var w := s.workers[a.worker];
      assert WorkerOk(s.forest, w);
      AppendUnique(s.forest, Project(w.name, w.parent, true, true));
    }
  }

  ghost predicate RacesAt(s: State, actions: seq<Action>, k: nat)
    requires k < |actions|
  {
    Races(Run(s, actions[..k]), actions[k])
  }

  lemma PrefixAlike(s: State, actions: seq<Action>, n: nat, k: nat)
    requires k < n <= |actions|
    ensures RacesAt(s, actions[..n], k) == RacesAt(s, actions, k)
  {
    assert actions[..n][..k] == actions[..k];
  }

  /** From unique active names, a run ends with unique active names if and only if no create raced. */
  lemma {:induction false} UniqueIffNoRace(f: Forest, workers: nat, actions: seq<Action>)
    requires Good(f)
    ensures UniqueActive(Run(Start(f, workers), actions).forest) <==>
            forall k | 0 <= k < |actions| :: !RacesAt(Start(f, workers), actions, k)
  {
    if actions != [] {
      var s, last := Start(f, workers), |actions| - 1;
      UniqueIffNoRace(f, workers, actions[..last]);
      EveryRunKeepsForest(f, workers, actions[..last]);
      NextUnique(Run(s, actions[..last]), actions[last]);
      forall k | 0 <= k < last
        ensures RacesAt(s, actions[..last], k) == RacesAt(s, actions, k)
      {
        PrefixAlike(s, actions, last, k);
      }
      assert RacesAt(s, actions, last) == Races(Run(s, actions[..last]), actions[last]);
    }
  }

  /** Both workers look the name up before either creates it. */
  lemma TwoWorkersCanRace(name: string)
    ensures var actions := [Begin(0, [name]), Begin(1, [name]), Call(0, NoFault), Call(1, NoFault), Call(0, NoFault),
                            Call(1, NoFault)];
            Run(Start([], 2), actions).forest == [Project(name, None, true, true), Project(name, None, true, true)]
  {
    var actions := [Begin(0, [name]), Begin(1, [name]), Call(0, NoFault), Call(1, NoFault), Call(0, NoFault),
                    Call(1, NoFault)];
    var s := Start([], 2);
    assert Run(s, actions[..0]) == s;
    RunOn(s, actions, 0);
    RunOn(s, actions, 1);
    RunOn(s, actions, 2);
    RunOn(s, actions, 3);
    RunOn(s, actions, 4);
    RunOn(s, actions, 5);
    assert actions[..6] == actions;
  }

  lemma RunOn(s: State, actions: seq<Action>, k: nat)
    requires k < |actions|
    ensures Run(s, actions[..k + 1]) == Next(Run(s, actions[..k]), actions[k])
  {
    assert actions[..k + 1][..k] == actions[..k];
  }

  // ---- A way to exclude races ---------------------------------------------------------------

  /** Each worker only ever gets names of its own set. */
  ghost predicate Separate(owned: seq<set<string>>, actions: seq<Action>) {
    && (forall i, j | 0 <= i < j < |owned| :: owned[i] !! owned[j])
    && forall k | 0 <= k < |actions| && actions[k].Begin? && actions[k].worker < |owned| ::
         forall n | n in actions[k].names :: n in owned[actions[k].worker]
  }

  ghost predicate WorkerKeepsTo(f: Forest, w: Worker, owned: set<string>) {
    && (!w.Finished? ==> w.name in owned && forall n | n in w.rest :: n in owned)
    && (w.Creating? ==> forall j | w.seen <= j < |f| && f[j].active :: f[j].name !in owned)
  }

  ghost predicate AllKeepTo(s: State, owned: seq<set<string>>) {
    |s.workers| == |owned| && forall i | 0 <= i < |owned| :: WorkerKeepsTo(s.forest, s.workers[i], owned[i])
  }

  lemma AdvanceKeepsTo(f: Forest, w: Worker, fault: Fault, owned: set<string>)
    requires WorkerOk(f, w) && WorkerKeepsTo(f, w, owned)
    ensures var (g, v) := Advance(f, w, fault);
            && WorkerKeepsTo(g, v, owned)
            && (g == f || (|g| == |f| + 1 && g[..|f|] == f && g[|f|].name in owned))
  {
  }

  lemma NextKeepsTo(s: State, a: Action, owned: seq<set<string>>)
    requires Inv(s) && AllKeepTo(s, owned) && Separate(owned, [a])
    ensures AllKeepTo(Next(s, a), owned) && !Races(s, a)
  {
    var t := Next(s, a);
    if a.Begin? {
      assert [a][0] == a;
    } else if a.worker < |s.workers| {
      var w := s.workers[a.worker];
      assert WorkerKeepsTo(s.forest, w, owned[a.worker]);
      AdvanceKeepsTo(s.forest, w, a.fault, owned[a.worker]);
      forall i | 0 <= i < |owned|
        ensures WorkerKeepsTo(t.forest, t.workers[i], owned[i])
      {
        if i != a.worker {
          assert WorkerKeepsTo(s.forest, s.workers[i], owned[i]);
          assert owned[i] !! owned[a.worker];
        }
      }
    }
  }

  /** Workers whose chains share no names never race, so active names stay unique. */
  lemma {:induction false} SeparateNamesStayUnique(f: Forest, owned: seq<set<string>>, actions: seq<Action>)
    requires Good(f) && Separate(owned, actions)
    ensures var s := Run(Start(f, |owned|), actions);
            AllKeepTo(s, owned) && UniqueActive(s.forest)
  {
    if actions != [] {
      var last := |actions| - 1;
      SeparateNamesStayUnique(f, owned, actions[..last]);
      EveryRunKeepsForest(f, |owned|, actions[..last]);
      var s := Run(Start(f, |owned|), actions[..last]);
      NextKeepsTo(s, actions[last], owned);
      NextUnique(s, actions[last]);
    }
  }
}
