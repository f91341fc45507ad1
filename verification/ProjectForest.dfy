/**
 The Dependency Track projects on the server, and what getting or creating a chain of parent projects
 does to them when any server call may fail, before or after it took effect.
 */
module ProjectForest {
  import opened Faults
  import opened Options

  /** A project's identity is its position in creation order; `aggregates` is its collection logic. */
  datatype Project = Project(name: string, parent: Option<nat>, active: bool, aggregates: bool)
  type Forest = seq<Project>

  predicate Named(p: Project, name: string) {
    p.active && p.name == name
  }

  /** `GetProjectsForName` with inactive projects excluded, in creation order. */
  function Matches(f: Forest, name: string): seq<nat> {
    if f == [] then []
    else
      var k := |f| - 1;
      Matches(f[..k], name) + (if Named(f[k], name) then [k] else [])
  }

  /** The server after a chain attempt, the projects visited, and whether it was cut short. */
  datatype Attempt = Attempt(forest: Forest, path: seq<nat>, failed: bool, faults: seq<Fault>)

  datatype Got = Got(forest: Forest, project: Option<nat>, faults: seq<Fault>)

  predicate Known(f: Forest, ids: seq<nat>) {
    forall k | 0 <= k < |ids| :: ids[k] < |f|
  }

  /** The loop over same-named projects: fetch each in full, take the first with the wanted parent. */
  function Search(f: Forest, ids: seq<nat>, parent: nat, faults: seq<Fault>): Got
    requires Known(f, ids)
  {
    if ids == [] then Got(f, None, faults)
    else if !Head(faults).NoFault? then Got(f, None, Tail(faults))
    else if f[ids[0]].parent == Some(parent) then Got(f, Some(ids[0]), Tail(faults))
    else Search(f, ids[1..], parent, Tail(faults))
  }

  /** `Create`: the server appends the project unless the call never reached it. */
  function Create(f: Forest, p: Project, faults: seq<Fault>): Got {
    match Head(faults)
    case Refused => Got(f, None, Tail(faults))
    case AnswerLost => Got(f + [p], None, Tail(faults))
    case NoFault => Got(f + [p], Some(|f|), Tail(faults))
  }

  lemma {:induction false} MatchesAreIds(f: Forest, name: string)
    ensures Known(f, Matches(f, name))
    ensures forall id: nat :: id in Matches(f, name) <==> id < |f| && Named(f[id], name)
  {
    if f != [] {
      MatchesAreIds(f[..|f| - 1], name);
    }
  }

  ghost predicate HasActive(f: Forest, name: string) {
    exists i: nat :: i < |f| && Named(f[i], name)
  }

  ghost function ActiveId(f: Forest, name: string): (id: nat)
    requires HasActive(f, name)
    ensures id < |f| && Named(f[id], name)
  {
    var id: nat :| id < |f| && Named(f[id], name);
    id
  }

  lemma MatchesIffActive(f: Forest, name: string)
    ensures Matches(f, name) != [] <==> HasActive(f, name)
  {
    MatchesAreIds(f, name);
    var ids := Matches(f, name);
    if ids != [] {
      assert ids[0] in ids;
    }
  }

  function GetOrCreate(f: Forest, name: string, parent: Option<nat>, leaf: bool, faults: seq<Fault>): Got {
    if !Head(faults).NoFault? then Got(f, None, Tail(faults))
    else
      var ids := Matches(f, name);
      if ids == [] then Create(f, Project(name, parent, true, !leaf), Tail(faults))
      else
        MatchesAreIds(f, name);
        match parent
        case Some(id) => Search(f, ids, id, Tail(faults))
        case None => Got(f, Some(ids[0]), Tail(faults))
  }

  /** The loop of `postProcess` over the parent project names, from a current project on. */
  function Chain(f: Forest, names: seq<string>, project: Option<nat>, faults: seq<Fault>): Attempt
    decreases |names|
  {
    if names == [] then Attempt(f, [], false, faults)
    else
      var got := GetOrCreate(f, names[0], project, false, faults);
      match got.project
      case None => Attempt(got.forest, [], true, got.faults)
      case Some(id) =>
        var rest := Chain(got.forest, names[1..], Some(id), got.faults);
        rest.(path := [id] + rest.path)
  }

  // ---- The forest invariant -----------------------------------------------------------------

  ghost predicate Ranked(f: Forest, rank: seq<nat>) {
    && |rank| == |f|
    && forall i | 0 <= i < |f| && f[i].parent.Some? :: f[i].parent.value < |f| && rank[f[i].parent.value] < rank[i]
  }

  /** Parents exist and parent links have no cycle. */
  ghost predicate IsForest(f: Forest) {
    exists rank :: Ranked(f, rank)
  }

  ghost predicate UniqueActive(f: Forest) {
    forall i, j | 0 <= i < j < |f| && f[i].active && f[j].active :: f[i].name != f[j].name
  }

  ghost predicate Good(f: Forest) {
    IsForest(f) && UniqueActive(f)
  }

  lemma AppendIsForest(f: Forest, p: Project)
    requires IsForest(f) && (p.parent.Some? ==> p.parent.value < |f|)
    ensures IsForest(f + [p])
  {
    var rank :| Ranked(f, rank);
    var r: nat := if p.parent.Some? then rank[p.parent.value] + 1 else 0;
    assert Ranked(f + [p], rank + [r]);
  }

  lemma AppendKeepsForest(f: Forest, p: Project)
    requires Good(f) && (p.parent.Some? ==> p.parent.value < |f|)
    requires p.active ==> forall i | 0 <= i < |f| :: !Named(f[i], p.name)
    ensures Good(f + [p])
  {
    AppendIsForest(f, p);
  }

  lemma {:induction false} SearchOnlyReads(f: Forest, ids: seq<nat>, parent: nat, faults: seq<Fault>)
    requires Known(f, ids)
    ensures var got := Search(f, ids, parent, faults);
            && got.forest == f
            && (got.project.Some? ==> got.project.value in ids && f[got.project.value].parent == Some(parent))
  {
    if ids != [] {
      SearchOnlyReads(f, ids[1..], parent, Tail(faults));
    }
  }

  /** Without faults the search takes the first listed project under the wanted parent, if there is one. */
  lemma {:induction false} SearchTakesFirst(f: Forest, ids: seq<nat>, parent: nat, i: nat)
    requires Known(f, ids) && i <= |ids| && forall j | 0 <= j < i :: f[ids[j]].parent != Some(parent)
    requires i < |ids| ==> f[ids[i]].parent == Some(parent)
    ensures Search(f, ids, parent, []).project == if i < |ids| then Some(ids[i]) else None
    decreases i
  {
    if i > 0 {
      var rest := ids[1..];
      assert forall j | 0 <= j < |rest| :: rest[j] == ids[j + 1];
      SearchTakesFirst(f, rest, parent, i - 1);
    }
  }

  lemma {:induction false} MatchesAscend(f: Forest, name: string)
    ensures forall i, j | 0 <= i < j < |Matches(f, name)| :: Matches(f, name)[i] < Matches(f, name)[j]
  {
    if f != [] {
      MatchesAscend(f[..|f| - 1], name);
      MatchesAreIds(f[..|f| - 1], name);
    }
  }

  /** What is found or created carries the name, is active, and hangs under the wanted parent. */
  ghost predicate Sits(f: Forest, id: nat, name: string, parent: Option<nat>) {
    id < |f| && Named(f[id], name) && (parent.Some? ==> f[id].parent == parent)
  }

  lemma MissingIsCreated(f: Forest, name: string, parent: Option<nat>, leaf: bool, faults: seq<Fault>)
    requires Matches(f, name) == []
    ensures var g := f + [Project(name, parent, true, !leaf)];
            var got := GetOrCreate(f, name, parent, leaf, faults);
            && (got.forest == f || got.forest == g)
            && (got.project.Some? ==> got.forest == g && got.project == Some(|f|))
  {
  }

  lemma ExistingIsTaken(f: Forest, name: string, parent: Option<nat>, leaf: bool, faults: seq<Fault>)
    requires Matches(f, name) != []
    ensures var got := GetOrCreate(f, name, parent, leaf, faults);
            got.forest == f && (got.project.Some? ==> Sits(f, got.project.value, name, parent))
  {
    MatchesAreIds(f, name);
    var ids := Matches(f, name);
    assert ids[0] in ids;
    if parent.Some? {
      SearchOnlyReads(f, ids, parent.value, Tail(faults));
    }
  }

  lemma GetOrCreateKeeps(f: Forest, name: string, parent: Option<nat>, leaf: bool, faults: seq<Fault>)
    requires Good(f) && (parent.Some? ==> parent.value < |f|)
    ensures var got := GetOrCreate(f, name, parent, leaf, faults);
            && Good(got.forest) && f <= got.forest
            && (got.project.Some? ==> Sits(got.forest, got.project.value, name, parent))
  {
    if Matches(f, name) == [] {
      MissingIsCreated(f, name, parent, leaf, faults);
      MatchesIffActive(f, name);
      AppendKeepsForest(f, Project(name, parent, true, !leaf));
    } else {
      ExistingIsTaken(f, name, parent, leaf, faults);
    }
  }

  /** The visited projects: one per name, each the parent of the next. */
  ghost predicate IsPath(f: Forest, names: seq<string>, parent: Option<nat>, path: seq<nat>) {
    |path| == |names| && forall i | 0 <= i < |path| :: Link(f, names, parent, path, i)
  }

  ghost predicate Link(f: Forest, names: seq<string>, parent: Option<nat>, path: seq<nat>, i: nat)
    requires i < |path| == |names|
  {
    Sits(f, path[i], names[i], if i == 0 then parent else Some(path[i - 1]))
  }

  /** Under any faults the forest stays a forest and keeps all its projects; success visits a path. */
  lemma {:induction false} ChainKeepsForest(f: Forest, names: seq<string>, project: Option<nat>, faults: seq<Fault>)
    requires Good(f) && (project.Some? ==> project.value < |f|)
    ensures var a := Chain(f, names, project, faults);
            && Good(a.forest) && f <= a.forest
            && (!a.failed ==> IsPath(a.forest, names, project, a.path))
    decreases |names|
  {
    if names != [] {
      GetOrCreateKeeps(f, names[0], project, false, faults);
      var got := GetOrCreate(f, names[0], project, false, faults);
      if got.project.Some? {
        ChainKeepsForest(got.forest, names[1..], got.project, got.faults);
        var rest := Chain(got.forest, names[1..], got.project, got.faults);
        if !rest.failed {
          ExtendPath(rest.forest, names, project, got.project.value, rest.path);
        }
      }
    }
  }

  lemma ExtendPath(f: Forest, names: seq<string>, parent: Option<nat>, id: nat, path: seq<nat>)
    requires names != [] && Sits(f, id, names[0], parent) && IsPath(f, names[1..], Some(id), path)
    ensures IsPath(f, names, parent, [id] + path)
  {
    var longer := [id] + path;
    forall i | 0 <= i < |longer|
      ensures Link(f, names, parent, longer, i)
    {
      if i > 0 {
        assert Link(f, names[1..], Some(id), path, i - 1);
      }
    }
  }

  lemma LastOfPath(f: Forest, names: seq<string>, path: seq<nat>)
    requires IsPath(f, names, None, path) && path != []
    ensures var last := path[|path| - 1];
            && last < |f| && Named(f[last], names[|names| - 1])
            && (|path| > 1 ==> f[last].parent == Some(path[|path| - 2]))
  {
    assert Link(f, names, None, path, |path| - 1);
  }

  // ---- Retrying after faults ----------------------------------------------------------------

  lemma {:induction false} SearchFaultFree(f: Forest, g: Forest, ids: seq<nat>, parent: nat, faults: seq<Fault>)
    requires Known(f, ids) && f <= g
    ensures Search(f, ids, parent, faults).project.Some? ==>
              Search(f, ids, parent, faults).project == Search(g, ids, parent, []).project
    ensures Search(g, ids, parent, []) == Search(f, ids, parent, []).(forest := g)
    ensures Search(f, ids, parent, faults).forest == f && Search(f, ids, parent, []).faults == []
  {
    if ids != [] {
      SearchFaultFree(f, g, ids[1..], parent, Tail(faults));
    }
  }

  lemma SearchOne(f: Forest, id: nat, parent: nat)
    requires id < |f|
    ensures Search(f, [id], parent, []) == Got(f, if f[id].parent == Some(parent) then Some(id) else None, [])
  {
    assert [id][1..] == [];
  }

  /** Without faults, what is taken among the projects of the name is the oldest that sits where it is wanted. */
  lemma OldestIsTaken(f: Forest, name: string, parent: Option<nat>, leaf: bool, id: nat)
    requires Sits(f, id, name, parent) && forall j: nat | j < id :: !Sits(f, j, name, parent)
    ensures GetOrCreate(f, name, parent, leaf, []) == Got(f, Some(id), [])
  {
    MatchesAreIds(f, name);
    MatchesAscend(f, name);
    var ids := Matches(f, name);
    assert id in ids;
    if parent.Some? {
      var i :| 0 <= i < |ids| && ids[i] == id;
      forall j | 0 <= j < i
        ensures f[ids[j]].parent != parent
      {
        assert ids[j] in ids && !Sits(f, ids[j], name, parent);
      }
      SearchTakesFirst(f, ids, parent.value, i);
      SearchFaultFree(f, f, ids, parent.value, []);
    } else {
      assert ids[0] in ids && Sits(f, ids[0], name, parent);
    }
  }

  /** When none sits there: an error if the name is in use elsewhere,
      else a new active project, a collection unless a leaf. */
  lemma NoneIsCreated(f: Forest, name: string, parent: Option<nat>, leaf: bool)
    requires forall j: nat :: !Sits(f, j, name, parent)
    ensures GetOrCreate(f, name, parent, leaf, []) ==
            if exists j | 0 <= j < |f| :: f[j].active && f[j].name == name then Got(f, None, [])
            else Got(f + [Project(name, parent, true, !leaf)], Some(|f|), [])
  {
    MatchesAreIds(f, name);
    var ids := Matches(f, name);
    if ids != [] {
      assert ids[0] in ids && Named(f[ids[0]], name) && !Sits(f, ids[0], name, parent);
      forall j | 0 <= j < |ids|
        ensures f[ids[j]].parent != parent
      {
        assert ids[j] in ids && !Sits(f, ids[j], name, parent);
      }
      SearchTakesFirst(f, ids, parent.value, |ids|);
      SearchFaultFree(f, f, ids, parent.value, []);
    } else {
      MatchesIffActive(f, name);
      assert forall j: nat | j < |f| :: !Named(f[j], name);
    }
  }

  /** The search makes one call per project up to the first under the wanted parent; a fault there ends it. */
  lemma {:induction false} SearchStops(f: Forest, ids: seq<nat>, parent: nat, faults: seq<Fault>, i: nat, k: nat)
    requires Known(f, ids) && i <= |ids| && forall j | 0 <= j < i :: f[ids[j]].parent != Some(parent)
    requires i < |ids| ==> f[ids[i]].parent == Some(parent)
    requires FaultFree(faults, 0, k) && FaultAt(faults, k) != NoFault
    ensures var got := Search(f, ids, parent, faults);
            got.forest == f && got.project == if i < |ids| && i < k then Some(ids[i]) else None
    decreases |ids|
  {
    TailShifts(faults);
    if ids != [] && i > 0 && k > 0 {
      var rest := ids[1..];
      assert FaultAt(faults, 0) == NoFault;
      assert forall j | 0 <= j < |rest| :: rest[j] == ids[j + 1];
      SearchStops(f, rest, parent, Tail(faults), i - 1, k - 1);
    }
  }

  /**
   Which call fails first decides what getting or creating one project does. The calls are: look the
   name up, then either create, or fetch one by one up to the `i`-th, the first that hangs where wanted.
   */
  lemma FirstFaultDecides(f: Forest, name: string, parent: Option<nat>, leaf: bool, faults: seq<Fault>, i: nat, k: nat)
    requires var ids := Matches(f, name);
             && Known(f, ids) && i <= |ids|
             && (forall j | 0 <= j < i :: parent.Some? && f[ids[j]].parent != parent)
             && (i < |ids| ==> parent.None? || f[ids[i]].parent == parent)
    requires FaultFree(faults, 0, k) && FaultAt(faults, k) != NoFault
    ensures var ids := Matches(f, name);
            var got := GetOrCreate(f, name, parent, leaf, faults);
            var added := f + [Project(name, parent, true, !leaf)];
            if k == 0 then got.forest == f && got.project == None
            else if ids == [] then
              && got.forest == (if k == 1 && FaultAt(faults, 1) == Refused then f else added)
              && got.project == if k == 1 then None else Some(|f|)
            else
              && got.forest == f
              && got.project == if i < |ids| && (parent.None? || i + 1 < k) then Some(ids[i]) else None
  {
    TailShifts(faults);
    TailShifts(Tail(faults));
    if k > 0 {
      assert FaultAt(faults, 0) == NoFault;
      if parent.Some? && Matches(f, name) != [] {
        SearchStops(f, Matches(f, name), parent.value, Tail(faults), i, k - 1);
      }
    }
  }

  lemma FaultFreeGet(f: Forest, name: string, parent: Option<nat>)
    ensures GetOrCreate(f, name, parent, false, []).faults == []
    ensures HasActive(f, name) ==> GetOrCreate(f, name, parent, false, []).forest == f
  {
    MatchesAreIds(f, name);
    MatchesIffActive(f, name);
    if parent.Some? {
      SearchFaultFree(f, f, Matches(f, name), parent.value, []);
    }
  }

  lemma AppendMatches(f: Forest, p: Project, name: string)
    ensures Matches(f + [p], name) == Matches(f, name) + (if Named(p, name) then [|f|] else [])
  {
    assert (f + [p])[..|f|] == f;
  }

  /** A project that was created although its answer was lost is what the next try finds. */
  lemma CreatedIsFound(f: Forest, name: string, parent: Option<nat>)
    requires Matches(f, name) == []
    ensures var g := f + [Project(name, parent, true, true)];
            GetOrCreate(g, name, parent, false, []) == Got(g, Some(|f|), []) == GetOrCreate(f, name, parent, false, [])
  {
    var g := f + [Project(name, parent, true, true)];
    AppendMatches(f, Project(name, parent, true, true), name);
    if parent.Some? {
      SearchOne(g, |f|, parent.value);
    }
  }

  /** One step: whatever the faults did to it, trying again without faults gives the fault-free result. */
  lemma StepRecovers(f: Forest, name: string, parent: Option<nat>, faults: seq<Fault>)
    ensures var plain := GetOrCreate(f, name, parent, false, []);
            var got := GetOrCreate(f, name, parent, false, faults);
            && (got.project.Some? ==> got.forest == plain.forest && got.project == plain.project)
            && GetOrCreate(got.forest, name, parent, false, []) == plain
  {
    if Matches(f, name) == [] {
      MissingIsCreated(f, name, parent, false, faults);
      CreatedIsFound(f, name, parent);
    } else {
      ExistingRecovers(f, name, parent, faults);
    }
  }

  lemma ExistingRecovers(f: Forest, name: string, parent: Option<nat>, faults: seq<Fault>)
    requires Matches(f, name) != []
    ensures var plain := GetOrCreate(f, name, parent, false, []);
            var got := GetOrCreate(f, name, parent, false, faults);
            && got.forest == f == plain.forest
            && (got.project.Some? ==> got.project == plain.project)
  {
    MatchesAreIds(f, name);
    if parent.Some? {
      SearchFaultFree(f, f, Matches(f, name), parent.value, Tail(faults));
    }
  }

  /** Getting a project again, in any forest grown from there without another of that name, finds it. */
  lemma FoundAgain(f: Forest, name: string, parent: Option<nat>, faults: seq<Fault>, g: Forest)
    requires var got := GetOrCreate(f, name, parent, false, faults);
             got.project.Some? && got.forest <= g && Matches(g, name) == Matches(got.forest, name)
    ensures GetOrCreate(g, name, parent, false, []) ==
            Got(g, GetOrCreate(f, name, parent, false, faults).project, [])
  {
    if Matches(f, name) == [] {
      AppendMatches(f, Project(name, parent, true, true), name);
      if parent.Some? {
        SearchOne(g, |f|, parent.value);
      }
    } else {
      ExistingRecovers(f, name, parent, faults);
      ExistingAnywhere(f, name, parent, g);
    }
  }

  lemma ExistingAnywhere(f: Forest, name: string, parent: Option<nat>, g: Forest)
    requires Matches(f, name) != [] && f <= g && Matches(g, name) == Matches(f, name)
    ensures GetOrCreate(g, name, parent, false, []) == Got(g, GetOrCreate(f, name, parent, false, []).project, [])
  {
    MatchesAreIds(f, name);
    if parent.Some? {
      SearchFaultFree(f, g, Matches(f, name), parent.value, []);
    }
  }

  lemma GetKeepsMatches(f: Forest, wanted: string, parent: Option<nat>, faults: seq<Fault>, name: string)
    requires HasActive(f, name)
    ensures var g := GetOrCreate(f, wanted, parent, false, faults).forest;
            f <= g && HasActive(g, name) && Matches(g, name) == Matches(f, name)
  {
    if Matches(f, wanted) == [] {
      MatchesIffActive(f, wanted);
      AppendMatches(f, Project(wanted, parent, true, true), name);
    } else {
      ExistingRecovers(f, wanted, parent, faults);
    }
    MatchesIffActive(f, name);
    MatchesIffActive(GetOrCreate(f, wanted, parent, false, faults).forest, name);
  }

  /** A chain attempt never adds a second project of a name that was already active. */
  lemma {:induction false} ChainKeepsMatches(f: Forest, names: seq<string>, project: Option<nat>, faults: seq<Fault>,
                                             name: string)
    requires HasActive(f, name)
    ensures f <= Chain(f, names, project, faults).forest
    ensures Matches(Chain(f, names, project, faults).forest, name) == Matches(f, name)
    decreases |names|
  {
    if names != [] {
      GetKeepsMatches(f, names[0], project, faults, name);
      var got := GetOrCreate(f, names[0], project, false, faults);
      if got.project.Some? {
        ChainKeepsMatches(got.forest, names[1..], got.project, got.faults, name);
      }
    }
  }

  /** After a faulty attempt, a fault-free one ends exactly where it would have without the faulty one. */
  lemma {:induction false} AttemptRecovers(f: Forest, names: seq<string>, project: Option<nat>, faults: seq<Fault>)
    requires !Chain(f, names, project, []).failed
    ensures var plain := Chain(f, names, project, []);
            var a := Chain(f, names, project, faults);
            && Chain(a.forest, names, project, []) == plain
            && (!a.failed ==> a.forest == plain.forest && a.path == plain.path)
    decreases |names|
  {
    if names != [] {
      StepRecovers(f, names[0], project, faults);
      FaultFreeGet(f, names[0], project);
      var got := GetOrCreate(f, names[0], project, false, faults);
      if got.project.Some? {
        AttemptRecovers(got.forest, names[1..], got.project, got.faults);
        GotIsActive(f, names[0], project, faults);
        ChainKeepsMatches(got.forest, names[1..], got.project, got.faults, names[0]);
        FoundAgain(f, names[0], project, faults, Chain(f, names, project, faults).forest);
      }
    }
  }

  lemma GotIsActive(f: Forest, name: string, parent: Option<nat>, faults: seq<Fault>)
    requires GetOrCreate(f, name, parent, false, faults).project.Some?
    ensures HasActive(GetOrCreate(f, name, parent, false, faults).forest, name)
  {
    MatchesIffActive(f, name);
    if Matches(f, name) == [] {
      AppendMatches(f, Project(name, parent, true, true), name);
      MatchesIffActive(f + [Project(name, parent, true, true)], name);
    } else {
      ExistingRecovers(f, name, parent, faults);
    }
  }

  /** The forest after attempting the whole chain once per schedule, whether or not each succeeds. */
  function AfterAttempts(f: Forest, names: seq<string>, schedules: seq<seq<Fault>>): Forest {
    if schedules == [] then f
    else Chain(AfterAttempts(f, names, schedules[..|schedules| - 1]), names, None, schedules[|schedules| - 1]).forest
  }

  /**
   Crash-retry idempotence: after any number of attempts with any faults, the next attempt that
   succeeds leaves the same forest and visits the same projects as one fault-free attempt on the
   original forest, and a fault-free one succeeds.
   */
  lemma {:induction false} RetriesConverge(f: Forest, names: seq<string>, schedules: seq<seq<Fault>>, last: seq<Fault>)
    requires !Chain(f, names, None, []).failed
    ensures var plain := Chain(f, names, None, []);
            var between := AfterAttempts(f, names, schedules);
            && Chain(between, names, None, []) == plain
            && var a := Chain(between, names, None, last);
               !a.failed ==> a.forest == plain.forest && a.path == plain.path
    decreases |schedules|
  {
    if schedules != [] {
      var k := |schedules| - 1;
      RetriesConverge(f, names, schedules[..k], schedules[k]);
      AttemptRecovers(AfterAttempts(f, names, schedules[..k]), names, None, schedules[k]);
    }
    AttemptRecovers(AfterAttempts(f, names, schedules), names, None, last);
  }

  /** Running the chain again after a success changes nothing. */
  lemma ChainIsIdempotent(f: Forest, names: seq<string>)
    requires !Chain(f, names, None, []).failed
    ensures var once := Chain(f, names, None, []);
            Chain(once.forest, names, None, []) == once
  {
    AttemptRecovers(f, names, None, []);
  }

  // ---- When a chain can be had --------------------------------------------------------------

  ghost predicate AllNew(f: Forest, names: seq<string>) {
    && (forall i | 0 <= i < |names| :: !HasActive(f, names[i]))
    && (forall i, j | 0 <= i < j < |names| :: names[i] != names[j])
  }

  /**
   Read off the forest as it stands: the names that exist come first, each under the one before, and
   the remaining names are pairwise different and not in use.
   */
  ghost predicate Fits(f: Forest, names: seq<string>, parent: Option<nat>) {
    if names == [] then true
    else if HasActive(f, names[0])
    then Sits(f, ActiveId(f, names[0]), names[0], parent) && Fits(f, names[1..], Some(ActiveId(f, names[0])))
    else AllNew(f, names)
  }

  lemma {:induction false} OnlyMatch(f: Forest, id: nat, name: string)
    requires UniqueActive(f) && id < |f| && Named(f[id], name)
    ensures Matches(f, name) == [id]
  {
    var k := |f| - 1;
    if id == k {
      MatchesIffActive(f[..k], name);
      assert forall i: nat | i < k :: f[..k][i] == f[i];
    } else {
      OnlyMatch(f[..k], id, name);
    }
  }

  ghost predicate Childless(f: Forest, id: nat) {
    forall i | 0 <= i < |f| :: f[i].parent != Some(id)
  }

  /** Below a project without children, a chain succeeds exactly when all its names are new. */
  lemma {:induction false} NewChain(f: Forest, names: seq<string>, parent: nat)
    requires Good(f) && parent < |f| && Childless(f, parent)
    ensures !Chain(f, names, Some(parent), []).failed <==> AllNew(f, names)
    decreases |names|
  {
    if names != [] {
      MatchesAreIds(f, names[0]);
      MatchesIffActive(f, names[0]);
      if HasActive(f, names[0]) {
        SearchOnlyReads(f, Matches(f, names[0]), parent, []);
      } else {
        var g := f + [Project(names[0], Some(parent), true, true)];
        GetOrCreateKeeps(f, names[0], Some(parent), false, []);
        ForestParents(f);
        NewChain(g, names[1..], |f|);
        NewAfter(f, g, names);
      }
    }
  }

  lemma ForestParents(f: Forest)
    requires IsForest(f)
    ensures forall i | 0 <= i < |f| && f[i].parent.Some? :: f[i].parent.value < |f|
  {
  }

  lemma NewAfter(f: Forest, g: Forest, names: seq<string>)
    requires names != [] && !HasActive(f, names[0])
    requires |g| == |f| + 1 && g[..|f|] == f && Named(g[|f|], names[0])
    ensures AllNew(g, names[1..]) <==> AllNew(f, names)
  {
    forall name
      ensures HasActive(g, name) <==> HasActive(f, name) || name == names[0]
    {
      if HasActive(f, name) {
        var i := ActiveId(f, name);
        assert g[i] == f[i];
      }
      if name == names[0] {
        assert Named(g[|f|], name);
      }
      if HasActive(g, name) && name != names[0] {
        var i := ActiveId(g, name);
        assert i < |f| && g[i] == f[i];
      }
    }
    var rest := names[1..];
    assert forall i | 0 <= i < |rest| :: rest[i] == names[i + 1];
    assert forall i | 0 < i < |names| :: names[i] == rest[i - 1];
  }

  /** A fault-free chain succeeds if and only if it fits the forest it starts on. */
  lemma {:induction false} ChainSucceedsIff(f: Forest, names: seq<string>, parent: Option<nat>)
    requires Good(f) && (parent.Some? ==> parent.value < |f|)
    ensures !Chain(f, names, parent, []).failed <==> Fits(f, names, parent)
    decreases |names|
  {
    if names != [] {
      FaultFreeGet(f, names[0], parent);
      if HasActive(f, names[0]) {
        var id := ActiveId(f, names[0]);
        OnlyMatch(f, id, names[0]);
        if parent.Some? {
          SearchOne(f, id, parent.value);
        }
        ChainSucceedsIff(f, names[1..], Some(id));
      } else {
        MatchesIffActive(f, names[0]);
        var g := f + [Project(names[0], parent, true, true)];
        GetOrCreateKeeps(f, names[0], parent, false, []);
        ForestParents(f);
        NewChain(g, names[1..], |f|);
        NewAfter(f, g, names);
      }
    }
  }
}
