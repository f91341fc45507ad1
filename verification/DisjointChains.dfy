/**
 Which parent chains may run at the same time. Each worker makes one chain, any number of times and
 under any faults; whether active project names stay unique in every interleaving can be read off the
 chains and the forest they start on.
 */
module DisjointChains {
  import opened Faults
  import opened Options
  import opened ProjectForest
  import opened ConcurrentChains

  /** The names of the projects that a fault-free attempt at this chain, by itself, creates. */
  function Created(f: Forest, names: seq<string>): set<string> {
    var g := Chain(f, names, None, []).forest;
    set k | |f| <= k < |g| :: g[k].name
  }

  ghost predicate PairwiseDisjoint(f: Forest, chains: seq<seq<string>>) {
    forall i, j | 0 <= i < j < |chains| :: Created(f, chains[i]) !! Created(f, chains[j])
  }

  /** Every worker only ever begins its own chain. */
  ghost predicate KeepTo(chains: seq<seq<string>>, actions: seq<Action>) {
    forall k | 0 <= k < |actions| :: KeepsTo(chains, actions[k])
  }

  ghost predicate KeepsTo(chains: seq<seq<string>>, a: Action) {
    a.Begin? && a.worker < |chains| ==> a.names == chains[a.worker]
  }

  // ---- What a chain adds to a forest --------------------------------------------------------

  /** The names of new projects in order, the project they hang under, and whether the chain gets to its end. */
  datatype Growth = Growth(names: seq<string>, under: Option<nat>, complete: bool)

  /** The leading names that are not in use, neither in the forest nor in `used` nor earlier on. */
  ghost function Fresh(f: Forest, names: seq<string>, used: set<string>): seq<string> {
    if names == [] || HasActive(f, names[0]) || names[0] in used then []
    else [names[0]] + Fresh(f, names[1..], used + {names[0]})
  }

  ghost function GrowthOf(f: Forest, names: seq<string>, parent: Option<nat>): Growth
    decreases |names|
  {
    if names == [] then Growth([], parent, true)
    else if !HasActive(f, names[0]) then
      var free := Fresh(f, names, {});
      Growth(free, parent, |free| == |names|)
    else if Sits(f, ActiveId(f, names[0]), names[0], parent) then
      GrowthOf(f, names[1..], Some(ActiveId(f, names[0])))
    else Growth([], parent, false)
  }

  /** New projects in a row, from position `n` on, each the parent of the next. */
  function Row(n: nat, names: seq<string>, under: Option<nat>): Forest
    decreases |names|
  {
    if names == [] then [] else [Project(names[0], under, true, true)] + Row(n + 1, names[1..], Some(n))
  }

  lemma {:induction false} RowNames(n: nat, names: seq<string>, under: Option<nat>)
    ensures |Row(n, names, under)| == |names|
    ensures forall k | 0 <= k < |names| :: Row(n, names, under)[k].name == names[k]
    decreases |names|
  {
    if names != [] {
      RowNames(n + 1, names[1..], Some(n));
    }
  }

  predicate LastIsLeaf(g: Forest) {
    |g| > 0 && forall i | 0 <= i < |g| && g[i].parent.Some? :: g[i].parent.value < |g| - 1
  }

  lemma TakenNameFails(g: Forest, name: string, parent: nat)
    requires LastIsLeaf(g) && parent == |g| - 1 && HasActive(g, name)
    ensures GetOrCreate(g, name, Some(parent), false, []).forest == g
    ensures GetOrCreate(g, name, Some(parent), false, []).project == None
  {
    MatchesAreIds(g, name);
    MatchesIffActive(g, name);
    SearchOnlyReads(g, Matches(g, name), parent, []);
  }

  lemma ActiveAfter(g: Forest, p: Project, name: string)
    requires p.active
    ensures HasActive(g + [p], name) <==> HasActive(g, name) || p.name == name
  {
    var longer := g + [p];
    if HasActive(g, name) {
      assert Named(longer[ActiveId(g, name)], name);
    }
    if p.name == name {
      assert Named(longer[|g|], name);
    }
    if HasActive(longer, name) && p.name != name {
      var i := ActiveId(longer, name);
      assert i < |g| && Named(g[i], name);
    }
  }

  lemma FreeNameIsCreated(g: Forest, name: string, parent: Option<nat>)
    requires !HasActive(g, name)
    ensures GetOrCreate(g, name, parent, false, []) == Got(g + [Project(name, parent, true, true)], Some(|g|), [])
  {
    MatchesIffActive(g, name);
  }

  lemma UsedGrows(f: Forest, g: Forest, used: set<string>, p: Project)
    requires p.active && forall n :: HasActive(g, n) <==> HasActive(f, n) || n in used
    ensures forall n :: HasActive(g + [p], n) <==> HasActive(f, n) || n in used + {p.name}
  {
    forall n
      ensures HasActive(g + [p], n) <==> HasActive(f, n) || n in used + {p.name}
    {
      ActiveAfter(g, p, n);
    }
  }

  lemma ChainCreates(g: Forest, names: seq<string>, parent: Option<nat>)
    requires names != [] && !HasActive(g, names[0])
    ensures var a := Chain(g, names, parent, []);
            var rest := Chain(g + [Project(names[0], parent, true, true)], names[1..], Some(|g|), []);
            a.forest == rest.forest && a.failed == rest.failed
  {
    FreeNameIsCreated(g, names[0], parent);
  }

  /** Below a project that was just created, exactly the fresh names are created. */
  lemma {:induction false} NewPartGrows(f: Forest, g: Forest, names: seq<string>, used: set<string>)
    requires LastIsLeaf(g) && forall n :: HasActive(g, n) <==> HasActive(f, n) || n in used
    ensures var free := Fresh(f, names, used);
            var a := Chain(g, names, Some(|g| - 1), []);
            a.forest == g + Row(|g|, free, Some(|g| - 1)) && (a.failed <==> |free| < |names|)
    decreases |names|
  {
    if names == [] {
      assert g + [] == g;
    } else if HasActive(g, names[0]) {
      TakenNameFails(g, names[0], |g| - 1);
      assert g + [] == g;
    } else {
      var p := Project(names[0], Some(|g| - 1), true, true);
      ChainCreates(g, names, Some(|g| - 1));
      UsedGrows(f, g, used, p);
      NewPartGrows(f, g + [p], names[1..], used + {names[0]});
      assert Fresh(f, names, used) == [names[0]] + Fresh(f, names[1..], used + {names[0]});
      RowUnfolds(g, Fresh(f, names, used), Some(|g| - 1));
    }
  }

  lemma RowUnfolds(g: Forest, names: seq<string>, under: Option<nat>)
    requires names != []
    ensures g + Row(|g|, names, under) ==
            g + [Project(names[0], under, true, true)] + Row(|g| + 1, names[1..], Some(|g|))
  {
  }

  lemma NewStart(f: Forest, names: seq<string>, parent: Option<nat>)
    requires Good(f) && (parent.Some? ==> parent.value < |f|) && names != [] && !HasActive(f, names[0])
    ensures var free := Fresh(f, names, {});
            var a := Chain(f, names, parent, []);
            a.forest == f + Row(|f|, free, parent) && (a.failed <==> |free| < |names|)
  {
    var p := Project(names[0], parent, true, true);
    ChainCreates(f, names, parent);
    ForestParents(f);
    UsedGrows(f, f, {}, p);
    NewPartGrows(f, f + [p], names[1..], {} + {names[0]});
    assert Fresh(f, names, {}) == [names[0]] + Fresh(f, names[1..], {} + {names[0]});
    RowUnfolds(f, Fresh(f, names, {}), parent);
  }

  lemma OldStep(f: Forest, names: seq<string>, parent: Option<nat>)
    requires Good(f) && names != [] && HasActive(f, names[0])
    ensures var id := ActiveId(f, names[0]);
            GetOrCreate(f, names[0], parent, false, []) ==
                Got(f, if Sits(f, id, names[0], parent) then Some(id) else None, [])
  {
    var id := ActiveId(f, names[0]);
    OnlyMatch(f, id, names[0]);
    if parent.Some? {
      SearchOne(f, id, parent.value);
    }
  }

  /** A fault-free attempt appends the growth of its chain, and fails unless that is complete. */
  lemma {:induction false} ChainGrows(f: Forest, names: seq<string>, parent: Option<nat>)
    requires Good(f) && (parent.Some? ==> parent.value < |f|)
    ensures var gr := GrowthOf(f, names, parent);
            var a := Chain(f, names, parent, []);
            a.forest == f + Row(|f|, gr.names, gr.under) && (a.failed <==> !gr.complete)
    decreases |names|
  {
    assert f + [] == f;
    if names != [] {
      if HasActive(f, names[0]) {
        OldStep(f, names, parent);
        if Sits(f, ActiveId(f, names[0]), names[0], parent) {
          ChainGrows(f, names[1..], Some(ActiveId(f, names[0])));
        }
      } else {
        NewStart(f, names, parent);
        FreshIsPrefix(f, names, {});
      }
    }
  }

  /** Fresh names are a prefix, pairwise different and unused; what comes next is in use or used. */
  lemma {:induction false} FreshIsPrefix(f: Forest, names: seq<string>, used: set<string>)
    ensures var free := Fresh(f, names, used);
            && free <= names
            && (forall k | 0 <= k < |free| :: !HasActive(f, free[k]) && free[k] !in used)
            && (forall k, l | 0 <= k < l < |free| :: free[k] != free[l])
    decreases |names|
  {
    if Fresh(f, names, used) != [] {
      FreshIsPrefix(f, names[1..], used + {names[0]});
    }
  }

  lemma CreatedWhere(f: Forest, names: seq<string>, name: string) returns (x: nat)
    requires name in Created(f, names)
    ensures |f| <= x < |Chain(f, names, None, []).forest| && Chain(f, names, None, []).forest[x].name == name
  {
    var g := Chain(f, names, None, []).forest;
    x :| |f| <= x < |g| && g[x].name == name;
  }

  lemma CreatedIsGrowth(f: Forest, names: seq<string>)
    requires Good(f)
    ensures forall n :: n in Created(f, names) <==> n in GrowthOf(f, names, None).names
  {
    var gr := GrowthOf(f, names, None);
    ChainGrows(f, names, None);
    RowNames(|f|, gr.names, gr.under);
    var g := Chain(f, names, None, []).forest;
    forall n
      ensures n in Created(f, names) <==> n in gr.names
    {
      if n in gr.names {
        var k :| 0 <= k < |gr.names| && gr.names[k] == n;
        assert g[|f| + k].name == n;
      }
      if n in Created(f, names) {
        var k :| |f| <= k < |g| && g[k].name == n;
        assert gr.names[k - |f|] == n;
      }
    }
  }

  // ---- Where a worker can be ----------------------------------------------------------------

  /** New names are different and not in use, and hang under a project that was there. */
  ghost predicate GrowthOk(f: Forest, gr: Growth) {
    && (forall k | 0 <= k < |gr.names| :: !HasActive(f, gr.names[k]))
    && (forall k, l | 0 <= k < l < |gr.names| :: gr.names[k] != gr.names[l])
    && (gr.under.Some? ==> gr.under.value < |f|)
  }

  lemma {:induction false} GrowthIsOk(f: Forest, names: seq<string>, parent: Option<nat>)
    requires parent.Some? ==> parent.value < |f|
    ensures GrowthOk(f, GrowthOf(f, names, parent))
    decreases |names|
  {
    if names != [] {
      if !HasActive(f, names[0]) {
        FreshIsPrefix(f, names, {});
      } else if Sits(f, ActiveId(f, names[0]), names[0], parent) {
        GrowthIsOk(f, names[1..], Some(ActiveId(f, names[0])));
      }
    }
  }

  function Elements(names: seq<string>): set<string> {
    set n | n in names
  }

  /**
   A worker with these names to go, under `parent`, has passed the first `t` of its new projects: it is
   still among projects of the original forest, or stands on new project `t - 1`.
   */
  ghost predicate At(f: Forest, g: Forest, gr: Growth, names: seq<string>, parent: Option<nat>, t: nat) {
    && t <= |gr.names|
    && (t == 0 ==> GrowthOf(f, names, parent) == gr && (parent.Some? ==> parent.value < |f|))
    && (t > 0 ==>
          && parent.Some? && |f| <= parent.value < |g| && g[parent.value].name == gr.names[t - 1]
          && (forall l | 0 <= l < t :: HasActive(g, gr.names[l]))
          && Fresh(f, names, Elements(gr.names[..t])) == gr.names[t..]
          && gr.complete == (|names| == |gr.names| - t))
  }

  ghost predicate OnCourse(f: Forest, g: Forest, gr: Growth, w: Worker) {
    match w
    case Finished(ok, project) => ok ==> exists t: nat :: At(f, g, gr, [], project, t)
    case Looking(name, rest, parent) => exists t: nat :: At(f, g, gr, [name] + rest, parent, t)
    case Searching(name, rest, under, ids) =>
      && (exists t: nat :: At(f, g, gr, [name] + rest, Some(under), t))
      && forall k | 0 <= k < |ids| :: ids[k] < |g| && Named(g[ids[k]], name)
    case Creating(name, rest, parent, seen) =>
      && (exists t: nat :: At(f, g, gr, [name] + rest, parent, t) && t < |gr.names| && gr.names[t] == name)
      && forall q | seen <= q < |g| && g[q].active :: g[q].name !in gr.names
  }

  /** Project `q` is the `l`-th new one of this growth: under the right old project, or the one before. */
  ghost predicate IsGrown(f: Forest, g: Forest, gr: Growth, l: nat, q: nat)
    requires l < |gr.names| && q < |g|
  {
    && g[q].active && g[q].name == gr.names[l]
    && if l == 0 then g[q].parent == gr.under
       else g[q].parent.Some? && |f| <= g[q].parent.value < |g| && g[g[q].parent.value].name == gr.names[l - 1]
  }

  ghost predicate GrownBy(f: Forest, g: Forest, gr: Growth, q: nat)
    requires q < |g|
  {
    exists l | 0 <= l < |gr.names| :: IsGrown(f, g, gr, l, q)
  }

  /** The forest has grown by nothing but projects of these growths. */
  ghost predicate Grown(f: Forest, g: Forest, growths: seq<Growth>) {
    f <= g && forall q | |f| <= q < |g| :: GrownByOne(f, g, growths, q)
  }

  ghost predicate GrownByOne(f: Forest, g: Forest, growths: seq<Growth>, q: nat)
    requires q < |g|
  {
    exists i | 0 <= i < |growths| :: GrownBy(f, g, growths[i], q)
  }

  ghost predicate Apart(growths: seq<Growth>) {
    forall i, j | 0 <= i < j < |growths| :: Elements(growths[i].names) !! Elements(growths[j].names)
  }

  ghost predicate Setting(f: Forest, growths: seq<Growth>) {
    Good(f) && Apart(growths) && forall i | 0 <= i < |growths| :: GrowthOk(f, growths[i])
  }

  lemma GrownIsNew(f: Forest, g: Forest, growths: seq<Growth>, q: nat)
    requires Setting(f, growths) && Grown(f, g, growths) && |f| <= q < |g|
    ensures !HasActive(f, g[q].name)
  {
    assert GrownByOne(f, g, growths, q);
    var i :| 0 <= i < |growths| && GrownBy(f, g, growths[i], q);
    var l :| 0 <= l < |growths[i].names| && IsGrown(f, g, growths[i], l, q);
  }

  /** A name that was in use still has the one project it had. */
  lemma OldMatch(f: Forest, g: Forest, growths: seq<Growth>, q: nat, name: string)
    requires Setting(f, growths) && Grown(f, g, growths) && HasActive(f, name) && q < |g| && Named(g[q], name)
    ensures q < |f| && q == ActiveId(f, name) && f[q] == g[q]
  {
    if q >= |f| {
      GrownIsNew(f, g, growths, q);
      assert false;
    }
    assert f[q] == g[q];
  }

  lemma OldIsActive(f: Forest, g: Forest, q: nat, name: string)
    requires f <= g && q < |g| && Named(g[q], name)
    ensures q < |f| ==> HasActive(f, name)
  {
    if q < |f| {
      assert g[q] == f[q];
    }
  }

  /** A project with a name of one growth belongs to it, at the place of that name. */
  lemma NewMatch(f: Forest, g: Forest, growths: seq<Growth>, i: nat, l: nat, q: nat)
    requires Setting(f, growths) && Grown(f, g, growths) && i < |growths| && l < |growths[i].names|
    requires q < |g| && Named(g[q], growths[i].names[l])
    ensures |f| <= q && IsGrown(f, g, growths[i], l, q)
  {
    var name := growths[i].names[l];
    assert !HasActive(f, name);
    OldIsActive(f, g, q, name);
    assert GrownByOne(f, g, growths, q);
    var j :| 0 <= j < |growths| && GrownBy(f, g, growths[j], q);
    var k :| 0 <= k < |growths[j].names| && IsGrown(f, g, growths[j], k, q);
    assert name in Elements(growths[j].names) && name in Elements(growths[i].names);
    assert i == j;
    assert growths[i].names[k] == growths[i].names[l];
  }

  // ---- One call -----------------------------------------------------------------------------

  /** Taking an existing project while among the old ones. */
  lemma TakeOld(f: Forest, g: Forest, growths: seq<Growth>, i: nat, name: string, rest: seq<string>,
                parent: Option<nat>, q: nat)
    requires Setting(f, growths) && Grown(f, g, growths) && i < |growths|
    requires At(f, g, growths[i], [name] + rest, parent, 0)
    requires q < |g| && Named(g[q], name) && (parent.Some? ==> g[q].parent == parent)
    ensures exists t: nat :: At(f, g, growths[i], rest, Some(q), t)
  {
    var gr := growths[i];
    assert ([name] + rest)[1..] == rest;
    if HasActive(f, name) {
      OldMatch(f, g, growths, q, name);
      assert At(f, g, gr, rest, Some(q), 0);
    } else {
      assert gr.names == [name] + Fresh(f, rest, {} + {name});
      NewMatch(f, g, growths, i, 0, q);
      assert HasActive(g, gr.names[0]);
      assert Elements(gr.names[..1]) == {} + {name};
      assert At(f, g, gr, rest, Some(q), 1);
    }
  }

  /** Below a new project, only the next new one has the right parent. */
  lemma TakeNew(f: Forest, g: Forest, growths: seq<Growth>, i: nat, name: string, rest: seq<string>, parent: nat,
                t: nat, q: nat)
    requires Setting(f, growths) && Grown(f, g, growths) && i < |growths| && t > 0
    requires At(f, g, growths[i], [name] + rest, Some(parent), t)
    requires q < |g| && Named(g[q], name) && g[q].parent == Some(parent)
    ensures At(f, g, growths[i], rest, Some(q), t + 1)
  {
    var gr := growths[i];
    assert ([name] + rest)[1..] == rest;
    ForestParents(f);
    if HasActive(f, name) {
      OldMatch(f, g, growths, q, name);
      assert false;
    }
    NewNameIsNext(f, g, growths, i, name, rest, parent, t, q);
    AfterNext(f, gr, name, rest, t);
    assert HasActive(g, gr.names[t]);
  }

  lemma NewNameIsNext(f: Forest, g: Forest, growths: seq<Growth>, i: nat, name: string, rest: seq<string>, parent: nat,
                      t: nat, q: nat)
    requires Setting(f, growths) && Grown(f, g, growths) && i < |growths| && t > 0
    requires At(f, g, growths[i], [name] + rest, Some(parent), t) && !HasActive(f, name)
    requires q < |g| && Named(g[q], name) && g[q].parent == Some(parent)
    ensures t < |growths[i].names| && growths[i].names[t] == name && |f| <= q
  {
    var gr := growths[i];
    forall l | 0 <= l < t
      ensures gr.names[l] != name
    {
      if gr.names[l] == name {
        NewMatch(f, g, growths, i, l, q);
        assert false;
      }
    }
    assert gr.names[t..] != [] && gr.names[t..][0] == name;
    NewMatch(f, g, growths, i, t, q);
  }

  /** The next new name leaves the names after it. */
  lemma AfterNext(f: Forest, gr: Growth, name: string, rest: seq<string>, t: nat)
    requires t < |gr.names| && gr.names[t] == name
    requires Fresh(f, [name] + rest, Elements(gr.names[..t])) == gr.names[t..]
    ensures Fresh(f, rest, Elements(gr.names[..t + 1])) == gr.names[t + 1..]
  {
    assert ([name] + rest)[1..] == rest;
    assert gr.names[..t + 1] == gr.names[..t] + [name];
    assert Elements(gr.names[..t + 1]) == Elements(gr.names[..t]) + {name};
    assert gr.names[t..][1..] == gr.names[t + 1..];
  }

  lemma Take(f: Forest, g: Forest, growths: seq<Growth>, i: nat, name: string, rest: seq<string>, parent: Option<nat>,
             q: nat)
    requires Setting(f, growths) && Grown(f, g, growths) && i < |growths|
    requires exists t: nat :: At(f, g, growths[i], [name] + rest, parent, t)
    requires q < |g| && Named(g[q], name) && (parent.Some? ==> g[q].parent == parent)
    ensures OnCourse(f, g, growths[i], ToGo(rest, Some(q)))
  {
    var t :| At(f, g, growths[i], [name] + rest, parent, t);
    if t == 0 {
      TakeOld(f, g, growths, i, name, rest, parent, q);
    } else {
      TakeNew(f, g, growths, i, name, rest, parent.value, t, q);
    }
    ToGoOnCourse(f, g, growths[i], rest, Some(q));
  }

  lemma ToGoOnCourse(f: Forest, g: Forest, gr: Growth, names: seq<string>, parent: Option<nat>)
    requires exists t: nat :: At(f, g, gr, names, parent, t)
    ensures OnCourse(f, g, gr, ToGo(names, parent))
  {
    if names != [] {
      assert [names[0]] + names[1..] == names;
    }
  }

  lemma StillActive(f: Forest, g: Forest, name: string)
    requires f <= g
    ensures HasActive(f, name) ==> HasActive(g, name)
  {
    if HasActive(f, name) {
      assert g[ActiveId(f, name)] == f[ActiveId(f, name)];
    }
  }

  /** A name that a lookup does not find is the next new one of this chain. */
  lemma MissingIsNext(f: Forest, g: Forest, gr: Growth, name: string, rest: seq<string>, parent: Option<nat>, t: nat)
    requires f <= g && GrowthOk(f, gr) && At(f, g, gr, [name] + rest, parent, t) && !HasActive(g, name)
    ensures t < |gr.names| && gr.names[t] == name
  {
    StillActive(f, g, name);
    if t > 0 {
      assert forall l | 0 <= l < t :: gr.names[l] != name;
      assert gr.names[t..] != [] && gr.names[t..][0] == name;
    }
  }

  /** Creating that name goes one further. */
  lemma CreateNext(f: Forest, g: Forest, gr: Growth, name: string, rest: seq<string>, parent: Option<nat>, t: nat)
    requires f <= g && GrowthOk(f, gr) && At(f, g, gr, [name] + rest, parent, t) && t < |gr.names|
             && gr.names[t] == name
    ensures var longer := g + [Project(name, parent, true, true)];
            At(f, longer, gr, rest, Some(|g|), t + 1) && IsGrown(f, longer, gr, t, |g|)
  {
    var p := Project(name, parent, true, true);
    var longer := g + [p];
    assert ([name] + rest)[1..] == rest;
    ActiveAfter(g, p, name);
    forall l | 0 <= l < t
      ensures HasActive(longer, gr.names[l])
    {
      ActiveAfter(g, p, gr.names[l]);
    }
    if t == 0 {
      assert gr.names[0] == name && !HasActive(f, name);
      assert gr.names == [name] + Fresh(f, rest, {} + {name});
      assert Elements(gr.names[..1]) == {} + {name};
    } else {
      AfterNext(f, gr, name, rest, t);
    }
  }

  /** Grown at most by a project of the `i`-th growth, with that growth's worker on its course. */
  ghost predicate Stays(f: Forest, g: Forest, growths: seq<Growth>, i: nat, g': Forest, w': Worker)
    requires i < |growths|
  {
    && Grown(f, g', growths) && OnCourse(f, g', growths[i], w')
    && (g' == g || exists p :: g' == g + [p] && p.name in growths[i].names)
  }

  lemma LookupStays(f: Forest, g: Forest, growths: seq<Growth>, i: nat, w: Worker, fault: Fault)
    requires Setting(f, growths) && Grown(f, g, growths) && i < |growths|
    requires w.Looking? && OnCourse(f, g, growths[i], w)
    ensures Stays(f, g, growths, i, Advance(g, w, fault).0, Advance(g, w, fault).1)
  {
    var ids := Matches(g, w.name);
    MatchesAreIds(g, w.name);
    MatchesIffActive(g, w.name);
    if fault == NoFault {
      if ids == [] {
        var t: nat :| At(f, g, growths[i], [w.name] + w.rest, w.parent, t);
        MissingIsNext(f, g, growths[i], w.name, w.rest, w.parent, t);
      } else {
        assert forall k | 0 <= k < |ids| :: ids[k] in ids;
        if w.parent.None? {
          Take(f, g, growths, i, w.name, w.rest, None, ids[0]);
        }
      }
    }
  }

  lemma SearchStays(f: Forest, g: Forest, growths: seq<Growth>, i: nat, w: Worker, fault: Fault)
    requires Setting(f, growths) && Grown(f, g, growths) && i < |growths|
    requires w.Searching? && OnCourse(f, g, growths[i], w)
    ensures Stays(f, g, growths, i, Advance(g, w, fault).0, Advance(g, w, fault).1)
  {
    if fault == NoFault && w.ids != [] && g[w.ids[0]].parent == Some(w.under) {
      Take(f, g, growths, i, w.name, w.rest, Some(w.under), w.ids[0]);
    }
  }

  lemma GrownLonger(f: Forest, g: Forest, growths: seq<Growth>, i: nat, l: nat, p: Project)
    requires Grown(f, g, growths) && i < |growths| && l < |growths[i].names| && IsGrown(f, g + [p], growths[i], l, |g|)
    ensures Grown(f, g + [p], growths)
  {
    var longer := g + [p];
    forall q | |f| <= q < |longer|
      ensures GrownByOne(f, longer, growths, q)
    {
      if q < |g| {
        assert GrownByOne(f, g, growths, q);
        var j :| 0 <= j < |growths| && GrownBy(f, g, growths[j], q);
        var k :| 0 <= k < |growths[j].names| && IsGrown(f, g, growths[j], k, q);
        assert IsGrown(f, longer, growths[j], k, q);
        assert GrownBy(f, longer, growths[j], q);
      } else {
        assert GrownBy(f, longer, growths[i], q);
      }
    }
  }

  lemma CreateStays(f: Forest, g: Forest, growths: seq<Growth>, i: nat, w: Worker, fault: Fault)
    requires Setting(f, growths) && Grown(f, g, growths) && i < |growths|
    requires w.Creating? && OnCourse(f, g, growths[i], w)
    ensures Stays(f, g, growths, i, Advance(g, w, fault).0, Advance(g, w, fault).1)
  {
    var gr := growths[i];
    var t: nat :| At(f, g, gr, [w.name] + w.rest, w.parent, t) && t < |gr.names| && gr.names[t] == w.name;
    if fault != Refused {
      var p := Project(w.name, w.parent, true, true);
      CreateNext(f, g, gr, w.name, w.rest, w.parent, t);
      GrownLonger(f, g, growths, i, t, p);
      ToGoOnCourse(f, g + [p], gr, w.rest, Some(|g|));
      assert p.name in gr.names;
    }
  }

  /** One call keeps a worker on its course and adds at most its next new project. */
  lemma AdvanceStays(f: Forest, g: Forest, growths: seq<Growth>, i: nat, w: Worker, fault: Fault)
    requires Setting(f, growths) && Grown(f, g, growths) && i < |growths| && OnCourse(f, g, growths[i], w)
    ensures Stays(f, g, growths, i, Advance(g, w, fault).0, Advance(g, w, fault).1)
  {
    if w.Looking? {
      LookupStays(f, g, growths, i, w, fault);
    } else if w.Searching? {
      SearchStays(f, g, growths, i, w, fault);
    } else if w.Creating? {
      CreateStays(f, g, growths, i, w, fault);
    }
  }

  lemma AtInLonger(f: Forest, g: Forest, longer: Forest, gr: Growth, names: seq<string>, parent: Option<nat>, t: nat)
    requires g <= longer && At(f, g, gr, names, parent, t)
    ensures At(f, longer, gr, names, parent, t)
  {
    if t > 0 {
      forall l | 0 <= l < t
        ensures HasActive(longer, gr.names[l])
      {
        StillActive(g, longer, gr.names[l]);
      }
    }
  }

  /** A worker is not disturbed by a project whose name is none of its new ones. */
  lemma OthersStay(f: Forest, g: Forest, p: Project, gr: Growth, w: Worker)
    requires OnCourse(f, g, gr, w) && p.name !in gr.names
    ensures OnCourse(f, g + [p], gr, w)
  {
    if !(w.Finished? && !w.ok) {
      var names := if w.Finished? then [] else [w.name] + w.rest;
      var parent := if w.Finished? then w.project else if w.Searching? then Some(w.under) else w.parent;
      var t: nat :| At(f, g, gr, names, parent, t) && (w.Creating? ==> t < |gr.names| && gr.names[t] == w.name);
      AtInLonger(f, g, g + [p], gr, names, parent, t);
    }
  }

  // ---- Whole runs ---------------------------------------------------------------------------

  ghost function Growths(f: Forest, chains: seq<seq<string>>): seq<Growth> {
    seq(|chains|, i requires 0 <= i < |chains| => GrowthOf(f, chains[i], None))
  }

  ghost predicate AllOnCourse(f: Forest, growths: seq<Growth>, s: State) {
    && Inv(s) && Grown(f, s.forest, growths) && |s.workers| == |growths|
    && forall i | 0 <= i < |growths| :: OnCourse(f, s.forest, growths[i], s.workers[i])
  }

  lemma CallKeepsCourse(f: Forest, growths: seq<Growth>, s: State, i: nat, fault: Fault)
    requires Setting(f, growths) && AllOnCourse(f, growths, s) && i < |growths|
    ensures AllOnCourse(f, growths, Next(s, Call(i, fault))) && !Races(s, Call(i, fault))
  {
    var t := Next(s, Call(i, fault));
    NextKeeps(s, Call(i, fault));
    assert OnCourse(f, s.forest, growths[i], s.workers[i]);
    AdvanceStays(f, s.forest, growths, i, s.workers[i], fault);
    forall j | 0 <= j < |growths| && j != i
      ensures OnCourse(f, t.forest, growths[j], t.workers[j])
    {
      assert OnCourse(f, s.forest, growths[j], s.workers[j]);
      if t.forest != s.forest {
        var p :| t.forest == s.forest + [p] && p.name in growths[i].names;
        assert p.name in Elements(growths[i].names);
        OthersStay(f, s.forest, p, growths[j], s.workers[j]);
      }
    }
  }

  lemma BeginKeepsCourse(f: Forest, chains: seq<seq<string>>, s: State, i: nat)
    requires Setting(f, Growths(f, chains)) && AllOnCourse(f, Growths(f, chains), s) && i < |chains|
    ensures AllOnCourse(f, Growths(f, chains), Next(s, Begin(i, chains[i])))
  {
    NextKeeps(s, Begin(i, chains[i]));
    assert At(f, s.forest, Growths(f, chains)[i], chains[i], None, 0);
    ToGoOnCourse(f, s.forest, Growths(f, chains)[i], chains[i], None);
  }

  lemma NextKeepsCourse(f: Forest, chains: seq<seq<string>>, s: State, a: Action)
    requires Setting(f, Growths(f, chains)) && AllOnCourse(f, Growths(f, chains), s) && KeepsTo(chains, a)
    ensures AllOnCourse(f, Growths(f, chains), Next(s, a)) && !Races(s, a)
  {
    if a.worker < |chains| {
      if a.Begin? {
        BeginKeepsCourse(f, chains, s, a.worker);
      } else {
        CallKeepsCourse(f, Growths(f, chains), s, a.worker, a.fault);
      }
    }
  }

  lemma SettingOf(f: Forest, chains: seq<seq<string>>)
    requires Good(f)
    ensures Setting(f, Growths(f, chains)) <==> PairwiseDisjoint(f, chains)
  {
    forall i | 0 <= i < |chains|
      ensures GrowthOk(f, Growths(f, chains)[i]) && Elements(Growths(f, chains)[i].names) == Created(f, chains[i])
    {
      GrowthIsOk(f, chains[i], None);
      CreatedIsGrowth(f, chains[i]);
    }
  }

  /** Disjoint creations keep every worker on its course, so no create ever races. */
  lemma {:induction false} EveryRunOnCourse(f: Forest, chains: seq<seq<string>>, actions: seq<Action>)
    requires Good(f) && PairwiseDisjoint(f, chains) && KeepTo(chains, actions)
    ensures var s := Run(Start(f, |chains|), actions);
            AllOnCourse(f, Growths(f, chains), s) && UniqueActive(s.forest)
  {
    SettingOf(f, chains);
    if actions != [] {
      var last := |actions| - 1;
      EveryRunOnCourse(f, chains, actions[..last]);
      var s := Run(Start(f, |chains|), actions[..last]);
      assert KeepsTo(chains, actions[last]);
      NextKeepsCourse(f, chains, s, actions[last]);
      NextUnique(s, actions[last]);
    }
  }

  // ---- Chains that would create a common name do race ---------------------------------------

  lemma {:induction false} RunOnto(s: State, first: seq<Action>, second: seq<Action>)
    ensures Run(s, first + second) == Run(Run(s, first), second)
    decreases |second|
  {
    if second == [] {
      assert first + second == first;
    } else {
      var k := |second| - 1;
      var all := first + second;
      RunOnto(s, first, second[..k]);
      assert all[..|all| - 1] == first + second[..k] && all[|all| - 1] == second[k];
    }
  }

  lemma RunFirst(s: State, a: Action, more: seq<Action>)
    ensures Run(s, [a] + more) == Run(Next(s, a), more)
  {
    RunOnto(s, [a], more);
    assert [a][..0] == [] && Run(s, []) == s;
  }

  ghost predicate OnlyCalls(calls: seq<Action>, w: nat) {
    forall k | 0 <= k < |calls| :: calls[k] == Call(w, NoFault)
  }

  /** Worker `w` alone has moved: it has created these names and is about to create `name`. */
  ghost predicate AboutToCreate(s: State, s': State, w: nat, made: seq<string>, name: string) {
    && w < |s.workers| == |s'.workers| && (forall j | 0 <= j < |s.workers| && j != w :: s'.workers[j] == s.workers[j])
    && s'.workers[w].Creating? && s'.workers[w].name == name
    && |s'.forest| == |s.forest| + |made| && s.forest <= s'.forest
    && forall k | 0 <= k < |made| :: Named(s'.forest[|s.forest| + k], made[k])
  }

  predicate Distinct(names: seq<string>) {
    forall k, l | 0 <= k < l < |names| :: names[k] != names[l]
  }

  lemma MissedLookup(s: State, w: nat, names: seq<string>, parent: Option<nat>)
    requires w < |s.workers| && names != [] && s.workers[w] == ToGo(names, parent) && !HasActive(s.forest, names[0])
    ensures Next(s, Call(w, NoFault)) ==
            State(s.forest, s.workers[w := Creating(names[0], names[1..], parent, |s.forest|)])
  {
    MatchesIffActive(s.forest, names[0]);
  }

  /** A lookup that finds nothing and the create after it. */
  lemma CreatedOne(s: State, w: nat, names: seq<string>, parent: Option<nat>) returns (s2: State)
    requires w < |s.workers| && names != [] && s.workers[w] == ToGo(names, parent) && !HasActive(s.forest, names[0])
    ensures s2 == Next(Next(s, Call(w, NoFault)), Call(w, NoFault))
    ensures s2.forest == s.forest + [Project(names[0], parent, true, true)] && |s2.workers| == |s.workers|
    ensures s2.workers[w] == ToGo(names[1..], Some(|s.forest|))
    ensures forall j | 0 <= j < |s.workers| && j != w :: s2.workers[j] == s.workers[j]
  {
    MissedLookup(s, w, names, parent);
    s2 := Next(Next(s, Call(w, NoFault)), Call(w, NoFault));
  }

  lemma OthersUnused(f: Forest, p: Project, names: seq<string>, u: nat)
    requires 0 < u < |names| && Distinct(names[..u + 1]) && p.active && p.name == names[0]
    requires forall l | 0 <= l <= u :: !HasActive(f, names[l])
    ensures Distinct(names[1..][..u]) && forall l | 0 <= l < u :: !HasActive(f + [p], names[1..][l])
  {
    assert names[1..][..u] == names[..u + 1][1..];
    forall l | 0 <= l < u
      ensures !HasActive(f + [p], names[1..][l])
    {
      assert names[..u + 1][0] != names[..u + 1][l + 1];
      ActiveAfter(f, p, names[l + 1]);
    }
  }

  /** Through unused names up to the `u`-th. */
  lemma {:induction false} ReachNew(s: State, w: nat, names: seq<string>, parent: Option<nat>, u: nat)
    returns (calls: seq<Action>)
    requires w < |s.workers| && s.workers[w] == ToGo(names, parent) && u < |names| && Distinct(names[..u + 1])
    requires forall l | 0 <= l <= u :: !HasActive(s.forest, names[l])
    ensures OnlyCalls(calls, w) && AboutToCreate(s, Run(s, calls), w, names[..u], names[u])
    decreases u
  {
    var call := Call(w, NoFault);
    if u == 0 {
      MissedLookup(s, w, names, parent);
      calls := [call] + [];
      RunFirst(s, call, []);
    } else {
      var s2 := CreatedOne(s, w, names, parent);
      OthersUnused(s.forest, Project(names[0], parent, true, true), names, u);
      var more := ReachNew(s2, w, names[1..], Some(|s.forest|), u - 1);
      calls := [call] + ([call] + more);
      RunFirst(s, call, [call] + more);
      RunFirst(Next(s, call), call, more);
      NewReached(s, s2, Run(s2, more), w, names, u);
    }
  }

  lemma NewReached(s: State, s2: State, s': State, w: nat, names: seq<string>, u: nat)
    requires 0 < u < |names| && s.forest <= s2.forest && |s2.forest| == |s.forest| + 1
    requires Named(s2.forest[|s.forest|], names[0]) && |s2.workers| == |s.workers|
    requires forall j | 0 <= j < |s.workers| && j != w :: s2.workers[j] == s.workers[j]
    requires AboutToCreate(s2, s', w, names[1..][..u - 1], names[1..][u - 1])
    ensures AboutToCreate(s, s', w, names[..u], names[u])
  {
    forall k | 0 <= k < u
      ensures Named(s'.forest[|s.forest| + k], names[k])
    {
      if k > 0 {
        assert names[1..][..u - 1][k - 1] == names[k];
        assert |s2.forest| + (k - 1) == |s.forest| + k;
      } else {
        assert s'.forest[|s.forest|] == s2.forest[|s.forest|];
      }
    }
  }

  /** What came on top of `f` has no name that is in use there. */
  ghost predicate OnTop(f: Forest, g: Forest) {
    f <= g && forall q | |f| <= q < |g| :: !HasActive(f, g[q].name)
  }

  lemma {:induction false} OldFound(f: Forest, g: Forest, name: string)
    requires UniqueActive(f) && OnTop(f, g) && HasActive(f, name)
    ensures Matches(g, name) == [ActiveId(f, name)]
    decreases |g|
  {
    if |g| == |f| {
      assert g == f;
      OnlyMatch(f, ActiveId(f, name), name);
    } else {
      assert f <= g[..|g| - 1];
      OldFound(f, g[..|g| - 1], name);
    }
  }

  /** Past one old project: a lookup, and one fetch if there is a parent to compare. */
  lemma PassOld(f: Forest, s: State, w: nat, names: seq<string>, parent: Option<nat>) returns (calls: seq<Action>)
    requires UniqueActive(f) && OnTop(f, s.forest) && w < |s.workers| && names != []
             && s.workers[w] == ToGo(names, parent)
    requires HasActive(f, names[0]) && Sits(f, ActiveId(f, names[0]), names[0], parent)
    ensures OnlyCalls(calls, w)
    ensures Run(s, calls) == State(s.forest, s.workers[w := ToGo(names[1..], Some(ActiveId(f, names[0])))])
  {
    var id := ActiveId(f, names[0]);
    var call := Call(w, NoFault);
    OldFound(f, s.forest, names[0]);
    assert f[id] == s.forest[id];
    if parent.None? {
      calls := [call] + [];
      RunFirst(s, call, []);
    } else {
      calls := [call] + ([call] + []);
      RunFirst(s, call, [call] + []);
      RunFirst(Next(s, call), call, []);
    }
  }

  /** Through old projects and then new ones up to the `u`-th. */
  lemma {:induction false} Reach(f: Forest, s: State, w: nat, names: seq<string>, parent: Option<nat>, u: nat)
    returns (calls: seq<Action>)
    requires UniqueActive(f) && OnTop(f, s.forest) && w < |s.workers| && s.workers[w] == ToGo(names, parent)
    requires u < |GrowthOf(f, names, parent).names|
    requires forall l | 0 <= l <= u :: !HasActive(s.forest, GrowthOf(f, names, parent).names[l])
    ensures OnlyCalls(calls, w)
    ensures AboutToCreate(s, Run(s, calls), w, GrowthOf(f, names, parent).names[..u],
                          GrowthOf(f, names, parent).names[u])
    decreases |names|
  {
    if HasActive(f, names[0]) {
      var before := PassOld(f, s, w, names, parent);
      var s1 := Run(s, before);
      var more := Reach(f, s1, w, names[1..], Some(ActiveId(f, names[0])), u);
      calls := before + more;
      RunOnto(s, before, more);
      var made := GrowthOf(f, names, parent).names;
      OnlyWorkerMoved(s, s1, Run(s1, more), w, made[..u], made[u]);
    } else {
      var free := Fresh(f, names, {});
      FreshIsPrefix(f, names, {});
      assert free[..u + 1] == names[..u + 1] && free[..u] == names[..u];
      calls := ReachNew(s, w, names, parent, u);
    }
  }

  lemma FirstCommon(a: seq<string>, b: seq<string>, k: nat) returns (t: nat, u: nat)
    requires k < |a| && a[k] in b
    ensures t < |a| && u < |b| && a[t] == b[u] && forall l | 0 <= l < t :: a[l] !in b
    decreases k
  {
    if l :| 0 <= l < k && a[l] in b {
      t, u := FirstCommon(a, b, l);
    } else {
      t := k;
      u :| 0 <= u < |b| && b[u] == a[k];
    }
  }

  /** Two workers about to create the same name both do. */
  lemma CreateTwice(s: State, i: nat, j: nat, name: string)
    requires i < |s.workers| && j < |s.workers| && i != j
    requires s.workers[i].Creating? && s.workers[i].name == name && s.workers[j].Creating? && s.workers[j].name == name
    ensures !UniqueActive(Run(s, [Call(i, NoFault)] + [Call(j, NoFault)]).forest)
  {
    var s1 := Next(s, Call(i, NoFault));
    var s2 := Next(s1, Call(j, NoFault));
    RunFirst(s, Call(i, NoFault), [Call(j, NoFault)]);
    assert [Call(j, NoFault)] == [Call(j, NoFault)] + [];
    RunFirst(s1, Call(j, NoFault), []);
    assert s1.workers[j] == s.workers[j];
    var n := |s.forest|;
    assert Named(s2.forest[n], name) && Named(s2.forest[n + 1], name);
  }

  lemma CreateTwiceAfter(chains: seq<seq<string>>, s: State, before: seq<Action>, i: nat, j: nat, name: string)
    returns (actions: seq<Action>)
    requires KeepTo(chains, before) && i != j && i < |Run(s, before).workers| && j < |Run(s, before).workers|
    requires var w := Run(s, before).workers[i]; w.Creating? && w.name == name
    requires var w := Run(s, before).workers[j]; w.Creating? && w.name == name
    ensures KeepTo(chains, actions) && !UniqueActive(Run(s, actions).forest)
  {
    CreateTwice(Run(s, before), i, j, name);
    actions := before + ([Call(i, NoFault)] + [Call(j, NoFault)]);
    RunOnto(s, before, [Call(i, NoFault)] + [Call(j, NoFault)]);
  }

  lemma MadeOnTop(f: Forest, s: State, s': State, w: nat, made: seq<string>, name: string)
    requires s.forest == f && AboutToCreate(s, s', w, made, name) && forall k | 0 <= k < |made| ::
               !HasActive(f, made[k])
    ensures OnTop(f, s'.forest)
    ensures forall n :: HasActive(s'.forest, n) ==> HasActive(f, n) || n in made
  {
    var g := s'.forest;
    forall q | |f| <= q < |g|
      ensures g[q].name in made
    {
      assert Named(g[|f| + (q - |f|)], made[q - |f|]);
    }
    forall n | HasActive(g, n)
      ensures HasActive(f, n) || n in made
    {
      OldIsActive(f, g, ActiveId(g, n), n);
    }
  }

  lemma BeginAndReach(f: Forest, s: State, chains: seq<seq<string>>, w: nat, u: nat) returns (actions: seq<Action>)
    requires Good(f) && OnTop(f, s.forest) && w < |chains| == |s.workers| && s.workers[w].Finished?
    requires u < |GrowthOf(f, chains[w], None).names|
    requires forall l | 0 <= l <= u :: !HasActive(s.forest, GrowthOf(f, chains[w], None).names[l])
    ensures KeepTo(chains, actions)
    ensures var names := GrowthOf(f, chains[w], None).names;
            AboutToCreate(s, Run(s, actions), w, names[..u], names[u])
  {
    var begin := Begin(w, chains[w]);
    var names := GrowthOf(f, chains[w], None).names;
    var calls := Reach(f, Next(s, begin), w, chains[w], None, u);
    actions := [begin] + calls;
    RunFirst(s, begin, calls);
    OnlyWorkerMoved(s, Next(s, begin), Run(Next(s, begin), calls), w, names[..u], names[u]);
  }

  lemma OnlyWorkerMoved(s: State, s1: State, s': State, w: nat, made: seq<string>, name: string)
    requires w < |s.workers| == |s1.workers| && s1.forest == s.forest
    requires forall j | 0 <= j < |s.workers| && j != w :: s1.workers[j] == s.workers[j]
    requires AboutToCreate(s1, s', w, made, name)
    ensures AboutToCreate(s, s', w, made, name)
  {
  }

  /** Both workers get to their first common name, and neither knows of the other. */
  lemma CommonNameRaces(f: Forest, chains: seq<seq<string>>, i: nat, j: nat, name: string)
    returns (actions: seq<Action>)
    requires Good(f) && i < |chains| && j < |chains| && i != j
    requires name in GrowthOf(f, chains[i], None).names && name in GrowthOf(f, chains[j], None).names
    ensures KeepTo(chains, actions) && !UniqueActive(Run(Start(f, |chains|), actions).forest)
  {
    var a, b := GrowthOf(f, chains[i], None).names, GrowthOf(f, chains[j], None).names;
    GrowthIsOk(f, chains[i], None);
    GrowthIsOk(f, chains[j], None);
    var k :| 0 <= k < |a| && a[k] == name;
    var t, u := FirstCommon(a, b, k);
    var s := Start(f, |chains|);
    var first := BeginAndReach(f, s, chains, i, t);
    MadeOnTop(f, s, Run(s, first), i, a[..t], a[t]);
    var second := BeginAndReach(f, Run(s, first), chains, j, u);
    RunOnto(s, first, second);
    actions := CreateTwiceAfter(chains, s, first + second, i, j, b[u]);
  }

  ghost predicate AlwaysUnique(f: Forest, chains: seq<seq<string>>) {
    forall actions | KeepTo(chains, actions) :: UniqueActive(Run(Start(f, |chains|), actions).forest)
  }

  /**
   Active names stay unique in every interleaving, however often each chain is retried and whatever
   calls fail, if and only if no two chains by themselves would create a project of the same name.
   */
  lemma UniqueIffDisjoint(f: Forest, chains: seq<seq<string>>)
    requires Good(f)
    ensures AlwaysUnique(f, chains) <==> PairwiseDisjoint(f, chains)
  {
    if PairwiseDisjoint(f, chains) {
      forall actions | KeepTo(chains, actions)
        ensures UniqueActive(Run(Start(f, |chains|), actions).forest)
      {
        EveryRunOnCourse(f, chains, actions);
      }
    } else {
      var i, j :| 0 <= i < j < |chains| && !(Created(f, chains[i]) !! Created(f, chains[j]));
      var name :| name in Created(f, chains[i]) && name in Created(f, chains[j]);
      CreatedIsGrowth(f, chains[i]);
      CreatedIsGrowth(f, chains[j]);
      var actions := CommonNameRaces(f, chains, i, j, name);
      assert !UniqueActive(Run(Start(f, |chains|), actions).forest);
    }
  }

  lemma TwoLevelGrowth(f: Forest, root: string, name: string)
    requires root != name && !HasActive(f, name)
    ensures GrowthOf(f, [root, name], None).names == if HasActive(f, root) then [name] else [root, name]
  {
    assert [root, name][1..] == [name] && [name][1..] == [];
    assert Fresh(f, [name], {}) == [name] + Fresh(f, [], {} + {name});
    assert Fresh(f, [name], {} + {root}) == [name] + Fresh(f, [], {} + {root} + {name});
    assert [root] + [name] == [root, name];
  }

  /**
   Two environments of one project, below the same root and both still to be created: reconciling them
   at the same time is safe exactly when the root is already there.
   */
  lemma SharedRootIsSafeIffThere(f: Forest, root: string, one: string, other: string)
    requires Good(f) && one != other && root != one && root != other && !HasActive(f, one) && !HasActive(f, other)
    ensures AlwaysUnique(f, [[root, one], [root, other]]) <==> HasActive(f, root)
  {
    var chains := [[root, one], [root, other]];
    TwoLevelGrowth(f, root, one);
    TwoLevelGrowth(f, root, other);
    CreatedIsGrowth(f, chains[0]);
    CreatedIsGrowth(f, chains[1]);
    UniqueIffDisjoint(f, chains);
    if !HasActive(f, root) {
      assert root in Created(f, chains[0]) && root in Created(f, chains[1]);
    }
  }
}
