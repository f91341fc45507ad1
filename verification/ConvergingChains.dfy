/**
 Retrying interleaved chains. When no two chains would create the same name, every chain ends as it
 would by itself, up to the numbering of new projects, whatever the others do and whatever calls fail.
 */
module ConvergingChains {
  import opened Options
  import opened ProjectForest
  import opened ConcurrentChains
  import opened DisjointChains

  // ---- The same project in two forests grown from one ---------------------------------------

  /** The same old project, or new projects of the same name, or none in both. */
  ghost predicate SameProject(f: Forest, g: Forest, p: Option<nat>, h: Forest, q: Option<nat>) {
    || (p == q && (p.Some? ==> p.value < |f|))
    || (p.Some? && q.Some? && |f| <= p.value < |g| && |f| <= q.value < |h| && g[p.value].name == h[q.value].name)
  }

  /** New projects with the same name below the same project. */
  ghost predicate Alike(f: Forest, g: Forest, p: nat, h: Forest, q: nat) {
    && p < |g| && q < |h| && g[p].active && h[q].active && g[p].name == h[q].name
    && SameProject(f, g, g[p].parent, h, h[q].parent)
  }

  ghost predicate HasAlike(f: Forest, g: Forest, p: nat, h: Forest) {
    exists q :: |f| <= q && Alike(f, g, p, h, q)
  }

  lemma SamePlaceIsAlike(f: Forest, gr: Growth, l: nat, g: Forest, p: nat, h: Forest, q: nat)
    requires GrowthOk(f, gr) && l < |gr.names| && p < |g| && q < |h|
    requires IsGrown(f, g, gr, l, p) && IsGrown(f, h, gr, l, q)
    ensures Alike(f, g, p, h, q)
  {
  }

  // ---- A chain that can be had stays so -----------------------------------------------------

  /** Where the next name is in use, it sits under the project the worker stands on. */
  lemma NextFits(f: Forest, g: Forest, growths: seq<Growth>, i: nat, name: string, rest: seq<string>,
                 parent: Option<nat>, t: nat)
    requires Setting(f, growths) && Grown(f, g, growths) && UniqueActive(g) && i < |growths| && growths[i].complete
    requires At(f, g, growths[i], [name] + rest, parent, t) && HasActive(g, name)
    ensures Sits(g, ActiveId(g, name), name, parent)
  {
    var gr := growths[i];
    var q := ActiveId(g, name);
    if t == 0 {
      if HasActive(f, name) {
        OldMatch(f, g, growths, q, name);
      } else {
        assert gr.names == [name] + Fresh(f, rest, {} + {name}) by {
          assert ([name] + rest)[1..] == rest;
        }
        NewMatch(f, g, growths, i, 0, q);
      }
    } else {
      assert gr.names[t..] != [] && gr.names[t..][0] == name;
      NewMatch(f, g, growths, i, t, q);
      SameNamed(f, g, growths, parent.value, g[q].parent.value);
    }
  }

  lemma SameNamed(f: Forest, g: Forest, growths: seq<Growth>, p: nat, q: nat)
    requires Grown(f, g, growths) && UniqueActive(g) && |f| <= p < |g| && |f| <= q < |g| && g[p].name == g[q].name
    ensures p == q
  {
    assert GrownByOne(f, g, growths, p) && GrownByOne(f, g, growths, q);
  }

  lemma GetFits(f: Forest, g: Forest, growths: seq<Growth>, i: nat, name: string, rest: seq<string>,
                parent: Option<nat>)
    requires Setting(f, growths) && Grown(f, g, growths) && Good(g) && i < |growths| && growths[i].complete
    requires (parent.Some? ==> parent.value < |g|) && exists t: nat :: At(f, g, growths[i], [name] + rest, parent, t)
    ensures var got := GetOrCreate(g, name, parent, false, []);
            && got.faults == [] && Grown(f, got.forest, growths) && Good(got.forest) && got.project.Some?
            && got.project.value < |got.forest|
            && exists t: nat :: At(f, got.forest, growths[i], rest, got.project, t)
  {
    var t: nat :| At(f, g, growths[i], [name] + rest, parent, t);
    if HasActive(g, name) {
      var q := ActiveId(g, name);
      NextFits(f, g, growths, i, name, rest, parent, t);
      assert [name][0] == name;
      OldStep(g, [name], parent);
      if t == 0 {
        TakeOld(f, g, growths, i, name, rest, parent, q);
      } else {
        TakeNew(f, g, growths, i, name, rest, parent.value, t, q);
      }
    } else {
      var p := Project(name, parent, true, true);
      MissingIsNext(f, g, growths[i], name, rest, parent, t);
      FreeNameIsCreated(g, name, parent);
      CreateNext(f, g, growths[i], name, rest, parent, t);
      GrownLonger(f, g, growths, i, t, p);
      AppendIsForest(g, p);
      AppendUnique(g, p);
      assert forall j: nat | j < |g| :: !Named(g[j], name);
    }
  }

  /** With nobody else around, and no fault, the rest of a chain that can be had is had. */
  lemma {:induction false} RestSucceeds(f: Forest, g: Forest, growths: seq<Growth>, i: nat, names: seq<string>,
                                        parent: Option<nat>)
    requires Setting(f, growths) && Grown(f, g, growths) && Good(g) && i < |growths| && growths[i].complete
    requires (parent.Some? ==> parent.value < |g|) && exists t: nat :: At(f, g, growths[i], names, parent, t)
    ensures var (h, w) := Alone(g, ToGo(names, parent), []);
            w.Finished? && w.ok && Grown(f, h, growths) && OnCourse(f, h, growths[i], w)
    decreases |names|
  {
    if names == [] {
      ToGoOnCourse(f, g, growths[i], names, parent);
    } else {
      assert [names[0]] + names[1..] == names;
      GetAlone(g, names[0], names[1..], parent, []);
      GetFits(f, g, growths, i, names[0], names[1..], parent);
      var got := GetOrCreate(g, names[0], parent, false, []);
      RestSucceeds(f, got.forest, growths, i, names[1..], got.project);
    }
  }

  // ---- A chain by itself --------------------------------------------------------------------

  lemma {:induction false} RowProjects(n: nat, names: seq<string>, under: Option<nat>, k: nat)
    requires k < |names|
    ensures |Row(n, names, under)| == |names|
    ensures Row(n, names, under)[k] == Project(names[k], if k == 0 then under else Some(n + k - 1), true, true)
    decreases |names|
  {
    RowNames(n, names, under);
    if k > 0 {
      RowProjects(n + 1, names[1..], Some(n), k - 1);
    }
  }

  lemma RowPlace(f: Forest, gr: Growth, l: nat)
    requires GrowthOk(f, gr) && l < |gr.names|
    ensures var g := f + Row(|f|, gr.names, gr.under);
            |g| == |f| + |gr.names| && IsGrown(f, g, gr, l, |f| + l)
  {
    RowProjects(|f|, gr.names, gr.under, l);
    if l > 0 {
      RowProjects(|f|, gr.names, gr.under, l - 1);
    }
  }

  lemma RowIsGrown(f: Forest, gr: Growth)
    requires GrowthOk(f, gr)
    ensures Grown(f, f + Row(|f|, gr.names, gr.under), [gr])
  {
    var g := f + Row(|f|, gr.names, gr.under);
    RowNames(|f|, gr.names, gr.under);
    assert |g| == |f| + |gr.names|;
    forall q | |f| <= q < |g|
      ensures GrownByOne(f, g, [gr], q)
    {
      RowPlace(f, gr, q - |f|);
      OneGrowth(f, g, gr, q - |f|, q);
    }
  }

  lemma OneGrowth(f: Forest, g: Forest, gr: Growth, l: nat, q: nat)
    requires l < |gr.names| && q < |g| && IsGrown(f, g, gr, l, q)
    ensures GrownByOne(f, g, [gr], q)
  {
    assert GrownBy(f, g, [gr][0], q);
  }

  lemma ChainOnCourse(f: Forest, names: seq<string>)
    requires Good(f)
    ensures var a := Chain(f, names, None, []);
            var gr := GrowthOf(f, names, None);
            Setting(f, [gr]) && Grown(f, a.forest, [gr]) && OnCourse(f, a.forest, gr, Ending(a, None))
  {
    var gr := GrowthOf(f, names, None);
    GrowthIsOk(f, names, None);
    ChainGrows(f, names, None);
    RowIsGrown(f, gr);
    if gr.complete {
      assert At(f, f, gr, names, None, 0);
      RestSucceeds(f, f, [gr], 0, names, None);
      AloneIsChain(f, names, None, []);
    }
  }

  // ---- Finished chains ----------------------------------------------------------------------

  /** A worker at the end of its names stands where its growth ends, with all of it in place. */
  lemma EndOfCourse(f: Forest, g: Forest, gr: Growth, project: Option<nat>)
    requires OnCourse(f, g, gr, Finished(true, project))
    ensures gr.complete && forall l | 0 <= l < |gr.names| :: HasActive(g, gr.names[l])
    ensures gr.names == [] ==> project == gr.under
    ensures gr.names != [] ==>
              project.Some? && |f| <= project.value < |g| && g[project.value].name == gr.names[|gr.names| - 1]
  {
    var t: nat :| At(f, g, gr, [], project, t);
    if t > 0 {
      assert gr.names[t..] == [];
    }
  }

  lemma SameEnd(f: Forest, gr: Growth, g: Forest, p: Option<nat>, h: Forest, q: Option<nat>)
    requires GrowthOk(f, gr) && OnCourse(f, g, gr, Finished(true, p)) && OnCourse(f, h, gr, Finished(true, q))
    ensures SameProject(f, g, p, h, q)
  {
    EndOfCourse(f, g, gr, p);
    EndOfCourse(f, h, gr, q);
  }

  lemma InPlace(f: Forest, g: Forest, growths: seq<Growth>, i: nat, l: nat)
    requires Setting(f, growths) && Grown(f, g, growths) && i < |growths| && l < |growths[i].names|
    requires HasActive(g, growths[i].names[l])
    ensures var q := ActiveId(g, growths[i].names[l]);
            |f| <= q && IsGrown(f, g, growths[i], l, q)
  {
    NewMatch(f, g, growths, i, l, ActiveId(g, growths[i].names[l]));
  }

  /** Everything the chain adds by itself is there, alike, once a worker has got through. */
  lemma AllInPlace(f: Forest, names: seq<string>, g: Forest, growths: seq<Growth>, i: nat, project: Option<nat>, x: nat)
    requires Good(f) && Setting(f, growths) && Grown(f, g, growths) && i < |growths|
             && growths[i] == GrowthOf(f, names, None)
    requires OnCourse(f, g, growths[i], Finished(true, project))
    requires |f| <= x < |Chain(f, names, None, []).forest|
    ensures HasAlike(f, Chain(f, names, None, []).forest, x, g)
  {
    var h := Chain(f, names, None, []).forest;
    var gr := growths[i];
    ChainOnCourse(f, names);
    assert GrownByOne(f, h, [gr], x);
    var l :| 0 <= l < |gr.names| && IsGrown(f, h, gr, l, x);
    EndOfCourse(f, g, gr, project);
    InPlace(f, g, growths, i, l);
    SamePlaceIsAlike(f, gr, l, h, x, g, ActiveId(g, gr.names[l]));
  }

  /** A project at some place of a growth is alike the one the chain adds there by itself. */
  lemma PlaceIsChains(f: Forest, names: seq<string>, g: Forest, l: nat, q: nat) returns (x: nat)
    requires Good(f) && q < |g| && l < |GrowthOf(f, names, None).names| && IsGrown(f, g, GrowthOf(f, names, None), l, q)
    ensures Alike(f, Chain(f, names, None, []).forest, x, g, q)
  {
    var gr := GrowthOf(f, names, None);
    var h := Chain(f, names, None, []).forest;
    ChainOnCourse(f, names);
    CreatedIsGrowth(f, names);
    x := CreatedWhere(f, names, gr.names[l]);
    assert GrownByOne(f, h, [gr], x);
    NewMatch(f, h, [gr], 0, l, x);
    SamePlaceIsAlike(f, gr, l, h, x, g, q);
  }

  /** A finished worker and its chain by itself, compared. */
  lemma GotThrough(f: Forest, names: seq<string>, g: Forest, growths: seq<Growth>, i: nat, project: Option<nat>)
    requires Good(f) && Setting(f, growths) && Grown(f, g, growths) && i < |growths|
             && growths[i] == GrowthOf(f, names, None)
    requires OnCourse(f, g, growths[i], Finished(true, project))
    ensures var alone := Chain(f, names, None, []);
            !alone.failed && SameProject(f, alone.forest, Ending(alone, None).project, g, project)
  {
    EndOfCourse(f, g, growths[i], project);
    ChainGrows(f, names, None);
    ChainOnCourse(f, names);
    var alone := Chain(f, names, None, []);
    SameEnd(f, growths[i], alone.forest, Ending(alone, None).project, g, project);
  }

  // ---- In every run -------------------------------------------------------------------------

  lemma RunSettings(f: Forest, chains: seq<seq<string>>, actions: seq<Action>)
    requires Good(f) && PairwiseDisjoint(f, chains) && KeepTo(chains, actions)
    ensures var g := Run(Start(f, |chains|), actions).forest;
            Setting(f, Growths(f, chains)) && Grown(f, g, Growths(f, chains)) && Good(g)
    ensures AllOnCourse(f, Growths(f, chains), Run(Start(f, |chains|), actions))
  {
    SettingOf(f, chains);
    EveryRunOnCourse(f, chains, actions);
  }

  /**
   A worker whose chain got through, in any run, did what the chain does by itself: that does not fail,
   all its new projects are there, each under the same project, and the worker ends on the same one.
   */
  lemma SuccessIsAsAlone(f: Forest, chains: seq<seq<string>>, actions: seq<Action>, i: nat)
    requires Good(f) && PairwiseDisjoint(f, chains) && KeepTo(chains, actions) && i < |chains|
    requires var w := Run(Start(f, |chains|), actions).workers; i < |w| && w[i].Finished? && w[i].ok
    ensures var s := Run(Start(f, |chains|), actions);
            var alone := Chain(f, chains[i], None, []);
            && !alone.failed
            && SameProject(f, alone.forest, Ending(alone, None).project, s.forest, s.workers[i].project)
            && forall x: nat {:trigger HasAlike(f, alone.forest, x, s.forest)} | |f| <= x < |alone.forest| ::
                 HasAlike(f, alone.forest, x, s.forest)
  {
    var s := Run(Start(f, |chains|), actions);
    var growths := Growths(f, chains);
    RunSettings(f, chains, actions);
    assert OnCourse(f, s.forest, growths[i], s.workers[i]);
    GotThrough(f, chains[i], s.forest, growths, i, s.workers[i].project);
    forall x: nat | |f| <= x < |Chain(f, chains[i], None, []).forest|
      ensures HasAlike(f, Chain(f, chains[i], None, []).forest, x, s.forest)
    {
      AllInPlace(f, chains[i], s.forest, growths, i, s.workers[i].project, x);
    }
  }

  /** Nothing else is ever added: each new project is alike one that some chain adds by itself. */
  lemma NothingElseIsAdded(f: Forest, chains: seq<seq<string>>, actions: seq<Action>, q: nat) returns (i: nat, x: nat)
    requires Good(f) && PairwiseDisjoint(f, chains) && KeepTo(chains, actions)
    requires |f| <= q < |Run(Start(f, |chains|), actions).forest|
    ensures var g := Run(Start(f, |chains|), actions).forest;
            i < |chains| && Alike(f, Chain(f, chains[i], None, []).forest, x, g, q)
  {
    var g := Run(Start(f, |chains|), actions).forest;
    var growths := Growths(f, chains);
    RunSettings(f, chains, actions);
    assert GrownByOne(f, g, growths, q);
    i :| 0 <= i < |growths| && GrownBy(f, g, growths[i], q);
    var l :| 0 <= l < |growths[i].names| && IsGrown(f, g, growths[i], l, q);
    x := PlaceIsChains(f, chains[i], g, l, q);
  }

  /**
   A chain that succeeds by itself succeeds after any run, tried once more without faults and with
   nobody else around; no interleaving and no fault can make it infeasible.
   */
  lemma RetrySucceeds(f: Forest, chains: seq<seq<string>>, actions: seq<Action>, i: nat)
    requires Good(f) && PairwiseDisjoint(f, chains) && KeepTo(chains, actions) && i < |chains|
    requires !Chain(f, chains[i], None, []).failed
    ensures var g := Run(Start(f, |chains|), actions).forest;
            var a := Chain(g, chains[i], None, []);
            var alone := Chain(f, chains[i], None, []);
            !a.failed && SameProject(f, alone.forest, Ending(alone, None).project, a.forest, Ending(a, None).project)
  {
    var g := Run(Start(f, |chains|), actions).forest;
    var growths := Growths(f, chains);
    RunSettings(f, chains, actions);
    ChainGrows(f, chains[i], None);
    assert At(f, g, growths[i], chains[i], None, 0);
    RestSucceeds(f, g, growths, i, chains[i], None);
    AloneIsChain(g, chains[i], None, []);
    GotThrough(f, chains[i], Chain(g, chains[i], None, []).forest, growths, i,
               Ending(Chain(g, chains[i], None, []), None).project);
  }
}
