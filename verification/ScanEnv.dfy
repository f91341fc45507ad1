/**
 The environment of a scan pod: base variables, then selected variables of the build pod, then the
 configured extras, turned into a list sorted by name.
 */
module ScanEnv {
  import opened Options
  import opened Strings

  /** `valueFrom` stands for a Kubernetes value source, carried along unread. */
  datatype EnvVar = EnvVar(name: string, value: string, valueFrom: Option<string>)
  type EnvMap = map<string, EnvVar>

  // ---- Which build-pod variables are copied -------------------------------------------------

  /** Simple case folding onto upper-case ASCII, with the two non-ASCII letters that fold there. */
  function Fold(c: char): char {
    if 'a' <= c <= 'z' then (c as int - 32) as char
    else if c == '\U{017F}' then 'S'
    else if c == '\U{212A}' then 'K'
    else c
  }

  predicate FoldsTo(v: string, upper: string) {
    |v| == |upper| && forall i | 0 <= i < |v| :: Fold(v[i]) == upper[i]
  }

  /** The two shapes in the source's list: a literal, and a literal followed by `.+`. */
  datatype Pattern = Literal(text: string) | Prefix(text: string)

  /** `(?i)^pattern$`; a dot does not match a newline. */
  predicate Matches(p: Pattern, v: string) {
    match p
    case Literal(text) => FoldsTo(v, text)
    case Prefix(text) => |v| > |text| && FoldsTo(v[..|text|], text) && '\n' !in v[|text|..]
  }

  const COPY_VARS: seq<Pattern> := [
    Literal("BRANCH"), Literal("BUILD_TYPE"), Literal("ENVIRONMENT"), Literal("ENVIRONMENT_TYPE"), Literal("PROJECT"),
    Literal("PR_BASE_BRANCH"), Literal("PR_HEAD_BRANCH"), Literal("PR_NUMBER"),
    Literal("LAGOON_ENVIRONMENT_VARIABLES"), Prefix("LAGOON_FEATURE_FLAG_")]

  predicate Copied(name: string) {
    exists i | 0 <= i < |COPY_VARS| :: Matches(COPY_VARS[i], name)
  }

  /** `containsRegex` over the source's list. */
  method ContainsRegex(v: string) returns (found: bool)
    ensures found == Copied(v)
  {
    for i := 0 to |COPY_VARS|
      invariant forall j | 0 <= j < i :: !Matches(COPY_VARS[j], v)
    {
      if Matches(COPY_VARS[i], v) {
        return true;
      }
    }
    found := false;
  }

  const COPIED_NAMES := ["BRANCH", "BUILD_TYPE", "ENVIRONMENT", "ENVIRONMENT_TYPE", "PROJECT",
                         "PR_BASE_BRANCH", "PR_HEAD_BRANCH", "PR_NUMBER", "LAGOON_ENVIRONMENT_VARIABLES"]

  /** The same letter in either case, or one of the two others that fold to S and K; else the same character. */
  predicate SameLetter(c: char, upper: char) {
    || (c == upper && !('a' <= c <= 'z') && c != '\U{017F}' && c != '\U{212A}')
    || ('a' <= c <= 'z' && c as int == upper as int + ('a' as int - 'A' as int))
    || (c == '\U{017F}' && upper == 'S')
    || (c == '\U{212A}' && upper == 'K')
  }

  predicate SameWord(v: string, upper: string) {
    |v| == |upper| && forall i | 0 <= i < |v| :: SameLetter(v[i], upper[i])
  }

  lemma FoldMeaning(v: string, upper: string)
    ensures FoldsTo(v, upper) <==> SameWord(v, upper)
  {
  }

  /** What is copied: nine names, and feature flags with something after the prefix, in any letter case. */
  lemma CopiedMeaning(name: string)
    ensures Copied(name) <==>
            || (exists i | 0 <= i < |COPIED_NAMES| :: SameWord(name, COPIED_NAMES[i]))
            || (|name| > 20 && SameWord(name[..20], "LAGOON_FEATURE_FLAG_") && '\n' !in name[20..])
  {
    assert |COPY_VARS| == 10 && |COPIED_NAMES| == 9 && |"LAGOON_FEATURE_FLAG_"| == 20;
    forall i | 0 <= i < 9
      ensures Matches(COPY_VARS[i], name) <==> SameWord(name, COPIED_NAMES[i])
    {
      assert COPY_VARS[i] == Literal(COPIED_NAMES[i]);
      FoldMeaning(name, COPIED_NAMES[i]);
    }
    assert COPY_VARS[9] == Prefix("LAGOON_FEATURE_FLAG_");
    if |name| > 20 {
      FoldMeaning(name[..20], "LAGOON_FEATURE_FLAG_");
    }
    if Copied(name) {
      var i :| 0 <= i < |COPY_VARS| && Matches(COPY_VARS[i], name);
      assert i < 9 ==> SameWord(name, COPIED_NAMES[i]);
    }
    if i :| 0 <= i < |COPIED_NAMES| && SameWord(name, COPIED_NAMES[i]) {
      assert Matches(COPY_VARS[i], name);
    }
    assert Matches(COPY_VARS[9], name) <==>
           |name| > 20 && SameWord(name[..20], "LAGOON_FEATURE_FLAG_") && '\n' !in name[20..];
  }

  // ---- Layering -----------------------------------------------------------------------------

  function Plain(name: string, value: string): EnvVar {
    EnvVar(name, value, None)
  }

  function Base(images: seq<string>, namespace: string, dockerHost: string, buildName: string): EnvMap {
    map["INSIGHT_SCAN_IMAGES" := Plain("INSIGHT_SCAN_IMAGES", Join(images, ',')),
        "NAMESPACE" := Plain("NAMESPACE", namespace),
        "DOCKER_HOST" := Plain("DOCKER_HOST", dockerHost),
        "LAGOON_BUILD_NAME" := Plain("LAGOON_BUILD_NAME", buildName)]
  }

  /** What a lookup by name must give: the extra, else the last copied build-pod entry, else the base. */
  function Layered(base: EnvMap, build: seq<EnvVar>, extra: map<string, string>, name: string): Option<EnvVar> {
    if name in extra then Some(Plain(name, extra[name]))
    else if Copied(name) && LastNamed(build, name).Some? then LastNamed(build, name)
    else if name in base then Some(base[name])
    else None
  }

  function LastNamed(build: seq<EnvVar>, name: string): Option<EnvVar> {
    if build == [] then None
    else if build[|build| - 1].name == name then Some(build[|build| - 1])
    else LastNamed(build[..|build| - 1], name)
  }

  predicate Keyed(env: EnvMap) {
    forall k | k in env :: env[k].name == k
  }

  /** The merged map agrees with the layered lookup on every name. */
  ghost predicate Merges(env: EnvMap, base: EnvMap, build: seq<EnvVar>, extra: map<string, string>) {
    Keyed(env) && forall n :: Layered(base, build, extra, n) == if n in env then Some(env[n]) else None
  }

  lemma MergeNone(base: EnvMap)
    requires Keyed(base)
    ensures Merges(base, base, [], map[])
  {
  }

  lemma MergeOne(env: EnvMap, base: EnvMap, build: seq<EnvVar>, e: EnvVar)
    requires Merges(env, base, build, map[])
    ensures Merges(if Copied(e.name) then env[e.name := e] else env, base, build + [e], map[])
  {
    var after := if Copied(e.name) then env[e.name := e] else env;
    forall n
      ensures Layered(base, build + [e], map[], n) == if n in after then Some(after[n]) else None
    {
      assert (build + [e])[..|build|] == build;
      assert LastNamed(build + [e], n) == if e.name == n then Some(e) else LastNamed(build, n);
      assert Layered(base, build, map[], n) == if n in env then Some(env[n]) else None;
    }
  }

  method CopyBuildVars(base: EnvMap, build: seq<EnvVar>) returns (env: EnvMap)
    requires Keyed(base)
    ensures Merges(env, base, build, map[])
  {
    env := base;
    MergeNone(base);
    ghost var done: seq<EnvVar> := [];
    for i := 0 to |build|
      invariant done == build[..i] && Merges(env, base, done, map[])
    {
      var e := build[i];
      MergeOne(env, base, done, e);
      var copied := ContainsRegex(e.name);
      if copied {
        env := env[e.name := e];
      }
      done := done + [e];
    }
    assert done == build;
  }

  /** The extras are visited in map order, which Go leaves open. */
  method AddExtras(base: EnvMap, build: seq<EnvVar>, copied: EnvMap, extra: map<string, string>) returns (env: EnvMap)
    requires Merges(copied, base, build, map[])
    ensures Merges(env, base, build, extra)
  {
    env := copied;
    var pending := extra.Keys;
    while pending != {}
      invariant pending <= extra.Keys && Keyed(env)
      invariant forall n :: (if n in env then Some(env[n]) else None) ==
                            if n in extra && n !in pending then Some(Plain(n, extra[n]))
                            else Layered(base, build, map[], n)
      decreases pending
    {
      var k :| k in pending;
      env := env[k := Plain(k, extra[k])];
      pending := pending - {k};
    }
  }

  // ---- Sorting ------------------------------------------------------------------------------

  /** `sort.Strings` compares code units from the front. */
  predicate Less(a: string, b: string) {
    if b == [] then false
    else if a == [] then true
    else a[0] < b[0] || (a[0] == b[0] && Less(a[1..], b[1..]))
  }

  /** The two agree up to `k`, where the first one ends or has the smaller code unit. */
  predicate SmallerAt(a: string, b: string, k: nat) {
    k <= |a| && k < |b| && a[..k] == b[..k] && (k == |a| || a[k] < b[k])
  }

  /** At the first difference the smaller code unit decides, and a proper prefix comes first. */
  lemma {:induction false} LessMeaning(a: string, b: string)
    ensures Less(a, b) <==> exists k: nat :: SmallerAt(a, b, k)
  {
    if b != [] && (a == [] || a[0] < b[0]) {
      assert SmallerAt(a, b, 0);
    } else if a != [] && b != [] && a[0] == b[0] {
      LessMeaning(a[1..], b[1..]);
      if k: nat :| SmallerAt(a[1..], b[1..], k) {
        SmallerShifts(a, b, k);
      }
      if k: nat :| SmallerAt(a, b, k) {
        SmallerShifts(a, b, k - 1);
      }
    } else if a != [] && b != [] {
      forall k: nat
        ensures !SmallerAt(a, b, k)
      {
        if 0 < k <= |a| && k < |b| {
          assert a[..k][0] == a[0] && b[..k][0] == b[0];
        }
      }
    }
  }

  lemma SmallerShifts(a: string, b: string, k: nat)
    requires a != [] && b != [] && a[0] == b[0]
    ensures SmallerAt(a[1..], b[1..], k) <==> SmallerAt(a, b, k + 1)
  {
    if k < |a| && k + 1 < |b| {
      assert a[..k + 1] == [a[0]] + a[1..][..k] && b[..k + 1] == [b[0]] + b[1..][..k];
      assert a[1..][..k] == a[..k + 1][1..] && b[1..][..k] == b[..k + 1][1..];
    }
  }

  lemma {:induction false} LessTotal(a: string, b: string)
    ensures Less(a, b) || Less(b, a) || a == b
    ensures !(Less(a, b) && Less(b, a)) && !Less(a, a)
  {
    if a != [] && b != [] {
      LessTotal(a[1..], b[1..]);
      assert a == [a[0]] + a[1..] && b == [b[0]] + b[1..];
    }
    if a != [] {
      LessTotal(a[1..], a[1..]);
    }
  }

  lemma {:induction false} LessTransitive(a: string, b: string, c: string)
    requires Less(a, b) && Less(b, c)
    ensures Less(a, c)
  {
    if a != [] && a[0] == b[0] == c[0] {
      LessTransitive(a[1..], b[1..], c[1..]);
    }
  }

  ghost predicate Sorted(s: seq<string>) {
    forall i, j | 0 <= i < j < |s| :: Less(s[i], s[j])
  }

  function Insert(s: seq<string>, k: string): seq<string> {
    if s == [] || Less(k, s[0]) then [k] + s else [s[0]] + Insert(s[1..], k)
  }

  lemma {:induction false} InsertSorts(s: seq<string>, k: string)
    requires Sorted(s) && k !in s
    ensures Sorted(Insert(s, k))
    ensures forall n :: n in Insert(s, k) <==> n in s || n == k
  {
    if s == [] || Less(k, s[0]) {
      var r := [k] + s;
      forall i, j | 0 <= i < j < |r|
        ensures Less(r[i], r[j])
      {
        if i == 0 && j > 1 {
          LessTransitive(k, s[0], s[j - 1]);
        }
      }
    } else {
      var t := Insert(s[1..], k);
      InsertSorts(s[1..], k);
      LessTotal(k, s[0]);
      assert s == [s[0]] + s[1..];
      var r := [s[0]] + t;
      forall i, j | 0 <= i < j < |r|
        ensures Less(r[i], r[j])
      {
        if i == 0 {
          assert r[j] in t;
          assert r[j] == k || r[j] in s[1..];
        }
      }
    }
  }

  method SortStrings(keys: set<string>) returns (s: seq<string>)
    ensures Sorted(s) && forall n :: n in s <==> n in keys
  {
    s := [];
    var pending := keys;
    while pending != {}
      invariant pending <= keys && Sorted(s) && forall n :: n in s <==> n in keys && n !in pending
      decreases pending
    {
      var k :| k in pending;
      InsertSorts(s, k);
      s := Insert(s, k);
      pending := pending - {k};
    }
  }

  // ---- The result ---------------------------------------------------------------------------

  function Names(env: seq<EnvVar>): seq<string> {
    seq(|env|, i requires 0 <= i < |env| => env[i].name)
  }

  /** Strictly sorted by name, and a lookup of any name in it gives the layered value. */
  ghost predicate IsScanEnv(env: seq<EnvVar>, base: EnvMap, build: seq<EnvVar>, extra: map<string, string>) {
    && Sorted(Names(env))
    && (forall i | 0 <= i < |env| :: Layered(base, build, extra, env[i].name) == Some(env[i]))
    && forall n :: Layered(base, build, extra, n).Some? ==> n in Names(env)
  }

  datatype Result = Error | Env(vars: seq<EnvVar>)

  /** The environment part of `generateScanPodSpec`. */
  method GenerateScanEnv(images: seq<string>, namespace: string, dockerHost: string, buildName: string,
                         build: seq<EnvVar>, extra: map<string, string>) returns (r: Result)
    ensures r.Error? <==> images == []
    ensures r.Env? ==> IsScanEnv(r.vars, Base(images, namespace, dockerHost, buildName), build, extra)
    ensures r.Env? && "NAMESPACE" !in extra ==> EnvVar("NAMESPACE", namespace, None) in r.vars
    ensures r.Env? && "DOCKER_HOST" !in extra ==> EnvVar("DOCKER_HOST", dockerHost, None) in r.vars
    ensures r.Env? && "LAGOON_BUILD_NAME" !in extra ==> EnvVar("LAGOON_BUILD_NAME", buildName, None) in r.vars
    ensures r.Env? && "INSIGHT_SCAN_IMAGES" !in extra && (forall i | 0 <= i < |images| :: ',' !in images[i]) ==>
              exists v | v in r.vars ::
                v.name == "INSIGHT_SCAN_IMAGES" && v.valueFrom == None && Split(v.value, ',') == images
  {
    if images == [] {
      return Error;
    }
    var base := Base(images, namespace, dockerHost, buildName);
    assert Keyed(base);
    var copied := CopyBuildVars(base, build);
    var merged := AddExtras(base, build, copied, extra);
    var keys := SortStrings(merged.Keys);
    var vars := Collect(keys, merged);
    forall n | Layered(base, build, extra, n).Some?
      ensures n in Names(vars)
    {
      assert n in keys;
    }
    BaseMeaning(vars, images, namespace, dockerHost, buildName, build, extra);
    r := Env(vars);
  }

  lemma LayeredIsThere(vars: seq<EnvVar>, base: EnvMap, build: seq<EnvVar>, extra: map<string, string>, e: EnvVar)
    requires IsScanEnv(vars, base, build, extra) && Layered(base, build, extra, e.name) == Some(e)
    ensures e in vars
  {
    assert e.name in Names(vars);
    var i :| 0 <= i < |vars| && Names(vars)[i] == e.name;
    assert vars[i] == e;
  }

  /** The four base variables carry what they are named for, unless a configured extra replaces them. */
  lemma BaseMeaning(vars: seq<EnvVar>, images: seq<string>, namespace: string, dockerHost: string, buildName: string,
                    build: seq<EnvVar>, extra: map<string, string>)
    requires images != [] && IsScanEnv(vars, Base(images, namespace, dockerHost, buildName), build, extra)
    ensures "NAMESPACE" !in extra ==> EnvVar("NAMESPACE", namespace, None) in vars
    ensures "DOCKER_HOST" !in extra ==> EnvVar("DOCKER_HOST", dockerHost, None) in vars
    ensures "LAGOON_BUILD_NAME" !in extra ==> EnvVar("LAGOON_BUILD_NAME", buildName, None) in vars
    ensures "INSIGHT_SCAN_IMAGES" !in extra && (forall i | 0 <= i < |images| :: ',' !in images[i]) ==>
              exists v | v in vars ::
                v.name == "INSIGHT_SCAN_IMAGES" && v.valueFrom == None && Split(v.value, ',') == images
  {
    var base := Base(images, namespace, dockerHost, buildName);
    BaseNamesDiffer();
    BaseNamesNotCopied();
    if "NAMESPACE" !in extra {
      LayeredIsThere(vars, base, build, extra, EnvVar("NAMESPACE", namespace, None));
    }
    if "DOCKER_HOST" !in extra {
      LayeredIsThere(vars, base, build, extra, EnvVar("DOCKER_HOST", dockerHost, None));
    }
    if "LAGOON_BUILD_NAME" !in extra {
      LayeredIsThere(vars, base, build, extra, EnvVar("LAGOON_BUILD_NAME", buildName, None));
    }
    if "INSIGHT_SCAN_IMAGES" !in extra && (forall i | 0 <= i < |images| :: ',' !in images[i]) {
      LayeredIsThere(vars, base, build, extra, EnvVar("INSIGHT_SCAN_IMAGES", Join(images, ','), None));
      SplitJoin(images, ',');
    }
  }

  lemma BaseNamesDiffer()
    ensures |"INSIGHT_SCAN_IMAGES"| == 19 && |"NAMESPACE"| == 9 && |"DOCKER_HOST"| == 11 && |"LAGOON_BUILD_NAME"| == 17
  {
  }

  /** Entry `k` is the last one of the build pod with its name. */
  ghost predicate IsLast(build: seq<EnvVar>, k: nat)
    requires k < |build|
  {
    forall j | k < j < |build| :: build[j].name != build[k].name
  }

  lemma {:induction false} LastNamedIs(build: seq<EnvVar>, k: nat)
    requires k < |build| && IsLast(build, k)
    ensures LastNamed(build, build[k].name) == Some(build[k])
  {
    var n := |build| - 1;
    if k < n {
      assert build[n].name != build[k].name;
      LastNamedIs(build[..n], k);
    }
  }

  lemma {:induction false} LastNamedComes(build: seq<EnvVar>, name: string)
    requires LastNamed(build, name).Some?
    ensures LastNamed(build, name).value in build
  {
    var n := |build| - 1;
    if build[n].name != name {
      LastNamedComes(build[..n], name);
    }
  }

  /**
   Above the base: every extra is there with its value, and so is the last entry of the build pod for
   each copied name that no extra has. Nothing else is there but base variables.
   */
  lemma LayersMeaning(vars: seq<EnvVar>, images: seq<string>, namespace: string, dockerHost: string, buildName: string,
                      build: seq<EnvVar>, extra: map<string, string>)
    requires IsScanEnv(vars, Base(images, namespace, dockerHost, buildName), build, extra)
    ensures forall n | n in extra :: EnvVar(n, extra[n], None) in vars
    ensures forall k | 0 <= k < |build| && Copied(build[k].name) && build[k].name !in extra && IsLast(build, k) ::
              build[k] in vars
    ensures forall v | v in vars ::
              if v.name in extra then v == EnvVar(v.name, extra[v.name], None)
              else (Copied(v.name) && v in build) || v.name in BASE_NAMES
  {
    var base := Base(images, namespace, dockerHost, buildName);
    forall n | n in extra
      ensures EnvVar(n, extra[n], None) in vars
    {
      LayeredIsThere(vars, base, build, extra, EnvVar(n, extra[n], None));
    }
    forall k | 0 <= k < |build| && Copied(build[k].name) && build[k].name !in extra && IsLast(build, k)
      ensures build[k] in vars
    {
      LastNamedIs(build, k);
      LayeredIsThere(vars, base, build, extra, build[k]);
    }
    forall v | v in vars
      ensures if v.name in extra then v == EnvVar(v.name, extra[v.name], None)
              else (Copied(v.name) && v in build) || v.name in BASE_NAMES
    {
      ComesFrom(vars, images, namespace, dockerHost, buildName, build, extra, v);
    }
  }

  const BASE_NAMES := {"INSIGHT_SCAN_IMAGES", "NAMESPACE", "DOCKER_HOST", "LAGOON_BUILD_NAME"}

  lemma ComesFrom(vars: seq<EnvVar>, images: seq<string>, namespace: string, dockerHost: string, buildName: string,
                  build: seq<EnvVar>, extra: map<string, string>, v: EnvVar)
    requires IsScanEnv(vars, Base(images, namespace, dockerHost, buildName), build, extra) && v in vars
    ensures if v.name in extra then v == EnvVar(v.name, extra[v.name], None)
            else (Copied(v.name) && v in build) || v.name in BASE_NAMES
  {
    if v.name !in extra && Copied(v.name) && LastNamed(build, v.name).Some? {
      LastNamedComes(build, v.name);
    }
  }

  method Collect(keys: seq<string>, env: EnvMap) returns (vars: seq<EnvVar>)
    requires Keyed(env) && forall n | n in keys :: n in env
    ensures Names(vars) == keys && forall i | 0 <= i < |vars| :: keys[i] in env && vars[i] == env[keys[i]]
  {
    vars := [];
    for i := 0 to |keys|
      invariant |vars| == i
      invariant forall j | 0 <= j < i :: keys[j] in env && vars[j] == env[keys[j]]
    {
      assert keys[i] in keys;
      vars := vars + [env[keys[i]]];
    }
  }

  /** Only one list fits: map iteration order cannot show in the result. */
  lemma ScanEnvUnique(a: seq<EnvVar>, b: seq<EnvVar>, base: EnvMap, build: seq<EnvVar>, extra: map<string, string>)
    requires IsScanEnv(a, base, build, extra) && IsScanEnv(b, base, build, extra)
    ensures a == b
  {
    forall n
      ensures n in Names(a) <==> n in Names(b)
    {
      NamesAreLayered(a, base, build, extra, n);
      NamesAreLayered(b, base, build, extra, n);
    }
    SortedUnique(Names(a), Names(b));
    forall i | 0 <= i < |a|
      ensures a[i] == b[i]
    {
      assert Names(a)[i] == a[i].name && Names(b)[i] == b[i].name;
    }
  }

  lemma NamesAreLayered(env: seq<EnvVar>, base: EnvMap, build: seq<EnvVar>, extra: map<string, string>, n: string)
    requires IsScanEnv(env, base, build, extra)
    ensures n in Names(env) <==> Layered(base, build, extra, n).Some?
  {
    if n in Names(env) {
      var i :| 0 <= i < |Names(env)| && Names(env)[i] == n;
      assert env[i].name == n;
    }
  }

  lemma {:induction false} SortedUnique(a: seq<string>, b: seq<string>)
    requires Sorted(a) && Sorted(b) && forall n :: n in a <==> n in b
    ensures a == b
    decreases |a|
  {
    FirstIsMember(a);
    FirstIsMember(b);
    if a != [] && b != [] {
      LessTotal(a[0], b[0]);
      assert a[0] == b[0];
      forall n
        ensures n in a[1..] <==> n in b[1..]
      {
        TailMember(a, n);
        TailMember(b, n);
      }
      SortedUnique(a[1..], b[1..]);
      assert a == [a[0]] + a[1..] && b == [b[0]] + b[1..];
    }
  }

  lemma FirstIsMember(s: seq<string>)
    ensures s != [] ==> s[0] in s
  {
  }

  lemma TailMember(s: seq<string>, n: string)
    requires Sorted(s) && s != []
    ensures n in s[1..] <==> n in s && n != s[0]
  {
    LessTotal(s[0], s[0]);
    assert s == [s[0]] + s[1..];
  }

  // ---- The base variables -------------------------------------------------------------------

  lemma PatternLengths()
    ensures |COPY_VARS| == 10
    ensures forall i | 0 <= i < 9 :: COPY_VARS[i].Literal?
    ensures forall i | 0 <= i < 9 && i != 2 && i != 7 :: |COPY_VARS[i].text| in {6, 7, 10, 14, 16, 28}
    ensures COPY_VARS[2].text == "ENVIRONMENT" && COPY_VARS[7].text == "PR_NUMBER"
    ensures COPY_VARS[9] == Prefix("LAGOON_FEATURE_FLAG_") && |COPY_VARS[9].text| == 20
  {
    assert |COPY_VARS[0].text| == 6 && |COPY_VARS[1].text| == 10 && |COPY_VARS[3].text| == 16
        && |COPY_VARS[4].text| == 7;
    assert |COPY_VARS[5].text| == 14 && |COPY_VARS[6].text| == 14 && |COPY_VARS[8].text| == 28;
  }

  /** A name shorter than 21 characters of no pattern's length can only match by its first letter. */
  lemma NotCopied(name: string)
    requires 0 < |name| <= 20 && |name| !in {6, 7, 10, 14, 16}
    requires Fold(name[0]) != 'E' && Fold(name[0]) != 'P'
    ensures !Copied(name)
  {
    PatternLengths();
    forall i | 0 <= i < |COPY_VARS|
      ensures !Matches(COPY_VARS[i], name)
    {
      if i == 2 || i == 7 {
        assert COPY_VARS[i].text[0] == if i == 2 then 'E' else 'P';
      }
    }
  }

  /** None of the four base names is among the variables copied from the build pod. */
  lemma BaseNamesNotCopied()
    ensures !Copied("INSIGHT_SCAN_IMAGES") && !Copied("NAMESPACE") && !Copied("DOCKER_HOST")
            && !Copied("LAGOON_BUILD_NAME")
  {
    NotCopied("INSIGHT_SCAN_IMAGES");
    NotCopied("NAMESPACE");
    NotCopied("DOCKER_HOST");
    NotCopied("LAGOON_BUILD_NAME");
  }

  /** So a build pod can never change a base variable; only a configured extra can. */
  lemma BuildNeverOverridesBase(images: seq<string>, namespace: string, dockerHost: string, buildName: string,
                                build: seq<EnvVar>, extra: map<string, string>, name: string)
    requires name in Base(images, namespace, dockerHost, buildName)
    ensures var base := Base(images, namespace, dockerHost, buildName);
            Layered(base, build, extra, name) == Some(if name in extra then Plain(name, extra[name]) else base[name])
  {
    BaseNamesNotCopied();
  }
}
