/**
 The namespace reconciler: which token secrets one pass over a namespace deletes and keeps, and where
 repeated passes end. A token is its claims and the key it was signed with.
 */
module NamespaceTokens {
  import opened Faults
  import opened Options
  import opened Strings

  datatype Token = Token(key: string, claims: StringMap)

  /** The labelled secrets of one namespace: name to INSIGHTS_TOKEN value, None when that key is missing. */
  type Secrets = map<string, Option<Token>>

  datatype Details = Details(environmentId: string, namespace: string, environmentName: string, projectName: string)

  datatype Namespace = Namespace(name: string, labels: StringMap, terminating: bool)

  /** Details read so far and whether validation succeeded; an early failure leaves later fields empty. */
  datatype Validation = Validation(details: Details, ok: bool)

  /** A signature checks out under the key it was made with and no other. */
  function Validate(key: string, t: Token): Validation {
    var none := Details("", "", "", "");
    if t.key != key || "EnvironmentId" !in t.claims then Validation(none, false)
    else
      var d := none.(environmentId := t.claims["EnvironmentId"]);
      if "Namespace" !in t.claims then Validation(d, false)
      else
        var d := d.(namespace := t.claims["Namespace"]);
        if "EnvironmentName" !in t.claims then Validation(d, false)
        else
          var d := d.(environmentName := t.claims["EnvironmentName"]);
          if "ProjectName" !in t.claims then Validation(d, false)
          else Validation(d.(projectName := t.claims["ProjectName"]), true)
  }

  function Generate(key: string, d: Details): (t: Token) {
    Token(key, map["Namespace" := d.namespace, "EnvironmentId" := d.environmentId,
                   "ProjectName" := d.projectName, "EnvironmentName" := d.environmentName])
  }

  /** A generated token gives its details back under its own key, and fails under any other. */
  lemma GeneratedTokensValidate(key: string, d: Details, other: string)
    ensures Validate(other, Generate(key, d)) == if other == key then Validation(d, true)
              else Validation(Details("", "", "", ""), false)
  {
    assert |"Namespace"| == 9 && |"EnvironmentId"| == 13 && |"ProjectName"| == 11 && |"EnvironmentName"| == 15;
  }

  const CLAIMS := {"EnvironmentId", "Namespace", "EnvironmentName", "ProjectName"}

  /** A token validates when it was signed with the key and has all four claims; they are its details. */
  lemma ValidateMeaning(key: string, t: Token)
    ensures var v := Validate(key, t);
            && (v.ok <==> t.key == key && CLAIMS <= t.claims.Keys)
            && (v.ok ==> v.details == Details(t.claims["EnvironmentId"], t.claims["Namespace"],
                                              t.claims["EnvironmentName"], t.claims["ProjectName"]))
            && (v.details.namespace ==
                if t.key == key && {"EnvironmentId", "Namespace"} <= t.claims.Keys then t.claims["Namespace"] else "")
  {
  }

  predicate IsValid(key: string, secret: Option<Token>) {
    secret.Some? && Validate(key, secret.value).ok
  }

  predicate ClaimsNamespace(key: string, secret: Option<Token>, name: string) {
    secret.Some? && Validate(key, secret.value).details.namespace == name
  }

  lemma ValidMeaning(key: string, secret: Option<Token>, name: string)
    ensures IsValid(key, secret) <==> secret.Some? && secret.value.key == key && CLAIMS <= secret.value.claims.Keys
    ensures ClaimsNamespace(key, secret, name) <==>
            && secret.Some?
            && if secret.value.key == key && {"EnvironmentId", "Namespace"} <= secret.value.claims.Keys
               then secret.value.claims["Namespace"] == name else name == ""
  {
    if secret.Some? {
      ValidateMeaning(key, secret.value);
    }
  }

  // ---- One pass -----------------------------------------------------------------------------

  /**
   The loop's variables: the secrets left, `foundItem`, whether `deleteSecretMessage` is set, whether a
   deletion returned an error, and how the next calls will go.
   */
  datatype Sweep = Sweep(secrets: Secrets, found: bool, deleting: bool, failed: bool, faults: seq<Fault>)

  /** `deleteSecretMessage` is set by the first bad secret and never reset. */
  function Visit(key: string, ns: Namespace, s: Sweep, name: string): Sweep
    requires name in s.secrets
  {
    var secret := s.secrets[name];
    var deleting := s.deleting || !IsValid(key, secret);
    var found := s.found || (secret.Some? && !(deleting && !ClaimsNamespace(key, secret, ns.name)));
    if !deleting then Sweep(s.secrets, found, deleting, false, s.faults)
    else
      var fault := Head(s.faults);
      Sweep(if fault.Refused? then s.secrets else s.secrets - {name}, found, deleting, !fault.NoFault?, Tail(s.faults))
  }

  ghost predicate Distinct(names: seq<string>) {
    forall i, j | 0 <= i < j < |names| :: names[i] != names[j]
  }

  /** The List call returns every labelled secret once, in an order of the server's choice. */
  ghost predicate Lists(secrets: Secrets, names: seq<string>) {
    Distinct(names) && (set n | n in names) == secrets.Keys
  }

  function VisitAll(key: string, ns: Namespace, s: Sweep, names: seq<string>): Sweep
    requires forall i | 0 <= i < |names| :: names[i] in s.secrets
    requires forall i, j | 0 <= i < j < |names| :: names[i] != names[j]
    decreases |names|
  {
    if names == [] || s.failed then s
    else
      var t := Visit(key, ns, s, names[0]);
      if t.failed then t else VisitAll(key, ns, t, names[1..])
  }

  const ENVIRONMENT_ID := "lagoon.sh/environmentId"
  const PROJECT := "lagoon.sh/project"
  const ENVIRONMENT := "lagoon.sh/environment"
  const TOKEN_SECRET := "insights-token"

  predicate Labelled(ns: Namespace) {
    ENVIRONMENT_ID in ns.labels && PROJECT in ns.labels && ENVIRONMENT in ns.labels
  }

  function DetailsOf(ns: Namespace): Details
    requires Labelled(ns)
  {
    Details(ns.labels[ENVIRONMENT_ID], ns.name, ns.labels[ENVIRONMENT], ns.labels[PROJECT])
  }

  function NewToken(key: string, ns: Namespace): Token
    requires Labelled(ns)
  {
    Generate(key, DetailsOf(ns))
  }

  /** Which label becomes which claim. */
  lemma TokenMeaning(key: string, ns: Namespace)
    requires Labelled(ns)
    ensures var t := NewToken(key, ns);
            && t.key == key && t.claims.Keys == CLAIMS
            && t.claims["EnvironmentId"] == ns.labels["lagoon.sh/environmentId"]
            && t.claims["Namespace"] == ns.name
            && t.claims["EnvironmentName"] == ns.labels["lagoon.sh/environment"]
            && t.claims["ProjectName"] == ns.labels["lagoon.sh/project"]
  {
    assert |"Namespace"| == 9 && |"EnvironmentId"| == 13 && |"ProjectName"| == 11 && |"EnvironmentName"| == 15;
  }

  lemma LabelledMeaning(ns: Namespace)
    ensures Labelled(ns) <==>
            {"lagoon.sh/environmentId", "lagoon.sh/project", "lagoon.sh/environment"} <= ns.labels.Keys
  {
  }

  datatype Pass = Pass(secrets: Secrets, failed: bool)

  /** After a sweep that found no token to keep: a new one, unless its name is still taken. */
  function CreateToken(key: string, ns: Namespace, secrets: Secrets, fault: Fault): Pass {
    if !Labelled(ns) then Pass(secrets, true)
    else
      Pass(if fault.Refused? || TOKEN_SECRET in secrets then secrets
          else secrets[TOKEN_SECRET := Some(NewToken(key, ns))],
           !fault.NoFault? || TOKEN_SECRET in secrets)
  }

  /** One pass: get the namespace, list its secrets, sweep them, and create a token if none was found. */
  function Reconciled(key: string, found: Option<Namespace>, secrets: Secrets, names: seq<string>,
                      faults: seq<Fault>): Pass
    requires forall i | 0 <= i < |names| :: names[i] in secrets
    requires forall i, j | 0 <= i < j < |names| :: names[i] != names[j]
  {
    if !Head(faults).NoFault? then Pass(secrets, true)
    else if found.None? || found.value.terminating then Pass(secrets, false)
    else if !Head(Tail(faults)).NoFault? then Pass(secrets, true)
    else
      var s := VisitAll(key, found.value, Sweep(secrets, false, false, false, Tail(Tail(faults))), names);
      if s.failed then Pass(s.secrets, true)
      else if s.found then Pass(s.secrets, false)
      else CreateToken(key, found.value, s.secrets, Head(s.faults))
  }

  class SecretStore {
    var secrets: Secrets
    /** How the next server calls will go; when it runs out they succeed. */
    var faults: seq<Fault>

    constructor (secrets: Secrets, faults: seq<Fault>)
      ensures this.secrets == secrets && this.faults == faults
    {
      this.secrets, this.faults := secrets, faults;
    }

    method Call() returns (fault: Fault)
      modifies `faults
      ensures fault == Head(old(faults)) && faults == Tail(old(faults))
    {
      fault := Head(faults);
      faults := Tail(faults);
    }

    /** The loop over the listed secrets. */
    method SweepSecrets(key: string, ns: Namespace, names: seq<string>)
      returns (foundItem: bool, deleting: bool, failed: bool)
      requires Distinct(names) && forall i | 0 <= i < |names| :: names[i] in secrets
      modifies this
      ensures Sweep(secrets, foundItem, deleting, failed, faults) ==
              VisitAll(key, ns, Sweep(old(secrets), false, false, false, old(faults)), names)
    {
      foundItem, deleting, failed := false, false, false;
      var i := 0;
      assert names[0..] == names;
      while i < |names|
        invariant 0 <= i <= |names|
        invariant forall k | i <= k < |names| :: names[k] in secrets
        invariant VisitAll(key, ns, Sweep(secrets, foundItem, deleting, false, faults), names[i..]) ==
                  VisitAll(key, ns, Sweep(old(secrets), false, false, false, old(faults)), names)
      {
        VisitUnfolds(key, ns, Sweep(secrets, foundItem, deleting, false, faults), names, i);
        foundItem, deleting, failed := VisitSecret(key, ns, names[i], foundItem, deleting);
        if failed {
          return;
        }
        i := i + 1;
      }
      failed := false;
    }

    method VisitSecret(key: string, ns: Namespace, name: string, found: bool, marked: bool)
      returns (foundItem: bool, deleting: bool, failed: bool)
      requires name in secrets
      modifies this
      ensures Sweep(secrets, foundItem, deleting, failed, faults) ==
              Visit(key, ns, Sweep(old(secrets), found, marked, false, old(faults)), name)
    {
      foundItem, deleting, failed := found, marked, false;
      match secrets[name] {
        case Some(token) =>
          var v := Validate(key, token);
          if !v.ok {
            deleting := true;
          }
          if deleting && v.details.namespace != ns.name {
            deleting := true;
          } else {
            foundItem := true;
          }
        case None =>
          deleting := true;
      }
      if deleting {
        var fault := Call();
        if fault != Refused {
          secrets := secrets - {name};
        }
        failed := fault != NoFault;
      }
    }

    /** One pass over the namespace, listing its secrets in the given order. */
    method Reconcile(key: string, found: Option<Namespace>, names: seq<string>) returns (failed: bool)
      requires Lists(secrets, names)
      modifies this
      ensures forall i | 0 <= i < |names| :: names[i] in old(secrets)
      ensures Pass(secrets, failed) == Reconciled(key, found, old(secrets), names, old(faults))
    {
      ListedKnown(secrets, names);
      var fault := Call();
      if fault != NoFault {
        return true;
      }
      if found.None? || found.value.terminating {
        return false;
      }
      var ns := found.value;
      fault := Call();
      if fault != NoFault {
        return true;
      }
      var foundItem, _, stopped := SweepSecrets(key, ns, names);
      if stopped || foundItem {
        return stopped;
      }
      if ENVIRONMENT_ID !in ns.labels || PROJECT !in ns.labels || ENVIRONMENT !in ns.labels {
        return true;
      }
      fault := Call();
      var taken := TOKEN_SECRET in secrets;
      if fault != Refused && !taken {
        secrets := secrets[TOKEN_SECRET := Some(NewToken(key, ns))];
      }
      failed := fault != NoFault || taken;
    }
  }

  lemma VisitUnfolds(key: string, ns: Namespace, s: Sweep, names: seq<string>, i: nat)
    requires i < |names| && !s.failed && Distinct(names)
    requires forall k | i <= k < |names| :: names[k] in s.secrets
    ensures forall k | i < k < |names| :: names[k] in Visit(key, ns, s, names[i]).secrets
    ensures var t := Visit(key, ns, s, names[i]);
            VisitAll(key, ns, s, names[i..]) == if t.failed then t else VisitAll(key, ns, t, names[i + 1..])
  {
    assert names[i..][1..] == names[i + 1..];
  }

  lemma ListedKnown(secrets: Secrets, names: seq<string>)
    requires Lists(secrets, names)
    ensures forall i | 0 <= i < |names| :: names[i] in secrets
    ensures forall n | n in secrets :: n in names
  {
    assert forall i | 0 <= i < |names| :: names[i] in (set n | n in names);
  }

  // ---- What one pass leaves -----------------------------------------------------------------

  /** The number of listed secrets before the first that lacks the key or does not validate. */
  function Leading(key: string, secrets: Secrets, names: seq<string>): (n: nat)
    requires forall i | 0 <= i < |names| :: names[i] in secrets
    ensures n <= |names| && (forall i | 0 <= i < n :: IsValid(key, secrets[names[i]]))
    ensures n < |names| ==> !IsValid(key, secrets[names[n]])
  {
    if names == [] || !IsValid(key, secrets[names[0]]) then 0 else 1 + Leading(key, secrets, names[1..])
  }

  /** A pass in which every call succeeds. */
  ghost function CleanPass(key: string, ns: Namespace, secrets: Secrets, names: seq<string>): Pass
    requires Lists(secrets, names)
  {
    ListedKnown(secrets, names);
    Reconciled(key, Some(ns), secrets, names, [])
  }

  /** Once the message is set, everything that is left of the list is deleted. */
  lemma {:induction false} DeletingGoesOn(key: string, ns: Namespace, s: Sweep, names: seq<string>)
    requires !s.failed && s.faults == [] && Distinct(names) && forall i | 0 <= i < |names| :: names[i] in s.secrets
    requires s.deleting || (names != [] && !IsValid(key, s.secrets[names[0]]))
    ensures var t := VisitAll(key, ns, s, names);
            && !t.failed && t.faults == [] && t.secrets == s.secrets - (set n | n in names)
            && (t.found <==> (s.found || exists i | 0 <= i < |names| ::
                 ClaimsNamespace(key, s.secrets[names[i]], ns.name)))
    decreases |names|
  {
    if names != [] {
      var t := Visit(key, ns, s, names[0]);
      DeletingGoesOn(key, ns, t, names[1..]);
      assert (set n | n in names) == {names[0]} + (set n | n in names[1..]);
      assert forall i | 0 < i < |names| :: names[i] == names[1..][i - 1] && t.secrets[names[i]] == s.secrets[names[i]];
    }
  }

  /** A valid secret before any bad one is counted and left alone. */
  lemma VisitValid(key: string, ns: Namespace, s: Sweep, names: seq<string>)
    requires names != [] && Distinct(names) && forall i | 0 <= i < |names| :: names[i] in s.secrets
    requires !s.deleting && !s.failed && IsValid(key, s.secrets[names[0]])
    ensures VisitAll(key, ns, s, names) == VisitAll(key, ns, s.(found := true), names[1..])
    ensures Leading(key, s.secrets, names) == 1 + Leading(key, s.secrets, names[1..])
  {
  }

  /** Valid secrets before any bad one are counted and left alone. */
  lemma {:induction false} SkipValid(key: string, ns: Namespace, s: Sweep, names: seq<string>, i: nat, n: nat)
    requires !s.deleting && !s.failed && Distinct(names) && forall i | 0 <= i < |names| :: names[i] in s.secrets
    requires i <= n <= |names| && forall j | i <= j < n :: IsValid(key, s.secrets[names[j]])
    ensures VisitAll(key, ns, s, names[i..]) == VisitAll(key, ns, s.(found := s.found || i < n), names[n..])
    decreases n - i
  {
    if i < n {
      VisitUnfolds(key, ns, s, names, i);
      SkipValid(key, ns, s.(found := true), names, i + 1, n);
    }
  }

  /** A fault-free sweep keeps exactly the leading valid secrets. */
  lemma {:induction false} SweepKeepsLeading(key: string, ns: Namespace, secrets: Secrets, names: seq<string>,
                                             found: bool)
    requires Distinct(names) && forall i | 0 <= i < |names| :: names[i] in secrets
    ensures var t := VisitAll(key, ns, Sweep(secrets, found, false, false, []), names);
            var n := Leading(key, secrets, names);
            && !t.failed && t.faults == [] && t.secrets == secrets - (set k | k in names[n..])
            && (t.found <==> (found || n > 0 || exists i | 0 <= i < |names| ::
                 ClaimsNamespace(key, secrets[names[i]], ns.name)))
  {
    if names != [] {
      var s := Sweep(secrets, found, false, false, []);
      if IsValid(key, secrets[names[0]]) {
        VisitValid(key, ns, s, names);
        SweepKeepsLeading(key, ns, secrets, names[1..], true);
        assert names[Leading(key, secrets, names)..] == names[1..][Leading(key, secrets, names[1..])..];
      } else {
        DeletingGoesOn(key, ns, s, names);
        assert names[0..] == names;
      }
    }
  }

  ghost predicate AllValid(key: string, secrets: Secrets) {
    forall n | n in secrets :: IsValid(key, secrets[n])
  }

  /**
   One fault-free pass on a labelled, live namespace: the leading valid secrets stay; if there is none,
   a fresh token is created unless some listed token, though deleted, named this namespace.
   */
  lemma PassLeaves(key: string, ns: Namespace, secrets: Secrets, names: seq<string>)
    requires Lists(secrets, names) && Labelled(ns) && !ns.terminating
    ensures var p := CleanPass(key, ns, secrets, names);
            var n := Leading(key, secrets, names);
            && !p.failed
            && (n > 0 ==> p.secrets == secrets - (set k | k in names[n..]))
            && (n == 0 && (exists i | 0 <= i < |names| :: ClaimsNamespace(key, secrets[names[i]], ns.name)) ==>
                 p.secrets == map[])
            && (n == 0 && (forall i | 0 <= i < |names| :: !ClaimsNamespace(key, secrets[names[i]], ns.name)) ==>
                  p.secrets == map[TOKEN_SECRET := Some(NewToken(key, ns))])
  {
    ListedKnown(secrets, names);
    SweepKeepsLeading(key, ns, secrets, names, false);
    var n := Leading(key, secrets, names);
    if n == 0 {
      assert names[0..] == names;
      assert secrets - (set k | k in names) == map[];
    }
  }

  /** The leading valid secrets are what is left, so everything left validates. */
  lemma PassLeavesValid(key: string, ns: Namespace, secrets: Secrets, names: seq<string>)
    requires Lists(secrets, names) && Labelled(ns) && !ns.terminating
    ensures AllValid(key, CleanPass(key, ns, secrets, names).secrets)
  {
    PassLeaves(key, ns, secrets, names);
    ListedKnown(secrets, names);
    var n := Leading(key, secrets, names);
    if n == 0 {
      GeneratedTokensValidate(key, DetailsOf(ns), key);
    } else {
      forall k | k in secrets && k !in (set m | m in names[n..])
        ensures IsValid(key, secrets[k])
      {
        SplitMember(names, n, k);
        var i :| 0 <= i < n && names[i] == k;
      }
    }
  }

  lemma SplitMember(names: seq<string>, n: nat, k: string)
    requires n <= |names| && k in names
    ensures k in names[n..] || exists i :: 0 <= i < n && names[i] == k
  {
    assert names == names[..n] + names[n..];
  }

  /** A pass over a non-empty set of valid secrets changes nothing. */
  lemma ValidSetIsStable(key: string, ns: Namespace, secrets: Secrets, names: seq<string>)
    requires Lists(secrets, names) && Labelled(ns) && !ns.terminating && secrets != map[] && AllValid(key, secrets)
    ensures CleanPass(key, ns, secrets, names) == Pass(secrets, false)
  {
    ListedKnown(secrets, names);
    SweepKeepsLeading(key, ns, secrets, names, false);
    var n := Leading(key, secrets, names);
    assert n == |names| && names[n..] == [];
    assert secrets - (set k | k in names[n..]) == secrets;
    var k :| k in secrets;
    assert k in names;
  }

  /**
   One pass leaves no token at all exactly when the first listed secret is bad while some listed token,
   deleted with the rest, names this namespace: `foundItem` was set for a secret that is gone.
   */
  lemma EmptyAfterPassIff(key: string, ns: Namespace, secrets: Secrets, names: seq<string>)
    requires Lists(secrets, names) && Labelled(ns) && !ns.terminating
    ensures CleanPass(key, ns, secrets, names).secrets == map[] <==>
            (names != [] && !IsValid(key, secrets[names[0]]) && exists i | 0 <= i < |names| ::
                ClaimsNamespace(key, secrets[names[i]], ns.name))
  {
    PassLeaves(key, ns, secrets, names);
    ListedKnown(secrets, names);
    var n := Leading(key, secrets, names);
    if n > 0 {
      assert names[0] !in names[n..];
      assert names[0] in secrets - (set k | k in names[n..]);
    } else {
      assert TOKEN_SECRET in map[TOKEN_SECRET := Some(NewToken(key, ns))];
    }
  }

  lemma EmptyStoreGetsToken(key: string, ns: Namespace)
    requires Labelled(ns) && !ns.terminating
    ensures Reconciled(key, Some(ns), map[], [], []) == Pass(map[TOKEN_SECRET := Some(NewToken(key, ns))], false)
  {
  }

  /**
   From any start, two fault-free passes reach a non-empty set of validating tokens, whatever order the
   server lists in, and a third changes nothing.
   */
  lemma PassesConverge(key: string, ns: Namespace, start: Secrets, names1: seq<string>, names2: seq<string>,
                       names3: seq<string>)
    requires Labelled(ns) && !ns.terminating && Lists(start, names1)
    requires Lists(CleanPass(key, ns, start, names1).secrets, names2)
    requires Lists(CleanPass(key, ns, CleanPass(key, ns, start, names1).secrets, names2).secrets, names3)
    ensures var once := CleanPass(key, ns, start, names1).secrets;
            var twice := CleanPass(key, ns, once, names2).secrets;
            && twice != map[] && AllValid(key, twice)
            && CleanPass(key, ns, twice, names3) == Pass(twice, false)
  {
    var once := CleanPass(key, ns, start, names1).secrets;
    PassLeavesValid(key, ns, start, names1);
    if once == map[] {
      assert names2 == [] by {
        ListedKnown(once, names2);
      }
      EmptyStoreGetsToken(key, ns);
      assert TOKEN_SECRET in CleanPass(key, ns, once, names2).secrets;
    } else {
      ValidSetIsStable(key, ns, once, names2);
    }
    PassLeavesValid(key, ns, once, names2);
    ValidSetIsStable(key, ns, CleanPass(key, ns, once, names2).secrets, names3);
  }

  // ---- Under faults -------------------------------------------------------------------------

  /** A sweep only deletes, and only what is listed. */
  lemma {:induction false} SweepIsLocal(key: string, ns: Namespace, s: Sweep, names: seq<string>, n: string)
    requires Distinct(names) && forall i | 0 <= i < |names| :: names[i] in s.secrets
    ensures var t := VisitAll(key, ns, s, names);
            && (n in t.secrets ==> n in s.secrets && t.secrets[n] == s.secrets[n])
            && (n in s.secrets && n !in names ==> n in t.secrets)
    decreases |names|
  {
    if names != [] && !s.failed {
      var t := Visit(key, ns, s, names[0]);
      if !t.failed {
        SweepIsLocal(key, ns, t, names[1..], n);
      }
    }
  }

  lemma {:induction false} SweepSparesLeading(key: string, ns: Namespace, s: Sweep, names: seq<string>, i: nat)
    requires Distinct(names) && (forall i | 0 <= i < |names| :: names[i] in s.secrets) && !s.deleting && !s.failed
    requires i < Leading(key, s.secrets, names)
    ensures names[i] in VisitAll(key, ns, s, names).secrets
    decreases |names|
  {
    var t := Visit(key, ns, s, names[0]);
    if i > 0 {
      SweepSparesLeading(key, ns, t, names[1..], i - 1);
    } else {
      SweepIsLocal(key, ns, t, names[1..], names[0]);
    }
  }

  ghost function Between(names: seq<string>, from: nat, to: nat): set<string>
    requires to <= |names|
  {
    set i | from <= i < to :: names[i]
  }

  lemma BetweenFirst(names: seq<string>, from: nat, to: nat)
    requires from < to <= |names|
    ensures Between(names, from, to) == {names[from]} + Between(names, from + 1, to)
  {
  }

  /** From the first bad secret, at `n`, deletions go on in order up to the first that fails. */
  lemma {:induction false} DeletingStops(key: string, ns: Namespace, s: Sweep, names: seq<string>, n: nat, k: nat)
    requires !s.failed && Distinct(names) && n + k < |names| && forall i | n <= i < |names| :: names[i] in s.secrets
    requires FaultFree(s.faults, 0, k) && FaultAt(s.faults, k) != NoFault
    requires s.deleting || !IsValid(key, s.secrets[names[n]])
    ensures var t := VisitAll(key, ns, s, names[n..]);
            && t.failed
            && t.secrets == s.secrets - Between(names, n, n + if FaultAt(s.faults, k) == AnswerLost then k + 1 else k)
    decreases k
  {
    TailShifts(s.faults);
    VisitUnfolds(key, ns, s, names, n);
    if k == 0 {
      assert Between(names, n, n + 1) == {names[n]};
    } else {
      DeletingStops(key, ns, Visit(key, ns, s, names[n]), names, n + 1, k - 1);
      BetweenFirst(names, n, n + if FaultAt(s.faults, k) == AnswerLost then k + 1 else k);
    }
  }

  /** When the rest of the deletions succeed, they do what they do without any faults. */
  lemma {:induction false} DeletingAsFaultFree(key: string, ns: Namespace, s: Sweep, names: seq<string>, n: nat)
    requires !s.failed && Distinct(names) && n <= |names| && forall i | n <= i < |names| :: names[i] in s.secrets
    requires FaultFree(s.faults, 0, |names| - n)
    requires s.deleting || n == |names| || !IsValid(key, s.secrets[names[n]])
    ensures var t := VisitAll(key, ns, s, names[n..]);
            && t.(faults := []) == VisitAll(key, ns, s.(faults := []), names[n..])
            && FaultAt(t.faults, 0) == FaultAt(s.faults, |names| - n)
    decreases |names| - n
  {
    if n < |names| {
      TailShifts(s.faults);
      assert FaultAt(s.faults, 0) == NoFault;
      VisitUnfolds(key, ns, s, names, n);
      VisitUnfolds(key, ns, s.(faults := []), names, n);
      var t := Visit(key, ns, s, names[n]);
      assert t.(faults := []) == Visit(key, ns, s.(faults := []), names[n]);
      DeletingAsFaultFree(key, ns, t, names, n + 1);
    }
  }

  lemma SweepStops(key: string, ns: Namespace, s: Sweep, names: seq<string>, n: nat, k: nat)
    requires !s.deleting && !s.failed && Distinct(names) && forall i | 0 <= i < |names| :: names[i] in s.secrets
    requires n + k < |names| && FaultFree(s.faults, 0, k) && FaultAt(s.faults, k) != NoFault
    requires (forall i | 0 <= i < n :: IsValid(key, s.secrets[names[i]])) && !IsValid(key, s.secrets[names[n]])
    ensures var t := VisitAll(key, ns, s, names);
            && t.failed
            && t.secrets == s.secrets - Between(names, n, n + if FaultAt(s.faults, k) == AnswerLost then k + 1 else k)
  {
    SkipValid(key, ns, s, names, 0, n);
    assert names[0..] == names;
    DeletingStops(key, ns, s.(found := s.found || 0 < n), names, n, k);
  }

  lemma SweepAsFaultFree(key: string, ns: Namespace, s: Sweep, names: seq<string>, n: nat)
    requires !s.deleting && !s.failed && Distinct(names) && forall i | 0 <= i < |names| :: names[i] in s.secrets
    requires n <= |names| && FaultFree(s.faults, 0, |names| - n)
    requires forall i | 0 <= i < n :: IsValid(key, s.secrets[names[i]])
    requires n < |names| ==> !IsValid(key, s.secrets[names[n]])
    ensures var t := VisitAll(key, ns, s, names);
            && t.(faults := []) == VisitAll(key, ns, s.(faults := []), names)
            && FaultAt(t.faults, 0) == FaultAt(s.faults, |names| - n)
  {
    SkipValid(key, ns, s, names, 0, n);
    SkipValid(key, ns, s.(faults := []), names, 0, n);
    assert names[0..] == names;
    DeletingAsFaultFree(key, ns, s.(found := s.found || 0 < n), names, n);
  }

  /** A namespace that is gone or going: nothing changes, and the pass ends well if it could look. */
  lemma UntouchedUnlessLive(key: string, found: Option<Namespace>, secrets: Secrets, names: seq<string>,
                            faults: seq<Fault>)
    requires Distinct(names) && forall i | 0 <= i < |names| :: names[i] in secrets
    requires found.Some? ==> found.value.terminating
    ensures Reconciled(key, found, secrets, names, faults) == Pass(secrets, FaultAt(faults, 0) != NoFault)
  {
  }

  /** Some listed token, valid or not, gives this namespace's name. */
  ghost predicate SomeClaim(key: string, ns: Namespace, secrets: Secrets, names: seq<string>)
    requires forall i | 0 <= i < |names| :: names[i] in secrets
  {
    exists i | 0 <= i < |names| :: ClaimsNamespace(key, secrets[names[i]], ns.name)
  }

  /**
   Which call fails first decides what a pass leaves. The calls are: get the namespace, list its
   secrets, one deletion each from the first bad secret on, and create. Before the creation:
   */
  lemma FailsBeforeCreating(key: string, ns: Namespace, secrets: Secrets, names: seq<string>, faults: seq<Fault>,
                            k: nat)
    requires !ns.terminating && Distinct(names) && forall i | 0 <= i < |names| :: names[i] in secrets
    requires FaultFree(faults, 0, k) && FaultAt(faults, k) != NoFault && k < 2 + |names| - Leading(key, secrets, names)
    ensures var n := Leading(key, secrets, names);
            Reconciled(key, Some(ns), secrets, names, faults) ==
            if k < 2 then Pass(secrets, true)
            else Pass(secrets - Between(names, n, n + if FaultAt(faults, k) == AnswerLost then k - 1 else k - 2), true)
  {
    TailShifts(faults);
    TailShifts(Tail(faults));
    if 2 <= k {
      var n := Leading(key, secrets, names);
      FailedSweepFails(key, ns, secrets, names, faults);
      SweepStops(key, ns, Sweep(secrets, false, false, false, Tail(Tail(faults))), names, n, k - 2);
    }
  }

  lemma FailedSweepFails(key: string, ns: Namespace, secrets: Secrets, names: seq<string>, faults: seq<Fault>)
    requires !ns.terminating && Distinct(names) && forall i | 0 <= i < |names| :: names[i] in secrets
    requires FaultFree(faults, 0, 2)
    ensures var s := VisitAll(key, ns, Sweep(secrets, false, false, false, Tail(Tail(faults))), names);
            s.failed ==> Reconciled(key, Some(ns), secrets, names, faults) == Pass(s.secrets, true)
  {
    TailShifts(faults);
    assert FaultAt(faults, 0) == FaultAt(faults, 1) == NoFault;
  }

  /** A sweep whose deletions all succeed. */
  lemma SweepEnds(key: string, ns: Namespace, secrets: Secrets, names: seq<string>, faults: seq<Fault>)
    requires Distinct(names) && forall i | 0 <= i < |names| :: names[i] in secrets
    requires FaultFree(faults, 0, |names| - Leading(key, secrets, names))
    ensures var n := Leading(key, secrets, names);
            var t := VisitAll(key, ns, Sweep(secrets, false, false, false, faults), names);
            && !t.failed && t.secrets == secrets - (set m | m in names[n..])
            && (t.found <==> n > 0 || SomeClaim(key, ns, secrets, names))
            && Head(t.faults) == FaultAt(faults, |names| - n)
  {
    SweepAsFaultFree(key, ns, Sweep(secrets, false, false, false, faults), names, Leading(key, secrets, names));
    SweepKeepsLeading(key, ns, secrets, names, false);
  }

  lemma NothingLeft(secrets: Secrets, names: seq<string>)
    requires Lists(secrets, names)
    ensures secrets - (set m | m in names[0..]) == map[]
  {
    assert names[0..] == names;
  }

  /** And at the creation, which comes only when no secret was left and none named this namespace. */
  lemma FailsCreating(key: string, ns: Namespace, secrets: Secrets, names: seq<string>, faults: seq<Fault>)
    requires Labelled(ns) && !ns.terminating && Lists(secrets, names)
    requires forall i | 0 <= i < |names| :: names[i] in secrets
    requires FaultFree(faults, 0, 2 + |names| - Leading(key, secrets, names))
    ensures Reconciled(key, Some(ns), secrets, names, faults) ==
            if Leading(key, secrets, names) > 0 || SomeClaim(key, ns, secrets, names)
               || FaultAt(faults, 2 + |names|) == NoFault
            then CleanPass(key, ns, secrets, names)
            else Pass(if FaultAt(faults, 2 + |names|) == AnswerLost then map[TOKEN_SECRET := Some(NewToken(key, ns))]
                      else map[], true)
  {
    TailShifts(faults);
    TailShifts(Tail(faults));
    SweepEnds(key, ns, secrets, names, Tail(Tail(faults)));
    SweepEnds(key, ns, secrets, names, []);
    NothingLeft(secrets, names);
  }

  /** Without its three labels a namespace still loses its bad secrets, but gets no token: that is an error. */
  lemma NoLabelsNoToken(key: string, ns: Namespace, secrets: Secrets, names: seq<string>)
    requires !Labelled(ns) && !ns.terminating && Lists(secrets, names)
    requires forall i | 0 <= i < |names| :: names[i] in secrets
    ensures var n := Leading(key, secrets, names);
            CleanPass(key, ns, secrets, names) ==
            Pass(secrets - (set m | m in names[n..]), n == 0 && !SomeClaim(key, ns, secrets, names))
  {
    SweepKeepsLeading(key, ns, secrets, names, false);
  }

  /** What a pass leaves under one name: what the sweep left there, or the new token. */
  lemma PassFromSweep(key: string, found: Option<Namespace>, secrets: Secrets, names: seq<string>, faults: seq<Fault>,
                      n: string)
    requires found.Some? && Distinct(names) && forall i | 0 <= i < |names| :: names[i] in secrets
    ensures var after := Reconciled(key, found, secrets, names, faults).secrets;
            var swept := VisitAll(key, found.value, Sweep(secrets, false, false, false, Tail(Tail(faults))),
                                  names).secrets;
            || after == secrets
            || (n in swept && n in after && after[n] == swept[n])
            || (n !in swept && n !in after)
            || (n == TOKEN_SECRET && n !in swept && Labelled(found.value) && n in after
                 && after[n] == Some(NewToken(key, found.value)))
  {
  }

  /** Whatever calls fail, before or after they took effect, a pass never touches a leading valid secret. */
  lemma PassSparesLeading(key: string, found: Option<Namespace>, secrets: Secrets, names: seq<string>,
                          faults: seq<Fault>, i: nat)
    requires Distinct(names) && forall k | 0 <= k < |names| :: names[k] in secrets
    requires i < Leading(key, secrets, names)
    ensures var after := Reconciled(key, found, secrets, names, faults).secrets;
            names[i] in after && after[names[i]] == secrets[names[i]]
  {
    if found.Some? {
      var s := Sweep(secrets, false, false, false, Tail(Tail(faults)));
      SweepSparesLeading(key, found.value, s, names, i);
      SweepIsLocal(key, found.value, s, names, names[i]);
      PassFromSweep(key, found, secrets, names, faults, names[i]);
    }
  }

  /** Nor does it change any secret it leaves, or add any but the new token. */
  lemma PassAddsOnlyToken(key: string, found: Option<Namespace>, secrets: Secrets, names: seq<string>,
                          faults: seq<Fault>, n: string)
    requires Distinct(names) && forall k | 0 <= k < |names| :: names[k] in secrets
    ensures var after := Reconciled(key, found, secrets, names, faults).secrets;
            n in after ==>
              (n in secrets && after[n] == secrets[n]) ||
              (n == TOKEN_SECRET && found.Some? && Labelled(found.value)
                  && after[n] == Some(NewToken(key, found.value)))
  {
    if found.Some? {
      SweepIsLocal(key, found.value, Sweep(secrets, false, false, false, Tail(Tail(faults))), names, n);
      PassFromSweep(key, found, secrets, names, faults, n);
    }
  }

  /** After a change of the signing key one clean pass replaces every token by a new one. */
  lemma RotationReplacesAll(key: string, ns: Namespace, secrets: Secrets, names: seq<string>)
    requires Lists(secrets, names) && Labelled(ns) && !ns.terminating && ns.name != ""
    requires forall n | n in secrets && secrets[n].Some? :: secrets[n].value.key != key
    ensures CleanPass(key, ns, secrets, names) == Pass(map[TOKEN_SECRET := Some(NewToken(key, ns))], false)
  {
    ListedKnown(secrets, names);
    PassLeaves(key, ns, secrets, names);
  }

  // ---- Whose tokens are kept ----------------------------------------------------------------

  /**
   After a fault-free pass every token names this namespace exactly when every leading valid one did:
   a valid token of another namespace is not removed by itself.
   */
  lemma KeptTokensMatchIff(key: string, ns: Namespace, secrets: Secrets, names: seq<string>)
    requires Lists(secrets, names) && Labelled(ns) && !ns.terminating
    ensures var after := CleanPass(key, ns, secrets, names).secrets;
            (forall n | n in after :: ClaimsNamespace(key, after[n], ns.name)) <==>
            (forall i | 0 <= i < Leading(key, secrets, names) :: ClaimsNamespace(key, secrets[names[i]], ns.name))
  {
    PassLeaves(key, ns, secrets, names);
    ListedKnown(secrets, names);
    var n := Leading(key, secrets, names);
    if n == 0 {
      GeneratedTokensValidate(key, DetailsOf(ns), key);
    } else {
      var after := secrets - (set k | k in names[n..]);
      forall i | 0 <= i < n
        ensures names[i] in after
      {
      }
      forall k | k in after
        ensures exists i :: 0 <= i < n && names[i] == k
      {
        SplitMember(names, n, k);
      }
    }
  }

  /** A concrete case: the only token belongs to namespace "b", and the pass over "a" keeps it. */
  lemma ForeignTokenIsKept(key: string, ns: Namespace)
    requires ns.name == "a" && Labelled(ns) && !ns.terminating
    ensures var foreign := map["insights-token" := Some(Generate(key, Details("1", "b", "main", "demo")))];
            Reconciled(key, Some(ns), foreign, ["insights-token"], []) == Pass(foreign, false)
  {
    var foreign: Secrets := map["insights-token" := Some(Generate(key, Details("1", "b", "main", "demo")))];
    GeneratedTokensValidate(key, Details("1", "b", "main", "demo"), key);
    assert "insights-token" in foreign;
    ValidSetIsStable(key, ns, foreign, ["insights-token"]);
  }

  /**
   A concrete case of an empty outcome: a secret without the key is listed first, and the valid token
   behind it, which names this namespace, is counted as found and deleted with it.
   */
  lemma OnePassCanEmpty(key: string, ns: Namespace)
    requires ns.name == "a" && Labelled(ns) && !ns.terminating
    ensures var secrets := map["x" := None, "y" := Some(Generate(key, Details("1", "a", "main", "demo")))];
            Reconciled(key, Some(ns), secrets, ["x", "y"], []) == Pass(map[], false)
  {
    var secrets: Secrets := map["x" := None, "y" := Some(Generate(key, Details("1", "a", "main", "demo")))];
    var names := ["x", "y"];
    GeneratedTokensValidate(key, Details("1", "a", "main", "demo"), key);
    assert names[0] == "x" && names[1] == "y" && "x"[0] != "y"[0];
    assert ClaimsNamespace(key, secrets[names[1]], ns.name);
    assert (set n | n in names) == secrets.Keys;
    PassLeaves(key, ns, secrets, names);
    EmptyAfterPassIff(key, ns, secrets, names);
  }
}
