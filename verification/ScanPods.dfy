/**
 The build reconciler's kill-then-create protocol: scanner pods of a namespace are deleted one by one,
 a new one is created, and the build pod is labelled as scanned. Any server call may fail, before or
 after it took effect.
 */
module ScanPods {
  import opened Faults
  import opened Strings

  datatype Pod = Pod(labels: StringMap, succeeded: bool)
  type Pods = map<string, Pod>

  const BUILD_NAME := "lagoon.sh/buildName"
  const SCANNED := "insights.lagoon.sh/scanned"
  const SCAN_STATUS := "insights.lagoon.sh/scan-status"
  const IMAGE_SCANNER := "insights.lagoon.sh/imagescanner"
  const SCAN_POD_LABELS: StringMap := map[SCAN_STATUS := "scanning", IMAGE_SCANNER := "true"]

  function ScannerName(build: string): string {
    "insights-scanner-" + build
  }

  /** What the label selector of `killExistingScans` matches. */
  predicate IsScanner(p: Pod) {
    && SCAN_STATUS in p.labels && p.labels[SCAN_STATUS] == "scanning"
    && IMAGE_SCANNER in p.labels && p.labels[IMAGE_SCANNER] == "true"
  }

  function Scanners(pods: Pods): set<string> {
    set n | n in pods && IsScanner(pods[n])
  }

  /** `successfulBuildPodsPredicate`, for update events. */
  predicate Accepts(labels: StringMap) {
    BUILD_NAME in labels && SCAN_STATUS !in labels && SCANNED !in labels
  }

  // ---- One reconcile ------------------------------------------------------------------------

  datatype Killed = Killed(pods: Pods, failed: bool, faults: seq<Fault>)

  /** Deleting the listed pods in order, stopping at the first error. */
  function KillAll(pods: Pods, names: seq<string>, faults: seq<Fault>): Killed {
    if names == [] then Killed(pods, false, faults)
    else
      match Head(faults)
      case Refused => Killed(pods, true, Tail(faults))
      case AnswerLost => Killed(pods - {names[0]}, true, Tail(faults))
      case NoFault => KillAll(pods - {names[0]}, names[1..], Tail(faults))
  }

  ghost predicate Lists(names: seq<string>, scanners: set<string>) {
    (forall i, j | 0 <= i < j < |names| :: names[i] != names[j]) && (set n | n in names) == scanners
  }

  /** `Panicked`: assigning into the nil label map of a build pod without labels. */
  datatype Verdict = Finished | Error | Panicked

  datatype Scan = Scan(pods: Pods, verdict: Verdict)

  function WithScanPod(pods: Pods, name: string): Pods {
    if name in pods then pods else pods[name := Pod(SCAN_POD_LABELS, false)]
  }

  function WithPod(pods: Pods, name: string, pod: Pod): Pods {
    if name in pods then pods[name := pod] else pods
  }

  /** Create the scan pod, then label the build pod as it was read at the start. */
  function CreateAndLabel(pods: Pods, build: string, pod: Pod, faults: seq<Fault>): Scan {
    var created := if Head(faults) == Refused then pods else WithScanPod(pods, ScannerName(build));
    if Head(faults) != NoFault || ScannerName(build) in pods then Scan(created, Error)
    else if pod.labels == map[] then Scan(created, Panicked)
    else
      var fault := Head(Tail(faults));
      var labelled := pod.(labels := pod.labels[SCANNED := "true"]);
      Scan(if fault == Refused then created else WithPod(created, build, labelled),
           if fault == NoFault then Finished else Error)
  }

  /** One reconcile: get the build pod, list deployments, list and kill scanners, create, label. */
  function ScanOnce(pods: Pods, build: string, images: seq<string>, names: seq<string>, faults: seq<Fault>): Scan {
    if Head(faults) != NoFault then Scan(pods, Error)
    else if build !in pods || !pods[build].succeeded then Scan(pods, Finished)
    else
      var faults := Tail(faults);
      if Head(faults) != NoFault || images == [] then Scan(pods, Error)
      else
        var faults' := Tail(faults);
        if Head(faults') != NoFault then Scan(pods, Error)
        else
          var killed := KillAll(pods, names, Tail(faults'));
          if killed.failed then Scan(killed.pods, Error)
          else CreateAndLabel(killed.pods, build, pods[build], killed.faults)
  }

  class Cluster {
    var pods: Pods
    var faults: seq<Fault>

    constructor (pods: Pods, faults: seq<Fault>)
      ensures this.pods == pods && this.faults == faults
    {
      this.pods, this.faults := pods, faults;
    }

    method Call() returns (fault: Fault)
      modifies `faults
      ensures fault == Head(old(faults)) && faults == Tail(old(faults))
    {
      fault := Head(faults);
      faults := Tail(faults);
    }

    /** `names` is the server's list of scanner pods at this moment. */
    method KillExistingScans(names: seq<string>) returns (failed: bool)
      modifies this
      ensures Head(old(faults)) != NoFault ==> failed && pods == old(pods) && faults == Tail(old(faults))
      ensures Head(old(faults)) == NoFault ==>
                Killed(pods, failed, faults) == KillAll(old(pods), names, Tail(old(faults)))
    {
      var listed := Call();
      if listed != NoFault {
        return true;
      }
      assert names[0..] == names;
      for i := 0 to |names|
        invariant KillAll(pods, names[i..], faults) == KillAll(old(pods), names, Tail(old(faults)))
      {
        assert names[i..][1..] == names[i + 1..];
        var fault := Call();
        if fault != Refused {
          pods := pods - {names[i]};
        }
        if fault != NoFault {
          return true;
        }
      }
      failed := false;
    }

    method CreatePod(name: string, pod: Pod) returns (failed: bool)
      modifies this
      ensures faults == Tail(old(faults))
      ensures pods == if Head(old(faults)) != Refused && name !in old(pods) then old(pods)[name := pod] else old(pods)
      ensures failed <==> Head(old(faults)) != NoFault || name in old(pods)
    {
      var fault := Call();
      var taken := name in pods;
      if fault != Refused && !taken {
        pods := pods[name := pod];
      }
      failed := fault != NoFault || taken;
    }

    /** A pod that is gone makes the update fail with NotFound, which the reconciler ignores. */
    method UpdatePod(name: string, pod: Pod) returns (failed: bool)
      modifies this
      ensures faults == Tail(old(faults))
      ensures pods == if Head(old(faults)) != Refused && name in old(pods) then old(pods)[name := pod] else old(pods)
      ensures failed <==> Head(old(faults)) != NoFault
    {
      var fault := Call();
      if fault != Refused && name in pods {
        pods := pods[name := pod];
      }
      failed := fault != NoFault;
    }

    /** The reconcile of one build pod; `images` are what its deployments run, `names` the listed scanners. */
    method Reconcile(build: string, images: seq<string>, names: seq<string>) returns (verdict: Verdict)
      modifies this
      ensures Scan(pods, verdict) == ScanOnce(old(pods), build, images, names, old(faults))
    {
      var fault := Call();
      if fault != NoFault {
        return Error;
      }
      if build !in pods || !pods[build].succeeded {
        return Finished;
      }
      var pod := pods[build];
      fault := Call();
      if fault != NoFault || images == [] {
        return Error;
      }
      var failed := KillExistingScans(names);
      if failed {
        return Error;
      }
      failed := CreatePod(ScannerName(build), Pod(SCAN_POD_LABELS, false));
      if failed {
        return Error;
      }
      if pod.labels == map[] {
        return Panicked;
      }
      failed := UpdatePod(build, pod.(labels := pod.labels[SCANNED := "true"]));
      verdict := if failed then Error else Finished;
    }
  }

  /** The name of the new scanner is free once the old scanners are gone. */
  predicate NameIsFree(pods: Pods, build: string) {
    ScannerName(build) in pods ==> IsScanner(pods[ScannerName(build)])
  }

  /** A succeeded, labelled build pod whose scanner's name is free, or taken by a scanner pod. */
  predicate Scannable(pods: Pods, build: string, images: seq<string>) {
    && images != [] && build in pods && pods[build].succeeded && pods[build].labels != map[] && !IsScanner(pods[build])
    && NameIsFree(pods, build)
  }

  /**
   The outcome of an error-free scan: one scanner pod, named after the build; the build pod labelled;
   every other pod that is not a scanner as before. Neither of the two would start another scan.
   */
  predicate Scanned(before: Pods, after: Pods, build: string)
    requires build in before
  {
    && Scanners(after) == {ScannerName(build)}
    && build in after && after[build] == before[build].(labels := before[build].labels[SCANNED := "true"])
    && !Accepts(after[build].labels) && !Accepts(after[ScannerName(build)].labels)
    && after.Keys == (before.Keys - Scanners(before)) + {ScannerName(build)}
    && forall n | n in after && n != build && n != ScannerName(build) :: after[n] == before[n]
  }

  lemma {:induction false} KillRemoves(pods: Pods, names: seq<string>, faults: seq<Fault>)
    ensures var k := KillAll(pods, names, faults);
            && k.pods.Keys <= pods.Keys && (forall n | n in k.pods :: k.pods[n] == pods[n])
            && (!k.failed ==> k.pods == pods - (set n | n in names))
            && (faults == [] ==> !k.failed && k.faults == [])
            && Scanners(k.pods) <= Scanners(pods)
    decreases |names|
  {
    if names != [] {
      KillRemoves(pods - {names[0]}, names[1..], Tail(faults));
      assert names == [names[0]] + names[1..];
    }
  }

  lemma NoScannersLeft(pods: Pods, names: seq<string>)
    requires Lists(names, Scanners(pods))
    ensures Scanners(pods - (set n | n in names)) == {}
  {
  }

  lemma ScanPodIsScanner()
    ensures IsScanner(Pod(SCAN_POD_LABELS, false)) && !Accepts(SCAN_POD_LABELS)
  {
    assert |SCAN_STATUS| != |IMAGE_SCANNER| && |BUILD_NAME| != |SCAN_STATUS| && |BUILD_NAME| != |IMAGE_SCANNER|;
  }

  lemma CreateAddsOne(pods: Pods, name: string)
    requires Scanners(pods) == {}
    ensures name !in pods ==> Scanners(pods[name := Pod(SCAN_POD_LABELS, false)]) == {name}
  {
    ScanPodIsScanner();
    var after := pods[name := Pod(SCAN_POD_LABELS, false)];
    assert forall n | n in after && n != name :: n in pods && n !in Scanners(pods);
  }

  lemma LabelKeepsScanners(pods: Pods, name: string, p: Pod)
    requires name in pods ==> pods[name] == p
    ensures Scanners(WithPod(pods, name, p.(labels := p.labels[SCANNED := "true"]))) == Scanners(pods)
  {
    assert |SCANNED| != |SCAN_STATUS| && |SCANNED| != |IMAGE_SCANNER|;
  }

  /** From a state without scanners, creating and labelling leaves none or the new one. */
  lemma CreateLeavesOne(pods: Pods, build: string, pod: Pod, faults: seq<Fault>)
    requires Scanners(pods) == {} && (build in pods ==> pods[build] == pod)
    ensures Scanners(CreateAndLabel(pods, build, pod, faults).pods) <= {ScannerName(build)}
  {
    CreateAddsOne(pods, ScannerName(build));
    assert |ScannerName(build)| > |build|;
    LabelKeepsScanners(WithScanPod(pods, ScannerName(build)), build, pod);
  }

  /** Under any faults one reconcile only removes scanner pods, or ends with the new one alone. */
  lemma ScanLeaves(pods: Pods, build: string, images: seq<string>, names: seq<string>, faults: seq<Fault>)
    requires Lists(names, Scanners(pods))
    ensures var after := Scanners(ScanOnce(pods, build, images, names, faults).pods);
            after <= Scanners(pods) || after <= {ScannerName(build)}
  {
    var rest := Tail(Tail(Tail(faults)));
    KillRemoves(pods, names, rest);
    if !KillAll(pods, names, rest).failed && build in pods {
      NoScannersLeft(pods, names);
      var cleared := KillAll(pods, names, rest);
      CreateLeavesOne(cleared.pods, build, pods[build], cleared.faults);
    }
  }

  lemma ScannableIsScanned(pods: Pods, build: string, images: seq<string>, names: seq<string>)
    requires Lists(names, Scanners(pods)) && Scannable(pods, build, images)
    ensures var scan := ScanOnce(pods, build, images, names, []);
            scan.verdict == Finished && Scanned(pods, scan.pods, build)
  {
    KillRemoves(pods, names, []);
    NoScannersLeft(pods, names);
    var cleared := pods - (set n | n in names);
    assert |ScannerName(build)| > |build|;
    CreateAddsOne(cleared, ScannerName(build));
    ScanPodIsScanner();
    LabelKeepsScanners(WithScanPod(cleared, ScannerName(build)), build, pods[build]);
  }

  lemma KilledIffScanner(pods: Pods, names: seq<string>, name: string)
    requires Lists(names, Scanners(pods)) && name in pods
    ensures name in KillAll(pods, names, []).pods <==> !IsScanner(pods[name])
  {
    KillRemoves(pods, names, []);
    assert name in (set n | n in names) <==> name in Scanners(pods);
  }

  lemma CleanVerdict(pods: Pods, build: string, images: seq<string>, names: seq<string>)
    requires Lists(names, Scanners(pods)) && build in pods && pods[build].succeeded
    ensures var scan := ScanOnce(pods, build, images, names, []);
            && (scan.verdict == Error <==> images == [] || !NameIsFree(pods, build))
            && (scan.verdict == Panicked <==> images != [] && NameIsFree(pods, build) && pods[build].labels == map[])
            && (images != [] && IsScanner(pods[build]) ==> build !in scan.pods)
  {
    KillRemoves(pods, names, []);
    assert |ScannerName(build)| > |build|;
    KilledIffScanner(pods, names, build);
    if ScannerName(build) in pods {
      KilledIffScanner(pods, names, ScannerName(build));
    }
  }

  /**
   The scan of a succeeded build in which no call fails: it ends well exactly when it may, and panics
   exactly when the build pod has no labels and everything before the labelling works out.
   */
  lemma CleanScan(pods: Pods, build: string, images: seq<string>, names: seq<string>)
    requires Lists(names, Scanners(pods)) && build in pods && pods[build].succeeded
    ensures var scan := ScanOnce(pods, build, images, names, []);
            && (scan.verdict == Finished && Scanned(pods, scan.pods, build) <==> Scannable(pods, build, images))
            && (scan.verdict == Panicked <==> images != [] && NameIsFree(pods, build) && pods[build].labels == map[])
  {
    CleanVerdict(pods, build, images, names);
    if Scannable(pods, build, images) {
      ScannableIsScanned(pods, build, images, names);
    }
  }

  // ---- Under faults -------------------------------------------------------------------------

  /** What the selector finds is what carries every label of a created scan pod. */
  lemma SelectorMeaning(p: Pod)
    ensures IsScanner(p) <==> forall k | k in SCAN_POD_LABELS :: k in p.labels && p.labels[k] == SCAN_POD_LABELS[k]
  {
    ScanPodIsScanner();
    assert SCAN_STATUS in SCAN_POD_LABELS && IMAGE_SCANNER in SCAN_POD_LABELS;
  }

  /** An update event counts when the pod has a build name and carries no mark of a scan. */
  lemma FilterMeaning(labels: StringMap)
    ensures Accepts(labels) <==>
            "lagoon.sh/buildName" in labels.Keys
            && labels.Keys !! {"insights.lagoon.sh/scan-status", "insights.lagoon.sh/scanned"}
  {
  }

  ghost function Leading(names: seq<string>, k: nat): set<string>
    requires k <= |names|
  {
    set i | 0 <= i < k :: names[i]
  }

  lemma LeadingShifts(names: seq<string>, k: nat)
    requires 0 < k <= |names|
    ensures Leading(names, k) == {names[0]} + Leading(names[1..], k - 1)
  {
    var rest := names[1..];
    forall n | n in Leading(names, k)
      ensures n in {names[0]} + Leading(rest, k - 1)
    {
      var i :| 0 <= i < k && names[i] == n;
      assert i > 0 ==> rest[i - 1] == n;
    }
    forall n | n in Leading(rest, k - 1)
      ensures n in Leading(names, k)
    {
      var i :| 0 <= i < k - 1 && rest[i] == n;
      assert names[i + 1] == n;
    }
  }

  /** A deletion that succeeds, and one that does not. */
  lemma KillStep(pods: Pods, names: seq<string>, faults: seq<Fault>)
    requires names != []
    ensures FaultAt(faults, 0) == NoFault ==>
              KillAll(pods, names, faults) == KillAll(pods - {names[0]}, names[1..], Tail(faults))
    ensures FaultAt(faults, 0) != NoFault ==>
              KillAll(pods, names, faults) ==
              Killed(if FaultAt(faults, 0) == AnswerLost then pods - {names[0]} else pods, true, Tail(faults))
  {
    TailShifts(faults);
  }

  /** The first failing deletion ends the killing; a lost answer hides that it took effect. */
  lemma {:induction false} KillMeaning(pods: Pods, names: seq<string>, faults: seq<Fault>, k: nat)
    requires k < |names| && FaultFree(faults, 0, k) && FaultAt(faults, k) != NoFault
    ensures var killed := KillAll(pods, names, faults);
            killed.failed && killed.pods == pods - Leading(names, if FaultAt(faults, k) == AnswerLost then k + 1 else k)
    decreases |names|
  {
    KillStep(pods, names, faults);
    if k == 0 {
      assert Leading(names, 1) == {names[0]};
    } else {
      TailShifts(faults);
      KillMeaning(pods - {names[0]}, names[1..], Tail(faults), k - 1);
      LeadingShifts(names, if FaultAt(faults, k) == AnswerLost then k + 1 else k);
    }
  }

  lemma {:induction false} KillsAll(pods: Pods, names: seq<string>, faults: seq<Fault>)
    requires FaultFree(faults, 0, |names|)
    ensures var killed := KillAll(pods, names, faults);
            && !killed.failed && killed.pods == pods - (set n | n in names)
            && FaultAt(killed.faults, 0) == FaultAt(faults, |names|)
                 && FaultAt(killed.faults, 1) == FaultAt(faults, |names| + 1)
    decreases |names|
  {
    if names != [] {
      KillStep(pods, names, faults);
      TailShifts(faults);
      KillsAll(pods - {names[0]}, names[1..], Tail(faults));
      assert names == [names[0]] + names[1..];
    }
  }

  /** A build pod that is gone or has not succeeded: nothing changes, and the reconcile ends well if it could look. */
  lemma NothingToScan(pods: Pods, build: string, images: seq<string>, names: seq<string>, faults: seq<Fault>)
    requires build !in pods || !pods[build].succeeded
    ensures var scan := ScanOnce(pods, build, images, names, faults);
            scan.pods == pods && (scan.verdict == if FaultAt(faults, 0) == NoFault then Finished else Error)
  {
  }

  lemma NoImagesNoScan(pods: Pods, build: string, names: seq<string>, faults: seq<Fault>)
    requires build in pods && pods[build].succeeded
    ensures ScanOnce(pods, build, [], names, faults) == Scan(pods, Error)
  {
  }

  /**
   Which call fails first decides what a scan leaves. The calls are: get the build pod, list deployments,
   list scanners, one deletion each, create, label.
   */
  lemma FirstFaultDecides(pods: Pods, build: string, images: seq<string>, names: seq<string>, faults: seq<Fault>,
                          k: nat)
    requires build in pods && pods[build].succeeded && images != []
    requires FaultFree(faults, 0, k) && FaultAt(faults, k) != NoFault
    ensures var scan := ScanOnce(pods, build, images, names, faults);
            var lost := FaultAt(faults, k) == AnswerLost;
            var cleared := pods - (set n | n in names);
            var scanner := "insights-scanner-" + build;
            var created := cleared[scanner := Pod(SCAN_POD_LABELS, false)];
            && (k < 3 ==> scan == Scan(pods, Error))
            && (3 <= k < 3 + |names| ==>
                  scan == Scan(pods - Leading(names, if lost then k - 2 else k - 3), Error))
            && (k == 3 + |names| ==> scan == Scan(if lost && scanner !in cleared then created else cleared, Error))
            && (k > 3 + |names| && scanner in cleared ==> scan == Scan(cleared, Error))
            && (k > 3 + |names| && scanner !in cleared && pods[build].labels == map[] ==>
                  scan == Scan(created, Panicked))
            && (k == 4 + |names| && scanner !in cleared && pods[build].labels != map[] ==>
                  scan == Scan(if lost && build in created
                               then created[build := pods[build].(labels := pods[build].labels[SCANNED := "true"])]
                               else created, Error))
  {
    var rest := Tail(Tail(Tail(faults)));
    TailShifts(faults);
    TailShifts(Tail(faults));
    TailShifts(Tail(Tail(faults)));
    if k >= 3 {
      if k - 3 < |names| {
        KillMeaning(pods, names, rest, k - 3);
      } else {
        KillsAll(pods, names, rest);
        CreateMeaning(pods - (set n | n in names), build, pods[build], KillAll(pods, names, rest).faults);
      }
    }
  }

  lemma CreateMeaning(pods: Pods, build: string, pod: Pod, faults: seq<Fault>)
    ensures var scan := CreateAndLabel(pods, build, pod, faults);
            var scanner := "insights-scanner-" + build;
            var created := pods[scanner := Pod(SCAN_POD_LABELS, false)];
            if scanner in pods then scan == Scan(pods, Error)
            else if FaultAt(faults, 0) == Refused then scan == Scan(pods, Error)
            else if FaultAt(faults, 0) == AnswerLost then scan == Scan(created, Error)
            else if pod.labels == map[] then scan == Scan(created, Panicked)
            else
              && (scan.verdict == if FaultAt(faults, 1) == NoFault then Finished else Error)
              && (scan.pods == if FaultAt(faults, 1) == Refused || build !in created then created
                               else created[build := pod.(labels := pod.labels[SCANNED := "true"])])
  {
    TailShifts(faults);
    TailShifts(Tail(faults));
  }

  // ---- Whole runs ---------------------------------------------------------------------------

  /**
   What happens in the namespace: a reconcile working on an up-to-date list, some other pod that is no
   scanner appearing or changing, or a pod going away.
   */
  datatype Event =
    | Reconciled(build: string, images: seq<string>, names: seq<string>, faults: seq<Fault>)
    | Put(name: string, pod: Pod)
    | Gone(name: string)

  ghost function Next(pods: Pods, e: Event): Pods {
    match e
    case Reconciled(build, images, names, faults) =>
      if Lists(names, Scanners(pods)) then ScanOnce(pods, build, images, names, faults).pods else pods
    case Put(name, pod) => if IsScanner(pod) then pods else pods[name := pod]
    case Gone(name) => pods - {name}
  }

  ghost function Run(pods: Pods, events: seq<Event>): Pods {
    if events == [] then pods else Next(Run(pods, events[..|events| - 1]), events[|events| - 1])
  }

  lemma SubsetSize(a: set<string>, b: set<string>)
    requires a <= b
    ensures |a| <= |b|
  {
    assert b == a + (b - a);
  }

  lemma NextKeepsOne(pods: Pods, e: Event)
    requires |Scanners(pods)| <= 1
    ensures |Scanners(Next(pods, e))| <= 1
  {
    var after := Scanners(Next(pods, e));
    match e
    case Reconciled(build, images, names, faults) =>
      if Lists(names, Scanners(pods)) {
        ScanLeaves(pods, build, images, names, faults);
        SubsetSize(after, if after <= Scanners(pods) then Scanners(pods) else {ScannerName(build)});
      }
    case Put(name, pod) => SubsetSize(after, Scanners(pods));
    case Gone(name) => SubsetSize(after, Scanners(pods));
  }

  /** Two scanner pods never coexist after a start with at most one, whatever calls fail. */
  lemma {:induction false} NeverTwoScanners(pods: Pods, events: seq<Event>)
    requires |Scanners(pods)| <= 1
    ensures |Scanners(Run(pods, events))| <= 1
  {
    if events != [] {
      NeverTwoScanners(pods, events[..|events| - 1]);
      NextKeepsOne(Run(pods, events[..|events| - 1]), events[|events| - 1]);
    }
  }
}
