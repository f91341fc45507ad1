/**
 The values the insights ConfigMap protocol works on: label and annotation maps, the event
 predicates, and what one reconcile round decides to write.
 */
module ConfigMaps {
  import opened Options
  import opened Decimal
  import opened Strings

  datatype Content = Content(labels: StringMap, annotations: StringMap)

  const INSIGHTS := "lagoon.sh/insightsType"
  const TYPE := "insights.lagoon.sh/type"
  const DEFERRED := "lagoon.sh/insightsWriteDeferred"
  const EXCEEDED := "insights.lagoon.sh/max-retry-exceeded"
  const PROCESSED := "lagoon.sh/insightsProcessed"
  const RETRIES := "insights.lagoon.sh/retries"
  const SUCCESS := "success"
  const FAILURE := "failure"
  const SECOND := 1_000_000_000

  /**
   The reconciler's configuration. A processor is its `Label()`, or `None` for a nil entry;
   `minutes` and `maxRetries` are Go ints.
   */
  datatype Config = Config(processors: seq<Option<string>>, minutes: int, maxRetries: int)

  /** What `PostProcess` returned: nil, or an error with its message. */
  datatype Outcome = Delivered | Failed(message: string)

  function ErrorKey(key: string): string {
    key + "-error"
  }

  predicate IsLabel(c: Config, key: string) {
    Some(key) in c.processors
  }

  /** Processor labels, their error keys and the two bookkeeping annotations never collide. */
  ghost predicate WellFormed(c: Config) {
    && MIN_INT64 <= c.maxRetries <= MAX_INT64
    && MIN_INT64 <= c.minutes <= MAX_INT64
    && (forall i, j | 0 <= i < j < |c.processors| && c.processors[i].Some? :: c.processors[i] != c.processors[j])
    && (forall l, m | IsLabel(c, l) && IsLabel(c, m) :: l != ErrorKey(m))
    && (forall l | IsLabel(c, l) :: l !in {PROCESSED, RETRIES} && ErrorKey(l) !in {PROCESSED, RETRIES})
  }

  // ---- The event predicates -----------------------------------------------------------------

  /** `labelExists` looks at label values as well as label keys. */
  predicate LabelExists(key: string, labels: StringMap) {
    exists k | k in labels :: k == key || labels[k] == key
  }

  predicate InsightLabelsOnly(content: Content) {
    && LabelExists(INSIGHTS, content.labels)
    && !LabelExists(DEFERRED, content.labels)
    && PROCESSED !in content.annotations
  }

  predicate InsightMaxRetry(content: Content) {
    !LabelExists(EXCEEDED, content.labels)
  }

  /** Both filters let a create or update event with this object through. */
  predicate Accepts(content: Content) {
    InsightLabelsOnly(content) && InsightMaxRetry(content)
  }

  /**
   The event filters over the label and annotation maps alone: the insights label must be among the
   label keys or values, neither the deferral nor the exhaustion label may, and nothing is processed twice.
   */
  lemma AcceptsIff(content: Content)
    ensures var texts := content.labels.Keys + content.labels.Values;
            Accepts(content) <==>
              INSIGHTS in texts && DEFERRED !in texts && EXCEEDED !in texts && PROCESSED !in content.annotations.Keys
  {
    LabelExistsIff(INSIGHTS, content.labels);
    LabelExistsIff(DEFERRED, content.labels);
    LabelExistsIff(EXCEEDED, content.labels);
  }

  lemma LabelExistsIff(key: string, labels: StringMap)
    ensures LabelExists(key, labels) <==> key in labels.Keys + labels.Values
  {
    if key in labels.Values {
      var k :| k in labels && labels[k] == key;
    }
  }

  function InsightsType(labels: StringMap): string {
    if TYPE in labels then labels[TYPE]
    else if INSIGHTS !in labels then "unclassified"
    else match labels[INSIGHTS]
      case "sbom-gz" => "sbom"
      case "image-gz" => "inspect"
      case _ => "unclassified"
  }

  predicate Recognised(labels: StringMap) {
    InsightsType(labels) == "sbom" || InsightsType(labels) == "inspect"
  }

  /** The types that are let through, in terms of the two labels. */
  lemma RecognisedIff(labels: StringMap)
    ensures Recognised(labels) <==>
            if TYPE in labels then labels[TYPE] in {"sbom", "inspect"}
            else INSIGHTS in labels && labels[INSIGHTS] in {"sbom-gz", "image-gz"}
  {
    assert |"unclassified"| != |"sbom"| && |"unclassified"| != |"inspect"|;
  }

  /** Which of the two types an object has; anything else is unclassified or carried along as it is. */
  lemma TypeMeaning(labels: StringMap)
    ensures TYPE in labels ==> InsightsType(labels) == labels[TYPE]
    ensures TYPE !in labels && INSIGHTS in labels && labels[INSIGHTS] == "sbom-gz" ==> InsightsType(labels) == "sbom"
    ensures TYPE !in labels && INSIGHTS in labels && labels[INSIGHTS] == "image-gz" ==>
              InsightsType(labels) == "inspect"
    ensures TYPE !in labels && (INSIGHTS !in labels || labels[INSIGHTS] !in {"sbom-gz", "image-gz"}) ==>
              InsightsType(labels) == "unclassified"
  {
  }

  // ---- One round ----------------------------------------------------------------------------

  predicate Succeeded(annotations: StringMap, key: string) {
    key in annotations && annotations[key] == SUCCESS
  }

  /** The loop skips nil processors and those already recorded as successful. */
  predicate Calls(annotations: StringMap, processor: Option<string>) {
    processor.Some? && !Succeeded(annotations, processor.value)
  }

  /** The loop's variables: `retryPostprocessors` and `updateAnnotations`. */
  datatype Progress = Progress(retry: seq<string>, updates: StringMap)

  function Visit(annotations: StringMap, p: Progress, processor: Option<string>, outcome: Outcome): Progress {
    if !Calls(annotations, processor) then p
    else
      var key := processor.value;
      match outcome
      case Failed(message) => Progress(p.retry + [key], p.updates[key := FAILURE][ErrorKey(key) := message])
      case Delivered => Progress(p.retry, p.updates[key := SUCCESS])
  }

  /** The loop's variables after the first `|outcomes|` processors. */
  function VisitAll(c: Config, annotations: StringMap, outcomes: seq<Outcome>): Progress
    requires |outcomes| <= |c.processors|
  {
    if outcomes == [] then Progress([], map[])
    else
      var k := |outcomes| - 1;
      Visit(annotations, VisitAll(c, annotations, outcomes[..k]), c.processors[k], outcomes[k])
  }

  /** The stored counter; a missing or unreadable one counts as zero. */
  function StoredRetries(annotations: StringMap): int {
    if RETRIES !in annotations then 0
    else
      var p := ParseInt64(annotations[RETRIES]);
      if p.verdict == Fine then p.value else 0
  }

  /** The configured delay as the 64-bit Go duration `time.Minute * time.Duration(mins)`. */
  function Delay(c: Config): int {
    Wrap64(60 * SECOND * c.minutes)
  }

  /** `minutesFromNow`: nanoseconds in, whole seconds out. */
  function Deadline(c: Config, now: int): int {
    (now + Delay(c)) / SECOND
  }

  datatype Plan = Plan(labels: StringMap, annotations: StringMap, failing: bool)

  /** What a round that saw `annotations` and got `outcomes` hands to `BatchUpdateCM`. */
  function PlanRound(c: Config, annotations: StringMap, outcomes: seq<Outcome>, now: int, stamp: string): Plan
    requires |outcomes| == |c.processors|
  {
    var p := VisitAll(c, annotations, outcomes);
    var stored := StoredRetries(annotations);
    if p.retry != [] then
      var retries := Wrap64(stored + 1);
      var labels := map[DEFERRED := FormatInt(Deadline(c, now))];
      Plan(if retries > c.maxRetries then labels[EXCEEDED := "MAX_RETRY_EXCEEDED"] else labels,
           p.updates[RETRIES := FormatInt(retries)], true)
    else
      Plan(map[], p.updates[PROCESSED := stamp][RETRIES := FormatInt(stored)], false)
  }

  function Overlay(content: Content, plan: Plan): Content {
    Content(content.labels + plan.labels, content.annotations + plan.annotations)
  }

  /** The deferred-clear cron's test; the parse error is dropped, so garbage counts as the epoch. */
  predicate Expired(deadline: string, now: int) {
    now > ParseInt32(deadline).value * SECOND
  }

  function Undeferred(content: Content): Content {
    Content(content.labels - {DEFERRED}, content.annotations)
  }

  /** The delay is the configured number of minutes up to 64-bit wrap-around, the deadline whole seconds after it. */
  lemma DeadlineMeaning(c: Config, now: int)
    ensures Delay(c) == Wrap64(60_000_000_000 * c.minutes)
    ensures 1_000_000_000 * Deadline(c, now) <= now + Delay(c) < 1_000_000_000 * (Deadline(c, now) + 1)
  {
  }

  /** A stored counter counts if it is a number in the signed 64-bit range, and as zero otherwise. */
  lemma CounterMeaning(annotations: StringMap)
    ensures RETRIES !in annotations ==> StoredRetries(annotations) == 0
    ensures RETRIES in annotations ==>
              var text := annotations[RETRIES];
              StoredRetries(annotations) ==
                if IsNumber(text) && MIN_INT64 <= Number(text) <= MAX_INT64 then Number(text) else 0
  {
    if RETRIES in annotations {
      ParseMeaning(annotations[RETRIES], 0x8000_0000_0000_0000);
    }
  }

  /** A deferral expires after its second, clamped to 32 bits; text that is no number counts as the epoch. */
  lemma ExpiryMeaning(text: string, now: int)
    ensures IsNumber(text) ==>
              (Expired(text, now) <==>
                now > 1_000_000_000 * (if Number(text) > MAX_INT32 then MAX_INT32
                                       else if Number(text) < MIN_INT32 then MIN_INT32 else Number(text)))
    ensures Unsigned(text) == "" || !('0' <= Unsigned(text)[0] <= '9') ==> (Expired(text, now) <==> now > 0)
  {
    ParseMeaning(text, 0x8000_0000);
  }

  /** A release takes the deferral label away and leaves everything else. */
  lemma ReleaseMeaning(content: Content)
    ensures var after := Undeferred(content);
            && after.annotations == content.annotations && DEFERRED !in after.labels
            && forall k | k != DEFERRED :: Same(content.labels, after.labels, k)
  {
  }

  predicate Same(before: StringMap, after: StringMap, key: string) {
    (key in before <==> key in after) && (key in before ==> before[key] == after[key])
  }

  // ---- What a round leaves behind -----------------------------------------------------------

  ghost predicate AllSucceeded(c: Config, content: Content) {
    forall l | IsLabel(c, l) :: Succeeded(content.annotations, l)
  }

  /** A key that is neither a processor's label nor its error key is never touched by the loop. */
  lemma {:induction false} VisitLeaves(c: Config, annotations: StringMap, outcomes: seq<Outcome>, key: string)
    requires |outcomes| <= |c.processors|
    requires forall i | 0 <= i < |outcomes| && c.processors[i].Some? ::
               key != c.processors[i].value && key != ErrorKey(c.processors[i].value)
    ensures key !in VisitAll(c, annotations, outcomes).updates
  {
    if outcomes != [] {
      VisitLeaves(c, annotations, outcomes[..|outcomes| - 1], key);
    }
  }

  /** After its visit, processor `i` has an update exactly when it was called, with the outcome's mark. */
  lemma {:induction false} VisitRecords(c: Config, annotations: StringMap, outcomes: seq<Outcome>, i: nat)
    requires WellFormed(c) && i < |outcomes| <= |c.processors| && c.processors[i].Some?
    ensures var key := c.processors[i].value;
            var updates := VisitAll(c, annotations, outcomes).updates;
            && (key in updates <==> Calls(annotations, c.processors[i]))
            && (key in updates ==> updates[key] == if outcomes[i].Delivered? then SUCCESS else FAILURE)
  {
    var k := |outcomes| - 1;
    var key := c.processors[i].value;
    assert IsLabel(c, key);
    if i < k {
      VisitRecords(c, annotations, outcomes[..k], i);
      if c.processors[k].Some? {
        assert IsLabel(c, c.processors[k].value);
      }
    } else {
      forall j | 0 <= j < k && c.processors[j].Some?
        ensures key != c.processors[j].value && key != ErrorKey(c.processors[j].value)
      {
        assert IsLabel(c, c.processors[j].value);
      }
      VisitLeaves(c, annotations, outcomes[..k], key);
    }
  }

  /** A failed call's message ends up, unchanged, under the processor's error key. */
  lemma {:induction false} FailureIsExplained(c: Config, annotations: StringMap, outcomes: seq<Outcome>, i: nat)
    requires WellFormed(c) && i < |outcomes| <= |c.processors| && Calls(annotations, c.processors[i])
             && outcomes[i].Failed?
    ensures var updates := VisitAll(c, annotations, outcomes).updates;
            var key := c.processors[i].value + "-error";
            key in updates && updates[key] == outcomes[i].message
  {
    var k := |outcomes| - 1;
    if i < k {
      FailureIsExplained(c, annotations, outcomes[..k], i);
      if c.processors[k].Some? {
        ErrorKeysDiffer(c, i, k);
      }
    }
  }

  lemma ErrorKeysDiffer(c: Config, i: nat, k: nat)
    requires WellFormed(c) && i < k < |c.processors| && c.processors[i].Some? && c.processors[k].Some?
    ensures ErrorKey(c.processors[i].value) != ErrorKey(c.processors[k].value)
    ensures ErrorKey(c.processors[i].value) != c.processors[k].value
  {
    var a, b := c.processors[i].value, c.processors[k].value;
    assert IsLabel(c, a) && IsLabel(c, b);
    assert ErrorKey(a)[..|a|] == a && ErrorKey(b)[..|b|] == b;
  }

  /** The retry list is empty exactly when every call that was made was delivered. */
  lemma {:induction false} RetryListed(c: Config, annotations: StringMap, outcomes: seq<Outcome>)
    requires |outcomes| <= |c.processors|
    ensures VisitAll(c, annotations, outcomes).retry == [] <==>
            forall i | 0 <= i < |outcomes| :: Calls(annotations, c.processors[i]) ==> outcomes[i].Delivered?
  {
    if outcomes != [] {
      var k := |outcomes| - 1;
      RetryListed(c, annotations, outcomes[..k]);
      assert forall i | 0 <= i < k :: outcomes[..k][i] == outcomes[i];
    }
  }

  lemma BookkeepingUntouched(c: Config, annotations: StringMap, outcomes: seq<Outcome>)
    requires WellFormed(c) && |outcomes| <= |c.processors|
    ensures PROCESSED !in VisitAll(c, annotations, outcomes).updates
    ensures RETRIES !in VisitAll(c, annotations, outcomes).updates
  {
    forall i | 0 <= i < |outcomes| && c.processors[i].Some?
      ensures c.processors[i].value !in {PROCESSED, RETRIES}
      ensures ErrorKey(c.processors[i].value) !in {PROCESSED, RETRIES}
    {
      assert IsLabel(c, c.processors[i].value);
    }
    VisitLeaves(c, annotations, outcomes, PROCESSED);
    VisitLeaves(c, annotations, outcomes, RETRIES);
  }

  /**
   What a committed round means for each processor: recorded successes stay, an outstanding one
   becomes recorded exactly when its call returned nil, and the processed mark is written exactly
   when nothing is outstanding any more.
   */
  lemma RoundMeaning(c: Config, content: Content, outcomes: seq<Outcome>, now: int, stamp: string)
    requires WellFormed(c) && |outcomes| == |c.processors|
    ensures var plan := PlanRound(c, content.annotations, outcomes, now, stamp);
            var next := Overlay(content, plan);
            && (forall i | 0 <= i < |c.processors| && c.processors[i].Some? ::
                  Succeeded(next.annotations, c.processors[i].value) <==>
                  Succeeded(content.annotations, c.processors[i].value) || outcomes[i].Delivered?)
            && (!plan.failing <==> AllSucceeded(c, next))
            && (PROCESSED in next.annotations <==> PROCESSED in content.annotations || !plan.failing)
  {
    var plan := PlanRound(c, content.annotations, outcomes, now, stamp);
    var next := Overlay(content, plan);
    forall i | 0 <= i < |c.processors| && c.processors[i].Some?
      ensures Succeeded(next.annotations, c.processors[i].value) <==>
              Succeeded(content.annotations, c.processors[i].value) || outcomes[i].Delivered?
    {
      assert IsLabel(c, c.processors[i].value);
      VisitRecords(c, content.annotations, outcomes, i);
    }
    RetryListed(c, content.annotations, outcomes);
    BookkeepingUntouched(c, content.annotations, outcomes);
    assert forall l | IsLabel(c, l) :: exists i | 0 <= i < |c.processors| :: c.processors[i] == Some(l);
  }

  /**
   A failing round adds the deadline, and the exhaustion label once the new counter exceeds the limit;
   a clean one changes no label; no other label ever changes.
   */
  lemma RoundLabels(c: Config, content: Content, outcomes: seq<Outcome>, now: int, stamp: string)
    requires |outcomes| == |c.processors|
    ensures var plan := PlanRound(c, content.annotations, outcomes, now, stamp);
            var after := Overlay(content, plan).labels;
            var counter := Wrap64(StoredRetries(content.annotations) + 1);
            && (!plan.failing ==> after == content.labels)
            && (plan.failing ==> DEFERRED in after && after[DEFERRED] == FormatInt(Deadline(c, now)))
            && (plan.failing && counter > c.maxRetries ==>
                  EXCEEDED in after && after[EXCEEDED] == "MAX_RETRY_EXCEEDED")
            && (counter <= c.maxRetries ==> Same(content.labels, after, EXCEEDED))
            && forall k | k != DEFERRED && k != EXCEEDED :: Same(content.labels, after, k)
  {
    assert |DEFERRED| != |EXCEEDED|;
  }

  /** The bookkeeping annotations: the time of a clean round, and the counter, one higher after a failing one. */
  lemma RoundBookkeeping(c: Config, content: Content, outcomes: seq<Outcome>, now: int, stamp: string)
    requires WellFormed(c) && |outcomes| == |c.processors|
    ensures var plan := PlanRound(c, content.annotations, outcomes, now, stamp);
            var after := Overlay(content, plan).annotations;
            var stored := StoredRetries(content.annotations);
            && (plan.failing ==> Same(content.annotations, after, PROCESSED))
            && (!plan.failing ==> PROCESSED in after && after[PROCESSED] == stamp)
            && RETRIES in after && after[RETRIES] == FormatInt(if plan.failing then Wrap64(stored + 1) else stored)
  {
    BookkeepingUntouched(c, content.annotations, outcomes);
    assert |PROCESSED| != |RETRIES|;
  }

  /** All other annotations stay as they are but those of the processors that were called. */
  lemma RoundTouchesOnly(c: Config, content: Content, outcomes: seq<Outcome>, now: int, stamp: string, key: string)
    requires |outcomes| == |c.processors| && key !in {PROCESSED, RETRIES}
    requires forall i | 0 <= i < |outcomes| && Calls(content.annotations, c.processors[i]) ::
               key != c.processors[i].value && (key != ErrorKey(c.processors[i].value) || outcomes[i].Delivered?)
    ensures var plan := PlanRound(c, content.annotations, outcomes, now, stamp);
            Same(content.annotations, Overlay(content, plan).annotations, key)
  {
    UncalledLeave(c, content.annotations, outcomes, key);
  }

  lemma {:induction false} UncalledLeave(c: Config, annotations: StringMap, outcomes: seq<Outcome>, key: string)
    requires |outcomes| <= |c.processors|
    requires forall i | 0 <= i < |outcomes| && Calls(annotations, c.processors[i]) ::
               key != c.processors[i].value && (key != ErrorKey(c.processors[i].value) || outcomes[i].Delivered?)
    ensures key !in VisitAll(c, annotations, outcomes).updates
  {
    if outcomes != [] {
      var k := |outcomes| - 1;
      assert forall i | 0 <= i < k :: outcomes[..k][i] == outcomes[i];
      UncalledLeave(c, annotations, outcomes[..k], key);
    }
  }

  /** The retry list holds the labels of exactly the calls that failed. */
  lemma {:induction false} RetryMeaning(c: Config, annotations: StringMap, outcomes: seq<Outcome>, key: string)
    requires |outcomes| <= |c.processors|
    ensures key in VisitAll(c, annotations, outcomes).retry <==>
            exists i | 0 <= i < |outcomes| ::
              c.processors[i] == Some(key) && Calls(annotations, c.processors[i]) && outcomes[i].Failed?
  {
    if outcomes != [] {
      var k := |outcomes| - 1;
      RetryMeaning(c, annotations, outcomes[..k], key);
      assert forall i | 0 <= i < k :: outcomes[..k][i] == outcomes[i];
    }
  }

  /** A processor is called unless it is nil or its annotation reads "success". */
  lemma CallsIff(annotations: StringMap, processor: Option<string>)
    ensures Calls(annotations, processor) <==>
            processor.Some? && !(processor.value in annotations && annotations[processor.value] == "success")
  {
  }
}
