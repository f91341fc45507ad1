/**
 The life of one ConfigMap as the sequence of its stored revisions. A history is lawful when every
 revision follows from the one before it by one committed round, one release by the deferred-clear
 cron, or one write by somebody else that leaves the protocol's own keys alone.
 */
module History {
  import opened Options
  import opened Decimal
  import opened ConfigMaps

  /** Who wrote a revision; `at` is the clock the writer read. */
  datatype Cause =
    | Created
    | Round(outcomes: seq<Outcome>, at: int, stamp: string, failing: bool)
    | Released(at: int)
    | Outside

  datatype Revision = Revision(content: Content, cause: Cause)

  ghost predicate Fresh(c: Config, content: Content) {
    && DEFERRED !in content.labels && EXCEEDED !in content.labels
    && PROCESSED !in content.annotations && RETRIES !in content.annotations
    && forall l | IsLabel(c, l) :: l !in content.annotations
  }

  /** The keys only this controller writes have the same entries in both. */
  ghost predicate SameProtocolKeys(c: Config, before: Content, after: Content) {
    && Same(before.labels, after.labels, DEFERRED) && Same(before.labels, after.labels, EXCEEDED)
    && Same(before.annotations, after.annotations, PROCESSED) && Same(before.annotations, after.annotations, RETRIES)
    && forall l | IsLabel(c, l) :: Same(before.annotations, after.annotations, l)
  }

  ghost predicate Follows(c: Config, before: Content, next: Revision) {
    match next.cause
    case Created => false
    case Round(outcomes, at, stamp, failing) =>
      && Recognised(before.labels) && |outcomes| == |c.processors|
      && var plan := PlanRound(c, before.annotations, outcomes, at, stamp);
      failing == plan.failing && next.content == Overlay(before, plan)
    case Released(at) =>
      && DEFERRED in before.labels && Expired(before.labels[DEFERRED], at)
      && next.content == Undeferred(before)
    case Outside => SameProtocolKeys(c, before, next.content)
  }

  ghost predicate FollowsAt(c: Config, revisions: seq<Revision>, i: nat)
    requires 0 < i < |revisions|
  {
    Follows(c, revisions[i - 1].content, revisions[i])
  }

  ghost predicate Lawful(c: Config, revisions: seq<Revision>) {
    && revisions != [] && revisions[0].cause.Created? && Fresh(c, revisions[0].content)
    && forall i | 0 < i < |revisions| :: FollowsAt(c, revisions, i)
  }

  lemma LawfulPrefix(c: Config, revisions: seq<Revision>, n: nat)
    requires Lawful(c, revisions) && 0 < n <= |revisions|
    ensures Lawful(c, revisions[..n])
    ensures revisions[..n][n - 1] == revisions[n - 1]
    ensures n < |revisions| ==> Follows(c, revisions[n - 1].content, revisions[n])
  {
    forall i | 0 < i < n
      ensures FollowsAt(c, revisions[..n], i)
    {
      assert FollowsAt(c, revisions, i);
    }
    assert n < |revisions| ==> FollowsAt(c, revisions, n);
  }

  // ---- Processed means delivered ------------------------------------------------------------

  predicate Marked(content: Content) {
    PROCESSED in content.annotations
  }

  lemma StepKeepsSuccess(c: Config, before: Content, next: Revision)
    requires WellFormed(c) && Follows(c, before, next)
    ensures forall l | IsLabel(c, l) && Succeeded(before.annotations, l) :: Succeeded(next.content.annotations, l)
    ensures Marked(before) ==> Marked(next.content)
    ensures Marked(next.content) && !Marked(before) ==> AllSucceeded(c, next.content)
  {
    match next.cause
    case Round(outcomes, at, stamp, failing) =>
      RoundMeaning(c, before, outcomes, at, stamp);
      forall l | IsLabel(c, l) && Succeeded(before.annotations, l)
        ensures Succeeded(next.content.annotations, l)
      {
        var i :| 0 <= i < |c.processors| && c.processors[i] == Some(l);
        assert c.processors[i].value == l;
      }
    case _ =>
  }

  /** A revision with the processed mark, and every later one, has it and has every success recorded. */
  lemma {:induction false} ProcessedIsFinal(c: Config, revisions: seq<Revision>, i: nat, j: nat)
    requires WellFormed(c) && Lawful(c, revisions) && i <= j < |revisions|
    requires Marked(revisions[i].content)
    ensures Marked(revisions[j].content) && AllSucceeded(c, revisions[j].content)
    decreases j
  {
    if j > 0 {
      assert FollowsAt(c, revisions, j);
      StepKeepsSuccess(c, revisions[j - 1].content, revisions[j]);
      if i < j {
        ProcessedIsFinal(c, revisions, i, j - 1);
      } else if Marked(revisions[j - 1].content) {
        ProcessedIsFinal(c, revisions, j - 1, j - 1);
      }
    }
  }

  /** A recorded success is never taken back. */
  lemma {:induction false} SuccessIsFinal(c: Config, revisions: seq<Revision>, i: nat, j: nat, l: string)
    requires WellFormed(c) && Lawful(c, revisions) && i <= j < |revisions| && IsLabel(c, l)
    requires Succeeded(revisions[i].content.annotations, l)
    ensures Succeeded(revisions[j].content.annotations, l)
    decreases j
  {
    if i < j {
      SuccessIsFinal(c, revisions, i, j - 1, l);
      assert FollowsAt(c, revisions, j);
      StepKeepsSuccess(c, revisions[j - 1].content, revisions[j]);
    }
  }

  // ---- When it was processed ----------------------------------------------------------------

  /** The time written by the last round that had nothing left to retry, if there was one. */
  function LastClean(revisions: seq<Revision>): Option<string> {
    if revisions == [] then None
    else
      var last := revisions[|revisions| - 1];
      if last.cause.Round? && !last.cause.failing then Some(last.cause.stamp)
      else LastClean(revisions[..|revisions| - 1])
  }

  /** Only a clean round changes the processed mark, and it writes its own time there. */
  lemma StepStamps(c: Config, before: Content, next: Revision)
    requires WellFormed(c) && Follows(c, before, next)
    ensures if next.cause.Round? && !next.cause.failing
            then Marked(next.content) && next.content.annotations[PROCESSED] == next.cause.stamp
            else Same(before.annotations, next.content.annotations, PROCESSED)
  {
    if next.cause.Round? {
      RoundBookkeeping(c, before, next.cause.outcomes, next.cause.at, next.cause.stamp);
    }
  }

  /** The processed mark holds the time of the last clean round, and is there exactly if there was one. */
  lemma {:induction false} MarkHoldsLastStamp(c: Config, revisions: seq<Revision>)
    requires WellFormed(c) && Lawful(c, revisions)
    ensures var content := revisions[|revisions| - 1].content;
            && (Marked(content) <==> LastClean(revisions).Some?)
            && (Marked(content) ==> content.annotations[PROCESSED] == LastClean(revisions).value)
    decreases |revisions|
  {
    var k := |revisions| - 1;
    if k > 0 {
      LawfulPrefix(c, revisions, k);
      MarkHoldsLastStamp(c, revisions[..k]);
      StepStamps(c, revisions[k - 1].content, revisions[k]);
    } else {
      assert LastClean(revisions[..k]) == None;
    }
  }

  // ---- Keys of others -----------------------------------------------------------------------

  /** A label or annotation the protocol does not use is changed only by other writers. */
  lemma StepKeepsForeign(c: Config, before: Content, next: Revision, key: string)
    requires Follows(c, before, next) && !next.cause.Outside?
    ensures key != DEFERRED && key != EXCEEDED ==> Same(before.labels, next.content.labels, key)
    ensures key !in {PROCESSED, RETRIES} && (forall l | IsLabel(c, l) :: key != l && key != ErrorKey(l)) ==>
              Same(before.annotations, next.content.annotations, key)
  {
    match next.cause
    case Round(outcomes, at, stamp, _) =>
      RoundLabels(c, before, outcomes, at, stamp);
      if key !in {PROCESSED, RETRIES} && (forall l | IsLabel(c, l) :: key != l && key != ErrorKey(l)) {
        assert forall i | 0 <= i < |outcomes| && c.processors[i].Some? :: IsLabel(c, c.processors[i].value);
        RoundTouchesOnly(c, before, outcomes, at, stamp, key);
      }
    case _ =>
      ReleaseMeaning(before);
  }

  /** Conversely, other writers may change any such key: the histories exclude nothing they do. */
  lemma ForeignWritesFollow(c: Config, before: Content, key: string, value: string)
    requires key !in {DEFERRED, EXCEEDED, PROCESSED, RETRIES} && !IsLabel(c, key)
    ensures Follows(c, before, Revision(before.(labels := before.labels[key := value]), Outside))
    ensures Follows(c, before, Revision(before.(annotations := before.annotations[key := value]), Outside))
    ensures Follows(c, before, Revision(before.(labels := before.labels - {key}), Outside))
    ensures Follows(c, before, Revision(before.(annotations := before.annotations - {key}), Outside))
  {
  }

  // ---- The retry counter --------------------------------------------------------------------

  predicate IsFailingRound(r: Revision) {
    r.cause.Round? && r.cause.failing
  }

  function FailingRounds(revisions: seq<Revision>): nat {
    if revisions == [] then 0
    else FailingRounds(revisions[..|revisions| - 1]) + (if IsFailingRound(revisions[|revisions| - 1]) then 1 else 0)
  }

  /** How many failing rounds are tolerated; a negative setting acts as zero. */
  function Limit(c: Config): nat {
    if c.maxRetries < 0 then 0 else c.maxRetries
  }

  /**
   The stored counter is the 64-bit value of the number of committed failing rounds, and the
   max-retry label is there exactly when that number exceeds the limit. With the largest Go int as
   limit the counter can never exceed it, so the label is never written.
   */
  ghost predicate CounterMatches(c: Config, revisions: seq<Revision>)
    requires revisions != []
  {
    var content := revisions[|revisions| - 1].content;
    var n := FailingRounds(revisions);
    && StoredRetries(content.annotations) == Wrap64(n)
    && (RETRIES in content.annotations ==> ParseInt64(content.annotations[RETRIES]) == Parsed(Wrap64(n), Fine))
    && (EXCEEDED in content.labels <==> n > Limit(c) && Limit(c) < MAX_INT64)
  }

  lemma LimitStep(c: Config, n: nat)
    requires WellFormed(c)
    ensures (n > Limit(c) && Limit(c) < MAX_INT64) || Wrap64(n + 1) > c.maxRetries <==>
            n + 1 > Limit(c) && Limit(c) < MAX_INT64
  {
  }

  lemma RoundCounts(c: Config, before: Content, outcomes: seq<Outcome>, at: int, stamp: string, n: nat)
    requires WellFormed(c) && |outcomes| == |c.processors|
    requires StoredRetries(before.annotations) == Wrap64(n)
    requires EXCEEDED in before.labels <==> n > Limit(c) && Limit(c) < MAX_INT64
    ensures var plan := PlanRound(c, before.annotations, outcomes, at, stamp);
            var next := Overlay(before, plan);
            var m := if plan.failing then n + 1 else n;
            && RETRIES in next.annotations
            && ParseInt64(next.annotations[RETRIES]) == Parsed(Wrap64(m), Fine)
            && (EXCEEDED in next.labels <==> m > Limit(c) && Limit(c) < MAX_INT64)
  {
    var plan := PlanRound(c, before.annotations, outcomes, at, stamp);
    var m := if plan.failing then n + 1 else n;
    assert RETRIES in plan.annotations && plan.annotations[RETRIES] == FormatInt(Wrap64(m)) by {
      WrapStep(n);
    }
    RoundTrip64(Wrap64(m));
    if plan.failing {
      WrapStep(n);
      LimitStep(c, n);
      assert EXCEEDED in plan.labels <==> Wrap64(n + 1) > c.maxRetries;
    }
  }

  lemma StepCounts(c: Config, before: Content, next: Revision, n: nat)
    requires WellFormed(c) && Follows(c, before, next)
    requires StoredRetries(before.annotations) == Wrap64(n)
    requires RETRIES in before.annotations ==> ParseInt64(before.annotations[RETRIES]) == Parsed(Wrap64(n), Fine)
    requires EXCEEDED in before.labels <==> n > Limit(c) && Limit(c) < MAX_INT64
    ensures var m := if IsFailingRound(next) then n + 1 else n;
            && StoredRetries(next.content.annotations) == Wrap64(m)
            && (RETRIES in next.content.annotations ==>
                 ParseInt64(next.content.annotations[RETRIES]) == Parsed(Wrap64(m), Fine))
            && (EXCEEDED in next.content.labels <==> m > Limit(c) && Limit(c) < MAX_INT64)
  {
    if next.cause.Round? {
      RoundCounts(c, before, next.cause.outcomes, next.cause.at, next.cause.stamp, n);
    }
  }

  lemma {:induction false} CounterCountsFailures(c: Config, revisions: seq<Revision>)
    requires WellFormed(c) && Lawful(c, revisions)
    ensures CounterMatches(c, revisions)
    decreases |revisions|
  {
    var k := |revisions| - 1;
    if k > 0 {
      LawfulPrefix(c, revisions, k);
      CounterCountsFailures(c, revisions[..k]);
      StepCounts(c, revisions[k - 1].content, revisions[k], FailingRounds(revisions[..k]));
    } else {
      assert FailingRounds(revisions[..k]) == 0;
    }
  }

  // ---- Bounded retry ------------------------------------------------------------------------

  /** Round `i` was committed on a revision both event predicates accept. */
  predicate AcceptedRound(revisions: seq<Revision>, i: nat)
    requires i < |revisions|
  {
    i > 0 && revisions[i].cause.Round? && Accepts(revisions[i - 1].content)
  }

  function AcceptedRounds(revisions: seq<Revision>): nat {
    if revisions == [] then 0
    else AcceptedRounds(revisions[..|revisions| - 1]) + (if AcceptedRound(revisions, |revisions| - 1) then 1 else 0)
  }

  lemma {:induction false} AcceptedRoundsBound(c: Config, revisions: seq<Revision>)
    requires WellFormed(c) && Lawful(c, revisions) && Limit(c) < MAX_INT64
    ensures AcceptedRounds(revisions) <= Limit(c) + 1
    ensures !Marked(revisions[|revisions| - 1].content) ==> AcceptedRounds(revisions) <= FailingRounds(revisions)
    decreases |revisions|
  {
    var k := |revisions| - 1;
    if k > 0 {
      LawfulPrefix(c, revisions, k);
      AcceptedRoundsBound(c, revisions[..k]);
      CounterCountsFailures(c, revisions[..k]);
      var before := revisions[k - 1].content;
      StepKeepsSuccess(c, before, revisions[k]);
      if AcceptedRound(revisions, k) {
        assert EXCEEDED !in before.labels;
        RoundMeaning(c, before, revisions[k].cause.outcomes, revisions[k].cause.at, revisions[k].cause.stamp);
      }
    } else {
      assert AcceptedRounds(revisions[..k]) == 0;
    }
  }

  /** The number of failing rounds an object still has before it is exhausted. */
  function Remaining(c: Config, content: Content): int {
    Limit(c) + 1 - StoredRetries(content.annotations)
  }

  /**
   A round on an accepted revision either fails, and then the retry budget falls by one without
   going below zero, or is clean, and then no later revision is ever accepted.
   */
  lemma RetryMeasure(c: Config, revisions: seq<Revision>, i: nat)
    requires WellFormed(c) && Lawful(c, revisions) && Limit(c) < MAX_INT64
    requires i < |revisions| && AcceptedRound(revisions, i)
    ensures revisions[i].cause.failing ==>
              0 <= Remaining(c, revisions[i].content) == Remaining(c, revisions[i - 1].content) - 1
    ensures !revisions[i].cause.failing ==>
              forall j | i <= j < |revisions| :: !Accepts(revisions[j].content)
  {
    LawfulPrefix(c, revisions, i);
    LawfulPrefix(c, revisions, i + 1);
    CounterCountsFailures(c, revisions[..i]);
    CounterCountsFailures(c, revisions[..i + 1]);
    assert revisions[..i + 1][..i] == revisions[..i];
    var before := revisions[i - 1].content;
    assert EXCEEDED !in before.labels;
    if !revisions[i].cause.failing {
      RoundMeaning(c, before, revisions[i].cause.outcomes, revisions[i].cause.at, revisions[i].cause.stamp);
      forall j | i <= j < |revisions|
        ensures !Accepts(revisions[j].content)
      {
        ProcessedIsFinal(c, revisions, i, j);
      }
    }
  }

  // ---- No self-triggering -------------------------------------------------------------------

  /** Whatever it started from, a committed round leaves an object the event predicates reject. */
  lemma RoundsNeverRetrigger(c: Config, revisions: seq<Revision>, i: nat)
    requires WellFormed(c) && Lawful(c, revisions) && i < |revisions| && revisions[i].cause.Round?
    ensures !Accepts(revisions[i].content)
  {
    assert FollowsAt(c, revisions, i);
    var before := revisions[i - 1].content;
    var cause := revisions[i].cause;
    var plan := PlanRound(c, before.annotations, cause.outcomes, cause.at, cause.stamp);
    if plan.failing {
      assert DEFERRED in revisions[i].content.labels;
    } else {
      RoundMeaning(c, before, cause.outcomes, cause.at, cause.stamp);
    }
  }

  /**
   Of the controller's own writes only a release makes a rejected object acceptable, and only one
   that is neither processed nor exhausted.
   */
  lemma OnlyReleasesReaccept(c: Config, revisions: seq<Revision>, i: nat)
    requires WellFormed(c) && Lawful(c, revisions) && 0 < i < |revisions| && !revisions[i].cause.Outside?
    requires !Accepts(revisions[i - 1].content) && Accepts(revisions[i].content)
    ensures revisions[i].cause.Released?
    ensures DEFERRED in revisions[i - 1].content.labels && !Marked(revisions[i - 1].content)
    ensures EXCEEDED !in revisions[i - 1].content.labels
    ensures Limit(c) < MAX_INT64 ==> FailingRounds(revisions[..i]) <= Limit(c)
  {
    assert FollowsAt(c, revisions, i);
    if revisions[i].cause.Round? {
      RoundsNeverRetrigger(c, revisions, i);
    }
    assert EXCEEDED !in revisions[i].content.labels;
    LawfulPrefix(c, revisions, i);
    CounterCountsFailures(c, revisions[..i]);
    assert revisions[..i][i - 1] == revisions[i - 1];
  }

  /** An exhausted object stays exhausted: no later revision is accepted, whoever writes it. */
  lemma {:induction false} ExhaustedIsFinal(c: Config, revisions: seq<Revision>, i: nat, j: nat)
    requires WellFormed(c) && Lawful(c, revisions) && i <= j < |revisions|
    requires EXCEEDED in revisions[i].content.labels
    ensures EXCEEDED in revisions[j].content.labels && !Accepts(revisions[j].content)
    decreases j
  {
    if i < j {
      ExhaustedIsFinal(c, revisions, i, j - 1);
      assert FollowsAt(c, revisions, j);
      ExceededKept(c, revisions[j - 1].content, revisions[j]);
    }
  }

  lemma ExceededKept(c: Config, before: Content, next: Revision)
    requires Follows(c, before, next) && EXCEEDED in before.labels
    ensures EXCEEDED in next.content.labels
  {
    assert |EXCEEDED| != |DEFERRED|;
  }

  // ---- How long an object stays deferred ----------------------------------------------------

  /** The clock read of the last failing round, if there was one. */
  function LastFailure(revisions: seq<Revision>): Option<int> {
    if revisions == [] then None
    else
      var last := revisions[|revisions| - 1];
      if IsFailingRound(last) then Some(last.cause.at) else LastFailure(revisions[..|revisions| - 1])
  }

  /** A deferral label always holds the deadline computed by the last failing round. */
  lemma {:induction false} DeferralHoldsLastDeadline(c: Config, revisions: seq<Revision>)
    requires WellFormed(c) && Lawful(c, revisions)
    ensures var labels := revisions[|revisions| - 1].content.labels;
            DEFERRED in labels ==>
              LastFailure(revisions).Some? && labels[DEFERRED] == FormatInt(Deadline(c, LastFailure(revisions).value))
    decreases |revisions|
  {
    var k := |revisions| - 1;
    if k > 0 {
      LawfulPrefix(c, revisions, k);
      DeferralHoldsLastDeadline(c, revisions[..k]);
    }
  }

  /**
   The cron may remove a label written with deadline `d` exactly when the clock is past `d`, or past
   2^31 - 1 for the larger deadlines its 32-bit parse clamps.
   */
  lemma ExpiryOfDeadline(deadline: int, now: int)
    ensures Expired(FormatInt(deadline), now) <==> now > Clamp32(deadline) * SECOND
  {
    Reparse32(deadline);
  }

  /** A label is never removed at or before its deadline if and only if that deadline fits 32 bits. */
  lemma DeadlineHonoured(deadline: int)
    ensures (forall now | Expired(FormatInt(deadline), now) :: now > deadline * SECOND) <==> deadline <= MAX_INT32
  {
    forall now
      ensures Expired(FormatInt(deadline), now) <==> now > Clamp32(deadline) * SECOND
    {
      ExpiryOfDeadline(deadline, now);
    }
    if deadline > MAX_INT32 {
      assert Expired(FormatInt(deadline), MAX_INT32 * SECOND + 1);
    }
  }

  /** The delay is the configured number of minutes exactly when that fits a Go duration. */
  lemma DelayIsMinutesIff(c: Config)
    ensures Delay(c) == 60 * SECOND * c.minutes <==> MIN_INT64 <= 60 * SECOND * c.minutes <= MAX_INT64
  {
  }

  /**
   A release at clock `at` happens only when more than the delay less one second has passed since the
   clock read of the failing round that wrote the label, provided that label's deadline fits 32 bits.
   */
  lemma ReleasedLateEnough(c: Config, revisions: seq<Revision>, i: nat)
    requires WellFormed(c) && Lawful(c, revisions) && i < |revisions| && revisions[i].cause.Released?
    ensures LastFailure(revisions[..i]).Some?
    ensures var read := LastFailure(revisions[..i]).value;
            var at := revisions[i].cause.at;
            && at > Clamp32(Deadline(c, read)) * SECOND
            && (Deadline(c, read) <= MAX_INT32 ==> at - read > Delay(c) - SECOND)
  {
    assert FollowsAt(c, revisions, i);
    LawfulPrefix(c, revisions, i);
    DeferralHoldsLastDeadline(c, revisions[..i]);
    ExpiryOfDeadline(Deadline(c, LastFailure(revisions[..i]).value), revisions[i].cause.at);
  }

  /**
   The other side: once more than the delay has passed since that clock read, a deferral label counts
   as expired.
   */
  lemma ExpiredSoonEnough(c: Config, revisions: seq<Revision>, now: int)
    requires WellFormed(c) && Lawful(c, revisions) && DEFERRED in revisions[|revisions| - 1].content.labels
    ensures LastFailure(revisions).Some?
    ensures var read := LastFailure(revisions).value;
            Deadline(c, read) >= MIN_INT32 && now - read > Delay(c) ==>
              Expired(revisions[|revisions| - 1].content.labels[DEFERRED], now)
  {
    DeferralHoldsLastDeadline(c, revisions);
    var read := LastFailure(revisions).value;
    if Deadline(c, read) >= MIN_INT32 && now - read > Delay(c) {
      PastDeadline(c, read, now);
    }
  }

  lemma PastDeadline(c: Config, read: int, now: int)
    requires Deadline(c, read) >= MIN_INT32 && now - read > Delay(c)
    ensures Expired(FormatInt(Deadline(c, read)), now)
  {
    ExpiryOfDeadline(Deadline(c, read), now);
  }

  // ---- The bound is exact -------------------------------------------------------------------

  function FailAll(c: Config): seq<Outcome> {
    seq(|c.processors|, i => Failed(""))
  }

  lemma AppendFailing(revisions: seq<Revision>, next: Revision)
    ensures FailingRounds(revisions + [next]) == FailingRounds(revisions) + (if IsFailingRound(next) then 1 else 0)
  {
    var longer := revisions + [next];
    assert longer[..|longer| - 1] == revisions && longer[|longer| - 1] == next;
  }

  lemma AppendAccepted(revisions: seq<Revision>, next: Revision)
    ensures AcceptedRounds(revisions + [next]) == AcceptedRounds(revisions) +
              (if AcceptedRound(revisions + [next], |revisions|) then 1 else 0)
  {
    assert (revisions + [next])[..|revisions|] == revisions;
  }

  lemma AppendLawful(c: Config, revisions: seq<Revision>, next: Revision)
    requires Lawful(c, revisions) && Follows(c, revisions[|revisions| - 1].content, next)
    ensures Lawful(c, revisions + [next])
  {
    var longer := revisions + [next];
    assert longer[..|revisions|] == revisions;
    forall i | 0 < i < |longer|
      ensures FollowsAt(c, longer, i)
    {
      assert i < |revisions| ==> FollowsAt(c, revisions, i);
    }
  }

  /** Nothing delivered yet, and no labels but a recognised type. */
  ghost predicate Untried(c: Config, content: Content) {
    && content.labels == map[INSIGHTS := "sbom-gz"]
    && Undelivered(c, content)
  }

  ghost predicate Undelivered(c: Config, content: Content) {
    !Marked(content) && forall l | IsLabel(c, l) :: !Succeeded(content.annotations, l)
  }

  lemma UntriedIsAccepted(c: Config, content: Content)
    requires Untried(c, content)
    ensures Accepts(content)
  {
    assert INSIGHTS in content.labels;
    assert |DEFERRED| != |"sbom-gz"| && |EXCEEDED| != |"sbom-gz"| && |DEFERRED| != |INSIGHTS|
        && |EXCEEDED| != |INSIGHTS|;
  }

  lemma FailOnce(c: Config, content: Content)
    requires WellFormed(c) && Untried(c, content) && exists i | 0 <= i < |c.processors| :: c.processors[i].Some?
    ensures var plan := PlanRound(c, content.annotations, FailAll(c), 0, "");
            plan.failing && Undelivered(c, Overlay(content, plan))
  {
    RetryListed(c, content.annotations, FailAll(c));
    RoundMeaning(c, content, FailAll(c), 0, "");
    var i :| 0 <= i < |c.processors| && c.processors[i].Some?;
    assert IsLabel(c, c.processors[i].value);
    assert Calls(content.annotations, c.processors[i]) && !FailAll(c)[i].Delivered?;
    var plan := PlanRound(c, content.annotations, FailAll(c), 0, "");
    forall l | IsLabel(c, l)
      ensures !Succeeded(Overlay(content, plan).annotations, l)
    {
      var j :| 0 <= j < |c.processors| && c.processors[j] == Some(l);
      assert c.processors[j].value == l;
    }
  }

  /** A release takes back what a failing round short of the limit did to the labels. */
  lemma FailureLabels(content: Content, plan: Plan)
    requires DEFERRED !in content.labels && DEFERRED in plan.labels && plan.labels.Keys <= {DEFERRED, EXCEEDED}
    ensures var next := Overlay(content, plan);
            DEFERRED in next.labels && (EXCEEDED !in next.labels ==> Undeferred(next).labels == content.labels)
  {
    var next := Overlay(content, plan);
    if EXCEEDED !in next.labels {
      assert forall k | k in plan.labels :: k == DEFERRED;
    }
  }

  /** Released and failed once more; `Follows` twice. */
  lemma ReleaseAndFail(c: Config, last: Content) returns (released: Revision, failed: Revision)
    requires WellFormed(c) && exists i | 0 <= i < |c.processors| :: c.processors[i].Some?
    requires DEFERRED in last.labels && Untried(c, Undeferred(last))
    ensures released.cause.Released? && Follows(c, last, released) && Accepts(released.content)
    ensures IsFailingRound(failed) && Follows(c, released.content, failed)
    ensures DEFERRED in failed.content.labels
    ensures EXCEEDED !in failed.content.labels ==> Untried(c, Undeferred(failed.content))
  {
    released := Revision(Undeferred(last), Released(ParseInt32(last.labels[DEFERRED]).value * SECOND + 1));
    failed := FailFrom(c, released.content);
  }

  lemma FailFrom(c: Config, content: Content) returns (failed: Revision)
    requires WellFormed(c) && exists i | 0 <= i < |c.processors| :: c.processors[i].Some?
    requires Untried(c, content)
    ensures Accepts(content) && IsFailingRound(failed) && Follows(c, content, failed)
    ensures DEFERRED in failed.content.labels
    ensures EXCEEDED !in failed.content.labels ==> Untried(c, Undeferred(failed.content))
  {
    UntriedIsAccepted(c, content);
    RecognisedIff(content.labels);
    assert |TYPE| != |INSIGHTS|;
    FailOnce(c, content);
    assert |DEFERRED| != |INSIGHTS|;
    FailureLabels(content, PlanRound(c, content.annotations, FailAll(c), 0, ""));
    failed := Revision(Overlay(content, PlanRound(c, content.annotations, FailAll(c), 0, "")),
                       Round(FailAll(c), 0, "", true));
  }

  lemma AppendReleaseAndFailure(c: Config, revisions: seq<Revision>, released: Revision, failed: Revision)
    requires Lawful(c, revisions) && Follows(c, revisions[|revisions| - 1].content, released)
             && released.cause.Released?
    requires Follows(c, released.content, failed) && IsFailingRound(failed) && Accepts(released.content)
    ensures var longer := revisions + [released] + [failed];
            && Lawful(c, longer) && longer[|longer| - 1] == failed
            && FailingRounds(longer) == FailingRounds(revisions) + 1
            && AcceptedRounds(longer) == AcceptedRounds(revisions) + 1
  {
    AppendLawful(c, revisions, released);
    AppendLawful(c, revisions + [released], failed);
    AppendFailing(revisions, released);
    AppendFailing(revisions + [released], failed);
    AppendAccepted(revisions, released);
    AppendAccepted(revisions + [released], failed);
  }

  lemma FailFirst(c: Config) returns (revisions: seq<Revision>)
    requires WellFormed(c) && exists i | 0 <= i < |c.processors| :: c.processors[i].Some?
    ensures Lawful(c, revisions) && AcceptedRounds(revisions) == FailingRounds(revisions) == 1
    ensures var content := revisions[|revisions| - 1].content;
            DEFERRED in content.labels && (EXCEEDED !in content.labels ==> Untried(c, Undeferred(content)))
  {
    var first := Revision(Content(map[INSIGHTS := "sbom-gz"], map[]), Created);
    assert |DEFERRED| != |INSIGHTS| && |EXCEEDED| != |INSIGHTS|;
    assert [first][..0] == [];
    var failed := FailFrom(c, first.content);
    AppendLawful(c, [first], failed);
    AppendFailing([first], failed);
    AppendAccepted([first], failed);
    revisions := [first] + [failed];
  }

  /** The history of an object that fails, is released and fails again, `n` rounds in all. */
  lemma {:induction false} FailRepeatedly(c: Config, n: nat) returns (revisions: seq<Revision>)
    requires WellFormed(c) && exists i | 0 <= i < |c.processors| :: c.processors[i].Some?
    requires 0 < n && (n <= Limit(c) + 1 || Limit(c) == MAX_INT64)
    ensures Lawful(c, revisions) && AcceptedRounds(revisions) == FailingRounds(revisions) == n
    ensures var content := revisions[|revisions| - 1].content;
            DEFERRED in content.labels && (EXCEEDED !in content.labels ==> Untried(c, Undeferred(content)))
  {
    if n == 1 {
      revisions := FailFirst(c);
    } else {
      var before := FailRepeatedly(c, n - 1);
      CounterCountsFailures(c, before);
      var released, failed := ReleaseAndFail(c, before[|before| - 1].content);
      AppendReleaseAndFailure(c, before, released, failed);
      revisions := before + [released] + [failed];
    }
  }

  ghost predicate BoundsEveryHistory(c: Config, bound: nat) {
    forall revisions | Lawful(c, revisions) :: AcceptedRounds(revisions) <= bound
  }

  /**
   The bound on accepted rounds is reached, and it is a bound at all if and only if the limit is
   below the largest Go int.
   */
  lemma RetryBoundIsExact(c: Config)
    requires WellFormed(c) && exists i | 0 <= i < |c.processors| :: c.processors[i].Some?
    ensures Limit(c) < MAX_INT64 ==>
              exists revisions :: Lawful(c, revisions) && AcceptedRounds(revisions) == Limit(c) + 1
    ensures (exists bound: nat :: BoundsEveryHistory(c, bound)) <==> Limit(c) < MAX_INT64
  {
    if Limit(c) < MAX_INT64 {
      var witness' := FailRepeatedly(c, Limit(c) + 1);
      forall revisions | Lawful(c, revisions)
        ensures AcceptedRounds(revisions) <= Limit(c) + 1
      {
        AcceptedRoundsBound(c, revisions);
      }
      assert BoundsEveryHistory(c, Limit(c) + 1);
    } else {
      forall bound: nat
        ensures !BoundsEveryHistory(c, bound)
      {
        var longer := FailRepeatedly(c, bound + 1);
      }
    }
  }
}
