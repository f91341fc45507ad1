/**
 The upload poll at the end of `postProcess`: a goroutine that polls and reports over one of two
 unbuffered channels, then closes both, and a caller waiting on whichever is ready first.
 */
module Handshake {
  import opened Options

  /** What one `IsBeingProcessed` call answers. */
  datatype Answer = StillProcessing | Finished | PollFailed

  datatype Report = Done | PollError | TimedOut

  /** Where the goroutine is: in its loop, blocked on a send, or in one of its deferred steps. */
  datatype Poller = Polling | Sending(report: Report) | StoppingTicker | ClosingDone | ClosingErr | Exited

  /** `returned` is the caller's result once it has one: true for nil, false for an error. */
  datatype State = State(
    poller: Poller,
    doneClosed: bool,
    errClosed: bool,
    returned: Option<bool>,
    lastPoll: Option<Answer>,
    handed: nat,
    sawClose: bool,
    sentOnClosed: bool)

  datatype Action =
    | Tick(answer: Answer)
    | Timeout
    | Send
    | Step
    | ReceiveClosedDone
    | ReceiveClosedErr

  const START: State := State(Polling, false, false, None, None, 0, false, false)

  predicate Enabled(s: State, a: Action) {
    match a
    case Tick(_) => s.poller.Polling?
    case Timeout => s.poller.Polling?
    // A send needs its receiver, unless the channel is closed: then it panics.
    case Send =>
      s.poller.Sending? && (s.returned.None? || (if s.poller.report.Done? then s.doneClosed else s.errClosed))
    case Step => s.poller.StoppingTicker? || s.poller.ClosingDone? || s.poller.ClosingErr?
    case ReceiveClosedDone => s.returned.None? && s.doneClosed
    case ReceiveClosedErr => s.returned.None? && s.errClosed
  }

  function Next(s: State, a: Action): State {
    if !Enabled(s, a) then s
    else match a
      case Tick(answer) =>
        s.(lastPoll := Some(answer),
           poller := match answer
                     case StillProcessing => Polling
                     case Finished => Sending(Done)
                     case PollFailed => Sending(PollError))
      case Timeout => s.(poller := Sending(TimedOut))
      case Send =>
        if (if s.poller.report.Done? then s.doneClosed else s.errClosed) then s.(sentOnClosed := true, poller := Exited)
        else s.(returned := Some(s.poller.report.Done?), handed := s.handed + 1, poller := StoppingTicker)
      case Step =>
        (match s.poller
         case StoppingTicker => s.(poller := ClosingDone)
         case ClosingDone => s.(doneClosed := true, poller := ClosingErr)
         case _ => s.(errClosed := true, poller := Exited))
      // Receiving from a closed channel yields the zero value at once: no signal, or a nil error.
      case ReceiveClosedDone => s.(returned := Some(true), sawClose := true)
      case ReceiveClosedErr => s.(returned := Some(true), sawClose := true)
  }

  function Run(actions: seq<Action>): State {
    if actions == [] then START else Next(Run(actions[..|actions| - 1]), actions[|actions| - 1])
  }

  predicate Inv(s: State) {
    && !s.sawClose && !s.sentOnClosed
    && (s.poller.Polling? || s.poller.Sending? <==> s.returned.None?)
    && s.handed == (if s.returned.None? then 0 else 1)
    && (s.returned.None? ==> !s.doneClosed && !s.errClosed)
    && (s.returned.Some? ==> (s.returned.value <==> s.lastPoll == Some(Finished)))
    && (s.poller.Polling? ==> s.lastPoll.None? || s.lastPoll == Some(StillProcessing))
    && (s.poller.Sending? ==> (s.poller.report.Done? <==> s.lastPoll == Some(Finished)))
    && (s.poller.Exited? <==> s.errClosed) && (s.doneClosed <==> s.poller.ClosingErr? || s.poller.Exited?)
  }

  lemma {:induction false} RunInv(actions: seq<Action>)
    ensures Inv(Run(actions))
  {
    if actions != [] {
      RunInv(actions[..|actions| - 1]);
    }
  }

  /**
   In every run the caller gets at most one result, by a real hand-over and never from a close; the
   result is nil exactly when the last poll said the upload was processed; nothing is sent on a closed
   channel; and when the goroutine is gone the caller has returned.
   */
  lemma HandoverIsSound(actions: seq<Action>)
    ensures var s := Run(actions);
            && s.handed <= 1 && (s.returned.Some? <==> s.handed == 1)
            && !s.sawClose && !s.sentOnClosed
            && (s.returned.Some? ==> (s.returned.value <==> s.lastPoll == Some(Finished)))
            && (s.poller.Exited? ==> s.returned.Some? && s.doneClosed && s.errClosed)
  {
    RunInv(actions);
  }

  lemma RunMore(actions: seq<Action>, a: Action)
    ensures Run(actions + [a]) == Next(Run(actions), a)
  {
    assert (actions + [a])[..|actions|] == actions;
  }

  /**
   While the goroutine polls, the next poll or the timeout decides: a finished upload reaches the caller
   as nil, a failed poll and the timeout as an error.
   */
  lemma PollDecides(actions: seq<Action>, a: Action)
    requires Run(actions).poller.Polling? && (a == Tick(Finished) || a == Tick(PollFailed) || a == Timeout)
    ensures Run(actions + [a] + [Send]).returned == Some(a == Tick(Finished))
  {
    RunInv(actions);
    RunMore(actions, a);
    RunMore(actions + [a], Send);
    SentAtOnce(Run(actions), a);
  }

  lemma SentAtOnce(s: State, a: Action)
    requires Inv(s) && s.poller.Polling? && (a == Tick(Finished) || a == Tick(PollFailed) || a == Timeout)
    ensures Next(Next(s, a), Send).returned == Some(a == Tick(Finished))
  {
  }

  /** And an upload still under way is polled again. */
  lemma PollGoesOn(actions: seq<Action>)
    requires Run(actions).poller.Polling?
    ensures Run(actions + [Tick(StillProcessing)]) == Run(actions).(lastPoll := Some(StillProcessing))
    ensures Run(actions + [Tick(StillProcessing)]).poller.Polling?
  {
    RunMore(actions, Tick(StillProcessing));
  }

  /** After the hand-over three steps of its own end the goroutine, with both channels closed. */
  lemma ThreeStepsToExit(actions: seq<Action>)
    requires Run(actions).poller.Sending?
    ensures var s := Run(actions + [Send] + [Step] + [Step] + [Step]);
            s.poller.Exited? && s.doneClosed && s.errClosed && s.returned == Run(actions + [Send]).returned
  {
    RunInv(actions);
    RunMore(actions, Send);
    RunMore(actions + [Send], Step);
    RunMore(actions + [Send] + [Step], Step);
    RunMore(actions + [Send] + [Step] + [Step], Step);
  }

  /** A returned result never changes. */
  lemma {:induction false} ResultIsFinal(actions: seq<Action>, more: seq<Action>)
    requires Run(actions).returned.Some?
    ensures Run(actions + more).returned == Run(actions).returned
    ensures Run(actions + more).lastPoll == Run(actions).lastPoll
  {
    if more == [] {
      assert actions + more == actions;
    } else {
      var k := |more| - 1;
      ResultIsFinal(actions, more[..k]);
      RunInv(actions + more[..k]);
      assert (actions + more)[..|actions + more| - 1] == actions + more[..k];
    }
  }

  /** Steps until both channels are closed, once the polling is over. */
  function Distance(p: Poller): nat {
    match p
    case Polling => 5
    case Sending(_) => 4
    case StoppingTicker => 3
    case ClosingDone => 2
    case ClosingErr => 1
    case Exited => 0
  }

  /**
   No reachable state is stuck: until the goroutine has exited it has a step of its own, and every one
   of its steps but a poll that answers "still processing" brings it closer to the exit.
   */
  lemma NeverStuck(actions: seq<Action>)
    ensures var s := Run(actions);
            !s.poller.Exited? ==> exists a :: Enabled(s, a) && Distance(Next(s, a).poller) < Distance(s.poller)
    ensures var s := Run(actions);
            forall a | Enabled(s, a) && a != Tick(StillProcessing) :: Distance(Next(s, a).poller) < Distance(s.poller)
  {
    RunInv(actions);
    var s := Run(actions);
    if !s.poller.Exited? {
      var a := if s.poller.Polling? then Timeout else if s.poller.Sending? then Send else Step;
      assert Enabled(s, a) && Distance(Next(s, a).poller) < Distance(s.poller);
    }
  }
}
