/**
 * The decisions RunFrame makes each frame: the renderer warm-up countdown, the network
 * poll budget, what a failed poll means, and the end-of-frame clock and flag updates.
 */
module FrameRules {
  import opened Types

  /** Frames shown as a startup screen before heavy initialisation; `frameToRendererInit` starts here. */
  const WarmUpFrames: nat := 5

  /** Poll budgets in milliseconds: none once connected, a short wait before. */
  const ConnectedPollWait: int := 0
  const ConnectingPollWait: int := 10

  /** Largest step `timeSinceInit` takes in one frame. */
  const MaxInitStep: real := 0.03

  /** What one call of RunFrame does with the countdown. */
  datatype Phase =
    | StartupScreen   // countdown still positive after the decrement: draw, then return
    | InitThenFrame   // countdown reached zero now: DoInit, then the full frame
    | FullFrame       // countdown already zero

  /** What a poll of the network client did: it returned, or it threw; either way it may change the status. */
  datatype PollOutcome =
    | Polled(statusAfter: NetStatus)
    | PollFailed(statusAfter: NetStatus, what: string)

  /** How RunFrame ended. */
  datatype FrameOutcome =
    | WarmingUp               // returned early during the countdown
    | Completed               // ran to the end
    | Disconnected(what: string)  // the poll error was rethrown

  /** The countdown after one call, and the phase of that call. */
  function WarmUpStep(counter: nat): (r: (nat, Phase))
    ensures counter > 0 ==> r.0 == counter - 1
    ensures counter == 0 ==> r.0 == 0
    ensures r.1 == InitThenFrame <==> counter == 1
    ensures r.1 == FullFrame <==> counter == 0
  {
    if counter > 0 then
      (counter - 1, if counter - 1 == 0 then InitThenFrame else StartupScreen)
    else
      (0, FullFrame)
  }

  /** The wait budget passed to DoEvents for the status before the poll. */
  function PollWait(status: NetStatus): (ms: int)
    ensures ms == ConnectedPollWait <==> status == Connected
    ensures ms == ConnectingPollWait <==> status != Connected
  {
    if status == Connected then ConnectedPollWait else ConnectingPollWait
  }

  /** `std::min(dt, .03f)`: the step added to `timeSinceInit`. */
  function InitStep(dt: real): (r: real)
    ensures r <= dt && r <= MaxInitStep
    ensures r == dt || r == MaxInitStep
  {
    if MaxInitStep < dt then MaxInitStep else dt
  }

  /** A failed poll is fatal exactly when the status reads NotConnected afterwards. */
  predicate PollIsFatal(poll: PollOutcome) {
    poll.PollFailed? && poll.statusAfter == NotConnected
  }

  /** The part of the client's state RunFrame's control flow reads and writes. */
  datatype FrameState = FrameState(counter: nat, time: real, timeSinceInit: real, delayedReload: bool)

  /** One call of RunFrame on that state. */
  function Tick(s: FrameState, dt: real, poll: PollOutcome): (r: (FrameState, FrameOutcome))
    ensures r.1 == WarmingUp <==> WarmUpStep(s.counter).1 == StartupScreen
    ensures r.1.Disconnected? <==> WarmUpStep(s.counter).1 != StartupScreen && PollIsFatal(poll)
    ensures r.0.counter == WarmUpStep(s.counter).0
    ensures r.1 == Completed ==> r.0.time == s.time + dt && !r.0.delayedReload
    ensures r.1 != Completed ==> r.0.time == s.time && r.0.delayedReload == s.delayedReload
    ensures r.1 == WarmingUp ==> r.0.timeSinceInit == s.timeSinceInit
    ensures r.1 != WarmingUp ==> r.0.timeSinceInit == s.timeSinceInit + InitStep(dt)
  {
    var (counter, phase) := WarmUpStep(s.counter);
    if phase == StartupScreen then
      (s.(counter := counter), WarmingUp)
    else
      var s1 := s.(counter := counter, timeSinceInit := s.timeSinceInit + InitStep(dt));
      if PollIsFatal(poll) then (s1, Disconnected(poll.what))
      else (s1.(delayedReload := false, time := s.time + dt), Completed)
  }

  /** The frames of a session: each with its time step and what the network poll did. */
  datatype FrameInput = FrameInput(dt: real, poll: PollOutcome)

  /** Runs frames in order until the inputs end or a poll error is rethrown (which ends the frame loop). */
  function Run(s: FrameState, inputs: seq<FrameInput>): (r: (FrameState, seq<FrameOutcome>))
    ensures |r.1| <= |inputs|
    decreases |inputs|
  {
    if inputs == [] then (s, [])
    else
      var (s1, o) := Tick(s, inputs[0].dt, inputs[0].poll);
      if o.Disconnected? then (s1, [o])
      else
        var (s2, os) := Run(s1, inputs[1..]);
        (s2, [o] + os)
  }

  /** The countdown after `calls` calls from `counter`. */
  function CounterAfter(counter: nat, calls: nat): nat {
    if calls == 0 then counter else CounterAfter(WarmUpStep(counter).0, calls - 1)
  }

  lemma {:induction false} CounterAfterCalls(counter: nat, calls: nat)
    ensures CounterAfter(counter, calls) == if calls <= counter then counter - calls else 0
  {
    if calls > 0 {
      CounterAfterCalls(WarmUpStep(counter).0, calls - 1);
    }
  }

  /** The phase of the n-th call (counting from 1) after a fresh start. */
  lemma WarmUpSchedule(n: nat)
    requires n >= 1
    ensures WarmUpStep(CounterAfter(WarmUpFrames, n - 1)).1 ==
      if n < 5 then StartupScreen else if n == 5 then InitThenFrame else FullFrame
  {
    CounterAfterCalls(WarmUpFrames, n - 1);
  }

  /**
   * From a fresh countdown, up to four frames only show the startup screen: none of them
   * advances the clock or touches the delayed-reload flag, whatever their inputs.
   */
  lemma {:induction false} WarmUpFramesKeepClock(s: FrameState, inputs: seq<FrameInput>)
    requires |inputs| < s.counter
    ensures var (s', outs) := Run(s, inputs);
      && s'.counter == s.counter - |inputs|
      && s'.time == s.time && s'.timeSinceInit == s.timeSinceInit && s'.delayedReload == s.delayedReload
      && |outs| == |inputs|
      && forall i :: 0 <= i < |outs| ==> outs[i] == WarmingUp
    decreases |inputs|
  {
    if inputs != [] {
      var (s1, o) := Tick(s, inputs[0].dt, inputs[0].poll);
      assert o == WarmingUp && s1 == s.(counter := s.counter - 1);
      WarmUpFramesKeepClock(s1, inputs[1..]);
    }
  }

  /**
   * When as many frames arrive as the countdown has left, the last of them runs
   * initialisation and the whole frame: unless its poll error is fatal it completes,
   * and the clock has advanced by that frame's step only.
   */
  lemma {:induction false} CountdownEndsWithFullFrame(s: FrameState, inputs: seq<FrameInput>)
    requires 1 <= s.counter == |inputs|
    requires !PollIsFatal(inputs[|inputs| - 1].poll)
    ensures var (s', outs) := Run(s, inputs);
      && |outs| == |inputs|
      && (forall i :: 0 <= i < |outs| - 1 ==> outs[i] == WarmingUp)
      && outs[|outs| - 1] == Completed
      && s'.counter == 0
      && s'.time == s.time + inputs[|inputs| - 1].dt
      && !s'.delayedReload
    decreases |inputs|
  {
    var (s1, o) := Tick(s, inputs[0].dt, inputs[0].poll);
    if s.counter == 1 {
      assert inputs[1..] == [];
    } else {
      assert o == WarmingUp && s1 == s.(counter := s.counter - 1);
      assert inputs[1..][|inputs| - 2] == inputs[|inputs| - 1];
      CountdownEndsWithFullFrame(s1, inputs[1..]);
    }
  }

  /** A fresh client: frames one to four return early, the fifth initialises and completes. */
  lemma FifthFrameRuns(s: FrameState, inputs: seq<FrameInput>)
    requires s.counter == WarmUpFrames && |inputs| == 5
    requires !PollIsFatal(inputs[4].poll)
    ensures var (s', outs) := Run(s, inputs);
      && outs == [WarmingUp, WarmingUp, WarmingUp, WarmingUp, Completed]
      && s'.time == s.time + inputs[4].dt
  {
    CountdownEndsWithFullFrame(s, inputs);
  }

  /**
   * Every frame that completes ends past the countdown, with the init clock advanced by
   * the capped step, the delayed-reload flag cleared and the clock advanced by its step.
   */
  lemma CompletedFrameResets(s: FrameState, dt: real, poll: PollOutcome)
    requires Tick(s, dt, poll).1 == Completed
    ensures s.counter <= 1 && !PollIsFatal(poll)
    ensures Tick(s, dt, poll).0 == FrameState(0, s.time + dt, s.timeSinceInit + InitStep(dt), false)
  {
  }
}
