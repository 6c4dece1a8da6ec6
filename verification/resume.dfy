/**
 * The polling loop of `resume`: each pass checks the abort flag, then runs
 * the current step of the test, with each test's overrides in place of the
 * base steps.
 */
module Resume {
  import opened Json
  import opened Shadow
  import opened Coordination
  import opened TestBase
  import UpdateFrequency
  import SingleParameter
  import MultipleParameters
  import OpenClose
  import ButtonShadow

  /** The five concrete tests. */
  datatype Variant = UpdateFrequencyTest | SingleParameterTest | MultipleParametersTest | OpenCloseTest | ButtonShadowTest {
    /** The number each test is constructed with. */
    function Number(): int {
      match this
      case UpdateFrequencyTest => 1
      case SingleParameterTest => 2
      case MultipleParametersTest => 3
      case OpenCloseTest => 4
      case ButtonShadowTest => 5
    }
  }

  /** The exit code of `abort_test`. */
  const AbortExitCode: int := 2

  /**
   * A step that leaves the test running: it does not complete it and
   * never takes back a counted failure.
   */
  predicate KeepsRunning(w: World, t: TickResult) {
    t.outcome != Completed && t.world.run.failures >= w.run.failures
  }

  /** The steps that push and confirm the initial update, with the variant's overrides. */
  function UpdateStep(v: Variant, a: Args, w: World, now: real): (t: TickResult)
    requires w.run.step == Prepare || w.run.step == SendUpdate || w.run.step == VerifyUpdate
    ensures KeepsRunning(w, t)
  {
    match w.run.step
    case Prepare =>
      var r := if v == ButtonShadowTest then ButtonShadow.PrepareForTest(a, w.run) else PrepareForTest(a, w.run);
      Quiet(w.(run := r))
    case SendUpdate =>
      if v == SingleParameterTest then SingleParameter.SendInitialUpdate(w, now) else SendInitialUpdate(w, now)
    case VerifyUpdate =>
      if v == SingleParameterTest then SingleParameter.VerifyInitialUpdate(w, now) else VerifyInitialUpdate(w, now)
  }

  /** The steps that fetch the shadow and then wait out the delay, with the variant's override. */
  function GetStep(v: Variant, w: World, now: real, draw: Draw): (t: TickResult)
    requires w.run.step == SendGet || w.run.step == VerifyGet || w.run.step == Delay
    ensures KeepsRunning(w, t)
  {
    match w.run.step
    case SendGet => SendInitialGet(w, now)
    case VerifyGet =>
      if v == ButtonShadowTest then ButtonShadow.VerifyInitialGet(w, now) else VerifyInitialGet(w, now)
    case Delay => DelayBeforeIteration(w, now, draw)
  }

  /** `run_one_iteration` of the variant. */
  function IterationStep(v: Variant, w: World, now: real): (t: TickResult)
    requires w.run.step == RunIteration
    ensures KeepsRunning(w, t)
  {
    match v
    case UpdateFrequencyTest => UpdateFrequency.RunOneIteration(w)
    case SingleParameterTest => SingleParameter.RunOneIteration(w)
    case MultipleParametersTest => MultipleParameters.RunOneIteration(w)
    case OpenCloseTest => OpenClose.RunOneIteration(w)
    case ButtonShadowTest => ButtonShadow.RunOneIteration(w, now)
  }

  /** `verify_one_iteration` of the variant. */
  function VerifyStep(v: Variant, w: World, now: real): (t: TickResult)
    requires w.run.step == VerifyIteration
    ensures KeepsRunning(w, t)
  {
    match v
    case UpdateFrequencyTest => UpdateFrequency.VerifyOneIteration(w, now)
    case SingleParameterTest => SingleParameter.VerifyOneIteration(w, now)
    case MultipleParametersTest => MultipleParameters.VerifyOneIteration(w)
    case OpenCloseTest => OpenClose.VerifyOneIteration(w)
    case ButtonShadowTest => ButtonShadow.VerifyOneIteration(w, now)
  }

  /** The step of the state machine, with the variant's override where it has one. */
  function RunStep(v: Variant, a: Args, w: World, now: real, draw: Draw): (t: TickResult)
    ensures w.run.step == Stopped ==> t == Quiet(w)
    ensures t.outcome == Completed <==> w.run.step == Finish
    ensures t.outcome == Completed ==> t.world.run.status == Complete
    ensures t.world.run.failures >= w.run.failures
  {
    match w.run.step
    case RunIteration => IterationStep(v, w, now)
    case VerifyIteration => VerifyStep(v, w, now)
    case LoopBack =>
      var r := if v == ButtonShadowTest then ButtonShadow.LoopBackMatrix(w.run) else LoopBackStep(w.run);
      Quiet(w.(run := r))
    case Finish => FinishTest(w)
    case Stopped => Quiet(w)
    case Prepare => UpdateStep(v, a, w, now)
    case SendUpdate => UpdateStep(v, a, w, now)
    case VerifyUpdate => UpdateStep(v, a, w, now)
    case SendGet => GetStep(v, w, now, draw)
    case VerifyGet => GetStep(v, w, now, draw)
    case Delay => GetStep(v, w, now, draw)
  }

  /**
   * One pass of `resume`: a raised abort flag ends the process with code 2
   * before any step runs, and nothing else changes.
   */
  function Tick(v: Variant, a: Args, w: World, now: real, draw: Draw): (t: TickResult)
    ensures w.coord.abortFlag ==> t == TickResult(w, Exit(AbortExitCode), [])
    ensures !w.coord.abortFlag ==> (t.outcome == Completed <==> w.run.step == Finish)
    ensures t.outcome == Completed ==> t.world.run.status == Complete
    ensures t.world.run.failures >= w.run.failures
  {
    if w.coord.abortFlag then TickResult(w, Exit(AbortExitCode), [])
    else RunStep(v, a, w, now, draw)
  }

  /** What arrives before one pass: the callbacks' events, the clock, and a random draw. */
  datatype Input = Input(events: seq<Event>, now: real, draw: Draw)

  /** How a sequence of passes ends: the final world, the last outcome, and every request made on the way. */
  datatype Trace = Trace(world: World, outcome: Outcome, requests: seq<Request>)

  /**
   * `resume`'s loop over a script of inputs: deliver the events, take one
   * pass, and stop at the first pass that ends the run (the test finished,
   * the process exited, or Python raised).
   */
  function Resume(v: Variant, a: Args, w: World, script: seq<Input>): (tr: Trace)
    ensures |script| == 0 ==> tr == Trace(w, Continue, [])
    ensures tr.outcome == Completed ==> tr.world.run.status == Complete
    ensures tr.world.run.failures >= w.run.failures
    ensures w.coord.abortFlag && |script| > 0 ==> tr == Trace(w.(coord := DeliverAll(w.coord, script[0].events)), Exit(AbortExitCode), [])
    decreases |script|
  {
    if |script| == 0 then Trace(w, Continue, [])
    else
      var w1 := w.(coord := DeliverAll(w.coord, script[0].events));
      var t := Tick(v, a, w1, script[0].now, script[0].draw);
      if t.outcome != Continue then Trace(t.world, t.outcome, t.requests)
      else
        var rest := Resume(v, a, t.world, script[1..]);
        Trace(rest.world, rest.outcome, t.requests + rest.requests)
  }

  /**
   * A rejected (or timed-out) answer to one of the harness's own requests
   * ends the run at the next pass with the abort exit code, whatever the
   * step.
   */
  lemma RejectionEndsRun(v: Variant, a: Args, w: World, e: Event, now: real, draw: Draw)
    requires AnswersRequest(e.handler) && e.status != Accepted
    ensures Resume(v, a, w, [Input([e], now, draw)]).outcome == Exit(AbortExitCode)
    ensures Resume(v, a, w, [Input([e], now, draw)]).requests == []
  {
    RejectionAborts(w.coord, e);
    assert [e][1..] == [];
    assert DeliverAll(w.coord, [e]) == Deliver(w.coord, e);
  }

  /** A pass on which nothing arrives. */
  function Idle(now: real, draw: Draw): Input {
    Input([], now, draw)
  }

  /** `loop_back` after the last iteration, then `finish_test`: the test completes with the failure count it had. */
  lemma LastLoopBackCompletes(v: Variant, a: Args, w: World, now: real, draw: Draw)
    requires w.run.step == LoopBack && !w.coord.abortFlag && v != ButtonShadowTest
    requires w.run.iteration + 1 == w.run.config.iterations
    ensures var tr := Resume(v, a, w, [Idle(now, draw), Idle(now, draw)]);
            tr.outcome == Completed && tr.world.run.failures == w.run.failures && tr.requests == []
  {
    var t4 := Tick(v, a, w, now, draw);
    assert t4.world.run.step == Finish && t4.outcome == Continue && t4.requests == [];
    assert [Idle(now, draw), Idle(now, draw)][1..] == [Idle(now, draw)];
    var t5 := Tick(v, a, t4.world, now, draw);
    assert t5.outcome == Completed && t5.requests == [];
  }

  /**
   * The device's own update arriving within the cycle of the last
   * iteration of the update-frequency test completes the test, with no
   * failure counted.
   */
  lemma UpdateFrequencyLastUpdate(a: Args, w: World, now: real, draw: Draw, payload: Doc)
    requires w.run.step == VerifyIteration && !w.coord.abortFlag
    requires !CycleExpired(w.run, now)
    requires w.run.iteration + 1 == w.run.config.iterations
    requires !ValveFault(payload)
    ensures var tr := Resume(UpdateFrequencyTest, a, w,
                             [Input([Event(AnyShadowUpdate, Accepted, payload)], now, draw), Idle(now, draw), Idle(now, draw)]);
            tr.outcome == Completed && tr.world.run.failures == w.run.failures && tr.requests == []
  {
    var v := UpdateFrequencyTest;
    var update := Event(AnyShadowUpdate, Accepted, payload);
    var script := [Input([update], now, draw), Idle(now, draw), Idle(now, draw)];
    var w3 := w.(coord := DeliverAll(w.coord, [update]));
    assert [update][1..] == [];
    assert DeliverAll(w.coord, [update]) == DeliverAll(Deliver(w.coord, update), []);
    assert w3.coord == w.coord.(updateAccepted := true, incoming := payload);
    UpdateFrequency.UpdateInTimeSucceeds(w3, now);
    var t3 := Tick(v, a, w3, now, draw);
    assert t3.world.run.step == LoopBack && t3.world.run.failures == w.run.failures && t3.requests == [];
    assert t3.world.run.iteration + 1 == t3.world.run.config.iterations;
    assert script[1..] == [Idle(now, draw), Idle(now, draw)];
    LastLoopBackCompletes(v, a, t3.world, now, draw);
  }

  /**
   * With no delay configured, the update-frequency test goes from the delay
   * step to waiting for the device's update in two passes, subscribing on the
   * way and touching nothing else.
   */
  lemma UpdateFrequencyReachesVerify(a: Args, w: World, now: real, draw: Draw)
    requires w.run.step == Delay && !w.run.delaying && !w.coord.abortFlag
    requires !w.run.config.random && !(w.run.config.delay > 0.0)
    requires w.run.config.cycleDuration > 0.0
    ensures var t1 := Tick(UpdateFrequencyTest, a, w, now, draw);
            var t2 := Tick(UpdateFrequencyTest, a, t1.world, now, draw);
            && t1.outcome == Continue && t1.requests == []
            && t2.outcome == Continue && t2.requests == [Subscribe(AnyShadowUpdate)]
            && t2.world.run.step == VerifyIteration && !CycleExpired(t2.world.run, now)
            && t2.world.coord == w.coord && t2.world.run.failures == w.run.failures
            && t2.world.run.iteration == w.run.iteration && t2.world.run.config == w.run.config
  {
    var t1 := Tick(UpdateFrequencyTest, a, w, now, draw);
    assert t1 == DelayBeforeIteration(w, now, draw);
    assert t1.world.run.step == RunIteration && t1.world.run.cycleStart == now;
    var t2 := Tick(UpdateFrequencyTest, a, t1.world, now, draw);
    assert t2 == UpdateFrequency.RunOneIteration(t1.world);
  }

  /**
   * The last iteration of the update-frequency test, with no delay
   * configured: the delay step moves straight on, the iteration subscribes,
   * the device's own update arrives within the cycle, and `loop_back` and
   * `finish_test` complete the test with no failure counted.
   */
  lemma UpdateFrequencyLastIteration(a: Args, w: World, now: real, draw: Draw, payload: Doc)
    requires w.run.step == Delay && !w.run.delaying && !w.coord.abortFlag
    requires !w.run.config.random && !(w.run.config.delay > 0.0)
    requires w.run.config.cycleDuration > 0.0
    requires w.run.iteration + 1 == w.run.config.iterations
    requires !ValveFault(payload)
    ensures var tr := Resume(UpdateFrequencyTest, a, w,
                             [Idle(now, draw), Idle(now, draw),
                              Input([Event(AnyShadowUpdate, Accepted, payload)], now, draw),
                              Idle(now, draw), Idle(now, draw)]);
            && tr.outcome == Completed
            && tr.world.run.failures == w.run.failures
            && tr.requests == [Subscribe(AnyShadowUpdate)]
  {
    var v := UpdateFrequencyTest;
    var idle := Idle(now, draw);
    var tail := [Input([Event(AnyShadowUpdate, Accepted, payload)], now, draw), idle, idle];
    UpdateFrequencyReachesVerify(a, w, now, draw);
    var t1 := Tick(v, a, w, now, draw);
    var t2 := Tick(v, a, t1.world, now, draw);
    UpdateFrequencyLastUpdate(a, t2.world, now, draw, payload);
    IdleThenResume(v, a, t1.world, now, draw, tail);
    IdleThenResume(v, a, w, now, draw, [idle] + tail);
    assert [idle] + ([idle] + tail) == [idle, idle, Input([Event(AnyShadowUpdate, Accepted, payload)], now, draw), idle, idle];
  }

  /** A pass with no events that keeps the run going hands its requests on ahead of the rest of the run's. */
  lemma IdleThenResume(v: Variant, a: Args, w: World, now: real, draw: Draw, rest: seq<Input>)
    requires !w.coord.abortFlag
    requires Tick(v, a, w, now, draw).outcome == Continue
    ensures var t := Tick(v, a, w, now, draw);
            var tr := Resume(v, a, t.world, rest);
            Resume(v, a, w, [Idle(now, draw)] + rest) == Trace(tr.world, tr.outcome, t.requests + tr.requests)
  {
    var script := [Idle(now, draw)] + rest;
    assert script[0] == Idle(now, draw) && script[1..] == rest;
    assert w.(coord := DeliverAll(w.coord, [])) == w;
  }
}
