/**
 * The base test: configuration, the named steps of the polling state machine
 * and the base implementation of each step, one tick at a time.
 */
module TestBase {
  import opened Wrappers
  import opened Json
  import opened Numerals
  import opened Shadow
  import opened Coordination

  // ----- configuration -----

  /** Resolved command-line values a test reads (`acPower` is the negation of the battery flag). */
  datatype Args = Args(
    iterations: int,
    cycles: int,
    connectNotFlowing: int,
    sleepMultiplier: int,
    acPower: bool,
    random: bool,
    delay: real,
    offset: real)

  /** What `set_test_characteristics` derives from the arguments. */
  datatype Config = Config(
    iterations: int,
    cycles: int,
    cycleDuration: real,
    connectNotFlowing: int,
    sleepMultiplier: int,
    random: bool,
    delay: real,
    offset: real)

  const DefaultIterations := 10
  const DefaultCycles := 2
  /** Seconds in one sleep/wake cycle when the device is on mains power. */
  const MainsCycleDuration: real := 61.0

  /** One battery cycle: connect-not-flowing times the multiplier, plus a minute. */
  function BatteryCycleDuration(cycles: int, connectNotFlowing: int, sleepMultiplier: int): real {
    (cycles * (connectNotFlowing * sleepMultiplier + 60)) as real
  }

  /**
   * `set_test_characteristics` as intended: out-of-range counts fall back to
   * their defaults, and the cycle length follows the power source.
   */
  function Configure(a: Args): (c: Config)
    ensures 1 <= c.iterations <= 9999 && 1 <= c.cycles <= 99
    ensures 1 <= a.iterations <= 9999 ==> c.iterations == a.iterations
    ensures !(1 <= a.iterations <= 9999) ==> c.iterations == DefaultIterations
    ensures 1 <= a.cycles <= 99 ==> c.cycles == a.cycles
    ensures !(1 <= a.cycles <= 99) ==> c.cycles == DefaultCycles
    ensures a.acPower ==> c.cycleDuration == MainsCycleDuration
    ensures !a.acPower ==> c.cycleDuration == BatteryCycleDuration(c.cycles, a.connectNotFlowing, a.sleepMultiplier)
    ensures c.connectNotFlowing == a.connectNotFlowing && c.sleepMultiplier == a.sleepMultiplier
    ensures c.random == a.random && c.delay == a.delay && c.offset == a.offset
  {
    var iterations := if a.iterations < 1 || a.iterations > 9999 then DefaultIterations else a.iterations;
    var cycles := if a.cycles < 1 || a.cycles > 99 then DefaultCycles else a.cycles;
    var duration := if a.acPower then MainsCycleDuration
                    else BatteryCycleDuration(cycles, a.connectNotFlowing, a.sleepMultiplier);
    Config(iterations, cycles, duration, a.connectNotFlowing, a.sleepMultiplier, a.random, a.delay, a.offset)
  }

  /** The arguments a configuration corresponds to. */
  function ArgsOf(c: Config, acPower: bool): Args {
    Args(c.iterations, c.cycles, c.connectNotFlowing, c.sleepMultiplier, acPower, c.random, c.delay, c.offset)
  }

  /** Clamping is idempotent: configuring from an already configured test changes nothing. */
  lemma ConfigureIsIdempotent(a: Args)
    ensures Configure(ArgsOf(Configure(a), a.acPower)) == Configure(a)
  {
  }

  /** `set_test_characteristics` as written: on battery power it names attributes that do not exist. */
  datatype Configured = Configured(config: Config) | AttributeError(name: string)

  function ConfigureAsWritten(a: Args): (r: Configured)
    ensures r.Configured? <==> a.acPower
    ensures r.Configured? ==> r.config == Configure(a)
  {
    if a.acPower then Configured(Configure(a)) else AttributeError("connectNotFlowing")
  }

  /** With the default values on battery power the source raises, where a 360-second cycle was meant. */
  lemma BatteryConfigurationRaises()
    ensures ConfigureAsWritten(Args(10, 2, 30, 4, false, false, 0.0, 0.0)).AttributeError?
    ensures Configure(Args(10, 2, 30, 4, false, false, 0.0, 0.0)).cycleDuration == 360.0
  {
  }

  /** On mains power the cycle is 61 seconds whatever the other arguments. */
  lemma MainsCycleIgnoresOtherArguments(a: Args, b: Args)
    requires a.acPower && b.acPower
    ensures Configure(a).cycleDuration == Configure(b).cycleDuration == 61.0
  {
  }

  // ----- steps -----

  /** The steps of the state machine, in the order `advance` moves through them. */
  datatype Step =
    | Prepare | SendUpdate | VerifyUpdate | SendGet | VerifyGet
    | Delay | RunIteration | VerifyIteration | LoopBack | Finish
    | Stopped  // after `finish_test`
  {
    /** The value `step` holds for this step. */
    function Number(): int {
      match this
      case Prepare => 0
      case SendUpdate => 1
      case VerifyUpdate => 2
      case SendGet => 3
      case VerifyGet => 4
      case Delay => 5
      case RunIteration => 6
      case VerifyIteration => 7
      case LoopBack => 8
      case Finish => 9
      case Stopped => -1
    }
  }

  /** `advance`: the step numbered one higher. */
  function Advance(s: Step): (n: Step)
    requires s != Finish && s != Stopped
    ensures n.Number() == s.Number() + 1
  {
    match s
    case Prepare => SendUpdate
    case SendUpdate => VerifyUpdate
    case VerifyUpdate => SendGet
    case SendGet => VerifyGet
    case VerifyGet => Delay
    case Delay => RunIteration
    case RunIteration => VerifyIteration
    case VerifyIteration => LoopBack
    case LoopBack => Finish
  }

  /** Distinct steps hold distinct numbers, so the named steps are a faithful renaming. */
  lemma StepNumbersAreDistinct(s: Step, t: Step)
    requires s != t
    ensures s.Number() != t.Number()
  {
  }

  datatype TestStatus = Idle | Running | Complete | Aborted

  /** Index into the five-variant's eight-entry matrix. */
  type MatrixIndex = k: int | 0 <= k < 8

  /** One test object's run state (the button and matrix fields belong to the open/close matrix test). */
  datatype Run = Run(
    config: Config,
    step: Step,
    status: TestStatus,
    skipInitialUpdate: bool,
    iteration: int,
    failures: nat,
    cycle: int,
    cycleStart: real,
    delaying: bool,
    delayStart: real,
    currentDelay: real,
    iterationStart: real,
    matrixIndex: MatrixIndex,
    matrixCount: int,
    buttonPressed: bool,
    buttonStart: real)

  /** A test object as constructed. */
  function NewRun(): (r: Run)
    ensures r.status == Idle && r.step == Prepare && r.failures == 0 && r.iteration == 0
    ensures r.matrixIndex == 0 && r.matrixCount == 0 && !r.buttonPressed && !r.delaying
  {
    Run(Config(0, 0, 0.0, 30, 4, false, 0.0, 0.0), Prepare, Idle, false, 0, 0, 0, 0.0,
        false, 0.0, 0.0, 0.0, 0, 0, false, 0.0)
  }

  /** `run`: remember the skip flag and start from the first step; everything else persists. */
  function Start(r: Run, skipInitialUpdate: bool): (r': Run)
    ensures r'.step == Prepare && r'.skipInitialUpdate == skipInitialUpdate
    ensures r'.failures == r.failures && r'.status == r.status
  {
    r.(skipInitialUpdate := skipInitialUpdate, step := Prepare)
  }

  /** Everything one tick can read and write. */
  datatype World = World(run: Run, coord: Coord, slots: Slots)

  /** The two physical buttons: the power button opens the valve, the wifi button closes it. */
  datatype Button = PowerButton | WifiButton

  /** What a tick asks of the outside world. */
  datatype Request =
    | Update(doc: Doc, handler: Callback)
    | Get(handler: Callback)
    | Subscribe(handler: Callback)
    | Push(button: Button)
    | Release(button: Button)

  /** How a tick ends: keep polling, the test finished, the process exited, or Python raised. */
  datatype Outcome = Continue | Completed | Exit(code: int) | Crash(error: string)

  datatype TickResult = TickResult(world: World, outcome: Outcome, requests: seq<Request>)

  function Quiet(w: World): TickResult {
    TickResult(w, Continue, [])
  }

  /** Whether the current cycle has run its full length (`check_for_timeout`). */
  predicate CycleExpired(r: Run, now: real) {
    now - r.cycleStart >= r.config.cycleDuration
  }

  // ----- step 0 -----

  /** `prepare_for_test`: configure, restart the iteration count, and skip the bootstrap when asked. */
  function PrepareForTest(a: Args, r: Run): (r': Run)
    ensures r'.config == Configure(a)
    ensures r'.iteration == 0
    ensures r'.step == (if r.skipInitialUpdate then Delay else SendUpdate)
    ensures r'.failures == r.failures && r'.matrixIndex == r.matrixIndex && r'.matrixCount == r.matrixCount
  {
    var r1 := r.(config := Configure(a), iteration := 0);
    if r.skipInitialUpdate then r1.(step := Delay) else r1.(step := Advance(Prepare))
  }

  // ----- steps 1 and 2 -----

  /** The registry with both configured wifi timing values set as desired, in decimal. */
  function TimingSlots(slots: Slots, cfg: Config): (r: Slots)
    ensures Desired(r, WifiConnectNotFlowing) == Some(IntToString(cfg.connectNotFlowing))
    ensures Desired(r, WifiConnectSleepMultiplier) == Some(IntToString(cfg.sleepMultiplier))
  {
    var s1 := SetDesiredSlot(slots, WifiConnectNotFlowing, IntToString(cfg.connectNotFlowing));
    SetDesiredSlot(s1, WifiConnectSleepMultiplier, IntToString(cfg.sleepMultiplier))
  }

  /** The document of the bootstrap update: both wifi timing fields as the registry now holds them. */
  function InitialDocument(slots: Slots, cfg: Config): Doc {
    SetDesiredValues(map[], [WifiConnectNotFlowing, WifiConnectSleepMultiplier], TimingSlots(slots, cfg))
  }

  /** `send_initial_update`: start cycle 0 and ask for both wifi timing fields. */
  function SendInitialUpdate(w: World, now: real): (t: TickResult)
    requires w.run.step == SendUpdate
    ensures t.world.run.step == VerifyUpdate && t.world.run.cycle == 0 && t.world.run.cycleStart == now
    ensures !t.world.coord.updateAccepted && t.outcome == Continue
    ensures |t.requests| == 1 && t.requests[0].Update? && t.requests[0].handler == InitialUpdate
  {
    var run := w.run.(cycle := 0, cycleStart := now, step := Advance(SendUpdate));
    var doc := InitialDocument(w.slots, w.run.config);
    TickResult(World(run, w.coord.(updateAccepted := false), TimingSlots(w.slots, w.run.config)), Continue, [Update(doc, InitialUpdate)])
  }

  /** The bootstrap update carries both configured wifi timing values, in decimal, where the registry reads them. */
  lemma InitialUpdateCarriesConfig(w: World, now: real)
    requires w.run.step == SendUpdate
    ensures var doc := SendInitialUpdate(w, now).requests[0].doc;
            && LookupDoc(doc, DesiredPath(WifiConnectNotFlowing)) == Some(Str(IntToString(w.run.config.connectNotFlowing)))
            && LookupDoc(doc, DesiredPath(WifiConnectSleepMultiplier)) == Some(Str(IntToString(w.run.config.sleepMultiplier)))
  {
    SameCategoryMerge(WifiConnectNotFlowing, WifiConnectSleepMultiplier, TimingSlots(w.slots, w.run.config));
  }

  /**
   * The bootstrap's timeout handling: a timed-out cycle counts; the last one
   * raises the abort flag with `reason`, an earlier one restarts the clock.
   */
  function BootstrapTimeout(w: World, now: real, reason: string): (w': World)
    ensures !CycleExpired(w.run, now) ==> w' == w
    ensures CycleExpired(w.run, now) ==> w'.run.cycle == w.run.cycle + 1
    ensures CycleExpired(w.run, now) && w.run.cycle + 1 >= w.run.config.cycles ==>
              w'.coord == Abort(w.coord, reason) && w'.run.cycleStart == w.run.cycleStart
    ensures CycleExpired(w.run, now) && w.run.cycle + 1 < w.run.config.cycles ==>
              w'.coord == w.coord && w'.run.cycleStart == now
    ensures w'.run.step == w.run.step && w'.run.failures == w.run.failures && w'.slots == w.slots
  {
    if CycleExpired(w.run, now) then
      var cycle := w.run.cycle + 1;
      if cycle >= w.run.config.cycles then
        w.(run := w.run.(cycle := cycle), coord := Abort(w.coord, reason))
      else
        w.(run := w.run.(cycle := cycle, cycleStart := now))
    else w
  }

  const UpdateNeverAccepted := "initial update was never accepted"
  const GetNeverAccepted := "initial get was never accepted"

  /** `verify_initial_update`: an accepted update moves on; otherwise wait, with the bootstrap timeout. */
  function VerifyInitialUpdate(w: World, now: real): (t: TickResult)
    requires w.run.step == VerifyUpdate
    ensures t.outcome == Continue && t.requests == []
    ensures w.coord.updateAccepted ==> t.world.run.step == SendGet && !t.world.coord.updateAccepted
    ensures !w.coord.updateAccepted ==> t.world == BootstrapTimeout(w, now, UpdateNeverAccepted)
  {
    if w.coord.updateAccepted then
      Quiet(w.(coord := w.coord.(updateAccepted := false), run := w.run.(step := Advance(VerifyUpdate))))
    else
      Quiet(BootstrapTimeout(w, now, UpdateNeverAccepted))
  }

  /** The deadline of the current cycle: the first moment at which it has timed out. */
  function Deadline(r: Run): real {
    r.cycleStart + r.config.cycleDuration
  }

  /** `n` verification ticks of the bootstrap update, each at its cycle's deadline, with no acceptance. */
  function MissUpdates(w: World, n: nat): (w': World)
    requires w.run.step == VerifyUpdate && !w.coord.updateAccepted
    ensures w'.run.step == VerifyUpdate && !w'.coord.updateAccepted
    decreases n
  {
    if n == 0 then w else MissUpdates(VerifyInitialUpdate(w, Deadline(w.run)).world, n - 1)
  }

  /**
   * The bootstrap retry bound: starting at cycle `c`, the abort flag is raised
   * by the `n`-th missed deadline exactly when `c + n` reaches `cycles`, so a
   * bootstrap that is never accepted gives up after exactly `cycles` timeouts.
   */
  lemma {:induction false} UpdateRetryBound(w: World, n: nat)
    requires w.run.step == VerifyUpdate && !w.coord.updateAccepted && !w.coord.abortFlag
    requires 0 <= w.run.cycle < w.run.config.cycles && w.run.cycle + n <= w.run.config.cycles
    ensures MissUpdates(w, n).run.cycle == w.run.cycle + n
    ensures MissUpdates(w, n).coord.abortFlag <==> w.run.cycle + n == w.run.config.cycles
    decreases n
  {
    if n > 0 {
      var w1 := VerifyInitialUpdate(w, Deadline(w.run)).world;
      assert CycleExpired(w.run, Deadline(w.run));
      if n > 1 {
        assert !w1.coord.abortFlag;
        UpdateRetryBound(w1, n - 1);
      } else {
        assert MissUpdates(w1, 0) == w1;
      }
    }
  }

  /** Scenario: with `cycles` = 2 and no acceptance, the first deadline restarts the cycle and the second aborts. */
  lemma TwoCycleBootstrapAborts(w: World)
    requires w.run.step == VerifyUpdate && !w.coord.updateAccepted && !w.coord.abortFlag
    requires w.run.cycle == 0 && w.run.config.cycles == 2
    ensures !MissUpdates(w, 1).coord.abortFlag
    ensures MissUpdates(w, 2).coord.abortFlag
    ensures MissUpdates(w, 2).coord.abortReason == UpdateNeverAccepted
  {
    UpdateRetryBound(w, 1);
    UpdateRetryBound(w, 2);
    var w1 := VerifyInitialUpdate(w, Deadline(w.run)).world;
    assert MissUpdates(w, 1) == MissUpdates(w1, 0) == w1;
    var w2 := VerifyInitialUpdate(w1, Deadline(w1.run)).world;
    assert MissUpdates(w, 2) == MissUpdates(w1, 1) == MissUpdates(w2, 0) == w2;
  }

  // ----- steps 3 and 4 -----

  /** `send_initial_get`: start cycle 0, clear the get flag and ask for the whole document. */
  function SendInitialGet(w: World, now: real): (t: TickResult)
    requires w.run.step == SendGet
    ensures t.world.run.step == VerifyGet && t.world.run.cycle == 0 && t.world.run.cycleStart == now
    ensures !t.world.coord.getAccepted && t.requests == [Get(InitialGet)] && t.outcome == Continue
    ensures t.world.slots == w.slots
  {
    var run := w.run.(cycle := 0, cycleStart := now, step := Advance(SendGet));
    TickResult(World(run, w.coord.(getAccepted := false), w.slots), Continue, [Get(InitialGet)])
  }

  /** Whether the document shows either valve field in the unknown state `"0"`, both being present. */
  predicate ValveFault(doc: Doc) {
    var state := LookupDoc(doc, ReportedPath(ValveState));
    var request := LookupDoc(doc, ReportedPath(RequestedValveStateReq));
    state.Some? && request.Some? && (state == Some(Str("0")) || request == Some(Str("0")))
  }

  /** The outcome of Python's `int()`: a number, or the name of the exception it raises. */
  datatype Conversion = Converted(n: int) | Raised(error: string)

  /**
   * `int(item.reported_value)`: decimal text converts, other text raises
   * ValueError, and an object or a never-read slot (`None`) raises TypeError.
   */
  function IntOf(v: Option<Json>): (c: Conversion)
    ensures c.Converted? <==> v.Some? && v.value.Str? && ParseInt(v.value.s).Some?
    ensures c.Raised? ==> (c.error == "TypeError" <==> !(v.Some? && v.value.Str?))
    ensures c.Raised? ==> c.error == "TypeError" || c.error == "ValueError"
  {
    match v
    case Some(Str(s)) => if ParseInt(s).Some? then Converted(ParseInt(s).value) else Raised("ValueError")
    case _ => Raised("TypeError")
  }

  /** A count the harness printed with `str(n)` converts back to `n`. */
  lemma IntOfPrinted(n: int)
    ensures IntOf(Some(Str(IntToString(n)))) == Converted(n)
  {
    ParseIntRoundTrip(n);
  }

  datatype ValveCheck = ValveCheck(fault: bool, slots: Slots)

  /**
   * `check_valve_params`: read the valve state and, only if it is present, the
   * requested state; report a fault (the source exits with code 3) when both
   * are present and either is `"0"`.
   */
  function CheckValveParams(slots: Slots, doc: Doc): (c: ValveCheck)
    ensures c.fault <==> ValveFault(doc)
    ensures forall i :: Desired(c.slots, i) == Desired(slots, i)
    ensures forall i :: i != ValveState && i != RequestedValveStateReq ==> SlotOf(c.slots, i) == SlotOf(slots, i)
    ensures LookupDoc(doc, ReportedPath(ValveState)).Some? ==>
              Reported(c.slots, ValveState) == LookupDoc(doc, ReportedPath(ValveState))
    ensures LookupDoc(doc, ReportedPath(ValveState)).None? ==> c.slots == slots
  {
    var r1 := ReadReported(slots, doc, ValveState);
    if r1.found then
      var r2 := ReadReported(r1.slots, doc, RequestedValveStateReq);
      if r2.found then
        var fault := Reported(r2.slots, ValveState) == Some(Str("0"))
                     || Reported(r2.slots, RequestedValveStateReq) == Some(Str("0"));
        ValveCheck(fault, r2.slots)
      else ValveCheck(false, r2.slots)
    else ValveCheck(false, r1.slots)
  }

  /** The wifi timing fields the bootstrap waits for, both reported as desired. */
  predicate TimingConverged(slots: Slots, doc: Doc) {
    Converged(slots, doc, WifiConnectNotFlowing) && Converged(slots, doc, WifiConnectSleepMultiplier)
  }

  datatype TimingRead = TimingRead(converged: bool, slots: Slots)

  /**
   * The bootstrap's convergence test: read connect-not-flowing and, only if it
   * is present, the sleep multiplier; both must compare equal to their desired
   * values.
   */
  function ReadTiming(slots: Slots, doc: Doc): (t: TimingRead)
    ensures t.converged <==> TimingConverged(slots, doc)
    ensures forall i :: Desired(t.slots, i) == Desired(slots, i)
    ensures forall i :: i != WifiConnectNotFlowing && i != WifiConnectSleepMultiplier ==> SlotOf(t.slots, i) == SlotOf(slots, i)
  {
    var r1 := ReadReported(slots, doc, WifiConnectNotFlowing);
    if r1.found then
      var r2 := ReadReported(r1.slots, doc, WifiConnectSleepMultiplier);
      assert r2.found ==> (Matches(r2.slots, WifiConnectSleepMultiplier)
                           <==> Converged(r1.slots, doc, WifiConnectSleepMultiplier)) by {
        if r2.found { MatchAfterRead(r1.slots, doc, WifiConnectSleepMultiplier); }
      }
      TimingRead(r2.found && Matches(r2.slots, WifiConnectNotFlowing) && Matches(r2.slots, WifiConnectSleepMultiplier),
                 r2.slots)
    else TimingRead(false, r1.slots)
  }

  /**
   * `verify_initial_get`: once a get has arrived, check the valve fields (exit
   * 3 on a fault), then move on only if both timing fields report what was
   * asked; otherwise wait, with the bootstrap timeout.
   */
  function VerifyInitialGet(w: World, now: real): (t: TickResult)
    requires w.run.step == VerifyGet
    ensures t.requests == []
    ensures t.outcome == Exit(3) <==> w.coord.getAccepted && ValveFault(w.coord.incoming)
    ensures t.outcome != Exit(3) ==> t.outcome == Continue
    ensures t.outcome == Continue ==>
              (t.world.run.step == Delay <==>
                 w.coord.getAccepted && TimingConverged(w.slots, w.coord.incoming))
    ensures t.outcome == Continue && t.world.run.step != Delay ==> t.world.run.step == VerifyGet
    ensures !t.world.coord.getAccepted
    ensures forall i :: Desired(t.world.slots, i) == Desired(w.slots, i)
    ensures w.coord.getAccepted && LookupDoc(w.coord.incoming, ReportedPath(ValveState)).Some? ==>
              Reported(t.world.slots, ValveState) == LookupDoc(w.coord.incoming, ReportedPath(ValveState))
  {
    if w.coord.getAccepted then ConsumeGet(w.(coord := w.coord.(getAccepted := false)), now)
    else Quiet(BootstrapTimeout(w, now, GetNeverAccepted))
  }

  /** The body of `verify_initial_get` once the get flag has been taken. */
  function ConsumeGet(w: World, now: real): (t: TickResult)
    requires w.run.step == VerifyGet && !w.coord.getAccepted
    ensures t.requests == []
    ensures t.outcome == Exit(3) <==> ValveFault(w.coord.incoming)
    ensures t.outcome != Exit(3) ==> t.outcome == Continue
    ensures t.outcome == Continue ==>
              (t.world.run.step == Delay <==> TimingConverged(w.slots, w.coord.incoming))
    ensures t.outcome == Continue && t.world.run.step != Delay ==> t.world.run.step == VerifyGet
    ensures !t.world.coord.getAccepted
    ensures forall i :: Desired(t.world.slots, i) == Desired(w.slots, i)
    ensures LookupDoc(w.coord.incoming, ReportedPath(ValveState)).Some? ==>
              Reported(t.world.slots, ValveState) == LookupDoc(w.coord.incoming, ReportedPath(ValveState))
  {
    var check := CheckValveParams(w.slots, w.coord.incoming);
    if check.fault then TickResult(w.(slots := check.slots), Exit(3), [])
    else
      TimingDependsOnDesired(check.slots, w.slots, w.coord.incoming);
      AwaitTiming(w.(slots := check.slots), now)
  }

  /** Convergence of the timing fields depends only on the desired slots. */
  lemma TimingDependsOnDesired(a: Slots, b: Slots, doc: Doc)
    requires forall i :: Desired(a, i) == Desired(b, i)
    ensures TimingConverged(a, doc) <==> TimingConverged(b, doc)
  {
    assert Desired(a, WifiConnectNotFlowing) == Desired(b, WifiConnectNotFlowing);
    assert Desired(a, WifiConnectSleepMultiplier) == Desired(b, WifiConnectSleepMultiplier);
  }

  /** Move on when the timing fields have converged, otherwise apply the bootstrap timeout. */
  function AwaitTiming(w: World, now: real): (t: TickResult)
    requires w.run.step == VerifyGet && !w.coord.getAccepted
    ensures t.requests == [] && t.outcome == Continue
    ensures t.world.run.step == Delay <==> TimingConverged(w.slots, w.coord.incoming)
    ensures t.world.run.step != Delay ==> t.world.run.step == VerifyGet
    ensures !t.world.coord.getAccepted
    ensures t.world.slots == ReadTiming(w.slots, w.coord.incoming).slots
  {
    var timing := ReadTiming(w.slots, w.coord.incoming);
    var w1 := w.(slots := timing.slots);
    if timing.converged then Quiet(w1.(run := w1.run.(step := Advance(VerifyGet))))
    else Quiet(BootstrapTimeout(w1, now, GetNeverAccepted))
  }

  // ----- step 5 -----

  /** A draw of `random.randint(0, 1000000)`. */
  type Draw = d: int | 0 <= d <= 1000000

  /** The random delay: the draw as a fraction of one cycle. */
  function RandomDelay(draw: Draw, cycleDuration: real): (d: real)
    ensures cycleDuration >= 0.0 ==> 0.0 <= d <= cycleDuration
  {
    var fraction := draw as real / 1000000.0;
    assert 0.0 <= fraction <= 1.0;
    assert cycleDuration >= 0.0 ==> (1.0 - fraction) * cycleDuration >= 0.0;
    fraction * cycleDuration
  }

  /**
   * `delay_before_iteration`: on the first tick start the iteration's clocks
   * and pick the delay; on later ticks move on once the delay has strictly
   * elapsed.
   */
  function DelayBeforeIteration(w: World, now: real, draw: Draw): (t: TickResult)
    requires w.run.step == Delay
    ensures t.outcome == Continue && t.requests == []
    ensures t.world.coord == w.coord && t.world.slots == w.slots
    ensures t.world.run.iteration == w.run.iteration && t.world.run.failures == w.run.failures
    ensures w.run.delaying ==>
              (t.world.run.step == RunIteration <==> now - w.run.delayStart > w.run.currentDelay)
    ensures w.run.delaying && !(now - w.run.delayStart > w.run.currentDelay) ==> t.world == w
    ensures !w.run.delaying ==>
              t.world.run.cycle == 0 && t.world.run.cycleStart == now && t.world.run.iterationStart == now
    ensures !w.run.delaying && w.run.config.random ==>
              t.world.run.delaying && t.world.run.step == Delay
              && (w.run.config.cycleDuration >= 0.0 ==> 0.0 <= t.world.run.currentDelay <= w.run.config.cycleDuration)
    ensures !w.run.delaying && !w.run.config.random && w.run.config.delay > 0.0 ==>
              t.world.run.delaying && t.world.run.step == Delay
              && t.world.run.currentDelay == w.run.config.delay + (w.run.iteration as real) * w.run.config.offset
    ensures !w.run.delaying && !w.run.config.random && !(w.run.config.delay > 0.0) ==>
              !t.world.run.delaying && t.world.run.step == RunIteration
  {
    var r := w.run;
    if r.delaying then
      if now - r.delayStart > r.currentDelay then
        Quiet(w.(run := r.(delaying := false, step := Advance(Delay))))
      else Quiet(w)
    else
      var r1 := r.(delayStart := now, iterationStart := now, cycle := 0, cycleStart := now);
      if r.config.random then
        Quiet(w.(run := r1.(currentDelay := RandomDelay(draw, r.config.cycleDuration), delaying := true)))
      else if r.config.delay > 0.0 then
        Quiet(w.(run := r1.(currentDelay := r.config.delay + (r.iteration as real) * r.config.offset, delaying := true)))
      else
        Quiet(w.(run := r1.(delaying := false, step := Advance(Delay))))
  }

  // ----- step 7 -----

  /**
   * The base `verify_one_iteration`: end a finished delay, and count a
   * timed-out cycle; the last cycle counts one failure and moves on.
   */
  function IterationTimeout(r: Run, now: real): (r': Run)
    requires r.step == VerifyIteration
    ensures var last := CycleExpired(r, now) && r.cycle + 1 >= r.config.cycles;
            && r'.failures == r.failures + (if last then 1 else 0)
            && r'.step == (if last then LoopBack else VerifyIteration)
    ensures r'.cycle == r.cycle + (if CycleExpired(r, now) then 1 else 0)
    ensures CycleExpired(r, now) && r.cycle + 1 < r.config.cycles ==> r'.cycleStart == now
    ensures r'.delaying <==> r.delaying && !(now - r.delayStart > r.currentDelay)
    ensures r'.iteration == r.iteration && r'.config == r.config
  {
    var r1 := if r.delaying && now - r.delayStart > r.currentDelay then r.(delaying := false) else r;
    if CycleExpired(r1, now) then
      var cycle := r1.cycle + 1;
      if cycle >= r1.config.cycles then
        r1.(cycle := cycle, failures := r1.failures + 1, step := Advance(VerifyIteration))
      else
        r1.(cycle := cycle, cycleStart := now)
    else r1
  }

  /** `n` ticks of the base iteration check, each at its cycle's deadline. */
  function MissIterations(r: Run, n: nat): (r': Run)
    requires r.step == VerifyIteration
    decreases n
  {
    if n == 0 then r
    else
      var r1 := IterationTimeout(r, Deadline(r));
      if r1.step == VerifyIteration then MissIterations(r1, n - 1) else r1
  }

  /**
   * The iteration retry bound: starting at cycle `c`, the first `cycles - c - 1`
   * missed deadlines only restart the cycle, and the next one counts exactly one
   * failure and moves on to `LoopBack`.
   */
  lemma {:induction false} IterationRetryBound(r: Run, n: nat)
    requires r.step == VerifyIteration
    requires 0 <= r.cycle && r.cycle + n <= r.config.cycles
    ensures MissIterations(r, n).cycle == r.cycle + n
    ensures MissIterations(r, n).step == LoopBack <==> r.cycle + n == r.config.cycles && n > 0
    ensures MissIterations(r, n).step != LoopBack ==> MissIterations(r, n).step == VerifyIteration
    ensures MissIterations(r, n).failures == r.failures + (if r.cycle + n == r.config.cycles && n > 0 then 1 else 0)
    decreases n
  {
    if n > 0 {
      var r1 := IterationTimeout(r, Deadline(r));
      assert CycleExpired(r, Deadline(r));
      if n > 1 {
        assert r1.step == VerifyIteration;
        IterationRetryBound(r1, n - 1);
      }
    }
  }

  /** Convergence of a field depends only on its desired slot. */
  lemma ConvergedDependsOnDesired(a: Slots, b: Slots, doc: Doc, i: Item)
    requires Desired(a, i) == Desired(b, i)
    ensures Converged(a, doc, i) <==> Converged(b, doc, i)
  {
  }

  datatype MatchCount = MatchCount(count: nat, slots: Slots)

  /**
   * The multi-field tests' count: read each field in turn and count those found
   * and equal to their desired value. The count is never more than the number
   * of fields, and it is all of them exactly when every field has converged.
   */
  function CountMatches(slots: Slots, doc: Doc, items: seq<Item>): (m: MatchCount)
    ensures m.count <= |items|
    ensures m.count == |items| <==> forall k :: 0 <= k < |items| ==> Converged(slots, doc, items[k])
    ensures forall i :: Desired(m.slots, i) == Desired(slots, i)
    decreases |items|
  {
    if |items| == 0 then MatchCount(0, slots)
    else
      var r := ReadReported(slots, doc, items[0]);
      var rest := CountMatches(r.slots, doc, items[1..]);
      var hit := r.found && Matches(r.slots, items[0]);
      assert r.found ==> (Matches(r.slots, items[0]) <==> Converged(slots, doc, items[0])) by {
        if r.found { MatchAfterRead(slots, doc, items[0]); }
      }
      assert forall k :: 1 <= k < |items| ==>
               (Converged(r.slots, doc, items[k]) <==> Converged(slots, doc, items[k])) by {
        forall k | 1 <= k < |items| {
          ConvergedDependsOnDesired(r.slots, slots, doc, items[k]);
        }
      }
      assert forall k :: 0 <= k < |items| - 1 ==> items[1..][k] == items[k + 1];
      MatchCount(rest.count + (if hit then 1 else 0), rest.slots)
  }

  /**
   * The multi-field tests' `verify_one_iteration`: with no update there is
   * nothing to do (and no timeout); an update is checked for valve faults and
   * the step moves on only when every field has converged.
   */
  function VerifyAllMatch(w: World, items: seq<Item>): (t: TickResult)
    requires w.run.step == VerifyIteration
    ensures !w.coord.updateAccepted ==> t == Quiet(w)
    ensures t.requests == [] && t.world.run.failures == w.run.failures
    ensures t.outcome == Exit(3) <==> w.coord.updateAccepted && ValveFault(w.coord.incoming)
    ensures t.outcome != Exit(3) ==> t.outcome == Continue
    ensures t.outcome == Continue ==>
              (t.world.run.step == LoopBack <==>
                 w.coord.updateAccepted && forall k :: 0 <= k < |items| ==> Converged(w.slots, w.coord.incoming, items[k]))
    ensures t.outcome == Continue && t.world.run.step != LoopBack ==> t.world.run.step == VerifyIteration
    ensures !t.world.coord.updateAccepted
  {
    if !w.coord.updateAccepted then Quiet(w)
    else
      var coord := w.coord.(updateAccepted := false);
      var check := CheckValveParams(w.slots, coord.incoming);
      if check.fault then TickResult(w.(coord := coord, slots := check.slots), Exit(3), [])
      else
        var m := CountMatches(check.slots, coord.incoming, items);
        assert forall k :: 0 <= k < |items| ==>
                 (Converged(check.slots, coord.incoming, items[k]) <==> Converged(w.slots, coord.incoming, items[k])) by {
          forall k | 0 <= k < |items| {
            ConvergedDependsOnDesired(check.slots, w.slots, coord.incoming, items[k]);
          }
        }
        var w1 := w.(coord := coord, slots := m.slots);
        if m.count == |items| then Quiet(w1.(run := w1.run.(step := Advance(VerifyIteration))))
        else Quiet(w1)
  }

  datatype Built = Built(slots: Slots, doc: Doc)

  /** The request asks for `v` at field `i`: in the slots and in the document it sends. */
  predicate Asks(b: Built, i: Item, v: string) {
    Desired(b.slots, i) == Some(v) && LookupDoc(b.doc, DesiredPath(i)) == Some(Str(v))
  }

  /**
   * One field of a multi-field request: if the incoming document reports it,
   * ask for its toggled value and merge that into the outgoing document;
   * otherwise leave both alone.
   */
  function ToggleOne(slots: Slots, incoming: Doc, out: Doc, i: Item): (b: Built)
    requires Writable(out) && HasToggle(i)
    ensures Writable(b.doc)
    ensures LookupDoc(incoming, ReportedPath(i)).Some? ==>
              var d := Toggle(i, LookupDoc(incoming, ReportedPath(i)));
              Desired(b.slots, i) == Some(d) && b.doc == SetDesired(out, i, d)
    ensures LookupDoc(incoming, ReportedPath(i)).None? ==> b == Built(slots, out)
    ensures forall j :: j != i ==> Desired(b.slots, j) == Desired(slots, j)
  {
    var r := ReadReported(slots, incoming, i);
    if r.found then
      var d := Toggle(i, Reported(r.slots, i));
      SetDesiredKeepsWritable(out, i, d);
      Built(SetDesiredSlot(r.slots, i, d), SetDesired(out, i, d))
    else Built(r.slots, out)
  }

  /**
   * `ToggleOne` for each field in turn, into the same outgoing document: every
   * reported field ends up asking for its toggled value, the others keep
   * their desired value, and with nothing reported nothing is written.
   */
  function ToggleAll(slots: Slots, incoming: Doc, out: Doc, items: seq<Item>): (b: Built)
    requires Writable(out)
    requires forall k :: 0 <= k < |items| ==> HasToggle(items[k])
    ensures Writable(b.doc)
    ensures forall i :: i in items && LookupDoc(incoming, ReportedPath(i)).Some? ==>
              Desired(b.slots, i) == Some(Toggle(i, LookupDoc(incoming, ReportedPath(i))))
    ensures forall i :: i !in items || LookupDoc(incoming, ReportedPath(i)).None? ==>
              Desired(b.slots, i) == Desired(slots, i)
    ensures (forall k :: 0 <= k < |items| ==> LookupDoc(incoming, ReportedPath(items[k])).None?) ==> b.doc == out
    decreases |items|
  {
    if |items| == 0 then Built(slots, out)
    else
      var first := ToggleOne(slots, incoming, out, items[0]);
      assert forall k :: 0 <= k < |items| - 1 ==> items[1..][k] == items[k + 1];
      assert forall i :: i in items <==> i == items[0] || i in items[1..];
      ToggleAll(first.slots, incoming, first.doc, items[1..])
  }

  // ----- steps 8 and 9 -----

  /** `loop_back`: count the iteration; finish after the last one, otherwise wait for the next. */
  function LoopBackStep(r: Run): (r': Run)
    requires r.step == LoopBack
    ensures r'.iteration == r.iteration + 1
    ensures r'.step == Finish <==> r.iteration + 1 >= r.config.iterations
    ensures r'.step != Finish ==> r'.step == Delay
    ensures r'.failures == r.failures && r'.config == r.config
  {
    var r1 := r.(iteration := r.iteration + 1);
    if r1.iteration >= r1.config.iterations then r1.(step := Advance(LoopBack)) else r1.(step := Delay)
  }

  /** `k` passes through the iteration body, each ending at `loop_back`, as long as none finishes. */
  function Passes(r: Run, k: nat): (r': Run)
    requires r.step == LoopBack
    ensures r'.step == LoopBack
    decreases k
  {
    if k == 0 then r else Passes(LoopBackStep(r).(step := LoopBack), k - 1)
  }

  lemma {:induction false} PassesCount(r: Run, k: nat)
    requires r.step == LoopBack
    ensures Passes(r, k).iteration == r.iteration + k
    ensures Passes(r, k).config == r.config
    decreases k
  {
    if k > 0 {
      PassesCount(LoopBackStep(r).(step := LoopBack), k - 1);
    }
  }

  /**
   * From iteration 0 the `k`-th `loop_back` finishes the test exactly when
   * `k >= iterations`: the body runs `iterations` times.
   */
  lemma BodyRunsIterationsTimes(r: Run, k: nat)
    requires r.step == LoopBack && r.iteration == 0 && k >= 1
    ensures LoopBackStep(Passes(r, k - 1)).step == Finish <==> k >= r.config.iterations
  {
    PassesCount(r, k - 1);
  }

  /** `finish_test`: the test is complete and the state machine stops. */
  function FinishTest(w: World): (t: TickResult)
    requires w.run.step == Finish
    ensures t.outcome == Completed && t.requests == []
    ensures t.world.run.status == Complete && t.world.run.step == Stopped && t.world.run.step.Number() == -1
    ensures t.world.coord == w.coord && t.world.slots == w.slots && t.world.run.failures == w.run.failures
  {
    TickResult(w.(run := w.run.(status := Complete, step := Stopped)), Completed, [])
  }
}
