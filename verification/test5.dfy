/**
 * Test 5, "Button-Shadow Open-Close": walk a fixed eight-entry matrix of
 * (method, direction) pairs, opening and closing the valve either with a
 * shadow request or by holding one of the device's two buttons.
 */
module ButtonShadow {
  import opened Wrappers
  import opened Json
  import opened Numerals
  import opened Shadow
  import opened Coordination
  import opened TestBase

  /** How an entry moves the valve: a held physical button, or a shadow request. */
  datatype Method = ByButton | ByShadow

  /** Where an entry moves the valve. */
  datatype Direction = Open | Close {
    /** The valve state the device reports once the move is done. */
    function Code(): int {
      match this
      case Open => 1
      case Close => 2
    }

    /** The requested state written to the shadow for this move. */
    function Text(): (s: string)
      ensures ParseInt(s) == Some(Code())
    {
      match this
      case Open => "1"
      case Close => "2"
    }
  }

  datatype MatrixEntry = MatrixEntry(via: Method, direction: Direction)

  /** `test_matrix`, in order. */
  const Matrix: seq<MatrixEntry> := [
    MatrixEntry(ByShadow, Open), MatrixEntry(ByShadow, Close),
    MatrixEntry(ByButton, Open), MatrixEntry(ByShadow, Close),
    MatrixEntry(ByShadow, Open), MatrixEntry(ByButton, Close),
    MatrixEntry(ByButton, Open), MatrixEntry(ByButton, Close)]

  /** Seconds a button is held before it is released. */
  const ButtonHoldSeconds: real := 8.0

  /** The power button opens the valve, the wifi button closes it. */
  function ButtonFor(d: Direction): (b: Button)
    ensures b == PowerButton <==> d == Open
  {
    match d
    case Open => PowerButton
    case Close => WifiButton
  }

  /** Every (method, direction) pair appears exactly twice in the matrix. */
  lemma MatrixCoversEveryPair(m: Method, d: Direction)
    ensures multiset(Matrix)[MatrixEntry(m, d)] == 2
  {
    assert Matrix == [Matrix[0]] + [Matrix[1]] + [Matrix[2]] + [Matrix[3]]
                   + [Matrix[4]] + [Matrix[5]] + [Matrix[6]] + [Matrix[7]];
  }

  /** Each entry, the last one included (the walk wraps), reverses the direction of the entry before it. */
  lemma MatrixAlternates(k: MatrixIndex)
    ensures Matrix[(k + 1) % |Matrix|].direction != Matrix[k].direction
  {
  }

  // ----- step 0 -----

  /** `prepare_for_test`: the base preparation, and the walk restarts from the first entry. */
  function PrepareForTest(a: Args, r: Run): (r': Run)
    ensures r'.matrixIndex == 0 && r'.matrixCount == 0
    ensures r'.config == Configure(a) && r'.iteration == 0 && r'.failures == r.failures
    ensures r'.step == (if r.skipInitialUpdate then Delay else SendUpdate)
  {
    TestBase.PrepareForTest(a, r).(matrixIndex := 0, matrixCount := 0)
  }

  // ----- step 4 -----

  /**
   * The first matrix entry to run: the second one (a close) when the valve
   * reports open (`"1"`), the first one (an open) when it reports closed
   * (`"2"`), and none (the source exits with code 4) otherwise.
   */
  function StartIndex(reported: Option<Json>): (k: Option<MatrixIndex>)
    ensures k.Some? <==> reported == Some(Str("1")) || reported == Some(Str("2"))
    ensures k.Some? ==> Some(Str(Matrix[k.value].direction.Text())) != reported
  {
    if reported == Some(Str("1")) then Some(1)
    else if reported == Some(Str("2")) then Some(0)
    else None
  }

  /**
   * `verify_first_get`: the base `verify_initial_get`, then, when it moved on
   * to the delay, the start index chosen from the valve state just read.
   */
  function VerifyInitialGet(w: World, now: real): (t: TickResult)
    requires w.run.step == VerifyGet
    ensures var base := TestBase.VerifyInitialGet(w, now);
            !(base.outcome == Continue && base.world.run.step == Delay) ==> t == base
    ensures var base := TestBase.VerifyInitialGet(w, now);
            base.outcome == Continue && base.world.run.step == Delay ==>
              && t.world.slots == base.world.slots && t.world.coord == base.world.coord && t.requests == []
              && (t.outcome == Exit(4) <==> StartIndex(Reported(base.world.slots, ValveState)).None?)
              && (t.outcome != Exit(4) ==>
                    t.outcome == Continue
                    && t.world.run == base.world.run.(matrixIndex := StartIndex(Reported(base.world.slots, ValveState)).value))
  {
    var base := TestBase.VerifyInitialGet(w, now);
    if base.outcome == Continue && base.world.run.step == Delay then
      match StartIndex(Reported(base.world.slots, ValveState))
      case None => TickResult(base.world, Exit(4), [])
      case Some(k) => Quiet(base.world.(run := base.world.run.(matrixIndex := k)))
    else base
  }

  /**
   * The walk starts by moving the valve away from the state the get
   * reported: a device that reports open is first closed, one that reports
   * closed is first opened.
   */
  lemma FirstEntryReversesValve(w: World, now: real)
    requires w.run.step == VerifyGet && w.coord.getAccepted
    requires LookupDoc(w.coord.incoming, ReportedPath(ValveState)) in {Some(Str("1")), Some(Str("2"))}
    requires TestBase.VerifyInitialGet(w, now).outcome == Continue
    requires TestBase.VerifyInitialGet(w, now).world.run.step == Delay
    ensures VerifyInitialGet(w, now).outcome == Continue
    ensures var d := Matrix[VerifyInitialGet(w, now).world.run.matrixIndex].direction;
            Some(Str(d.Text())) != LookupDoc(w.coord.incoming, ReportedPath(ValveState))
  {
  }

  // ----- step 6 -----

  /**
   * The counter value the shadow branch converts: the read's result when the
   * incoming document reports the counter, otherwise whatever the slot held
   * before (the read's outcome is not checked).
   */
  function CounterSeen(w: World): Option<Json> {
    Reported(ReadReported(w.slots, w.coord.incoming, RequestedValveStateCounter).slots, RequestedValveStateCounter)
  }

  /**
   * The shadow branch of `run_one_iteration`: convert the counter just read
   * (a stale slot when the read found nothing), and send a fresh request
   * asking for one more than it and for the direction's target state.
   */
  function ShadowRequest(w: World, d: Direction): (t: TickResult)
    requires w.run.step == RunIteration
    ensures !t.world.run.buttonPressed
    ensures t.world.run.matrixIndex == w.run.matrixIndex && t.world.run.matrixCount == w.run.matrixCount
    ensures t.outcome.Crash? <==> IntOf(CounterSeen(w)).Raised?
    ensures t.outcome.Crash? ==> t.requests == [Subscribe(AnyShadowUpdate)]
    ensures !t.outcome.Crash? ==>
              var next := IntToString(IntOf(CounterSeen(w)).n + 1);
              && t.outcome == Continue
              && t.world.run.step == VerifyIteration
              && t.requests == [Subscribe(AnyShadowUpdate), Update(t.world.coord.outgoing, MyShadowUpdate)]
              && LookupDoc(t.world.coord.outgoing, DesiredPath(RequestedValveStateCounter)) == Some(Str(next))
              && LookupDoc(t.world.coord.outgoing, DesiredPath(RequestedValveStateReq)) == Some(Str(d.Text()))
              && Desired(t.world.slots, RequestedValveStateCounter) == Some(next)
              && Desired(t.world.slots, RequestedValveStateReq) == Some(d.Text())
  {
    var run := w.run.(buttonPressed := false);
    var r := ReadReported(w.slots, w.coord.incoming, RequestedValveStateCounter);
    match IntOf(Reported(r.slots, RequestedValveStateCounter))
    case Raised(err) => TickResult(w.(run := run, slots := r.slots), Crash(err), [Subscribe(AnyShadowUpdate)])
    case Converted(n) => SendBumped(w.(run := run, slots := r.slots), n, d)
  }

  /** The request of a shadow entry once the counter `n` is known. */
  function SendBumped(w: World, n: int, d: Direction): (t: TickResult)
    requires w.run.step == RunIteration
    ensures t.outcome == Continue && t.world.run == w.run.(step := VerifyIteration)
    ensures t.requests == [Subscribe(AnyShadowUpdate), Update(t.world.coord.outgoing, MyShadowUpdate)]
    ensures LookupDoc(t.world.coord.outgoing, DesiredPath(RequestedValveStateCounter)) == Some(Str(IntToString(n + 1)))
    ensures LookupDoc(t.world.coord.outgoing, DesiredPath(RequestedValveStateReq)) == Some(Str(d.Text()))
    ensures Desired(t.world.slots, RequestedValveStateCounter) == Some(IntToString(n + 1))
    ensures Desired(t.world.slots, RequestedValveStateReq) == Some(d.Text())
  {
    var next := IntToString(n + 1);
    var target := d.Text();
    SameCategoryPair(RequestedValveStateCounter, RequestedValveStateReq, next, target);
    var doc := SetDesired(SetDesired(map[], RequestedValveStateCounter, next), RequestedValveStateReq, target);
    var slots := SetDesiredSlot(SetDesiredSlot(w.slots, RequestedValveStateCounter, next), RequestedValveStateReq, target);
    TickResult(World(w.run.(step := Advance(RunIteration)), w.coord.(outgoing := doc), slots), Continue,
               [Subscribe(AnyShadowUpdate), Update(doc, MyShadowUpdate)])
  }

  /**
   * `run_one_iteration`: subscribe to updates, then either press the entry's
   * button and start its hold timer, or send the shadow request for the
   * entry's direction.
   */
  function RunOneIteration(w: World, now: real): (t: TickResult)
    requires w.run.step == RunIteration
    ensures |t.requests| >= 1 && t.requests[0] == Subscribe(AnyShadowUpdate)
    ensures t.world.run.matrixIndex == w.run.matrixIndex && t.world.run.matrixCount == w.run.matrixCount
    ensures var e := Matrix[w.run.matrixIndex];
            e.via == ByButton ==>
              && t.outcome == Continue && t.world.coord == w.coord && t.world.slots == w.slots
              && t.requests == [Subscribe(AnyShadowUpdate), Push(ButtonFor(e.direction))]
              && t.world.run == w.run.(step := VerifyIteration, buttonPressed := true, buttonStart := now)
    ensures var e := Matrix[w.run.matrixIndex];
            e.via == ByShadow ==> t == ShadowRequest(w, e.direction)
  {
    var e := Matrix[w.run.matrixIndex];
    match e.via
    case ByButton =>
      TickResult(w.(run := w.run.(step := Advance(RunIteration), buttonPressed := true, buttonStart := now)), Continue,
                 [Subscribe(AnyShadowUpdate), Push(ButtonFor(e.direction))])
    case ByShadow => ShadowRequest(w, e.direction)
  }

  // ----- step 7 -----

  /** The button step of `verify_one_iteration`: how the tick starts, and whether it goes on to the update check. */
  datatype Hold = Hold(holding: bool, run: Run, requests: seq<Request>)

  /**
   * A pressed button of a button entry is held until `ButtonHoldSeconds`
   * have passed (the tick ends there), then released; in every other case
   * nothing happens.
   */
  function HoldButton(r: Run, now: real): (h: Hold)
    ensures var e := Matrix[r.matrixIndex];
            h.holding <==> e.via == ByButton && r.buttonPressed && !(now - r.buttonStart >= ButtonHoldSeconds)
    ensures h.holding ==> h.run == r && h.requests == []
    ensures var e := Matrix[r.matrixIndex];
            !h.holding && e.via == ByButton && r.buttonPressed ==>
              h.run == r.(buttonPressed := false) && h.requests == [Release(ButtonFor(e.direction))]
    ensures var e := Matrix[r.matrixIndex];
            !(e.via == ByButton && r.buttonPressed) ==> h == Hold(false, r, [])
  {
    var e := Matrix[r.matrixIndex];
    if e.via == ByButton && r.buttonPressed then
      if now - r.buttonStart >= ButtonHoldSeconds then Hold(false, r.(buttonPressed := false), [Release(ButtonFor(e.direction))])
      else Hold(true, r, [])
    else Hold(false, r, [])
  }

  /**
   * The update check of `verify_one_iteration`: check the valve fields
   * (exit 3 on a fault), then move on exactly when the reported valve state
   * converts to the direction's code.
   */
  function CheckArrival(w: World, d: Direction, requests: seq<Request>): (t: TickResult)
    requires w.run.step == VerifyIteration && w.coord.updateAccepted
    ensures t.requests == requests && !t.world.coord.updateAccepted
    ensures t.world.run == w.run || t.world.run == w.run.(step := LoopBack)
    ensures t.outcome == Exit(3) <==> ValveFault(w.coord.incoming)
    ensures t.outcome.Crash? ==> t.outcome.error in {"TypeError", "ValueError"}
    ensures t.outcome == Continue || t.outcome == Exit(3) || t.outcome.Crash?
    ensures t.outcome == Continue ==>
              && (t.world.run.step == LoopBack <==> IntOf(Reported(t.world.slots, ValveState)) == Converted(d.Code()))
              && (LookupDoc(w.coord.incoming, ReportedPath(ValveState)).Some? ==>
                    Reported(t.world.slots, ValveState) == LookupDoc(w.coord.incoming, ReportedPath(ValveState)))
  {
    var coord := w.coord.(updateAccepted := false);
    var check := CheckValveParams(w.slots, coord.incoming);
    if check.fault then TickResult(w.(coord := coord, slots := check.slots), Exit(3), requests)
    else
      ReadArrival(w.(coord := coord, slots := check.slots), d, requests)
  }

  /** After a fault-free check: read the valve state and compare its number with the direction's code. */
  function ReadArrival(w: World, d: Direction, requests: seq<Request>): (t: TickResult)
    requires w.run.step == VerifyIteration
    ensures t.requests == requests && t.world.coord == w.coord
    ensures t.world.run == w.run || t.world.run == w.run.(step := LoopBack)
    ensures t.outcome.Crash? ==> t.outcome.error in {"TypeError", "ValueError"}
    ensures t.outcome == Continue || t.outcome.Crash?
    ensures t.outcome == Continue ==>
              (t.world.run.step == LoopBack <==> IntOf(Reported(t.world.slots, ValveState)) == Converted(d.Code()))
    ensures LookupDoc(w.coord.incoming, ReportedPath(ValveState)).Some? ==>
              Reported(t.world.slots, ValveState) == LookupDoc(w.coord.incoming, ReportedPath(ValveState))
  {
    var r := ReadReported(w.slots, w.coord.incoming, ValveState);
    var w2 := w.(slots := r.slots);
    match IntOf(Reported(r.slots, ValveState))
    case Raised(err) => TickResult(w2, Crash(err), requests)
    case Converted(n) =>
      if n == d.Code() then TickResult(w2.(run := w2.run.(step := Advance(VerifyIteration))), Continue, requests)
      else TickResult(w2, Continue, requests)
  }

  /**
   * `verify_one_iteration`: the button hold first; then, on an update, the
   * arrival check for the entry's direction; without an update, the base
   * timeout handling.
   */
  function VerifyOneIteration(w: World, now: real): (t: TickResult)
    requires w.run.step == VerifyIteration
    ensures HoldButton(w.run, now).holding ==> t == Quiet(w)
    ensures !HoldButton(w.run, now).holding ==>
              t.requests == HoldButton(w.run, now).requests
    ensures !HoldButton(w.run, now).holding && !w.coord.updateAccepted ==>
              t.outcome == Continue && t.world.run == IterationTimeout(HoldButton(w.run, now).run, now)
    ensures !HoldButton(w.run, now).holding && w.coord.updateAccepted ==>
              t == CheckArrival(w.(run := HoldButton(w.run, now).run), Matrix[w.run.matrixIndex].direction,
                                HoldButton(w.run, now).requests)
    ensures t.world.run.matrixIndex == w.run.matrixIndex && t.world.run.matrixCount == w.run.matrixCount
    ensures t.world.run.failures >= w.run.failures
  {
    var h := HoldButton(w.run, now);
    if h.holding then Quiet(w)
    else
      var w1 := w.(run := h.run);
      if w1.coord.updateAccepted then CheckArrival(w1, Matrix[w.run.matrixIndex].direction, h.requests)
      else TickResult(w1.(run := IterationTimeout(w1.run, now)), Continue, h.requests)
  }

  /**
   * A shadow entry is done once the device reports the state it asked for:
   * the request's target text, reported back, is exactly the entry's code.
   */
  lemma ReportedTargetCompletesEntry(w: World, now: real)
    requires w.run.step == VerifyIteration && w.coord.updateAccepted && !ValveFault(w.coord.incoming)
    requires Matrix[w.run.matrixIndex].via == ByShadow
    requires LookupDoc(w.coord.incoming, ReportedPath(ValveState)) == Some(Str(Matrix[w.run.matrixIndex].direction.Text()))
    ensures VerifyOneIteration(w, now).outcome == Continue
    ensures VerifyOneIteration(w, now).world.run.step == LoopBack
  {
    var e := Matrix[w.run.matrixIndex];
    assert IntOf(Some(Str(e.direction.Text()))) == Converted(e.direction.Code());
  }

  /** A pressed button is never released early: before the hold time the tick changes nothing. */
  lemma ButtonHeldUntilTime(w: World, now: real)
    requires w.run.step == VerifyIteration && Matrix[w.run.matrixIndex].via == ByButton
    requires w.run.buttonPressed && now - w.run.buttonStart < ButtonHoldSeconds
    ensures VerifyOneIteration(w, now) == Quiet(w)
  {
  }

  // ----- step 8 -----

  /** The next matrix position, wrapping to the first entry after the last. */
  function NextIndex(k: MatrixIndex): (n: MatrixIndex)
    ensures n == (k + 1) % |Matrix|
  {
    if k + 1 >= |Matrix| then 0 else k + 1
  }

  /**
   * `loop_back` as written: advance the matrix position and count; once
   * the count reaches the matrix size the base `loop_back` runs, otherwise
   * the step is set to 9, which the dispatcher runs as `finish_test`.
   */
  function LoopBackMatrixAsWritten(r: Run): (r': Run)
    requires r.step == LoopBack
    ensures r'.matrixIndex == NextIndex(r.matrixIndex) && r'.matrixCount == r.matrixCount + 1
    ensures r.matrixCount + 1 < |Matrix| ==> r'.step == Finish && r'.iteration == r.iteration
  {
    var r1 := r.(matrixIndex := NextIndex(r.matrixIndex), matrixCount := r.matrixCount + 1);
    if r1.matrixCount >= |Matrix| then LoopBackStep(r1) else r1.(step := Finish)
  }

  /** As written, a fresh walk ends the whole test after its first matrix entry, whatever the iteration count. */
  lemma AsWrittenStopsAfterOneEntry(r: Run)
    requires r.step == LoopBack && r.matrixCount == 0
    ensures LoopBackMatrixAsWritten(r).step == Finish
    ensures LoopBackMatrix(r).step == Delay
  {
  }

  /**
   * `loop_back` with the evidently intended target: advance the matrix
   * position and count; once the count reaches the matrix size the base
   * `loop_back` runs, otherwise the walk returns to the pre-iteration delay
   * for the next entry.
   */
  function LoopBackMatrix(r: Run): (r': Run)
    requires r.step == LoopBack
    ensures r'.matrixIndex == NextIndex(r.matrixIndex) && r'.matrixCount == r.matrixCount + 1
    ensures r.matrixCount + 1 < |Matrix| ==> r'.step == Delay && r'.iteration == r.iteration
    ensures r.matrixCount + 1 >= |Matrix| ==>
              r' == LoopBackStep(r.(matrixIndex := NextIndex(r.matrixIndex), matrixCount := r.matrixCount + 1))
    ensures r'.failures == r.failures && r'.config == r.config
  {
    var r1 := r.(matrixIndex := NextIndex(r.matrixIndex), matrixCount := r.matrixCount + 1);
    if r1.matrixCount >= |Matrix| then LoopBackStep(r1) else r1.(step := Delay)
  }

  /** `k` matrix entries completed, each ending at `loop_back`. */
  function Walk(r: Run, k: nat): (r': Run)
    requires r.step == LoopBack
    ensures r'.step == LoopBack
    decreases k
  {
    if k == 0 then r else Walk(LoopBackMatrix(r).(step := LoopBack), k - 1)
  }

  /**
   * Walking `k` entries moves the position `k` places round the matrix and
   * the count up by `k`; within the first pass the iteration count does
   * not move, so the first iteration visits every entry once.
   */
  lemma {:induction false} WalkVisitsInOrder(r: Run, k: nat)
    requires r.step == LoopBack
    ensures Walk(r, k).matrixIndex == (r.matrixIndex + k) % |Matrix|
    ensures Walk(r, k).matrixCount == r.matrixCount + k
    ensures r.matrixCount + k < |Matrix| ==> Walk(r, k).iteration == r.iteration
    decreases k
  {
    if k > 0 {
      var r1 := LoopBackMatrix(r).(step := LoopBack);
      WalkVisitsInOrder(r1, k - 1);
      assert (r.matrixIndex + 1) % |Matrix| + (k - 1) == r.matrixIndex + k
             || (r.matrixIndex + 1) % |Matrix| + (k - 1) == r.matrixIndex + k - |Matrix|;
    }
  }

  /**
   * The count is never reset between iterations: once a walk has completed
   * the matrix, every later `loop_back` runs the base `loop_back`, so each
   * later iteration covers a single entry.
   */
  lemma LaterIterationsTakeOneEntry(r: Run)
    requires r.step == LoopBack && r.matrixCount >= |Matrix|
    ensures LoopBackMatrix(r).iteration == r.iteration + 1
    ensures LoopBackMatrix(r).matrixCount > |Matrix|
  {
  }
}
