/**
 * Test 1, "Update Frequency": send nothing, and wait each iteration for the
 * device's own periodic update of the shadow.
 */
module UpdateFrequency {
  import opened Json
  import opened Shadow
  import opened Coordination
  import opened TestBase

  /** `run_one_iteration`: subscribe to every update notification and start waiting; nothing is sent. */
  function RunOneIteration(w: World): (t: TickResult)
    requires w.run.step == RunIteration
    ensures t.world == w.(run := w.run.(step := VerifyIteration))
    ensures t.requests == [Subscribe(AnyShadowUpdate)] && t.outcome == Continue
    ensures forall k :: 0 <= k < |t.requests| ==> !t.requests[k].Update?
  {
    TickResult(w.(run := w.run.(step := Advance(RunIteration))), Continue, [Subscribe(AnyShadowUpdate)])
  }

  /**
   * `verify_one_iteration`: the base timeout handling runs first; then any
   * update notification is consumed, checked for valve faults, and advances
   * the step once more.
   */
  function VerifyOneIteration(w: World, now: real): (t: TickResult)
    requires w.run.step == VerifyIteration
    ensures t.requests == []
    ensures t.world.run.failures == IterationTimeout(w.run, now).failures
    ensures t.world.run.iteration == w.run.iteration
    ensures !w.coord.updateAccepted ==> t == Quiet(w.(run := IterationTimeout(w.run, now)))
    ensures t.outcome == Exit(3) <==> w.coord.updateAccepted && ValveFault(w.coord.incoming)
    ensures t.outcome != Exit(3) ==> t.outcome == Continue
    ensures w.coord.updateAccepted && t.outcome == Continue ==>
              t.world.run.step == Advance(IterationTimeout(w.run, now).step)
    ensures !t.world.coord.updateAccepted
  {
    var w1 := w.(run := IterationTimeout(w.run, now));
    if w1.coord.updateAccepted then
      var coord := w1.coord.(updateAccepted := false);
      var check := CheckValveParams(w1.slots, coord.incoming);
      if check.fault then TickResult(w1.(coord := coord, slots := check.slots), Exit(3), [])
      else Quiet(w1.(coord := coord, slots := check.slots, run := w1.run.(step := Advance(w1.run.step))))
    else Quiet(w1)
  }

  /** An update that arrives within the cycle ends the iteration with no failure counted. */
  lemma UpdateInTimeSucceeds(w: World, now: real)
    requires w.run.step == VerifyIteration && w.coord.updateAccepted && !ValveFault(w.coord.incoming)
    requires !CycleExpired(w.run, now)
    ensures VerifyOneIteration(w, now).world.run.step == LoopBack
    ensures VerifyOneIteration(w, now).world.run.failures == w.run.failures
  {
  }

  /**
   * When the last cycle times out on the same tick an update arrives, the
   * step advances twice: past `LoopBack` to `Finish`, with one failure
   * counted and the iteration count untouched, so the remaining iterations
   * are skipped.
   */
  lemma DoubleAdvanceSkipsLoopBack(w: World)
    requires w.run.step == VerifyIteration && w.coord.updateAccepted && !ValveFault(w.coord.incoming)
    requires w.run.cycle + 1 == w.run.config.cycles
    requires w.run.iteration + 1 < w.run.config.iterations
    ensures VerifyOneIteration(w, Deadline(w.run)).world.run.step == Finish
    ensures VerifyOneIteration(w, Deadline(w.run)).world.run.failures == w.run.failures + 1
    ensures VerifyOneIteration(w, Deadline(w.run)).world.run.iteration < w.run.config.iterations - 1
  {
    assert CycleExpired(w.run, Deadline(w.run));
  }
}
