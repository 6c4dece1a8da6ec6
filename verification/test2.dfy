/**
 * Test 2, "Change Single Parameter": each iteration toggles one parameter,
 * chosen round-robin from a fixed list, and waits for the device to report it.
 */
module SingleParameter {
  import opened Wrappers
  import opened Json
  import opened Numerals
  import opened Shadow
  import opened Coordination
  import opened TestBase

  /** The parameters in the order iterations visit them (ball valve, then gate valve). */
  const Params: seq<Item> := [
    AdcNumsamples, MotorDelayT,
    ValveType, MotorMaxI, MotorMaxT, MotorBackT,
    ValveType, MotorMaxI, MotorMaxT, MotorBackT]

  /** `get_current_item`: the parameter of this iteration, a toggleable one from the list. */
  function CurrentItem(iteration: int): (i: Item)
    ensures i in Params && HasToggle(i)
  {
    Params[iteration % |Params|]
  }

  /** The choice is round-robin: it repeats every ten iterations and visits the list in order. */
  lemma CurrentItemIsRoundRobin(n: int)
    ensures CurrentItem(n + |Params|) == CurrentItem(n)
    ensures 0 <= n < |Params| ==> CurrentItem(n) == Params[n]
  {
    ModShift(n);
  }

  /** Adding one full round to the iteration number leaves its position in the list unchanged. */
  lemma ModShift(n: int)
    ensures (n + 10) % 10 == n % 10
  {
    var q := n / 10;
    assert n == 10 * q + n % 10;
    assert n + 10 == 10 * (q + 1) + n % 10;
  }

  // ----- bootstrap overrides -----

  /** The literal bootstrap document this test builds, with the multiplier under `sleep_multiplier`. */
  function LiteralInitialDocument(connectNotFlowing: int, sleepMultiplier: int): Doc {
    var wifi := map["connect_not_flowing" := Str(IntToString(connectNotFlowing)),
                    "sleep_multiplier" := Str(IntToString(sleepMultiplier))];
    map["state" := Obj(map["desired" := Obj(map["wifi" := Obj(wifi)])])]
  }

  /**
   * The literal document sets connect-not-flowing where the registry reads
   * it, but its multiplier key is not the registry's, so the multiplier the
   * bootstrap later waits for is absent from it.
   */
  lemma LiteralDocumentMissesMultiplier(cnf: int, sm: int)
    ensures LookupDoc(LiteralInitialDocument(cnf, sm), DesiredPath(WifiConnectNotFlowing))
            == Some(Str(IntToString(cnf)))
    ensures LookupDoc(LiteralInitialDocument(cnf, sm), DesiredPath(WifiConnectSleepMultiplier)) == None
  {
    var d := LiteralInitialDocument(cnf, sm);
    var wifi := d["state"].fields["desired"].fields["wifi"];
    assert wifi.fields == map["connect_not_flowing" := Str(IntToString(cnf)),
                              "sleep_multiplier" := Str(IntToString(sm))];
    assert Key(WifiConnectNotFlowing) == "connect_not_flowing";
    assert Key(WifiConnectSleepMultiplier) == "connect_sleep_multiplier";
    LiteralWifiLookup(d, "connect_not_flowing", WifiConnectNotFlowing);
    LiteralWifiLookup(d, "connect_sleep_multiplier", WifiConnectSleepMultiplier);
    assert ["connect_not_flowing"] == ["connect_not_flowing"] + [];
    assert ["connect_sleep_multiplier"] == ["connect_sleep_multiplier"] + [];
    LookupCons(wifi, "connect_not_flowing", []);
    LookupCons(wifi, "connect_sleep_multiplier", []);
  }

  /** Looking a wifi field up in the literal document is looking its key up in the `wifi` object. */
  lemma LiteralWifiLookup(d: Doc, key: string, i: Item)
    requires exists cnf, sm :: d == LiteralInitialDocument(cnf, sm)
    requires Cat(i) == Wifi && Key(i) == key
    ensures LookupDoc(d, DesiredPath(i)) == Lookup(d["state"].fields["desired"].fields["wifi"], [key])
  {
    var state := d["state"];
    var desired := state.fields["desired"];
    assert Section(i) == ["wifi", key];
    assert DesiredPath(i) == ["state"] + (["desired"] + (["wifi"] + [key]));
    LookupCons(Obj(d), "state", ["desired"] + (["wifi"] + [key]));
    LookupCons(state, "desired", ["wifi"] + [key]);
    LookupCons(desired, "wifi", [key]);
  }

  /**
   * `send_initial_update`: the base request, then this test's literal
   * document; both advance the step, so the update check is skipped and the
   * next tick already sends the get.
   */
  function SendInitialUpdate(w: World, now: real): (t: TickResult)
    requires w.run.step == SendUpdate
    ensures t.world.run.step == SendGet
    ensures t.world.run.cycle == 0 && t.world.run.cycleStart == now
    ensures !t.world.coord.updateAccepted && t.outcome == Continue
    ensures |t.requests| == 2
    ensures t.requests[0] == TestBase.SendInitialUpdate(w, now).requests[0]
    ensures t.requests[1] == Update(LiteralInitialDocument(w.run.config.connectNotFlowing, w.run.config.sleepMultiplier),
                                    SetInitialShadowValues)
  {
    SendLiteralUpdate(TestBase.SendInitialUpdate(w, now))
  }

  /** The second half of this test's `send_initial_update`: send the literal document and advance again. */
  function SendLiteralUpdate(base: TickResult): (t: TickResult)
    requires base.world.run.step == VerifyUpdate && |base.requests| == 1
    ensures t.world.run == base.world.run.(step := SendGet)
    ensures t.world.coord == base.world.coord.(updateAccepted := false) && t.outcome == Continue
    ensures t.requests == base.requests
              + [Update(LiteralInitialDocument(base.world.run.config.connectNotFlowing, base.world.run.config.sleepMultiplier),
                        SetInitialShadowValues)]
  {
    var cfg := base.world.run.config;
    var w1 := base.world.(coord := base.world.coord.(updateAccepted := false));
    TickResult(w1.(run := w1.run.(step := Advance(w1.run.step))), Continue,
               base.requests + [Update(LiteralInitialDocument(cfg.connectNotFlowing, cfg.sleepMultiplier), SetInitialShadowValues)])
  }

  /** `verify_initial_update`: take an accepted update, otherwise defer to the base step. */
  function VerifyInitialUpdate(w: World, now: real): (t: TickResult)
    requires w.run.step == VerifyUpdate
    ensures t.outcome == Continue && t.requests == []
  {
    if w.coord.updateAccepted then
      Quiet(w.(coord := w.coord.(updateAccepted := false), run := w.run.(step := Advance(VerifyUpdate))))
    else TestBase.VerifyInitialUpdate(w, now)
  }

  /** The override behaves exactly as the base step. */
  lemma VerifyInitialUpdateIsBase(w: World, now: real)
    requires w.run.step == VerifyUpdate
    ensures VerifyInitialUpdate(w, now) == TestBase.VerifyInitialUpdate(w, now)
  {
  }

  // ----- iteration -----

  /**
   * `run_one_iteration`: once a get has arrived, read the current parameter;
   * if it is present ask for its toggled value in a one-field document,
   * subscribe to updates, and start waiting. Otherwise keep waiting.
   */
  function RunOneIteration(w: World): (t: TickResult)
    requires w.run.step == RunIteration
    ensures t.outcome == Continue
    ensures !w.coord.getAccepted ==> t == Quiet(w)
    ensures t.world.run.step != RunIteration <==>
              w.coord.getAccepted && LookupDoc(w.coord.incoming, ReportedPath(CurrentItem(w.run.iteration))).Some?
    ensures t.world.run.step != RunIteration ==>
              var i := CurrentItem(w.run.iteration);
              var d := Toggle(i, LookupDoc(w.coord.incoming, ReportedPath(i)));
              && t.world.run.step == VerifyIteration
              && Desired(t.world.slots, i) == Some(d)
              && |t.requests| == 2 && t.requests[1] == Subscribe(AnyShadowUpdate)
              && t.requests[0].Update? && t.requests[0].handler == MyShadowUpdate
              && Obj(t.requests[0].doc) == Nest(DesiredPath(i), Str(d))
    ensures t.world.run.step == RunIteration ==> t.requests == []
  {
    if !w.coord.getAccepted then Quiet(w)
    else
      var coord := w.coord.(getAccepted := false);
      var i := CurrentItem(w.run.iteration);
      var r := ReadReported(w.slots, coord.incoming, i);
      if !r.found then Quiet(w.(coord := coord, slots := r.slots))
      else
        var d := Toggle(i, Reported(r.slots, i));
        var slots := SetDesiredSlot(r.slots, i, d);
        SetDesiredFresh(map[], i, d);
        var doc := SetDesired(map[], i, d);
        TickResult(World(w.run.(step := Advance(RunIteration)), coord, slots), Continue,
                   [Update(doc, MyShadowUpdate), Subscribe(AnyShadowUpdate)])
  }

  /** Scenario: a parameter reported at its first value is asked to take its second. */
  lemma FirstValueTogglesToSecond(w: World)
    requires w.run.step == RunIteration && w.coord.getAccepted
    requires var i := CurrentItem(w.run.iteration);
             LookupDoc(w.coord.incoming, ReportedPath(i)) == Some(Str(Val1(i)))
    ensures var i := CurrentItem(w.run.iteration);
            Desired(RunOneIteration(w).world.slots, i) == Some(Val2(i))
  {
  }

  /**
   * `verify_one_iteration`: the base timeout handling runs first; then an
   * update notification is consumed and advances the step once more if it
   * reports the current parameter at its desired value.
   */
  function VerifyOneIteration(w: World, now: real): (t: TickResult)
    requires w.run.step == VerifyIteration
    ensures t.requests == [] && t.outcome == Continue
    ensures t.world.run.failures == IterationTimeout(w.run, now).failures
    ensures !w.coord.updateAccepted ==> t == Quiet(w.(run := IterationTimeout(w.run, now)))
    ensures w.coord.updateAccepted ==>
              var i := CurrentItem(w.run.iteration);
              t.world.run.step == (if Converged(w.slots, w.coord.incoming, i)
                                   then Advance(IterationTimeout(w.run, now).step)
                                   else IterationTimeout(w.run, now).step)
    ensures !t.world.coord.updateAccepted
  {
    var w1 := w.(run := IterationTimeout(w.run, now));
    if w1.coord.updateAccepted then
      var coord := w1.coord.(updateAccepted := false);
      var i := CurrentItem(w1.run.iteration);
      var r := ReadReported(w1.slots, coord.incoming, i);
      assert r.found ==> (Matches(r.slots, i) <==> Converged(w1.slots, coord.incoming, i)) by {
        if r.found { MatchAfterRead(w1.slots, coord.incoming, i); }
      }
      var w2 := w1.(coord := coord, slots := r.slots);
      if r.found && Matches(r.slots, i) then Quiet(w2.(run := w2.run.(step := Advance(w2.run.step))))
      else Quiet(w2)
    else Quiet(w1)
  }
}
