/**
 * Test 4, "Open and Close Valve": each iteration bumps the requested-state
 * counter and asks for the opposite valve state, in one request, then waits
 * until the device reports both.
 */
module OpenClose {
  import opened Wrappers
  import opened Json
  import opened Numerals
  import opened Shadow
  import opened Coordination
  import opened TestBase

  /** The two fields of the `requested` section this test drives. */
  const Params: seq<Item> := [RequestedValveStateCounter, RequestedValveStateReq]

  /** The counter part of the request: the fields and document after it, or the exception `int()` raised. */
  datatype CounterStep = Bumped(b: Built) | Failed(error: string)

  /**
   * The counter, when the incoming document reports it: read it, ask for one
   * more than its value, and write that into the (empty) outgoing document.
   * A value `int()` cannot convert raises; an unreported counter is skipped.
   */
  function BumpCounter(slots: Slots, incoming: Doc): (c: CounterStep)
    ensures c.Failed? <==>
              LookupDoc(incoming, ReportedPath(RequestedValveStateCounter)).Some?
              && IntOf(LookupDoc(incoming, ReportedPath(RequestedValveStateCounter))).Raised?
    ensures c.Failed? ==> c.error == IntOf(LookupDoc(incoming, ReportedPath(RequestedValveStateCounter))).error
    ensures c.Bumped? ==> Writable(c.b.doc)
  {
    var r := ReadReported(slots, incoming, RequestedValveStateCounter);
    if !r.found then Bumped(Built(slots, map[]))
    else
      match IntOf(Reported(r.slots, RequestedValveStateCounter))
      case Raised(e) => Failed(e)
      case Converted(n) =>
        var d := IntToString(n + 1);
        SetDesiredKeepsWritable(map[], RequestedValveStateCounter, d);
        Bumped(Built(SetDesiredSlot(r.slots, RequestedValveStateCounter, d), SetDesired(map[], RequestedValveStateCounter, d)))
  }

  /**
   * What the counter step writes: nothing when the counter is not reported;
   * otherwise one more than its value, in the slots and as the only write of
   * the document. No other field's desired value changes.
   */
  lemma BumpCounterWrites(slots: Slots, incoming: Doc)
    requires BumpCounter(slots, incoming).Bumped?
    ensures var c := BumpCounter(slots, incoming);
            LookupDoc(incoming, ReportedPath(RequestedValveStateCounter)).None? ==> c == Bumped(Built(slots, map[]))
    ensures var c := BumpCounter(slots, incoming);
            forall j :: j != RequestedValveStateCounter ==> Desired(c.b.slots, j) == Desired(slots, j)
    ensures var c := BumpCounter(slots, incoming);
            LookupDoc(incoming, ReportedPath(RequestedValveStateCounter)).Some? ==>
              var n := IntOf(LookupDoc(incoming, ReportedPath(RequestedValveStateCounter))).n;
              && Desired(c.b.slots, RequestedValveStateCounter) == Some(IntToString(n + 1))
              && c.b.doc == SetDesired(map[], RequestedValveStateCounter, IntToString(n + 1))
  {
  }

  /** Both writes of the request read back, each at its own path, in every combination of the two. */
  lemma RequestReadsBack(counter: Option<string>, req: string)
    ensures var d1 := if counter.Some? then SetDesired(map[], RequestedValveStateCounter, counter.value) else map[];
            && Writable(d1)
            && LookupDoc(SetDesired(d1, RequestedValveStateReq, req), DesiredPath(RequestedValveStateReq)) == Some(Str(req))
            && (counter.Some? ==>
                  LookupDoc(SetDesired(d1, RequestedValveStateReq, req), DesiredPath(RequestedValveStateCounter))
                  == Some(Str(counter.value)))
  {
    if counter.Some? {
      SameCategoryPair(RequestedValveStateCounter, RequestedValveStateReq, counter.value, req);
    } else {
      SetDesiredFresh(map[], RequestedValveStateReq, req);
    }
  }

  /**
   * The request of one iteration, built into an empty document: one more
   * than the reported counter and the opposite of the reported valve state,
   * each only when reported; the exception `int()` raises on a counter it
   * cannot convert. What the request holds is stated by the lemmas below.
   */
  function BuildRequest(slots: Slots, incoming: Doc): (c: CounterStep)
    ensures var counter := LookupDoc(incoming, ReportedPath(RequestedValveStateCounter));
            c.Failed? <==> counter.Some? && IntOf(counter).Raised?
    ensures c.Failed? ==> c.error == IntOf(LookupDoc(incoming, ReportedPath(RequestedValveStateCounter))).error
  {
    match BumpCounter(slots, incoming)
    case Failed(e) => Failed(e)
    case Bumped(b1) => Bumped(ToggleOne(b1.slots, incoming, b1.doc, RequestedValveStateReq))
  }

  /** The counter's document: its write when it is reported, empty otherwise. */
  lemma CounterDoc(slots: Slots, incoming: Doc)
    requires BumpCounter(slots, incoming).Bumped?
    ensures var counter := LookupDoc(incoming, ReportedPath(RequestedValveStateCounter));
            var next := if counter.Some? then Some(IntToString(IntOf(counter).n + 1)) else None;
            BumpCounter(slots, incoming).b.doc
            == if next.Some? then SetDesired(map[], RequestedValveStateCounter, next.value) else map[]
  {
    BumpCounterWrites(slots, incoming);
  }

  /** The valve-state write that follows the counter leaves the counter readable at its own path. */
  lemma ValveWriteKeepsCounter(d1: Doc, slots1: Slots, incoming: Doc, next: Option<string>)
    requires d1 == if next.Some? then SetDesired(map[], RequestedValveStateCounter, next.value) else map[]
    ensures Writable(d1)
    ensures next.Some? ==>
              LookupDoc(ToggleOne(slots1, incoming, d1, RequestedValveStateReq).doc, DesiredPath(RequestedValveStateCounter))
              == Some(Str(next.value))
  {
    var req := LookupDoc(incoming, ReportedPath(RequestedValveStateReq));
    if req.Some? {
      RequestReadsBack(next, Toggle(RequestedValveStateReq, req));
    } else if next.Some? {
      RequestReadsBack(next, "");
      SetDesiredFresh(map[], RequestedValveStateCounter, next.value);
    }
  }

  /** A reported counter is asked for one more than its value, in the slots and in the document. */
  lemma BuildRequestCounter(slots: Slots, incoming: Doc)
    requires BuildRequest(slots, incoming).Bumped?
    requires LookupDoc(incoming, ReportedPath(RequestedValveStateCounter)).Some?
    ensures var counter := LookupDoc(incoming, ReportedPath(RequestedValveStateCounter));
            var next := IntToString(IntOf(counter).n + 1);
            Asks(BuildRequest(slots, incoming).b, RequestedValveStateCounter, next)
  {
    var counter := LookupDoc(incoming, ReportedPath(RequestedValveStateCounter));
    var b1 := BumpCounter(slots, incoming).b;
    BumpCounterWrites(slots, incoming);
    CounterDoc(slots, incoming);
    ValveWriteKeepsCounter(b1.doc, b1.slots, incoming, Some(IntToString(IntOf(counter).n + 1)));
  }

  /** The valve-state write, after the counter's, reads back at its own path. */
  lemma ValveWriteReadsBack(d1: Doc, slots1: Slots, incoming: Doc, next: Option<string>)
    requires d1 == if next.Some? then SetDesired(map[], RequestedValveStateCounter, next.value) else map[]
    requires LookupDoc(incoming, ReportedPath(RequestedValveStateReq)).Some?
    ensures Writable(d1)
    ensures var req := LookupDoc(incoming, ReportedPath(RequestedValveStateReq));
            LookupDoc(ToggleOne(slots1, incoming, d1, RequestedValveStateReq).doc, DesiredPath(RequestedValveStateReq))
            == Some(Str(Toggle(RequestedValveStateReq, req)))
  {
    RequestReadsBack(next, Toggle(RequestedValveStateReq, LookupDoc(incoming, ReportedPath(RequestedValveStateReq))));
  }

  /** A reported valve state is asked for its opposite, in the slots and in the document. */
  lemma BuildRequestValve(slots: Slots, incoming: Doc)
    requires BuildRequest(slots, incoming).Bumped?
    requires LookupDoc(incoming, ReportedPath(RequestedValveStateReq)).Some?
    ensures Asks(BuildRequest(slots, incoming).b, RequestedValveStateReq,
                 Toggle(RequestedValveStateReq, LookupDoc(incoming, ReportedPath(RequestedValveStateReq))))
  {
    var counter := LookupDoc(incoming, ReportedPath(RequestedValveStateCounter));
    var b1 := BumpCounter(slots, incoming).b;
    CounterDoc(slots, incoming);
    ValveAsks(b1, incoming, if counter.Some? then Some(IntToString(IntOf(counter).n + 1)) else None);
  }

  /** After the counter's write, the valve-state write asks for the toggled state, in the slots and in the document. */
  lemma ValveAsks(b1: Built, incoming: Doc, next: Option<string>)
    requires b1.doc == if next.Some? then SetDesired(map[], RequestedValveStateCounter, next.value) else map[]
    requires LookupDoc(incoming, ReportedPath(RequestedValveStateReq)).Some?
    ensures Writable(b1.doc)
    ensures Asks(ToggleOne(b1.slots, incoming, b1.doc, RequestedValveStateReq), RequestedValveStateReq,
                 Toggle(RequestedValveStateReq, LookupDoc(incoming, ReportedPath(RequestedValveStateReq))))
  {
    ValveWriteReadsBack(b1.doc, b1.slots, incoming, next);
  }

  /** With neither field reported the request is empty, and no desired value outside the two fields ever changes. */
  lemma BuildRequestFrame(slots: Slots, incoming: Doc)
    requires BuildRequest(slots, incoming).Bumped?
    ensures var c := BuildRequest(slots, incoming);
            (&& LookupDoc(incoming, ReportedPath(RequestedValveStateCounter)).None?
             && LookupDoc(incoming, ReportedPath(RequestedValveStateReq)).None?) ==> c.b.doc == map[]
    ensures var c := BuildRequest(slots, incoming);
            forall j :: j !in Params ==> Desired(c.b.slots, j) == Desired(slots, j)
  {
    BumpCounterWrites(slots, incoming);
  }

  /**
   * `run_one_iteration`: subscribe to updates, empty the outgoing document,
   * and send the iteration's request as one update. An unconvertible
   * counter ends the run with the exception, after the subscription went
   * out.
   */
  function RunOneIteration(w: World): (t: TickResult)
    requires w.run.step == RunIteration
    ensures t.outcome.Crash? <==> BuildRequest(w.slots, w.coord.incoming).Failed?
    ensures t.outcome.Crash? ==> t.requests == [Subscribe(AnyShadowUpdate)]
    ensures t.outcome.Crash? || t.outcome == Continue
    ensures t.outcome == Continue ==>
              && t.world.run == w.run.(step := VerifyIteration)
              && t.world.coord == w.coord.(outgoing := BuildRequest(w.slots, w.coord.incoming).b.doc)
              && t.world.slots == BuildRequest(w.slots, w.coord.incoming).b.slots
              && t.requests == [Subscribe(AnyShadowUpdate), Update(t.world.coord.outgoing, MyShadowUpdate)]
  {
    var coord := w.coord.(outgoing := map[]);
    match BuildRequest(w.slots, w.coord.incoming)
    case Failed(e) => TickResult(w.(coord := coord), Crash(e), [Subscribe(AnyShadowUpdate)])
    case Bumped(b) =>
      TickResult(World(w.run.(step := Advance(RunIteration)), coord.(outgoing := b.doc), b.slots), Continue,
                 [Subscribe(AnyShadowUpdate), Update(b.doc, MyShadowUpdate)])
  }

  /**
   * The counter only moves forward: after an iteration that read count `n`,
   * the value asked for converts back to exactly `n + 1`, so a device that
   * echoes it is bumped to `n + 2` on the next iteration.
   */
  lemma CounterAdvancesByOne(slots: Slots, incoming: Doc)
    requires LookupDoc(incoming, ReportedPath(RequestedValveStateCounter)).Some?
    requires BuildRequest(slots, incoming).Bumped?
    ensures var n := IntOf(LookupDoc(incoming, ReportedPath(RequestedValveStateCounter))).n;
            IntOf(Some(Str(Desired(BuildRequest(slots, incoming).b.slots, RequestedValveStateCounter).value))) == Converted(n + 1)
  {
    var n := IntOf(LookupDoc(incoming, ReportedPath(RequestedValveStateCounter))).n;
    BuildRequestCounter(slots, incoming);
    IntOfPrinted(n + 1);
  }

  /** A device reporting an open valve (`"1"`) is asked to close it (`"2"`), and the other way round. */
  lemma RequestFlipsValve(slots: Slots, incoming: Doc)
    requires BuildRequest(slots, incoming).Bumped?
    requires LookupDoc(incoming, ReportedPath(RequestedValveStateReq)) in {Some(Str("1")), Some(Str("2"))}
    ensures var asked := Desired(BuildRequest(slots, incoming).b.slots, RequestedValveStateReq);
            asked.Some? && asked.value in {"1", "2"}
            && Some(Str(asked.value)) != LookupDoc(incoming, ReportedPath(RequestedValveStateReq))
  {
    BuildRequestValve(slots, incoming);
    ValveFlips(LookupDoc(incoming, ReportedPath(RequestedValveStateReq)));
  }

  /** Toggling the valve request from open gives closed, and from closed gives open. */
  lemma ValveFlips(req: Option<Json>)
    requires req in {Some(Str("1")), Some(Str("2"))}
    ensures Toggle(RequestedValveStateReq, req) in {"1", "2"}
    ensures Some(Str(Toggle(RequestedValveStateReq, req))) != req
  {
    ToggleMovesAway(RequestedValveStateReq, req);
  }

  /**
   * `verify_one_iteration`: move on only when an update reports both fields
   * at their desired values; there is no timeout, so without updates the
   * test waits for ever.
   */
  function VerifyOneIteration(w: World): (t: TickResult)
    requires w.run.step == VerifyIteration
    ensures !w.coord.updateAccepted ==> t == Quiet(w)
    ensures t.outcome == Exit(3) <==> w.coord.updateAccepted && ValveFault(w.coord.incoming)
    ensures t.outcome == Continue ==>
              (t.world.run.step == LoopBack <==>
                 w.coord.updateAccepted && forall k :: 0 <= k < |Params| ==> Converged(w.slots, w.coord.incoming, Params[k]))
  {
    VerifyAllMatch(w, Params)
  }

  /**
   * A device that applies the request and reports both fields back (with no
   * valve fault) completes the iteration on the next update.
   */
  lemma EchoCompletesIteration(w: World, echo: Doc)
    requires w.run.step == VerifyIteration && w.coord.updateAccepted && w.coord.incoming == echo
    requires forall k :: 0 <= k < |Params| ==> Desired(w.slots, Params[k]).Some?
    requires forall k :: 0 <= k < |Params| ==>
               LookupDoc(echo, ReportedPath(Params[k])) == Some(Str(Desired(w.slots, Params[k]).value))
    requires !ValveFault(echo)
    ensures VerifyOneIteration(w).world.run.step == LoopBack
  {
    assert forall k :: 0 <= k < |Params| ==> Converged(w.slots, echo, Params[k]);
  }

  /** After a request in which both fields were reported, the fields it asked for are exactly the ones an echo must report. */
  lemma RequestAsksForBoth(slots: Slots, incoming: Doc)
    requires forall k :: 0 <= k < |Params| ==> LookupDoc(incoming, ReportedPath(Params[k])).Some?
    requires BuildRequest(slots, incoming).Bumped?
    ensures forall k :: 0 <= k < |Params| ==>
              var asked := Desired(BuildRequest(slots, incoming).b.slots, Params[k]);
              asked.Some? && LookupDoc(BuildRequest(slots, incoming).b.doc, DesiredPath(Params[k])) == Some(Str(asked.value))
  {
    assert LookupDoc(incoming, ReportedPath(Params[0])).Some?;
    assert LookupDoc(incoming, ReportedPath(Params[1])).Some?;
    BuildRequestCounter(slots, incoming);
    BuildRequestValve(slots, incoming);
    WritesBoth(BuildRequest(slots, incoming).b);
  }

  /** A request holding each field's desired value at its path holds it for every field of the test. */
  lemma WritesBoth(b: Built)
    requires Desired(b.slots, RequestedValveStateCounter).Some?
    requires LookupDoc(b.doc, DesiredPath(RequestedValveStateCounter)) == Some(Str(Desired(b.slots, RequestedValveStateCounter).value))
    requires Desired(b.slots, RequestedValveStateReq).Some?
    requires LookupDoc(b.doc, DesiredPath(RequestedValveStateReq)) == Some(Str(Desired(b.slots, RequestedValveStateReq).value))
    ensures forall k :: 0 <= k < |Params| ==>
              Desired(b.slots, Params[k]).Some? && LookupDoc(b.doc, DesiredPath(Params[k])) == Some(Str(Desired(b.slots, Params[k]).value))
  {
  }
}
