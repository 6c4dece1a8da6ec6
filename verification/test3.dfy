/**
 * Test 3, "Change Multiple Parameters": each iteration toggles five
 * parameters in one request and waits until all five are reported.
 */
module MultipleParameters {
  import opened Wrappers
  import opened Json
  import opened Shadow
  import opened Coordination
  import opened TestBase

  /** The parameters toggled together (the adc sample count and the four motor timings). */
  const Params: seq<Item> := [AdcNumsamples, MotorDelayT, MotorMaxI, MotorMaxT, MotorBackT]

  lemma ParamsToggle()
    ensures forall k :: 0 <= k < |Params| ==> HasToggle(Params[k])
  {
  }

  /** `get_current_item`: the parameter of this iteration's position in the list. */
  function CurrentItem(iteration: int): (i: Item)
    ensures i in Params
  {
    Params[iteration % |Params|]
  }

  /**
   * The iteration's request, built from an empty document: every parameter
   * the incoming document reports asks for its toggled value, the others
   * are untouched, and with nothing reported the request is empty.
   */
  function BuildRequest(slots: Slots, incoming: Doc): (b: Built)
    ensures forall i :: i in Params && LookupDoc(incoming, ReportedPath(i)).Some? ==>
              HasToggle(i) && Desired(b.slots, i) == Some(Toggle(i, LookupDoc(incoming, ReportedPath(i))))
    ensures forall i :: i !in Params || LookupDoc(incoming, ReportedPath(i)).None? ==>
              Desired(b.slots, i) == Desired(slots, i)
    ensures (forall k :: 0 <= k < |Params| ==> LookupDoc(incoming, ReportedPath(Params[k])).None?) ==> b.doc == map[]
  {
    ParamsToggle();
    ToggleAll(slots, incoming, map[], Params)
  }

  /**
   * `run_one_iteration`: subscribe to updates, empty the outgoing document,
   * ask for the toggled value of every parameter the incoming document
   * reports, and send the result as one update, whatever it holds.
   */
  function RunOneIteration(w: World): (t: TickResult)
    requires w.run.step == RunIteration
    ensures t.world.run == w.run.(step := VerifyIteration) && t.outcome == Continue
    ensures t.requests == [Subscribe(AnyShadowUpdate), Update(t.world.coord.outgoing, MyShadowUpdate)]
    ensures t.world.coord == w.coord.(outgoing := t.world.coord.outgoing)
    ensures t.world.coord.outgoing == BuildRequest(w.slots, w.coord.incoming).doc
    ensures t.world.slots == BuildRequest(w.slots, w.coord.incoming).slots
  {
    var b := BuildRequest(w.slots, w.coord.incoming);
    TickResult(World(w.run.(step := Advance(RunIteration)), w.coord.(outgoing := b.doc), b.slots), Continue,
               [Subscribe(AnyShadowUpdate), Update(b.doc, MyShadowUpdate)])
  }

  /**
   * `verify_one_iteration`: move on only when an update reports all five
   * parameters at their desired values; there is no timeout, so without
   * updates the test waits for ever.
   */
  function VerifyOneIteration(w: World): (t: TickResult)
    requires w.run.step == VerifyIteration
    ensures t == VerifyAllMatch(w, Params)
    ensures !w.coord.updateAccepted ==> t == Quiet(w)
  {
    VerifyAllMatch(w, Params)
  }

  /** The path the motor delay actually lands at when the adc parameter was written first. */
  const MisplacedDelayPath: seq<string> := ["state", "desired", "motor", "motor", "delayT"]

  /**
   * The shape the request is left in by the nesting quirk of this test: a
   * `motor` section exists under `desired`, the motor delay is absent from
   * its own path and sits one level too deep, holding `vd`.
   */
  predicate MotorMisplaced(d: Doc, vd: string) {
    && Writable(d)
    && LookupDoc(d, ["state", "desired", "motor"]).Some?
    && LookupDoc(d, DesiredPath(MotorDelayT)) == None
    && LookupDoc(d, MisplacedDelayPath) == Some(Str(vd))
  }

  /** The toggled value the request asks for, for a reported parameter. */
  function AskedFor(incoming: Doc, i: Item): string
    requires HasToggle(i)
  {
    Toggle(i, LookupDoc(incoming, ReportedPath(i)))
  }

  /** The adc write into an empty document builds `state.desired` holding only the adc section. */
  lemma AdcFirst(va: string)
    ensures var d1 := SetDesired(map[], AdcNumsamples, va);
            Writable(d1) && "state" in d1 && d1["state"].Obj? && "desired" in d1["state"].fields
            && d1["state"].fields["desired"].Obj? && "motor" !in d1["state"].fields["desired"].fields
  {
    SetDesiredKeepsWritable(map[], AdcNumsamples, va);
  }

  /** Writing the delay where no motor section exists nests it one level too deep. */
  lemma DelayIntoMissingMotor(d1: Doc, vd: string)
    requires Writable(d1) && "state" in d1 && d1["state"].Obj? && "desired" in d1["state"].fields
    requires d1["state"].fields["desired"].Obj? && "motor" !in d1["state"].fields["desired"].fields
    ensures MotorMisplaced(SetDesired(d1, MotorDelayT, vd), vd)
  {
    SetDesiredKeepsWritable(d1, MotorDelayT, vd);
    var d2 := SetDesired(d1, MotorDelayT, vd);
    SetDesiredMissingCategory(d1, MotorDelayT, vd);
    var section := ["state", "desired", "motor"];
    LookupPrefix(Obj(d2), section, ["motor", "delayT"]);
    assert MisplacedDelayPath == section + ["motor", "delayT"];
    LookupNest(["motor", "delayT"], Str(vd));
  }

  /** The motor fields other than the delay: their keys are neither `delayT` nor the section name. */
  lemma MotorKeyDiffers(i: Item)
    requires Cat(i) == Motor && i != MotorDelayT
    ensures DesiredPath(i) == ["state", "desired", "motor", Key(i)]
    ensures Key(i) != "delayT" && Key(i) != "motor"
  {
  }

  /** Paths that differ at some position are neither a prefix of the other. */
  lemma Diverge(p: seq<string>, q: seq<string>, k: nat)
    requires k < |p| && k < |q| && p[k] != q[k]
    ensures !(p <= q) && !(q <= p)
  {
  }

  /** A later motor write keeps the motor section in place. */
  lemma MergeKeepsSection(doc: Doc, i: Item, v: string, vd: string)
    requires MotorMisplaced(doc, vd) && Cat(i) == Motor && i != MotorDelayT
    ensures LookupDoc(SetDesired(doc, i, v), ["state", "desired", "motor"]).Some?
  {
    MotorKeyDiffers(i);
    assert WritablePath(doc, i);
    HasSectionFromLookup(doc, i);
    SetDesiredMerge(doc, i, v);
    var section := ["state", "desired", "motor"];
    assert section + [Key(i)] == DesiredPath(i);
    LookupPrefixSome(Obj(SetDesired(doc, i, v)), section, [Key(i)]);
  }

  /** A later motor write leaves the delay's own path empty. */
  lemma MergeLeavesDelayAbsent(doc: Doc, i: Item, v: string, vd: string)
    requires MotorMisplaced(doc, vd) && Cat(i) == Motor && i != MotorDelayT
    ensures LookupDoc(SetDesired(doc, i, v), DesiredPath(MotorDelayT)) == None
  {
    MotorKeyDiffers(i);
    assert WritablePath(doc, i);
    HasSectionFromLookup(doc, i);
    var q := DesiredPath(MotorDelayT);
    assert q[3] == "delayT";
    Diverge(DesiredPath(i), q, 3);
    SetDesiredMerge(doc, i, v);
  }

  /** A later motor write leaves the misplaced delay where it is. */
  lemma MergeLeavesMisplaced(doc: Doc, i: Item, v: string, vd: string)
    requires MotorMisplaced(doc, vd) && Cat(i) == Motor && i != MotorDelayT
    ensures LookupDoc(SetDesired(doc, i, v), MisplacedDelayPath) == Some(Str(vd))
  {
    MotorKeyDiffers(i);
    assert WritablePath(doc, i);
    HasSectionFromLookup(doc, i);
    Diverge(DesiredPath(i), MisplacedDelayPath, 3);
    SetDesiredMerge(doc, i, v);
  }

  /** A motor parameter other than the delay merges into the existing motor section and leaves the misplaced delay alone. */
  lemma MergeKeepsDelay(doc: Doc, i: Item, v: string, vd: string)
    requires MotorMisplaced(doc, vd) && Cat(i) == Motor && i != MotorDelayT
    ensures MotorMisplaced(SetDesired(doc, i, v), vd)
  {
    SetDesiredKeepsWritable(doc, i, v);
    MergeKeepsSection(doc, i, v, vd);
    MergeLeavesDelayAbsent(doc, i, v, vd);
    MergeLeavesMisplaced(doc, i, v, vd);
  }

  /** The document half of `ToggleOne`: a reported parameter's toggled value merged in, nothing otherwise. */
  function WriteOne(incoming: Doc, out: Doc, i: Item): (d: Doc)
    requires Writable(out) && HasToggle(i)
    ensures Writable(d)
    ensures LookupDoc(incoming, ReportedPath(i)).None? ==> d == out
  {
    if LookupDoc(incoming, ReportedPath(i)).Some? then
      SetDesiredKeepsWritable(out, i, AskedFor(incoming, i));
      SetDesired(out, i, AskedFor(incoming, i))
    else out
  }

  /** The document half of `ToggleAll`: `WriteOne` for each parameter in turn. */
  function WriteAll(incoming: Doc, out: Doc, items: seq<Item>): (d: Doc)
    requires Writable(out)
    requires forall k :: 0 <= k < |items| ==> HasToggle(items[k])
    ensures Writable(d)
    decreases |items|
  {
    if |items| == 0 then out else WriteAll(incoming, WriteOne(incoming, out, items[0]), items[1..])
  }

  /** The document `ToggleAll` builds depends only on the incoming document, never on the fields' bookkeeping. */
  lemma {:induction false} ToggleAllWrites(slots: Slots, incoming: Doc, out: Doc, items: seq<Item>)
    requires Writable(out)
    requires forall k :: 0 <= k < |items| ==> HasToggle(items[k])
    ensures ToggleAll(slots, incoming, out, items).doc == WriteAll(incoming, out, items)
    decreases |items|
  {
    if |items| > 0 {
      var first := ToggleOne(slots, incoming, out, items[0]);
      assert first.doc == WriteOne(incoming, out, items[0]);
      ToggleAllWrites(first.slots, incoming, first.doc, items[1..]);
    }
  }

  /** Any run of later motor parameters (never the delay) keeps the misplaced shape. */
  lemma {:induction false} MotorMergesKeepDelay(incoming: Doc, out: Doc, items: seq<Item>, vd: string)
    requires MotorMisplaced(out, vd)
    requires forall k :: 0 <= k < |items| ==> HasToggle(items[k]) && Cat(items[k]) == Motor && items[k] != MotorDelayT
    ensures MotorMisplaced(WriteAll(incoming, out, items), vd)
    decreases |items|
  {
    if |items| > 0 {
      if LookupDoc(incoming, ReportedPath(items[0])).Some? {
        MergeKeepsDelay(out, items[0], AskedFor(incoming, items[0]), vd);
      }
      MotorMergesKeepDelay(incoming, WriteOne(incoming, out, items[0]), items[1..], vd);
    }
  }

  const MotorRest: seq<Item> := [MotorMaxI, MotorMaxT, MotorBackT]

  lemma MotorTail()
    ensures forall k :: 0 <= k < |MotorRest| ==> HasToggle(MotorRest[k]) && Cat(MotorRest[k]) == Motor && MotorRest[k] != MotorDelayT
  {
  }

  /** The request's document is the converter's sample count, then the motor delay, then the remaining motor parameters. */
  lemma RequestAfterTwo(incoming: Doc)
    ensures forall k :: 0 <= k < |MotorRest| ==> HasToggle(MotorRest[k])
    ensures WriteAll(incoming, map[], Params)
            == WriteAll(incoming, WriteOne(incoming, WriteOne(incoming, map[], AdcNumsamples), MotorDelayT), MotorRest)
  {
    MotorTail();
    assert Params[1..] == [MotorDelayT] + MotorRest;
    assert Params[1..][1..] == MotorRest;
  }

  /** With both reported, the first two writes leave the motor delay one level too deep. */
  lemma AdcThenDelay(incoming: Doc)
    requires LookupDoc(incoming, ReportedPath(AdcNumsamples)).Some?
    requires LookupDoc(incoming, ReportedPath(MotorDelayT)).Some?
    ensures MotorMisplaced(WriteOne(incoming, WriteOne(incoming, map[], AdcNumsamples), MotorDelayT), AskedFor(incoming, MotorDelayT))
  {
    AdcFirst(AskedFor(incoming, AdcNumsamples));
    DelayIntoMissingMotor(WriteOne(incoming, map[], AdcNumsamples), AskedFor(incoming, MotorDelayT));
  }

  /**
   * The nesting quirk in this test: the adc parameter comes first and
   * creates `state.desired.adc`, so the motor delay finds no `motor` section
   * and is written one level too deep; the three later motor parameters
   * merge into the section that write created. Whenever the adc parameter
   * and the delay are both reported, the request never carries the delay at
   * its own path.
   */
  lemma DelayIsWrittenTooDeep(slots: Slots, incoming: Doc)
    requires LookupDoc(incoming, ReportedPath(AdcNumsamples)).Some?
    requires LookupDoc(incoming, ReportedPath(MotorDelayT)).Some?
    ensures var delay := AskedFor(incoming, MotorDelayT);
            MotorMisplaced(BuildRequest(slots, incoming).doc, delay)
  {
    ParamsToggle();
    ToggleAllWrites(slots, incoming, map[], Params);
    var d2 := WriteOne(incoming, WriteOne(incoming, map[], AdcNumsamples), MotorDelayT);
    AdcThenDelay(incoming);
    RequestAfterTwo(incoming);
    MotorTail();
    MotorMergesKeepDelay(incoming, d2, MotorRest, AskedFor(incoming, MotorDelayT));
  }
}
