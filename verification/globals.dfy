/**
 * The coordination record shared between the transport's response callbacks
 * and the polling state machine, and the callbacks that write it.
 */
module Coordination {
  import opened Json
  import opened Shadow

  /** Flags and documents the callbacks write and the state machine reads and clears. */
  datatype Coord = Coord(
    updateAccepted: bool,
    getAccepted: bool,
    abortFlag: bool,
    abortReason: string,
    incoming: Doc,
    outgoing: Doc)

  /** The record as the process starts. */
  function Initial(): (c: Coord)
    ensures !c.updateAccepted && !c.getAccepted
    ensures !c.abortFlag && c.abortReason == ""
    ensures c.incoming == map[] && c.outgoing == map[]
  {
    Coord(false, false, false, "", map[], map[])
  }

  /**
   * On a fresh record no field reads as reported, and the first desired write
   * into the outgoing document builds the whole `state`/`desired` wrapper.
   */
  lemma InitialDocuments(slots: Slots, i: Item, v: string)
    ensures !ReadReported(slots, Initial().incoming, i).found
    ensures ReadReported(slots, Initial().incoming, i).slots == slots
    ensures Writable(Initial().outgoing)
    ensures Obj(SetDesired(Initial().outgoing, i, v)) == Nest(DesiredPath(i), Str(v))
  {
    assert ReportedPath(i) == ["state"] + ReportedPath(i)[1..];
    LookupCons(Obj(map[]), "state", ReportedPath(i)[1..]);
    SetDesiredFresh(Initial().outgoing, i, v);
  }

  /** The status a response callback is called with. */
  datatype Response = Accepted | Rejected | TimedOut

  /** The callbacks the harness registers with its requests. */
  datatype Callback =
    | InitialUpdate           // callback_initial_update
    | InitialGet              // callback_initial_get
    | SetInitialShadowValues  // callback_set_initial_shadow_values
    | ShadowGet               // callback_shadow_get
    | MyShadowUpdate          // callback_my_shadow_update
    | AnyShadowUpdate         // callback_any_shadow_update

  function Abort(c: Coord, reason: string): Coord {
    c.(abortFlag := true, abortReason := reason)
  }

  /** The reason every rejected update aborts with, the harness's own later updates included. */
  const RejectedUpdate := "Error - shadow rejected our initial update request"

  /**
   * Response to a bootstrap update, the base class's or the single-parameter
   * test's: accepted raises `updateAccepted`; a timeout aborts with the
   * callback's own reason, a rejection with the shared one.
   */
  function OnBootstrapUpdate(c: Coord, status: Response, timedOut: string): (c': Coord)
    ensures status == Accepted ==> c' == c.(updateAccepted := true)
    ensures status != Accepted ==> c'.abortFlag && c'.updateAccepted == c.updateAccepted
    ensures status == TimedOut ==> c'.abortReason == timedOut
    ensures status == Rejected ==> c'.abortReason == RejectedUpdate
    ensures c'.getAccepted == c.getAccepted && c'.incoming == c.incoming && c'.outgoing == c.outgoing
  {
    match status
    case TimedOut => Abort(c, timedOut)
    case Accepted => c.(updateAccepted := true)
    case Rejected => Abort(c, RejectedUpdate)
  }

  /** Response to the bootstrap get: accepted stores the document and raises `getAccepted`, anything else aborts. */
  function OnInitialGet(c: Coord, status: Response, payload: Doc): (c': Coord)
    ensures status == Accepted ==> c' == c.(getAccepted := true, incoming := payload)
    ensures status != Accepted ==> c'.abortFlag && c'.abortReason != "" && c'.incoming == c.incoming
    ensures status != Accepted ==> c'.getAccepted == c.getAccepted
    ensures c'.updateAccepted == c.updateAccepted && c'.outgoing == c.outgoing
    ensures status == TimedOut ==> c'.abortReason == "Initial get request timed out"
    ensures status == Rejected ==> c'.abortReason == "Error - shadow rejected our initial get request"
  {
    match status
    case TimedOut => Abort(c, "Initial get request timed out")
    case Accepted => c.(getAccepted := true, incoming := payload)
    case Rejected => Abort(c, "Error - shadow rejected our initial get request")
  }

  /** Any get response stores its document and raises `getAccepted`, whatever its status. */
  function OnShadowGet(c: Coord, status: Response, payload: Doc): (c': Coord)
    ensures c' == c.(getAccepted := true, incoming := payload)
  {
    c.(incoming := payload, getAccepted := true)
  }

  /**
   * Response to the harness's own update: accepted CLEARS `updateAccepted`, so
   * only the device's own later update can satisfy a verification; anything
   * else aborts.
   */
  function OnMyShadowUpdate(c: Coord, status: Response): (c': Coord)
    ensures status == Accepted ==> c' == c.(updateAccepted := false)
    ensures status != Accepted ==> c'.abortFlag && c'.abortReason != "" && c'.updateAccepted == c.updateAccepted
    ensures c'.getAccepted == c.getAccepted && c'.incoming == c.incoming && c'.outgoing == c.outgoing
    ensures status == TimedOut ==> c'.abortReason == "Shadow update request timed out"
    ensures status == Rejected ==> c'.abortReason == RejectedUpdate
  {
    match status
    case TimedOut => Abort(c, "Shadow update request timed out")
    case Accepted => c.(updateAccepted := false)
    case Rejected => Abort(c, RejectedUpdate)
  }

  /** Every update notification stores its document and raises `updateAccepted`, whatever its status. */
  function OnAnyShadowUpdate(c: Coord, status: Response, payload: Doc): (c': Coord)
    ensures c' == c.(updateAccepted := true, incoming := payload)
  {
    c.(incoming := payload, updateAccepted := true)
  }

  /** A response arriving at the given callback. */
  datatype Event = Event(handler: Callback, status: Response, payload: Doc)

  function Deliver(c: Coord, e: Event): (c': Coord)
    ensures c.abortFlag ==> c'.abortFlag
    ensures c'.outgoing == c.outgoing
  {
    match e.handler
    case InitialUpdate => OnBootstrapUpdate(c, e.status, "Initial update request timed out")
    case InitialGet => OnInitialGet(c, e.status, e.payload)
    case SetInitialShadowValues => OnBootstrapUpdate(c, e.status, "Initial Shadow update request timed out")
    case ShadowGet => OnShadowGet(c, e.status, e.payload)
    case MyShadowUpdate => OnMyShadowUpdate(c, e.status)
    case AnyShadowUpdate => OnAnyShadowUpdate(c, e.status, e.payload)
  }

  /** The events that arrive between two ticks, in order. */
  function DeliverAll(c: Coord, events: seq<Event>): (c': Coord)
    ensures c.abortFlag ==> c'.abortFlag
    ensures c'.outgoing == c.outgoing
    decreases |events|
  {
    if |events| == 0 then c else DeliverAll(Deliver(c, events[0]), events[1..])
  }

  /** Callbacks that answer one of the harness's own requests. */
  predicate AnswersRequest(h: Callback) {
    h == InitialUpdate || h == InitialGet || h == SetInitialShadowValues || h == MyShadowUpdate
  }

  /**
   * A timeout names the request it ended, so the three update timeouts are
   * told apart; a rejection of any of the three updates reports the same
   * "initial update" reason, the harness's own later update included.
   */
  lemma UpdateAbortReasons(c: Coord, p: Doc)
    ensures Deliver(c, Event(InitialUpdate, TimedOut, p)).abortReason != Deliver(c, Event(SetInitialShadowValues, TimedOut, p)).abortReason
    ensures Deliver(c, Event(InitialUpdate, TimedOut, p)).abortReason != Deliver(c, Event(MyShadowUpdate, TimedOut, p)).abortReason
    ensures Deliver(c, Event(SetInitialShadowValues, TimedOut, p)).abortReason != Deliver(c, Event(MyShadowUpdate, TimedOut, p)).abortReason
    ensures Deliver(c, Event(InitialUpdate, Rejected, p)).abortReason == RejectedUpdate
    ensures Deliver(c, Event(SetInitialShadowValues, Rejected, p)).abortReason == RejectedUpdate
    ensures Deliver(c, Event(MyShadowUpdate, Rejected, p)).abortReason == RejectedUpdate
  {
  }

  /** A rejected or timed-out answer to one of the harness's requests always raises the abort flag with a reason. */
  lemma RejectionAborts(c: Coord, e: Event)
    requires AnswersRequest(e.handler) && e.status != Accepted
    ensures Deliver(c, e).abortFlag && Deliver(c, e).abortReason != ""
  {
  }
}
