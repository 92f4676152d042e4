/**
 * The envelope and validation layer of the panic runtime: a payload is
 * wrapped into an unwinding record (`wrap`), travels through the unwinder,
 * and at the catch boundary is validated and recovered (`unwrap`,
 * `process_panic`), or the process aborts.
 *
 * Addresses are natural numbers. The heap of envelopes is a class owning an
 * allocation table; the canary is an address, and `CANARY` is the one
 * address of this build's sentinel static.
 */
module Panic {
  import opened Effects
  import opened Guard

  type Addr = nat

  const NULL: Addr := 0

  /** Address of `static CANARY: u8`, in the static data of this build. */
  const CANARY: Addr := 0x1000

  /** Heap allocations lie above the statics; none of them is `CANARY`. */
  const HEAP_BASE: Addr := 0x10_0000

  /**
   * `exception_class` of the records this producer raises: the bytes of
   * "MOZ\0RUST". The unwinder's `_Unwind_Exception` header (Itanium C++ ABI,
   * Level I, section 1.2) carries it; comparing it is done by the caller of
   * `Heap.Unwrap`, which is not part of this model.
   */
  const CLASS: seq<bv8> := [0x4D, 0x4F, 0x5A, 0x00, 0x52, 0x55, 0x53, 0x54]

  /** The `_Unwind_Exception` header: left uninitialised by `wrap`, filled in by the unwinder. */
  datatype UnwindHeader = Uninit

  /** `RustPanic`: the boxed payload and the guard that travels with it. */
  datatype RustPanic<P> = RustPanic(payload: P, guard: GuardState)

  /** `ExceptionWithPayload`: one allocation holding header, canary address and payload. */
  datatype ExceptionWithPayload<P> = ExceptionWithPayload(exception: UnwindHeader, canary: Addr, payload: RustPanic<P>)

  /**
   * What `unwrap` does with the record it is given: the payload, guard
   * untouched, when the canary is the address of `CANARY`; otherwise the
   * `foreign_exception` hook and abort, without reading the payload.
   */
  function Unwrapped<P>(ex: ExceptionWithPayload<P>, hooks: bool): (r: Resolution<RustPanic<P>>)
    ensures r.Coherent()
    ensures r.outcome.Returned? <==> ex.canary == CANARY
    ensures r.outcome.Returned? ==> r.outcome.value == ex.payload && r.events == []
    ensures r.outcome.Aborted? ==> r.events == HookEvents(hooks, ForeignException) + [ProcessAbort]
  {
    if ex.canary != CANARY then
      Resolution(HookEvents(hooks, ForeignException) + [ProcessAbort], Aborted)
    else
      Resolution([], Returned(ex.payload))
  }

  /**
   * The heap of envelopes: every record that `wrap` (or another producer
   * sharing `CLASS` and this layout) has allocated and nobody has reclaimed.
   */
  class Heap<P> {
    var table: map<Addr, ExceptionWithPayload<P>>
    var brk: Addr

    ghost predicate Valid()
      reads this
    {
      HEAP_BASE <= brk && forall a :: a in table ==> HEAP_BASE <= a < brk
    }

    constructor ()
      ensures Valid() && table == map[]
    {
      table := map[];
      brk := HEAP_BASE;
    }

    /**
     * `Exception::wrap`: allocates one fresh record holding an
     * uninitialised header, the address of `CANARY` and the payload, and
     * returns its address. No other record changes.
     */
    method Wrap(this_: RustPanic<P>) returns (ex: Addr)
      requires Valid()
      modifies this
      ensures Valid()
      ensures ex !in old(table) && ex != NULL && ex != CANARY
      ensures table == old(table)[ex := ExceptionWithPayload(Uninit, CANARY, this_)]
    {
      ex := brk;
      table := table[ex := ExceptionWithPayload(Uninit, CANARY, this_)];
      brk := brk + 1;
    }

    /**
     * A record laid out like ours and tagged with `CLASS`, allocated by
     * another Rust panic runtime whose sentinel static lives at `sentinel`:
     * the standard library's panic runtime shares the tag and the
     * header-plus-canary layout, and so would a second copy of this crate.
     */
    method PlaceForeign(sentinel: Addr, this_: RustPanic<P>) returns (ex: Addr)
      requires Valid()
      modifies this
      ensures Valid()
      ensures ex !in old(table) && ex != NULL
      ensures table == old(table)[ex := ExceptionWithPayload(Uninit, sentinel, this_)]
    {
      ex := brk;
      table := table[ex := ExceptionWithPayload(Uninit, sentinel, this_)];
      brk := brk + 1;
    }

    /**
     * `Exception::unwrap`, called once the record's class tag has matched
     * `CLASS` (so `ex` designates a record with this layout). If the stored
     * canary is not the address of `CANARY`, the `foreign_exception` hook
     * runs and the process aborts with the table untouched. Otherwise the
     * allocation is reclaimed and its payload, guard included, returned.
     */
    method Unwrap(proc: Process, ex: Addr) returns (out: Outcome<RustPanic<P>>)
      requires Valid() && proc.Live() && ex in table
      modifies this, proc
      ensures Valid()
      ensures var r := Unwrapped(old(table)[ex], proc.hooks);
        out == r.outcome && proc.trace == old(proc.trace) + r.events
      ensures out.Returned? ==> table == old(table) - {ex} && ex !in table
      ensures out.Aborted? ==> table == old(table) && !proc.Live()
    {
      var canary := table[ex].canary;
      if canary != CANARY {
        proc.CallHook(ForeignException);
        proc.Abort();
        return Aborted;
      }
      var record := table[ex];
      table := table - {ex};
      out := Returned(record.payload);
    }
  }

  /**
   * `begin_panic`: pairs the payload with an armed guard and wraps it; the
   * returned record is what is handed to the unwinder to raise.
   */
  method BeginPanic<P>(heap: Heap<P>, payload: P) returns (ex: Addr)
    requires heap.Valid()
    modifies heap
    ensures heap.Valid() && ex !in old(heap.table) && ex != NULL && ex != CANARY
    ensures heap.table == old(heap.table)[ex := ExceptionWithPayload(Uninit, CANARY, RustPanic(payload, Armed))]
  {
    ex := heap.Wrap(RustPanic(payload, Armed));
  }

  /**
   * `unwrap` of the address `wrap(p)` returned, on any heap: `p` comes back
   * unchanged, the allocation is reclaimed so the table is as before, and
   * no hook runs.
   */
  method RoundTrip<P>(heap: Heap<P>, proc: Process, p: RustPanic<P>) returns (out: Outcome<RustPanic<P>>)
    requires heap.Valid() && proc.Live()
    modifies heap, proc
    ensures heap.Valid()
    ensures out == Returned(p)
    ensures heap.table == old(heap.table) && proc.trace == old(proc.trace)
  {
    var ex := heap.Wrap(p);
    out := heap.Unwrap(proc, ex);
  }

  /** What `process_panic` emits and yields, and the state it leaves the record's guard in. */
  datatype Caught<P> = Caught(resolution: Resolution<P>, guard: Option<GuardState>)

  /**
   * `process_panic`: no panic of ours means the `foreign_exception` hook
   * and abort; a panic of ours means the `panic_caught` hook, the guard
   * forgotten, and the payload returned unchanged.
   */
  function ProcessPanic<P>(p: Option<RustPanic<P>>, hooks: bool): (r: Caught<P>)
    ensures r.resolution.Coherent()
    ensures r.resolution.outcome.Aborted? <==> p.None?
    ensures p.None? ==> r.resolution.events == HookEvents(hooks, ForeignException) + [ProcessAbort] && r.guard == None
    ensures p.Some? ==> r.resolution == Resolution(HookEvents(hooks, PanicCaught), Returned(p.value.payload))
    ensures p.Some? && p.value.guard == Armed ==> r.guard == Some(Disarmed)
  {
    match p
    case None => Caught(Resolution(HookEvents(hooks, ForeignException) + [ProcessAbort], Aborted), None)
    case Some(e) => Caught(Resolution(HookEvents(hooks, PanicCaught), Returned(e.payload)), Some(Step(e.guard, Forgotten)))
  }

  /**
   * `catch_unwind`, given what running `f` under the unwinder's protected
   * call produced: a normal result passes through as `Ok` with no event;
   * only the error side goes through `process_panic`.
   */
  function CatchUnwind<R, P>(f: Result<R, Option<RustPanic<P>>>, hooks: bool): (r: Resolution<Result<R, P>>)
    ensures r.Coherent()
    ensures f.Ok? ==> r == Resolution([], Returned(Ok(f.value)))
    ensures (r.outcome.Returned? && r.outcome.value.Ok?) <==> f.Ok?
    ensures f.Err? ==> r.events == ProcessPanic(f.error, hooks).resolution.events
    ensures f.Err? && f.error.Some? ==> r.outcome == Returned(Err(f.error.value.payload))
    ensures f.Err? && f.error.None? ==> r.outcome == Aborted
  {
    match f
    case Ok(v) => Resolution([], Returned(Ok(v)))
    case Err(p) =>
      var c := ProcessPanic(p, hooks).resolution;
      Resolution(c.events, if c.outcome.Returned? then Returned(Err(c.outcome.value)) else Aborted)
  }

  /**
   * `catch_unwind(|| begin_panic(payload))` in a fresh process, with the
   * unwinder's class check matching: the caller gets its payload back
   * unchanged, `process_panic` leaves its guard disarmed, and the only
   * event is the `panic_caught` hook.
   */
  method CatchOwnPanic<R, P>(payload: P, hooks: bool) returns (o: Outcome<Result<R, P>>, guard: Option<GuardState>, trace: seq<Event>)
    ensures o == Returned(Err(payload))
    ensures guard == Some(Disarmed)
    ensures trace == HookEvents(hooks, PanicCaught)
  {
    var heap := new Heap<P>();
    var proc := new Process(hooks);
    var ex := BeginPanic(heap, payload);
    var unwrapped := heap.Unwrap(proc, ex);
    assert unwrapped == Returned(RustPanic(payload, Armed));
    var r := CatchUnwind<R, P>(Err(Some(unwrapped.value)), hooks);
    guard := ProcessPanic(Some(unwrapped.value), hooks).guard;
    o := r.outcome;
    trace := proc.trace + r.events;
  }

  /**
   * A record with our tag and layout whose canary is the address of some
   * other sentinel, even one holding the same byte: the catch boundary
   * calls the `foreign_exception` hook and aborts; no payload comes back.
   */
  method CatchForeignSentinel<P>(payload: P, sentinel: Addr, hooks: bool) returns (o: Outcome<RustPanic<P>>, trace: seq<Event>)
    requires sentinel != CANARY
    ensures o == Aborted
    ensures trace == HookEvents(hooks, ForeignException) + [ProcessAbort]
  {
    var heap := new Heap<P>();
    var proc := new Process(hooks);
    var ex := heap.PlaceForeign(sentinel, RustPanic(payload, Armed));
    o := heap.Unwrap(proc, ex);
    trace := proc.trace;
  }

  /**
   * A raised payload whose record is destroyed without reaching a catch
   * boundary: its armed guard is dropped, which calls the `drop_panic`
   * hook and aborts.
   */
  method LeakedPanic<P>(payload: P, hooks: bool) returns (g: GuardState, trace: seq<Event>)
    ensures g == Fired
    ensures trace == HookEvents(hooks, DropPanic) + [ProcessAbort]
  {
    var heap := new Heap<P>();
    var proc := new Process(hooks);
    var ex := BeginPanic(heap, payload);
    g := Drop(proc, heap.table[ex].payload.guard);
    trace := proc.trace;
  }
}
