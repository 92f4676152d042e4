/**
 * Observable effects of the panic core: the notification hooks that the
 * `panic-handler` feature compiles in, process abort, and the outcome of a
 * step that may abort instead of returning. Abort is not a real process
 * exit here: it is a terminal event in the process's trace and a terminal
 * `Outcome`.
 */
module Effects {

  datatype Option<T> = None | Some(value: T)

  /** Rust's `Result`, as `catch_unwind` returns it. */
  datatype Result<R, E> = Ok(value: R) | Err(error: E)

  /** The three hooks of the panic handler that the core calls. */
  datatype Hook = DropPanic | ForeignException | PanicCaught

  /** One entry of the process's event trace; `ProcessAbort` is terminal. */
  datatype Event = HookCalled(hook: Hook) | ProcessAbort

  /** What a step that may abort the process produces. */
  datatype Outcome<T> = Returned(value: T) | Aborted

  /** The events of calling hook `h` when the feature gate is `enabled`. */
  function HookEvents(enabled: bool, h: Hook): seq<Event>
  {
    if enabled then [HookCalled(h)] else []
  }

  /** Nothing happens after abort: abort, if present, is the last event. */
  predicate AbortIsLast(t: seq<Event>)
  {
    forall i :: 0 <= i < |t| - 1 ==> t[i] != ProcessAbort
  }

  predicate EndsInAbort(t: seq<Event>)
  {
    |t| > 0 && t[|t| - 1] == ProcessAbort
  }

  /** The events a step emits, in order, together with its outcome. */
  datatype Resolution<T> = Resolution(events: seq<Event>, outcome: Outcome<T>)
  {
    /** The step aborts exactly when its events end in abort, and abort is its last event. */
    predicate Coherent()
    {
      AbortIsLast(events) && (outcome.Aborted? <==> EndsInAbort(events))
    }
  }

  /** The process-wide state the core touches: which hooks are compiled in, and the events so far. */
  class Process {
    const hooks: bool
    var trace: seq<Event>

    /** The process has not aborted; only a live process runs code. */
    predicate Live()
      reads this
    {
      ProcessAbort !in trace
    }

    constructor (hooks: bool)
      ensures this.hooks == hooks && trace == [] && Live()
    {
      this.hooks := hooks;
      trace := [];
    }

    /** Calls hook `h` when the `panic-handler` feature is compiled in. */
    method CallHook(h: Hook)
      requires Live()
      modifies this
      ensures trace == old(trace) + HookEvents(hooks, h) && Live()
    {
      if hooks {
        trace := trace + [HookCalled(h)];
      }
    }

    /** `crate::util::abort`: the process ends, and nothing can follow. */
    method Abort()
      requires Live()
      modifies this
      ensures trace == old(trace) + [ProcessAbort]
      ensures !Live() && AbortIsLast(trace) && EndsInAbort(trace)
    {
      trace := trace + [ProcessAbort];
    }
  }
}
