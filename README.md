# Envelope, guard and catch boundary of the `unwinding` panic runtime

This project models `src/panic.rs` of the `unwinding` crate: the layer that
wraps a Rust panic payload into an unwinding record, raises it, and at the
catch boundary validates and recovers it, or aborts the process.

- `effects.dfy` (module `Effects`): the `panic-handler` hooks (`drop_panic`,
  `foreign_exception`, `panic_caught`) and `crate::util::abort` as entries of
  an event trace held by a `Process` object. Abort is a terminal event and a
  terminal `Outcome`, not a real exit, so "hook before abort" and "nothing
  after abort" can be stated.
- `guard.dfy` (module `Guard`): the `DropGuard` lifecycle `Armed`,
  `Disarmed` (by `core::mem::forget`) and `Fired` (dropped while armed) as a
  transition function with lemmas, and `DropGuard::drop` as a method that
  calls the hook and aborts.
- `panic.dfy` (module `Panic`): `CANARY` as one distinguished address,
  `CLASS`, `RustPanic`, `ExceptionWithPayload`, and a `Heap` class owning the
  allocation table (`map<Addr, ExceptionWithPayload>`) with `Wrap` and
  `Unwrap`. It also holds `BeginPanic`, the pure `ProcessPanic` and
  `CatchUnwind`, and three end-to-end runs: a payload caught by its own
  boundary, a record carrying another sentinel's address, and a record
  dropped before it is caught.

The canary is compared by address only. The model has no byte memory at
all, so a sentinel elsewhere holding the same byte as `CANARY` is rejected
like any other address. `Unwrap` is called only once the unwinder has
matched the record's class tag against `CLASS`. In the model this
precondition is "the address is in the allocation table": the table holds
only records that have this layout. Records with another producer's sentinel
enter the table through `Heap.PlaceForeign`. It stands for any other Rust
panic runtime that uses the same `CLASS` and the same header-plus-canary
layout but has its own sentinel static: the standard library's own panic
runtime is the case the source names, and a second copy of this crate linked
into the same process is another.

`process_panic` and `catch_unwind` are pure. They return the events they
emit together with their outcome (`Resolution`), and a caller appends those
events to the trace. `Heap.Unwrap` and `Guard.Drop` append theirs to the
`Process` trace directly.

The order on the successful catch path follows the code: the `panic_caught`
hook, then `forget` on the guard, then the payload is returned. The
allocation is reclaimed earlier, in `unwrap`. For a foreign class
tag, the code does not call `foreign_exception` from `unwrap`. The unwinder
returns no record, and `process_panic(None)` calls the hook and aborts.

## Model

| member | source | states |
|---|---|---|
| `Effects.Process.CallHook` | src/panic.rs:19-22 | a feature-gated hook call appends exactly its event when the feature is on and nothing when it is off; the process stays live |
| `Effects.Process.Abort` | src/panic.rs:23 | `crate::util::abort` appends the abort event; afterwards the process is not live and abort is the trace's last event |
| `Guard.SettledStaysSettled` | src/panic.rs:17-25 | a disarmed or fired guard is final: no sequence of later forgets or drops changes its state |
| `Guard.FiresIffDroppedWhileArmed` | src/panic.rs:17-25 | an armed guard ends `Fired` exactly when the first thing that happens to it is a drop |
| `Guard.ForgottenNeverFires` | src/panic.rs:82 | once `forget` has disarmed the guard, no later action makes it fire, so the abort cannot be triggered for a caught payload |
| `Guard.Drop` | src/panic.rs:17-25 | dropping an armed guard never returns normally: the guard is `Fired`, the trace gains the `drop_panic` event (when enabled) and then abort, and the process is dead |
| `Panic.Unwrapped` | src/panic.rs:46-59 | the record yields its payload exactly when its canary is the address of `CANARY`, with payload and guard unchanged and no event; otherwise `foreign_exception` (when enabled) then abort, and nothing is returned |
| `Panic.Heap.Wrap` | src/panic.rs:38-44 | one fresh, non-null address not equal to `CANARY` is allocated, holding an uninitialised header, the address of `CANARY` and the payload; no other record changes |
| `Panic.Heap.Unwrap` | src/panic.rs:46-59 | result and trace are those of `Unwrapped` on the stored record; on success the address leaves the table and every other record is unchanged; on a canary mismatch the table is untouched and the process has aborted |
| `Panic.BeginPanic` | src/panic.rs:62-64 | the payload is paired with an `Armed` guard and wrapped into a fresh, non-null record, not at `CANARY`, carrying the address of `CANARY` |
| `Panic.RoundTrip` | src/panic.rs:38-59 | on any valid heap, `unwrap` of the address `wrap(p)` returned gives back `p` with payload and guard unchanged, the table is exactly as before, and no event is emitted |
| `Panic.ProcessPanic` | src/panic.rs:68-86 | `None` leads to `foreign_exception` (when enabled) then abort, with no payload; `Some(e)` leads to `panic_caught`, returns `e.0` unchanged and leaves an armed guard `Disarmed`; abort happens exactly for `None` |
| `Panic.CatchUnwind` | src/panic.rs:66-88 | a normal result is returned as `Ok` untouched and with no event; the result is `Ok` exactly when `f` returned normally; the error side emits `process_panic`'s events and yields `Err` of the payload, or aborts for `None` |
| `Panic.CatchOwnPanic` | src/panic.rs:62-88 | `catch_unwind` around a closure that calls `begin_panic(v)` gives back `Err(v)` with `v` unchanged, the payload's guard ends `Disarmed`, and the only event is `panic_caught` |
| `Panic.CatchForeignSentinel` | src/panic.rs:46-59 | a record whose canary is any address other than `CANARY` is never unwrapped: `foreign_exception` (when enabled) then abort |
| `Panic.LeakedPanic` | src/panic.rs:17-25 | a raised payload whose record is dropped before any catch boundary aborts the process after the `drop_panic` hook |

## Left out

- The unwinder (`crate::panicking::begin_panic`, `crate::panicking::catch_unwind`, the `_Unwind_*` primitives) is not part of this model. `CatchUnwind` takes what the protected call produced (`Ok(r)` or `Err(Option<RustPanic>)`) as its input. `BeginPanic` returns the record it would hand to the unwinder, instead of the `UnwindReasonCode` of a failed raise.
- The comparison of the header's `exception_class` with `CLASS` lives in `crate::panicking`, which is not part of this model. Only the constant and the precondition of `Heap.Unwrap` (the address designates a record of this layout) remain.
- The contents of the `MaybeUninit<UnwindException>` header, the raw pointer casts, and the `#[repr(C)]` and `#[repr(transparent)]` layouts are left out. Layout punning has no counterpart in the model; the header is a single `Uninit` value.
- `Box<dyn Any + Send>` type erasure and downcasting are left out. The payload is an opaque type parameter.
- `Panic.Heap.Wrap`: the allocator is a bump pointer, so freed addresses are never handed out again. The contract only promises an address not currently allocated, which is all the global allocator promises too.
- Process termination and the bodies of the `panic-handler` hooks are not modelled. Both are events in the trace, and whether the feature is compiled in is the `hooks` flag.
- `Send` and all cross-thread behaviour are left out. Each `Process` is one thread of control.
- The guard's drop is reached only from outside `src/panic.rs`, when the unwinder deletes a record that no catch boundary received. `LeakedPanic` stands for that case by dropping the guard of the stored record.
