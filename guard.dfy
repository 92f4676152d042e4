/**
 * The `DropGuard` that travels next to every payload. The guard has no
 * data; what matters is its lifecycle: it is `Armed` when the payload is
 * raised, becomes `Disarmed` when the catch boundary forgets it, and
 * `Fired` when it is dropped while still armed, which aborts the process.
 */
module Guard {
  import opened Effects

  datatype GuardState = Armed | Disarmed | Fired

  /** What can happen to a guard: `core::mem::forget`, or being dropped. */
  datatype GuardAction = Forgotten | Dropped

  /**
   * One transition. Only an armed guard reacts: a forgotten guard no
   * longer exists to be dropped, and a fired one has ended the process.
   */
  function Step(s: GuardState, a: GuardAction): GuardState
  {
    match s
    case Armed => if a == Forgotten then Disarmed else Fired
    case Disarmed => Disarmed
    case Fired => Fired
  }

  /** The state after a sequence of actions. */
  function Run(s: GuardState, acts: seq<GuardAction>): GuardState
    decreases |acts|
  {
    if acts == [] then s else Run(Step(s, acts[0]), acts[1..])
  }

  /**
   * Disarmed and Fired are final: no later action changes them. In the
   * source, Rust's move rules let nothing at all happen to a guard once it
   * is forgotten or dropped; this lemma and the two below show that the
   * transition function agrees, i.e. that the abstraction is closed.
   */
  lemma {:induction false} SettledStaysSettled(s: GuardState, acts: seq<GuardAction>)
    requires s != Armed
    ensures Run(s, acts) == s
    decreases |acts|
  {
    if acts != [] {
      SettledStaysSettled(Step(s, acts[0]), acts[1..]);
    }
  }

  /**
   * An armed guard fires exactly when the first thing that happens to it is
   * a drop; it follows from the self-loops of `Step` on settled states.
   */
  lemma {:induction false} FiresIffDroppedWhileArmed(acts: seq<GuardAction>)
    ensures Run(Armed, acts) == Fired <==> (acts != [] && acts[0] == Dropped)
  {
    if acts != [] {
      SettledStaysSettled(Step(Armed, acts[0]), acts[1..]);
    }
  }

  /**
   * Once forgotten on the catch path, nothing can make the guard fire (in
   * the source, nothing can happen to it at all after `forget`).
   */
  lemma {:induction false} ForgottenNeverFires(acts: seq<GuardAction>)
    ensures Run(Armed, [Forgotten] + acts) == Disarmed
  {
    assert ([Forgotten] + acts)[1..] == acts;
    SettledStaysSettled(Disarmed, acts);
  }

  /**
   * `DropGuard::drop`: calls the `drop_panic` hook when the feature is on,
   * then aborts. It never returns normally.
   */
  method Drop(proc: Process, g: GuardState) returns (after: GuardState)
    requires proc.Live() && g == Armed
    modifies proc
    ensures after == Step(g, Dropped) == Fired
    ensures proc.trace == old(proc.trace) + HookEvents(proc.hooks, DropPanic) + [ProcessAbort]
    ensures !proc.Live()
  {
    proc.CallHook(DropPanic);
    proc.Abort();
    after := Fired;
  }
}
