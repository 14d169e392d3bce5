/**
 * Thread control blocks (TCBs) of the kernel scheduler and the per-thread part of
 * its scheduling policy: the priority adjustment that `yield` applies to the
 * outgoing thread, and the rounding of a TCB to whole pages.
 */
module ThreadControl {

  /** A thread identity: the address of its TCB in the source, an arena index here. */
  type Tid = nat

  /** Number of ready queues of the multi-level feedback queue; level 0 is scanned first. */
  const MFQ_QUEUES: nat := 15

  /** Number of timeslices after which `yield` fires the anti-starvation boost. */
  const MFQ_TIMESLICES: nat := 5

  /** Page size of the target architecture. */
  const SYSTEM_PAGE_SIZE: nat := 4096

  datatype ThreadState = Init | Ready | Running | Stopped | Exited

  /** CtxClean: the saved context may be queued; CtxDirty: the thread is executing. */
  datatype Phase = CtxClean | CtxDirty

  datatype ThreadType = NormalThread | IdleThread

  /** Why a thread yields; it steers the priority adjustment. */
  datatype Cause = SchedQuantum | SchedIo | SchedMutex | SchedPipe | SchedIdle | SchedUser

  /** A timer value: the sentinel NO_TIMEOUT or a number of clock ticks. */
  datatype TimerDuration = NoTimeout | Ticks(n: nat)

  /** The scheduling fields of a TCB. `prev` and `next` link the two threads of a switch. */
  datatype Tcb = Tcb(
    kind: ThreadType,
    state: ThreadState,
    phase: Phase,
    priority: nat,
    prevPriority: nat,
    mutexContention: bool,
    wakeupTime: TimerDuration,
    prev: Tid,
    next: Tid)

  /** Priorities, current and saved, stay within the ready-queue range. */
  predicate WellFormed(t: Tcb)
  {
    t.priority < MFQ_QUEUES && (t.mutexContention ==> t.prevPriority < MFQ_QUEUES)
  }

  /**
   * The fields `spawn_thread` gives a new TCB. The source leaves `prev_priority`,
   * `prev` and `next` uninitialised; none is read before it is written, and the
   * model fixes them to 0 and to the thread itself.
   */
  function SpawnedTcb(self: Tid): (r: Tcb)
    ensures WellFormed(r)
  {
    Tcb(NormalThread, Init, CtxClean, 0, 0, false, NoTimeout, self, self)
  }

  /** Size of the TCB area of a thread block: the TCB size rounded up to whole pages. */
  function ThreadTcbSize(tcbSize: nat): (r: nat)
    ensures r % SYSTEM_PAGE_SIZE == 0
    ensures tcbSize <= r < tcbSize + SYSTEM_PAGE_SIZE
  {
    ((tcbSize + SYSTEM_PAGE_SIZE - 1) / SYSTEM_PAGE_SIZE) * SYSTEM_PAGE_SIZE
  }

  /** The priority `yield` starts from: the saved one when a mutex boost is being undone. */
  function BasePriority(t: Tcb, cause: Cause): nat
  {
    if t.mutexContention && cause != SchedMutex then t.prevPriority else t.priority
  }

  /** Undo the mutex-contention bookkeeping on a yield for any other cause. */
  function RestoreFairness(t: Tcb, cause: Cause): Tcb
  {
    if t.mutexContention && cause != SchedMutex then
      t.(priority := t.prevPriority, prevPriority := 0, mutexContention := false)
    else
      t
  }

  /** One level less favourable, unless already at the last level. */
  function Demote(t: Tcb): Tcb
  {
    if t.priority < MFQ_QUEUES - 1 then t.(priority := t.priority + 1) else t
  }

  /** One level more favourable, unless already at level 0. */
  function Promote(t: Tcb): Tcb
  {
    if t.priority > 0 then t.(priority := t.priority - 1) else t
  }

  /**
   * The cause switch of `yield`. A mutex yield records the priority to restore and
   * then falls through to the quantum case, as the source does with its `break`
   * commented out.
   */
  function AdjustPriority(t: Tcb, cause: Cause): Tcb
  {
    match cause
    case SchedMutex =>
      Demote(if !t.mutexContention then t.(prevPriority := t.priority, mutexContention := true) else t)
    case SchedQuantum => Demote(t)
    case SchedUser => Promote(t)
    case SchedPipe => Promote(t)
    case SchedIo => Promote(t)
    case SchedIdle => t
  }

  /** Whether the cause promotes the yielding thread. */
  predicate Promoting(cause: Cause)
  {
    cause == SchedUser || cause == SchedPipe || cause == SchedIo
  }

  /** Whether the cause demotes the yielding thread. */
  predicate Demoting(cause: Cause)
  {
    cause == SchedQuantum || cause == SchedMutex
  }

  /** The whole priority policy `yield` applies to the outgoing thread. */
  function YieldPolicy(t: Tcb, cause: Cause): (r: Tcb)
    requires WellFormed(t)
    ensures WellFormed(r)
    // only the priority and the fairness shadow fields change
    ensures r.(priority := 0, prevPriority := 0, mutexContention := false)
         == t.(priority := 0, prevPriority := 0, mutexContention := false)
    // quantum expiry and mutex contention demote by one level, capped at the last level
    ensures Demoting(cause) ==>
              r.priority == if BasePriority(t, cause) < MFQ_QUEUES - 1
                            then BasePriority(t, cause) + 1 else MFQ_QUEUES - 1
    // user, pipe and I/O waits promote by one level, capped at level 0
    ensures Promoting(cause) ==>
              r.priority == if BasePriority(t, cause) > 0 then BasePriority(t, cause) - 1 else 0
    ensures cause == SchedIdle ==> r.priority == BasePriority(t, cause)
    // the first mutex yield saves the priority; later ones keep the saved value
    ensures cause == SchedMutex ==>
              r.mutexContention
              && r.prevPriority == if t.mutexContention then t.prevPriority else t.priority
    // any other cause ends the contention, clearing the saved priority if there was one
    ensures cause != SchedMutex ==>
              !r.mutexContention && r.prevPriority == if t.mutexContention then 0 else t.prevPriority
  {
    AdjustPriority(RestoreFairness(t, cause), cause)
  }

  /**
   * A thread that was not contending, yields once on mutex contention and then for
   * any other cause ends up exactly as if the mutex yield had not happened, apart
   * from the cleared saved priority.
   */
  lemma MutexBoostUndone(t: Tcb, cause: Cause)
    requires WellFormed(t) && !t.mutexContention && cause != SchedMutex
    ensures YieldPolicy(YieldPolicy(t, SchedMutex), cause)
         == YieldPolicy(t, cause).(prevPriority := 0)
  {
  }
}
