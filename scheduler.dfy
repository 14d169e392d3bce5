/**
 * The scheduler of kernel_sched.c as an object whose fields are the shared state
 * the C code updates in place: the TCBs, the array SCHED of ready queues,
 * TIMEOUT_LIST, the timeslice counter and the count of active threads. Each method
 * performs one operation step by step, with the loops of the source, and its
 * contract ties the new state to the function of SchedSpec that specifies the
 * operation; the lemmas of SchedSpec state what those functions guarantee.
 */
module Scheduler {
  import opened Wrappers
  import opened ThreadControl
  import opened Queues
  import opened SchedSpec

  class Scheduler {
    /** The TCB of every existing thread. */
    var tcbs: map<Tid, Tcb>
    /** SCHED[0..MFQ_QUEUES-1]: one ready queue per priority level. */
    const sched: array<seq<Tid>>
    /** TIMEOUT_LIST: the sleepers with a wakeup time, soonest first. */
    var timeouts: seq<Tid>
    var timeslices: nat
    var activeThreads: nat
    /** The idle thread of the core. */
    const idle: Tid

    /** The fields as a value. */
    function State(): SchedState
      reads this, sched
    {
      SchedState(tcbs, sched[..], timeouts, timeslices, activeThreads, idle)
    }

    ghost predicate Valid()
      reads this, sched
    {
      Inv(State())
    }

    /**
     * initialize_scheduler, which empties every ready queue and the timeout list,
     * followed by the set-up of the idle thread in run_scheduler.
     */
    constructor (idle: Tid)
      ensures State() == InitialState(idle) && Valid()
    {
      var a := new seq<Tid>[MFQ_QUEUES];
      for i := 0 to MFQ_QUEUES
        invariant forall j :: 0 <= j < i ==> a[j] == []
      {
        a[i] := [];
      }
      sched := a;
      timeouts := [];
      this.idle := idle;
      tcbs := map[idle := IdleTcb(idle)];
      timeslices := 0;
      activeThreads := 0;
      new;
      assert sched[..] == seq(MFQ_QUEUES, _ => []);
    }

    /** spawn_thread on the block `t` the allocator returned. */
    method SpawnThread(t: Tid)
      requires Valid() && t !in tcbs
      modifies this
      ensures State() == SpawnF(old(State()), t) && Valid()
    {
      tcbs := tcbs[t := SpawnedTcb(t)];
      activeThreads := activeThreads + 1;
    }

    /** release_TCB: the block is freed and one active thread fewer is counted. */
    method ReleaseTcb(t: Tid)
      requires Valid() && t in tcbs && t != idle && !Queued(State(), t) && t !in timeouts
      modifies this
      ensures State() == ReleaseF(old(State()), t) && Valid()
    {
      ghost var r := ReleaseF(State(), t);
      tcbs := tcbs - {t};
      activeThreads := activeThreads - 1;
    }

    /**
     * The walk of sched_register_timeout: the position of the first entry of the
     * timeout list due later than `w`, or its length when there is none.
     */
    method TimeoutSlot(w: nat) returns (i: nat)
      ensures i == NotLater(timeouts, tcbs, w)
      ensures i <= |timeouts| && (i < |timeouts| ==> w < Deadline(tcbs, timeouts[i]))
      ensures forall j :: 0 <= j < i ==> Deadline(tcbs, timeouts[j]) <= w
    {
      i := 0;
      while i < |timeouts| && !(w < Deadline(tcbs, timeouts[i]))
        invariant i <= |timeouts|
        invariant NotLaterFrom(timeouts, tcbs, w, i) == NotLater(timeouts, tcbs, w)
        decreases |timeouts| - i
      {
        i := i + 1;
      }
    }

    /**
     * sched_register_timeout: a STOPPED thread with a timeout gets its wakeup
     * time and enters the timeout list in deadline order; with no timeout nothing
     * changes.
     */
    method RegisterTimeout(t: Tid, timeout: TimerDuration, now: nat)
      requires Valid() && t in tcbs && tcbs[t].state == Stopped && tcbs[t].wakeupTime == NoTimeout
      modifies this
      ensures State() == RegisterTimeoutF(old(State()), t, timeout, now) && Valid()
    {
      ghost var s := State();
      if timeout != NoTimeout {
        var w := now + timeout.n;
        var x := tcbs[t].(wakeupTime := Ticks(w));
        tcbs := tcbs[t := x];
        assert Deadline(tcbs, t) == w;
        InsertFromSplits(timeouts, tcbs, t, 0);
        var i := TimeoutSlot(w);
        timeouts := timeouts[..i] + [t] + timeouts[i..];
        assert State() == s.(tcbs := s.tcbs[t := x], timeouts := InsertByDeadline(s.timeouts, tcbs, t));
      }
    }

    /** sched_queue_add: push at the back of the queue of the thread's priority. */
    method QueueAdd(t: Tid)
      requires Valid() && t in tcbs && !Queued(State(), t)
      requires QueuedOk(tcbs, t, tcbs[t].priority)
      modifies sched
      ensures State() == QueueAddF(old(State()), t) && Valid()
    {
      var p := tcbs[t].priority;
      sched[p] := sched[p] + [t];
    }

    /** sched_make_ready. */
    method MakeReady(t: Tid)
      requires Valid() && t in tcbs && (tcbs[t].state == Stopped || tcbs[t].state == Init)
      modifies this, sched
      ensures State() == MakeReadyF(old(State()), t) && Valid()
    {
      ghost var s := State();
      SleepingState(s, t);
      UnsleepKeepsInv(s, t);
      var x := tcbs[t];
      if x.wakeupTime != NoTimeout {
        timeouts := Removed(timeouts, t);
        x := x.(wakeupTime := NoTimeout);
      }
      x := x.(state := Ready);
      tcbs := tcbs[t := x];
      assert State() == s.(tcbs := s.tcbs[t := ReadyTcb(s.tcbs[t])], timeouts := Unlinked(s, t));
      if x.phase == CtxClean {
        QueueAdd(t);
      }
    }

    /**
     * sched_queue_select at time `now`: wake every sleeper whose wakeup time has
     * come, then pop the front of the first non-empty level.
     */
    method QueueSelect(now: nat) returns (next: Option<Tid>)
      requires Valid()
      modifies this, sched
      ensures (State(), next) == QueueSelectF(old(State()), now) && Valid()
    {
      DrainTimeouts(now);
      next := PopFront();
    }

    /** The first half of sched_queue_select: wake every thread due at time `now`. */
    method DrainTimeouts(now: nat)
      requires Valid()
      modifies this, sched
      ensures State() == DrainF(old(State()), now) && Valid()
    {
      while timeouts != [] && Deadline(tcbs, timeouts[0]) <= now
        invariant Valid()
        invariant DrainF(State(), now) == DrainF(old(State()), now)
        decreases |timeouts|
      {
        assert SleepingOk(tcbs, timeouts[0]);
        ghost var s := State();
        MakeReady(timeouts[0]);
        assert DrainF(s, now) == DrainF(State(), now);
      }
    }

    /**
     * The second half of sched_queue_select: remove and return the front of the
     * highest-priority non-empty queue, or nothing when every queue is empty.
     */
    method PopFront() returns (next: Option<Tid>)
      requires Valid()
      modifies sched
      ensures (State(), next) == PopFirst(old(State())) && Valid()
    {
      var i := 0;
      while i < MFQ_QUEUES && sched[i] == []
        invariant i <= MFQ_QUEUES
        invariant FirstNonEmptyFrom(sched[..], i) == FirstNonEmpty(old(sched[..]))
        decreases MFQ_QUEUES - i
      {
        i := i + 1;
      }
      if i == MFQ_QUEUES {
        next := None;
      } else {
        next := Some(sched[i][0]);
        sched[i] := sched[i][1..];
      }
    }

    /**
     * sched_boost: for each level from the top, the front of the level below moves
     * to its back, one priority level up.
     */
    method Boost()
      requires Valid()
      modifies this, sched
      ensures State() == BoostF(old(State())) && Valid()
    {
      ghost var s := State();
      ghost var L := s.levels;
      BoostedUpToEnds(L);
      for i := 0 to MFQ_QUEUES - 1
        invariant tcbs == BoostLoopTcbs(s.tcbs, L, i)
        invariant sched[..] == BoostedUpTo(L, i)
        invariant timeouts == s.timeouts && timeslices == s.timeslices
        invariant activeThreads == s.activeThreads
      {
        BoostedUpToStep(L, i);
        if sched[i + 1] != [] {
          BoostLoopFront(s.tcbs, L, i);
          var sel := sched[i + 1][0];
          sched[i + 1] := sched[i + 1][1..];
          tcbs := tcbs[sel := tcbs[sel].(priority := tcbs[sel].priority - 1)];
          sched[i] := sched[i] + [sel];
        }
      }
      BoostLoopAgrees(s.tcbs, L, MFQ_QUEUES - 1);
    }

    /** wakeup: make a STOPPED or INIT thread READY and answer 1, else answer 0. */
    method Wakeup(t: Tid) returns (ret: int)
      requires Valid() && t in tcbs
      modifies this, sched
      ensures (State(), ret) == WakeupF(old(State()), t) && Valid()
    {
      ret := 0;
      if tcbs[t].state == Stopped || tcbs[t].state == Init {
        MakeReady(t);
        ret := 1;
      }
    }

    /**
     * The start of yield: the priority policy for the cause, RUNNING becomes READY,
     * and the boost once MFQ_TIMESLICES timeslices have passed. Answers whether the
     * yielding thread is still ready to run.
     */
    method PrepareYield(current: Tid, cause: Cause) returns (currentReady: bool)
      requires Valid() && current in tcbs
      requires tcbs[current].state != Init && tcbs[current].phase == CtxDirty
      modifies this, sched
      ensures State() == YieldPrepare(old(State()), current, cause) && Valid()
      ensures currentReady == (old(tcbs[current].state) == Running || old(tcbs[current].state) == Ready)
    {
      ghost var s := State();
      currentReady := ApplyPolicy(current, cause);
      ghost var s1 := State();
      if timeslices >= MFQ_TIMESLICES {
        timeslices := 0;
        assert State() == s1.(timeslices := 0);
        Boost();
      }
    }

    /**
     * The priority policy of yield for the cause, and RUNNING becomes READY.
     * Answers whether the yielding thread is still ready to run.
     */
    method ApplyPolicy(current: Tid, cause: Cause) returns (currentReady: bool)
      requires Valid() && current in tcbs
      requires tcbs[current].state != Init && tcbs[current].phase == CtxDirty
      modifies this
      ensures State() == YieldUpdate(old(State()), current, cause) && Valid()
      ensures currentReady == (old(tcbs[current].state) == Running || old(tcbs[current].state) == Ready)
    {
      ghost var s := State();
      var x := YieldPolicy(tcbs[current], cause);
      currentReady := false;
      if x.state == Running {
        x := x.(state := Ready);
      }
      if x.state == Ready {
        currentReady := true;
      }
      tcbs := tcbs[current := x];
      assert State() == YieldUpdate(s, current, cause);
    }

    /**
     * The selection of yield: the thread sched_queue_select returns, else the
     * yielding thread if it is still ready, else the idle thread.
     */
    method SelectNextThread(current: Tid, currentReady: bool, now: nat) returns (next: Tid)
      requires Valid() && current in tcbs && tcbs[current].phase == CtxDirty
      requires currentReady ==> tcbs[current].state == Ready
      requires var st := tcbs[current].state; st == Ready || st == Stopped || st == Exited
      modifies this, sched
      ensures (State(), next) == SelectNext(old(State()), current, currentReady, now) && Valid()
    {
      var sel := QueueSelect(now);
      next := if sel.Some? then sel.value else if currentReady then current else idle;
    }

    /** The link for the gain phase: `current->next = next; next->prev = current`. */
    method LinkThreads(current: Tid, next: Tid)
      requires Valid() && current in tcbs && next in tcbs
      requires !Queued(State(), current) && !Queued(State(), next)
      modifies this
      ensures State() == Link(old(State()), current, next) && Valid()
    {
      tcbs := tcbs[current := tcbs[current].(next := next)];
      tcbs := tcbs[next := tcbs[next].(prev := current)];
    }

    /**
     * yield up to the context switch: the preparation, the selection at time `now`
     * and the link of the two threads. Returns the thread to switch to.
     */
    method Yield(current: Tid, cause: Cause, now: nat) returns (next: Tid)
      requires Valid() && current in tcbs
      requires tcbs[current].state != Init && tcbs[current].phase == CtxDirty
      modifies this, sched
      ensures (State(), next) == YieldF(old(State()), current, cause, now) && Valid()
    {
      ghost var s := State();
      var currentReady := PrepareYield(current, cause);
      PrepareCurrent(s, current, cause);
      next := SelectNextThread(current, currentReady, now);
      LinkThreads(current, next);
    }

    /**
     * The second half of gain for the thread switched away from: it becomes CLEAN,
     * and is re-queued if READY and not idle, released if EXITED, parked if STOPPED.
     */
    method SwitchOutPrev(prev: Tid)
      requires Valid() && prev in tcbs && !Queued(State(), prev)
      requires tcbs[prev].state == Ready || tcbs[prev].state == Stopped || tcbs[prev].state == Exited
      modifies this, sched
      ensures State() == SwitchOut(old(State()), prev) && Valid()
    {
      ghost var s := State();
      CleanKeepsInv(s, prev);
      tcbs := tcbs[prev := tcbs[prev].(phase := CtxClean)];
      if tcbs[prev].state == Ready {
        if tcbs[prev].kind != IdleThread {
          QueueAdd(prev);
        }
      } else if tcbs[prev].state == Exited {
        ReleaseTcb(prev);
      }
    }

    /**
     * gain: the resumed thread runs, a new timeslice is counted, and the thread
     * switched away from is dealt with. Returns the length of the timeslice in quanta.
     */
    method Gain(current: Tid) returns (quanta: nat)
      requires GainReady(State(), current)
      modifies this, sched
      ensures (State(), quanta) == GainF(old(State()), current) && Valid()
    {
      var prev := tcbs[current].prev;
      quanta := tcbs[current].priority + 1;
      ResumeCurrent(current);
      if current != prev {
        SwitchOutPrev(prev);
      }
    }

    /** The first half of gain: the resumed thread runs, and a new timeslice is counted. */
    method ResumeCurrent(current: Tid)
      requires GainReady(State(), current)
      modifies this
      ensures State() == Resume(old(State()), current) && Valid()
    {
      timeslices := timeslices + 1;
      tcbs := tcbs[current := tcbs[current].(state := Running, phase := CtxDirty)];
    }

    /**
     * sleep_releasing, the lock release aside: the running thread stops or exits,
     * registers its timeout at time `now` when it stops, and yields for `cause`,
     * whose selection reads the clock again as `selectNow`.
     */
    method SleepReleasing(current: Tid, state: ThreadState, cause: Cause, timeout: TimerDuration,
                          now: nat, selectNow: nat)
      returns (next: Tid)
      requires Valid() && current in tcbs && current != idle
      requires tcbs[current].phase == CtxDirty && tcbs[current].wakeupTime == NoTimeout
      requires state == Stopped || state == Exited
      modifies this, sched
      ensures (State(), next) == SleepF(old(State()), current, state, cause, timeout, now, selectNow) && Valid()
    {
      ghost var s := State();
      tcbs := tcbs[current := tcbs[current].(state := state)];
      assert State() == StopF(s, current, state);
      if state != Exited {
        RegisterTimeout(current, timeout, now);
      }
      next := Yield(current, cause, selectNow);
    }
  }
}
