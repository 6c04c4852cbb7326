/** The shared worker pool (`WorkThreadManager`): a counter of free worker slots,
    taken by `execute` before a task is started and given back by the task's
    thread when the task has finished. */
module WorkerPool {

  /** A task holding a slot: the line object that dispatched it and the id of the
      sheet it calculates. */
  type Ticket = (object, nat)

  class WorkThreadManager {
    /** The number of slots the pool was created with. */
    const capacity: nat
    /** Slots not taken by a running task. */
    var freeThreads: nat
    /** The tasks admitted by `execute` whose `threadFunction` has not yet given
        their slot back. */
    ghost var running: set<Ticket>

    ghost predicate Valid()
      reads this
    {
      && 1 <= capacity
      && freeThreads <= capacity
      && |running| == capacity - freeThreads
    }

    /** The number of tasks holding a slot. */
    ghost function Running(): (n: nat)
      reads this
      requires Valid()
      ensures n == |running| && n <= capacity
    {
      capacity - freeThreads
    }

    constructor (threadCount: nat)
      requires 1 <= threadCount
      ensures Valid()
      ensures capacity == threadCount && freeThreads == threadCount && running == {}
    {
      capacity := threadCount;
      freeThreads := threadCount;
      running := {};
    }

    /** Whether `execute` may go past its wait: its loop waits while no slot is free. */
    method HasFreeThread() returns (free: bool)
      requires Valid()
      ensures free <==> |running| < capacity
    {
      free := freeThreads > 0;
    }

    /** `execute`, once its wait for a free slot is over: take a slot for the task
        `(owner, id)`, which is then started on its own thread. */
    method Execute(ghost owner: object, ghost id: nat)
      requires Valid() && freeThreads > 0 && (owner, id) !in running
      modifies this
      ensures Valid()
      ensures freeThreads == old(freeThreads) - 1
      ensures running == old(running) + {(owner, id)} && |running| <= capacity
    {
      freeThreads := freeThreads - 1;
      running := running + {(owner, id)};
    }

    /** `threadFunction` for the task `(owner, id)`, after the task itself has
        returned: give its slot back. Only an admitted task gives a slot back, and
        only once. */
    method ThreadFunction(ghost owner: object, ghost id: nat)
      requires Valid() && (owner, id) in running
      modifies this
      ensures Valid()
      ensures freeThreads == old(freeThreads) + 1 && freeThreads <= capacity
      ensures running == old(running) - {(owner, id)}
    {
      freeThreads := freeThreads + 1;
      running := running - {(owner, id)};
    }
  }
}
