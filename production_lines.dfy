/** One production line's pipeline (`ProductionLineManager`): the fetching side
    numbers each sheet and hands it to the pool, workers put finished sheets into
    the reorder buffer under their number, and the returning side hands sheets
    back strictly in number order. */
module ProductionLines {
  import opened Intervals
  import opened Sheets
  import opened WorkerPool

  /** The reorder window of a line: the numbers handed out and not yet returned,
      `[ret, curr)`, are split between sheets still being calculated (`inFlight`)
      and calculated sheets waiting in the buffer. */
  ghost predicate Window(buffer: map<nat, Sheet>, inFlight: set<nat>, ret: nat, curr: nat)
  {
    && ret <= curr
    && inFlight !! buffer.Keys
    && (forall k :: k in buffer ==> ret <= k < curr)
    && (forall k :: k in inFlight ==> ret <= k < curr)
    && (forall k :: ret <= k < curr ==> k in buffer || k in inFlight)
  }

  /** The buffered and the in-flight sheets together number exactly `curr - ret`,
      so the buffer never holds more than the sheets fetched and not yet returned. */
  lemma WindowSize(buffer: map<nat, Sheet>, inFlight: set<nat>, ret: nat, curr: nat)
    requires Window(buffer, inFlight, ret, curr)
    ensures |buffer| + |inFlight| == curr - ret
    ensures |buffer| <= curr - ret
  {
    assert buffer.Keys + inFlight == Interval(ret, curr);
    IntervalSize(ret, curr);
  }

  /** The pool tickets of the sheets `ids` of line `owner`. */
  function Tickets(owner: object, ids: set<nat>): (ts: set<Ticket>)
    ensures forall id :: id in ids <==> (owner, id) in ts
  {
    set id | id in ids :: (owner, id)
  }

  /** One ticket per id. */
  lemma {:induction false} TicketsSize(owner: object, ids: set<nat>)
    ensures |Tickets(owner, ids)| == |ids|
    decreases |ids|
  {
    if ids != {} {
      var x :| x in ids;
      TicketsSize(owner, ids - {x});
      assert Tickets(owner, ids) == Tickets(owner, ids - {x}) + {(owner, x)};
    }
  }

  /** A line never has more sheets being calculated than the pool has slots. */
  lemma InFlightWithinCapacity(line: ProductionLineManager)
    requires line.Valid() && line.thrManager != null && line.thrManager.Valid()
    ensures |line.inFlight| <= line.thrManager.capacity
  {
    TicketsSize(line, line.inFlight);
    SubsetSize(Tickets(line, line.inFlight), line.thrManager.running);
  }

  /** Two lines started on the same pool together never have more sheets being
      calculated than the pool has slots. */
  lemma SharedPoolWithinCapacity(a: ProductionLineManager, b: ProductionLineManager)
    requires a != b && a.Valid() && b.Valid()
    requires a.thrManager != null && a.thrManager == b.thrManager && a.thrManager.Valid()
    ensures |a.inFlight| + |b.inFlight| <= a.thrManager.capacity
  {
    var ta, tb := Tickets(a, a.inFlight), Tickets(b, b.inFlight);
    TicketsSize(a, a.inFlight);
    TicketsSize(b, b.inFlight);
    assert ta !! tb;
    SubsetSize(ta + tb, a.thrManager.running);
  }

  /** The number of sheets being calculated on all of `lines`. */
  ghost function TotalInFlight(lines: seq<ProductionLineManager>): nat
    reads lines
  {
    if lines == [] then 0 else |lines[0].inFlight| + TotalInFlight(lines[1..])
  }

  /** The pool tickets that the sheets being calculated on `lines` hold; each
      belongs to one of the lines. */
  ghost function LineTickets(lines: seq<ProductionLineManager>): (ts: set<Ticket>)
    reads lines
    ensures forall t :: t in ts ==> exists k :: 0 <= k < |lines| && t.0 == lines[k] && t.1 in lines[k].inFlight
  {
    if lines == [] then {} else Tickets(lines[0], lines[0].inFlight) + LineTickets(lines[1..])
  }

  /** Distinct valid lines on one pool hold pairwise different tickets, all of
      them taken slots of that pool: one ticket per sheet being calculated. */
  lemma {:induction false} LineTicketsSize(lines: seq<ProductionLineManager>, pool: WorkThreadManager)
    requires forall i, j :: 0 <= i < j < |lines| ==> lines[i] != lines[j]
    requires forall k :: 0 <= k < |lines| ==> lines[k].Valid() && lines[k].thrManager == pool
    ensures |LineTickets(lines)| == TotalInFlight(lines)
    ensures LineTickets(lines) <= pool.running
    decreases |lines|
  {
    if lines != [] {
      var rest := lines[1..];
      LineTicketsSize(rest, pool);
      TicketsSize(lines[0], lines[0].inFlight);
      assert Tickets(lines[0], lines[0].inFlight) !! LineTickets(rest);
    }
  }

  /** Any number of distinct lines sharing one pool together never have more
      sheets being calculated than the pool has slots. */
  lemma PoolWithinCapacity(lines: seq<ProductionLineManager>, pool: WorkThreadManager)
    requires forall i, j :: 0 <= i < j < |lines| ==> lines[i] != lines[j]
    requires forall k :: 0 <= k < |lines| ==> lines[k].Valid() && lines[k].thrManager == pool
    requires pool.Valid()
    ensures TotalInFlight(lines) <= pool.capacity
  {
    LineTicketsSize(lines, pool);
    SubsetSize(LineTickets(lines), pool.running);
  }

  /** Lines sharing a pool do not interfere: a step that leaves line `a` itself
      alone and neither adds nor removes a ticket of `a` (a step of another line
      on the same pool) keeps `a` valid. */
  twostate lemma OtherLineStaysValid(a: ProductionLineManager)
    requires old(a.Valid()) && unchanged(a) && a.thrManager != null
    requires forall id :: (a, id) in old(a.thrManager.running) <==> (a, id) in a.thrManager.running
    ensures a.Valid()
  {
  }

  /** For a valid line, a dispatched sheet whose ticket is gone is no longer being
      calculated. This is the contrapositive of the ticket clause of `Valid`; that
      a slot goes back only after `calcFunc` ran is the order `RunCalcTask`
      keeps, and a release in any other order breaks `Valid`. */
  lemma ReleasedTaskWasCalculated(line: ProductionLineManager, id: nat)
    requires line.Valid() && line.thrManager != null
    requires id < line.currTask && (line, id) !in line.thrManager.running
    ensures id !in line.inFlight
  {
  }

  class ProductionLineManager {
    /** The shared pool, set by `start`. */
    var thrManager: WorkThreadManager?
    /** The number of the next sheet to hand back. */
    var retTask: nat
    /** The number the next fetched sheet gets. */
    var currTask: nat
    /** The reorder buffer. */
    var completedTasks: map<nat, Sheet>
    /** The line reported that it has no more sheets. */
    var gotAllTasks: bool

    /** Every sheet fetched, in fetch order: sheet number `k` is `fetched[k]`. */
    ghost var fetched: seq<Sheet>
    /** Every sheet handed back through `doneSheet`, in the order handed back. */
    ghost var returned: seq<Sheet>
    /** Numbers of the sheets dispatched whose `calcFunc` has not yet run. */
    ghost var inFlight: set<nat>
    /** `informFinished` has been called. */
    ghost var finished: bool

    ghost predicate Valid()
      reads this, thrManager
    {
      && currTask == |fetched|
      && (thrManager == null ==> fetched == [])
      && (thrManager != null ==>
            && (forall id :: id in inFlight ==> (this, id) in thrManager.running)
            && (forall t :: t in thrManager.running && t.0 == this ==> t.1 < currTask))
      && (forall k :: 0 <= k < |fetched| ==> fetched[k].WellFormed())
      && Window(completedTasks, inFlight, retTask, currTask)
      && (forall k :: k in completedTasks ==> k < |fetched| && completedTasks[k] == fetched[k])
      && returned == fetched[..retTask]
      && (finished ==> gotAllTasks && retTask == currTask)
    }

    constructor ()
      ensures Valid()
      ensures thrManager == null && !gotAllTasks && !finished
      ensures retTask == 0 && currTask == 0 && completedTasks == map[]
      ensures fetched == [] && returned == [] && inFlight == {}
    {
      thrManager := null;
      retTask, currTask := 0, 0;
      completedTasks := map[];
      gotAllTasks := false;
      fetched, returned, inFlight := [], [], {};
      finished := false;
    }

    /** `start`: attach the shared pool (the two threads it starts are the callers
        of the methods below). */
    method Start(manager: WorkThreadManager)
      requires Valid() && thrManager == null
      requires forall t :: t in manager.running ==> t.0 != this
      modifies this`thrManager
      ensures Valid() && thrManager == manager
    {
      thrManager := manager;
    }

    /** One turn of `taskGetter` in which `getSheet` returned no sheet: mark the
        input drained; the fetching thread then stops. */
    method TaskGetterEnd()
      requires Valid() && !gotAllTasks
      modifies this`gotAllTasks
      ensures Valid() && gotAllTasks
    {
      gotAllTasks := true;
    }

    /** One turn of `taskGetter` in which `getSheet` returned `sheet`: number it
        `currTask`, advance `currTask`, and take a pool slot for its `calcFunc`
        (the caller's wait in `execute` is over: a slot is free). The slot is
        held under the ticket `(this, id)`. */
    method TaskGetterDispatch(sheet: Sheet) returns (id: nat)
      requires Valid() && !gotAllTasks && sheet.WellFormed()
      requires thrManager != null && thrManager.Valid() && thrManager.freeThreads > 0
      modifies this`currTask, this`fetched, this`inFlight, thrManager
      ensures Valid()
      ensures id == old(currTask) && currTask == old(currTask) + 1
      ensures fetched == old(fetched) + [sheet] && fetched[id] == sheet
      ensures inFlight == old(inFlight) + {id}
      ensures thrManager.Valid() && thrManager.freeThreads == old(thrManager.freeThreads) - 1
      ensures thrManager.running == old(thrManager.running) + {(this, id)}
    {
      id := currTask;
      thrManager.Execute(this, id);
      currTask := currTask + 1;
      fetched := fetched + [sheet];
      inFlight := inFlight + {id};
    }

    /** `calcFunc(id, sheet)` on a worker: run `calc` on the sheet, then put it into
        the reorder buffer under its number. Each dispatched number is calculated
        exactly once. */
    method CalcFunc(id: nat, sheet: Sheet, solvers: Solvers)
      requires Valid() && id in inFlight && id < |fetched| && sheet == fetched[id]
      modifies this`completedTasks, this`inFlight, sheet
      ensures Valid()
      ensures completedTasks == old(completedTasks)[id := sheet]
      ensures inFlight == old(inFlight) - {id}
      ensures Calculated(sheet, solvers)
    {
      Calc(sheet, solvers);
      completedTasks := completedTasks[id := sheet];
      inFlight := inFlight - {id};
    }

    /** A worker thread of this line, start to end: `threadFunction` runs this
        line's `calcFunc(id, sheet)` and then gives the task's slot back. */
    method RunCalcTask(id: nat, sheet: Sheet, solvers: Solvers)
      requires Valid() && id in inFlight && id < |fetched| && sheet == fetched[id]
      requires thrManager != null && thrManager.Valid()
      modifies this`completedTasks, this`inFlight, sheet, thrManager
      ensures Valid()
      ensures completedTasks == old(completedTasks)[id := sheet]
      ensures inFlight == old(inFlight) - {id}
      ensures Calculated(sheet, solvers)
      ensures thrManager.Valid() && thrManager.running == old(thrManager.running) - {(this, id)}
      ensures thrManager.freeThreads == old(thrManager.freeThreads) + 1
    {
      CalcFunc(id, sheet, solvers);
      thrManager.ThreadFunction(this, id);
    }

    /** The guard of `taskReturner`'s outer loop: the line is done when its input
        is drained and every fetched sheet has been handed back, and then nothing
        is buffered or being calculated. */
    method ReturnerDone() returns (done: bool)
      requires Valid()
      ensures done <==> gotAllTasks && returned == fetched
      ensures done ==> completedTasks == map[] && inFlight == {}
    {
      done := gotAllTasks && retTask == currTask;
      if done {
        WindowSize(completedTasks, inFlight, retTask, currTask);
      }
    }

    /** The guard of `taskReturner`'s inner wait: the next sheet to hand back has
        been calculated. */
    method NextReady() returns (ready: bool)
      requires Valid()
      ensures ready <==> |returned| < |fetched| && |returned| !in inFlight
    {
      ready := retTask in completedTasks;
    }

    /** One turn of `taskReturner` once its wait is over: hand sheet `retTask` to
        `doneSheet`, erase it from the buffer and advance the cursor. */
    method ReturnerStep() returns (done: Sheet)
      requires Valid() && retTask in completedTasks
      modifies this`retTask, this`completedTasks, this`returned
      ensures Valid()
      ensures done == old(completedTasks[retTask]) && done == fetched[old(retTask)]
      ensures retTask == old(retTask) + 1
      ensures completedTasks == old(completedTasks) - {old(retTask)}
      ensures returned == old(returned) + [done]
    {
      done := completedTasks[retTask];
      returned := returned + [done];
      completedTasks := completedTasks - {retTask};
      retTask := retTask + 1;
    }

    /** The end of `taskReturner`: call `informFinished`, once, when every fetched
        sheet has been handed back exactly once, in fetch order. */
    method InformFinished()
      requires Valid() && gotAllTasks && retTask == currTask && !finished
      modifies this`finished
      ensures Valid() && finished
      ensures returned == fetched && completedTasks == map[] && inFlight == {}
    {
      WindowSize(completedTasks, inFlight, retTask, currTask);
      finished := true;
    }
  }
}
