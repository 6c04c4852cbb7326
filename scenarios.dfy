/** Clients of the model: out-of-order completion on one line, the join of a
    controller whose one line has finished, and a controller with no lines. */
module Scenarios {
  import opened Sheets
  import opened WorkerPool
  import opened ProductionLines
  import opened Control

  /** One line with three sheets on a pool of three slots, where the last sheet
      finishes its calculation first and the first sheet finishes last: the sheets
      still come back in fetch order, after which the line informs that it is done. */
  method OutOfOrderCompletion(s0: Sheet, s1: Sheet, s2: Sheet, solvers: Solvers)
    returns (order: seq<Sheet>)
    requires s0.WellFormed() && s1.WellFormed() && s2.WellFormed()
    modifies s0, s1, s2
    ensures order == [s0, s1, s2]
  {
    var pool := new WorkThreadManager(3);
    var line := new ProductionLineManager();
    line.Start(pool);
    FetchAll(line, s0, s1, s2);
    CalculateLastFirst(line, s0, s1, s2, solvers);
    order := ReturnAll(line);
    line.InformFinished();
  }

  /** The fetching side takes three sheets, then the line reports no more. */
  method FetchAll(line: ProductionLineManager, s0: Sheet, s1: Sheet, s2: Sheet)
    requires line.Valid() && line.fetched == [] && !line.gotAllTasks
    requires s0.WellFormed() && s1.WellFormed() && s2.WellFormed()
    requires line.thrManager != null && line.thrManager.Valid() && line.thrManager.capacity == 3
    requires line.thrManager.running == {}
    modifies line, line.thrManager
    ensures line.Valid() && line.gotAllTasks && !line.finished
    ensures line.fetched == [s0, s1, s2] && line.inFlight == {0, 1, 2} && line.retTask == 0
    ensures line.thrManager == old(line.thrManager) && line.thrManager.Valid()
    ensures line.thrManager.running == {(line, 0), (line, 1), (line, 2)}
  {
    var id0 := line.TaskGetterDispatch(s0);
    var id1 := line.TaskGetterDispatch(s1);
    var id2 := line.TaskGetterDispatch(s2);
    line.TaskGetterEnd();
  }

  /** The workers finish sheets 2 and 1 first, while the returning side still
      waits for sheet 0; then sheet 0 is finished too. */
  method CalculateLastFirst(line: ProductionLineManager, s0: Sheet, s1: Sheet, s2: Sheet, solvers: Solvers)
    requires line.Valid() && line.inFlight == {0, 1, 2} && line.retTask == 0 && line.fetched == [s0, s1, s2]
    requires line.thrManager != null && line.thrManager.Valid()
    requires line.thrManager.running == {(line, 0), (line, 1), (line, 2)}
    modifies line, line.thrManager, s0, s1, s2
    ensures line.Valid() && line.inFlight == {} && line.retTask == 0
    ensures line.fetched == old(line.fetched) && line.gotAllTasks == old(line.gotAllTasks)
    ensures line.finished == old(line.finished)
    ensures line.thrManager == old(line.thrManager) && line.thrManager.Valid()
    ensures line.thrManager.running == {}
  {
    CalculateTwoLast(line, s1, s2, solvers);
    line.RunCalcTask(0, s0, solvers);
  }

  /** Sheets 2 and 1 are finished; sheet 0 is still in calculation, so the
      returning side keeps waiting. */
  method CalculateTwoLast(line: ProductionLineManager, s1: Sheet, s2: Sheet, solvers: Solvers)
    requires line.Valid() && line.inFlight == {0, 1, 2} && line.retTask == 0
    requires |line.fetched| == 3 && line.fetched[1] == s1 && line.fetched[2] == s2
    requires line.thrManager != null && line.thrManager.Valid()
    requires line.thrManager.running == {(line, 0), (line, 1), (line, 2)}
    modifies line, line.thrManager, s1, s2
    ensures line.Valid() && line.inFlight == {0} && line.retTask == 0
    ensures line.fetched == old(line.fetched) && line.gotAllTasks == old(line.gotAllTasks)
    ensures line.finished == old(line.finished)
    ensures line.thrManager == old(line.thrManager) && line.thrManager.Valid()
    ensures line.thrManager.running == {(line, 0)}
  {
    line.RunCalcTask(2, s2, solvers);
    line.RunCalcTask(1, s1, solvers);
    var ready := line.NextReady();
    assert !ready;
  }

  /** The returning side hands every buffered sheet back. */
  method ReturnAll(line: ProductionLineManager) returns (order: seq<Sheet>)
    requires line.Valid() && line.inFlight == {} && line.retTask == 0 && |line.fetched| == 3
    modifies line
    ensures line.Valid() && order == line.fetched && line.retTask == line.currTask
    ensures line.fetched == old(line.fetched) && line.gotAllTasks == old(line.gotAllTasks)
    ensures line.finished == old(line.finished)
  {
    var r0 := line.ReturnerStep();
    var r1 := line.ReturnerStep();
    var r2 := line.ReturnerStep();
    order := [r0, r1, r2];
  }

  /** A started controller with one line that has finished: its callback lets
      `stop` return, and the line has handed back everything it fetched. */
  method JoinOneLine(control: QualityControl, line: ProductionLineManager) returns (mayStop: bool)
    requires control.Valid() && control.started && control.lines == [line]
    requires control.notified == {} && line.Valid() && line.finished
    modifies control
    ensures mayStop && line.returned == line.fetched
  {
    var notifyAll := control.LineFinishedCallback(0);
    mayStop := control.StopMayReturn();
  }

  /** Two lines of one started controller share its pool. Each dispatches a
      sheet and line `a` finishes its sheet: a step of either line keeps the other
      valid and leaves its sheets alone, and the bound over all lines holds after
      every step. */
  method TwoLinesShareThePool(control: QualityControl, a: ProductionLineManager, b: ProductionLineManager,
                              s0: Sheet, s1: Sheet, solvers: Solvers)
    requires control.Valid() && control.started && control.lines == [a, b]
    requires control.pool != null && control.pool.Valid() && control.pool.freeThreads >= 2
    requires a.Valid() && a.thrManager == control.pool && !a.gotAllTasks && a.fetched == []
    requires b.Valid() && b.thrManager == control.pool && !b.gotAllTasks && b.fetched == []
    requires s0.WellFormed() && s1.WellFormed()
    modifies a`currTask, a`fetched, a`inFlight, a`completedTasks, b`currTask, b`fetched, b`inFlight
    modifies control.pool, s0
    ensures a.Valid() && b.Valid() && control.pool.Valid()
    ensures a.fetched == [s0] && a.inFlight == {} && a.completedTasks == map[0 := s0]
    ensures b.fetched == [s1] && b.inFlight == {0} && b.completedTasks == map[]
    ensures TotalInFlight(control.lines) <= control.pool.capacity
  {
    var id0 := DispatchOnBoth(control, a, b, s0, s1);
    CalculateOnFirst(control, a, b, id0, s0, s1, solvers);
  }

  /** Both lines of the controller dispatch one sheet each. */
  method DispatchOnBoth(control: QualityControl, a: ProductionLineManager, b: ProductionLineManager,
                        s0: Sheet, s1: Sheet) returns (id0: nat)
    requires control.Valid() && control.started && control.lines == [a, b]
    requires control.pool != null && control.pool.Valid() && control.pool.freeThreads >= 2
    requires a.Valid() && a.thrManager == control.pool && !a.gotAllTasks && a.fetched == []
    requires b.Valid() && b.thrManager == control.pool && !b.gotAllTasks && b.fetched == []
    requires s0.WellFormed() && s1.WellFormed()
    modifies a`currTask, a`fetched, a`inFlight, b`currTask, b`fetched, b`inFlight, control.pool
    ensures control.pool.Valid() && id0 == 0
    ensures a.Valid() && a.thrManager == control.pool && a.fetched == [s0] && a.inFlight == {0}
    ensures a.completedTasks == map[]
    ensures b.Valid() && b.thrManager == control.pool && b.fetched == [s1] && b.inFlight == {0}
    ensures b.completedTasks == map[]
    ensures TotalInFlight(control.lines) <= control.pool.capacity
  {
    assert control.lines[0] != control.lines[1];
    id0 := DispatchBeside(a, b, s0);
    var id1 := DispatchBeside(b, a, s1);
    control.LinesWithinCapacity();
  }

  /** A worker of the first line finishes its sheet while the second line's
      sheet is still being calculated. */
  method CalculateOnFirst(control: QualityControl, a: ProductionLineManager, b: ProductionLineManager,
                          id0: nat, s0: Sheet, s1: Sheet, solvers: Solvers)
    requires control.Valid() && control.started && control.lines == [a, b]
    requires control.pool != null && control.pool.Valid()
    requires a.Valid() && a.thrManager == control.pool && a.fetched == [s0] && a.inFlight == {0}
    requires a.completedTasks == map[] && id0 == 0
    requires b.Valid() && b.thrManager == control.pool && b.fetched == [s1] && b.inFlight == {0}
    requires b.completedTasks == map[]
    modifies a`completedTasks, a`inFlight, control.pool, s0
    ensures a.Valid() && b.Valid() && control.pool.Valid()
    ensures a.fetched == [s0] && a.inFlight == {} && a.completedTasks == map[0 := s0]
    ensures b.fetched == [s1] && b.inFlight == {0} && b.completedTasks == map[]
    ensures TotalInFlight(control.lines) <= control.pool.capacity
  {
    assert control.lines[0] != control.lines[1];
    CalculateBeside(a, b, id0, s0, solvers);
    control.LinesWithinCapacity();
  }

  /** `line` fetches and dispatches `sheet`; `other`, on the same pool, stays
      valid and unchanged. */
  method DispatchBeside(line: ProductionLineManager, other: ProductionLineManager, sheet: Sheet)
    returns (id: nat)
    requires line != other && line.Valid() && other.Valid() && !line.gotAllTasks && sheet.WellFormed()
    requires line.thrManager != null && line.thrManager == other.thrManager
    requires line.thrManager.Valid() && line.thrManager.freeThreads > 0
    modifies line`currTask, line`fetched, line`inFlight, line.thrManager
    ensures line.Valid() && other.Valid() && unchanged(other)
    ensures line.thrManager == old(line.thrManager) && line.thrManager.Valid()
    ensures line.thrManager.freeThreads == old(line.thrManager.freeThreads) - 1
    ensures id == old(line.currTask) && line.fetched == old(line.fetched) + [sheet]
    ensures line.inFlight == old(line.inFlight) + {id} && line.completedTasks == old(line.completedTasks)
    ensures line.gotAllTasks == old(line.gotAllTasks)
  {
    id := line.TaskGetterDispatch(sheet);
    OtherLineStaysValid(other);
  }

  /** A worker of `line` calculates sheet `id` and gives its slot back; `other`,
      on the same pool, stays valid and unchanged. */
  method CalculateBeside(line: ProductionLineManager, other: ProductionLineManager, id: nat, sheet: Sheet,
                         solvers: Solvers)
    requires line != other && line.Valid() && other.Valid()
    requires id in line.inFlight && id < |line.fetched| && sheet == line.fetched[id]
    requires line.thrManager != null && line.thrManager == other.thrManager && line.thrManager.Valid()
    modifies line`completedTasks, line`inFlight, line.thrManager, sheet
    ensures line.Valid() && other.Valid() && unchanged(other)
    ensures line.thrManager == old(line.thrManager) && line.thrManager.Valid()
    ensures line.fetched == old(line.fetched) && line.inFlight == old(line.inFlight) - {id}
    ensures line.completedTasks == old(line.completedTasks)[id := sheet]
  {
    line.RunCalcTask(id, sheet, solvers);
    OtherLineStaysValid(other);
  }

  /** With no lines registered, `stop` may return as soon as `start` has run. */
  method NoLines() returns (mayStop: bool)
    ensures mayStop
  {
    var control := new QualityControl();
    control.Start(1);
    mayStop := control.StopMayReturn();
  }
}
