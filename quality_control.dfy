/** The controller (`CQualityControl`): registers lines, starts them all on one
    shared pool, counts the lines still active, and lets `stop` return once that
    count is zero. */
module Control {
  import opened Intervals
  import opened Sheets
  import opened WorkerPool
  import opened ProductionLines

  class QualityControl {
    var lines: seq<ProductionLineManager>
    var activeLineCount: nat
    var started: bool
    /** The pool created by `start` and shared by every line. */
    var pool: WorkThreadManager?

    /** Indices of the lines whose `informFinished` has reached the controller;
        each of them has finished. */
    ghost var notified: set<nat>
    /** How many times `notify_all` has fired. */
    ghost var wakeUps: nat

    ghost predicate Valid()
      reads this, lines`finished
    {
      && (forall i, j :: 0 <= i < j < |lines| ==> lines[i] != lines[j])
      && (forall k :: k in notified ==> k < |lines| && lines[k].finished)
      && (!started ==> notified == {} && wakeUps == 0)
      && (started ==> activeLineCount + |notified| == |lines|)
      && wakeUps == (if notified != {} && activeLineCount == 0 then 1 else 0)
    }

    constructor ()
      ensures Valid() && !started && lines == [] && pool == null
      ensures activeLineCount == 0 && notified == {} && wakeUps == 0
    {
      lines, activeLineCount, started, pool := [], 0, false, null;
      notified, wakeUps := {}, 0;
    }

    /** `checkAlgorithm`: run the quality check of one sheet directly. */
    static method CheckAlgorithm(sheet: Sheet, solvers: Solvers)
      requires sheet.WellFormed()
      modifies sheet
      ensures Calculated(sheet, solvers)
    {
      Calc(sheet, solvers);
    }

    /** `addLine`: register a new line, not yet started. */
    method AddLine() returns (line: ProductionLineManager)
      requires Valid() && !started
      modifies this`lines
      ensures Valid() && fresh(line)
      ensures lines == old(lines) + [line]
      ensures line.Valid() && line.thrManager == null && line.inFlight == {}
      ensures !line.gotAllTasks && !line.finished && line.fetched == []
    {
      line := new ProductionLineManager();
      lines := lines + [line];
    }

    /** `start`: create the pool with `workThreads` slots, set the active count to
        the number of lines and attach every line to the pool. */
    method Start(workThreads: int)
      requires Valid() && !started && 1 <= workThreads
      requires forall i :: 0 <= i < |lines| ==> lines[i].Valid() && lines[i].thrManager == null
      modifies this, lines`thrManager
      ensures Valid() && started && lines == old(lines)
      ensures activeLineCount == |lines| && notified == {}
      ensures pool != null && fresh(pool) && pool.Valid()
      ensures pool.capacity == workThreads && pool.Running() == 0
      ensures forall i :: 0 <= i < |lines| ==> lines[i].Valid() && lines[i].thrManager == pool
    {
      var manager := new WorkThreadManager(workThreads as nat);
      activeLineCount := |lines|;
      for i := 0 to |lines|
        invariant lines == old(lines) && notified == {} && wakeUps == 0
        invariant activeLineCount == |lines| && !started
        invariant manager.Valid() && manager.capacity == workThreads && manager.Running() == 0
        invariant forall j :: 0 <= j < i ==> lines[j].Valid() && lines[j].thrManager == manager
        invariant forall j :: i <= j < |lines| ==> lines[j].Valid() && lines[j].thrManager == null
      {
        lines[i].Start(manager);
      }
      pool := manager;
      started := true;
    }

    /** However many lines run on the shared pool, the sheets being calculated
        on all of them together never outnumber its slots. */
    lemma LinesWithinCapacity()
      requires Valid() && started && pool != null && pool.Valid()
      requires forall k :: 0 <= k < |lines| ==> lines[k].Valid() && lines[k].thrManager == pool
      ensures TotalInFlight(lines) <= pool.capacity
    {
      PoolWithinCapacity(lines, pool);
    }

    /** `lineFinishedCallback`, called by line `k`'s `informFinished`: one line
        fewer is active; `notify_all` fires exactly when the count reaches zero,
        which happens once. Only a line that has finished calls back. */
    method LineFinishedCallback(ghost k: nat) returns (notifyAll: bool)
      requires Valid() && started && k < |lines| && k !in notified && lines[k].finished
      modifies this`activeLineCount, this`notified, this`wakeUps
      ensures Valid()
      ensures activeLineCount == old(activeLineCount) - 1
      ensures notified == old(notified) + {k}
      ensures notifyAll <==> activeLineCount == 0
      ensures notifyAll <==> notified == Interval(0, |lines|)
      ensures wakeUps == old(wakeUps) + (if notifyAll then 1 else 0) && wakeUps <= 1
    {
      SubsetOfIntervalSize(notified + {k}, 0, |lines|);
      activeLineCount := activeLineCount - 1;
      notified := notified + {k};
      notifyAll := activeLineCount == 0;
      if notifyAll {
        wakeUps := wakeUps + 1;
      }
      FullIntervalSize(notified, 0, |lines|);
    }

    /** The guard of `stop`'s wait: `stop` may return exactly when every registered
        line has called back (at once when there are no lines), and then every
        line has drained its input and handed back every sheet it fetched. */
    method StopMayReturn() returns (mayReturn: bool)
      requires Valid() && started
      requires forall k :: 0 <= k < |lines| ==> lines[k].Valid()
      ensures mayReturn <==> notified == Interval(0, |lines|)
      ensures mayReturn ==> forall k :: 0 <= k < |lines| ==>
                lines[k].finished && lines[k].gotAllTasks && lines[k].returned == lines[k].fetched
    {
      mayReturn := activeLineCount == 0;
      FullIntervalSize(notified, 0, |lines|);
    }
  }
}
