# Quality control of production lines — a Dafny model

The program checks sheets coming from several production lines. Each line gives
out sheets one at a time. Every sheet goes through a CPU-bound quality check
(`calc`) on a worker thread taken from a pool shared by all lines. A line must
get its checked sheets back in exactly the order it gave them out. The
controller waits until every line has finished.

This project models the sequential bookkeeping under the threads as state
machines. Each thread action is one method call. An interleaving is any
sequence of calls that meets the methods' preconditions. A condition-variable
wait becomes the precondition that the wait's guard has become false, and each
guard is also a query method.

- `Sheets` models a sheet and `calc`. The flat thickness field is copied,
  row-major, into a `length x width` array (`BuildGrid`). Each query's result
  is then overwritten with the answer of the solver (`AnswerAll`, `Calc`).
  `Reshape` and `Flatten` give the row-major layout and its inverse.
- `WorkerPool` models `WorkThreadManager`: a free-slot counter that `execute`
  takes from and `threadFunction` gives back to. A ghost set of tickets says
  which task holds each taken slot; a ticket is the dispatching line and the
  sheet id.
- `ProductionLines` models `ProductionLineManager`. Each fetched sheet gets the
  number `currTask`. A worker stores the finished sheet in `completedTasks`
  under that number. The returning side drains `completedTasks` in cursor
  (`retTask`) order. Four ghost fields record what happened:
  - `fetched`: the fetch order;
  - `returned`: the `doneSheet` order;
  - `inFlight`: numbers whose calculation has not finished;
  - `finished`: whether `informFinished` has been called.

  The invariant `Valid` states:
  - `currTask` is the number of sheets fetched;
  - every buffered key lies in `[retTask, currTask)`, and each number in that
    window is either buffered or in flight (`Window`);
  - a buffered sheet is the sheet fetched under its number;
  - the returned sheets are exactly the first `retTask` fetched sheets, in
    order;
  - every sheet still being calculated holds a pool ticket. A line's slots are
    taken only by `TaskGetterDispatch` (`execute`) and given back only by
    `RunCalcTask`, which runs `calcFunc` before `threadFunction` frees the
    slot, as the code's worker does. A step of one line changes only that
    line and its own tickets, so it keeps every other line on the pool valid
    (`OtherLineStaysValid`): lines do not disturb each other's order or
    completeness. So the lines sharing a pool never have more sheets in
    calculation, all together, than the pool has slots.
- `Control` models `CQualityControl`: lines are registered, then started on
  one pool. The count of active lines goes down once per line whose
  `informFinished` has run, and `notify_all` fires on the one transition to
  zero. When `stop` may return, every line has drained its input and handed
  back every sheet it fetched.
- `Scenarios` holds four clients. In the first, three sheets finish in
  reverse order and are still handed back in fetch order. In the second, the
  callback of a controller's only line lets `stop` return. In the third, a
  controller with no lines may stop at once. In the fourth, two lines of one
  controller take turns on the shared pool; each keeps the other valid, and
  the bound over all lines holds after every step.

The entry for `retTask` can sit in `completedTasks` between `calcFunc`'s insert
and the returner's wake-up (solution.cpp:151-152, 139-140). The model allows
this: `NextReady` may hold before `ReturnerStep` runs.

## Model

| member | source | states |
|---|---|---|
| `Sheets.Reshape` | solution.cpp:75-81 | the grid has `length` rows, each `width` cells wide |
| `Sheets.ReshapeAt` | solution.cpp:79 | grid cell `(i, j)` is thickness entry `width * i + j`, and that index lies inside the field |
| `Sheets.FlattenReshape` | solution.cpp:76-81 | reading the grid back row by row gives the first `width * length` thickness values, so the copy loses and reorders nothing |
| `Sheets.ReshapeFlatten` | solution.cpp:76-81 | laying out a rectangular grid flat and reshaping it gives the same grid back |
| `Sheets.BuildGrid` | solution.cpp:75-81 | a new `length x width` array with `grid[i, j] == thickness[width * i + j]` for every cell; its contents are `Reshape` of the field |
| `Sheets.AnswerAll` | solution.cpp:82-91 | every query keeps its parameter and position, and its result is the solver's answer for that parameter |
| `Sheets.Calc` | solution.cpp:74-96 | all three query lists keep their length and parameters; every result is the matching solver applied to the reshaped grid, width, length and the query's parameter (`Calculated`) |
| `WorkerPool.WorkThreadManager.constructor` | solution.cpp:59 | a pool of `threadCount >= 1` slots starts with all slots free and no task holding one |
| `WorkerPool.WorkThreadManager.HasFreeThread` | solution.cpp:63-65 | `execute`'s wait may end exactly when fewer than `capacity` tasks hold a slot |
| `WorkerPool.WorkThreadManager.Execute` | solution.cpp:61-67 | taking a slot needs a free one; `freeThreads` drops by one and the new task's ticket is added; free slots plus ticket holders always equal `capacity`, so running tasks never exceed capacity |
| `WorkerPool.WorkThreadManager.ThreadFunction` | solution.cpp:50-56 | only a task holding a ticket gives a slot back, once; `freeThreads` grows by one and stays at most `capacity` |
| `ProductionLines.WindowSize` | solution.cpp:132-153 | under the window invariant, buffered plus in-flight sheets number exactly `currTask - retTask`, so the buffer never holds more than that |
| `ProductionLines.ProductionLineManager.constructor` | solution.cpp:106-113 | a new line has both counters at 0, an empty buffer, nothing fetched or returned, and is not drained |
| `ProductionLines.ProductionLineManager.Start` | solution.cpp:114-118 | attaches the shared pool, which holds no ticket of this line yet, and changes nothing else |
| `ProductionLines.ProductionLineManager.TaskGetterEnd` | solution.cpp:127-130 | a missing sheet sets `gotAllTasks`; the invariant still holds |
| `ProductionLines.ProductionLineManager.TaskGetterDispatch` | solution.cpp:126-133 | the new sheet gets id `currTask` and `currTask` grows by one, so ids are `0, 1, 2, ...` in fetch order with no gaps; the sheet is appended to the fetch log and counted in flight; one pool slot is taken under the ticket `(line, id)` |
| `ProductionLines.InFlightWithinCapacity` | solution.cpp:61-67 | a line never has more sheets in calculation than the shared pool has slots |
| `ProductionLines.SharedPoolWithinCapacity` | solution.cpp:50-67 | two distinct lines on one pool together never have more sheets in calculation than the pool has slots |
| `ProductionLines.LineTicketsSize` | solution.cpp:50-67 | distinct lines on one pool hold one distinct taken slot per sheet in calculation |
| `ProductionLines.PoolWithinCapacity` | solution.cpp:50-67 | any number of distinct lines on one pool together never have more sheets in calculation than the pool has slots |
| `ProductionLines.ReleasedTaskWasCalculated` | solution.cpp:50-56 | for a valid line, a dispatched sheet whose ticket is gone is no longer in calculation; the release order itself is kept by `RunCalcTask` |
| `ProductionLines.OtherLineStaysValid` | solution.cpp:98-154 | a step that leaves a line and its tickets alone, such as a step of another line on the same pool, keeps that line valid |
| `ProductionLines.ProductionLineManager.RunCalcTask` | solution.cpp:50-56 | a worker thread of the line runs `calcFunc` (the sheet is `Calculated` and buffered under its id) and then gives back exactly that task's slot |
| `ProductionLines.ProductionLineManager.CalcFunc` | solution.cpp:148-153 | the sheet is calculated (`Calculated`) and stored under its own id; no other buffer entry changes; the id leaves the in-flight set, so an id is inserted at most once |
| `ProductionLines.ProductionLineManager.ReturnerDone` | solution.cpp:137 | the returner's outer loop ends exactly when input is drained and every fetched sheet has been returned; the buffer and in-flight set are then empty |
| `ProductionLines.ProductionLineManager.NextReady` | solution.cpp:139-141 | the inner wait ends exactly when the next sheet to return has been fetched and its calculation has finished |
| `ProductionLines.ProductionLineManager.ReturnerStep` | solution.cpp:139-143 | the sheet handed to `doneSheet` is the entry at key `retTask`, which is the sheet fetched under that id; exactly that key is erased; `retTask` grows by one; the returned log gains that sheet and stays the fetch-order prefix |
| `ProductionLines.ProductionLineManager.InformFinished` | solution.cpp:137-146 | `informFinished` is reached once, when input is drained and `retTask == currTask`; every fetched sheet has then been returned exactly once, in fetch order, and the buffer is empty |
| `Control.QualityControl.constructor` | solution.cpp:156-161 | an empty registry, not started, no pool; the active count, which the code leaves uninitialised, is 0 |
| `Control.QualityControl.CheckAlgorithm` | solution.cpp:171 | the direct check of one sheet leaves it `Calculated`, as a worker's `calc` does |
| `Control.QualityControl.AddLine` | solution.cpp:172-175 | appends one new, not yet started line to the registry |
| `Control.QualityControl.Start` | solution.cpp:176-182 | creates one pool of `workThreads` free slots, sets the active count to the number of lines, and attaches every line to that pool |
| `Control.QualityControl.LinesWithinCapacity` | solution.cpp:176-182 | after `start`, all registered lines together never have more sheets in calculation than the shared pool has slots |
| `Control.QualityControl.LineFinishedCallback` | solution.cpp:163-168 | called once per line whose `informFinished` has run; decrements the active count once, without wrapping; `notify_all` fires exactly on the transition to zero, which is exactly when every line has called back, and it fires at most once |
| `Control.QualityControl.StopMayReturn` | solution.cpp:183-188 | `stop` may return exactly when every registered line has called back; every line has then finished, drained its input, and handed back exactly the sheets it fetched, in fetch order |
| `Scenarios.OutOfOrderCompletion` | solution.cpp:125-153 | three sheets finished in the order 2, 1, 0 are handed back in the order 0, 1, 2 |
| `Scenarios.JoinOneLine` | solution.cpp:163-168 | once its only line has finished and called back, `stop` may return, and that line has handed back all it fetched |
| `Scenarios.TwoLinesShareThePool` | solution.cpp:125-153 | two lines on one pool each dispatch a sheet and one finishes its sheet; each line's fetch log and buffer hold only its own sheets, and all lines together stay within the pool's slots |
| `Scenarios.NoLines` | solution.cpp:176-188 | with zero lines, `stop` may return as soon as `start` has run |

## Left out

- Threads are not modelled, and neither are their creation, `detach` and the destructor's `join` (solution.cpp:69-70, 116-121), mutexes, condition variables or `std::atomic_bool`. Each wait is the precondition or query that its guard has become false.
- Liveness is not claimed, and in particular not that `stop` always returns. `taskGetter` sets `gotAllTasks` without notifying the returner (solution.cpp:129). `currTask` is incremented outside the line's mutex while the returner reads it under that mutex (solution.cpp:132, 137). So the returner can sleep for ever in its inner wait. The model states safety only.
- `TaskGetterDispatch` makes three steps one atomic step: assigning the id, incrementing `currTask`, and `execute` taking a slot. In the code `currTask++` happens before `execute` waits. This does not change any safety property stated here.
- WorkerPool.WorkThreadManager.ThreadFunction: the pool alone does not know that a task's function has returned; it only requires the task's ticket. The code's worker always runs the function before `freeThreads++` (solution.cpp:51-53). Here that order is kept by `RunCalcTask`, and a line's `Valid` fails if one of its in-flight tickets is released any other way.
- Control.QualityControl.Start: one atomic step. In the code the count is set first (solution.cpp:178) and the lines are then started one by one (solution.cpp:179-181), so a line started early may call back before the later lines are started. The count is set first, so no property stated here changes.
- Sheet ids and `retTask`/`currTask` are unbounded naturals. The 32-bit wrap-around of `uint32_t` after 2^32 sheets on one line is not modelled.
- StopMayReturn: requires `started`. Calling `stop` before `start` reads an uninitialised `activeLineCount` in the code (solution.cpp:159, 185), which is not modelled.
- `Sheet.width` and `Sheet.length` are `nat`. In the code a negative length (solution.cpp:75), or a negative width with a positive length (solution.cpp:77), makes `new[]` throw, and with length 0 a negative width reaches the solvers. The `int` index `width * i + j` (solution.cpp:79) can overflow on fields of more than 2^31 cells. Neither is modelled.
- `Sheet.WellFormed` assumes `width * length <= |thickness|`. The code indexes `m_Thickness` without a check (solution.cpp:79); a shorter field is undefined behaviour there and is excluded here.
- The conversion of `start`'s `int workThreads` to `uint32_t` is not modelled (solution.cpp:176-177, 59). The model requires `workThreads >= 1` instead, so zero and negative capacities are excluded.
- The solvers `maxRectByRelDev`, `maxRectByVolume` and `maxRectByMinMax` are uninterpreted function values passed as parameters (`Solvers`). They live in `progtest_solver.h`, which is not part of this model. Neither is `sample_tester.h`, which defines the sheet and line types. `Rect`, `MinMax` and the query parameter types (`real`, `int`) stand in for those types.
- `getSheet` and `doneSheet` are events. A fetched sheet is a parameter of `TaskGetterDispatch`, and a missing sheet is the call `TaskGetterEnd`. A returned sheet is the result of `ReturnerStep`. The `std::function` callback is a controller method that takes the finishing line's index as a ghost parameter.
- `calc` allocates and frees its grid (solution.cpp:75, 92-95). Here the grid is a fresh two-dimensional array rather than an array of row arrays, and freeing is not modelled.
- The unused `cout_mu` (solution.cpp:43) and `main` with its sample line (solution.cpp:191-205) are not modelled.
