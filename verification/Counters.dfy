/** The counters and the semaphore of service.cpp that tell the main thread how many threads run, failed or ended. */
module Counters {

  /** `zero_thread_count`, `zero_thread_run`, `zero_thread_bad` and the value of `task_semaphore`. */
  datatype Counts = Counts(count: int, run: int, bad: int, permits: nat)

  function CheckStart(c: Counts): Counts {
    if c.run + c.bad <= 2 then c.(permits := c.permits + 1)
    else if c.run + c.bad == c.count then c.(permits := c.permits + 1)
    else c
  }

  function ReportRun(c: Counts): Counts {
    CheckStart(c.(run := c.run + 1))
  }

  function ReportBad(c: Counts): Counts {
    CheckStart(c.(bad := c.bad + 1))
  }

  function ReportEnd(c: Counts): Counts {
    var d := c.(run := c.run - 1);
    if d.run <= 1 then d.(permits := d.permits + 1) else d
  }

  /** The globals of service.cpp; every method runs under `task_mutex`. */
  class ThreadCounters {
    var zeroThreadCount: int
    var zeroThreadRun: int
    var zeroThreadBad: int
    var taskSemaphore: nat

    function Value(): Counts
      reads this
    {
      Counts(zeroThreadCount, zeroThreadRun, zeroThreadBad, taskSemaphore)
    }

    constructor ()
      ensures Value() == Counts(0, 0, 0, 0)
    {
      zeroThreadCount, zeroThreadRun, zeroThreadBad, taskSemaphore := 0, 0, 0, 0;
    }

    method ResetCommandThread(count: int)
      modifies this
      ensures Value() == Counts(count, 0, 0, old(taskSemaphore))
    {
      zeroThreadBad := 0;
      zeroThreadRun := 0;
      zeroThreadCount := count;
    }

    method CheckSemaphoreStart()
      modifies this`taskSemaphore
      ensures Value() == CheckStart(old(Value()))
    {
      if zeroThreadRun + zeroThreadBad <= 2 {
        taskSemaphore := taskSemaphore + 1;
      } else if zeroThreadRun + zeroThreadBad == zeroThreadCount {
        taskSemaphore := taskSemaphore + 1;
      }
    }

    method SetCommandThreadRun()
      modifies this
      ensures Value() == ReportRun(old(Value()))
    {
      zeroThreadRun := zeroThreadRun + 1;
      CheckSemaphoreStart();
    }

    method SetCommandThreadBad()
      modifies this
      ensures Value() == ReportBad(old(Value()))
    {
      zeroThreadBad := zeroThreadBad + 1;
      CheckSemaphoreStart();
    }

    method SetCommandThreadEnd()
      modifies this
      ensures Value() == ReportEnd(old(Value()))
    {
      zeroThreadRun := zeroThreadRun - 1;
      if zeroThreadRun <= 1 {
        taskSemaphore := taskSemaphore + 1;
      }
    }
  }

  /**
    A thread that ends and whose replacement then reports leaves the semaphore as it was exactly when more than
    two threads stay counted as running or bad and the total is not the number expected at the start.
   */
  lemma RestartPostsNothing(c: Counts)
    ensures ReportRun(ReportEnd(c)).permits == c.permits <==> c.run > 2 && c.run + c.bad > 2 && c.run + c.bad != c.count
  {
  }
}
