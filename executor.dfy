/**
 * The single worker thread that runs engine work: a FIFO of tasks, a stop
 * flag, and a worker loop taken one iteration at a time (`Step`).
 */
module Executor {

  /** A submitted callable; `throws` says whether running it raises an exception. */
  datatype Task = Task(id: nat, throws: bool)

  /** `submit` either enqueues its job or throws because the executor is stopping. */
  datatype SubmitResult = Accepted | Rejected(message: string)

  /** What one iteration of the worker loop did. */
  datatype StepResult =
    | Waiting          // queue empty and not stopping: the worker blocks on the condition
    | Ran(task: Task)  // the front task was popped and run; an exception it threw was swallowed
    | Exited           // stopping with an empty queue: the worker returned

  const STOPPING_MESSAGE: string := "Executor is stopping"

  class SingleThreadExecutor {
    var tasks: seq<Task>
    var stop: bool
    var exited: bool
    /** Every task ever accepted, in submission order. */
    ghost var submitted: seq<Task>
    /** Every task the worker has run, in the order it ran them. */
    ghost var ran: seq<Task>

    /** Tasks run in submission order, each exactly once, and the rest wait in order. */
    ghost predicate Valid()
      reads this
    {
      submitted == ran + tasks &&
      (exited ==> stop && tasks == [])
    }

    constructor ()
      ensures Valid()
      ensures tasks == [] && !stop && !exited
      ensures submitted == [] && ran == []
    {
      tasks := [];
      stop := false;
      exited := false;
      submitted := [];
      ran := [];
    }

    /** `submit`: refuses once stopping, otherwise appends to the back of the queue. */
    method Submit(t: Task) returns (r: SubmitResult)
      requires Valid()
      modifies this
      ensures Valid()
      ensures r == if old(stop) then Rejected(STOPPING_MESSAGE) else Accepted
      ensures tasks == if old(stop) then old(tasks) else old(tasks) + [t]
      ensures submitted == if old(stop) then old(submitted) else old(submitted) + [t]
      ensures stop == old(stop) && exited == old(exited) && ran == old(ran)
    {
      if stop {
        return Rejected(STOPPING_MESSAGE);
      }
      tasks := tasks + [t];
      submitted := submitted + [t];
      r := Accepted;
    }

    /** One iteration of `run`. */
    method Step() returns (r: StepResult)
      requires Valid() && !exited
      modifies this
      ensures Valid()
      ensures stop == old(stop) && submitted == old(submitted)
      ensures old(tasks) == [] && !old(stop) ==> r == Waiting && unchanged(this)
      ensures old(tasks) == [] && old(stop) ==> r == Exited && exited && ran == old(ran)
      ensures old(tasks) != [] ==>
        r == Ran(old(tasks)[0]) && tasks == old(tasks)[1..] && ran == old(ran) + [old(tasks)[0]] && !exited
    {
      if tasks == [] {
        if stop {
          exited := true;
          return Exited;
        }
        return Waiting;
      }
      var task := tasks[0];
      tasks := tasks[1..];
      ran := ran + [task];
      // task.throws or not, the exception is caught and the loop goes on
      r := Ran(task);
    }

    /** First half of the destructor: raise the stop flag under the lock. */
    method RequestStop()
      requires Valid()
      modifies this
      ensures Valid()
      ensures stop && tasks == old(tasks) && exited == old(exited)
      ensures ran == old(ran) && submitted == old(submitted)
    {
      stop := true;
    }

    /**
     * Second half of the destructor: join, i.e. let the worker loop run
     * until it returns. Every task queued before the stop still runs, in order.
     */
    method Join()
      requires Valid() && stop
      modifies this
      ensures Valid()
      ensures stop && exited && tasks == []
      ensures ran == old(ran) + old(tasks)
      ensures submitted == old(submitted)
    {
      while !exited
        invariant Valid() && stop && submitted == old(submitted)
        invariant ran + tasks == old(ran) + old(tasks)
        decreases |tasks| + (if exited then 0 else 1)
      {
        var r := Step();
      }
    }
  }

  /** Submitting after the stop flag is set leaves the queue alone and reports the stop. */
  method SubmitAfterStop(e: SingleThreadExecutor, t: Task) returns (r: SubmitResult)
    requires e.Valid()
    modifies e
    ensures e.Valid()
    ensures r == Rejected(STOPPING_MESSAGE)
    ensures e.tasks == old(e.tasks) && e.submitted == old(e.submitted)
  {
    e.RequestStop();
    r := e.Submit(t);
  }
}
