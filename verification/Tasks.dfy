/** The shared list of tasks that are ready to be polled (`src/task.rs`).
    A waker is modelled by the identifier of the task it wakes. */
module Tasks {

  type TaskId = nat

  /** Where the loop of `block_on` stands: `Head` is its test, and `Polling` lasts from
      taking the batch of ready tasks until the clock is advanced. */
  datatype Phase = Head | Polling

  class ReadyQueue {
    var tasks: seq<TaskId>

    constructor ()
      ensures tasks == []
    {
      tasks := [];
    }

    /** Waking a task appends it, even when it is queued already. */
    method Wake(t: TaskId)
      modifies this
      ensures tasks == old(tasks) + [t]
    {
      tasks := tasks + [t];
    }

    /** Hands out the whole queue and leaves it empty. */
    method Take() returns (batch: seq<TaskId>)
      modifies this
      ensures batch == old(tasks) && tasks == []
    {
      batch := tasks;
      tasks := [];
    }
  }
}
