/** What the parts of the kernel say about tasks: a task is named by its control block. */
module Tasks {
  type Task = nat

  /** pxMutexHolder */
  datatype Holder = Nobody | HeldBy(task: Task)
}
