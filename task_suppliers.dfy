/** Sources of work for the pool, and the library's default, always-empty one. */
module TaskSuppliers {

  import opened Wrappers

  /** A unit of work: an opaque runnable, told apart only by its identity. */
  datatype Task = Task(id: nat)

  /** A supplier the pool pulls from. `Nil` is the library's stateless,
      always-empty supplier. `Queue` stands for any other supplier: its state
      is the finite sequence of tasks it will still hand out, front first. */
  datatype TaskSupplier = Nil | Queue(pending: seq<Task>)

  /** What one pull yields: a task or none, and the supplier's state after it. */
  datatype Pull = Pull(task: Option<Task>, next: TaskSupplier)

  /** The tasks the supplier will still hand out, in order. */
  function Pending(s: TaskSupplier): seq<Task>
  {
    match s
    case Nil => []
    case Queue(p) => p
  }

  /** Asks the supplier for one task. It answers none exactly when it has no
      work, and then its state is unchanged; otherwise it hands out the task at
      its front and keeps the rest. */
  function GetTask(s: TaskSupplier): (r: Pull)
    ensures r.task.None? <==> Pending(s) == []
    ensures r.task.None? ==> r.next == s
    ensures r.task.Some? ==> Pending(s) == [r.task.value] + Pending(r.next)
    ensures r.next.Nil? <==> s.Nil?
  {
    match s
    case Nil => Pull(None, Nil)
    case Queue(p) => if p == [] then Pull(None, s) else Pull(Some(p[0]), Queue(p[1..]))
  }

  /** The shared always-empty supplier: it never has work, and pulling from it
      leaves it as it was, so every pull gives the same answer. */
  function NoTasks(): (r: TaskSupplier)
    ensures Pending(r) == []
    ensures GetTask(r) == Pull(None, r)
  {
    Nil
  }
}
