/**
 * Controllers as seen by the controller contexts: a controller, its
 * optional async task and the thread running it are opaque tokens.
 */
module Controller {
  import opened Common

  /** A boxed controller; only its identity matters here. */
  datatype Controller = Controller(id: nat)

  /** A task to run alongside an attached controller. */
  datatype ControllerTask = ControllerTask(id: nat)

  /** The thread running a task; aborting and joining it is what detaching does. */
  datatype ControllerThread = ControllerThread(task: ControllerTask)

  /** `ControllerThread::spawn`. */
  function Spawn(task: ControllerTask): (t: ControllerThread)
    ensures t.task == task
  {
    ControllerThread(task)
  }

  /** An attached controller with the thread of its task, if it has one. */
  datatype Attached = Attached(controller: Controller, thread: Option<ControllerThread>)

  /** The thread spawned for an optional task. */
  function SpawnTask(task: Option<ControllerTask>): (t: Option<ControllerThread>)
    ensures t.Some? <==> task.Some?
    ensures t.Some? ==> t.value.task == task.value
  {
    match task
    case None => None
    case Some(task) => Some(Spawn(task))
  }

  /** The threads aborted and joined when `attached` is detached. */
  function JoinedBy(attached: Option<Attached>): (r: seq<ControllerThread>)
    ensures |r| <= 1
    ensures r != [] <==> attached.Some? && attached.value.thread.Some?
  {
    if attached.Some? && attached.value.thread.Some? then [attached.value.thread.value] else []
  }
}
