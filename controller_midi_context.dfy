/**
 * The context holding at most one attached MIDI controller, together with
 * the thread of its task (the newer generation of the context).
 */
module ControllerMidiContext {
  import opened Common
  import opened Controller

  class SingleMidiControllerContext {
    var attached: Option<Attached>
    /** The controller threads aborted and joined so far, oldest first. */
    var joined: seq<ControllerThread>

    /** `Default`: nothing attached. */
    constructor ()
      ensures attached.None? && joined == []
    {
      attached := None;
      joined := [];
    }

    /** `attached_controller`: the attached controller, if any. */
    function AttachedController(): (r: Option<Controller>)
      reads this
      ensures r.None? <==> attached.None?
      ensures r.Some? ==> r.value == attached.value.controller
    {
      match attached
      case None => None
      case Some(a) => Some(a.controller)
    }

    /**
     * `detach_controller`: takes the attached controller out, aborting
     * and joining the thread of its task.
     */
    method DetachController() returns (r: Option<Controller>)
      modifies this
      ensures attached.None?
      ensures r.None? <==> old(attached).None?
      ensures r.Some? ==> r.value == old(attached).value.controller
      ensures joined == old(joined) + JoinedBy(old(attached))
    {
      if attached.None? {
        return None;
      }
      var Attached(controller, controllerThread) := attached.value;
      attached := None;
      if controllerThread.Some? {
        joined := joined + [controllerThread.value];
      }
      r := Some(controller);
    }

    /**
     * `attach_controller`: detaches any attached controller first, then
     * attaches the new one with a thread spawned for its task.
     */
    method AttachController(controller: Controller, controllerTask: Option<ControllerTask>)
      modifies this
      ensures attached == Some(Attached(controller, SpawnTask(controllerTask)))
      ensures joined == old(joined) + JoinedBy(old(attached))
    {
      var detached := DetachController();
      var controllerThread := SpawnTask(controllerTask);
      attached := Some(Attached(controller, controllerThread));
    }

    /**
     * `map_input_event`: the attached controller's mapping of the event,
     * or nothing when no controller is attached.
     */
    method MapInputEvent<E, A>(event: E, mapping: (Controller, E) -> Option<A>) returns (r: Option<A>)
      ensures attached.None? ==> r.None?
      ensures attached.Some? ==> r == mapping(attached.value.controller, event)
    {
      if attached.None? {
        return None;
      }
      r := mapping(attached.value.controller, event);
    }
  }

  /**
   * Attaching a second controller replaces the first one, whose thread
   * is aborted and joined; detaching then yields the second one and
   * leaves the context empty.
   */
  method AttachReplaceDetach(context: SingleMidiControllerContext, first: Controller, second: Controller,
                             task: ControllerTask)
    returns (detached: Option<Controller>)
    requires context.attached.None?
    modifies context
    ensures detached == Some(second)
    ensures context.AttachedController().None?
    ensures context.joined == old(context.joined) + [Spawn(task)]
  {
    context.AttachController(first, Some(task));
    context.AttachController(second, None);
    detached := context.DetachController();
  }
}
