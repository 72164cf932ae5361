/**
 * The context holding at most one attached MIDI controller (the older
 * generation of the context, which converts the mapped action).
 */
module ControllerMidi {
  import opened Common
  import opened Controller

  class SingleMidiControllerContext {
    var attached: Option<Attached>
    /** The controller threads aborted and joined so far, oldest first. */
    var joined: seq<ControllerThread>

    /** `Default`: nothing attached. */
    constructor ()
      ensures !IsAttached() && joined == []
    {
      attached := None;
      joined := [];
    }

    /** `is_attached`: a controller is stored. */
    predicate IsAttached()
      reads this
      ensures IsAttached() <==> attached.Some?
    {
      attached.Some?
    }

    /**
     * `detach_controller`: takes the stored controller out, aborting and
     * joining the thread of its task.
     */
    method DetachController() returns (r: Option<Controller>)
      modifies this
      ensures !IsAttached()
      ensures r.None? <==> !old(IsAttached())
      ensures r.Some? ==> r.value == old(attached).value.controller
      ensures joined == old(joined) + JoinedBy(old(attached))
    {
      if attached.None? {
        return None;
      }
      var Attached(controller, controllerThread) := attached.value;
      attached := None;
      if controllerThread.Some? {
        joined := joined + [controllerThread.value];
      }
      r := Some(controller);
    }

    /**
     * `attach_controller`: detaches any stored controller first, then
     * stores the new one with a thread spawned for its task.
     */
    method AttachController(controller: Controller, controllerTask: Option<ControllerTask>)
      modifies this
      ensures IsAttached() && attached == Some(Attached(controller, SpawnTask(controllerTask)))
      ensures joined == old(joined) + JoinedBy(old(attached))
    {
      var detached := DetachController();
      var controllerThread := SpawnTask(controllerTask);
      attached := Some(Attached(controller, controllerThread));
    }

    /**
     * `map_input_event`: the stored controller's mapping of the event,
     * converted by `into`, or nothing when no controller is stored.
     */
    method MapInputEvent<E, A, B>(event: E, mapping: (Controller, E) -> Option<A>, into: A -> B) returns (r: Option<B>)
      ensures !IsAttached() ==> r.None?
      ensures IsAttached() ==>
                var mapped := mapping(attached.value.controller, event);
                r.Some? == mapped.Some? && (r.Some? ==> r.value == into(mapped.value))
    {
      if attached.None? {
        return None;
      }
      var mapped := mapping(attached.value.controller, event);
      r := match mapped
        case None => None
        case Some(action) => Some(into(action));
    }
  }

  /** Detaching twice: the second detach finds nothing and joins no thread. */
  method DetachTwice(context: SingleMidiControllerContext) returns (first: Option<Controller>, second: Option<Controller>)
    modifies context
    ensures second.None? && !context.IsAttached()
    ensures first.Some? <==> old(context.IsAttached())
    ensures context.joined == old(context.joined) + JoinedBy(old(context.attached))
  {
    first := context.DetachController();
    second := context.DetachController();
  }
}
