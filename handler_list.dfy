/**
 * `HandlerList` (include/HandlerList.h), the older form of a module: constructing a list adds
 * its ten handler classes to the controller, in order, with the same per-kind routing as
 * `ModuleImplementation::addHandlers`.
 */
module HandlerLists {
  import opened Wrappers
  import opened Handlers
  import opened Controllers
  import Exceptions
  import Modules

  /**
   * The `HandlerList(controller)` constructor. The list keeps no state of its own, so the
   * model is the effect construction has on the controller, and the exception it may throw.
   */
  method Construct(controller: Controller, classes: seq<HandlerClass>) returns (o: Outcome<Exceptions.Failure>)
    requires |classes| == Modules.NumSlots
    requires controller.Valid()
    modifies controller
    ensures controller.Valid()
    ensures (controller.State(), o) == Modules.RouteAll(old(controller.State()), classes)
  {
    o := Modules.AddAllSlots(controller, classes);
  }
}
