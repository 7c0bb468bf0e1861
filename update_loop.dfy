/**
 * The update loop: a process-wide object whose timer, on every tick, invokes
 * the multicast `OnUpdate` event, and whose Subscribe/Unsubscribe edit that
 * event's invocation list with `+=` and `-=`.
 */
module Scheduler {
  import opened Wrappers
  import Delegates

  /**
   * Identity of a subscribed `Action`. Two delegates to the same method are
   * equal exactly when their targets are, so a subscriber is identified by
   * its target object.
   */
  type Action = object

  class UpdateLoop {
    /** The invocation list of `OnUpdate`; empty stands for a null event. */
    var onUpdate: seq<Action>

    /** A new loop has no subscribers; starting its timer is not modelled. */
    constructor ()
      ensures onUpdate == []
    {
      onUpdate := [];
    }

    /** `OnUpdate += updateAction`: one more registration, at the end. */
    method Subscribe(updateAction: Action)
      modifies this
      ensures onUpdate == old(onUpdate) + [updateAction]
      ensures multiset(onUpdate)[updateAction] == multiset(old(onUpdate))[updateAction] + 1
    {
      onUpdate := onUpdate + [updateAction];
    }

    /**
     * `OnUpdate -= updateAction`: the last registration of `updateAction` is
     * dropped; nothing changes when it is not registered.
     */
    method Unsubscribe(updateAction: Action)
      modifies this
      ensures onUpdate == Delegates.Remove(old(onUpdate), updateAction)
      ensures updateAction !in old(onUpdate) ==> onUpdate == old(onUpdate)
      ensures multiset(onUpdate) == multiset(old(onUpdate)) - multiset{updateAction}
    {
      Delegates.RemoveCounts(onUpdate, updateAction);
      onUpdate := Delegates.Remove(onUpdate, updateAction);
    }

    /**
     * One timer tick, `OnUpdate?.Invoke()`: the invocation list is walked in
     * order and each entry is called once, so the calls made are the list
     * itself, one per registration; an empty list calls nothing. The loop
     * is the walk `Invoke` makes over the list; DeliverTick gives each call
     * in it its effect on the window.
     */
    method Tick() returns (invoked: seq<Action>)
      ensures invoked == onUpdate
    {
      invoked := [];
      var i := 0;
      while i < |onUpdate|
        invariant 0 <= i <= |onUpdate|
        invariant invoked == onUpdate[..i]
      {
        invoked := invoked + [onUpdate[i]];
        i := i + 1;
      }
    }
  }

  /** The static field `_instance` behind `UpdateLoop.Instance`. */
  class UpdateLoopStatics {
    var instance: Option<UpdateLoop>

    /** Before the first access no loop exists. */
    constructor ()
      ensures instance == None
    {
      instance := None;
    }

    /** The loop objects reachable from the static field. */
    ghost function Loops(): set<object>
      reads this
    {
      if instance.Some? then {instance.value} else {}
    }

    /** The current invocation list of the singleton, empty before it exists. */
    ghost function Registered(): seq<Action>
      reads this, Loops()
    {
      if instance.Some? then instance.value.onUpdate else []
    }

    /**
     * `_instance ??= new UpdateLoop()`: the first access creates the loop,
     * every later access returns that same object and changes nothing.
     */
    method Instance() returns (loop: UpdateLoop)
      modifies this
      ensures instance == Some(loop)
      ensures old(instance).Some? ==> loop == old(instance).value
      ensures old(instance).None? ==> fresh(loop) && loop.onUpdate == []
      ensures Registered() == old(Registered())
    {
      if instance.None? {
        var created := new UpdateLoop();
        instance := Some(created);
      }
      loop := instance.value;
    }
  }
}
