/**
 * The Intel command-queue extension toggle shared by both engines
 * (Compute::SetUseIntelCommandQueueExtension, Render::SetUseIntelCommandQueueExtension).
 * The extension helper's "is the extension enabled on this device" answer is an input.
 */
module Extension {

  /** The outcome of asking an engine to use (or stop using) the extension. */
  datatype Reconfiguration = Reconfiguration(using: bool, recreateQueue: bool)

  /** The desired setting is masked by what the device supports; the command
   *  queue is recreated exactly when the resulting setting differs from the current one. */
  function Reconfigure(current: bool, desired: bool, enabled: bool): (r: Reconfiguration)
    // only a device that supports the extension uses it, and such a device follows the request
    ensures r.using ==> enabled
    ensures enabled ==> (r.using <==> desired)
    // a request that matches the current state is a no-op
    ensures current == (desired && enabled) ==> !r.recreateQueue && r.using == current
    // every change of setting, and only a change, recreates the queue
    ensures r.recreateQueue <==> r.using == !current
  {
    var setting := desired && enabled;
    Reconfiguration(setting, current != setting)
  }

  /** Asking twice for the same setting recreates the queue at most once. */
  lemma ReconfigureIdempotent(current: bool, desired: bool, enabled: bool)
    ensures var first := Reconfigure(current, desired, enabled);
            var second := Reconfigure(first.using, desired, enabled);
            second.using == first.using && !second.recreateQueue
  {
  }

  /** A device without the extension never ends up using it, whatever is asked. */
  lemma NeverUsedWithoutSupport(current: bool, desired: bool)
    ensures !Reconfigure(current, desired, false).using
  {
  }
}
