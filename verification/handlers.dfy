/**
 Checkout callbacks. A managed delegate is modelled only by its identity; the
 trampoline that `CheckoutCallbacks.From` builds around it is modelled as the
 pair of delegates it was built from, each present or absent.
 */
module Handlers {
  import opened GitTypes

  /** A `CheckoutProgressHandler` delegate supplied by the caller. */
  datatype ProgressHandler = ProgressHandler(id: nat)

  /** A `CheckoutNotifyHandler` delegate supplied by the caller. */
  datatype NotifyHandler = NotifyHandler(id: nat)

  /** The callbacks handed to the native checkout. */
  datatype CheckoutCallbacks = CheckoutCallbacks(onProgress: Option<ProgressHandler>, onNotify: Option<NotifyHandler>)

  /** `CheckoutCallbacks.From(progress, notify)`. */
  function From(progress: Option<ProgressHandler>, notify: Option<NotifyHandler>): CheckoutCallbacks
  {
    CheckoutCallbacks(progress, notify)
  }
}
