/**
 * The exceptions the integration can raise.  The client defines one general
 * error class and two subclasses of it (api.py:105-118); the code can also
 * raise Python's built-in exceptions itself (an AttributeError from `.get` on
 * a value that is not a dict, a TypeError from subscripting a list with a
 * string, a KeyError), which are not part of that hierarchy.
 */
module Errors {

  datatype Error =
    | General         // VolkswagenGoConnectApiClientError
    | Communication   // VolkswagenGoConnectApiClientCommunicationError
    | Authentication  // VolkswagenGoConnectApiClientAuthenticationError
    | Runtime         // a built-in exception raised by the integration's own code

  /** `isinstance(e, cls)` over the hierarchy: both subclasses are instances of General. */
  predicate InstanceOf(e: Error, cls: Error) {
    e == cls || (cls == General && e != Runtime)
  }
}
