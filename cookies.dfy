/**
 * The cookie jar that the HTTP client library hands out (`request.jar()`). The session layer
 * never looks inside the store: it only keeps the wrapper object, hands it to every request and
 * replaces the store it wraps when state is restored.
 */
module Cookies {

  /** The library's cookie store, known only by an identity; its contents belong to the library. */
  datatype CookieStore = CookieStore(handle: nat)

  /** The wrapper object: its one field is the store, which `deserialize` replaces in place. */
  class CookieJar {
    var store: CookieStore

    constructor (store: CookieStore)
      ensures this.store == store
    {
      this.store := store;
    }
  }
}
