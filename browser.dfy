/**
 * The pieces of the browser and of the router that the components talk to:
 * `localStorage`, navigation requests, the URL tree a guard returns and a
 * pending `setTimeout`. Only what the components observe is kept.
 */
module Browser {
  import opened Wrappers

  /** `window.localStorage`: a string-to-string dictionary. */
  class LocalStorage {
    var items: map<string, string>

    constructor (initial: map<string, string>)
      ensures items == initial
    {
      items := initial;
    }

    /** `getItem(key)`: the stored string, or null. */
    function GetItem(key: string): (r: Option<string>)
      reads this
      ensures r.Some? <==> key in items
      ensures r.Some? ==> r.value == items[key]
    {
      if key in items then Some(items[key]) else None
    }

    /** `setItem(key, value)`. */
    method SetItem(key: string, value: string)
      modifies this
      ensures items == old(items)[key := value]
    {
      items := items[key := value];
    }

    /** `removeItem(key)`: removing a missing key is harmless. */
    method RemoveItem(key: string)
      modifies this
      ensures items == old(items) - {key}
    {
      items := items - {key};
    }
  }

  /**
   * The router: the URL it currently shows and the navigations requested from
   * it, in order (`navigate` and `navigateByUrl` both append the target).
   */
  class Router {
    var url: string
    var requests: seq<string>

    constructor (url: string)
      ensures this.url == url && requests == []
    {
      this.url := url;
      requests := [];
    }

    method Navigate(target: string)
      modifies this`requests
      ensures requests == old(requests) + [target]
    {
      requests := requests + [target];
    }
  }

  /** What `router.createUrlTree(commands, { queryParams })` builds. */
  datatype UrlTree = UrlTree(commands: seq<string>, queryParams: map<string, string>)

  /** A route guard's answer: `true`, or a redirect to a URL tree. */
  datatype GuardResult = Allow | Redirect(tree: UrlTree)

  /**
   * A `setTimeout` that has been armed and has not yet run: its delay in
   * milliseconds and the component-specific job its callback performs.
   */
  datatype Timeout<J> = Timeout(delay: int, job: J)
}
