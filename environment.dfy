/** The browser state the client touches: `localStorage`, the navigation history and the
    requests handed to `fetch`, in order. */
module Environment {
  import opened Common
  import opened Http

  class Browser {
    /** `localStorage`, a string-to-string store. */
    var storage: map<string, string>
    /** Every route navigated to (`navigate(path)` or `window.location.href = path`). */
    var history: seq<string>
    /** Every request sent, oldest first. */
    var requests: seq<Request>

    constructor (initial: map<string, string>)
      ensures storage == initial && history == [] && requests == []
    {
      storage := initial;
      history := [];
      requests := [];
    }

    /** `localStorage.getItem(key)`; `None` is `null`. */
    function GetItem(key: string): (r: Option<string>)
      reads this`storage
      ensures r.Some? <==> key in storage
      ensures r.Some? ==> r.value == storage[key]
    {
      if key in storage then Some(storage[key]) else None
    }

    /** `localStorage.setItem(key, value)`. */
    method SetItem(key: string, value: string)
      modifies this`storage
      ensures storage == old(storage)[key := value]
    {
      storage := storage[key := value];
    }

    /** `localStorage.removeItem(key)`. */
    method RemoveItem(key: string)
      modifies this`storage
      ensures storage == old(storage) - {key}
    {
      storage := storage - {key};
    }

    /** Navigation to `path`. */
    method Navigate(path: string)
      modifies this`history
      ensures history == old(history) + [path]
    {
      history := history + [path];
    }

    /** Hands `request` to `fetch`. */
    method Send(request: Request)
      modifies this`requests
      ensures requests == old(requests) + [request]
    {
      requests := requests + [request];
    }
  }
}
