/** What the page does to its window that the host can observe: adding and
    removing `message` listeners and posting messages to `window.parent`,
    kept as one append-only log so that their relative order is visible. */
module Browser {
  import opened Protocol

  /** The two `message` listeners of the core: the session listener of the
      auth provider and the analysis listener of the companies page. */
  datatype Listener = SessionListener | AnalysisListener

  datatype WindowEvent =
    | Listen(listener: Listener)
    | Unlisten(listener: Listener)
    | Post(message: HostMessage)

  /** The messages posted to the parent, in posting order. */
  function Posted(events: seq<WindowEvent>): seq<HostMessage>
    decreases |events|
  {
    if events == [] then []
    else
      var last := events[|events| - 1];
      Posted(events[..|events| - 1]) + (if last.Post? then [last.message] else [])
  }

  /** Whether `l` is registered after `events`: the last `Listen`/`Unlisten`
      of `l` is a `Listen` (adding a registered listener again changes nothing). */
  predicate Listening(events: seq<WindowEvent>, l: Listener)
    decreases |events|
  {
    if events == [] then false
    else
      var last := events[|events| - 1];
      if last == Listen(l) then true
      else if last == Unlisten(l) then false
      else Listening(events[..|events| - 1], l)
  }

  /** Logging one more event appends to the outbox at most that event's message. */
  lemma PostedAppend(events: seq<WindowEvent>, e: WindowEvent)
    ensures Posted(events + [e]) == Posted(events) + (if e.Post? then [e.message] else [])
  {
    assert (events + [e])[..|events|] == events;
  }

  /** Posted messages are never withdrawn: the outbox of a longer log extends
      the outbox of its prefix. */
  lemma {:induction false} PostedPrefix(events: seq<WindowEvent>, more: seq<WindowEvent>)
    ensures Posted(events) <= Posted(events + more)
    decreases |more|
  {
    if more != [] {
      var init := more[..|more| - 1];
      assert events + more == (events + init) + [more[|more| - 1]];
      PostedPrefix(events, init);
      PostedAppend(events + init, more[|more| - 1]);
    } else {
      assert events + more == events;
    }
  }

  /** Events about other listeners, and posts, do not change whether `l` listens. */
  lemma ListeningAppend(events: seq<WindowEvent>, e: WindowEvent, l: Listener)
    ensures Listening(events + [e], l) ==
      (if e == Listen(l) then true else if e == Unlisten(l) then false else Listening(events, l))
  {
    assert (events + [e])[..|events|] == events;
  }

  /** The page's window: whether it is framed (`window.self !== window.top`),
      whether `window.parent` is set, its `localStorage`, its location and
      the log of listener and post events. */
  class Window {
    const framed: bool
    const hasParent: bool
    var storage: map<string, string>
    var location: string
    var events: seq<WindowEvent>

    constructor (framed: bool, hasParent: bool, storage: map<string, string>, location: string)
      ensures this.framed == framed && this.hasParent == hasParent
      ensures this.storage == storage && this.location == location && events == []
    {
      this.framed := framed;
      this.hasParent := hasParent;
      this.storage := storage;
      this.location := location;
      events := [];
    }

    /** `localStorage.setItem(key, value)`. */
    method SetItem(key: string, value: string)
      modifies this
      ensures storage == old(storage)[key := value]
      ensures location == old(location) && events == old(events)
    {
      storage := storage[key := value];
    }

    /** `localStorage.removeItem(key)`. */
    method RemoveItem(key: string)
      modifies this
      ensures storage == old(storage) - {key}
      ensures location == old(location) && events == old(events)
    {
      storage := storage - {key};
    }

    /** `window.addEventListener('message', l)`, `window.removeEventListener`
        and `window.parent.postMessage(m, '*')`: each logs its event. */
    method Log(e: WindowEvent)
      modifies this
      ensures events == old(events) + [e]
      ensures storage == old(storage) && location == old(location)
    {
      events := events + [e];
    }
  }
}
