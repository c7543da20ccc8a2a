/**
 * The collaborators the adapter calls through to: the event, the listener
 * registrations, the throwables that cross the adapter, the container that
 * resolves service identifiers, and the wrapped Symfony dispatcher, which
 * owns the registry of listeners per event name.
 */
module Collaborators {

  datatype Option<+T> = None | Some(value: T)

  /** An event as the adapter sees it: a name to look listeners up by, and
      a payload the adapter passes along without looking at it. */
  datatype Event = Event(name: string, payload: map<string, string>)

  /** What can be thrown through the adapter. The first two are the
      exceptions the adapter itself raises, with the chained previous one;
      anything raised by code outside the adapter (a listener, `handle`,
      the container) is `Foreign`. */
  datatype Throwable =
    | InvalidArgumentException(message: string, previous: Option<Throwable>)
    | ContainerServiceNotFound(message: string, previous: Option<Throwable>)
    | Foreign(className: string, message: string)

  /** How a call into foreign code ends: it returns, or it throws. */
  datatype Outcome = Returns | Throws(thrown: Throwable)

  /** A listener registration: a callable, told apart from other callables
      by a tag and described by how calling it ends, or the identifier of
      a service the container can produce. */
  datatype Listener = Callable(tag: string, onCall: Outcome) | Ident(id: string)

  /** An object produced by the container: its class, whether it implements
      the listener interface, and how its `handle` call ends. */
  datatype Instance = Instance(className: string, isListener: bool, onHandle: Outcome)

  /** What the container's `get` does for an identifier: it produces an
      instance, or it throws. */
  datatype Resolution = Service(instance: Instance) | Unresolvable(thrown: Throwable)

  type Resolver = string -> Resolution

  /** The wrapped Symfony dispatcher, reduced to its per-name listener
      storage: registrations are kept in the order they were added. */
  class SymfonyDispatcher {
    var listeners: map<string, seq<Listener>>

    constructor ()
      ensures listeners == map[]
    {
      listeners := map[];
    }

    /** The listeners registered for a name, in registration order. */
    function GetListeners(eventName: string): seq<Listener>
      reads this
    {
      if eventName in listeners then listeners[eventName] else []
    }

    /** Appends one registration to the name's list and touches no other name. */
    method AddListener(eventName: string, listener: Listener)
      modifies this
      ensures GetListeners(eventName) == old(GetListeners(eventName)) + [listener]
      ensures forall other :: other != eventName ==> GetListeners(other) == old(GetListeners(other))
      ensures listeners.Keys == old(listeners.Keys) + {eventName}
    {
      listeners := listeners[eventName := GetListeners(eventName) + [listener]];
    }
  }
}
