/**
 * The adapter from the framework's event-dispatcher interface to the Symfony
 * dispatcher. `Process` and `Run` specify what dispatching does with one
 * listener and with a whole listener list; the class
 * `SymfonyEventDispatcherAdapter` holds the two injected collaborators and
 * implements `Dispatch` as a loop proved against `Run`.
 */
module Adapter {
  import opened Collaborators

  /** The interface a resolved service must implement, named in the error. */
  const ListenerInterfaceName: string := "\\Duktig\\Core\\Event\\ListenerInterface"

  /** `part` occurs somewhere in `text`. */
  ghost predicate Mentions(text: string, part: string) {
    exists i :: OccursAt(text, part, i)
  }

  /** `part` occurs in `text` starting at index `i`. */
  predicate OccursAt(text: string, part: string, i: int) {
    0 <= i <= |text| - |part| && text[i..i + |part|] == part
  }

  lemma MentionsMiddle(text: string, before: string, part: string, after: string)
    requires text == before + part + after
    ensures Mentions(text, part)
  {
    assert text[|before|..|before| + |part|] == part;
    assert OccursAt(text, part, |before|);
  }

  /** Raised when calling a callable listener throws; it names the event. */
  function CallableMessage(eventName: string): (m: string)
    ensures Mentions(m, eventName)
  {
    var before, after := "Invalid callable as listener provided for event '", "', and it cannot be executed";
    MentionsMiddle(before + eventName + after, before, eventName, after);
    before + eventName + after
  }

  /** Raised when the container cannot produce the service; it names the
      service and the event. */
  function UnresolvableMessage(id: string, eventName: string): (m: string)
    ensures Mentions(m, id) && Mentions(m, eventName)
  {
    var m := "Invalid service as listener '" + id + "' provided for event '" + eventName + "', and it cannot be resolved";
    MentionsMiddle(m, "Invalid service as listener '", id,
                   "' provided for event '" + eventName + "', and it cannot be resolved");
    MentionsMiddle(m, "Invalid service as listener '" + id + "' provided for event '", eventName,
                   "', and it cannot be resolved");
    m
  }

  /** Raised when the service produced does not implement the listener
      interface; it names the service, the event and the interface. */
  function NotListenerMessage(id: string, eventName: string): (m: string)
    ensures Mentions(m, id) && Mentions(m, eventName) && Mentions(m, ListenerInterfaceName)
  {
    var m := "Invalid service as listener '" + id + "' provided for event '" + eventName + "', expected " + ListenerInterfaceName;
    MentionsMiddle(m, "Invalid service as listener '", id,
                   "' provided for event '" + eventName + "', expected " + ListenerInterfaceName);
    MentionsMiddle(m, "Invalid service as listener '" + id + "' provided for event '", eventName,
                   "', expected " + ListenerInterfaceName);
    MentionsMiddle(m, "Invalid service as listener '" + id + "' provided for event '" + eventName + "', expected ",
                   ListenerInterfaceName, "");
    m
  }

  /** What the adapter did with one listener while dispatching. */
  datatype Effect =
    | Invoked(arg: Event)                         // the callable was called with `arg`
    | LookupFailed(thrown: Throwable)             // the container's `get` threw
    | Rejected(instance: Instance)                // resolved, but not a listener; no `handle`
    | Handled(instance: Instance, arg: Event)     // `handle(arg)` was called on the instance

  datatype Step = Step(listener: Listener, effect: Effect)

  /** One listener's step and how it ended. */
  datatype Processed = Processed(step: Step, outcome: Outcome)

  /** The steps of a dispatch, in order, and how the dispatch ended. */
  datatype Report = Report(trace: seq<Step>, outcome: Outcome)

  /** What dispatching `event` does with a single listener. The step is
      that listener's; a callable or a `handle` gets the event itself;
      `handle` is called only on what the container produced for the
      identifier, and only if it is a listener; a failed or rejected lookup
      always throws. */
  function Process(event: Event, listener: Listener, resolver: Resolver): (r: Processed)
    ensures r.step.listener == listener
    ensures r.step.effect.Invoked? <==> listener.Callable?
    ensures (r.step.effect.Invoked? || r.step.effect.Handled?) ==> r.step.effect.arg == event
    ensures r.step.effect.Handled? ==>
              listener.Ident? && resolver(listener.id) == Service(r.step.effect.instance) &&
              r.step.effect.instance.isListener
    ensures (r.step.effect.LookupFailed? || r.step.effect.Rejected?) ==> r.outcome.Throws?
  {
    match listener
    case Callable(_, onCall) =>
      Processed(Step(listener, Invoked(event)),
                if onCall.Throws?
                then Throws(InvalidArgumentException(CallableMessage(event.name), Some(onCall.thrown)))
                else Returns)
    case Ident(id) =>
      match resolver(id)
      case Unresolvable(e) =>
        Processed(Step(listener, LookupFailed(e)),
                  Throws(ContainerServiceNotFound(UnresolvableMessage(id, event.name), Some(e))))
      case Service(instance) =>
        if !instance.isListener then
          Processed(Step(listener, Rejected(instance)),
                    Throws(InvalidArgumentException(NotListenerMessage(id, event.name), None)))
        else
          Processed(Step(listener, Handled(instance, event)), instance.onHandle)
  }

  /** Steps already taken, followed by the report of the rest of a dispatch. */
  function Then(done: seq<Step>, rest: Report): Report {
    Report(done + rest.trace, rest.outcome)
  }

  /** What dispatching `event` to the listener list `ls` does: each listener
      in turn, stopping at the first one whose processing throws. */
  function Run(event: Event, ls: seq<Listener>, resolver: Resolver): (r: Report)
    ensures |r.trace| <= |ls|
    ensures r.outcome == Returns ==> |r.trace| == |ls|
    ensures r.outcome.Throws? ==> 0 < |r.trace|
    decreases |ls|
  {
    if ls == [] then Report([], Returns)
    else
      var p := Process(event, ls[0], resolver);
      if p.outcome.Throws? then Report([p.step], p.outcome)
      else Then([p.step], Run(event, ls[1..], resolver))
  }

  class SymfonyEventDispatcherAdapter {
    const dispatcher: SymfonyDispatcher
    const resolver: Resolver

    /** Both collaborators are injected and kept for the adapter's lifetime. */
    constructor (dispatcher: SymfonyDispatcher, resolver: Resolver)
      ensures this.dispatcher == dispatcher
      ensures this.resolver == resolver
    {
      this.dispatcher := dispatcher;
      this.resolver := resolver;
    }

    /** The injected container. */
    function GetResolver(): (r: Resolver)
      ensures r == resolver
    {
      resolver
    }

    /** Forwards the registration, as given, to the wrapped dispatcher. */
    method AddListener(eventName: string, listener: Listener)
      modifies dispatcher
      ensures dispatcher.GetListeners(eventName) == old(dispatcher.GetListeners(eventName)) + [listener]
      ensures forall other :: other != eventName ==>
                dispatcher.GetListeners(other) == old(dispatcher.GetListeners(other))
    {
      dispatcher.AddListener(eventName, listener);
    }

    /** Runs the listeners registered for the event's name, in order, and
        stops at the first failure. Returns the steps taken and how the
        dispatch ended. */
    method Dispatch(event: Event) returns (trace: seq<Step>, outcome: Outcome)
      ensures Report(trace, outcome) == Run(event, dispatcher.GetListeners(event.name), resolver)
    {
      var eventName := event.name;
      var listeners := dispatcher.GetListeners(eventName);
      trace := [];
      var i := 0;
      while i < |listeners|
        invariant 0 <= i <= |listeners|
        invariant Run(event, listeners, resolver) == Then(trace, Run(event, listeners[i..], resolver))
      {
        var listener := listeners[i];
        assert listeners[i..][1..] == listeners[i + 1..];
        match listener {
          case Callable(_, onCall) =>
            trace := trace + [Step(listener, Invoked(event))];
            if onCall.Throws? {
              outcome := Throws(InvalidArgumentException(CallableMessage(eventName), Some(onCall.thrown)));
              return;
            }
          case Ident(id) =>
            var resolution := GetResolver()(id);
            if resolution.Unresolvable? {
              trace := trace + [Step(listener, LookupFailed(resolution.thrown))];
              outcome := Throws(ContainerServiceNotFound(UnresolvableMessage(id, eventName), Some(resolution.thrown)));
              return;
            }
            var instance := resolution.instance;
            if !instance.isListener {
              trace := trace + [Step(listener, Rejected(instance))];
              outcome := Throws(InvalidArgumentException(NotListenerMessage(id, eventName), None));
              return;
            }
            trace := trace + [Step(listener, Handled(instance, event))];
            if instance.onHandle.Throws? {
              outcome := instance.onHandle;
              return;
            }
        }
        i := i + 1;
      }
      outcome := Returns;
    }
  }
}
