/**
 * What dispatching promises: the listeners are taken in the order the
 * registry gives them, dispatching stops at the first failure, each kind of
 * failure becomes exactly one kind of error, `handle` is called only on a
 * resolved instance of the listener interface, and what `handle` throws
 * reaches the caller unwrapped.
 */
module AdapterProperties {
  import opened Collaborators
  import opened Adapter

  /** A callable listener is called with the event itself; if that call
      throws, the result is an InvalidArgumentException naming the event,
      with the thrown value chained as its previous exception. */
  lemma CallableListenerOutcome(event: Event, tag: string, onCall: Outcome, resolver: Resolver)
    ensures var p := Process(event, Callable(tag, onCall), resolver);
      p.step.effect == Invoked(event) &&
      (onCall == Returns ==> p.outcome == Returns) &&
      (onCall.Throws? ==>
         p.outcome.Throws? &&
         p.outcome.thrown.InvalidArgumentException? &&
         p.outcome.thrown.previous == Some(onCall.thrown) &&
         p.outcome.thrown.message == CallableMessage(event.name) &&
         Mentions(p.outcome.thrown.message, event.name))
  {
  }

  /** A service the container cannot produce gives ContainerServiceNotFound
      naming the identifier and the event, with the container's throwable
      chained; nothing is handled. */
  lemma UnresolvableServiceOutcome(event: Event, id: string, resolver: Resolver)
    requires resolver(id).Unresolvable?
    ensures var p := Process(event, Ident(id), resolver);
      p.step.effect == LookupFailed(resolver(id).thrown) &&
      p.outcome.Throws? &&
      p.outcome.thrown.ContainerServiceNotFound? &&
      p.outcome.thrown.previous == Some(resolver(id).thrown) &&
      p.outcome.thrown.message == UnresolvableMessage(id, event.name) &&
      Mentions(p.outcome.thrown.message, id) &&
      Mentions(p.outcome.thrown.message, event.name)
  {
  }

  /** A produced service that is not a listener gives an
      InvalidArgumentException naming the identifier, the event and the
      expected interface, with no previous exception; `handle` is not called. */
  lemma NonListenerServiceOutcome(event: Event, id: string, resolver: Resolver)
    requires resolver(id).Service? && !resolver(id).instance.isListener
    ensures var p := Process(event, Ident(id), resolver);
      p.step.effect == Rejected(resolver(id).instance) &&
      p.outcome.Throws? &&
      p.outcome.thrown.InvalidArgumentException? &&
      p.outcome.thrown.previous == None &&
      p.outcome.thrown.message == NotListenerMessage(id, event.name) &&
      Mentions(p.outcome.thrown.message, id) &&
      Mentions(p.outcome.thrown.message, event.name) &&
      Mentions(p.outcome.thrown.message, ListenerInterfaceName)
  {
  }

  /** A produced listener gets one `handle` call with the event itself, and
      whatever that call throws is the dispatch's own outcome, unwrapped. */
  lemma ListenerServiceOutcome(event: Event, id: string, resolver: Resolver)
    requires resolver(id).Service? && resolver(id).instance.isListener
    ensures var p := Process(event, Ident(id), resolver);
      p.step.effect == Handled(resolver(id).instance, event) &&
      p.outcome == resolver(id).instance.onHandle
  {
  }

  /** Dispatching with no listeners does nothing and throws nothing. */
  lemma NoListenersNoEffect(event: Event, resolver: Resolver)
    ensures Run(event, [], resolver) == Report([], Returns)
  {
  }

  /** The steps taken are those of a prefix of the listener list, in the
      list's order, each one exactly what processing that listener does. */
  lemma {:induction false} RunFollowsListeners(event: Event, ls: seq<Listener>, resolver: Resolver)
    ensures var r := Run(event, ls, resolver);
      forall i :: 0 <= i < |r.trace| ==>
        r.trace[i] == Process(event, ls[i], resolver).step && r.trace[i].listener == ls[i]
  {
    if ls != [] {
      RunFollowsListeners(event, ls[1..], resolver);
    }
  }

  /** A dispatch returns normally exactly when every listener's processing does. */
  lemma {:induction false} RunReturnsIffAllReturn(event: Event, ls: seq<Listener>, resolver: Resolver)
    ensures Run(event, ls, resolver).outcome == Returns <==>
            forall i :: 0 <= i < |ls| ==> Process(event, ls[i], resolver).outcome == Returns
  {
    if ls != [] {
      RunReturnsIffAllReturn(event, ls[1..], resolver);
      assert forall i :: 1 <= i < |ls| ==> ls[1..][i - 1] == ls[i];
    }
  }

  /** A dispatch that throws stops at the first listener whose processing
      throws, throws exactly what that processing throws, and has not
      touched any later listener. */
  lemma {:induction false} RunStopsAtFirstFailure(event: Event, ls: seq<Listener>, resolver: Resolver)
    ensures var r := Run(event, ls, resolver);
      r.outcome.Throws? ==>
        Process(event, ls[|r.trace| - 1], resolver).outcome == r.outcome &&
        forall j :: 0 <= j < |r.trace| - 1 ==> Process(event, ls[j], resolver).outcome == Returns
  {
    if ls != [] {
      RunStopsAtFirstFailure(event, ls[1..], resolver);
    }
  }

  /** `handle` is called on a listener's step exactly when the listener is a
      service identifier the container resolves to a listener instance, and
      then on that instance with the dispatched event. */
  lemma {:induction false} HandleOnlyOnListenerInstances(event: Event, ls: seq<Listener>, resolver: Resolver)
    ensures var r := Run(event, ls, resolver);
      forall i :: 0 <= i < |r.trace| ==>
        (r.trace[i].effect.Handled? <==>
           ls[i].Ident? && resolver(ls[i].id).Service? && resolver(ls[i].id).instance.isListener) &&
        (r.trace[i].effect.Handled? ==>
           r.trace[i].effect.instance == resolver(ls[i].id).instance && r.trace[i].effect.arg == event)
  {
    RunFollowsListeners(event, ls, resolver);
  }

  /** Registering two callables and a service for `test.event` and one
      service for `other.event`, then dispatching `test.event`, runs exactly
      the three `test.event` listeners, in registration order; the adapter
      still hands out the resolver it was built with. */
  method ListenersRunInRegistrationOrder() {
    var resolver: Resolver := (id: string) =>
      if id == "ResolvableServiceID" then Service(Instance("ResolvedListener", true, Returns))
      else Unresolvable(Foreign("NotFoundException", ""));
    var registry := new SymfonyDispatcher();
    var adapter := new SymfonyEventDispatcherAdapter(registry, resolver);
    assert adapter.GetResolver() == resolver;
    var event := Event("test.event", map[]);
    var first, second := Callable("first", Returns), Callable("second", Returns);
    adapter.AddListener("test.event", first);
    adapter.AddListener("test.event", second);
    adapter.AddListener("test.event", Ident("ResolvableServiceID"));
    adapter.AddListener("other.event", Ident("UnresolvableServiceID"));
    assert adapter.GetResolver() == resolver;
    var service := Ident("ResolvableServiceID");
    var handled := Step(service, Handled(Instance("ResolvedListener", true, Returns), event));
    var ls := [first, second, service];
    assert registry.GetListeners("test.event") == ls;
    assert Run(event, [service], resolver) == Report([handled], Returns);
    assert ls[1..][1..] == [service];
    assert Run(event, ls[1..], resolver) == Report([Step(second, Invoked(event)), handled], Returns);
    var trace, outcome := adapter.Dispatch(event);
    assert outcome == Returns;
    assert trace == [Step(first, Invoked(event)), Step(second, Invoked(event)), handled];
  }

  /** On a fresh adapter, dispatching an event whose name has no listeners
      records no step and returns normally, whatever the container holds. */
  method DispatchWithoutListeners(resolver: Resolver, event: Event) {
    var registry := new SymfonyDispatcher();
    var adapter := new SymfonyEventDispatcherAdapter(registry, resolver);
    adapter.AddListener(event.name + ".other", Ident("UnresolvableServiceID"));
    assert event.name + ".other" != event.name by {
      assert |event.name + ".other"| != |event.name|;
    }
    var trace, outcome := adapter.Dispatch(event);
    assert trace == [] && outcome == Returns;
  }
}
