# Symfony event-dispatcher adapter, modelled in Dafny

The repository provides one class, `SymfonyEventDispatcherAdapter`. It implements
the framework's event-dispatcher interface on top of Symfony's `EventDispatcher`
and uses a DI container (the "resolver") to build listener services named by
string identifiers. The adapter keeps the two injected collaborators for its
whole lifetime. `addListener` forwards a registration to the Symfony dispatcher.
`dispatch` walks the listeners registered for the event's name, in order:

- a callable listener is called with the event, and anything it throws becomes
  an `InvalidArgumentException` with the original chained as previous;
- a service identifier is resolved through the container. If that fails, the
  result is a `ContainerServiceNotFound` with the cause chained. If the object
  is not a `ListenerInterface`, the result is an `InvalidArgumentException`.
  Otherwise its `handle(event)` is called. That call is outside any `try`, so
  what it throws reaches the caller unwrapped.

The first exception ends the dispatch.

Files:

- `collaborators.dfy` (module `Collaborators`) holds the values that cross the
  adapter: `Event`, `Listener` (`Callable(tag, onCall) | Ident(id)`), `Throwable`,
  `Outcome`, and the container's `Instance` and `Resolution`. The container is a
  `Resolver`, a function from identifier to `Resolution`. The Symfony dispatcher
  is reduced to the class `SymfonyDispatcher` with a listener map per name.
- `adapter.dfy` (module `Adapter`) holds the exception messages, word for word
  as in the source. `Process` specifies what dispatching does with one listener:
  the step it records and how it ends. `Run` specifies a whole dispatch: it
  processes each listener in turn and stops at the first that throws. The class
  `SymfonyEventDispatcherAdapter` has `const` fields `dispatcher` and
  `resolver`. Its `Dispatch` is a `while` loop that is proved equal to `Run`.
- `properties.dfy` (module `AdapterProperties`) holds the lemmas about `Run`
  and `Process`. It also holds two client methods.
  `ListenersRunInRegistrationOrder` registers two tagged callables and a
  service for `test.event` and one service for `other.event`. It proves that
  dispatching `test.event` runs exactly the three `test.event` listeners, in
  registration order, and that `GetResolver` still returns the injected
  resolver. `DispatchWithoutListeners` proves that on a fresh adapter, an event
  whose name has no listeners gives no step and a normal return.

`Dispatch` returns the steps it took as a trace, one `Step` per listener
reached, plus the `Outcome` (`Returns` or `Throws(e)`) that stands for the PHP
method's normal return or exception. A step's `Effect` records what the adapter
did with that listener:

- `Invoked(event)`: the callable was called with this event;
- `LookupFailed(cause)`: resolving the service threw;
- `Rejected(instance)`: the instance was resolved but is not a listener, so
  `handle` was not called;
- `Handled(instance, event)`: `handle(event)` was called on the instance.

The source names its exceptions `\InvalidArgumentException` and
`ContainerServiceNotFound`, and the model follows those names.

## Model

| member | source | states |
|---|---|---|
| `Adapter.SymfonyEventDispatcherAdapter.constructor` | src/SymfonyEventDispatcherAdapter.php:16-21 | the adapter keeps exactly the dispatcher and the resolver it was given; both fields are `const`, so neither is ever reassigned |
| `Adapter.SymfonyEventDispatcherAdapter.GetResolver` | src/SymfonyEventDispatcherAdapter.php:27-30 | returns the resolver injected at construction, on every call |
| `Adapter.SymfonyEventDispatcherAdapter.AddListener` | src/SymfonyEventDispatcherAdapter.php:36-39 | the given listener is appended once, unmodified, to the list for the given name; the list of every other name is unchanged |
| `Adapter.SymfonyEventDispatcherAdapter.Dispatch` | src/SymfonyEventDispatcherAdapter.php:47-83 | the trace and outcome of the loop are exactly `Run` applied to the event, the listeners registered for `event.name`, and the injected resolver |
| `Adapter.Run` | src/SymfonyEventDispatcherAdapter.php:51-82 | a dispatch touches at most as many listeners as are registered; if it returns normally it has processed all of them; if it throws it has processed at least one |
| `AdapterProperties.NoListenersNoEffect` | src/SymfonyEventDispatcherAdapter.php:49-51 | with no listeners registered for the name, dispatch records no step and throws nothing |
| `AdapterProperties.RunFollowsListeners` | src/SymfonyEventDispatcherAdapter.php:51-82 | step i of the trace belongs to listener i of the list and is exactly what processing that listener does; so the trace follows a prefix of the list, in order |
| `AdapterProperties.RunReturnsIffAllReturn` | src/SymfonyEventDispatcherAdapter.php:51-82 | a dispatch returns normally if and only if processing every registered listener returns normally |
| `AdapterProperties.RunStopsAtFirstFailure` | src/SymfonyEventDispatcherAdapter.php:51-82 | a dispatch that throws throws exactly what its last processed listener threw; every earlier listener returned normally, and no later listener was called or resolved |
| `AdapterProperties.CallableListenerOutcome` | src/SymfonyEventDispatcherAdapter.php:52-61 | a callable is called with the dispatched event itself; if it returns, so does its step; if it throws, the result is an InvalidArgumentException that chains the thrown value, whose message is `CallableMessage` of the event name and so names the event |
| `AdapterProperties.UnresolvableServiceOutcome` | src/SymfonyEventDispatcherAdapter.php:64-72 | if the container throws for an identifier, the result is a ContainerServiceNotFound that chains the container's throwable, whose message is `UnresolvableMessage` of the identifier and event name and so names both |
| `AdapterProperties.NonListenerServiceOutcome` | src/SymfonyEventDispatcherAdapter.php:74-79 | a resolved object that is not a ListenerInterface is rejected without a `handle` call; the result is an InvalidArgumentException with no previous exception, whose message is `NotListenerMessage` of the identifier and event name and so names the identifier, the event and `\Duktig\Core\Event\ListenerInterface` |
| `AdapterProperties.ListenerServiceOutcome` | src/SymfonyEventDispatcherAdapter.php:80 | a resolved listener gets one `handle` call with the dispatched event; whatever that call throws is the step's outcome, unwrapped |
| `AdapterProperties.HandleOnlyOnListenerInstances` | src/SymfonyEventDispatcherAdapter.php:63-80 | a step calls `handle` if and only if its listener is an identifier that the container resolves to a ListenerInterface instance; that call is on that instance and receives the dispatched event |
| `Adapter.Process` | src/SymfonyEventDispatcherAdapter.php:52-80 | the step and outcome for one listener. The step is that listener's. It is `Invoked` exactly for a callable, and a callable or `handle` receives the dispatched event itself. `Handled` occurs only for an identifier whose resolved instance is a listener, and then on that instance. A `LookupFailed` or `Rejected` step always throws |
| `Adapter.CallableMessage` | src/SymfonyEventDispatcherAdapter.php:56-58 | the message for a failing callable, word for word, contains the event name |
| `Adapter.UnresolvableMessage` | src/SymfonyEventDispatcherAdapter.php:67-69 | the message for an unresolvable service, word for word, contains the identifier and the event name |
| `Adapter.NotListenerMessage` | src/SymfonyEventDispatcherAdapter.php:75-77 | the message for a service that is not a listener, word for word, contains the identifier, the event name and `\Duktig\Core\Event\ListenerInterface` |

## Left out

- Symfony's `EventDispatcher` internals are left out: listener priorities and
  sorting, lazy listeners, removal, and subscribers. The library is not part of
  this model. `SymfonyDispatcher` keeps one list per name in registration
  order, which is what Symfony returns when every listener has the default
  priority. That is the only way the adapter registers listeners.
- The container's construction logic (`ContainerInterface::get`, Auryn's
  `NotFoundException`) is foreign code. It is a `Resolver`, a total function
  from identifier to `Service(instance)` or `Unresolvable(thrown)`. So two
  resolutions of the same identifier give the same result, and any caching or
  side effect of the container is not modelled.
- PHP's `is_callable` and `instanceof` are replaced by the tag of `Listener`
  and the `isListener` flag of `Instance`. In PHP, a string that names a global
  function is callable and would be called, not resolved. In the model, the kind
  of a registration is fixed by its tag.
- What listeners and `handle` do besides returning or throwing (in the tests,
  `echo` output) appears only as entries in the trace.
- A callable's and a `handle` method's behaviour is one fixed `Outcome` per
  listener or instance. Behaviour that depends on the event's contents or on
  earlier calls is represented only by the outcome it has in the dispatch at
  hand.
- Exception class hierarchies, exception codes (the source passes `null`) and
  the object identity of chained causes are left out. The test expects
  `ContainerServiceNotFound` to be a PSR-11 `NotFoundExceptionInterface`.
  Exceptions are values of `Throwable` with a message and an optional previous
  exception.
- The event is treated as opaque beyond its name. Other methods of
  `EventInterface` and the PHP type declarations are not modelled.
- The PHPUnit and Mockery test harness is left out. The test scenarios are
  restated as the lemmas above and as the client methods
  `ListenersRunInRegistrationOrder` and `DispatchWithoutListeners`.
