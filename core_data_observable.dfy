/** The one-shot live-results observer (CoreDataObservable.swift, with the event type of
    ObservableChange.swift). Construction compiles the fetch request once. `observe`
    fetches the current results, hands them to the caller's closure as `.initial`, only
    then stores the closure as the observer and installs the forwarding closure on the
    results controller's delegate, and finally starts the controller; any error on the
    way reaches the closure as `.error`. Afterwards the delegate's `.change` events are
    forwarded to the stored observer and every other event is dropped.

    Closures are identified by a `Subscriber` number; the framework fetch and
    `performFetch` are inputs (their outcome), and what the closures do is recorded as a
    sequence of effects in the order they happen. */
module Observables {
  import opened Wrappers
  import opened Config
  import opened FetchRequests

  /** A caller-supplied closure, by identity. */
  type Subscriber = nat

  /** An error of the persistent store, passed through unchanged. */
  datatype StoreError = StoreError(code: int)

  /** `ObservableChange.ModelChange`. */
  datatype ModelChange<T> = ModelChange(
    objects: seq<T>,
    deletions: seq<int>,
    insertions: seq<(int, T)>,
    modifications: seq<(int, T)>)

  /** `ObservableChange`. */
  datatype ObservableChange<T> = Initial(objects: seq<T>) | Change(change: ModelChange<T>) | Error(error: StoreError)

  /** The side effects of observing, in the order they happen. */
  datatype Effect<T> =
    | Deliver(to: Subscriber, event: ObservableChange<T>)  // a closure is called with an event
    | StoreObserver(subscriber: Subscriber)                // `observer = closure`
    | InstallForwarder                                     // the delegate's observer is set
    | Halt                                                 // a failed debug-build `assert`

  /** The observer's mutable state: the stored closure, and whether the delegate forwards. */
  datatype ObserverState = ObserverState(observer: Option<Subscriber>, forwarding: bool)

  /** The state after `observe`, and what it did. */
  datatype Observed<T> = Observed(state: ObserverState, effects: seq<Effect<T>>)

  /** `observe(closure)` from state `s`. `initialFetch` is the outcome of fetching the
      compiled request, `performFetch` the error, if any, of starting the controller. */
  function ObserveStep<T>(s: ObserverState, closure: Subscriber, build: Build,
                          initialFetch: Result<seq<T>, StoreError>, performFetch: Option<StoreError>)
    : (o: Observed<T>)
    ensures o.effects != []
    ensures o.effects == [Halt] <==> !MayObserve(s, build)
    ensures MayObserve(s, build) && initialFetch.Success? ==> o.state == ObserverState(Some(closure), true)
    ensures !(MayObserve(s, build) && initialFetch.Success?) ==> o.state == s
    ensures MayObserve(s, build) && initialFetch.Failure? ==> o.effects == [Deliver(closure, Error(initialFetch.error))]
    ensures MayObserve(s, build) && initialFetch.Success? ==>
      && |o.effects| >= 3
      && o.effects[..3] == [Deliver(closure, Initial(initialFetch.value)), StoreObserver(closure), InstallForwarder]
      && o.effects[3..] == (if performFetch.Some? then [Deliver(closure, Error(performFetch.value))] else [])
  {
    if build == Debug && s.observer.Some? then
      Observed(s, [Halt])
    else
      match initialFetch
      case Failure(e) => Observed(s, [Deliver(closure, Error(e))])
      case Success(objects) =>
        var started := [Deliver(closure, Initial(objects)), StoreObserver(closure), InstallForwarder];
        match performFetch
        case None => Observed(ObserverState(Some(closure), true), started)
        case Some(e) => Observed(ObserverState(Some(closure), true), started + [Deliver(closure, Error(e))])
  }

  /** The events a subscriber receives among some effects, in order. */
  function Delivered<T>(effects: seq<Effect<T>>, to: Subscriber): seq<ObservableChange<T>>
  {
    if effects == [] then []
    else (if effects[0].Deliver? && effects[0].to == to then [effects[0].event] else [])
         + Delivered(effects[1..], to)
  }

  /** What a subscriber receives from two runs of effects is what it receives from the
      first followed by what it receives from the second. */
  lemma {:induction false} DeliveredAppend<T>(a: seq<Effect<T>>, b: seq<Effect<T>>, to: Subscriber)
    ensures Delivered(a + b, to) == Delivered(a, to) + Delivered(b, to)
  {
    if a == [] {
      assert a + b == b;
    } else {
      assert (a + b)[0] == a[0];
      assert (a + b)[1..] == a[1..] + b;
      DeliveredAppend(a[1..], b, to);
    }
  }

  /** The effects of a run that makes no call to any closure deliver nothing. */
  lemma {:induction false} NothingDelivered<T>(effects: seq<Effect<T>>, to: Subscriber)
    requires forall i :: 0 <= i < |effects| ==> !effects[i].Deliver?
    ensures Delivered(effects, to) == []
  {
    if effects != [] {
      NothingDelivered(effects[1..], to);
    }
  }

  /** Whether the caller's permission to observe holds: no observer is stored yet. In a
      release build the `assert` is compiled out and nothing is checked. */
  predicate MayObserve(s: ObserverState, build: Build)
  {
    build == Release || s.observer.None?
  }

  /** Observing in a debug build while an observer is stored halts: nothing is delivered
      and nothing changes. */
  lemma ObservedOnlyOnce<T>(s: ObserverState, closure: Subscriber, initialFetch: Result<seq<T>, StoreError>,
                            performFetch: Option<StoreError>)
    requires s.observer.Some?
    ensures var o := ObserveStep(s, closure, Debug, initialFetch, performFetch);
      o.state == s && o.effects == [Halt] && Delivered(o.effects, closure) == []
  {
    NothingDelivered<T>([Halt], closure);
  }

  /** A successful initial fetch is delivered first, as `.initial`, and only after that
      is the closure stored and the forwarder installed; afterwards the closure is the
      observer and the delegate forwards. */
  lemma InitialBeforeSubscription<T>(s: ObserverState, closure: Subscriber, build: Build,
                                     objects: seq<T>, performFetch: Option<StoreError>)
    requires MayObserve(s, build)
    ensures var o := ObserveStep(s, closure, build, Success(objects), performFetch);
      && o.effects[0] == Deliver(closure, Initial(objects))
      && (forall i :: 0 <= i < |o.effects| && (o.effects[i].StoreObserver? || o.effects[i].InstallForwarder?) ==> 0 < i)
      && o.state == ObserverState(Some(closure), true)
  {
  }

  /** A failed initial fetch delivers exactly one `.error` and leaves the state as it was,
      so the observer stays unset when it was unset. */
  lemma FailedInitialFetch<T>(s: ObserverState, closure: Subscriber, build: Build, e: StoreError,
                              performFetch: Option<StoreError>)
    requires MayObserve(s, build)
    ensures var o := ObserveStep<T>(s, closure, build, Failure(e), performFetch);
      Delivered(o.effects, closure) == [Error(e)] && o.state == s
  {
    var o := ObserveStep<T>(s, closure, build, Failure(e), performFetch);
    assert o.effects == [Deliver(closure, Error(e))];
    assert o.effects[1..] == [];
  }

  /** A failed initial fetch does not use up the observable: observing again, even in a
      debug build, fetches again and, when that succeeds, stores the new closure. */
  lemma ObserveAgainAfterFailedFetch<T>(closure: Subscriber, e: StoreError, again: Subscriber,
                                        objects: seq<T>, performFetch: Option<StoreError>)
    ensures var first := ObserveStep<T>(ObserverState(None, false), closure, Debug, Failure(e), performFetch);
      var second := ObserveStep(first.state, again, Debug, Success(objects), performFetch);
      && first.state.observer.None?
      && second.effects[0] == Deliver(again, Initial(objects))
      && second.state == ObserverState(Some(again), true)
  {
  }

  /** The closure receives `.initial` and nothing else when everything succeeds, and
      `.initial` then `.error` when starting the controller fails; in both cases the
      closure stays installed as the observer. */
  lemma DeliveriesAfterInitialFetch<T>(s: ObserverState, closure: Subscriber, build: Build,
                                       objects: seq<T>, performFetch: Option<StoreError>)
    requires MayObserve(s, build)
    ensures var o := ObserveStep(s, closure, build, Success(objects), performFetch);
      && Delivered(o.effects, closure)
         == [Initial(objects)] + (if performFetch.Some? then [Error(performFetch.value)] else [])
      && o.state.observer == Some(closure)
  {
    var started: seq<Effect<T>> := [Deliver(closure, Initial(objects)), StoreObserver(closure), InstallForwarder];
    var rest: seq<Effect<T>> := [StoreObserver(closure), InstallForwarder];
    assert started == [started[0]] + rest;
    DeliveredAppend([started[0]], rest, closure);
    NothingDelivered(rest, closure);
    assert [started[0]][1..] == [];
    assert Delivered(started, closure) == [Initial(objects)];
    if performFetch.Some? {
      var failed: seq<Effect<T>> := [Deliver(closure, Error(performFetch.value))];
      DeliveredAppend(started, failed, closure);
      assert failed[1..] == [];
    }
  }

  /** The observer goes from unset to set at most once: it is set afterwards exactly when
      it was set before or the initial fetch succeeded, and a stored observer is never
      replaced in a debug build. */
  lemma ObserverSetOnce<T>(s: ObserverState, closure: Subscriber, build: Build,
                           initialFetch: Result<seq<T>, StoreError>, performFetch: Option<StoreError>)
    ensures var o := ObserveStep(s, closure, build, initialFetch, performFetch);
      && (o.state.observer.Some? <==> s.observer.Some? || (initialFetch.Success? && MayObserve(s, build)))
      && (build == Debug && s.observer.Some? ==> o.state.observer == s.observer)
  {
  }

  /** What the delegate's forwarding closure does with an event: a `.change` reaches the
      stored observer unchanged once forwarding is installed; any other event, or any
      event before `observe` succeeded, is dropped. */
  function Forward<T>(s: ObserverState, event: ObservableChange<T>): (effects: seq<Effect<T>>)
    ensures |effects| <= 1
    ensures effects != [] <==> s.forwarding && s.observer.Some? && event.Change?
    ensures effects != [] ==> effects[0] == Deliver(s.observer.value, event)
  {
    if s.forwarding && s.observer.Some? && event.Change? then
      [Deliver(s.observer.value, Change(event.change))]
    else
      []
  }

  /** The observable. */
  class CoreDataObservable<T> {
    /** The builder it was made from (`RequestObservable.request`). */
    const request: FetchRequest
    /** The request compiled once, at construction. */
    const fetchRequest: NSFetchRequest
    var observer: Option<Subscriber>
    /** Whether the delegate's observer (the forwarding closure) is set. */
    var forwarding: bool

    constructor (request: FetchRequest, fetchRequest: NSFetchRequest)
      ensures this.request == request && this.fetchRequest == fetchRequest
      ensures State() == ObserverState(None, false)
    {
      this.request := request;
      this.fetchRequest := fetchRequest;
      observer := None;
      forwarding := false;
    }

    /** `init(fetchRequest:context:)`: fails with the error of `toRaw`, otherwise holds the
        request compiled from the builder's fields as they are now. */
    static method Create(request: FetchRequest, template: Option<string>)
      returns (r: Result<CoreDataObservable<T>, FetchRequestError>)
      ensures r.Failure? <==> template.None?
      ensures r.Failure? ==> r.error == InvalidFetchRequestResult
      ensures r.Success? ==>
        && fresh(r.value)
        && r.value.request == request
        && Success(r.value.fetchRequest) == Compile(request.State(), template)
        && r.value.State() == ObserverState(None, false)
    {
      var compiled := request.ToRaw(template);
      match compiled
      case Failure(e) =>
        r := Failure(e);
      case Success(raw) =>
        var observable := new CoreDataObservable(request, raw);
        r := Success(observable);
    }

    function State(): ObserverState
      reads this
    {
      ObserverState(observer, forwarding)
    }

    /** `observe(_:)`. */
    method Observe(closure: Subscriber, build: Build, initialFetch: Result<seq<T>, StoreError>,
                   performFetch: Option<StoreError>)
      returns (effects: seq<Effect<T>>)
      modifies this
      ensures Observed(State(), effects) == ObserveStep(old(State()), closure, build, initialFetch, performFetch)
    {
      if build == Debug && observer.Some? {
        effects := [Halt];
        return;
      }
      match initialFetch
      case Failure(e) =>
        effects := [Deliver(closure, Error(e))];
      case Success(objects) =>
        effects := [Deliver(closure, Initial(objects))];
        observer := Some(closure);
        effects := effects + [StoreObserver(closure)];
        forwarding := true;
        effects := effects + [InstallForwarder];
        if performFetch.Some? {
          effects := effects + [Deliver(closure, Error(performFetch.value))];
        }
    }

    /** The delegate reports an event to the forwarding closure. */
    method DelegateDidChange(event: ObservableChange<T>) returns (effects: seq<Effect<T>>)
      ensures effects == Forward(State(), event)
    {
      effects := [];
      if forwarding && observer.Some? {
        match event
        case Change(change) =>
          effects := [Deliver(observer.value, Change(change))];
        case _ =>
      }
    }
  }
}
