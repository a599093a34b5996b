# CoreDataLayer query construction and change observation, in Dafny

This project models the typed query-construction layer of CoreDataLayer, a Swift
convenience layer over Core Data, and two pieces of its change-notification side. It
proves what that layer promises. The modelled parts are:

- **Predicates** (`predicate.dfy`): the typed predicate tree. It has plain predicates
  wrapping a Foundation predicate, comparison leaves and AND/OR/NOT compounds. The model
  covers the raw Foundation predicate each node carries and the `&&`, `||` and `!`
  operators. `Evaluate` gives a Foundation predicate's truth value for one object. A
  caller-supplied oracle decides its leaves (comparisons and format strings).
- **KeyPaths** (`keypath.dfy`): the twelve comparison operators over key paths (`==`,
  `!=`, `<`, `<=`, `>`, `>=`, plain and Optional). It also covers the rule that text
  constants get the default comparison options.
- **SortDescriptors** (`sort_descriptor.dfy`): building a sort descriptor. On a string
  attribute, the descriptor is recreated with the comparator the configured comparison
  options select. Key and direction carry through unchanged. It also covers the
  `ascending` and `descending` constructors.
- **FetchRequests** (`fetch_request.dfy`): the `FetchRequest` builder class and its
  chainable builders. It also covers `toRaw`, with its batch-size collapse rule, as the
  pure function `Compile` of the builder's fields. Each builder assigns to the receiver
  and returns it, exactly as the Swift code does (`let clone = self` on a class copies
  only the reference).
- **Changes** (`core_data_change.dfy`): the three-case row-change enum, its accessors
  and its kind flags.
- **Observables** (`core_data_observable.dfy`): the one-shot observer. Construction
  compiles the request once. `observe` emits `.initial` before it stores the observer and
  installs the forwarder. Errors reach the closure as `.error`. Only `.change` events
  are forwarded.
- **Config** (`config.dfy`) and **Wrappers** (`wrappers.dfy`) hold the configuration
  values, the build flavour, and `Option`/`Result`.

The two configuration globals of `Config.swift` are a `Settings` value passed to each
operation that reads them. `Config.Defaults` is the shipped configuration: batch size
20, case- and diacritic-insensitive comparison. Debug-only behaviour (`assert`,
`#if DEBUG fatalError`) depends on a `Build` parameter. Key paths are their
key-value-coding strings. An entity's attributes are a map from name to attribute type.
Closures are identified by a number. The outcomes of the framework fetch and
`performFetch` are inputs.

Two points of the Swift code are easy to misread. This model follows what the code does:

- The builder API reads as if it returned copies: `dropFirst`, `prefix` and the other
  builders return a request. But each builder assigns to the receiver and returns it.
  `FetchRequests.BuilderChainAliasesOriginal` shows that `dropFirst(10).prefix(5)`
  changes the request it was called on.
- `ObservableChange.ModelChange` has fields for deletions, insertions and
  modifications, but no code builds those lists. The observer only forwards whatever
  `.change` event its delegate reports.

## Model

| member | source | states |
|---|---|---|
| Predicates.RawValue | Sources/CoreDataLayer/DB/Query/Predicate.swift:10-86 | a plain predicate's raw value is its wrapped predicate; a comparison's is a Foundation comparison of its own five stored fields; a compound's has the same logical type and the sub-predicates' raw values in the same order |
| Predicates.RawValueOfTyped | Sources/CoreDataLayer/DB/Query/Predicate.swift:32-87 | every Foundation predicate tree is the raw value of its typed view, so the typed layer can express any predicate tree |
| Predicates.ValuePredicate | Sources/CoreDataLayer/DB/Query/Predicate.swift:16-18 | `Predicate(value:)` is a constant leaf that holds of every object exactly when its boolean is true |
| Predicates.FormatPredicate | Sources/CoreDataLayer/DB/Query/Predicate.swift:20-27 | the format initialisers give a plain leaf holding the format and its arguments |
| Predicates.CompoundOf | Sources/CoreDataLayer/DB/Query/Predicate.swift:80-87 | a compound stores its logical type and its sub-predicate list exactly as given |
| Predicates.AndPredicate | Sources/CoreDataLayer/DB/Query/Predicate.swift:89-91 | the AND initialiser equals `init(type: .and, subpredicates:)` with the list unchanged |
| Predicates.OrPredicate | Sources/CoreDataLayer/DB/Query/Predicate.swift:93-95 | the OR initialiser equals `init(type: .or, subpredicates:)` with the list unchanged |
| Predicates.NotPredicate | Sources/CoreDataLayer/DB/Query/Predicate.swift:97-99 | the NOT initialiser is a NOT compound over exactly `[p]` |
| Predicates.Conjunction | Sources/CoreDataLayer/DB/Query/Predicate.swift:103-105 | `a && b` is the AND compound over exactly `[a, b]`, in that order |
| Predicates.Disjunction | Sources/CoreDataLayer/DB/Query/Predicate.swift:107-109 | the OR operator on `a` and `b` is the OR compound over exactly `[a, b]`, in that order |
| Predicates.Negation | Sources/CoreDataLayer/DB/Query/Predicate.swift:111-113 | `!a` is the same node as the NOT initialiser applied to `a` |
| Predicates.AndPredicateHolds | Sources/CoreDataLayer/DB/Query/Predicate.swift:89-91 | an AND predicate holds of an object exactly when every sub-predicate does |
| Predicates.OrPredicateHolds | Sources/CoreDataLayer/DB/Query/Predicate.swift:93-95 | an OR predicate holds of an object exactly when some sub-predicate does |
| Predicates.ConjunctionHolds | Sources/CoreDataLayer/DB/Query/Predicate.swift:103-105 | `a && b` holds exactly when both operands hold |
| Predicates.DisjunctionHolds | Sources/CoreDataLayer/DB/Query/Predicate.swift:107-109 | the OR operator on `a` and `b` holds exactly when either operand holds |
| Predicates.NegationHolds | Sources/CoreDataLayer/DB/Query/Predicate.swift:111-113 | `!a` holds exactly when `a` does not |
| KeyPaths.OperatorType | Sources/CoreDataLayer/DB/Query/KeyPath.swift:11-138 | each operator symbol builds one of the six comparison operator types, and that type maps back to the symbol |
| KeyPaths.OperatorTypeOneToOne | Sources/CoreDataLayer/DB/Query/KeyPath.swift:11-138 | `==`, `!=`, `<`, `<=`, `>`, `>=` map one-to-one onto equalTo, notEqualTo, lessThan, lessThanOrEqualTo, greaterThan, greaterThanOrEqualTo |
| KeyPaths.ComparisonOptionsOf | Sources/CoreDataLayer/DB/Query/KeyPath.swift:151-158 | a `String` or `NSString` value gets the configured default options; any other value gets none |
| KeyPaths.Compare | Sources/CoreDataLayer/DB/Query/KeyPath.swift:11-138 | each of the six plain overloads (`==`, `!=`, `<`, `<=`, `>`, `>=`) builds a comparison with the key path on the left, the constant on the right, modifier `.direct`, its own operator type, and the value's options |
| KeyPaths.CompareOptional | Sources/CoreDataLayer/DB/Query/KeyPath.swift:11-138 | each of the six Optional overloads with a present value equals the plain overload; with nil it compares against a nil constant with no options |
| KeyPaths.DefaultOptions | Sources/CoreDataLayer/DB/Query/KeyPath.swift:151-158 | with the shipped configuration, text comparisons are exactly case- and diacritic-insensitive and all others have no options |
| SortDescriptors.ComparatorFor | Sources/CoreDataLayer/DB/Query/SortDescriptor.swift:18-33 | both flags select localizedCaseInsensitiveCompare, case only selects caseInsensitiveCompare, diacritic only selects localizedCompare, and neither selects no selector (each in both directions) |
| SortDescriptors.ComparatorDependsOnlyOnFlags | Sources/CoreDataLayer/DB/Query/SortDescriptor.swift:22-33 | two option sets give the same comparator exactly when they agree on the two insensitivity flags |
| SortDescriptors.Recreated | Sources/CoreDataLayer/DB/Query/SortDescriptor.swift:15-39 | key and direction are kept; a key naming a string attribute gets the configured comparator; a missing key, unknown key or non-string attribute keeps the descriptor unchanged |
| SortDescriptors.RecreatedIdempotent | Sources/CoreDataLayer/DB/Query/SortDescriptor.swift:15-39 | recreating an already recreated descriptor changes nothing |
| SortDescriptors.FromRaw | Sources/CoreDataLayer/DB/Query/SortDescriptor.swift:14-51 | halts exactly on a descriptor without a key in a debug build; otherwise the key is the descriptor's key, or "NO KEY" without one, and the direction is the final raw descriptor's, so the result is `Consistent` |
| SortDescriptors.FromRawOfRawValue | Sources/CoreDataLayer/DB/Query/SortDescriptor.swift:14-51 | building a descriptor again from a built descriptor's raw value gives the same descriptor |
| SortDescriptors.FromKey | Sources/CoreDataLayer/DB/Query/SortDescriptor.swift:53-59 | the key and key-path initialisers never halt, keep the given key and direction, attach a comparator exactly on string attributes, and give a `Consistent` descriptor |
| SortDescriptors.Ascending | Sources/CoreDataLayer/DB/Query/SortDescriptor.swift:65-71 | `ascending(k)` has key `k` and is ascending |
| SortDescriptors.Descending | Sources/CoreDataLayer/DB/Query/SortDescriptor.swift:73-79 | `descending(k)` has key `k` and is descending |
| SortDescriptors.DefaultTextComparator | Sources/CoreDataLayer/DB/Query/SortDescriptor.swift:18-23 | with the shipped configuration, a string attribute sorts with localizedCaseInsensitiveCompare |
| FetchRequests.InitialState | Sources/CoreDataLayer/DB/Query/FetchRequest.swift:11-18 | a new request compiles, for any entity, to a request with limit 0, offset 0, the configured batch size uncollapsed, no predicate and no sort list |
| FetchRequests.CompiledBatchSize | Sources/CoreDataLayer/DB/Query/FetchRequest.swift:27 | the compiled batch size is either 0 or the batch size; it differs from the batch size (and is then 0) exactly when a positive limit is below a nonzero batch size; with a positive limit it never exceeds the limit |
| FetchRequests.RawSortDescriptors | Sources/CoreDataLayer/DB/Query/FetchRequest.swift:30 | the compiled sort list has the descriptors' raw values, one for one, in order |
| FetchRequests.RawSortDescriptorsAppend | Sources/CoreDataLayer/DB/Query/FetchRequest.swift:30 | compiling a concatenated sort list concatenates the compiled lists |
| FetchRequests.Compile | Sources/CoreDataLayer/DB/Query/FetchRequest.swift:20-33 | fails with invalidFetchRequestResult exactly when the entity has no request template; otherwise copies limit and offset, collapses the batch size, and compiles predicate and sort list (none stays none) |
| FetchRequests.WithFilter | Sources/CoreDataLayer/DB/Query/FetchRequest.swift:65-75 | `filtered(p)` sets `p` when there is no predicate and `AND([old, p])` (old first) otherwise, changing nothing else |
| FetchRequests.WithSorting | Sources/CoreDataLayer/DB/Query/FetchRequest.swift:81-115 | `sorted(by:)` appends after the existing descriptors, which stay an unchanged prefix, or sets exactly the given list when there was none, changing nothing else |
| FetchRequests.FilterAllAdmits | Sources/CoreDataLayer/DB/Query/FetchRequest.swift:65-75 | after any chain of `filtered` calls, an object passes exactly when it passed before and every added predicate holds of it |
| FetchRequests.FilterAllMatches | Sources/CoreDataLayer/DB/Query/FetchRequest.swift:20-75 | the same holds of the compiled Foundation request |
| FetchRequests.FilteredTwiceOnNewRequest | Sources/CoreDataLayer/DB/Query/FetchRequest.swift:65-75 | on a new request, `filtered(p1).filtered(p2)` leaves `AND([p1, p2])` |
| FetchRequests.FilterCommutesWithOtherBuilders | Sources/CoreDataLayer/DB/Query/FetchRequest.swift:37-103 | `filtered` gives the same state whether it is called before or after `sorted`, `dropFirst` or `prefix` |
| FetchRequests.SortingComposes | Sources/CoreDataLayer/DB/Query/FetchRequest.swift:93-103 | sorting by `a` and then by `b` equals sorting by `a + b` |
| FetchRequests.CompiledSortingAppends | Sources/CoreDataLayer/DB/Query/FetchRequest.swift:81-115 | after `sorted(by:)`, the compiled sort list is the previously compiled list followed by the new descriptors' raw values |
| FetchRequests.FetchRequest.constructor | Sources/CoreDataLayer/DB/Query/FetchRequest.swift:11-18 | a new request has offset 0, limit 0, the configured default batch size, no predicate and no sort list |
| FetchRequests.FetchRequest.ToRaw | Sources/CoreDataLayer/DB/Query/FetchRequest.swift:20-33 | `toRaw` on the object fails exactly without a template; otherwise it takes the template's entity, copies the object's limit and offset, collapses its batch size, and compiles its predicate and its sort list (each descriptor's raw value, in order; none stays none) |
| FetchRequests.FetchRequest.DropFirst | Sources/CoreDataLayer/DB/Query/FetchRequest.swift:37-43 | changes only the receiver's offset and returns the receiver itself |
| FetchRequests.FetchRequest.Prefix | Sources/CoreDataLayer/DB/Query/FetchRequest.swift:45-51 | changes only the receiver's limit and returns the receiver itself |
| FetchRequests.FetchRequest.BatchSize | Sources/CoreDataLayer/DB/Query/FetchRequest.swift:53-59 | changes only the receiver's batch size and returns the receiver itself |
| FetchRequests.FetchRequest.Filtered | Sources/CoreDataLayer/DB/Query/FetchRequest.swift:65-75 | the receiver's new state is `WithFilter` of its old state, and the receiver itself is returned |
| FetchRequests.FetchRequest.SortedBy | Sources/CoreDataLayer/DB/Query/FetchRequest.swift:81-91 | the receiver's new state is `WithSorting` of its old state with the one descriptor, and the receiver itself is returned |
| FetchRequests.FetchRequest.SortedByAll | Sources/CoreDataLayer/DB/Query/FetchRequest.swift:93-115 | the array and variadic overloads give the receiver `WithSorting` of its old state with the list, and return the receiver itself |
| FetchRequests.BuilderChainAliasesOriginal | Sources/CoreDataLayer/DB/Query/FetchRequest.swift:37-51 | `dropFirst(10).prefix(5)` returns the original object, whose own offset and limit are now 10 and 5 |
| Changes.CoreDataChange.Object | Sources/CoreDataLayer/DB/Observable/CoreDataChange.swift:15-21 | `object()` is the payload the change was built with, for every kind of change |
| Changes.CoreDataChange.Index | Sources/CoreDataLayer/DB/Observable/CoreDataChange.swift:23-29 | `index()` is the position the change was built with: the change is rebuilt from its kind, `index()` and `object()` |
| Changes.CoreDataChange.IsDeletion | Sources/CoreDataLayer/DB/Observable/CoreDataChange.swift:31-36 | `isDeletion` holds exactly when the change is a `.delete` of its own index and payload |
| Changes.CoreDataChange.IsUpdate | Sources/CoreDataLayer/DB/Observable/CoreDataChange.swift:38-43 | `isUpdate` holds exactly when the change is an `.update` of its own index and payload |
| Changes.CoreDataChange.IsInsertion | Sources/CoreDataLayer/DB/Observable/CoreDataChange.swift:45-50 | `isInsertion` holds exactly when the change is an `.insert` of its own index and payload |
| Changes.AccessorsOfConstructed | Sources/CoreDataLayer/DB/Observable/CoreDataChange.swift:15-50 | `index()` and `object()` return what each of the three cases was built with, and each flag holds of its own case only |
| Changes.RebuiltFromAccessors | Sources/CoreDataLayer/DB/Observable/CoreDataChange.swift:15-50 | every change is rebuilt from its flags, `index()` and `object()` |
| Changes.ExactlyOneFlag | Sources/CoreDataLayer/DB/Observable/CoreDataChange.swift:31-50 | exactly one of `isDeletion`, `isUpdate` and `isInsertion` holds of every change |
| Observables.ObserveStep | Sources/CoreDataLayer/DB/Observable/CoreDataObservable.swift:38-57 | observing in a debug build while an observer is stored only halts; otherwise a failed fetch delivers one `.error` and changes nothing, and a successful one delivers `.initial`, stores the closure, installs the forwarder, then delivers `.error` only if `performFetch` fails; the state changes only on a successful fetch, to the closure stored and forwarding on |
| Observables.ObservedOnlyOnce | Sources/CoreDataLayer/DB/Observable/CoreDataObservable.swift:39 | observing in a debug build while an observer is stored halts, delivers nothing and changes nothing |
| Observables.ObserveAgainAfterFailedFetch | Sources/CoreDataLayer/DB/Observable/CoreDataObservable.swift:39-55 | a failed initial fetch leaves no observer stored, so the observable may be observed again, even in a debug build, and a successful second fetch delivers `.initial` to the new closure and stores it |
| Observables.InitialBeforeSubscription | Sources/CoreDataLayer/DB/Observable/CoreDataObservable.swift:42-51 | after a successful fetch the first effect delivers `.initial(objects)`; storing the observer and installing the forwarder come after it; the closure ends up stored and forwarding is on |
| Observables.FailedInitialFetch | Sources/CoreDataLayer/DB/Observable/CoreDataObservable.swift:41-56 | a failed initial fetch delivers exactly one `.error` and leaves the observer state unchanged |
| Observables.DeliveriesAfterInitialFetch | Sources/CoreDataLayer/DB/Observable/CoreDataObservable.swift:41-56 | after a successful fetch the closure receives `.initial` alone, or `.initial` then `.error` when `performFetch` fails; the observer stays installed either way |
| Observables.ObserverSetOnce | Sources/CoreDataLayer/DB/Observable/CoreDataObservable.swift:38-57 | the observer is set afterwards exactly when it was set before or the fetch succeeded with observing allowed; a debug build never replaces a stored observer |
| Observables.Forward | Sources/CoreDataLayer/DB/Observable/CoreDataObservable.swift:46-51 | a `.change` event reaches the stored observer unchanged once forwarding is installed; every other event, or any event before that, is dropped |
| Observables.CoreDataObservable.constructor | Sources/CoreDataLayer/DB/Observable/CoreDataObservable.swift:19-32 | a new observable holds its request and compiled request, with no observer and no forwarder |
| Observables.CoreDataObservable.Create | Sources/CoreDataLayer/DB/Observable/CoreDataObservable.swift:19-20 | construction fails with the error of `toRaw` exactly when `toRaw` fails, and otherwise holds the request compiled from the builder's current fields |
| Observables.CoreDataObservable.Observe | Sources/CoreDataLayer/DB/Observable/CoreDataObservable.swift:38-57 | the new observer state and the effects in order are those of `ObserveStep` on the old state |
| Observables.CoreDataObservable.DelegateDidChange | Sources/CoreDataLayer/DB/Observable/CoreDataObservable.swift:46-51 | the forwarding closure's effects are those of `Forward` on the current state |

## Left out

- DBService.swift is not part of this model. It sets up the container and wraps fetch,
  count, first and insert in `context.perform` on framework contexts. That is I/O and
  concurrency around Core Data. `first`, `firstConvetible` and `firstOrEmptyNew` set
  `limit = 1` on the caller's own request object. That is the same aliasing that
  `BuilderChainAliasesOriginal` shows.
- No code computes deletion, insertion or modification lists from a change batch, so
  the model has no such computation.
- FetchedResultsControllerDelegate.swift is a framework callback. The model keeps only
  the event it hands to the forwarding closure, as the input of `DelegateDidChange`. The
  Swift delegate passes the fetched array where `.change` expects the tuple payload. The
  model takes whatever `.change` value it is given.
- NSManagedObjectContext+Extension.swift (recursive save through parent contexts) is
  storage I/O and is not modelled.
- DBConvertible.swift declares only protocols, which no modelled operation uses.
- Foundation's format-string parser is not modelled: a format predicate is an opaque
  leaf that the evaluation oracle decides.
- Foundation's evaluation of predicates is stated, not derived. A constant is its own
  value. AND needs every sub-predicate and OR needs some (so an empty AND holds and an
  empty OR does not). NOT negates the conjunction of its sub-predicates. `!`
  (Predicate.swift:111-113) and the NOT initialiser (Predicate.swift:97-99) build NOT over
  exactly one sub-predicate, where this reading is plain negation. But
  `CompoundPredicate(type: .not, subpredicates:)` accepts any list. For an empty or
  longer list, the model's reading (an empty NOT is false, a longer one means "not all")
  is an assumption about Foundation's evaluation. Comparisons are decided by the oracle.
- `KeyPath.pathString` relies on a runtime key-value-coding string, so key paths are
  plain strings. The Swift type constraints of the operators (`Equatable`,
  `Comparable`, Optional key paths) are not modelled.
- The `SortDescriptor` datatype also admits values whose key or direction disagree with
  their Foundation descriptor, which no Swift initialiser builds. `Consistent` names the
  ones the initialisers build, and `FromRaw` and `FromKey` are proved to give only
  those. The builders do not require it, because compiling reads only the Foundation
  descriptor (FetchRequest.swift:30).
- What the string comparators compute is locale-dependent Foundation behaviour. The
  model records only which selector is chosen.
- Config.swift's two mutable globals are a `Settings` parameter, not shared mutable
  state.
- The `guard let self` in the forwarding closure drops events after the observable is
  deallocated. Memory management is not modelled.
- Swift's `Int` is unbounded here. None of the modelled operations does arithmetic, so
  no wrap-around is lost.
- The closures' own behaviour is not modelled. Each call to a closure is recorded as a
  `Deliver` effect.
- Package.swift is a build manifest.
