/** The fetch-request builder (FetchRequest.swift): a class with mutable offset, limit,
    batch size, filter and sort list; chainable builders that set one of them; and
    `toRaw`, which compiles the fields into a Foundation fetch request.

    Every builder begins with `let clone = self`, which on a class copies only the
    reference: the builder then assigns to the receiver itself and returns it. The model
    keeps that aliasing: each builder modifies `this` and returns `this`. */
module FetchRequests {
  import opened Wrappers
  import opened Config
  import opened Predicates
  import opened SortDescriptors

  /** `FetchRequestError`. */
  datatype FetchRequestError = InvalidFetchRequestResult

  /** `NSFetchRequest`: what `toRaw` produces; `filter` is its `predicate`. */
  datatype NSFetchRequest = NSFetchRequest(
    entityName: string,
    fetchLimit: int,
    fetchOffset: int,
    fetchBatchSize: int,
    filter: Option<NSPredicate>,
    sortDescriptors: Option<seq<NSSortDescriptor>>)

  /** The five fields of a builder, as one value. `filter` is the Swift `predicate`
      field (`predicate` is a Dafny keyword) and `sortDescriptors` is `sortDescriptiors`. */
  datatype RequestState = RequestState(
    offset: int,
    limit: int,
    batchSize: int,
    filter: Option<Predicate>,
    sortDescriptors: Option<seq<SortDescriptor>>)

  /** The fields of a new builder: it compiles, for any entity, to a request with no
      limit, no offset, the configured batch size (never collapsed, as there is no limit),
      no predicate and no sort list. */
  function InitialState(settings: Settings): (s: RequestState)
    ensures forall entityName :: (Compile(s, Some(entityName))
         == Success(NSFetchRequest(entityName, 0, 0, settings.defaultBatchSize, None, None)))
  {
    RequestState(0, 0, settings.defaultBatchSize, None, None)
  }

  /** The compiled batch size: collapsed to 0 ("fetch everything at once") when a positive
      limit is smaller than the batch size, the batch size itself otherwise. */
  function CompiledBatchSize(limit: int, batchSize: int): (b: int)
    ensures b == 0 || b == batchSize
    ensures b != batchSize <==> limit > 0 && batchSize > limit && batchSize != 0
    ensures limit > 0 && batchSize > limit ==> b == 0
    ensures limit > 0 ==> b <= limit
  {
    if limit > 0 && batchSize > limit then 0 else batchSize
  }

  /** The compiled sort list: each descriptor's raw value, in order. */
  function RawSortDescriptors(descriptors: seq<SortDescriptor>): (raws: seq<NSSortDescriptor>)
    ensures |raws| == |descriptors|
    ensures forall i :: 0 <= i < |descriptors| ==> raws[i] == descriptors[i].rawValue
  {
    seq(|descriptors|, i requires 0 <= i < |descriptors| => descriptors[i].rawValue)
  }

  /** Compiling the raw values of a concatenation concatenates the raw values. */
  lemma RawSortDescriptorsAppend(a: seq<SortDescriptor>, b: seq<SortDescriptor>)
    ensures RawSortDescriptors(a + b) == RawSortDescriptors(a) + RawSortDescriptors(b)
  {
  }

  /** `toRaw` on a builder in state `s`. `template` is what `Entity.fetchRequest()` yields
      once cast: the entity's name, or None when the cast fails. */
  function Compile(s: RequestState, template: Option<string>)
    : (r: Result<NSFetchRequest, FetchRequestError>)
    ensures template.None? <==> r == Failure(InvalidFetchRequestResult)
    ensures r.Success? ==>
      && r.value.entityName == template.value
      && r.value.fetchLimit == s.limit
      && r.value.fetchOffset == s.offset
      && r.value.fetchBatchSize == CompiledBatchSize(s.limit, s.batchSize)
      && (r.value.filter.Some? <==> s.filter.Some?)
      && (s.filter.Some? ==> r.value.filter.value == RawValue(s.filter.value))
      && (r.value.sortDescriptors.Some? <==> s.sortDescriptors.Some?)
      && (s.sortDescriptors.Some? ==>
            r.value.sortDescriptors.value == RawSortDescriptors(s.sortDescriptors.value))
  {
    match template
    case None => Failure(InvalidFetchRequestResult)
    case Some(entityName) =>
      Success(NSFetchRequest(
        entityName,
        s.limit,
        s.offset,
        CompiledBatchSize(s.limit, s.batchSize),
        match s.filter
        case Some(p) => Some(RawValue(p))
        case None => None,
        match s.sortDescriptors
        case Some(ds) => Some(RawSortDescriptors(ds))
        case None => None))
  }

  /** The state after `filtered(p)`: `p` alone on a request without a filter, otherwise
      an AND of the old predicate (first) and `p`. Nothing else changes. */
  function WithFilter(s: RequestState, p: Predicate): (r: RequestState)
    ensures r == s.(filter := r.filter)
    ensures s.filter.None? ==> r.filter == Some(p)
    ensures s.filter.Some? ==> r.filter == Some(AndPredicate([s.filter.value, p]))
  {
    match s.filter
    case Some(existing) => s.(filter := Some(AndPredicate([existing, p])))
    case None => s.(filter := Some(p))
  }

  /** The state after `sorted(by:)` with `descriptors`: appended after any existing
      descriptors, which stay an unchanged prefix; exactly `descriptors` on a request
      without a sort list. Nothing else changes. */
  function WithSorting(s: RequestState, descriptors: seq<SortDescriptor>): (r: RequestState)
    ensures r == s.(sortDescriptors := r.sortDescriptors)
    ensures r.sortDescriptors.Some?
    ensures s.sortDescriptors.None? ==> r.sortDescriptors.value == descriptors
    ensures s.sortDescriptors.Some? ==>
      var existing := s.sortDescriptors.value;
      && |r.sortDescriptors.value| == |existing| + |descriptors|
      && r.sortDescriptors.value[..|existing|] == existing
      && r.sortDescriptors.value[|existing|..] == descriptors
  {
    match s.sortDescriptors
    case Some(existing) => s.(sortDescriptors := Some(existing + descriptors))
    case None => s.(sortDescriptors := Some(descriptors))
  }

  /** Whether an optional filter lets an object through: no filter lets every
      object through. */
  predicate Admits(filter: Option<Predicate>, leaf: NSPredicate -> bool)
  {
    filter.None? || Holds(filter.value, leaf)
  }

  /** Whether a compiled request lets an object through. */
  predicate Matches(request: NSFetchRequest, leaf: NSPredicate -> bool)
  {
    request.filter.None? || Evaluate(request.filter.value, leaf)
  }

  /** The state after `filtered` with each filter of `ps` in turn. */
  function FilterAll(s: RequestState, ps: seq<Predicate>): RequestState
    decreases |ps|
  {
    if ps == [] then s else FilterAll(WithFilter(s, ps[0]), ps[1..])
  }

  /** A chain of `filtered` calls narrows: an object gets through exactly when it got
      through before and every added filter holds of it. */
  lemma {:induction false} FilterAllAdmits(s: RequestState, ps: seq<Predicate>, leaf: NSPredicate -> bool)
    ensures Admits(FilterAll(s, ps).filter, leaf)
        <==> Admits(s.filter, leaf) && forall i :: 0 <= i < |ps| ==> Holds(ps[i], leaf)
    decreases |ps|
  {
    if ps != [] {
      var next := WithFilter(s, ps[0]);
      FilterAllAdmits(next, ps[1..], leaf);
      if s.filter.Some? {
        AndPredicateHolds([s.filter.value, ps[0]], leaf);
        assert [s.filter.value, ps[0]][0] == s.filter.value;
        assert [s.filter.value, ps[0]][1] == ps[0];
      }
      assert Admits(next.filter, leaf) <==> Admits(s.filter, leaf) && Holds(ps[0], leaf);
      assert (forall i :: 0 <= i < |ps| ==> Holds(ps[i], leaf))
        <==> Holds(ps[0], leaf) && forall i :: 0 <= i < |ps[1..]| ==> Holds(ps[1..][i], leaf);
    }
  }

  /** The same, for the compiled request: compiling after a chain of `filtered` calls
      gives a request that matches an object exactly when the request compiled before the
      chain does and every added filter holds of it. */
  lemma FilterAllMatches(s: RequestState, ps: seq<Predicate>, template: Option<string>,
                         leaf: NSPredicate -> bool)
    requires template.Some?
    ensures Matches(Compile(FilterAll(s, ps), template).value, leaf)
        <==> Matches(Compile(s, template).value, leaf) && forall i :: 0 <= i < |ps| ==> Holds(ps[i], leaf)
  {
    FilterAllAdmits(s, ps, leaf);
  }

  /** On a new request, `filtered(p1).filtered(p2)` leaves `AND([p1, p2])` behind. */
  lemma FilteredTwiceOnNewRequest(settings: Settings, p1: Predicate, p2: Predicate)
    ensures WithFilter(WithFilter(InitialState(settings), p1), p2).filter == Some(AndPredicate([p1, p2]))
  {
  }

  /** `filtered` does not interact with `sorted`, `prefix` or `dropFirst`: the order of
      the calls does not matter. */
  lemma FilterCommutesWithOtherBuilders(s: RequestState, p: Predicate, descriptors: seq<SortDescriptor>,
                                        n: int, maxLength: int)
    ensures WithFilter(WithSorting(s, descriptors), p) == WithSorting(WithFilter(s, p), descriptors)
    ensures WithFilter(s.(offset := n), p) == WithFilter(s, p).(offset := n)
    ensures WithFilter(s.(limit := maxLength), p) == WithFilter(s, p).(limit := maxLength)
  {
  }

  /** Sorting by `a` and then by `b` is sorting by `a + b`. */
  lemma {:induction false} SortingComposes(s: RequestState, a: seq<SortDescriptor>, b: seq<SortDescriptor>)
    ensures WithSorting(WithSorting(s, a), b) == WithSorting(s, a + b)
  {
    if s.sortDescriptors.Some? {
      assert s.sortDescriptors.value + a + b == s.sortDescriptors.value + (a + b);
    }
  }

  /** The compiled sort list after `sorted(by:)` is the one compiled before it (if any)
      followed by the new descriptors' raw values: the first descriptor stays the primary
      sort key. */
  lemma CompiledSortingAppends(s: RequestState, descriptors: seq<SortDescriptor>, template: Option<string>)
    requires template.Some?
    ensures var before := Compile(s, template).value.sortDescriptors;
      Compile(WithSorting(s, descriptors), template).value.sortDescriptors
        == Some((if before.Some? then before.value else []) + RawSortDescriptors(descriptors))
  {
    if s.sortDescriptors.Some? {
      RawSortDescriptorsAppend(s.sortDescriptors.value, descriptors);
    } else {
      assert [] + RawSortDescriptors(descriptors) == RawSortDescriptors(descriptors);
    }
  }

  /** The builder. `filter` is the Swift `predicate` field. */
  class FetchRequest {
    var offset: int
    var limit: int
    var batchSize: int
    var filter: Option<Predicate>
    var sortDescriptors: Option<seq<SortDescriptor>>

    /** `init()`: offset 0, limit 0 (no limit), the configured default batch size, no
        filter and no sort list. */
    constructor (settings: Settings)
      ensures State() == InitialState(settings)
      ensures offset == 0 && limit == 0 && batchSize == settings.defaultBatchSize
      ensures filter.None? && sortDescriptors.None?
    {
      offset := 0;
      limit := 0;
      batchSize := settings.defaultBatchSize;
      filter := None;
      sortDescriptors := None;
    }

    /** The five fields as one value. */
    function State(): RequestState
      reads this
    {
      RequestState(offset, limit, batchSize, filter, sortDescriptors)
    }

    /** `toRaw()`: the template's entity name, limit and offset copied unchanged, the
        batch size collapsed by `CompiledBatchSize`, the filter's and descriptors' raw
        values. */
    function ToRaw(template: Option<string>): (r: Result<NSFetchRequest, FetchRequestError>)
      reads this
      ensures r.Failure? <==> template.None?
      ensures r.Success? ==>
        && r.value.entityName == template.value
        && r.value.fetchLimit == limit && r.value.fetchOffset == offset
        && r.value.fetchBatchSize == CompiledBatchSize(limit, batchSize)
        && r.value.filter == (if filter.Some? then Some(RawValue(filter.value)) else None)
        && r.value.sortDescriptors
           == (if sortDescriptors.Some? then Some(RawSortDescriptors(sortDescriptors.value)) else None)
    {
      Compile(State(), template)
    }

    /** `dropFirst(_:)`: sets the offset of this very request and returns it. */
    method DropFirst(n: int) returns (clone: FetchRequest)
      modifies this
      ensures clone == this
      ensures State() == old(State()).(offset := n)
    {
      clone := this;
      clone.offset := n;
    }

    /** `prefix(_:)`: sets the limit of this very request and returns it. */
    method Prefix(maxLength: int) returns (clone: FetchRequest)
      modifies this
      ensures clone == this
      ensures State() == old(State()).(limit := maxLength)
    {
      clone := this;
      clone.limit := maxLength;
    }

    /** `batchSize(_:)`: sets the batch size of this very request and returns it. */
    method BatchSize(size: int) returns (clone: FetchRequest)
      modifies this
      ensures clone == this
      ensures State() == old(State()).(batchSize := size)
    {
      clone := this;
      clone.batchSize := size;
    }

    /** `filtered(_:)`: ANDs `p` onto this very request's filter and returns it. */
    method Filtered(p: Predicate) returns (clone: FetchRequest)
      modifies this
      ensures clone == this
      ensures State() == WithFilter(old(State()), p)
    {
      clone := this;
      if clone.filter.Some? {
        clone.filter := Some(AndPredicate([clone.filter.value, p]));
      } else {
        clone.filter := Some(p);
      }
    }

    /** `sorted(by:)` with one descriptor: appends it to this very request's sort list. */
    method SortedBy(descriptor: SortDescriptor) returns (clone: FetchRequest)
      modifies this
      ensures clone == this
      ensures State() == WithSorting(old(State()), [descriptor])
    {
      clone := this;
      if clone.sortDescriptors.Some? {
        clone.sortDescriptors := Some(clone.sortDescriptors.value + [descriptor]);
      } else {
        clone.sortDescriptors := Some([descriptor]);
      }
    }

    /** `sorted(by:)` with an array, and the variadic overload (whose parameter is an
        array too): appends them to this very request's sort list. */
    method SortedByAll(descriptors: seq<SortDescriptor>) returns (clone: FetchRequest)
      modifies this
      ensures clone == this
      ensures State() == WithSorting(old(State()), descriptors)
    {
      clone := this;
      if clone.sortDescriptors.Some? {
        clone.sortDescriptors := Some(clone.sortDescriptors.value + descriptors);
      } else {
        clone.sortDescriptors := Some(descriptors);
      }
    }
  }

  /** A chain `dropFirst(10).prefix(5)` on a new request changes the request it started
      from: the result and the original are one object. */
  method BuilderChainAliasesOriginal(settings: Settings) returns (original: FetchRequest, derived: FetchRequest)
    ensures derived == original
    ensures original.offset == 10 && original.limit == 5
    ensures original.batchSize == settings.defaultBatchSize
  {
    original := new FetchRequest(settings);
    var dropped := original.DropFirst(10);
    derived := dropped.Prefix(5);
  }
}
