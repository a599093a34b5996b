/** Sort descriptors (SortDescriptor.swift). A descriptor is built from a Foundation
    sort descriptor; when its key names a string attribute of the entity, the Foundation
    descriptor is recreated with the string comparator that the configured comparison
    options call for. Key and direction always carry through unchanged.

    Only which comparator is chosen is modelled: what the comparators do is
    locale-dependent Foundation behaviour. */
module SortDescriptors {
  import opened Wrappers
  import opened Config

  /** The `NSString` comparison selectors the layer may attach. */
  datatype Selector = LocalizedCaseInsensitiveCompare | CaseInsensitiveCompare | LocalizedCompare

  /** `NSSortDescriptor`: an optional key, a direction, and an optional comparison
      selector (none means Foundation's default `compare:`). */
  datatype NSSortDescriptor = NSSortDescriptor(key: Option<string>, ascending: bool, selector: Option<Selector>)

  /** `NSAttributeType`, as far as the layer distinguishes it. */
  datatype AttributeType = StringAttribute | IntegerAttribute | DateAttribute | OtherAttribute

  /** `Entity.entity().attributesByName`: attribute name to attribute type. */
  type Attributes = map<string, AttributeType>

  /** The typed descriptor: its final Foundation descriptor, with that descriptor's key
      and direction. */
  datatype SortDescriptor = SortDescriptor(rawValue: NSSortDescriptor, key: string, isAscending: bool)

  /** Whether a typed descriptor is one the initialisers can build: its key and direction
      are those of its Foundation descriptor ("NO KEY" when that has no key). */
  predicate Consistent(d: SortDescriptor)
  {
    && d.isAscending == d.rawValue.ascending
    && d.key == (if d.rawValue.key.Some? then d.rawValue.key.value else MissingKey)
  }

  /** The key a descriptor without one gets in release builds. */
  const MissingKey: string := "NO KEY"

  /** The comparator for a set of comparison options: each of the four combinations of
      the case- and diacritic-insensitive flags picks its own selector. */
  function ComparatorFor(options: ComparisonOptions): (selector: Option<Selector>)
    ensures selector == Some(LocalizedCaseInsensitiveCompare)
        <==> CaseInsensitive in options && DiacriticInsensitive in options
    ensures selector == Some(CaseInsensitiveCompare)
        <==> CaseInsensitive in options && DiacriticInsensitive !in options
    ensures selector == Some(LocalizedCompare)
        <==> CaseInsensitive !in options && DiacriticInsensitive in options
    ensures selector == None <==> CaseInsensitive !in options && DiacriticInsensitive !in options
  {
    if CaseInsensitive in options && DiacriticInsensitive in options then
      Some(LocalizedCaseInsensitiveCompare)
    else if CaseInsensitive in options then
      Some(CaseInsensitiveCompare)
    else if DiacriticInsensitive in options then
      Some(LocalizedCompare)
    else
      None
  }

  /** The comparator depends on the two insensitivity flags and on nothing else. */
  lemma ComparatorDependsOnlyOnFlags(a: ComparisonOptions, b: ComparisonOptions)
    ensures ComparatorFor(a) == ComparatorFor(b)
        <==> ((CaseInsensitive in a <==> CaseInsensitive in b)
              && (DiacriticInsensitive in a <==> DiacriticInsensitive in b))
  {
  }

  /** Whether a descriptor's key is present and names a string attribute of the entity. */
  predicate SortsText(raw: NSSortDescriptor, attributes: Attributes)
  {
    raw.key.Some? && raw.key.value in attributes && attributes[raw.key.value] == StringAttribute
  }

  /** The Foundation descriptor the initialiser keeps: recreated with the configured
      comparator when it sorts a string attribute, the given one unchanged otherwise. */
  function Recreated(raw: NSSortDescriptor, attributes: Attributes, settings: Settings)
    : (r: NSSortDescriptor)
    ensures r.key == raw.key && r.ascending == raw.ascending
    ensures SortsText(raw, attributes) ==> r.selector == ComparatorFor(settings.defaultComparisonOptions)
    ensures !SortsText(raw, attributes) ==> r == raw
  {
    if SortsText(raw, attributes) then
      NSSortDescriptor(raw.key, raw.ascending, ComparatorFor(settings.defaultComparisonOptions))
    else
      raw
  }

  /** Recreating a recreated descriptor changes nothing. */
  lemma RecreatedIdempotent(raw: NSSortDescriptor, attributes: Attributes, settings: Settings)
    ensures Recreated(Recreated(raw, attributes, settings), attributes, settings)
         == Recreated(raw, attributes, settings)
  {
  }

  /** `SortDescriptor(rawValue:)`. None is the debug-build halt on a descriptor without a
      key; in release builds such a descriptor gets the key "NO KEY". */
  function FromRaw(raw: NSSortDescriptor, attributes: Attributes, settings: Settings, build: Build)
    : (d: Option<SortDescriptor>)
    ensures d.None? <==> raw.key.None? && build == Debug
    ensures d.Some? ==>
      && d.value.rawValue == Recreated(raw, attributes, settings)
      && d.value.isAscending == raw.ascending == d.value.rawValue.ascending
      && d.value.key == (if raw.key.Some? then raw.key.value else MissingKey)
      && (d.value.rawValue.key.Some? ==> d.value.rawValue.key == Some(d.value.key))
      && Consistent(d.value)
  {
    var rawValue := Recreated(raw, attributes, settings);
    match rawValue.key
    case Some(key) => Some(SortDescriptor(rawValue, key, rawValue.ascending))
    case None => if build == Debug then None else Some(SortDescriptor(rawValue, MissingKey, rawValue.ascending))
  }

  /** `SortDescriptor(key:isAscending:)` and, with the key path's string,
      `SortDescriptor(keyPath:isAscending:)`: never halts, since the key is present. */
  function FromKey(key: string, isAscending: bool, attributes: Attributes, settings: Settings)
    : (d: SortDescriptor)
    ensures d.key == key && d.isAscending == isAscending
    ensures d.rawValue.key == Some(key) && d.rawValue.ascending == isAscending
    ensures d.rawValue.selector
         == if key in attributes && attributes[key] == StringAttribute
            then ComparatorFor(settings.defaultComparisonOptions) else None
    ensures Consistent(d)
    ensures forall build :: FromRaw(NSSortDescriptor(Some(key), isAscending, None), attributes, settings, build) == Some(d)
  {
    FromRaw(NSSortDescriptor(Some(key), isAscending, None), attributes, settings, Release).value
  }

  /** `SortDescriptor.ascending(_:)`. */
  function Ascending(key: string, attributes: Attributes, settings: Settings): (d: SortDescriptor)
    ensures d.key == key && d.isAscending
    ensures d == FromKey(key, true, attributes, settings)
  {
    FromKey(key, true, attributes, settings)
  }

  /** `SortDescriptor.descending(_:)`. */
  function Descending(key: string, attributes: Attributes, settings: Settings): (d: SortDescriptor)
    ensures d.key == key && !d.isAscending
    ensures d == FromKey(key, false, attributes, settings)
  {
    FromKey(key, false, attributes, settings)
  }

  /** Rebuilding a typed descriptor from its own raw value gives it back: the
      initialiser's output is a fixed point of the initialiser. */
  lemma FromRawOfRawValue(raw: NSSortDescriptor, attributes: Attributes, settings: Settings, build: Build)
    requires FromRaw(raw, attributes, settings, build).Some?
    ensures var d := FromRaw(raw, attributes, settings, build).value;
      FromRaw(d.rawValue, attributes, settings, build) == Some(d)
  {
  }

  /** With the shipped configuration, a string attribute sorts with the localized
      case-insensitive comparator, whatever its direction. */
  lemma DefaultTextComparator(key: string, isAscending: bool, attributes: Attributes)
    requires key in attributes && attributes[key] == StringAttribute
    ensures FromKey(key, isAscending, attributes, Defaults).rawValue.selector
         == Some(LocalizedCaseInsensitiveCompare)
  {
  }
}
