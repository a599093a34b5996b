/** The comparison operators over key paths (KeyPath.swift): `==`, `!=`, `<`, `<=`, `>`
    and `>=`, each in a plain form and a form whose key path and right value are
    Optional. Every one of the twelve builds a comparison predicate with the key path on
    the left, the constant on the right, the `direct` modifier, its own operator type,
    and the comparison options the right value's type calls for.

    Key paths are their key-value-coding strings; the Swift type constraints
    (`Equatable`, `Comparable`) are not modelled. */
module KeyPaths {
  import opened Wrappers
  import opened Config
  import opened Predicates

  /** The six Swift operator symbols the layer overloads. */
  datatype Symbol = Equal | NotEqual | Less | LessOrEqual | Greater | GreaterOrEqual

  /** The Foundation operator type each symbol builds. */
  function OperatorType(symbol: Symbol): (op: Operator)
    ensures op in {EqualTo, NotEqualTo, LessThan, LessThanOrEqualTo, GreaterThan, GreaterThanOrEqualTo}
    ensures SymbolFor(op) == Some(symbol)
  {
    match symbol
    case Equal => EqualTo
    case NotEqual => NotEqualTo
    case Less => LessThan
    case LessOrEqual => LessThanOrEqualTo
    case Greater => GreaterThan
    case GreaterOrEqual => GreaterThanOrEqualTo
  }

  /** The symbol, if any, whose overload builds a given operator type. */
  function SymbolFor(op: Operator): Option<Symbol>
  {
    match op
    case EqualTo => Some(Equal)
    case NotEqualTo => Some(NotEqual)
    case LessThan => Some(Less)
    case LessThanOrEqualTo => Some(LessOrEqual)
    case GreaterThan => Some(Greater)
    case GreaterThanOrEqualTo => Some(GreaterOrEqual)
    case _ => None
  }

  /** The symbols and the six operator types they build are in one-to-one correspondence. */
  lemma OperatorTypeOneToOne(a: Symbol, b: Symbol, op: Operator)
    ensures OperatorType(a) == OperatorType(b) <==> a == b
    ensures SymbolFor(op).Some? <==> exists s :: OperatorType(s) == op
  {
    if SymbolFor(op).Some? {
      assert OperatorType(SymbolFor(op).value) == op;
    }
  }

  /** Whether a right value is a Swift `String` or an `NSString`. */
  predicate IsText(value: Value)
  {
    value.SwiftString? || value.NSString?
  }

  /** `Equatable.comparisonOptions`: the configured default options for text, none for
      any other value. */
  function ComparisonOptionsOf(value: Value, settings: Settings): (options: ComparisonOptions)
    ensures IsText(value) ==> options == settings.defaultComparisonOptions
    ensures !IsText(value) ==> options == {}
  {
    if IsText(value) then settings.defaultComparisonOptions else {}
  }

  /** The plain overload `keyPath <symbol> right`. */
  function Compare(symbol: Symbol, keyPath: string, right: Value, settings: Settings): (p: Predicate)
    ensures p.Comparison?
    ensures p.leftExpression == KeyPath(keyPath) && p.rightExpression == Constant(Some(right))
    ensures p.modifier == Direct && SymbolFor(p.operatorType) == Some(symbol)
    ensures p.options == ComparisonOptionsOf(right, settings)
  {
    Comparison(KeyPath(keyPath), Constant(Some(right)), Direct, OperatorType(symbol),
               ComparisonOptionsOf(right, settings))
  }

  /** The Optional overload `keyPath <symbol> right` with `right` possibly nil: the
      options are those of the wrapped value, or none when it is nil. */
  function CompareOptional(symbol: Symbol, keyPath: string, right: Option<Value>, settings: Settings)
    : (p: Predicate)
    ensures right.Some? ==> p == Compare(symbol, keyPath, right.value, settings)
    ensures right.None? ==>
      && p.Comparison? && p.leftExpression == KeyPath(keyPath) && p.rightExpression == Constant(None)
      && p.modifier == Direct && SymbolFor(p.operatorType) == Some(symbol) && p.options == {}
  {
    Comparison(KeyPath(keyPath), Constant(right), Direct, OperatorType(symbol),
               match right
               case Some(v) => ComparisonOptionsOf(v, settings)
               case None => {})
  }

  /** With the shipped configuration, a text comparison is case- and diacritic-insensitive
      and nothing else, and every other comparison has no options. */
  lemma DefaultOptions(symbol: Symbol, keyPath: string, right: Option<Value>)
    ensures var p := CompareOptional(symbol, keyPath, right, Defaults);
      p.options == if right.Some? && IsText(right.value) then {CaseInsensitive, DiacriticInsensitive} else {}
  {
  }
}
