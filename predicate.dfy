/** The typed predicate tree (Predicate.swift): plain predicates wrapping a Foundation
    predicate, comparison leaves and AND/OR/NOT compounds, each carrying the Foundation
    predicate it stands for, and the `&&`, `||` and `!` operators that compose them.

    Foundation's predicate classes are replaced by the datatype `NSPredicate`; what a
    Foundation predicate means for one object is given by `Evaluate`, whose leaves
    (comparisons and parsed format strings) are decided by a caller-supplied oracle. */
module Predicates {
  import opened Wrappers
  import opened Config

  /** The constant on the right of a comparison. The layer distinguishes only Swift
      `String` and `NSString` (which get the default comparison options) from every
      other value type. */
  datatype Value =
    | SwiftString(text: string)
    | NSString(text: string)
    | Integer(number: int)
    | Boolean(flag: bool)
    | OtherValue(description: string)

  /** `NSExpression`: a key path, or a constant (nil when an Optional right side is nil). */
  datatype Expression = KeyPath(path: string) | Constant(constant: Option<Value>)

  /** `NSComparisonPredicate.Modifier`. */
  datatype Modifier = Direct | All | Any

  /** `NSComparisonPredicate.Operator`. */
  datatype Operator =
    | LessThan | LessThanOrEqualTo | GreaterThan | GreaterThanOrEqualTo
    | EqualTo | NotEqualTo | Matches | Like | BeginsWith | EndsWith
    | In | Contains | Between

  /** `NSCompoundPredicate.LogicalType`. */
  datatype LogicalType = NotType | AndType | OrType

  /** The Foundation predicate tree that a typed predicate's `rawValue` holds. */
  datatype NSPredicate =
    | NSValue(value: bool)
    | NSFormat(format: string, arguments: seq<Value>)
    | NSComparison(left: Expression, right: Expression, modifier: Modifier,
                   operatorType: Operator, options: ComparisonOptions)
    | NSCompound(logicalType: LogicalType, subpredicates: seq<NSPredicate>)

  /** The typed predicate: the base class wrapping any Foundation predicate, and the two
      subclasses whose stored fields are all constants set once by their initialisers. */
  datatype Predicate =
    | Plain(raw: NSPredicate)
    | Comparison(leftExpression: Expression, rightExpression: Expression,
                 modifier: Modifier, operatorType: Operator, options: ComparisonOptions)
    | Compound(logicalType: LogicalType, subpredicates: seq<Predicate>)

  /** The `rawValue` every typed predicate carries: a comparison predicate built from the
      node's own five fields, or a compound predicate of the same logical type over the
      sub-predicates' raw values in the same order. */
  function RawValue(p: Predicate): (r: NSPredicate)
    ensures p.Plain? ==> r == p.raw
    ensures p.Comparison? ==>
      r == NSComparison(p.leftExpression, p.rightExpression, p.modifier, p.operatorType, p.options)
    ensures p.Compound? ==>
      && r.NSCompound? && r.logicalType == p.logicalType
      && |r.subpredicates| == |p.subpredicates|
      && forall i :: 0 <= i < |p.subpredicates| ==> r.subpredicates[i] == RawValue(p.subpredicates[i])
  {
    match p
    case Plain(raw) => raw
    case Comparison(left, right, modifier, operatorType, options) =>
      NSComparison(left, right, modifier, operatorType, options)
    case Compound(logicalType, subs) =>
      NSCompound(logicalType, seq(|subs|, i requires 0 <= i < |subs| => RawValue(subs[i])))
  }

  /** The typed view of a Foundation predicate: comparisons and compounds become the
      matching subclasses, anything else stays a plain predicate. */
  function Typed(r: NSPredicate): Predicate
  {
    match r
    case NSComparison(left, right, modifier, operatorType, options) =>
      Comparison(left, right, modifier, operatorType, options)
    case NSCompound(logicalType, subs) =>
      Compound(logicalType, seq(|subs|, i requires 0 <= i < |subs| => Typed(subs[i])))
    case _ => Plain(r)
  }

  /** Every Foundation predicate is the raw value of its typed view, so the typed layer
      can express (and loses nothing of) any predicate tree. */
  lemma {:induction false} RawValueOfTyped(r: NSPredicate)
    ensures RawValue(Typed(r)) == r
  {
    match r
    case NSCompound(logicalType, subs) =>
      var t := Typed(r);
      var back := RawValue(t);
      forall i | 0 <= i < |subs|
        ensures back.subpredicates[i] == subs[i]
      {
        RawValueOfTyped(subs[i]);
      }
    case _ =>
  }

  /** Whether a Foundation predicate holds for one object. `leaf` decides comparisons and
      parsed format strings for that object; constants are their own value; AND needs all
      sub-predicates, OR some, and NOT is the negation of their conjunction. `!` and the
      NOT initialiser build NOT over exactly one sub-predicate, but `CompoundOf(NotType, …)`
      accepts any list; for a list of another length (an empty NOT is false, a longer one
      means "not all") this reading is an assumption about Foundation, not a fact. */
  function Evaluate(r: NSPredicate, leaf: NSPredicate -> bool): bool
  {
    match r
    case NSValue(value) => value
    case NSCompound(logicalType, subs) =>
      (match logicalType
       case AndType => forall i :: 0 <= i < |subs| ==> Evaluate(subs[i], leaf)
       case OrType => exists i :: 0 <= i < |subs| && Evaluate(subs[i], leaf)
       case NotType => !(forall i :: 0 <= i < |subs| ==> Evaluate(subs[i], leaf)))
    case _ => leaf(r)
  }

  /** Whether a typed predicate holds for one object: its raw value holds. */
  function Holds(p: Predicate, leaf: NSPredicate -> bool): bool
  {
    Evaluate(RawValue(p), leaf)
  }

  // ----- Initialisers -----

  /** `Predicate(value:)`: a constant leaf. */
  function ValuePredicate(value: bool): (p: Predicate)
    ensures p.Plain? && RawValue(p) == NSValue(value)
    ensures forall leaf :: Holds(p, leaf) == value
  {
    Plain(NSValue(value))
  }

  /** `Predicate(format:argumentArray:)` and `Predicate(format:arguments:)`: a plain leaf
      holding the format and its arguments. Foundation's format parser is not modelled,
      so what such a leaf means for an object is left to the leaf oracle. */
  function FormatPredicate(format: string, arguments: seq<Value>): (p: Predicate)
    ensures p.Plain? && RawValue(p) == NSFormat(format, arguments)
    ensures forall leaf :: Holds(p, leaf) == leaf(NSFormat(format, arguments))
  {
    Plain(NSFormat(format, arguments))
  }

  /** `CompoundPredicate(type:subpredicates:)`. */
  function CompoundOf(logicalType: LogicalType, subpredicates: seq<Predicate>): (p: Predicate)
    ensures p.Compound? && p.logicalType == logicalType && p.subpredicates == subpredicates
  {
    Compound(logicalType, subpredicates)
  }

  /** `CompoundPredicate(andPredicateWithSubpredicates:)`. */
  function AndPredicate(subpredicates: seq<Predicate>): (p: Predicate)
    ensures p == CompoundOf(AndType, subpredicates)
  {
    Compound(AndType, subpredicates)
  }

  /** `CompoundPredicate(orPredicateWithSubpredicates:)`. */
  function OrPredicate(subpredicates: seq<Predicate>): (p: Predicate)
    ensures p == CompoundOf(OrType, subpredicates)
  {
    Compound(OrType, subpredicates)
  }

  /** `CompoundPredicate(notPredicateWithSubpredicate:)`. */
  function NotPredicate(operand: Predicate): (p: Predicate)
    ensures p == CompoundOf(NotType, [operand])
  {
    Compound(NotType, [operand])
  }

  // ----- Operators -----

  /** `left && right`: an AND node over exactly `[left, right]`. */
  function Conjunction(left: Predicate, right: Predicate): (p: Predicate)
    ensures p == AndPredicate([left, right])
  {
    Compound(AndType, [left, right])
  }

  /** `left || right`: an OR node over exactly `[left, right]`. */
  function Disjunction(left: Predicate, right: Predicate): (p: Predicate)
    ensures p == OrPredicate([left, right])
  {
    Compound(OrType, [left, right])
  }

  /** `!operand`: a NOT node over exactly `[operand]`, the same node as the NOT initialiser. */
  function Negation(operand: Predicate): (p: Predicate)
    ensures p == NotPredicate(operand)
  {
    Compound(NotType, [operand])
  }

  // ----- What the compounds mean -----

  /** An AND predicate holds exactly when every one of its sub-predicates holds. */
  lemma AndPredicateHolds(subpredicates: seq<Predicate>, leaf: NSPredicate -> bool)
    ensures Holds(AndPredicate(subpredicates), leaf)
        <==> forall i :: 0 <= i < |subpredicates| ==> Holds(subpredicates[i], leaf)
  {
  }

  /** An OR predicate holds exactly when one of its sub-predicates holds. */
  lemma OrPredicateHolds(subpredicates: seq<Predicate>, leaf: NSPredicate -> bool)
    ensures Holds(OrPredicate(subpredicates), leaf)
        <==> exists i :: 0 <= i < |subpredicates| && Holds(subpredicates[i], leaf)
  {
  }

  /** `a && b` holds exactly when both operands hold. */
  lemma ConjunctionHolds(a: Predicate, b: Predicate, leaf: NSPredicate -> bool)
    ensures Holds(Conjunction(a, b), leaf) <==> Holds(a, leaf) && Holds(b, leaf)
  {
    AndPredicateHolds([a, b], leaf);
    assert [a, b][0] == a && [a, b][1] == b;
  }

  /** `a || b` holds exactly when either operand holds. */
  lemma DisjunctionHolds(a: Predicate, b: Predicate, leaf: NSPredicate -> bool)
    ensures Holds(Disjunction(a, b), leaf) <==> Holds(a, leaf) || Holds(b, leaf)
  {
    OrPredicateHolds([a, b], leaf);
    if Holds(a, leaf) {
      assert [a, b][0] == a;
    }
    if Holds(b, leaf) {
      assert [a, b][1] == b;
    }
  }

  /** `!a` holds exactly when `a` does not. */
  lemma NegationHolds(a: Predicate, leaf: NSPredicate -> bool)
    ensures Holds(Negation(a), leaf) <==> !Holds(a, leaf)
  {
    assert RawValue(Negation(a)).subpredicates[0] == RawValue(a);
  }
}
