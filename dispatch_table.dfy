/** An independent, declarative statement of the from-native resolver: an
    explicit ordered list of (test, factory) rules and a generic first-match
    interpreter over such a list. The lemma at the end shows that the
    hand-written chain of the mapper is exactly its table.
 */
module DispatchTable {
  import opened JavaTypes
  import opened InvokerTypeMapper

  /** An atomic test in a resolver chain, over the declared type and the outside facts. */
  datatype Atom =
    | AssignableTo(target: Known)          // target.class.isAssignableFrom(t)
    | ExactClass(classes: set<Known>)      // t == C.class for some C in classes
    | Delegate                             // isDelegate(t)
    | ClosureManagerPresent                // closureManager != null
    | EnumSetFromNativeFound               // EnumSetConverter.getFromNativeConverter(...) != null

  /** A rule's condition: one atom, or two joined by `&&`. */
  datatype Test = When(atom: Atom) | Both(left: Atom, right: Atom)

  /** How a rule builds its converter once its test holds. */
  datatype Make =
    | Always(converter: Converter)
    | StructByReference                      // ASM_ENABLED ? ASM-generated : reflective

  datatype Rule = Rule(test: Test, make: Make)

  predicate AtomHolds(atom: Atom, m: Mapper, t: JType, f: Facts) {
    match atom
    case AssignableTo(target) => IsAssignableFrom(target, t)
    case ExactClass(classes) => t.Named? && t.known in classes
    case Delegate => f.isDelegate
    case ClosureManagerPresent => m.hasClosureManager
    case EnumSetFromNativeFound => f.enumSetFromNative
  }

  predicate Holds(test: Test, m: Mapper, t: JType, f: Facts) {
    match test
    case When(atom) => AtomHolds(atom, m, t, f)
    case Both(left, right) => AtomHolds(left, m, t, f) && AtomHolds(right, m, t, f)
  }

  /** A factory always hands out a converter; the struct factory's choice
      follows ASM_ENABLED and nothing else. */
  function Apply(make: Make, f: Facts): (r: Resolution)
    ensures r.Use?
    ensures make.StructByReference? ==>
      (r.converter == AsmStructByReferenceFromNative <==> f.asmEnabled)
  {
    match make
    case Always(c) => Use(c)
    case StructByReference =>
      Use(if f.asmEnabled then AsmStructByReferenceFromNative else StructByReferenceFromNative)
  }

  /** The index of the first rule at or after `from` whose test holds, or
      |rules| when none does. */
  function FirstHoldingFrom(rules: seq<Rule>, from: nat, m: Mapper, t: JType, f: Facts): (k: nat)
    requires from <= |rules|
    ensures from <= k <= |rules|
    ensures k < |rules| ==> Holds(rules[k].test, m, t, f)
    ensures forall j :: from <= j < k ==> !Holds(rules[j].test, m, t, f)
    decreases |rules| - from
  {
    if from == |rules| then from
    else if Holds(rules[from].test, m, t, f) then from
    else FirstHoldingFrom(rules, from + 1, m, t, f)
  }

  /** The one branch an input reaches: the index of the first rule that
      holds, or |rules| for the final "no conversion". */
  function Branch(rules: seq<Rule>, m: Mapper, t: JType, f: Facts): (k: nat)
    ensures k <= |rules|
    ensures k < |rules| ==> Holds(rules[k].test, m, t, f)
    ensures forall j :: 0 <= j < k ==> !Holds(rules[j].test, m, t, f)
  {
    FirstHoldingFrom(rules, 0, m, t, f)
  }

  /** The rules from `from` on, tried in order; nothing matching means
      "no conversion". */
  function FirstMatchFrom(rules: seq<Rule>, from: nat, m: Mapper, t: JType, f: Facts): Resolution
    decreases |rules| - from
  {
    if from >= |rules| then NoConversion
    else if Holds(rules[from].test, m, t, f) then Apply(rules[from].make, f)
    else FirstMatchFrom(rules, from + 1, m, t, f)
  }

  /** First match wins over the whole table. */
  function FirstMatch(rules: seq<Rule>, m: Mapper, t: JType, f: Facts): Resolution {
    FirstMatchFrom(rules, 0, m, t, f)
  }

  lemma {:induction false} FirstMatchFromIsFirstHolding(rules: seq<Rule>, from: nat, m: Mapper, t: JType, f: Facts)
    requires from <= |rules|
    ensures var k := FirstHoldingFrom(rules, from, m, t, f);
      FirstMatchFrom(rules, from, m, t, f) == if k < |rules| then Apply(rules[k].make, f) else NoConversion
    ensures FirstMatchFrom(rules, from, m, t, f).NoConversion? <==>
      forall j :: from <= j < |rules| ==> !Holds(rules[j].test, m, t, f)
    decreases |rules| - from
  {
    if from < |rules| && !Holds(rules[from].test, m, t, f) {
      FirstMatchFromIsFirstHolding(rules, from + 1, m, t, f);
    }
  }

  /** The branch reached decides the outcome, and reaching the final
      "no conversion" is the same as no rule holding. */
  lemma FirstMatchIsBranch(rules: seq<Rule>, m: Mapper, t: JType, f: Facts)
    ensures var k := Branch(rules, m, t, f);
      FirstMatch(rules, m, t, f) == if k < |rules| then Apply(rules[k].make, f) else NoConversion
    ensures FirstMatch(rules, m, t, f).NoConversion? <==>
      forall j :: 0 <= j < |rules| ==> !Holds(rules[j].test, m, t, f)
  {
    FirstMatchFromIsFirstHolding(rules, 0, m, t, f);
  }

  /** Rules after the deciding one are never consulted: a rule that holds,
      with none before it holding, decides whatever later rules would say. */
  lemma EarlierRuleWins(rules: seq<Rule>, i: nat, m: Mapper, t: JType, f: Facts)
    requires i < |rules| && Holds(rules[i].test, m, t, f)
    requires forall j :: 0 <= j < i ==> !Holds(rules[j].test, m, t, f)
    ensures FirstMatch(rules, m, t, f) == Apply(rules[i].make, f)
  {
    FirstMatchIsBranch(rules, m, t, f);
  }

  /** getFromNativeConverter's chain as a table (six rules, then null). */
  function FromNativeRules(): (rules: seq<Rule>)
    ensures |rules| == 6
  {
    [ Rule(When(AssignableTo(EnumClass)), Always(EnumConverter)),
      Rule(When(AssignableTo(StructClass)), StructByReference),
      Rule(Both(ClosureManagerPresent, Delegate), Always(ClosureFromNative)),
      Rule(When(ExactClass({NativeLongClass})), Always(NativeLongConverter)),
      Rule(When(ExactClass({StringClass, CharSequenceInterface})), Always(StringResult)),
      Rule(Both(ExactClass({SetInterface, EnumSetClass}), EnumSetFromNativeFound), Always(EnumSetConverter)) ]
  }

  /** The from-native chain is its table, on every input. */
  lemma FromNativeFollowsTable(m: Mapper, t: JType, f: Facts)
    ensures GetFromNativeConverter(m, t, f) == FirstMatch(FromNativeRules(), m, t, f)
  {
  }
}
