/** The option schema every generator publishes (its `getOptions`): an
    ordered list of typed option descriptors, optionally grouped into named
    tabs. Each descriptor carries only what its kind needs: a string has a
    default, an integer a default and optional bounds, a boolean a default,
    and a string list its permitted values and a default given either as an
    index into that list or as one of the values.

    Tooltips and the `hide` flag only steer the host's user interface and are
    not modelled.
 */
module Schema {
  import opened Results

  /** A concrete option value as the host sends it. */
  datatype Value = StringValue(s: string) | IntegerValue(n: int) | BooleanValue(b: bool)

  /** How a string list names its default. */
  datatype Choice = Index(index: int) | Literal(literal: string)

  datatype Descriptor =
    | StringOption(name: string, defaultText: string)
    | IntegerOption(name: string, defaultNumber: int, minimum: Option<int>, maximum: Option<int>)
    | BooleanOption(name: string, defaultFlag: bool)
    | StringListOption(name: string, values: seq<string>, defaultChoice: Choice)

  /** A named group of options (ORCA's "Basic" and "Dynamics" tabs); the
      other generators publish one group without a name. */
  datatype Tab = Tab(tabName: Option<string>, options: seq<Descriptor>)

  /** `inputMoleculeFormat` is set by the one generator that wants the
      molecule itself (PySCF asks for "cjson"). */
  datatype OptionSchema = OptionSchema(tabs: seq<Tab>, inputMoleculeFormat: Option<string>)

  predicate WithinBounds(n: int, minimum: Option<int>, maximum: Option<int>) {
    && (minimum.Some? ==> minimum.value <= n)
    && (maximum.Some? ==> n <= maximum.value)
  }

  /** `v` has the descriptor's kind and meets its constraint. */
  predicate Admits(d: Descriptor, v: Value) {
    match d
    case StringOption(_, _) => v.StringValue?
    case IntegerOption(_, _, lo, hi) => v.IntegerValue? && WithinBounds(v.n, lo, hi)
    case BooleanOption(_, _) => v.BooleanValue?
    case StringListOption(_, values, _) => v.StringValue? && v.s in values
  }

  /** The descriptor's default satisfies its own constraint. */
  predicate DefaultValid(d: Descriptor) {
    match d
    case StringOption(_, _) => true
    case IntegerOption(_, n, lo, hi) => WithinBounds(n, lo, hi)
    case BooleanOption(_, _) => true
    case StringListOption(_, values, choice) =>
      match choice
      case Index(i) => 0 <= i < |values|
      case Literal(x) => x in values
  }

  /** The value the host uses when the user changes nothing. */
  function DefaultValue(d: Descriptor): (v: Value)
    requires DefaultValid(d)
    ensures Admits(d, v)
  {
    match d
    case StringOption(_, x) => StringValue(x)
    case IntegerOption(_, n, _, _) => IntegerValue(n)
    case BooleanOption(_, b) => BooleanValue(b)
    case StringListOption(_, values, choice) =>
      match choice
      case Index(i) => StringValue(values[i])
      case Literal(x) => StringValue(x)
  }

  /** The default of a string list, as the string the compiler receives. */
  function DefaultString(d: Descriptor): (s: string)
    requires d.StringListOption? && DefaultValid(d)
    ensures s in d.values
    ensures d.defaultChoice.Index? ==> s == d.values[d.defaultChoice.index]
  {
    DefaultValue(d).s
  }

  /** A schema whose every default is admissible. */
  predicate WellFormed(schema: OptionSchema) {
    forall t, d :: t in schema.tabs && d in t.options ==> DefaultValid(d)
  }
}
