/**
 * Option templates and their resolution against the execution context.
 */
module Options {
  import opened Values

  /** A template entry: a literal value, or a function evaluated lazily against the context. */
  datatype OptionValue = Literal(value: Value) | Lazy(eval: Context -> Value)

  type Template = map<string, OptionValue>

  /** The options object a task receives. */
  type Options = map<string, Value>

  /**
   * Copies the template, replacing each function-valued entry with its value
   * in the given context; every other entry passes through unchanged.
   */
  function Resolve(t: Template, ctx: Context): (r: Options)
    ensures r.Keys == t.Keys
    ensures forall k | k in t && t[k].Literal? :: r[k] == t[k].value
    ensures forall k | k in t && t[k].Lazy? :: r[k] == t[k].eval(ctx)
  {
    map k | k in t :: if t[k].Literal? then t[k].value else t[k].eval(ctx)
  }

  /** Every entry of the template is a literal. */
  predicate AllLiteral(t: Template)
  {
    forall k | k in t :: t[k].Literal?
  }

  /** The options a template of literals stands for. */
  function Literals(t: Template): (r: Options)
    requires AllLiteral(t)
    ensures r.Keys == t.Keys
  {
    map k | k in t :: t[k].value
  }

  /** A template made only of literals resolves to its literals, whatever the context. */
  lemma ResolveLiterals(t: Template, ctx: Context)
    requires AllLiteral(t)
    ensures Resolve(t, ctx) == Literals(t)
  {
  }
}
