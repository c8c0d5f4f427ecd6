/**
 * The JavaScript values that flow through a task list: option values handed
 * to tasks, output values handed to mappers, and the fields of the
 * execution context that mappers write and option functions read.
 */
module Values {
  /** A JavaScript value as far as the engine sees one (numbers as integers). */
  datatype Value =
    | Undefined
    | Null
    | Bool(b: bool)
    | Num(n: int)
    | Str(s: string)
    | Obj(fields: map<string, Value>)

  /** The execution context: the per-run object that mappers write to. */
  type Context = map<string, Value>

  /** Reading a property of the context; a missing property reads as `undefined`. */
  function Lookup(ctx: Context, key: string): (v: Value)
  {
    if key in ctx then ctx[key] else Undefined
  }
}
