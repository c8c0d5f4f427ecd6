/**
 * Registered task types, bound invocations and the outcome a task reports.
 */
module Tasks {
  import opened Wrappers
  import opened Values
  import opened Options

  /** A session is an opaque execution target identified by its host. */
  datatype Session = Session(host: string)

  /** How a task signals completion: with no error, or with an error message. */
  datatype Outcome = Done | Error(message: string)

  /**
   * What one dispatch of a task produces: its completion, and the argument
   * lists of every call it made to the output-mapper invoker, in call order.
   */
  datatype TaskResult = TaskResult(outcome: Outcome, outputs: seq<seq<Value>>)

  /** A task-type function, completed synchronously. */
  type Task = (Session, Options) -> TaskResult

  /** An output mapper: copies a task's outputs into the execution context. */
  type Mapper = (Context, seq<Value>) -> Context

  /** One entry of a task list. */
  datatype Invocation = Invocation(
    typeName: string,
    displayName: string,
    template: Template,
    mapper: Option<Mapper>)

  /**
   * Runs the invocation's mapper once per call of the output-mapper invoker,
   * in call order, each call seeing the context the previous one left. An
   * invocation without a mapper turns every call into a no-op.
   */
  function MapOutputs(mapper: Option<Mapper>, ctx: Context, calls: seq<seq<Value>>): (r: Context)
    ensures mapper.None? || calls == [] ==> r == ctx
    ensures mapper.Some? && |calls| == 1 ==> r == mapper.value(ctx, calls[0])
    decreases |calls|
  {
    if mapper.None? || calls == [] then ctx
    else MapOutputs(mapper, mapper.value(ctx, calls[0]), calls[1..])
  }

  /**
   * Mapping the outputs of calls `a` and then `b` is mapping `b` from the
   * context `a` left: with the single-call case, this fixes that each call
   * runs the mapper exactly once, in call order.
   */
  lemma {:induction false} MapOutputsAppend(mapper: Option<Mapper>, ctx: Context, a: seq<seq<Value>>, b: seq<seq<Value>>)
    ensures MapOutputs(mapper, ctx, a + b) == MapOutputs(mapper, MapOutputs(mapper, ctx, a), b)
    decreases |a|
  {
    if a == [] {
      assert a + b == b;
    } else if mapper.Some? {
      assert (a + b)[0] == a[0];
      assert (a + b)[1..] == a[1..] + b;
      MapOutputsAppend(mapper, mapper.value(ctx, a[0]), a[1..], b);
    }
  }

  /** The table of task types; registering a name again replaces the earlier task. */
  class Registry {
    var tasks: map<string, Task>

    constructor ()
      ensures tasks == map[]
    {
      tasks := map[];
    }

    method Register(typeName: string, task: Task)
      modifies this
      ensures tasks == old(tasks)[typeName := task]
      ensures typeName in tasks && tasks[typeName] == task
    {
      tasks := tasks[typeName := task];
    }
  }
}
