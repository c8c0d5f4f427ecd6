/**
 * The task list: a named, append-only sequence of invocations with its
 * configuration, list concatenation, and the runner loop for one session.
 */
module TaskLists {
  import opened Wrappers
  import opened Values
  import opened Options
  import opened Tasks
  import opened Runner

  /** The list's flags; `pretty` only affects reporting. */
  datatype Config = Config(pretty: bool, ignoreErrors: bool)

  /** The invocations of the given lists, list after list, each in its own order. */
  function Flatten(lists: seq<TaskList>): (r: seq<Invocation>)
    reads lists
    ensures |lists| == 1 ==> r == lists[0].invocations
    decreases |lists|
  {
    if lists == [] then []
    else Flatten(lists[..|lists| - 1]) + lists[|lists| - 1].invocations
  }

  /** Flattening distributes over joining the argument lists. */
  lemma {:induction false} FlattenAppend(xs: seq<TaskList>, ys: seq<TaskList>)
    ensures Flatten(xs + ys) == Flatten(xs) + Flatten(ys)
    decreases |ys|
  {
    if ys == [] {
      assert xs + ys == xs;
    } else {
      var zs := xs + ys;
      assert zs[..|zs| - 1] == xs + ys[..|ys| - 1];
      assert zs[|zs| - 1] == ys[|ys| - 1];
      FlattenAppend(xs, ys[..|ys| - 1]);
    }
  }

  class TaskList {
    var name: string
    var config: Config
    var invocations: seq<Invocation>

    constructor (name: string, config: Config)
      ensures this.name == name && this.config == config && invocations == []
    {
      this.name := name;
      this.config := config;
      invocations := [];
    }

    /** Appends one invocation of task type `typeName`; the type is looked up only when the list runs. */
    method Append(typeName: string, displayName: string, template: Template, mapper: Option<Mapper>)
      modifies this
      ensures invocations == old(invocations) + [Invocation(typeName, displayName, template, mapper)]
      ensures name == old(name) && config == old(config)
    {
      invocations := invocations + [Invocation(typeName, displayName, template, mapper)];
    }

    /**
     * A new list named after this one with "+" appended, keeping this list's
     * configuration, holding this list's invocations followed by those of
     * each argument list in argument order. No input list changes.
     */
    method Concat(others: seq<TaskList>) returns (combined: TaskList)
      ensures fresh(combined)
      ensures combined.name == name + "+" && combined.config == config
      ensures combined.invocations == invocations + Flatten(others)
    {
      var all := invocations;
      var i := 0;
      while i < |others|
        invariant 0 <= i <= |others|
        invariant all == invocations + Flatten(others[..i])
      {
        assert others[..i + 1][..i] == others[..i];
        all := all + others[i].invocations;
        i := i + 1;
      }
      assert others[..i] == others;
      combined := new TaskList(name + "+", config);
      combined.invocations := all;
    }

    /**
     * Runs the list against one session: the invocations in declaration
     * order, each with its options resolved against the context as the
     * earlier mappers left it, stopping at the first failure unless errors
     * are ignored. Returns the summary map, keyed by the session's host, and
     * what each dispatched task was handed.
     */
    method Run(registry: Registry, session: Session) returns (summaries: map<string, Summary>, received: seq<Dispatch>)
      ensures var p := Execute(Env(registry.tasks, session, config.ignoreErrors), invocations, Start);
        && summaries == map[session.host := Summary(p.error, p.history)]
        && received == p.received
    {
      var env := Env(registry.tasks, session, config.ignoreErrors);
      var context: Context := map[];
      var history: seq<HistoryEntry> := [];
      var error: Option<RunError> := None;
      received := [];
      var i := 0;
      while i < |invocations| && error.None?
        invariant 0 <= i <= |invocations|
        invariant Pipeline(context, history, received, error) == Execute(env, invocations[..i], Start)
      {
        var inv := invocations[i];
        assert invocations[..i + 1][..i] == invocations[..i];
        if inv.typeName !in registry.tasks {
          error := Some(UnknownTaskType(inv.typeName));
        } else {
          var options := Resolve(inv.template, context);
          var result := registry.tasks[inv.typeName](session, options);
          received := received + [Dispatch(session, options)];
          context := MapOutputs(inv.mapper, context, result.outputs);
          match result.outcome {
            case Done =>
              history := history + [HistoryEntry(inv.displayName, Success)];
            case Error(msg) =>
              history := history + [HistoryEntry(inv.displayName, Failed(msg))];
              if !config.ignoreErrors {
                error := Some(TaskFailure(msg));
              }
          }
        }
        i := i + 1;
      }
      if i < |invocations| {
        assert invocations == invocations[..i] + invocations[i..];
        ExecuteAppend(env, invocations[..i], invocations[i..], Start);
      } else {
        assert invocations[..i] == invocations;
      }
      summaries := map[session.host := Summary(error, history)];
    }
  }

  /**
   * Running `a.concat(others)` resolves and dispatches a's invocations first,
   * then the argument lists' invocations in argument order: each argument
   * list runs after all lists before it, from the pipeline state they left.
   */
  lemma ConcatRunsInOrder(env: Env, a: seq<Invocation>, others: seq<TaskList>, last: TaskList)
    ensures Execute(env, a + Flatten(others + [last]), Start)
         == Execute(env, last.invocations, Execute(env, a + Flatten(others), Start))
  {
    FlattenAppend(others, [last]);
    assert a + Flatten(others + [last]) == (a + Flatten(others)) + last.invocations;
    ExecuteAppend(env, a + Flatten(others), last.invocations, Start);
  }
}
