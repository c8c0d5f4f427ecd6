/**
 * The sequential pipeline that runs one task list against one session,
 * written as a fold over the invocations, and what it guarantees.
 */
module Runner {
  import opened Wrappers
  import opened Values
  import opened Options
  import opened Tasks

  datatype Status = Success | Failed(message: string)

  /** One history entry: the invocation's display name and how it ended. */
  datatype HistoryEntry = HistoryEntry(task: string, status: Status)

  /**
   * Why a session's pipeline stopped: a task failed (fail-fast), or an
   * invocation names a task type that is not registered.
   */
  datatype RunError = TaskFailure(message: string) | UnknownTaskType(typeName: string)

  /** The per-session result delivered to the caller. */
  datatype Summary = Summary(error: Option<RunError>, history: seq<HistoryEntry>)

  /** What a task was handed when it was dispatched. */
  datatype Dispatch = Dispatch(session: Session, options: Options)

  /** The fixed inputs of one session's pipeline. */
  datatype Env = Env(registry: map<string, Task>, session: Session, ignoreErrors: bool)

  /**
   * The state of a pipeline: the execution context, the history so far,
   * every dispatch made so far, and the terminal error (present exactly when
   * the pipeline has stopped).
   */
  datatype Pipeline = Pipeline(
    context: Context,
    history: seq<HistoryEntry>,
    received: seq<Dispatch>,
    error: Option<RunError>)

  /** A fresh pipeline: empty context, empty history, no error. */
  const Start := Pipeline(map[], [], [], None)

  function StatusOf(o: Outcome): (s: Status)
  {
    match o
    case Done => Success
    case Error(msg) => Failed(msg)
  }

  predicate Registered(registry: map<string, Task>, invs: seq<Invocation>)
  {
    forall i | 0 <= i < |invs| :: invs[i].typeName in registry
  }

  /**
   * One invocation: resolve its options against the current context,
   * dispatch, apply the mapper to the task's outputs, record the outcome and
   * apply the error policy. A stopped pipeline stays as it is; a running one
   * records exactly one entry and one dispatch for a registered type, and
   * stops with `UnknownTaskType` for any other.
   */
  function Step(env: Env, p: Pipeline, inv: Invocation): (r: Pipeline)
    ensures p.error.Some? ==> r == p
    ensures p.error.None? && inv.typeName !in env.registry ==>
      r == p.(error := Some(UnknownTaskType(inv.typeName)))
    ensures p.error.None? && inv.typeName in env.registry ==>
      |r.history| == |p.history| + 1 && |r.received| == |p.received| + 1
  {
    if p.error.Some? then p
    else if inv.typeName !in env.registry then p.(error := Some(UnknownTaskType(inv.typeName)))
    else
      var options := Resolve(inv.template, p.context);
      var result := env.registry[inv.typeName](env.session, options);
      var error :=
        if result.outcome.Error? && !env.ignoreErrors
        then Some(TaskFailure(result.outcome.message)) else None;
      Pipeline(
        MapOutputs(inv.mapper, p.context, result.outputs),
        p.history + [HistoryEntry(inv.displayName, StatusOf(result.outcome))],
        p.received + [Dispatch(env.session, options)],
        error)
  }

  /**
   * Runs the invocations in declaration order, starting from `p`. A
   * pipeline that already holds a terminal error runs nothing more.
   */
  function Execute(env: Env, invs: seq<Invocation>, p: Pipeline): (r: Pipeline)
    ensures p.error.Some? ==> r == p
    decreases |invs|
  {
    if invs == [] then p
    else Step(env, Execute(env, invs[..|invs| - 1], p), invs[|invs| - 1])
  }

  /** The context in which the options of invocation `i` are resolved. */
  function ContextBefore(env: Env, invs: seq<Invocation>, i: nat): (ctx: Context)
    requires i <= |invs|
  {
    Execute(env, invs[..i], Start).context
  }

  /** The options invocation `i` is dispatched with. */
  function ResolvedAt(env: Env, invs: seq<Invocation>, i: nat): (o: Options)
    requires i < |invs|
  {
    Resolve(invs[i].template, ContextBefore(env, invs, i))
  }

  /** What the task of invocation `i` reports when dispatched. */
  function ResultAt(env: Env, invs: seq<Invocation>, i: nat): (result: TaskResult)
    requires i < |invs| && invs[i].typeName in env.registry
  {
    env.registry[invs[i].typeName](env.session, ResolvedAt(env, invs, i))
  }

  /** Running one more invocation is one more step. */
  lemma ExecuteSnoc(env: Env, invs: seq<Invocation>, inv: Invocation, p: Pipeline)
    ensures Execute(env, invs + [inv], p) == Step(env, Execute(env, invs, p), inv)
  {
  }

  /** Running `a + b` is running `a`, then `b` from where `a` left off. */
  lemma {:induction false} ExecuteAppend(env: Env, a: seq<Invocation>, b: seq<Invocation>, p: Pipeline)
    ensures Execute(env, a + b, p) == Execute(env, b, Execute(env, a, p))
    decreases |b|
  {
    if b == [] {
      assert a + b == a;
    } else {
      var ab := a + b;
      assert ab[..|ab| - 1] == a + b[..|b| - 1];
      assert ab[|ab| - 1] == b[|b| - 1];
      ExecuteAppend(env, a, b[..|b| - 1], p);
    }
  }

  /**
   * Running only extends the history and the dispatches, one entry of each
   * per invocation attempted; with every type registered, a pipeline that
   * ends without an error attempted every invocation.
   */
  lemma {:induction false} ExecuteExtends(env: Env, invs: seq<Invocation>, p: Pipeline)
    ensures var q := Execute(env, invs, p);
      && p.history <= q.history
      && p.received <= q.received
      && |q.history| - |p.history| == |q.received| - |p.received| <= |invs|
      && (Registered(env.registry, invs) && q.error.None? ==> |q.history| == |p.history| + |invs|)
    decreases |invs|
  {
    if invs != [] {
      ExecuteExtends(env, invs[..|invs| - 1], p);
    }
  }

  /**
   * A prefix of the invocations yields a prefix of the history and of the
   * dispatches; if that prefix already stopped the pipeline, so does the
   * whole list, with the same result.
   */
  lemma PrefixRun(env: Env, invs: seq<Invocation>, k: nat)
    requires k <= |invs|
    ensures var q := Execute(env, invs[..k], Start);
      var r := Execute(env, invs, Start);
      && q.history <= r.history
      && q.received <= r.received
      && (q.error.Some? ==> r == q)
  {
    assert invs == invs[..k] + invs[k..];
    ExecuteAppend(env, invs[..k], invs[k..], Start);
    var q := Execute(env, invs[..k], Start);
    ExecuteExtends(env, invs[k..], q);
  }

  /**
   * If the history reaches past index i, the pipeline was still running
   * after invocations 0..i-1 and had recorded exactly one entry for each.
   */
  lemma RunningBefore(env: Env, invs: seq<Invocation>, i: nat)
    requires Registered(env.registry, invs)
    requires i < |Execute(env, invs, Start).history|
    ensures i < |invs|
    ensures var q := Execute(env, invs[..i], Start);
      q.error.None? && |q.history| == |q.received| == i
  {
    ExecuteExtends(env, invs, Start);
    var q := Execute(env, invs[..i], Start);
    PrefixRun(env, invs, i);
    assert Registered(env.registry, invs[..i]);
    ExecuteExtends(env, invs[..i], Start);
    if q.error.Some? {
      assert false;
    }
  }

  /**
   * Invocation `i` of a pipeline still running after invocations 0..i-1:
   * it appends its task's outcome to the history and its dispatch to the
   * dispatches, passes the task's outputs to its mapper, and stops the
   * pipeline with the task's message exactly when it failed under fail-fast.
   */
  lemma StepAt(env: Env, invs: seq<Invocation>, i: nat)
    requires Registered(env.registry, invs)
    requires i < |invs|
    requires Execute(env, invs[..i], Start).error.None?
    ensures var q := Execute(env, invs[..i], Start);
      var q1 := Execute(env, invs[..i + 1], Start);
      var result := ResultAt(env, invs, i);
      && q1.context == MapOutputs(invs[i].mapper, q.context, result.outputs)
      && q1.history == q.history + [HistoryEntry(invs[i].displayName, StatusOf(result.outcome))]
      && q1.received == q.received + [Dispatch(env.session, ResolvedAt(env, invs, i))]
      && q1.error == if result.outcome.Error? && !env.ignoreErrors
         then Some(TaskFailure(result.outcome.message)) else None
  {
    assert invs[..i + 1] == invs[..i] + [invs[i]];
    ExecuteSnoc(env, invs[..i], invs[i], Start);
  }

  /**
   * Entry `i` of the history and of the dispatches belongs to invocation `i`:
   * the task is handed the session unchanged and the template resolved
   * against the context left by invocations 0..i-1; the entry carries the
   * display name and that task's own outcome; afterwards the context is the
   * one the invocation's mapper made of the task's outputs.
   */
  lemma EntryAt(env: Env, invs: seq<Invocation>, i: nat)
    requires Registered(env.registry, invs)
    requires i < |Execute(env, invs, Start).history|
    ensures i < |invs|
    ensures var r := Execute(env, invs, Start);
      && i < |r.received|
      && r.received[i] == Dispatch(env.session, ResolvedAt(env, invs, i))
      && r.history[i] == HistoryEntry(invs[i].displayName, StatusOf(ResultAt(env, invs, i).outcome))
      && ContextBefore(env, invs, i + 1)
         == MapOutputs(invs[i].mapper, ContextBefore(env, invs, i), ResultAt(env, invs, i).outputs)
  {
    RunningBefore(env, invs, i);
    StepAt(env, invs, i);
    PrefixRun(env, invs, i + 1);
  }

  /**
   * While every task so far reports success, the pipeline keeps running:
   * after invocations 0..m-1 there is no terminal error and one entry and
   * one dispatch per invocation.
   */
  lemma {:induction false} RunsThrough(env: Env, invs: seq<Invocation>, m: nat)
    requires Registered(env.registry, invs)
    requires m <= |invs|
    requires forall j | 0 <= j < m :: ResultAt(env, invs, j).outcome.Done?
    ensures var q := Execute(env, invs[..m], Start);
      q.error.None? && |q.history| == |q.received| == m
    decreases m
  {
    if m > 0 {
      RunsThrough(env, invs, m - 1);
      StepAt(env, invs, m - 1);
    }
  }

  /**
   * When every dispatched task succeeds, the history has one SUCCESS entry
   * per invocation, in declaration order, and there is no terminal error.
   */
  lemma AllSucceed(env: Env, invs: seq<Invocation>)
    requires Registered(env.registry, invs)
    requires forall i | 0 <= i < |invs| :: ResultAt(env, invs, i).outcome.Done?
    ensures var r := Execute(env, invs, Start);
      && r.error.None?
      && |r.history| == |r.received| == |invs|
      && forall i | 0 <= i < |invs| :: r.history[i] == HistoryEntry(invs[i].displayName, Success)
  {
    RunsThrough(env, invs, |invs|);
    assert invs[..|invs|] == invs;
    var r := Execute(env, invs, Start);
    forall i | 0 <= i < |invs| ensures r.history[i] == HistoryEntry(invs[i].displayName, Success) {
      EntryAt(env, invs, i);
    }
  }

  /**
   * Fail-fast at the first failing invocation k: its FAILED entry with the
   * task's message is the last of k + 1 entries, invocation k is the last
   * one dispatched, and its message becomes the terminal error.
   */
  lemma FirstFailure(env: Env, invs: seq<Invocation>, k: nat)
    requires !env.ignoreErrors
    requires Registered(env.registry, invs)
    requires k < |invs|
    requires forall j | 0 <= j < k :: ResultAt(env, invs, j).outcome.Done?
    requires ResultAt(env, invs, k).outcome.Error?
    ensures var r := Execute(env, invs, Start);
      var msg := ResultAt(env, invs, k).outcome.message;
      && |r.history| == |r.received| == k + 1
      && r.history[k] == HistoryEntry(invs[k].displayName, Failed(msg))
      && r.received[k] == Dispatch(env.session, ResolvedAt(env, invs, k))
      && r.error == Some(TaskFailure(msg))
  {
    RunsThrough(env, invs, k);
    StepAt(env, invs, k);
    PrefixRun(env, invs, k + 1);
  }

  /**
   * With ignoreErrors, every invocation is attempted, each entry reflects
   * only its own task's outcome, and the terminal error stays absent.
   */
  lemma {:induction false} IgnoreErrors(env: Env, invs: seq<Invocation>)
    requires env.ignoreErrors
    requires Registered(env.registry, invs)
    ensures var r := Execute(env, invs, Start);
      && r.error.None?
      && |r.history| == |r.received| == |invs|
      && forall i | 0 <= i < |invs| ::
           r.history[i] == HistoryEntry(invs[i].displayName, StatusOf(ResultAt(env, invs, i).outcome))
    decreases |invs|
  {
    if invs != [] {
      assert Registered(env.registry, invs[..|invs| - 1]);
      IgnoreErrors(env, invs[..|invs| - 1]);
    }
    var r := Execute(env, invs, Start);
    forall i | 0 <= i < |invs|
      ensures r.history[i] == HistoryEntry(invs[i].displayName, StatusOf(ResultAt(env, invs, i).outcome))
    {
      EntryAt(env, invs, i);
    }
  }

  /**
   * Fail-fast: only the last entry of the history can be FAILED; if entry k
   * is FAILED the history has exactly k + 1 entries, nothing after
   * invocation k was dispatched, and the terminal error carries that
   * entry's message. Without a failed entry, every invocation was attempted
   * and there is no terminal error.
   */
  lemma {:induction false} FailFast(env: Env, invs: seq<Invocation>)
    requires !env.ignoreErrors
    requires Registered(env.registry, invs)
    ensures var r := Execute(env, invs, Start);
      && |r.received| == |r.history|
      && (forall k | 0 <= k < |r.history| && r.history[k].status.Failed? ::
            && |r.history| == k + 1
            && r.error == Some(TaskFailure(r.history[k].status.message)))
      && (r.error.None? <==>
            |r.history| == |invs| && forall k | 0 <= k < |r.history| :: r.history[k].status == Success)
    decreases |invs|
  {
    ExecuteExtends(env, invs, Start);
    if invs != [] {
      var init := invs[..|invs| - 1];
      assert Registered(env.registry, init);
      FailFast(env, init);
      ExecuteExtends(env, init, Start);
      var q := Execute(env, init, Start);
      if q.error.Some? {
        assert Execute(env, invs, Start) == q;
        assert |q.history| < |invs|;
      } else {
        assert |q.history| == |init|;
        var last := invs[|invs| - 1];
        var result := env.registry[last.typeName](env.session, Resolve(last.template, q.context));
        var r := Execute(env, invs, Start);
        assert r.history == q.history + [HistoryEntry(last.displayName, StatusOf(result.outcome))];
        assert r.error.None? <==> result.outcome.Done?;
        if result.outcome.Done? {
          forall k | 0 <= k < |r.history| ensures r.history[k].status == Success {
            if k < |q.history| {
              assert r.history[k] == q.history[k];
            }
          }
        } else {
          assert r.history[|r.history| - 1].status != Success;
        }
      }
    }
  }

  /**
   * A value the mapper of invocation i writes into the context is what the
   * function-valued options of a later invocation j evaluate against, as
   * long as the invocations in between have no mapper; literal options of
   * j arrive unchanged.
   */
  lemma {:induction false} ContextThreading(env: Env, invs: seq<Invocation>, i: nat, j: nat)
    requires Registered(env.registry, invs)
    requires i < j < |Execute(env, invs, Start).history|
    requires forall m | i < m < j && m < |invs| :: invs[m].mapper.None?
    ensures j < |invs| && j < |Execute(env, invs, Start).received|
    ensures var after := MapOutputs(invs[i].mapper, ContextBefore(env, invs, i), ResultAt(env, invs, i).outputs);
      var opts := Execute(env, invs, Start).received[j].options;
      && ContextBefore(env, invs, j) == after
      && opts.Keys == invs[j].template.Keys
      && (forall k | k in invs[j].template && invs[j].template[k].Lazy? ::
            opts[k] == invs[j].template[k].eval(after))
      && (forall k | k in invs[j].template && invs[j].template[k].Literal? ::
            opts[k] == invs[j].template[k].value)
    decreases j
  {
    EntryAt(env, invs, j);
    if j == i + 1 {
      EntryAt(env, invs, i);
    } else {
      ContextThreading(env, invs, i, j - 1);
      EntryAt(env, invs, j - 1);
    }
  }

  /**
   * Tasks are dispatched in declaration order: dispatch i goes to invocation
   * i, hands over the session unchanged and options with exactly the
   * template's keys, whose literal entries arrive unchanged; history entry i
   * carries invocation i's display name.
   */
  lemma DispatchInOrder(env: Env, invs: seq<Invocation>)
    requires Registered(env.registry, invs)
    ensures var r := Execute(env, invs, Start);
      && |r.received| == |r.history| <= |invs|
      && forall i | 0 <= i < |r.received| ::
           && r.history[i].task == invs[i].displayName
           && r.received[i].session == env.session
           && r.received[i].options.Keys == invs[i].template.Keys
           && forall k | k in invs[i].template && invs[i].template[k].Literal? ::
                r.received[i].options[k] == invs[i].template[k].value
  {
    ExecuteExtends(env, invs, Start);
    var r := Execute(env, invs, Start);
    forall i | 0 <= i < |r.received|
      ensures r.history[i].task == invs[i].displayName
      ensures r.received[i].session == env.session
      ensures r.received[i].options.Keys == invs[i].template.Keys
      ensures forall k | k in invs[i].template && invs[i].template[k].Literal? ::
                r.received[i].options[k] == invs[i].template[k].value
    {
      EntryAt(env, invs, i);
    }
  }

  /**
   * A list whose templates hold only literals hands every dispatched task
   * exactly its template's values, whatever the mappers did to the context.
   */
  lemma LiteralOptionsArrive(env: Env, invs: seq<Invocation>)
    requires Registered(env.registry, invs)
    requires forall i | 0 <= i < |invs| :: AllLiteral(invs[i].template)
    ensures var r := Execute(env, invs, Start);
      forall i | 0 <= i < |r.received| ::
        i < |invs| && r.received[i] == Dispatch(env.session, Literals(invs[i].template))
  {
    ExecuteExtends(env, invs, Start);
    var r := Execute(env, invs, Start);
    forall i | 0 <= i < |r.received|
      ensures i < |invs| && r.received[i] == Dispatch(env.session, Literals(invs[i].template))
    {
      EntryAt(env, invs, i);
      ResolveLiterals(invs[i].template, ContextBefore(env, invs, i));
    }
  }

  /**
   * A task that never calls the output-mapper invoker, or an invocation
   * without a mapper, leaves the context as it found it; the entry still
   * records that task's own outcome.
   */
  lemma SilentTaskKeepsContext(env: Env, invs: seq<Invocation>, i: nat)
    requires Registered(env.registry, invs)
    requires i < |invs| && i < |Execute(env, invs, Start).history|
    requires invs[i].mapper.None? || ResultAt(env, invs, i).outputs == []
    ensures ContextBefore(env, invs, i + 1) == ContextBefore(env, invs, i)
    ensures ResultAt(env, invs, i).outcome.Done? ==> Execute(env, invs, Start).history[i].status == Success
  {
    EntryAt(env, invs, i);
  }
}
