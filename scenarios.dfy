/**
 * The task-list scenarios of test/taskList.js, each built with the model's
 * own registry and task lists and run against a session with host "host".
 * Each scenario method builds its lists on the heap and runs them; a lemma
 * beside it works out the run of the resulting invocations.
 */
module Scenarios {
  import opened Wrappers
  import opened Values
  import opened Options
  import opened Tasks
  import opened Runner
  import opened TaskLists

  /** A task that always completes without error and reports no outputs. */
  function Succeed(s: Session, o: Options): (result: TaskResult)
  {
    TaskResult(Done, [])
  }

  /** An invocation with the single literal option `aa` and no mapper. */
  function Aa(typeName: string, displayName: string, n: int): (inv: Invocation)
  {
    Invocation(typeName, displayName, map["aa" := Literal(Num(n))], None)
  }

  /** What a task of such an invocation is handed in the session with host "host". */
  function Sent(n: int): (d: Dispatch)
  {
    Dispatch(Session("host"), map["aa" := Num(n)])
  }

  /**
   * One step over an invocation with the single literal option `aa` whose
   * task reports no outputs: the context is kept, the task's outcome is
   * recorded, and the error policy decides the terminal error.
   */
  lemma AaStep(env: Env, p: Pipeline, typeName: string, displayName: string, n: int)
    requires env.session == Session("host")
    requires p.error.None?
    requires typeName in env.registry
    requires env.registry[typeName](env.session, map["aa" := Num(n)]).outputs == []
    ensures var o := env.registry[typeName](env.session, map["aa" := Num(n)]).outcome;
      Step(env, p, Aa(typeName, displayName, n))
      == Pipeline(
           p.context,
           p.history + [HistoryEntry(displayName, StatusOf(o))],
           p.received + [Sent(n)],
           if o.Error? && !env.ignoreErrors then Some(TaskFailure(o.message)) else None)
  {
    assert Resolve(Aa(typeName, displayName, n).template, p.context) == map["aa" := Num(n)];
  }

  /** Running two invocations is two steps. */
  lemma ExecuteTwo(env: Env, a: Invocation, b: Invocation, p: Pipeline)
    ensures Execute(env, [a, b], p) == Step(env, Step(env, p, a), b)
  {
    ExecuteSnoc(env, [], a, p);
    ExecuteSnoc(env, [a], b, p);
    assert [a] == [] + [a];
    assert [a, b] == [a] + [b];
  }

  /** The two invocations of "simpleTask" that each list of the first and the concat scenario holds. */
  function Pair(first: int, second: int): (invs: seq<Invocation>)
  {
    [Aa("simpleTask", "Simple Name", first), Aa("simpleTask", "Simple Name2", second)]
  }

  method PairList(name: string, first: int, second: int) returns (list: TaskList)
    ensures fresh(list)
    ensures list.name == name && !list.config.ignoreErrors
    ensures list.invocations == Pair(first, second)
  {
    list := new TaskList(name, Config(false, false));
    list.Append("simpleTask", "Simple Name", map["aa" := Literal(Num(first))], None);
    list.Append("simpleTask", "Simple Name2", map["aa" := Literal(Num(second))], None);
  }

  /**
   * Running a pair of succeeding "simpleTask" invocations from a running
   * pipeline records two SUCCESS entries and hands the tasks their `aa`
   * values in order, leaving the context and the error as they were.
   */
  lemma PairRun(env: Env, first: int, second: int, p: Pipeline)
    requires env == Env(map["simpleTask" := Succeed], Session("host"), false)
    requires p.error.None?
    ensures Execute(env, Pair(first, second), p) == p.(
      history := p.history + [HistoryEntry("Simple Name", Success), HistoryEntry("Simple Name2", Success)],
      received := p.received + [Sent(first), Sent(second)])
  {
    var invs := Pair(first, second);
    ExecuteTwo(env, invs[0], invs[1], p);
    AaStep(env, p, "simpleTask", "Simple Name", first);
    AaStep(env, Step(env, p, invs[0]), "simpleTask", "Simple Name2", second);
  }

  /** Two invocations of a succeeding task: two SUCCESS entries, the literal options in order. */
  method RegisterAndRun() returns (summaries: map<string, Summary>, received: seq<Dispatch>)
    ensures summaries == map["host" := Summary(None, [
      HistoryEntry("Simple Name", Success),
      HistoryEntry("Simple Name2", Success)])]
    ensures received == [Sent(10), Sent(20)]
  {
    var session := Session("host");
    var registry := new Registry();
    registry.Register("simpleTask", Succeed);
    var list := PairList("simple", 10, 20);
    summaries, received := list.Run(registry, session);
    PairRun(Env(registry.tasks, session, false), 10, 20, Start);
    assert Start.history + [HistoryEntry("Simple Name", Success), HistoryEntry("Simple Name2", Success)]
        == [HistoryEntry("Simple Name", Success), HistoryEntry("Simple Name2", Success)];
    assert Start.received + [Sent(10), Sent(20)] == [Sent(10), Sent(20)];
  }

  /** Fails with "error-here" exactly when option `aa` is 20. */
  function FailOnTwenty(s: Session, o: Options): (result: TaskResult)
  {
    if "aa" in o && o["aa"] == Num(20) then TaskResult(Error("error-here"), [])
    else TaskResult(Done, [])
  }

  /** Running three invocations is three steps. */
  lemma ExecuteThree(env: Env, a: Invocation, b: Invocation, c: Invocation)
    ensures Execute(env, [a, b, c], Start) == Step(env, Step(env, Step(env, Start, a), b), c)
  {
    ExecuteTwo(env, a, b, Start);
    ExecuteSnoc(env, [a, b], c, Start);
    assert [a, b, c] == [a, b] + [c];
  }

  /** The three invocations of the error scenarios, of task type `typeName` ("simpleTask2" or "simpleTask3"): `aa` is 10, 20, 30. */
  function ErrorInvocations(typeName: string): (invs: seq<Invocation>)
  {
    [Aa(typeName, "one", 10), Aa(typeName, "two", 20), Aa(typeName, "three", 30)]
  }

  method ErrorList(registry: Registry, typeName: string, ignoreErrors: bool) returns (list: TaskList)
    modifies registry
    ensures fresh(list)
    ensures list.config.ignoreErrors == ignoreErrors
    ensures registry.tasks == old(registry.tasks)[typeName := FailOnTwenty]
    ensures list.invocations == ErrorInvocations(typeName)
  {
    registry.Register(typeName, FailOnTwenty);
    list := new TaskList("simple", Config(false, ignoreErrors));
    list.Append(typeName, "one", map["aa" := Literal(Num(10))], None);
    list.Append(typeName, "two", map["aa" := Literal(Num(20))], None);
    list.Append(typeName, "three", map["aa" := Literal(Num(30))], None);
  }

  /** The first two steps of the error scenarios: "one" succeeds and "two" fails. */
  lemma ErrorFirstTwo(env: Env, typeName: string)
    requires env.registry == map[typeName := FailOnTwenty] && env.session == Session("host")
    ensures var invs := ErrorInvocations(typeName);
      Step(env, Step(env, Start, invs[0]), invs[1]) == Pipeline(map[],
        [HistoryEntry("one", Success), HistoryEntry("two", Failed("error-here"))],
        [Sent(10), Sent(20)],
        if env.ignoreErrors then None else Some(TaskFailure("error-here")))
  {
    var invs := ErrorInvocations(typeName);
    AaStep(env, Start, typeName, "one", 10);
    AaStep(env, Step(env, Start, invs[0]), typeName, "two", 20);
  }

  /**
   * The run of the error scenarios: "two" fails; fail-fast stops there with
   * the error, while ignoreErrors runs "three" as well and ends without one.
   */
  lemma ErrorRun(env: Env, typeName: string)
    requires env.registry == map[typeName := FailOnTwenty] && env.session == Session("host")
    ensures var r := Execute(env, ErrorInvocations(typeName), Start);
      && (!env.ignoreErrors ==> r == Pipeline(map[],
            [HistoryEntry("one", Success), HistoryEntry("two", Failed("error-here"))],
            [Sent(10), Sent(20)],
            Some(TaskFailure("error-here"))))
      && (env.ignoreErrors ==> r == Pipeline(map[],
            [HistoryEntry("one", Success), HistoryEntry("two", Failed("error-here")), HistoryEntry("three", Success)],
            [Sent(10), Sent(20), Sent(30)],
            None))
  {
    var invs := ErrorInvocations(typeName);
    ExecuteThree(env, invs[0], invs[1], invs[2]);
    ErrorFirstTwo(env, typeName);
    if env.ignoreErrors {
      AaStep(env, Step(env, Step(env, Start, invs[0]), invs[1]), typeName, "three", 30);
    }
  }

  /** Fail-fast: the run stops after "two"; "three" is never dispatched. */
  method WhenError() returns (summaries: map<string, Summary>, received: seq<Dispatch>)
    ensures summaries == map["host" := Summary(Some(TaskFailure("error-here")), [
      HistoryEntry("one", Success),
      HistoryEntry("two", Failed("error-here"))])]
    ensures received == [Sent(10), Sent(20)]
  {
    var session := Session("host");
    var registry := new Registry();
    var list := ErrorList(registry, "simpleTask2", false);
    summaries, received := list.Run(registry, session);
    ErrorRun(Env(registry.tasks, session, false), "simpleTask2");
  }

  /** With ignoreErrors: all three run, "two" is FAILED, and there is no terminal error. */
  method WhenErrorIgnored() returns (summaries: map<string, Summary>, received: seq<Dispatch>)
    ensures summaries == map["host" := Summary(None, [
      HistoryEntry("one", Success),
      HistoryEntry("two", Failed("error-here")),
      HistoryEntry("three", Success)])]
    ensures received == [Sent(10), Sent(20), Sent(30)]
  {
    var session := Session("host");
    var registry := new Registry();
    var list := ErrorList(registry, "simpleTask3", true);
    summaries, received := list.Run(registry, session);
    ErrorRun(Env(registry.tasks, session, true), "simpleTask3");
  }

  /** Running three parts one after the other. */
  lemma ExecuteThreeParts(env: Env, x: seq<Invocation>, y: seq<Invocation>, z: seq<Invocation>)
    ensures Execute(env, x + (y + z), Start) == Execute(env, z, Execute(env, y, Execute(env, x, Start)))
  {
    ExecuteAppend(env, x, y + z, Start);
    ExecuteAppend(env, y, z, Execute(env, x, Start));
  }

  /**
   * The run of three concatenated pairs: six dispatches with the six `aa`
   * values in order, and no terminal error.
   */
  lemma ConcatRun(env: Env, a1: int, a2: int, b1: int, b2: int, c1: int, c2: int)
    requires env == Env(map["simpleTask" := Succeed], Session("host"), false)
    ensures var r := Execute(env, Pair(a1, a2) + (Pair(b1, b2) + Pair(c1, c2)), Start);
      && r.error.None?
      && r.received == [Sent(a1), Sent(a2), Sent(b1), Sent(b2), Sent(c1), Sent(c2)]
  {
    ExecuteThreeParts(env, Pair(a1, a2), Pair(b1, b2), Pair(c1, c2));
    PairRun(env, a1, a2, Start);
    var p1 := Execute(env, Pair(a1, a2), Start);
    PairRun(env, b1, b2, p1);
    PairRun(env, c1, c2, Execute(env, Pair(b1, b2), p1));
    assert [] + [Sent(a1), Sent(a2)] + [Sent(b1), Sent(b2)] + [Sent(c1), Sent(c2)]
        == [Sent(a1), Sent(a2), Sent(b1), Sent(b2), Sent(c1), Sent(c2)];
  }

  lemma FlattenTwo(x: TaskList, y: TaskList)
    ensures Flatten([x, y]) == x.invocations + y.invocations
  {
  }

  /** Builds tl1, tl2 and tl3 and concatenates them as `tl1.concat([tl2, tl3])`. */
  method ConcatLists(a1: int, a2: int, b1: int, b2: int, c1: int, c2: int) returns (combined: TaskList)
    ensures fresh(combined)
    ensures combined.name == "one" + "+" && !combined.config.ignoreErrors
    ensures combined.invocations == Pair(a1, a2) + (Pair(b1, b2) + Pair(c1, c2))
  {
    var tl1 := PairList("one", a1, a2);
    var tl2 := PairList("two", b1, b2);
    var tl3 := PairList("three", c1, c2);
    FlattenTwo(tl2, tl3);
    combined := tl1.Concat([tl2, tl3]);
  }

  /**
   * The concatenated list is named "one+" and dispatches the options of
   * tl1, tl2 and tl3 in that order, without a terminal error.
   */
  method Concat() returns (name: string, summaries: map<string, Summary>, received: seq<Dispatch>)
    ensures name == "one" + "+"
    ensures "host" in summaries && summaries["host"].error.None?
    ensures received == [Sent(10), Sent(20), Sent(30), Sent(40), Sent(50), Sent(60)]
  {
    var session := Session("host");
    var registry := new Registry();
    registry.Register("simpleTask", Succeed);
    var combined := ConcatLists(10, 20, 30, 40, 50, 60);
    name := combined.name;
    summaries, received := combined.Run(registry, session);
    ConcatRun(Env(registry.tasks, session, false), 10, 20, 30, 40, 50, 60);
  }

  /** The first task of the mapper scenario: reports "value1" and "value2" to the mapper, then succeeds. */
  function Report(s: Session, o: Options): (result: TaskResult)
  {
    TaskResult(Done, [[Str("value1"), Str("value2")]])
  }

  /** The i-th argument of a mapper call; a missing argument is `undefined`. */
  function Arg(args: seq<Value>, i: nat): (v: Value)
  {
    if i < |args| then args[i] else Undefined
  }

  /** The output mapper of the scenario: sets `simple` to `{v1: stdout, v2: stderr}`. */
  function SaveOutputs(ctx: Context, args: seq<Value>): (saved: Context)
  {
    ctx["simple" := Obj(map["v1" := Arg(args, 0), "v2" := Arg(args, 1)])]
  }

  /** The function-valued option of the scenario: reads `simple` from the context. */
  function ReadSimple(ctx: Context): (v: Value)
  {
    Lookup(ctx, "simple")
  }

  function MapperInvocations(): (invs: seq<Invocation>)
  {
    [Invocation("first", "One", map["aa" := Literal(Num(10))], Some(SaveOutputs)),
     Invocation("second", "Two", map["data" := Lazy(ReadSimple), "aa" := Literal(Num(20))], None)]
  }

  /** The object the mapper of "One" stores under `simple`. */
  const Simple := Obj(map["v1" := Str("value1"), "v2" := Str("value2")])

  /** The run of the mapper scenario, step by step. */
  lemma MapperRun(env: Env)
    requires env == Env(map["first" := Report, "second" := Succeed], Session("host"), false)
    ensures var r := Execute(env, MapperInvocations(), Start);
      && r.error.None?
      && r.history == [HistoryEntry("One", Success), HistoryEntry("Two", Success)]
      && r.received == [
           Dispatch(Session("host"), map["aa" := Num(10)]),
           Dispatch(Session("host"), map["data" := Simple, "aa" := Num(20)])]
  {
    var invs := MapperInvocations();
    ExecuteTwo(env, invs[0], invs[1], Start);
    assert Resolve(invs[0].template, map[]) == map["aa" := Num(10)];
    var p1 := Step(env, Start, invs[0]);
    assert p1.context == map["simple" := Simple];
    assert Resolve(invs[1].template, p1.context) == map["data" := Simple, "aa" := Num(20)];
  }

  /**
   * What the mapper of "One" writes is what the function-valued option of
   * "Two" evaluates to; the literal `aa` passes through, and "Two", which
   * never calls the mapper invoker, still records SUCCESS.
   */
  method VariableMapper() returns (summaries: map<string, Summary>, received: seq<Dispatch>)
    ensures summaries == map["host" := Summary(None, [
      HistoryEntry("One", Success),
      HistoryEntry("Two", Success)])]
    ensures received == [
      Dispatch(Session("host"), map["aa" := Num(10)]),
      Dispatch(Session("host"), map["data" := Simple, "aa" := Num(20)])]
  {
    var session := Session("host");
    var registry := new Registry();
    registry.Register("first", Report);
    registry.Register("second", Succeed);
    var list := new TaskList("simple", Config(false, false));
    list.Append("first", "One", map["aa" := Literal(Num(10))], Some(SaveOutputs));
    list.Append("second", "Two", map["data" := Lazy(ReadSimple), "aa" := Literal(Num(20))], None);
    summaries, received := list.Run(registry, session);
    MapperRun(Env(registry.tasks, session, false));
  }
}
