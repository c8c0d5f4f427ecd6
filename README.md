# nodemiral task lists, modelled in Dafny

This project models the task-list execution engine of nodemiral, as the
suite in `test/taskList.js` drives it.

- **Task types.** They are registered under a name in a registry.
- **Task lists.** A task list is a named, append-only sequence of
  invocations. Each invocation holds a task type, a display name, an option
  template and an optional output mapper.
- **Running a list.** Running a list against a session walks the invocations
  in declaration order. Before each dispatch, the invocation's options are
  resolved against a per-run execution context. The outcome of each task is
  recorded in the history as `SUCCESS`, or as `FAILED` with its message. The
  list's `ignoreErrors` flag decides whether the first failure stops the run
  and becomes the summary's `error`.
- **Output mappers.** A task may hand outputs to the invocation's output
  mapper. The mapper writes fields into the context, and the function-valued
  options of later invocations read them.
- **Concatenation.** `concat` builds a new list named after the receiver
  with `"+"` appended. It holds the receiver's invocations and then those of
  each argument list.

Files and modules:

- `wrappers.dfy` (`Wrappers`): `Option`.
- `values.dfy` (`Values`): JavaScript values and the execution context, an
  object from property names to values.
- `options.dfy` (`Options`): option templates and their resolution.
- `tasks.dfy` (`Tasks`): sessions, task outcomes, invocations, output
  mapping and the `Registry` class.
- `runner.dfy` (`Runner`): the run of one session as a pure fold
  (`Step`, `Execute`) and the properties proved about it.
- `tasklist.dfy` (`TaskLists`): the `TaskList` class. It has `Append`,
  `Concat`, and `Run`, an imperative loop proved equal to `Runner.Execute`.
- `scenarios.dfy` (`Scenarios`): the five tests of `test/taskList.js`. Each
  one builds its registry and lists with the classes above and runs them.
  Its `ensures` states the summary and the options the tasks received, as
  the test asserts them.

Modelling choices:

- **Registry.** The process-wide registry becomes an explicit `Registry`
  object that is passed to `Run`.
- **Append.** The list methods synthesised per task type become a single
  `Append(typeName, displayName, template, mapper)`.
- **Tasks.** A task is a total function from the session and the resolved
  options to a `TaskResult`. The result holds the completion outcome and the
  argument lists of every call the task made to the output-mapper invoker,
  in call order.
- **Mappers and context.** A mapper is a function from the context and one
  call's arguments to the new context. `this` becomes an explicit context
  parameter, both for mappers and for function-valued options.
- **What tasks receive.** `Run` also returns `received`: the session and
  options handed to each dispatched task, in dispatch order. The tests
  observe this by pushing the options into `optionsList` and by asserting
  `session == _session` inside the task.
- **Unknown task types.** An invocation whose task type is not registered
  stops the pipeline with the distinct error `UnknownTaskType`. This happens
  whatever `ignoreErrors` says, and no history entry is recorded for it.
  The tests do not exercise this path. The model treats it as a setup
  error, kept distinct from a task failure.
- **Concat configuration.** `concat` keeps the receiver's configuration. The
  tests pin down only the name suffix.

## Model

| member | source | states |
|---|---|---|
| `Tasks.Registry.constructor` | test/taskList.js:9 | a new registry holds no task types |
| `Tasks.Registry.Register` | test/taskList.js:9-13 | after registering, the name maps to the given task and every other name is as before; registering a name again replaces the earlier task |
| `TaskLists.TaskList.constructor` | test/taskList.js:15 | a new list has the given name and configuration and no invocations |
| `TaskLists.TaskList.Append` | test/taskList.js:16-17 | the list's invocations are the old ones followed by exactly the new invocation; name and configuration are unchanged |
| `Options.Resolve` | test/taskList.js:140-143 | the options have exactly the template's keys; literal entries arrive unchanged; function entries are replaced by their value in the given context |
| `Options.ResolveLiterals` | test/taskList.js:16-17 | a template made only of literals resolves to its literal values, whatever the context |
| `Tasks.MapOutputs` | test/taskList.js:117-123 | without a mapper, or without outputs, the context is unchanged; a single call applies the invocation's mapper to the context and the call's arguments |
| `Tasks.MapOutputsAppend` | test/taskList.js:117-123 | mapping the outputs of calls `a` and then calls `b` is mapping `b` from the context `a` left; with the single-call case of `Tasks.MapOutputs`, every invoker call runs the mapper exactly once, in call order, each seeing the context the previous call left |
| `TaskLists.TaskList.Run` | test/taskList.js:18-26 | the summary map has exactly one key, the session's host, which maps to the terminal error and history of `Runner.Execute` over the list's invocations from a fresh context; the tasks received exactly that run's dispatches |
| `Runner.Step` | test/taskList.js:18-26 | one invocation of a pipeline: a stopped pipeline is left unchanged; an unregistered type stops a running pipeline with `UnknownTaskType` and records nothing; a registered one adds exactly one history entry and one dispatch (what they hold, and when the run stops, is stated by `Runner.StepAt`) |
| `Runner.Execute` | test/taskList.js:18-26 | runs the invocations in declaration order; once the pipeline holds a terminal error, running further invocations changes nothing (history, dispatches, order and error policy are stated by `Runner.ExecuteExtends`, `Runner.EntryAt`, `Runner.FirstFailure`, `Runner.AllSucceed` and `Runner.IgnoreErrors`) |
| `Runner.StepAt` | test/taskList.js:39-49 | invocation i of a running pipeline appends its display name with its task's own outcome to the history and its dispatch to the dispatches, hands the task's outputs to its mapper, and stops the pipeline with the task's message exactly when that task failed and ignoreErrors is off |
| `Runner.ExecuteAppend` | test/taskList.js:102-109 | running `a + b` is running `a` and then `b` from the state `a` left, context included |
| `Runner.ExecuteExtends` | test/taskList.js:18-22 | running only appends to the history and the dispatches, one entry of each per attempted invocation, at most one per invocation; with every type registered, a run without terminal error attempted every invocation |
| `Runner.PrefixRun` | test/taskList.js:43-49 | running a prefix of the list gives a prefix of the history and of the dispatches; a prefix that already stopped the run gives the whole run |
| `Runner.RunningBefore` | test/taskList.js:43-49 | if history entry i exists, the run had not stopped before invocation i and had recorded exactly i entries |
| `Runner.EntryAt` | test/taskList.js:9-12 | dispatch i goes to invocation i with the session unchanged and the template resolved against the context left by the earlier invocations; history entry i has invocation i's display name and that task's own outcome; the context afterwards is what the mapper made of the task's outputs |
| `Runner.DispatchInOrder` | test/taskList.js:16-23 | dispatches follow declaration order: dispatch i has invocation i's keys, the session unchanged and its literal values unchanged, and history entry i is named after invocation i |
| `Runner.LiteralOptionsArrive` | test/taskList.js:16-23 | when every template holds only literals, each task receives exactly its template's values |
| `Runner.RunsThrough` | test/taskList.js:15-22 | while every task dispatched so far succeeds, the pipeline keeps running and has one history entry and one dispatch per invocation so far |
| `Runner.AllSucceed` | test/taskList.js:15-22 | when every dispatched task succeeds on the options it is given, the history has one SUCCESS entry per invocation in declaration order, every invocation is dispatched, and there is no terminal error |
| `Runner.FirstFailure` | test/taskList.js:39-49 | without ignoreErrors, when invocation k is the first whose task fails: the history has k+1 entries, entry k is FAILED with that task's message, invocation k is the last one dispatched, and the terminal error carries the same message |
| `Runner.FailFast` | test/taskList.js:39-49 | without ignoreErrors, a FAILED entry at index k is the last one (history length k+1, no later dispatch) and the terminal error carries its message; there is no terminal error exactly when every invocation ran and succeeded |
| `Runner.IgnoreErrors` | test/taskList.js:65-76 | with ignoreErrors, every invocation is dispatched and recorded, entry i carries invocation i's display name and its own task's outcome, and the terminal error stays absent |
| `Runner.ContextThreading` | test/taskList.js:133-143 | what invocation i's mapper writes is the context in which a later invocation j resolves its function-valued options, when the invocations in between have no mapper; j's literal options arrive unchanged |
| `Runner.SilentTaskKeepsContext` | test/taskList.js:125-129 | a task that never calls the mapper invoker, or an invocation without a mapper, leaves the context unchanged, and a successful one records SUCCESS |
| `TaskLists.TaskList.Concat` | test/taskList.js:102-103 | a fresh list named after the receiver with "+" appended, with the receiver's configuration, holding the receiver's invocations followed by each argument list's invocations in argument order |
| `TaskLists.Flatten` | test/taskList.js:102 | the invocations of the argument lists, list after list; a single list contributes exactly its own invocations |
| `TaskLists.FlattenAppend` | test/taskList.js:102 | flattening the argument lists distributes over joining them |
| `TaskLists.ConcatRunsInOrder` | test/taskList.js:102-109 | running a concatenated list runs each argument list after all lists before it, from the state they left |
| `Scenarios.PairRun` | test/taskList.js:16-17 | two succeeding `simpleTask` invocations add two SUCCESS entries and dispatch their `aa` values in order |
| `Scenarios.RegisterAndRun` | test/taskList.js:6-26 | summary `{error: null, history: [Simple Name SUCCESS, Simple Name2 SUCCESS]}` under "host"; the tasks received `{aa: 10}` and `{aa: 20}` |
| `Scenarios.ErrorRun` | test/taskList.js:30-76 | the three-invocation run: fail-fast stops after "two" with error "error-here"; ignoreErrors runs "three" as well and ends without error |
| `Scenarios.WhenError` | test/taskList.js:28-52 | summary error "error-here"; history one SUCCESS, two FAILED "error-here"; "three" never dispatched |
| `Scenarios.WhenErrorIgnored` | test/taskList.js:54-79 | no summary error; history one SUCCESS, two FAILED "error-here", three SUCCESS |
| `Scenarios.ConcatRun` | test/taskList.js:105-109 | running the three concatenated pairs dispatches the six `aa` values in order without error |
| `Scenarios.Concat` | test/taskList.js:81-112 | the combined list is named `"one" + "+"`; no summary error; the tasks received `aa` = 10, 20, 30, 40, 50, 60 in that order |
| `Scenarios.MapperRun` | test/taskList.js:114-157 | "One"'s mapper stores `{v1: "value1", v2: "value2"}` under `simple`, which "Two"'s function option then reads |
| `Scenarios.VariableMapper` | test/taskList.js:114-161 | summary `{error: null, history: [One SUCCESS, Two SUCCESS]}`; the tasks received `{aa: 10}` and `{data: {v1: "value1", v2: "value2"}, aa: 20}` |

## Left out

- `lib/taskList.js` and `lib/session.js` are not part of this model. The
  model follows what `test/taskList.js` asserts. Where the tests say
  nothing, the choices listed above apply.
- A session is an opaque token with a host key. Transport and connection
  handling are not modelled.
- Asynchronous completion callbacks are not modelled. Each task returns its
  outcome synchronously, so "completion signalled exactly once" holds by
  construction and is not stated.
- Running one list against several sessions at once is not modelled, nor is
  the isolation between their contexts. Only a single session is run, as in
  every test.
- The `pretty` flag and all reporting are not modelled. `Config` carries the
  flag, and nothing reads it.
- A mapper that throws, and a task-type function with the wrong arity, are
  not modelled. Mappers and tasks are total functions.
- The list returned by the per-type append methods for chaining is not
  modelled. `TaskList.Append` changes the list in place and returns nothing.
- JavaScript numbers are modelled as unbounded integers. Floating point is
  not modelled, and option comparison uses structural equality on `Value`.
