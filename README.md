# rake_factory parameter engine, in Dafny

This project models the core of rake_factory, a Ruby library for building
Rake tasks and task sets out of classes with declared parameters:

- **values** (`Values`): static and dynamic values, and how prepending or
  appending an argument and evaluating in a context work;
- **parameters** (`Parameters`): one declaration, its option defaults, how a
  read resolves, evaluates and transforms the stored slot, and when a
  parameter counts as unset;
- **the parameter table** (`ParameterSets`): the ordered table of a class,
  with add, find, default updates, applying defaults, the combined
  `RequiredParameterUnset` check and its message, and the snapshot of all
  values;
- **entities** (`Entities`): an object carrying parameters (a task or a task
  set) with its slots and configuration block, and the initializer chain:
  defaults, then the block, then the option overrides;
- **parameter views** (`Views`): the restricted object a configuration block
  receives, with a reader per parameter, writers only for configurable
  ones, and the runtime arguments appended on every write;
- **configuration** (`Configuration`): running a stored configuration block,
  the arity-cut call, and the composed block a task set gives each of its
  tasks;
- **task classes** (`Defaults`): the five built-in parameters every task
  class declares and the `default_*` updaters;
- **tasks** (`Tasks`): what a task registers with Rake and what its
  invocation callback does (configure, check requirements, then actions);
- **task sets** (`TaskSets`): specifications, argument resolution and
  merging, the `define_if` guard and the definition loop.

User code (blocks and lambdas) is opaque. A `Callable` has an arity and an
identity. The `Host` gives what it returns for given arguments
(`host.call`) and the assignments a configuration block makes on the
objects it receives (`host.effects`). Rake's task graph is replaced by a
`Registration` record.

Classes whose state the source changes in place are Dafny classes:
`ParameterSet`, `Entity`, `ParameterView`, `TaskClass`, `Task`,
`TaskSetClass`, `TaskSet`. Their methods are proved against functions on
values (`AddTo`, `WithDefault`, `WithDefaults`, `Constructed`, `Deliver`,
`Configure`, `Definitions`), and the properties are lemmas about those
functions.

Two behaviours of the code are easy to miss:

- Only the values of the specification's own option hash are wrapped to
  receive the task set (`process_parameter_hash`, task_set.rb:79-83). The
  values taken from the task set's snapshot are passed to the task as they
  are.
- A configuration block of a task set's task is itself a two-parameter
  lambda (task_set.rb:136). Invoking it without runtime arguments raises
  `ArgumentError`.

## Model

| member | source | states |
|---|---|---|
| Values.Prepend | lib/rake_factory/values.rb:32-61 | a static value is returned as it is; a dynamic value gains the argument at the front of `pre`, with block and `post` kept |
| Values.Append | lib/rake_factory/values.rb:38-61 | a static value is returned as it is; a dynamic value gains the argument at the end of `post`, with block and `pre` kept |
| Values.Resolve | lib/rake_factory/values.rb:5-12 | a static or dynamic value passes through unchanged; any other object is wrapped in a static value |
| Values.Evaluate | lib/rake_factory/values.rb:44-65 | a static value is what it holds; a dynamic value calls its block with the first `arity` of `pre ++ context ++ post`, so a block whose prepended arguments fill its parameters never sees the context |
| Values.ResolveKeepsValues | lib/rake_factory/values.rb:5-12 | a static or dynamic value resolves to itself, and resolving is idempotent |
| Values.ResolveWrapsPlainObjects | lib/rake_factory/values.rb:5-12 | any other object is wrapped in a static value, which evaluates back to the object in every context |
| Values.StaticIgnoresContext | lib/rake_factory/values.rb:63-65 | a static value evaluates to what it holds, whatever the arguments |
| Values.PrependLeadsEveryCall | lib/rake_factory/values.rb:32-47 | after a prepend, every evaluation offers the block the new argument first, then exactly the arguments it offered before |
| Values.AppendTrailsEveryCall | lib/rake_factory/values.rb:38-47 | after an append, every evaluation offers the block the arguments it offered before, then the new argument last |
| Values.ContextBeyondArityIsInvisible | lib/rake_factory/values.rb:44-47 | context elements past what the block's arity reaches are never seen: two contexts that agree on the reachable prefix evaluate alike |
| Values.ZeroArityIgnoresContext | lib/rake_factory/values.rb:44-47 | a block with no parameters is called with no arguments, so the context does not matter |
| Values.OneArityReceivesFirstContext | lib/rake_factory/values.rb:44-47 | a one-parameter block of a fresh dynamic value receives only the first context element |
| Values.AppendBeyondArityIsInvisible | lib/rake_factory/values.rb:38-47 | an appended argument changes nothing when the block's arity is covered by `pre` and the context |
| Values.AppendedArgumentsReachSecondParameter | lib/rake_factory/values.rb:38-47 | a two-parameter block with runtime arguments appended is called with `(entity, arguments)` when read |
| Parameters.NewParameter | lib/rake_factory/parameter.rb:10-17 | name and default are kept; required iff the option is truthy; configurable iff the option is absent or truthy; identity transform unless one is given |
| Parameters.ApplyTransform | lib/rake_factory/parameter.rb:68-72 | the identity returns the value; the symbol coercion turns exactly the strings into symbols and leaves everything else; a user lambda receives the value as its one argument |
| Parameters.Get | lib/rake_factory/parameter.rb:68-72 | a plain stored object is transformed as it is; a static value's object is transformed; a dynamic value is evaluated with the entity as its context, then transformed |
| Parameters.DissatisfiedBy | lib/rake_factory/parameter.rb:56-58 | only a required parameter can be unset; one holding a plain object under the identity transform is unset exactly when that object is nil |
| Parameters.SatisfiedBy | lib/rake_factory/parameter.rb:60-62 | an optional parameter is always satisfied; a required one exactly when its read value is not nil |
| Parameters.ApplyDefault | lib/rake_factory/parameter.rb:44-46 | a non-nil default is written to the parameter's slot; a nil one writes nothing; every other slot is kept |
| Parameters.OptionDefaults | lib/rake_factory/parameter.rb:13-16 | with no options a parameter is optional, configurable, untransformed and has no default |
| Parameters.ConfigurableOnlyWhenNotFalse | lib/rake_factory/parameter.rb:15-16 | a parameter is non-configurable exactly when `configurable: false` is given |
| Parameters.FalseDefaultIsApplied | lib/rake_factory/parameter.rb:44-46 | a `false` default is written to the slot, because only nil is skipped |
| Parameters.PlainSlotReadsBack | lib/rake_factory/parameter.rb:64-72 | a plain object stored by `set` reads back verbatim under the identity transform, and a stored lambda is kept, not called |
| Parameters.DynamicSlotEvaluatedWithEntity | lib/rake_factory/parameter.rb:68-72 | any stored dynamic value is evaluated on every read with its prepended arguments, the entity and its appended arguments, cut to its block's arity, then transformed; a fresh one-parameter block receives the entity alone |
| Parameters.ToSymbolCoerces | lib/rake_factory/defaults.rb:84-88 | the `name` transform turns a string into the symbol, leaves anything else unchanged, and applying it twice is applying it once |
| Parameters.SatisfiedIffReadNotNil | lib/rake_factory/parameter.rb:56-62 | an optional parameter is always satisfied; a required one exactly when its read is not nil; satisfied is the negation of dissatisfied |
| ParameterSets.Find | lib/rake_factory/parameter_set.rb:18-20 | finds an entry exactly when the name is declared, and the entry found has that name |
| ParameterSets.AddTo | lib/rake_factory/parameter_set.rb:12-16 | the parameter is in the table; the length is kept when its name was declared and grows by one otherwise; entries under other names stay where they were |
| ParameterSets.WithDefault | lib/rake_factory/parameter_set.rb:26-28 | the length is kept; every entry keeps its name, required flag, configurability and transform; the named entry has the new default |
| ParameterSets.WithDefaults | lib/rake_factory/parameter_set.rb:30-34 | every old slot stays, new keys are only parameters' names, and a slot no parameter names keeps its value |
| ParameterSets.Unsatisfied | lib/rake_factory/parameter_set.rb:36-41 | only declared names are listed, and no more names than there are parameters |
| ParameterSets.RequirementsMessage | lib/rake_factory/parameter_set.rb:42-47 | one name gives "Required parameter <name> unset."; every message starts with "Required parameter" and takes the plural "Required parameters" exactly when there is more than one name |
| ParameterSets.Snapshot | lib/rake_factory/parameter_set.rb:50-54 | one key per declared name |
| ParameterSets.FindAt | lib/rake_factory/parameter_set.rb:12-20 | with unique names, finding an entry's name returns that entry |
| ParameterSets.AddToReplacesOrAppends | lib/rake_factory/parameter_set.rb:12-16 | adding keeps names unique and makes the new parameter the entry for its name; every other name finds what it found before; a new name goes last, an existing one is replaced in place |
| ParameterSets.WithDefaultChangesOnlyNamed | lib/rake_factory/parameter_set.rb:26-28 | a default update changes only the named entry's default; length, order, names and every other entry are kept |
| ParameterSets.WithDefaultsHoldsDefault | lib/rake_factory/parameter_set.rb:30-34 | after the defaults are applied, every parameter with a non-nil default holds it |
| ParameterSets.WithDefaultsElsewhere | lib/rake_factory/parameter_set.rb:30-34 | a slot no non-nil default names is present and valued exactly as before |
| ParameterSets.Enforce | lib/rake_factory/parameter_set.rb:36-48 | passes exactly when every parameter is satisfied; otherwise raises `RequiredParameterUnset` with the message built from the dissatisfied names in declaration order |
| ParameterSets.UnsatisfiedMembers | lib/rake_factory/parameter_set.rb:36-42 | the names listed are exactly the names of dissatisfied parameters, and there are no more names than parameters |
| ParameterSets.UnsatisfiedDistinct | lib/rake_factory/parameter_set.rb:36-41 | with unique names, no name is listed twice |
| ParameterSets.UnsatisfiedInOrder | lib/rake_factory/parameter_set.rb:36-41 | of two dissatisfied parameters, the one declared earlier is listed before the later one |
| ParameterSets.NoneUnsatisfiedIffAllSatisfied | lib/rake_factory/parameter_set.rb:36-40 | the list of dissatisfied names is empty exactly when every parameter is satisfied |
| ParameterSets.TwoUnsetNamedInOrder | lib/rake_factory/parameter_set.rb:42-47 | two unset required parameters give "Required parameters a,b unset." in declaration order |
| ParameterSets.MessageContainsEach | lib/rake_factory/parameter_set.rb:42-47 | the message contains every name it is built from |
| ParameterSets.MessageNamesEveryUnset | spec/rake_factory/task_spec.rb:39-55 | any unset required parameter makes the check fail with a message that contains its name |
| ParameterSets.MessageShapes | lib/rake_factory/parameter_set.rb:42-47 | the singular form for one name and the plural, comma-joined form for two |
| ParameterSets.TwoNamesJoined | lib/rake_factory/parameter_set.rb:43-43 | two names are joined around one separator |
| ParameterSets.SnapshotReadsEach | lib/rake_factory/parameter_set.rb:50-54 | the snapshot has exactly one key per parameter, mapped to what its reader returns |
| ParameterSets.ParameterSet.constructor | lib/rake_factory/parameter_set.rb:8-10 | a new table is empty |
| ParameterSets.ParameterSet.Add | lib/rake_factory/parameter_set.rb:12-16 | the built parameter is stored under its name, replacing an old entry in place or appended; names stay unique and the parameter is returned |
| ParameterSets.ParameterSet.FindParameter | lib/rake_factory/parameter_set.rb:18-20 | finds an entry exactly when the name is declared |
| ParameterSets.ParameterSet.UpdateDefaultFor | lib/rake_factory/parameter_set.rb:26-28 | a declared name gets the new default and nothing else changes; an unknown name raises `NoMethodError` and leaves the table as it was |
| Entities.OptionsOf | lib/rake_factory/arguments.rb:11-14 | an absent or falsy first argument gives no options; a hash gives its entries; anything else raises because it has no `each` |
| Entities.Assigned | lib/rake_factory/parameter.rb:64-66 | with no such writer nothing changes; a parameter writer stores the value in its slot and changes nothing else; `configuration_block=`, when no parameter has that name, replaces the block and keeps the slots |
| Entities.WithOptions | lib/rake_factory/arguments.rb:11-20 | every option naming a parameter is stored; slots the options do not name keep their values; a `configuration_block` option naming no parameter replaces the block, and without one the block is kept |
| Entities.Constructed | lib/rake_factory/arguments.rb:5-9 | construction fails exactly when the options cannot be read, with that error; every slot belongs to a declared parameter; every option naming a parameter wins over its default |
| Entities.Entity.New | lib/rake_factory/parameters.rb:11-15 | the new object is the initializer chain's state (defaults, block, overrides), or the chain's error |
| Entities.Entity.SetupParameterDefaults | lib/rake_factory/parameters.rb:21-23 | the slots become the defaults applied in declaration order over the old slots; the block is kept |
| Entities.Entity.ProcessConfigurationBlock | lib/rake_factory/configurable.rb:17-19 | the block is stored only when one is given; slots are kept |
| Entities.Entity.Assign | lib/rake_factory/parameter.rb:31-41 | a direct writer call stores the value verbatim, or replaces the block through `configuration_block=`; any other name raises `NoMethodError` |
| Entities.Entity.SetIfWriter | lib/rake_factory/arguments.rb:18-20 | writes only when the object responds to the writer |
| Entities.Entity.ProcessArguments | lib/rake_factory/arguments.rb:11-14 | every option key naming a writer is written and no other key is; a first argument that is not a hash raises and writes nothing |
| Entities.Entity.SetEachIfWriter | lib/rake_factory/arguments.rb:13-13 | the state after the loop is the old state with all writable options applied |
| Entities.Entity.Get | lib/rake_factory/parameter.rb:38-40 | an undeclared name has no reader and raises `NoMethodError` |
| Entities.Entity.ParameterValues | lib/rake_factory/parameters.rb:17-19 | one key per parameter, mapped to what its reader returns now |
| Entities.Entity.CheckParameterRequirements | lib/rake_factory/parameters.rb:25-27 | passes exactly when no required parameter reads nil; otherwise raises `RequiredParameterUnset` |
| Entities.OptionStep | lib/rake_factory/arguments.rb:13-20 | handling one more option key is one more writer call |
| Entities.OptionBlockStep | lib/rake_factory/arguments.rb:13-20 | one more option key changes the block exactly as that writer call does |
| Entities.UnknownOptionIgnored | lib/rake_factory/arguments.rb:18-20 | an option key that names no writer changes nothing |
| Entities.OptionBeatsDefault | lib/rake_factory/arguments.rb:5-9 | an option naming a parameter is stored verbatim over its default, even for a non-configurable parameter; an unnamed parameter keeps its default |
| Entities.NilOptionOverridesDefault | spec/rake_factory/task_spec.rb:95-106 | an explicit nil option replaces a non-nil default |
| Entities.UnknownOptionsLeaveDefaults | spec/rake_factory/task_spec.rb:77-92 | options that name no writer leave the object exactly as the defaults and the block made it |
| Entities.NoArgumentsGiveDefaults | lib/rake_factory/arguments.rb:11-14 | with no arguments, or a nil one, the object is its defaults and its block |
| Entities.ConstructionIgnoresRequirements | spec/rake_factory/task_spec.rb:39-55 | construction fails only when the first argument cannot be read as options, whatever the parameters require |
| Entities.BlockOptionReplacesBlock | lib/rake_factory/configurable.rb:5-9 | a `configuration_block` option replaces the block given to `new` |
| Entities.AssignThenGet | lib/rake_factory/parameter.rb:64-72 | after a direct write, the parameter reads back the value and every other slot and the block are kept |
| Views.Deliver | lib/rake_factory/parameter_view.rb:41-51 | a value reaches an entity writer only if every view on the way has the writer and the entity responds to it |
| Views.ParameterView.constructor | lib/rake_factory/parameter_view.rb:9-13 | a reader for every parameter of the reader class, and a writer for each configurable parameter of the writer class |
| Views.ParameterView.Read | lib/rake_factory/parameter_view.rb:29-33 | a name outside the reader class raises `NoMethodError` |
| Views.ParameterView.Write | lib/rake_factory/parameter_view.rb:41-51 | succeeds exactly when the view has the writer, otherwise raises `NoMethodError`; the entity changes by what the chain delivers, and nothing else changes |
| Views.WriterIffConfigurable | lib/rake_factory/parameter_view.rb:41-42 | a parameter has a view writer exactly when it is configurable |
| Views.DirectViewAppendsArguments | lib/rake_factory/parameter_view.rb:47-50 | a view over an entity delivers the resolved value with the runtime arguments appended; a plain value arrives as a static value |
| Views.WriteDroppedWithoutTargetWriter | lib/rake_factory/parameter_view.rb:45-45 | a view whose target has no such writer drops the write |
| Views.NestedViewAppendsTwice | lib/rake_factory/task_set.rb:142-147 | through a view over a view, the value gains the outer view's arguments and then the inner view's |
| Views.ViewWrittenDynamicSeesArguments | spec/rake_factory/task_spec.rb:185-197 | a two-parameter dynamic value written through a view is read with `(entity, runtime arguments)` |
| Views.SecondAppendInvisible | lib/rake_factory/task_set.rb:142-147 | the second copy of the runtime arguments is invisible to a block of at most two parameters |
| Views.ReadForwardsToEntity | lib/rake_factory/parameter_view.rb:23-33 | a view reader returns exactly the target entity's reader result |
| Configuration.Dispatch | lib/rake_factory/configurable.rb:25-27 | one assignment of the block changes the states as the replay step says |
| Configuration.Perform | lib/rake_factory/configurable.rb:25-27 | the block's assignments run in order and stop at the first that raises |
| Configuration.CallBlock | lib/rake_factory/configurable.rb:25-27 | the block is called with the first `arity` parameters |
| Configuration.InvokeGiven | lib/rake_factory/configurable.rb:21-28 | a stored user block runs on `[view, args]`, or `[view]` without arguments; an object that is not a proc raises |
| Configuration.InvokeConfigurationBlockOn | lib/rake_factory/configurable.rb:21-28 | the outcome and every state afterwards are those of `Configure` for the stored block |
| Configuration.InvokeComposed | lib/rake_factory/task_set.rb:135-153 | the outcome and states are those of the composed lambda: specification block, then the task set's block on a nested view |
| Configuration.Step | lib/rake_factory/configurable.rb:25-27 | a write on a parameter that was not passed or on the task arguments changes nothing; on an entity it passes exactly when the entity has the writer, on a view exactly when the view has it; a failing write raises `NoMethodError` for `name=` and changes nothing; a write changes at most one entity |
| Configuration.Replay | lib/rake_factory/configurable.rb:25-27 | no assignments change nothing; a failure is `NoMethodError` for the writer of one of the assignments |
| Configuration.BlockCall | lib/rake_factory/configurable.rb:25-27 | a block declaring no parameters changes nothing; any failure is `NoMethodError` |
| Configuration.UnreceivedWritesAreInert | lib/rake_factory/configurable.rb:25-27 | assignments when no parameter was passed change nothing and raise nothing |
| Configuration.GivenRun | lib/rake_factory/configurable.rb:21-28 | no block passes and changes nothing; a stored object that is not a proc raises for `arity`; any failure is `NoMethodError` |
| Configuration.ComposedRun | lib/rake_factory/task_set.rb:135-153 | without runtime arguments the composed lambda raises `ArgumentError` and changes nothing; with them any failure is `NoMethodError` |
| Configuration.TaskSetBlockRun | lib/rake_factory/task_set.rb:142-147 | when the task set has no block nothing happens; any failure of its block is `NoMethodError` |
| Configuration.InvokeTaskSetBlock | lib/rake_factory/task_set.rb:142-147 | the task set's block, when it is a proc, runs on a fresh view over the task's view, with outcome and states as `TaskSetBlockRun` says |
| Configuration.Configure | lib/rake_factory/configurable.rb:21-28 | no stored block passes and changes nothing; a failure is the composed lambda's `ArgumentError` or a `NoMethodError`, and a user block only ever raises `NoMethodError` |
| Configuration.ReplayStopsAtFailure | lib/rake_factory/configurable.rb:25-27 | once an assignment raises, later assignments never run |
| Configuration.ReplayConcatenates | lib/rake_factory/configurable.rb:25-27 | passing assignment lists compose: running a concatenation is running one list after the other |
| Configuration.SwallowedWritesAreInert | lib/rake_factory/task.rb:57-58 | assignments made on Rake's task arguments change nothing and raise nothing |
| Configuration.NoBlockNoEffect | lib/rake_factory/configurable.rb:21-22 | without a stored block, invoking passes and changes nothing |
| Configuration.GivenBlockParameters | lib/rake_factory/configurable.rb:24-27 | the block receives `[target, args]` cut to its arity, or `[target]` when there are no arguments |
| Configuration.ComposedNeedsArguments | lib/rake_factory/task_set.rb:136-139 | the composed lambda without runtime arguments raises `ArgumentError` and changes nothing |
| Configuration.SpecificationFailureStops | lib/rake_factory/task_set.rb:136-139 | a specification block that raises stops the composed block before the task set's block runs |
| Configuration.TaskSetBlockWritesOnlyItsConfigurables | lib/rake_factory/task_set.rb:142-147 | the task set's block can only assign the task set's configurable parameters; any other name raises, even one the task has |
| Configuration.ReplayChangesOnlyRoot | lib/rake_factory/configurable.rb:25-27 | a block whose parameters are all views over one entity, or Rake's task arguments, changes no other entity |
| Configuration.ReplayPassMeansWritersExist | lib/rake_factory/configurable.rb:25-27 | when a block's assignments all pass, each assignment to a view named a writer that view exposes |
| Configuration.TaskSetBlockChangesOnlyTheTask | lib/rake_factory/task_set.rb:142-147 | the task set's block, run on a view over the task, changes the task and no other entity |
| Configuration.TaskSetBlockAssignsOnlyConfigurables | lib/rake_factory/task_set.rb:142-147 | when the task set's block runs to completion, every assignment it made on its view named a configurable parameter of the task set |
| Configuration.TaskSetBlockReadAfterSpecification | lib/rake_factory/task_set.rb:136-147 | the task set's block is looked up only after the specification's block ran: after a passing specification block, the composed lambda is the task set's block run on the world that block left |
| Configuration.SpecificationCanReplaceTaskSetBlock | lib/rake_factory/task_set.rb:136-147 | a specification block that assigns the task set's `configuration_block` replaces the block that then runs on the task |
| Defaults.BuiltInTable | lib/rake_factory/defaults.rb:17-28 | the built-ins have unique names, declared in hook order, each with its own options |
| Defaults.TaskClass.constructor | lib/rake_factory/defaults.rb:17-28 | a new task class holds exactly the five built-ins in hook order, each as its declaration makes it |
| Defaults.TaskClass.DeclareBuiltIn | lib/rake_factory/defaults.rb:61-88 | each built-in declaration extends the table by that built-in |
| Defaults.TaskClass.Parameter | lib/rake_factory/parameters.rb:34-37 | declaring adds the parameter to the class's table, where it is then found |
| Defaults.TaskClass.DefaultFor | lib/rake_factory/defaults.rb:30-51 | a built-in's default is replaced and every built-in stays declared |
| Defaults.TaskClass.DefaultName | lib/rake_factory/defaults.rb:30-32 | only the default of `name` is replaced |
| Defaults.TaskClass.DefaultArgumentNames | lib/rake_factory/defaults.rb:34-36 | only the default of `argument_names` is replaced |
| Defaults.TaskClass.DefaultPrerequisites | lib/rake_factory/defaults.rb:38-40 | only the default of `prerequisites` is replaced |
| Defaults.TaskClass.DefaultOrderOnlyPrerequisites | lib/rake_factory/defaults.rb:42-47 | only the default of `order_only_prerequisites` is replaced |
| Defaults.TaskClass.DefaultDescription | lib/rake_factory/defaults.rb:49-51 | only the default of `description` is replaced |
| Defaults.BuiltInDeclarations | lib/rake_factory/defaults.rb:61-88 | no built-in is configurable or required; `name` coerces to a symbol; the three lists default to empty; `description` has no default |
| Defaults.BuiltInsNotConfigurable | lib/rake_factory/defaults.rb:61-88 | a table of built-ins gives a view no writers |
| Defaults.DefaultUpdateKeepsBuiltIns | lib/rake_factory/defaults.rb:30-51 | a `default_*` update sets that built-in's default, keeps every built-in, and leaves every other name's entry alone |
| Tasks.Task.New | lib/rake_factory/task.rb:17-20 | a task built from a valid class has the class's parameters, including the built-ins, and the initializer chain's state |
| Tasks.Task.DefineOn | lib/rake_factory/task.rb:23-31 | registers the values the five built-in readers return now |
| Tasks.Task.ParameterViewFor | lib/rake_factory/task.rb:47-49 | the view reads every parameter of the task's class and writes its configurable ones, over the task |
| Tasks.Task.Invoke | lib/rake_factory/task.rb:57-61 | the stored block runs on the task's own view; a failure there stops everything; otherwise requirements are checked, and actions run exactly when that check passes, so only when every required parameter is set |
| Tasks.NameReadAsSymbol | lib/rake_factory/defaults.rb:84-88 | a string given as the `name` option, or as `default_name` with no options, is read back as the symbol |
| TaskSets.ParameterHash | lib/rake_factory/task_set.rb:55-61 | the leading hash of the specification's arguments, or empty |
| TaskSets.ProcessParameterHash | lib/rake_factory/task_set.rb:79-83 | every key of the hash is kept |
| TaskSets.ResolveArguments | lib/rake_factory/task_set.rb:63-75 | one argument when there were none; otherwise as many as given, with every argument after the first unchanged |
| TaskSets.ShouldDefine | lib/rake_factory/task_set.rb:123-129 | without `define_if` the task is defined; a guard that is not callable raises `NoMethodError` |
| TaskSets.DefinitionOf | lib/rake_factory/task_set.rb:110-115 | a defined task has the specification's class and block and the resolved arguments |
| TaskSets.Definitions | lib/rake_factory/task_set.rb:28-37 | at most one task per specification |
| TaskSets.DefinitionsSnoc | lib/rake_factory/task_set.rb:28-37 | one more specification adds its task, adds nothing, or stops the loop with its error |
| TaskSets.TaskSetClass.constructor | lib/rake_factory/task_set.rb:18-21 | a new task set class has no parameters and no specifications |
| TaskSets.TaskSetClass.Parameter | lib/rake_factory/parameters.rb:34-37 | declaring adds the parameter to the class's table, where it is then found |
| TaskSets.TaskSetClass.Task | lib/rake_factory/task_set.rb:23-25 | a specification is appended, so specifications keep declaration order |
| TaskSets.TaskSet.New | lib/rake_factory/task_set.rb:14-16 | the task set has its class's parameters and the initializer chain's state |
| TaskSets.TaskSet.DefineOn | lib/rake_factory/task_set.rb:28-37 | the outcome is the definition plan over the class's specifications with the task set's current values; each task defined is the planned one, built with the composed block and registered |
| TaskSets.TaskSet.DefineEach | lib/rake_factory/task_set.rb:30-34 | the loop produces exactly the planned tasks, in order, and stops where the plan stops |
| TaskSets.TaskSet.DefineTask | lib/rake_factory/task_set.rb:30-34 | one more pass keeps the tasks defined so far in step with the plan of the prefix |
| TaskSets.TaskSet.DefineSpecification | lib/rake_factory/task_set.rb:110-115 | defines a fresh task exactly when the plan for the specification does, built and registered as planned |
| TaskSets.ResolvedOptions | lib/rake_factory/task_set.rb:63-75 | with no arguments the task gets the task set's values; a leading hash is merged over them with its own keys winning; a falsy first argument gives no options; any other first argument raises |
| TaskSets.SpecificationValueSeesTaskSet | lib/rake_factory/task_set.rb:79-83 | a plain value in the specification reaches the task unchanged; a two-parameter dynamic one is called with `(task_set, task)` |
| TaskSets.FalseGuardSkips | lib/rake_factory/task_set.rb:110-111 | a guard answering false adds no task and lets the loop go on |
| TaskSets.DefinedIffGuardPasses | lib/rake_factory/task_set.rb:123-129 | a task is defined exactly when there is no guard, or the guard called with the task set answers truthy, and the arguments can be read; it is skipped exactly when the guard answers falsy |
| TaskSets.DefinitionsStopAtFailure | lib/rake_factory/task_set.rb:28-37 | after a guard or constructor raises, later specifications are never looked at |
| TaskSets.EverySpecificationDefined | lib/rake_factory/task_set.rb:28-37 | when every guard passes and every argument list can be read, one task per specification is defined, in order, with its class, resolved arguments and block |
| TaskSets.TaskReadsSpecificationThenTaskSet | lib/rake_factory/task_set.rb:63-83 | a task reads the specification's value for a parameter when it gives one, and otherwise the task set's value, even a nil one over its own default |

## Left out

- Rake itself: `application.define_task`, `add_description`, the `creator` singleton and the `method_missing` delegation to the Rake task (task.rb:33-43, 51-72). They are replaced by the `Registration` record that `Task.DefineOn` stores.
- `invoke_actions` is not part of this model, and actions.rb only collects blocks. Running the actions is modelled as the `ranActions` flag of `Tasks.Task.Invoke`.
- definable.rb (`define` is `new` plus `define_on(Rake.application)`), namespaceable.rb and `around_define` (it only yields).
- dsl.rb and lib/rake_tasklib belong to an earlier revision that does not fit the current classes.
- kernel_extensions.rb only re-exports the value constructors. exceptions.rb only declares the error classes, modelled as `Error` constructors.
- `maybe_set_default_name` (defaults.rb:55-59) derives a name from the Ruby class name through ActiveSupport. Classes here have no Ruby name, so no default name is derived.
- The class-level `parameter_set` singleton defined on `ParameterView` (parameter_view.rb:14-18) is left out. A view holds its reader and writer name sets explicitly.
- Ruby metaprogramming (`define_method`, `send`, `respond_to?`, instance variables) is modelled by name sets and a map of slots.
- Arity is a natural number: negative arities (splat or optional parameters) are not modelled. Blocks are called with the first `arity` arguments, as procs are, except that the composed block is treated as the strict two-parameter lambda it is.
- `should_define?` (task_set.rb:125) calls the guard with the task set without slicing; the model passes the first `arity` of `[task_set]`, as a proc receives it. `get` (parameter.rb:71) calls the transform with the value as its one argument, as the model does. A strict lambda of another arity would raise `ArgumentError` in either place; that is not modelled.
- An Array given as the first constructor argument is not modelled (it has an `each` of its own). Any non-hash truthy first argument raises `NoMethodError` for `each`.
- A parameter named `configuration_block` is not modelled separately: its writer is the parameter's, and the block accessor is not also called.
- User code is pure: `host.call` and `host.effects` depend only on the callable and its arguments, not on the state at the time of the call.
- The assignments a configuration block makes are given by the host as a list. A write on a block parameter that was not passed changes nothing. Reads inside a block are not tracked.
- An entity keeps a snapshot of its class's parameter table, taken at construction. Parameters declared on the class later are not seen by existing objects.
- Task sets nested inside task sets are not run: a specification's class is a task class.
- Hash iteration order is not modelled. Writes to distinct keys commute, so the final state does not depend on it.
- `TaskSets.TaskSet.DefineOn` reads the task set's parameter values once for the whole loop. Ruby reads them once per specification; nothing in the loop changes them, so the result is the same.
- Option keys are strings. Ruby's symbol keys and `name.to_sym` in `find` are not distinguished from strings.
- With no task set, `TaskArguments#parameter_overrides` returns `{}` (task_set.rb:51-53). A task definition always has its task set here, so that branch is not modelled.
- The `name` transform of namespaceable.rb and the FileUtils helpers offered to actions are not modelled.
