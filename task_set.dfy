/** A task set (lib/rake_factory/task_set.rb): a configurable object whose
    class lists task specifications, and which defines one task per
    specification, passing its own parameter values down to each. */
module TaskSets {
  import opened Wrappers
  import opened Exceptions
  import opened Values
  import opened Parameters
  import opened ParameterSets
  import opened Entities
  import opened Defaults
  import opened Tasks

  /** The option that guards a specification. */
  const DefineIfKey := "define_if"

  /** `task klass, *args, &block` in a task set's class body (task_set.rb:23-25, 86-93). */
  datatype TaskSpecification = TaskSpecification(klass: TaskClass, args: seq<Val>, block: Option<Callable>)

  /** A task the set defines: its class, the arguments it is built with and
      the specification's block, which the composed configuration block
      runs first. */
  datatype Definition = Definition(klass: TaskClass, args: seq<Val>, block: Option<Callable>)

  /** The tasks defined so far and how the definition loop ended. */
  datatype Plan = Plan(outcome: Outcome<Error>, defined: seq<Definition>)

  /** `parameter_hash` (task_set.rb:55-61): the specification's leading hash, if any. */
  function ParameterHash(args: seq<Val>): (h: map<string, Val>)
    ensures args != [] && args[0].Hash? ==> h == args[0].entries
    ensures !(args != [] && args[0].Hash?) ==> h == map[]
  {
    if args != [] && args[0].Hash? then args[0].entries else map[]
  }

  /** `process_parameter_hash` (task_set.rb:79-83): every value as a value
      object that receives the task set ahead of its context. */
  function ProcessParameterHash(h: map<string, Val>, taskSet: Val): (r: map<string, Val>)
    ensures r.Keys == h.Keys
  {
    map k | k in h :: Lazy(Prepend(Resolve(h[k]), taskSet))
  }

  /** `resolve` (task_set.rb:63-75): no arguments become the task set's
      values; a leading hash is merged over them (its keys win); anything
      else is passed on unchanged. */
  function ResolveArguments(args: seq<Val>, overrides: map<string, Val>, taskSet: Val): (r: seq<Val>)
    ensures |r| == if args == [] then 1 else |args|
    ensures args != [] ==> r[1..] == args[1..]
  {
    if args == [] then [Hash(overrides)]
    else if args[0].Hash? then [Hash(overrides + ProcessParameterHash(args[0].entries, taskSet))] + args[1..]
    else args
  }

  /** `should_define?` (task_set.rb:123-129): the `define_if` option is
      called with the task set; without it the task is always defined. */
  function ShouldDefine(args: seq<Val>, taskSet: Val, host: Host): (r: Result<bool, Error>)
    ensures DefineIfKey !in ParameterHash(args) ==> r == Success(true)
    ensures r.Failure? ==> r.error == NoMethodError("call")
  {
    var h := ParameterHash(args);
    if DefineIfKey !in h then Success(true)
    else
      match h[DefineIfKey]
      case Proc(c) => Success(Truthy(host.call(c, Take([taskSet], c.arity))))
      case _ => Failure(NoMethodError("call"))
  }

  /** `TaskDefinition#define_on` (task_set.rb:110-115) for one
      specification: nothing when the guard answers false, otherwise the
      task built from the resolved arguments; a guard or constructor that
      raises gives its error. */
  function DefinitionOf(s: TaskSpecification, taskSet: Val, overrides: map<string, Val>, host: Host): (r: Result<Option<Definition>, Error>)
    ensures r.Success? && r.value.Some? ==>
      r.value.value == Definition(s.klass, ResolveArguments(s.args, overrides, taskSet), s.block)
  {
    match ShouldDefine(s.args, taskSet, host)
    case Failure(e) => Failure(e)
    case Success(define) =>
      if !define then Success(None)
      else
        var resolved := ResolveArguments(s.args, overrides, taskSet);
        match OptionsOf(resolved)
        case Failure(e) => Failure(e)
        case Success(_) => Success(Some(Definition(s.klass, resolved, s.block)))
  }

  /** The definition loop of `define_on` (task_set.rb:28-37) over the
      specifications in order; it stops at the first one that raises. */
  function Definitions(specs: seq<TaskSpecification>, taskSet: Val, overrides: map<string, Val>, host: Host): (r: Plan)
    ensures |r.defined| <= |specs|
    decreases |specs|
  {
    if specs == [] then Plan(Pass, [])
    else
      var before := Definitions(specs[..|specs| - 1], taskSet, overrides, host);
      if before.outcome.Fail? then before
      else
        match DefinitionOf(specs[|specs| - 1], taskSet, overrides, host)
        case Failure(e) => Plan(Fail(e), before.defined)
        case Success(None) => before
        case Success(Some(d)) => Plan(Pass, before.defined + [d])
  }

  /** One more specification after a loop that has not raised. */
  lemma DefinitionsSnoc(specs: seq<TaskSpecification>, i: nat, taskSet: Val, overrides: map<string, Val>, host: Host)
    requires i < |specs| && Definitions(specs[..i], taskSet, overrides, host).outcome.Pass?
    ensures var r := DefinitionOf(specs[i], taskSet, overrides, host);
      var before := Definitions(specs[..i], taskSet, overrides, host);
      var after := Definitions(specs[..i + 1], taskSet, overrides, host);
      && (r.Failure? ==> after == Plan(Fail(r.error), before.defined))
      && (r == Success(None) ==> after == before)
      && (r.Success? && r.value.Some? ==> after == Plan(Pass, before.defined + [r.value.value]))
  {
    assert specs[..i + 1][..i] == specs[..i];
  }

  /** The class side of a task set: its parameter set and its specifications. */
  class TaskSetClass {
    const parameterSet: ParameterSet
    var tasks: seq<TaskSpecification>

    ghost predicate Valid()
      reads this, parameterSet
    {
      parameterSet.Valid()
    }

    /** A fresh subclass: no parameters, no specifications. */
    constructor ()
      ensures Valid() && fresh(parameterSet)
      ensures parameterSet.parameters == [] && tasks == []
    {
      parameterSet := new ParameterSet();
      tasks := [];
    }

    /** The class method `parameter` (parameters.rb:34-37). */
    method Parameter(name: string, options: Options) returns (p: Parameter)
      requires Valid()
      modifies parameterSet
      ensures Valid()
      ensures p == NewParameter(name, options)
      ensures parameterSet.parameters == AddTo(old(parameterSet.parameters), p)
      ensures Find(parameterSet.parameters, name) == Some(p)
    {
      p := parameterSet.Add(name, options);
    }

    /** The class method `task` (task_set.rb:23-25): appends a specification. */
    method Task(klass: TaskClass, args: seq<Val>, block: Option<Callable>)
      modifies this
      ensures tasks == old(tasks) + [TaskSpecification(klass, args, block)]
    {
      tasks := tasks + [TaskSpecification(klass, args, block)];
    }
  }

  /** Task `t` is what definition `d` of task set `ts` builds from its
      class's parameters, and it is registered. */
  ghost predicate Built(t: Task, d: Definition, ts: Entity, host: Host)
    reads t, t.entity
  {
    && t.Valid()
    && Constructed(t.entity.parameters, d.args, Some(Composed(ts, d.block))) == Success(t.entity.State())
    && t.registration == Some(Registration(
         t.BuiltIn(NameKey, host), t.BuiltIn(ArgumentNamesKey, host), t.BuiltIn(PrerequisitesKey, host),
         t.BuiltIn(OrderOnlyPrerequisitesKey, host), t.BuiltIn(DescriptionKey, host)))
  }

  /** Each task is what the definition at the same position builds. */
  ghost predicate AllBuilt(tasks: seq<Task>, ds: seq<Definition>, ts: Entity, host: Host)
    reads set t | t in tasks, set t | t in tasks :: t.entity
  {
    |tasks| == |ds| && forall j :: 0 <= j < |tasks| ==> Built(tasks[j], ds[j], ts, host)
  }

  lemma AllBuiltSnoc(tasks: seq<Task>, ds: seq<Definition>, t: Task, d: Definition, ts: Entity, host: Host)
    requires AllBuilt(tasks, ds, ts, host) && Built(t, d, ts, host)
    ensures AllBuilt(tasks + [t], ds + [d], ts, host)
  {
  }

  /** Each task has the parameter table of its definition's class. */
  ghost predicate OfClasses(tasks: seq<Task>, ds: seq<Definition>)
    reads set d | d in ds :: d.klass.parameterSet
  {
    |tasks| == |ds| && forall j :: 0 <= j < |tasks| ==> tasks[j].entity.parameters == ds[j].klass.parameterSet.parameters
  }

  lemma OfClassesSnoc(tasks: seq<Task>, ds: seq<Definition>, t: Task, d: Definition)
    requires OfClasses(tasks, ds) && t.entity.parameters == d.klass.parameterSet.parameters
    ensures OfClasses(tasks + [t], ds + [d])
  {
  }

  class TaskSet {
    const klass: TaskSetClass
    const entity: Entity

    ghost predicate Valid()
      reads this, klass, klass.parameterSet
    {
      klass.Valid() && entity.Valid() && entity.parameters == klass.parameterSet.parameters
    }

    constructor (klass: TaskSetClass, entity: Entity)
      ensures this.klass == klass && this.entity == entity
    {
      this.klass := klass;
      this.entity := entity;
    }

    /** `Klass.new(*args, &block)` for a task set class. */
    static method New(klass: TaskSetClass, args: seq<Val>, block: Option<Block>) returns (ts: TaskSet, o: Outcome<Error>)
      requires klass.Valid()
      ensures fresh(ts) && fresh(ts.entity) && ts.Valid() && ts.klass == klass
      ensures o.Pass? <==> Constructed(ts.entity.parameters, args, block).Success?
      ensures o.Pass? ==> ts.entity.State() == Constructed(ts.entity.parameters, args, block).value
      ensures o.Fail? ==> o.error == Constructed(ts.entity.parameters, args, block).error
    {
      var e;
      e, o := Entity.New(klass.parameterSet.parameters, args, block);
      ts := new TaskSet(klass, e);
    }

    /** `define_on` (task_set.rb:28-37): each specification, in order, is
        turned into a task built with the resolved arguments and the composed
        block, which is then defined. */
    method DefineOn(host: Host) returns (o: Outcome<Error>, defined: seq<Task>)
      requires Valid() && forall s :: s in klass.tasks ==> s.klass.Valid()
      ensures var plan := Definitions(klass.tasks, entity.Self(), entity.ParameterValues(host), host);
        && o == plan.outcome
        && AllBuilt(defined, plan.defined, entity, host)
        && OfClasses(defined, plan.defined)
    {
      var overrides := entity.ParameterValues(host);
      o, defined := DefineEach(klass.tasks, overrides, host);
    }

    /** The loop of `define_on` over the specifications, with the task set's
        parameter values read once: nothing it does changes them. */
    method DefineEach(specs: seq<TaskSpecification>, overrides: map<string, Val>, host: Host) returns (o: Outcome<Error>, defined: seq<Task>)
      requires entity.Valid() && forall s :: s in specs ==> s.klass.Valid()
      ensures var plan := Definitions(specs, entity.Self(), overrides, host);
        && o == plan.outcome
        && AllBuilt(defined, plan.defined, entity, host)
        && OfClasses(defined, plan.defined)
    {
      ghost var plan := Plan(Pass, []);
      o := Pass;
      defined := [];
      var i := 0;
      while i < |specs|
        invariant 0 <= i <= |specs|
        invariant plan == Definitions(specs[..i], entity.Self(), overrides, host)
        invariant o == plan.outcome == Pass
        invariant AllBuilt(defined, plan.defined, entity, host)
        invariant OfClasses(defined, plan.defined)
      {
        o, defined, plan := DefineTask(specs, i, overrides, host, defined, plan);
        if o.Fail? {
          StoppedAt(specs, i + 1, entity.Self(), overrides, host);
          return;
        }
        i := i + 1;
      }
      assert specs[..i] == specs;
    }

    /** The `i`-th pass of the loop, after the tasks `defined` of the
        specifications before it. */
    method DefineTask(specs: seq<TaskSpecification>, i: nat, overrides: map<string, Val>, host: Host, defined: seq<Task>, ghost before: Plan)
      returns (o: Outcome<Error>, defined': seq<Task>, ghost after: Plan)
      requires entity.Valid() && i < |specs| && specs[i].klass.Valid()
      requires before == Definitions(specs[..i], entity.Self(), overrides, host) && before.outcome.Pass?
      requires AllBuilt(defined, before.defined, entity, host) && OfClasses(defined, before.defined)
      ensures after == Definitions(specs[..i + 1], entity.Self(), overrides, host) && o == after.outcome
      ensures AllBuilt(defined', after.defined, entity, host) && OfClasses(defined', after.defined)
    {
      DefinitionsSnoc(specs, i, entity.Self(), overrides, host);
      ghost var step := DefinitionOf(specs[i], entity.Self(), overrides, host);
      var t;
      o, t := DefineSpecification(specs[i], overrides, host);
      if o.Fail? {
        return o, defined, Plan(o, before.defined);
      }
      if t.None? {
        return o, defined, before;
      }
      AllBuiltSnoc(defined, before.defined, t.value, step.value.value, entity, host);
      OfClassesSnoc(defined, before.defined, t.value, step.value.value);
      defined', after := defined + [t.value], Plan(Pass, before.defined + [step.value.value]);
    }

    /** `TaskDefinition#define_on` (task_set.rb:110-115) for one
        specification: the task it defines, if any. */
    method DefineSpecification(s: TaskSpecification, overrides: map<string, Val>, host: Host) returns (o: Outcome<Error>, t: Option<Task>)
      requires entity.Valid() && s.klass.Valid()
      ensures var r := DefinitionOf(s, entity.Self(), overrides, host);
        && (o.Pass? <==> r.Success?)
        && (o.Fail? ==> o.error == r.error)
        && (o.Pass? ==> (t.Some? <==> r.value.Some?))
        && (o.Pass? && t.Some? ==> fresh(t.value) && Built(t.value, r.value.value, entity, host))
        && (o.Pass? && t.Some? ==> t.value.entity.parameters == s.klass.parameterSet.parameters)
    {
      t := None;
      var define := ShouldDefine(s.args, entity.Self(), host);
      if define.Failure? {
        return Fail(define.error), t;
      }
      if !define.value {
        return Pass, t;
      }
      var resolved := ResolveArguments(s.args, overrides, entity.Self());
      var task, built := Task.New(s.klass, resolved, Some(Composed(entity, s.block)));
      if built.Fail? {
        return built, t;
      }
      task.DefineOn(host);
      o, t := Pass, Some(task);
    }
  }

  // ---------------------------------------------------------------------
  // Properties

  /** The options a task of the set receives: with no arguments, exactly the
      task set's values; with a leading hash, its entries (as value objects
      receiving the task set) over the task set's values; a falsy first
      argument gives none at all, and any other first argument raises. */
  lemma ResolvedOptions(args: seq<Val>, overrides: map<string, Val>, taskSet: Val)
    ensures args == [] ==> OptionsOf(ResolveArguments(args, overrides, taskSet)) == Success(overrides)
    ensures args != [] && args[0].Hash? ==>
      var opts := OptionsOf(ResolveArguments(args, overrides, taskSet));
      && opts.Success?
      && opts.value.Keys == overrides.Keys + args[0].entries.Keys
      && (forall k :: k in args[0].entries ==> opts.value[k] == Lazy(Prepend(Resolve(args[0].entries[k]), taskSet)))
      && (forall k :: k in overrides && k !in args[0].entries ==> opts.value[k] == overrides[k])
    ensures args != [] && !args[0].Hash? && !Truthy(args[0]) ==>
      OptionsOf(ResolveArguments(args, overrides, taskSet)) == Success(map[])
    ensures args != [] && !args[0].Hash? && Truthy(args[0]) ==>
      OptionsOf(ResolveArguments(args, overrides, taskSet)) == Failure(NoMethodError("each"))
  {
  }

  /** A plain value given in a specification reaches the task unchanged, and
      a dynamic one is evaluated with the task set ahead of the task. */
  lemma SpecificationValueSeesTaskSet(v: Val, taskSet: Val, task: Val, host: Host)
    ensures !v.Lazy? ==> Evaluate(Resolve(Lazy(Prepend(Resolve(v), taskSet))), [task], host) == v
    ensures v.Lazy? && v.value.Dynamic? && v.value.pre == [] && v.value.post == [] && v.value.block.arity == 2 ==>
      Evaluate(Resolve(Lazy(Prepend(Resolve(v), taskSet))), [task], host) == host.call(v.value.block, [taskSet, task])
  {
    if v.Lazy? && v.value.Dynamic? && v.value.pre == [] && v.value.post == [] && v.value.block.arity == 2 {
      var x := Prepend(v.value, taskSet);
      assert x.pre + [task] + x.post == [taskSet, task];
    }
  }

  /** A specification whose guard answers false adds nothing and leaves the
      loop running. */
  lemma {:induction false} FalseGuardSkips(specs: seq<TaskSpecification>, s: TaskSpecification, taskSet: Val, overrides: map<string, Val>, host: Host)
    requires ShouldDefine(s.args, taskSet, host) == Success(false)
    ensures Definitions(specs + [s], taskSet, overrides, host) == Definitions(specs, taskSet, overrides, host)
  {
    assert (specs + [s])[..|specs|] == specs;
  }

  /** A specification yields a task exactly when it has no `define_if`
      option, or its `define_if` is a proc that answers truthy when called
      with the task set, and its resolved arguments can be read as options;
      it is skipped exactly when that proc answers falsy. */
  lemma DefinedIffGuardPasses(s: TaskSpecification, taskSet: Val, overrides: map<string, Val>, host: Host)
    ensures var h := ParameterHash(s.args);
      var r := DefinitionOf(s, taskSet, overrides, host);
      && ((r.Success? && r.value.Some?) <==>
            (DefineIfKey !in h || (h[DefineIfKey].Proc? && Truthy(host.call(h[DefineIfKey].callable, Take([taskSet], h[DefineIfKey].callable.arity)))))
            && OptionsOf(ResolveArguments(s.args, overrides, taskSet)).Success?)
      && (r == Success(None) <==>
            DefineIfKey in h && h[DefineIfKey].Proc? && !Truthy(host.call(h[DefineIfKey].callable, Take([taskSet], h[DefineIfKey].callable.arity))))
  {
  }

  /** Once a guard or a constructor raised, later specifications are never
      looked at. */
  lemma {:induction false} DefinitionsStopAtFailure(specs: seq<TaskSpecification>, more: seq<TaskSpecification>, taskSet: Val, overrides: map<string, Val>, host: Host)
    requires Definitions(specs, taskSet, overrides, host).outcome.Fail?
    ensures Definitions(specs + more, taskSet, overrides, host) == Definitions(specs, taskSet, overrides, host)
    decreases |more|
  {
    if more == [] {
      assert specs + more == specs;
    } else {
      var init := more[..|more| - 1];
      DefinitionsStopAtFailure(specs, init, taskSet, overrides, host);
      assert (specs + more)[..|specs + more| - 1] == specs + init;
    }
  }

  /** The loop's plan is the plan of the prefix it stopped after. */
  lemma StoppedAt(specs: seq<TaskSpecification>, n: nat, taskSet: Val, overrides: map<string, Val>, host: Host)
    requires n <= |specs| && Definitions(specs[..n], taskSet, overrides, host).outcome.Fail?
    ensures Definitions(specs, taskSet, overrides, host) == Definitions(specs[..n], taskSet, overrides, host)
  {
    assert specs[..n] + specs[n..] == specs;
    DefinitionsStopAtFailure(specs[..n], specs[n..], taskSet, overrides, host);
  }

  /** When every guard passes and every specification's arguments can be
      read as options, one task is defined per specification, in order, each
      with its specification's class and block. */
  lemma {:induction false} EverySpecificationDefined(specs: seq<TaskSpecification>, taskSet: Val, overrides: map<string, Val>, host: Host)
    requires forall i :: 0 <= i < |specs| ==> ShouldDefine(specs[i].args, taskSet, host) == Success(true)
    requires forall i :: 0 <= i < |specs| ==> OptionsOf(ResolveArguments(specs[i].args, overrides, taskSet)).Success?
    ensures var plan := Definitions(specs, taskSet, overrides, host);
      && plan.outcome.Pass? && |plan.defined| == |specs|
      && forall i :: 0 <= i < |specs| ==>
           plan.defined[i] == Definition(specs[i].klass, ResolveArguments(specs[i].args, overrides, taskSet), specs[i].block)
    decreases |specs|
  {
    if specs != [] {
      var init := specs[..|specs| - 1];
      EverySpecificationDefined(init, taskSet, overrides, host);
    }
  }

  /** End to end: the value a task of the set reads for parameter `p`
      (identity transform) is the specification's value when it names `p`,
      and otherwise the task set's value of the same name, even a nil one
      over the task's own default. */
  lemma TaskReadsSpecificationThenTaskSet(ps: seq<Parameter>, p: Parameter, args: seq<Val>, overrides: map<string, Val>, ts: Entity, block: Option<Callable>, task: Val, host: Host)
    requires UniqueNames(ps) && p in ps && p.transform == Identity
    requires args != [] && args[0].Hash?
    ensures var st := Constructed(ps, ResolveArguments(args, overrides, ts.Self()), Some(Composed(ts, block))).value;
      && (p.name in args[0].entries && !args[0].entries[p.name].Lazy? ==>
            Get(p, Slot(st.slots, p.name), task, host) == args[0].entries[p.name])
      && (p.name !in args[0].entries && p.name in overrides && !overrides[p.name].Lazy? ==>
            Get(p, Slot(st.slots, p.name), task, host) == overrides[p.name])
  {
    var opts := overrides + ProcessParameterHash(args[0].entries, ts.Self());
    assert ResolveArguments(args, overrides, ts.Self())[0] == Hash(opts);
    OptionBeatsDefault(ps, opts, Some(Composed(ts, block)), p);
    ResolvedOptions(args, overrides, ts.Self());
    SpecificationValueSeesTaskSet(if p.name in args[0].entries then args[0].entries[p.name] else Nil, ts.Self(), task, host);
  }
}
