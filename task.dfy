/** A task (lib/rake_factory/task.rb).

    Rake's task graph is not modelled: defining a task records what it
    would register, and invoking it runs the callback that `define_task`
    hands to Rake: configure, check requirements, then the actions. */
module Tasks {
  import opened Wrappers
  import opened Exceptions
  import opened Values
  import opened Parameters
  import opened ParameterSets
  import opened Entities
  import opened Views
  import opened Configuration
  import opened Defaults

  /** What `define_task` and `add_description` give Rake (task.rb:51-56, 64-66). */
  datatype Registration = Registration(
    name: Val,
    argumentNames: Val,
    prerequisites: Val,
    orderOnlyPrerequisites: Val,
    description: Val)

  class Task {
    const entity: Entity
    var registration: Option<Registration>

    ghost predicate Valid() {
      entity.Valid() && BuiltInNames <= NameSet(entity.parameters)
    }

    /** The entities the task's configuration can change: the task itself
        and, for a task defined by a task set, that task set. */
    ghost function Scope(): set<Entity>
      reads entity
    {
      match entity.configurationBlock
      case Some(Composed(ts, _)) => {entity, ts}
      case _ => {entity}
    }

    constructor (entity: Entity)
      ensures this.entity == entity && registration == None
    {
      this.entity := entity;
      registration := None;
    }

    /** `Klass.new(*args, &block)` for a task class. */
    static method New(klass: TaskClass, args: seq<Val>, block: Option<Block>) returns (t: Task, o: Outcome<Error>)
      requires klass.Valid()
      ensures fresh(t) && fresh(t.entity) && t.Valid() && t.registration == None
      ensures t.entity.parameters == klass.parameterSet.parameters
      ensures o.Pass? <==> Constructed(t.entity.parameters, args, block).Success?
      ensures o.Pass? ==> t.entity.State() == Constructed(t.entity.parameters, args, block).value
      ensures o.Fail? ==> o.error == Constructed(t.entity.parameters, args, block).error
    {
      var e;
      e, o := Entity.New(klass.parameterSet.parameters, args, block);
      t := new Task(e);
    }

    /** The reader of a built-in parameter, which every task has. */
    function BuiltIn(key: string, host: Host): Val
      requires Valid() && key in BuiltInNames
      reads entity
    {
      entity.Get(key, host).value
    }

    /** `define_on` (task.rb:23-31): registers `name` with its argument
        names, prerequisites and order-only prerequisites, then the
        description, each read from its parameter now. */
    method DefineOn(host: Host)
      requires Valid()
      modifies this
      ensures registration == Some(Registration(
        BuiltIn(NameKey, host), BuiltIn(ArgumentNamesKey, host), BuiltIn(PrerequisitesKey, host),
        BuiltIn(OrderOnlyPrerequisitesKey, host), BuiltIn(DescriptionKey, host)))
    {
      var name := entity.Get(NameKey, host).value;
      var argumentNames := entity.Get(ArgumentNamesKey, host).value;
      var prerequisites := entity.Get(PrerequisitesKey, host).value;
      var orderOnly := entity.Get(OrderOnlyPrerequisitesKey, host).value;
      var description := entity.Get(DescriptionKey, host).value;
      registration := Some(Registration(name, argumentNames, prerequisites, orderOnly, description));
    }

    /** `parameter_view` (task.rb:47-49): reads and writes of the task's own class. */
    method ParameterViewFor(args: Val) returns (v: ParameterView)
      requires Valid()
      ensures fresh(v) && v.Valid() && v.Root() == entity
      ensures v.target == ToEntity(entity) && v.runtimeArguments == args
      ensures v.readers == NameSet(entity.parameters) && v.writers == ConfigurableNames(entity.parameters)
    {
      v := new ParameterView(ToEntity(entity), entity.parameters, entity.parameters, args);
    }

    /** The callback Rake runs on invocation (task.rb:57-61): the stored
        block runs on a fresh view of the task, then every required
        parameter is checked, and only then do the actions run. */
    method Invoke(args: Val, host: Host) returns (o: Outcome<Error>, ranActions: bool, ghost view: ParameterView, ghost outer: Val)
      requires Valid()
      modifies Scope()
      ensures view.Valid() && view.Root() == entity && view.target == ToEntity(entity) && view.runtimeArguments == args
      ensures view.readers == NameSet(entity.parameters) && view.writers == ConfigurableNames(entity.parameters)
      ensures var r := Configure(old(entity.configurationBlock), view, outer, args, host, old(WorldOf(Scope())));
        && WorldOf(old(Scope())) == r.world
        && (r.outcome.Fail? ==> o == r.outcome && !ranActions)
        && (r.outcome.Pass? ==> o == entity.CheckParameterRequirements(host))
      ensures ranActions <==> o.Pass?
      ensures ranActions ==> forall p :: p in entity.parameters && p.required ==> entity.Get(p.name, host) != Success(Nil)
    {
      ghost var scope := Scope();
      ghost var before := WorldOf(scope);
      var v := ParameterViewFor(args);
      view := v;
      assert WorldOf(scope) == before;
      o, outer := InvokeConfigurationBlockOn(entity, v, args, host, scope);
      ghost var r := Configure(old(entity.configurationBlock), view, outer, args, host, before);
      assert Run(o, WorldOf(scope)) == r;
      if o.Fail? {
        return o, false, view, outer;
      }
      o := entity.CheckParameterRequirements(host);
      ranActions := o.Pass?;
    }
  }

  // ---------------------------------------------------------------------
  // Properties

  /** The registered name is a symbol: a `name:` option given as a string
      is read back as the symbol, and so is a string given to `default_name`
      when no option names the task (defaults.rb:30-32, 84-88). */
  lemma NameReadAsSymbol(ps: seq<Parameter>, s: string, block: Option<Block>, self: Val, host: Host)
    requires UniqueNames(ps) && NameKey in NameSet(ps) && Find(ps, NameKey).value.transform == ToSymbol
    ensures var st := Constructed(ps, [Hash(map[NameKey := Str(s)])], block).value;
      Get(Find(ps, NameKey).value, Slot(st.slots, NameKey), self, host) == Sym(s)
    ensures var ds := WithDefault(ps, NameKey, Str(s));
      && Find(ds, NameKey).Some?
      && Get(Find(ds, NameKey).value, Slot(Constructed(ds, [], block).value.slots, NameKey), self, host) == Sym(s)
  {
    var p := Find(ps, NameKey).value;
    OptionBeatsDefault(ps, map[NameKey := Str(s)], block, p);
    WithDefaultChangesOnlyNamed(ps, NameKey, Str(s));
    var ds := WithDefault(ps, NameKey, Str(s));
    var q := Find(ds, NameKey).value;
    var i :| 0 <= i < |ds| && ds[i] == q;
    WithDefaultsHoldsDefault(ds, map[], i);
    NoArgumentsGiveDefaults(ds, block);
  }
}
