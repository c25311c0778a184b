/** An object carrying parameters: what the `Parameters`, `Configurable` and
    `Arguments` mixins give a task or a task set
    (lib/rake_factory/parameters.rb, configurable.rb, arguments.rb).

    Each declared parameter's instance variable is an entry of `slots`; the
    readers and writers Ruby defines on the class are `Get` and `Assign`.
    Besides the parameter writers, the `configuration_block=` accessor is a
    public writer too, so an option key of that name replaces the block. */
module Entities {
  import opened Wrappers
  import opened Exceptions
  import opened Values
  import opened Parameters
  import opened ParameterSets

  /** The name of the accessor `Configurable` adds next to the parameter writers. */
  const ConfigurationBlockKey := "configuration_block"

  /** A stored configuration block: one given by the user (`&block` or an
      assignment to `configuration_block`), or the lambda a task set builds
      around a specification's block (task_set.rb:135-140). */
  datatype Block =
    | Given(proc: Val)
    | Composed(taskSet: Entity, block: Option<Callable>)

  /** The mutable part of an entity. */
  datatype EntityState = EntityState(slots: map<string, Val>, block: Option<Block>)

  /** `respond_to?("#{name}=")`: a parameter writer or the block accessor. */
  predicate Responds(ps: seq<Parameter>, name: string) {
    name in NameSet(ps) || name == ConfigurationBlockKey
  }

  /** The state after the public writer `name=` stored `v`; with no such writer
      nothing changes. A parameter writer stores `v` verbatim (`set`,
      parameter.rb:64-66). */
  function Assigned(ps: seq<Parameter>, st: EntityState, name: string, v: Val): (r: EntityState)
    ensures !Responds(ps, name) ==> r == st
    ensures name in NameSet(ps) ==> name in r.slots && r.slots[name] == v && r.block == st.block
    ensures name !in NameSet(ps) ==> r.slots == st.slots
    ensures name in NameSet(ps) ==> r.slots == st.slots[name := v]
    ensures name !in NameSet(ps) && name == ConfigurationBlockKey ==> r.block == Some(Given(v))
  {
    if name in NameSet(ps) then st.(slots := st.slots[name := v])
    else if name == ConfigurationBlockKey then st.(block := Some(Given(v)))
    else st
  }

  /** The entries of `opts` whose keys are in `keys`. */
  function Restrict(opts: map<string, Val>, keys: set<string>): (r: map<string, Val>)
    ensures r.Keys == opts.Keys * keys
    ensures forall k :: k in r ==> r[k] == opts[k]
  {
    map k | k in opts && k in keys :: opts[k]
  }

  /** The state after every key of the option hash that names a writer was
      written (`process_arguments`, arguments.rb:11-20); other keys are ignored. */
  function WithOptions(ps: seq<Parameter>, st: EntityState, opts: map<string, Val>): (r: EntityState)
    ensures r.slots.Keys == st.slots.Keys + opts.Keys * NameSet(ps)
    ensures forall k :: k in opts && k in NameSet(ps) ==> r.slots[k] == opts[k]
    ensures forall k :: k in st.slots && k !in opts ==> r.slots[k] == st.slots[k]
    ensures ConfigurationBlockKey in opts && ConfigurationBlockKey !in NameSet(ps) ==>
      r.block == Some(Given(opts[ConfigurationBlockKey]))
    ensures ConfigurationBlockKey !in opts ==> r.block == st.block
  {
    EntityState(
      st.slots + Restrict(opts, NameSet(ps)),
      if ConfigurationBlockKey in opts && ConfigurationBlockKey !in NameSet(ps)
      then Some(Given(opts[ConfigurationBlockKey]))
      else st.block)
  }

  /** `args.first || {}` followed by `each`: an absent or falsy first argument
      gives no options, a hash gives its entries, and anything else has no
      `each` to call. */
  function OptionsOf(args: seq<Val>): (r: Result<map<string, Val>, Error>)
    ensures (args == [] || !Truthy(args[0])) ==> r == Success(map[])
    ensures args != [] && args[0].Hash? ==> r == Success(args[0].entries)
    ensures r.Failure? <==> args != [] && Truthy(args[0]) && !args[0].Hash?
  {
    if args == [] || !Truthy(args[0]) then Success(map[])
    else
      match args[0]
      case Hash(m) => Success(m)
      case _ => Failure(NoMethodError("each"))
  }

  /** The state once the superclass initializers ran: defaults applied to a
      fresh object, then the block stored when there is one. */
  function Initial(ps: seq<Parameter>, block: Option<Block>): EntityState {
    EntityState(WithDefaults(ps, map[]), block)
  }

  /** The whole initializer chain (parameters.rb:11-15, configurable.rb:11-15,
      arguments.rb:5-9): defaults, then the block, then the option overrides. */
  function Constructed(ps: seq<Parameter>, args: seq<Val>, block: Option<Block>): (r: Result<EntityState, Error>)
    ensures r.Success? <==> OptionsOf(args).Success?
    ensures r.Failure? ==> r.error == OptionsOf(args).error
    ensures r.Success? ==> r.value.slots.Keys <= NameSet(ps)
    ensures r.Success? ==> forall k :: k in OptionsOf(args).value && k in NameSet(ps) ==>
      k in r.value.slots && r.value.slots[k] == OptionsOf(args).value[k]
  {
    match OptionsOf(args)
    case Success(opts) => Success(WithOptions(ps, Initial(ps, block), opts))
    case Failure(e) => Failure(e)
  }

  class Entity {
    /** The parameter table of the entity's class. */
    const parameters: seq<Parameter>
    var slots: map<string, Val>
    var configurationBlock: Option<Block>

    ghost predicate Valid() {
      UniqueNames(parameters)
    }

    function State(): EntityState
      reads this
    {
      EntityState(slots, configurationBlock)
    }

    /** The entity as a Ruby object, the context of its dynamic values. */
    function Self(): Val {
      Obj(this)
    }

    /** A freshly allocated object: no instance variable set, no block. */
    constructor (parameters: seq<Parameter>)
      requires UniqueNames(parameters)
      ensures Valid() && this.parameters == parameters
      ensures slots == map[] && configurationBlock == None
    {
      this.parameters := parameters;
      slots := map[];
      configurationBlock := None;
    }

    /** `Klass.new(*args, &block)`: the initializer chain on a fresh object. */
    static method New(parameters: seq<Parameter>, args: seq<Val>, block: Option<Block>) returns (e: Entity, o: Outcome<Error>)
      requires UniqueNames(parameters)
      ensures fresh(e) && e.Valid() && e.parameters == parameters
      ensures o.Pass? <==> Constructed(parameters, args, block).Success?
      ensures o.Pass? ==> e.State() == Constructed(parameters, args, block).value
      ensures o.Fail? ==> o.error == Constructed(parameters, args, block).error
    {
      e := new Entity(parameters);
      e.SetupParameterDefaults();
      e.ProcessConfigurationBlock(block);
      o := e.ProcessArguments(args);
    }

    /** `setup_parameter_defaults` (parameters.rb:21-23) through
        `apply_defaults_to` (parameter_set.rb:30-34): each parameter in turn
        writes its non-nil default. */
    method SetupParameterDefaults()
      modifies this
      ensures slots == WithDefaults(parameters, old(slots))
      ensures configurationBlock == old(configurationBlock)
    {
      var i := 0;
      while i < |parameters|
        invariant 0 <= i <= |parameters|
        invariant slots == WithDefaults(parameters[..i], old(slots))
        invariant configurationBlock == old(configurationBlock)
      {
        assert parameters[..i + 1][..i] == parameters[..i];
        var p := parameters[i];
        if p.default != Nil {
          slots := slots[p.name := p.default];
        }
        i := i + 1;
      }
      assert parameters[..i] == parameters;
    }

    /** `process_configuration_block` (configurable.rb:17-19, 32-34): the
        block is stored only when one was given. */
    method ProcessConfigurationBlock(block: Option<Block>)
      modifies this
      ensures configurationBlock == if block.Some? then block else old(configurationBlock)
      ensures slots == old(slots)
    {
      if block.Some? {
        configurationBlock := block;
      }
    }

    /** Calling the public writer `name=` directly: a parameter writer, the
        block accessor, or `NoMethodError`. */
    method Assign(name: string, v: Val) returns (o: Outcome<Error>)
      modifies this
      ensures o.Pass? <==> Responds(parameters, name)
      ensures o.Fail? ==> o.error == NoMethodError(name + "=")
      ensures State() == Assigned(parameters, old(State()), name, v)
    {
      if name in NameSet(parameters) {
        slots := slots[name := v];
        o := Pass;
      } else if name == ConfigurationBlockKey {
        configurationBlock := Some(Given(v));
        o := Pass;
      } else {
        o := Fail(NoMethodError(name + "="));
      }
    }

    /** `set_if_parameter` (arguments.rb:18-20): write only when the writer exists. */
    method SetIfWriter(name: string, v: Val)
      modifies this
      ensures State() == Assigned(parameters, old(State()), name, v)
    {
      if Responds(parameters, name) {
        var _ := Assign(name, v);
      }
    }

    /** `process_arguments` (arguments.rb:11-14). Ruby visits the keys in
        insertion order; writes to distinct keys commute, so any order gives
        the same state. */
    method ProcessArguments(args: seq<Val>) returns (o: Outcome<Error>)
      modifies this
      ensures OptionsOf(args).Failure? ==> o == Fail(OptionsOf(args).error) && State() == old(State())
      ensures OptionsOf(args).Success? ==> o.Pass? && State() == WithOptions(parameters, old(State()), OptionsOf(args).value)
    {
      var opts: map<string, Val>;
      if args == [] || !Truthy(args[0]) {
        opts := map[];
      } else if args[0].Hash? {
        opts := args[0].entries;
      } else {
        return Fail(NoMethodError("each"));
      }
      SetEachIfWriter(opts);
      o := Pass;
    }

    /** `opts.each { |key, value| set_if_parameter(key, value) }` (arguments.rb:13). */
    method SetEachIfWriter(opts: map<string, Val>)
      modifies this
      ensures State() == WithOptions(parameters, old(State()), opts)
    {
      ghost var start := State();
      var remaining := opts.Keys;
      NoOptionsWritten(parameters, start, opts);
      while remaining != {}
        invariant remaining <= opts.Keys
        invariant State() == WithOptions(parameters, start, Restrict(opts, opts.Keys - remaining))
        decreases |remaining|
      {
        var k :| k in remaining;
        OptionStep(parameters, start, opts, opts.Keys - remaining, k);
        assert opts.Keys - (remaining - {k}) == (opts.Keys - remaining) + {k};
        SetIfWriter(k, opts[k]);
        remaining := remaining - {k};
      }
      assert Restrict(opts, opts.Keys - remaining) == opts;
    }

    /** A parameter's reader (parameter.rb:38-40, 68-72); an undeclared name
        has no reader. */
    function Get(name: string, host: Host): (r: Result<Val, Error>)
      reads this
      ensures r.Failure? <==> name !in NameSet(parameters)
      ensures r.Failure? ==> r.error == NoMethodError(name)
    {
      if name in NameSet(parameters) then
        Success(Parameters.Get(Find(parameters, name).value, Slot(slots, name), Self(), host))
      else Failure(NoMethodError(name))
    }

    /** `parameter_values` (parameters.rb:17-19): one entry per parameter,
        holding what its reader returns now. */
    function ParameterValues(host: Host): (r: map<string, Val>)
      requires Valid()
      reads this
      ensures r.Keys == NameSet(parameters)
      ensures forall p :: p in parameters ==> r[p.name] == Get(p.name, host).value
    {
      SnapshotReadsEach(parameters, slots, Self(), host);
      forall p | p in parameters ensures Find(parameters, p.name) == Some(p) {
        var i :| 0 <= i < |parameters| && parameters[i] == p;
        FindAt(parameters, i);
      }
      Snapshot(parameters, slots, Self(), host)
    }

    /** `check_parameter_requirements` (parameters.rb:25-27): passes exactly
        when no required parameter reads as nil. */
    function CheckParameterRequirements(host: Host): (o: Outcome<Error>)
      requires Valid()
      reads this
      ensures o.Pass? <==> forall p :: p in parameters && p.required ==> Get(p.name, host) != Success(Nil)
      ensures o.Fail? ==> o.error.RequiredParameterUnset?
    {
      forall p | p in parameters ensures Find(parameters, p.name) == Some(p) {
        var i :| 0 <= i < |parameters| && parameters[i] == p;
        FindAt(parameters, i);
      }
      Enforce(parameters, slots, Self(), host)
    }
  }

  // ---------------------------------------------------------------------
  // Properties

  /** The slots written by one more option key. */
  lemma OptionSlotsStep(slots: map<string, Val>, names: set<string>, opts: map<string, Val>, done: set<string>, k: string)
    requires k in opts && k !in done
    ensures k in names ==>
      slots + Restrict(Restrict(opts, done + {k}), names) == (slots + Restrict(Restrict(opts, done), names))[k := opts[k]]
    ensures k !in names ==>
      slots + Restrict(Restrict(opts, done + {k}), names) == slots + Restrict(Restrict(opts, done), names)
  {
    var before := Restrict(Restrict(opts, done), names);
    var after := Restrict(Restrict(opts, done + {k}), names);
    if k in names {
      assert after == before[k := opts[k]];
      assert slots + before[k := opts[k]] == (slots + before)[k := opts[k]];
    } else {
      assert after == before;
    }
  }

  /** Before the first key nothing is written. */
  lemma NoOptionsWritten(ps: seq<Parameter>, st: EntityState, opts: map<string, Val>)
    ensures WithOptions(ps, st, Restrict(opts, opts.Keys - opts.Keys)) == st
  {
    assert Restrict(opts, opts.Keys - opts.Keys) == map[];
    assert st.slots + map[] == st.slots;
  }

  /** The block half of `OptionStep`: only the block accessor's own key,
      when no parameter shadows it, replaces the block. */
  lemma OptionBlockStep(ps: seq<Parameter>, st: EntityState, opts: map<string, Val>, done: set<string>, k: string)
    requires k in opts && k !in done
    ensures WithOptions(ps, st, Restrict(opts, done + {k})).block
      == Assigned(ps, WithOptions(ps, st, Restrict(opts, done)), k, opts[k]).block
  {
    var before := Restrict(opts, done);
    var after := Restrict(opts, done + {k});
    if k == ConfigurationBlockKey {
      assert k in after && after[k] == opts[k];
    } else {
      assert (ConfigurationBlockKey in after) == (ConfigurationBlockKey in before);
    }
  }

  /** Writing one more option key is one more writer call. */
  lemma OptionStep(ps: seq<Parameter>, st: EntityState, opts: map<string, Val>, done: set<string>, k: string)
    requires k in opts && k !in done
    ensures WithOptions(ps, st, Restrict(opts, done + {k}))
      == Assigned(ps, WithOptions(ps, st, Restrict(opts, done)), k, opts[k])
  {
    OptionSlotsStep(st.slots, NameSet(ps), opts, done, k);
    OptionBlockStep(ps, st, opts, done, k);
  }

  /** An option key that names no writer is ignored. */
  lemma UnknownOptionIgnored(ps: seq<Parameter>, st: EntityState, opts: map<string, Val>, k: string)
    requires !Responds(ps, k)
    ensures WithOptions(ps, st, opts) == WithOptions(ps, st, opts - {k})
  {
    assert Restrict(opts, NameSet(ps)) == Restrict(opts - {k}, NameSet(ps));
  }

  /** An option naming a parameter is written verbatim, whatever the default,
      whether or not the parameter is configurable and even when it is nil;
      a parameter the options do not name keeps its default. */
  lemma OptionBeatsDefault(ps: seq<Parameter>, opts: map<string, Val>, block: Option<Block>, p: Parameter)
    requires UniqueNames(ps) && p in ps
    ensures var st := Constructed(ps, [Hash(opts)], block).value;
      && (p.name in opts ==> p.name in st.slots && st.slots[p.name] == opts[p.name])
      && (p.name !in opts && p.default != Nil ==> p.name in st.slots && st.slots[p.name] == p.default)
  {
    var i :| 0 <= i < |ps| && ps[i] == p;
    if p.name !in opts && p.default != Nil {
      WithDefaultsHoldsDefault(ps, map[], i);
    }
  }

  /** A `nil` option replaces a non-nil default (key presence triggers the write). */
  lemma NilOptionOverridesDefault(ps: seq<Parameter>, name: string, block: Option<Block>, host: Host)
    requires UniqueNames(ps) && name in NameSet(ps)
    ensures Constructed(ps, [Hash(map[name := Nil])], block).value.slots[name] == Nil
  {
  }

  /** Option keys that name no parameter leave every slot as the defaults
      made it. */
  lemma UnknownOptionsLeaveDefaults(ps: seq<Parameter>, opts: map<string, Val>, block: Option<Block>)
    requires forall k :: k in opts ==> !Responds(ps, k)
    ensures Constructed(ps, [Hash(opts)], block) == Success(Initial(ps, block))
  {
    assert Restrict(opts, NameSet(ps)) == map[];
    assert WithDefaults(ps, map[]) + map[] == WithDefaults(ps, map[]);
  }

  /** No options at all: the object is exactly its defaults and its block;
      required parameters are not checked at construction. */
  lemma NoArgumentsGiveDefaults(ps: seq<Parameter>, block: Option<Block>)
    ensures Constructed(ps, [], block) == Success(Initial(ps, block))
    ensures Constructed(ps, [Nil], block) == Success(Initial(ps, block))
  {
    assert WithDefaults(ps, map[]) + map[] == WithDefaults(ps, map[]);
  }

  /** Construction never looks at requirements: whatever the parameters
      declare, it fails only when the first argument cannot be read as
      options, and then with that error. */
  lemma ConstructionIgnoresRequirements(ps: seq<Parameter>, args: seq<Val>, block: Option<Block>)
    ensures Constructed(ps, args, block).Success? <==> OptionsOf(args).Success?
    ensures Constructed(ps, args, block).Failure? ==> Constructed(ps, args, block).error == OptionsOf(args).error
  {
  }

  /** A `configuration_block` option that names no parameter replaces the
      block passed to `new`. */
  lemma BlockOptionReplacesBlock(ps: seq<Parameter>, opts: map<string, Val>, block: Option<Block>)
    requires ConfigurationBlockKey in opts && ConfigurationBlockKey !in NameSet(ps)
    ensures Constructed(ps, [Hash(opts)], block).value.block == Some(Given(opts[ConfigurationBlockKey]))
  {
  }

  /** A direct write to a parameter then a read of it: a plain value comes
      back verbatim under the identity transform, other slots are kept. */
  lemma AssignThenGet(ps: seq<Parameter>, st: EntityState, p: Parameter, v: Val, self: Val, host: Host)
    requires p in ps && p.transform == Identity && !v.Lazy?
    ensures var after := Assigned(ps, st, p.name, v);
      && Get(p, Slot(after.slots, p.name), self, host) == v
      && (forall k :: k != p.name ==> Slot(after.slots, k) == Slot(st.slots, k))
      && after.block == st.block
  {
    assert p.name in NameSet(ps);
  }
}
