/** The restricted object a configuration block is given instead of the task
    (lib/rake_factory/parameter_view.rb).

    A view forwards reads of the reader class's parameters to its target and
    has writers only for the configurable parameters of the writer class;
    each write hands the target the value with the runtime arguments
    appended. The target of a view is an entity, or another view when a task
    set configures a task (task_set.rb:145). Views never change after
    construction, so everything about them is a `const`. */
module Views {
  import opened Wrappers
  import opened Exceptions
  import opened Values
  import opened Parameters
  import opened ParameterSets
  import opened Entities

  datatype Target = ToEntity(entity: Entity) | ToView(view: ParameterView)

  ghost predicate TargetValid(t: Target) {
    match t
    case ToEntity(e) => e.Valid()
    case ToView(v) => v.Valid()
  }

  ghost function TargetDepth(t: Target): nat {
    match t
    case ToEntity(_) => 0
    case ToView(v) => v.depth + 1
  }

  /** The entity at the end of a chain of views. */
  ghost function TargetRoot(t: Target): Entity
    requires TargetValid(t)
    decreases TargetDepth(t)
  {
    match t
    case ToEntity(e) => e
    case ToView(v) => TargetRoot(v.target)
  }

  /** What a view writer with these `writers` and runtime arguments, over
      `target`, finally hands to the entity's writer `name=`: `None` when
      some view on the way has no such writer or the entity does not respond
      to it (parameter_view.rb:41-51). */
  function Deliver(target: Target, writers: set<string>, args: Val, name: string, value: Val): (r: Option<Val>)
    requires TargetValid(target)
    ensures r.Some? ==> name in writers && Responds(TargetRoot(target).parameters, name)
    decreases TargetDepth(target)
  {
    if name !in writers then None
    else
      var forwarded := Lazy(Append(Resolve(value), args));
      match target
      case ToEntity(e) => if Responds(e.parameters, name) then Some(forwarded) else None
      case ToView(v) => Deliver(v.target, v.writers, v.runtimeArguments, name, forwarded)
  }

  /** The entity state once a delivery (or none) reached the writer `name=`. */
  function Landed(ps: seq<Parameter>, st: EntityState, name: string, delivered: Option<Val>): EntityState {
    match delivered
    case None => st
    case Some(x) => Assigned(ps, st, name, x)
  }

  class ParameterView {
    const target: Target
    /** The names that have a reader: every parameter of the reader class. */
    const readers: set<string>
    /** The names that have a writer: the configurable parameters of the writer class. */
    const writers: set<string>
    const runtimeArguments: Val
    ghost const depth: nat

    ghost predicate Valid()
      decreases depth
    {
      match target
      case ToEntity(e) => depth == 0 && e.Valid()
      case ToView(v) => v.depth < depth && v.Valid()
    }

    ghost function Root(): Entity
      requires Valid()
    {
      TargetRoot(target)
    }

    /** `ParameterView.new(target, reader_class, writer_class, runtime_arguments)`
        (parameter_view.rb:9-13): one reader per parameter of the reader
        class, one writer per configurable parameter of the writer class. */
    constructor (target: Target, readerParameters: seq<Parameter>, writerParameters: seq<Parameter>, runtimeArguments: Val)
      requires TargetValid(target)
      ensures Valid() && this.target == target && this.runtimeArguments == runtimeArguments
      ensures readers == NameSet(readerParameters)
      ensures writers == ConfigurableNames(writerParameters)
    {
      var r: set<string> := {};
      var i := 0;
      while i < |readerParameters|
        invariant 0 <= i <= |readerParameters|
        invariant r == NameSet(readerParameters[..i])
      {
        NameSetOfPrefix(readerParameters[..i], readerParameters[i]);
        assert readerParameters[..i + 1] == readerParameters[..i] + [readerParameters[i]];
        r := r + {readerParameters[i].name};
        i := i + 1;
      }
      assert readerParameters[..i] == readerParameters;
      var w: set<string> := {};
      i := 0;
      while i < |writerParameters|
        invariant 0 <= i <= |writerParameters|
        invariant w == ConfigurableNames(writerParameters[..i])
      {
        ConfigurableNamesOfPrefix(writerParameters[..i], writerParameters[i]);
        assert writerParameters[..i + 1] == writerParameters[..i] + [writerParameters[i]];
        if writerParameters[i].configurable {
          w := w + {writerParameters[i].name};
        }
        i := i + 1;
      }
      assert writerParameters[..i] == writerParameters;
      this.target := target;
      this.readers := r;
      this.writers := w;
      this.runtimeArguments := runtimeArguments;
      this.depth := TargetDepth(target);
    }

    /** A reader of the view: the target's reader of the same name. */
    function Read(name: string, host: Host): (r: Result<Val, Error>)
      requires Valid()
      reads Root()
      ensures name !in readers ==> r == Failure(NoMethodError(name))
      decreases depth
    {
      if name !in readers then Failure(NoMethodError(name))
      else
        match target
        case ToEntity(e) => e.Get(name, host)
        case ToView(v) => v.Read(name, host)
    }

    /** A writer of the view (parameter_view.rb:44-51); a name with no writer
        raises `NoMethodError`. */
    method Write(name: string, value: Val) returns (o: Outcome<Error>)
      requires Valid()
      modifies Root()
      ensures o.Pass? <==> name in writers
      ensures o.Fail? ==> o.error == NoMethodError(name + "=")
      ensures Root().State() == Landed(Root().parameters, old(Root().State()), name, Deliver(target, writers, runtimeArguments, name, value))
      decreases depth
    {
      if name !in writers {
        return Fail(NoMethodError(name + "="));
      }
      var forwarded := Lazy(Append(Resolve(value), runtimeArguments));
      match target {
        case ToEntity(e) =>
          if Responds(e.parameters, name) {
            var _ := e.Assign(name, forwarded);
          }
        case ToView(v) =>
          var _ := v.Write(name, forwarded);
      }
      o := Pass;
    }
  }

  // ---------------------------------------------------------------------
  // Properties

  lemma {:induction false} ConfigurableNamesOfPrefix(ps: seq<Parameter>, p: Parameter)
    ensures ConfigurableNames(ps + [p]) == ConfigurableNames(ps) + (if p.configurable then {p.name} else {})
  {
    assert forall q :: q in ps + [p] <==> q in ps || q == p;
  }

  /** With unique names, a parameter has a view writer exactly when it is
      configurable, and every writer name is a parameter. */
  lemma {:induction false} WriterIffConfigurable(ps: seq<Parameter>, p: Parameter)
    requires UniqueNames(ps) && p in ps
    ensures p.name in ConfigurableNames(ps) <==> p.configurable
    ensures ConfigurableNames(ps) <= NameSet(ps)
  {
    if p.name in ConfigurableNames(ps) {
      var q :| q in ps && q.configurable && q.name == p.name;
      var i :| 0 <= i < |ps| && ps[i] == p;
      var j :| 0 <= j < |ps| && ps[j] == q;
      assert i == j;
    }
  }

  /** A view directly over an entity hands it the resolved value with the
      runtime arguments appended: static values arrive unchanged, dynamic
      ones gain a trailing argument. */
  lemma DirectViewAppendsArguments(e: Entity, writers: set<string>, args: Val, name: string, value: Val)
    requires e.Valid() && name in writers && Responds(e.parameters, name)
    ensures Deliver(ToEntity(e), writers, args, name, value) == Some(Lazy(Append(Resolve(value), args)))
    ensures !value.Lazy? ==> Deliver(ToEntity(e), writers, args, name, value) == Some(Lazy(Static(value)))
  {
  }

  /** A view whose target has no writer of that name drops the write. */
  lemma WriteDroppedWithoutTargetWriter(v: ParameterView, writers: set<string>, args: Val, name: string, value: Val)
    requires v.Valid() && name !in v.writers
    ensures Deliver(ToView(v), writers, args, name, value) == None
  {
  }

  /** Through a view over a view (the task-set path), the value reaches the
      entity with the outer view's arguments appended, then the inner view's. */
  lemma NestedViewAppendsTwice(e: Entity, inner: ParameterView, writers: set<string>, args: Val, name: string, value: Val)
    requires inner.Valid() && inner.target == ToEntity(e)
    requires name in writers && name in inner.writers && Responds(e.parameters, name)
    ensures Deliver(ToView(inner), writers, args, name, value)
      == Some(Lazy(Append(Append(Resolve(value), args), inner.runtimeArguments)))
  {
  }

  /** A two-parameter dynamic value written through a view is later read
      with `(entity, runtime arguments)` (the task example of a block
      `|t, args|`). */
  lemma ViewWrittenDynamicSeesArguments(p: Parameter, b: Callable, self: Val, args: Val, host: Host)
    requires b.arity == 2
    ensures Get(p, Lazy(Append(Resolve(Lazy(Dynamic(b, [], []))), args)), self, host)
      == ApplyTransform(p.transform, host.call(b, [self, args]), host)
  {
    AppendedArgumentsReachSecondParameter(b, self, args, host);
  }

  lemma TakeOfExtension<T>(xs: seq<T>, extra: seq<T>, n: nat)
    requires n <= |xs|
    ensures Take(xs + extra, n) == Take(xs, n)
  {
    assert (xs + extra)[..n] == xs[..n];
    if n == |xs| {
      assert xs[..n] == xs;
    }
  }

  /** The second copy of the runtime arguments appended on the task-set path
      is invisible to a block of at most two parameters. */
  lemma SecondAppendInvisible(b: Callable, self: Val, args: Val, host: Host)
    requires b.arity <= 2
    ensures Evaluate(Append(Append(Dynamic(b, [], []), args), args), [self], host)
      == Evaluate(Append(Dynamic(b, [], []), args), [self], host)
  {
    var once := [] + [self] + ([] + [args]);
    var twice := [] + [self] + ([] + [args] + [args]);
    assert twice == once + [args];
    TakeOfExtension(once, [args], b.arity);
  }

  /** A read through a view over an entity is the entity's own read; a name
      the reader class does not declare has no reader. */
  lemma ReadForwardsToEntity(v: ParameterView, e: Entity, name: string, host: Host)
    requires v.Valid() && v.target == ToEntity(e) && name in v.readers
    ensures v.Read(name, host) == e.Get(name, host)
  {
  }
}
