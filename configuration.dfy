/** Running configuration blocks (lib/rake_factory/configurable.rb:21-28 and
    the composed block of lib/rake_factory/task_set.rb:135-153).

    What a user block does is given by the host: the assignments it makes
    on the objects it receives, as `Write`s naming the block parameter they
    are made on. Those assignments are replayed in order; the first one that
    raises stops the block. A block parameter is one of: a parameter view
    (`Through`: the view's writers, forwarding to its target), an entity
    called directly (`Direct`: the task set given to a specification block),
    or Rake's task arguments, which answer every unknown message through
    `method_missing` and so swallow assignments (`Swallowed`). */
module Configuration {
  import opened Wrappers
  import opened Exceptions
  import opened Values
  import opened Parameters
  import opened ParameterSets
  import opened Entities
  import opened Views

  /** A block parameter as the replay sees it. */
  datatype Channel =
    | Through(target: Target, writers: set<string>, args: Val)
    | Direct(entity: Entity)
    | Swallowed

  /** A block parameter as the running code holds it. */
  datatype Receiver =
    | ViewReceiver(view: ParameterView)
    | EntityReceiver(entity: Entity)
    | ArgumentsReceiver

  /** The outcome of a block and every entity's state afterwards. */
  datatype Run = Run(outcome: Outcome<Error>, world: map<Entity, EntityState>)

  const ArityError := ArgumentError("wrong number of arguments (given 1, expected 2)")

  ghost function ViewChannel(v: ParameterView): Channel {
    Through(v.target, v.writers, v.runtimeArguments)
  }

  ghost function ChannelOf(r: Receiver): Channel {
    match r
    case ViewReceiver(v) => ViewChannel(v)
    case EntityReceiver(e) => Direct(e)
    case ArgumentsReceiver => Swallowed
  }

  ghost function Channels(rs: seq<Receiver>): (cs: seq<Channel>)
    ensures |cs| == |rs| && forall i :: 0 <= i < |rs| ==> cs[i] == ChannelOf(rs[i])
  {
    seq(|rs|, i requires 0 <= i < |rs| => ChannelOf(rs[i]))
  }

  /** Every entity a channel can change is in the world. */
  ghost predicate Covered(world: map<Entity, EntityState>, c: Channel) {
    match c
    case Through(t, _, _) => TargetValid(t) && TargetRoot(t) in world
    case Direct(e) => e in world
    case Swallowed => true
  }

  ghost predicate AllCovered(world: map<Entity, EntityState>, cs: seq<Channel>) {
    forall i :: 0 <= i < |cs| ==> Covered(world, cs[i])
  }

  /** Every view a block receives is well formed. */
  ghost predicate ViewsValid(rs: seq<Receiver>) {
    forall i :: 0 <= i < |rs| && rs[i].ViewReceiver? ==> rs[i].view.Valid()
  }

  /** One assignment. A write naming no passed block parameter, or made on
      the task arguments, has nowhere to go and changes nothing; a write on
      an entity passes exactly when it has that writer, one on a view
      exactly when the view has it; a failing write changes nothing, and a
      write changes at most one entity. */
  ghost function Step(world: map<Entity, EntityState>, cs: seq<Channel>, w: Write): (r: Run)
    requires AllCovered(world, cs)
    ensures r.world.Keys == world.Keys
    ensures w.receiver >= |cs| || cs[w.receiver].Swallowed? ==> r == Run(Pass, world)
    ensures w.receiver < |cs| && cs[w.receiver].Direct? ==>
      (r.outcome.Pass? <==> Responds(cs[w.receiver].entity.parameters, w.name))
    ensures w.receiver < |cs| && cs[w.receiver].Through? ==>
      (r.outcome.Pass? <==> w.name in cs[w.receiver].writers)
    ensures r.outcome.Fail? ==> r.world == world && r.outcome.error == NoMethodError(w.name + "=")
    ensures forall e, f :: e in world && f in world && r.world[e] != world[e] && r.world[f] != world[f] ==> e == f
  {
    if w.receiver >= |cs| then Run(Pass, world)
    else
      match cs[w.receiver]
      case Swallowed => Run(Pass, world)
      case Direct(e) =>
        if Responds(e.parameters, w.name)
        then Run(Pass, world[e := Assigned(e.parameters, world[e], w.name, w.value)])
        else Run(Fail(NoMethodError(w.name + "=")), world)
      case Through(t, writers, args) =>
        if w.name !in writers then Run(Fail(NoMethodError(w.name + "=")), world)
        else
          var e := TargetRoot(t);
          Run(Pass, world[e := Landed(e.parameters, world[e], w.name, Deliver(t, writers, args, w.name, w.value))])
  }

  /** The assignments in order, up to and including the first that raises:
      no assignment is no change, and a failure is the missing writer of
      one of the assignments. */
  ghost function Replay(world: map<Entity, EntityState>, cs: seq<Channel>, ws: seq<Write>): (r: Run)
    requires AllCovered(world, cs)
    ensures r.world.Keys == world.Keys
    ensures ws == [] ==> r == Run(Pass, world)
    ensures r.outcome.Fail? ==> exists i :: 0 <= i < |ws| && r.outcome.error == NoMethodError(ws[i].name + "=")
    decreases |ws|
  {
    if ws == [] then Run(Pass, world)
    else
      var first := Step(world, cs, ws[0]);
      if first.outcome.Fail? then first
      else
        StepKeepsCoverage(world, cs, ws[0]);
        var r := Replay(first.world, cs, ws[1..]);
        assert r.outcome.Fail? ==> exists i :: 0 <= i < |ws| && r.outcome.error == NoMethodError(ws[i].name + "=") by {
          if r.outcome.Fail? {
            var i :| 0 <= i < |ws[1..]| && r.outcome.error == NoMethodError(ws[1..][i].name + "=");
            assert ws[1..][i] == ws[i + 1];
          }
        }
        r
  }

  /** `block.call(*params.slice(0, block.arity))`: the block receives the
      first `arity` parameters and makes the host's assignments on them. */
  ghost function BlockCall(c: Callable, params: seq<Val>, cs: seq<Channel>, host: Host, world: map<Entity, EntityState>): (r: Run)
    requires |params| == |cs| && AllCovered(world, cs)
    ensures r.world.Keys == world.Keys
    ensures c.arity == 0 ==> r == Run(Pass, world)
    ensures r.outcome.Fail? ==> r.outcome.error.NoMethodError?
  {
    UnreceivedWritesAreInert(world, host.effects(c, Take(params, c.arity)));
    Replay(world, Take(cs, c.arity), host.effects(c, Take(params, c.arity)))
  }

  /** `invoke_configuration_block_on(target, args)` for a user block
      (configurable.rb:21-28): nothing without a block; the block gets
      `[target, args]`, or `[target]` when `args` is nil, cut to its arity; a
      stored object that is not a proc has no `arity`. */
  ghost function GivenRun(proc: Val, target: Val, channel: Channel, args: Val, host: Host, world: map<Entity, EntityState>): (r: Run)
    requires Covered(world, channel)
    ensures r.world.Keys == world.Keys
    ensures !Truthy(proc) ==> r == Run(Pass, world)
    ensures Truthy(proc) && !proc.Proc? ==> r == Run(Fail(NoMethodError("arity")), world)
    ensures r.outcome.Fail? ==> r.outcome.error.NoMethodError?
  {
    if !Truthy(proc) then Run(Pass, world)
    else if !proc.Proc? then Run(Fail(NoMethodError("arity")), world)
    else if Truthy(args) then BlockCall(proc.callable, [target, args], [channel, Swallowed], host, world)
    else BlockCall(proc.callable, [target], [channel], host, world)
  }

  /** The composed lambda `|task, args|` (task_set.rb:135-153): a lambda
      insists on both arguments; the specification's block gets
      `[task_set, task, args]` cut to its arity; then, when the task set's
      block (as it stands after that) is a proc, it runs on a view `outer`
      that reads through `view` and writes the task set's configurable
      parameters. */
  ghost function ComposedRun(ts: Entity, block: Option<Callable>, view: ParameterView, outer: Val, args: Val, host: Host, world: map<Entity, EntityState>): (r: Run)
    requires view.Valid() && view.Root() in world && ts in world
    ensures r.world.Keys == world.Keys
    ensures !Truthy(args) ==> r == Run(Fail(ArityError), world)
    ensures Truthy(args) && r.outcome.Fail? ==> r.outcome.error.NoMethodError?
  {
    if !Truthy(args) then Run(Fail(ArityError), world)
    else
      var first :=
        if block.Some?
        then BlockCall(block.value, [Obj(ts), Obj(view), args], [Direct(ts), ViewChannel(view), Swallowed], host, world)
        else Run(Pass, world);
      if first.outcome.Fail? then first else TaskSetBlockRun(ts, view, outer, args, host, first.world)
  }

  /** The second half of the composed lambda (task_set.rb:142-147): the task
      set's block, when it is a proc, runs on a view `outer` over `view`
      that writes only the task set's configurable parameters; otherwise
      nothing happens. */
  ghost function TaskSetBlockRun(ts: Entity, view: ParameterView, outer: Val, args: Val, host: Host, world: map<Entity, EntityState>): (r: Run)
    requires view.Valid() && view.Root() in world && ts in world
    ensures r.world.Keys == world.Keys
    ensures !world[ts].block.Some? ==> r == Run(Pass, world)
    ensures r.outcome.Fail? ==> r.outcome.error.NoMethodError?
  {
    match world[ts].block
    case Some(Given(Proc(c))) =>
      GivenRun(Proc(c), outer, Through(ToView(view), ConfigurableNames(ts.parameters), args), args, host, world)
    case _ => Run(Pass, world)
  }

  /** Invoking an entity's stored block on a view. */
  ghost function Configure(block: Option<Block>, view: ParameterView, outer: Val, args: Val, host: Host, world: map<Entity, EntityState>): (r: Run)
    requires view.Valid() && view.Root() in world
    requires block.Some? && block.value.Composed? ==> block.value.taskSet in world
    ensures r.world.Keys == world.Keys
    ensures block.None? ==> r == Run(Pass, world)
    ensures r.outcome.Fail? ==> r.outcome.error == ArityError || r.outcome.error.NoMethodError?
    ensures block.Some? && block.value.Given? && r.outcome.Fail? ==> r.outcome.error.NoMethodError?
  {
    match block
    case None => Run(Pass, world)
    case Some(Given(p)) => GivenRun(p, Obj(view), ViewChannel(view), args, host, world)
    case Some(Composed(ts, b)) => ComposedRun(ts, b, view, outer, args, host, world)
  }

  /** The states of a set of entities. */
  ghost function WorldOf(scope: set<Entity>): (w: map<Entity, EntityState>)
    reads scope
    ensures w.Keys == scope
  {
    map e | e in scope :: e.State()
  }

  // ---------------------------------------------------------------------
  // Running blocks

  /** One assignment, made on the object the block received. */
  method Dispatch(w: Write, receivers: seq<Receiver>, ghost scope: set<Entity>) returns (o: Outcome<Error>)
    requires AllCovered(WorldOf(scope), Channels(receivers))
    requires ViewsValid(receivers)
    modifies scope
    ensures Run(o, WorldOf(scope)) == Step(old(WorldOf(scope)), Channels(receivers), w)
  {
    if w.receiver >= |receivers| {
      return Pass;
    }
    ghost var before := WorldOf(scope);
    assert Covered(before, Channels(receivers)[w.receiver]);
    match receivers[w.receiver] {
      case ArgumentsReceiver =>
        o := Pass;
      case EntityReceiver(e) =>
        o := e.Assign(w.name, w.value);
        assert WorldOf(scope) == before[e := e.State()];
      case ViewReceiver(v) =>
        o := v.Write(w.name, w.value);
        if o.Pass? {
          assert WorldOf(scope) == before[v.Root() := v.Root().State()];
        }
    }
  }

  /** The assignments of one block call, in order, stopping at the first
      that raises. */
  method Perform(ws: seq<Write>, receivers: seq<Receiver>, ghost scope: set<Entity>) returns (o: Outcome<Error>)
    requires AllCovered(WorldOf(scope), Channels(receivers))
    requires ViewsValid(receivers)
    modifies scope
    ensures Run(o, WorldOf(scope)) == Replay(old(WorldOf(scope)), Channels(receivers), ws)
  {
    ghost var start := WorldOf(scope);
    ghost var cs := Channels(receivers);
    var i := 0;
    while i < |ws|
      invariant 0 <= i <= |ws|
      invariant AllCovered(WorldOf(scope), cs)
      invariant Replay(start, cs, ws) == Replay(WorldOf(scope), cs, ws[i..])
    {
      ghost var before := WorldOf(scope);
      ReplayUnfolds(before, cs, ws[i..]);
      o := Dispatch(ws[i], receivers, scope);
      if o.Fail? {
        return;
      }
      assert ws[i..][1..] == ws[i + 1..];
      i := i + 1;
    }
    o := Pass;
  }

  /** Calls a block with the first `arity` of `params`. */
  method CallBlock(c: Callable, params: seq<Val>, receivers: seq<Receiver>, host: Host, ghost scope: set<Entity>) returns (o: Outcome<Error>)
    requires |params| == |receivers| && AllCovered(WorldOf(scope), Channels(receivers))
    requires ViewsValid(receivers)
    modifies scope
    ensures Run(o, WorldOf(scope)) == BlockCall(c, params, Channels(receivers), host, old(WorldOf(scope)))
  {
    var passed := Take(receivers, c.arity);
    assert Channels(passed) == Take(Channels(receivers), c.arity);
    assert ViewsValid(passed);
    o := Perform(host.effects(c, Take(params, c.arity)), passed, scope);
  }

  /** `invoke_configuration_block_on` for a stored user block. */
  method InvokeGiven(proc: Val, view: ParameterView, target: Val, args: Val, host: Host, ghost scope: set<Entity>) returns (o: Outcome<Error>)
    requires view.Valid() && view.Root() in scope
    modifies scope
    ensures Run(o, WorldOf(scope)) == GivenRun(proc, target, ViewChannel(view), args, host, old(WorldOf(scope)))
  {
    if !Truthy(proc) {
      return Pass;
    }
    if !proc.Proc? {
      return Fail(NoMethodError("arity"));
    }
    if Truthy(args) {
      assert Channels([ViewReceiver(view), ArgumentsReceiver]) == [ViewChannel(view), Swallowed];
      o := CallBlock(proc.callable, [target, args], [ViewReceiver(view), ArgumentsReceiver], host, scope);
    } else {
      assert Channels([ViewReceiver(view)]) == [ViewChannel(view)];
      o := CallBlock(proc.callable, [target], [ViewReceiver(view)], host, scope);
    }
  }

  /** `invoke_configuration_block_on(view, args)` (configurable.rb:21-28) on
      entity `e`; `outer` is the view the composed block builds, if it does. */
  method InvokeConfigurationBlockOn(e: Entity, view: ParameterView, args: Val, host: Host, ghost scope: set<Entity>)
    returns (o: Outcome<Error>, ghost outer: Val)
    requires e.Valid() && view.Valid() && view.Root() in scope
    requires e.configurationBlock.Some? && e.configurationBlock.value.Composed? ==>
      e.configurationBlock.value.taskSet in scope
    modifies scope
    ensures Run(o, WorldOf(scope)) == Configure(old(e.configurationBlock), view, outer, args, host, old(WorldOf(scope)))
  {
    outer := Nil;
    match e.configurationBlock {
      case None =>
        o := Pass;
      case Some(Given(p)) =>
        o := InvokeGiven(p, view, Obj(view), args, host, scope);
      case Some(Composed(ts, b)) =>
        o, outer := InvokeComposed(ts, b, e.parameters, view, args, host, scope);
    }
  }

  /** The composed lambda of a task set's specification (task_set.rb:135-153). */
  method InvokeComposed(ts: Entity, block: Option<Callable>, readerParameters: seq<Parameter>, view: ParameterView, args: Val, host: Host, ghost scope: set<Entity>)
    returns (o: Outcome<Error>, ghost outer: Val)
    requires ts in scope && view.Valid() && view.Root() in scope
    modifies scope
    ensures Run(o, WorldOf(scope)) == ComposedRun(ts, block, view, outer, args, host, old(WorldOf(scope)))
  {
    outer := Nil;
    if !Truthy(args) {
      return Fail(ArityError), outer;
    }
    ghost var start := WorldOf(scope);
    if block.Some? {
      assert Channels([EntityReceiver(ts), ViewReceiver(view), ArgumentsReceiver]) == [Direct(ts), ViewChannel(view), Swallowed];
      o := CallBlock(block.value, [Obj(ts), Obj(view), args], [EntityReceiver(ts), ViewReceiver(view), ArgumentsReceiver], host, scope);
      if o.Fail? {
        return;
      }
    }
    o, outer := InvokeTaskSetBlock(ts, readerParameters, view, args, host, scope);
  }

  /** The task set's own block, run on a fresh view over `view`. */
  method InvokeTaskSetBlock(ts: Entity, readerParameters: seq<Parameter>, view: ParameterView, args: Val, host: Host, ghost scope: set<Entity>)
    returns (o: Outcome<Error>, ghost outer: Val)
    requires ts in scope && view.Valid() && view.Root() in scope
    modifies scope
    ensures Run(o, WorldOf(scope)) == TaskSetBlockRun(ts, view, outer, args, host, old(WorldOf(scope)))
  {
    outer := Nil;
    assert WorldOf(scope)[ts].block == ts.configurationBlock;
    match ts.configurationBlock {
      case Some(Given(Proc(c))) =>
        var v2 := new ParameterView(ToView(view), readerParameters, ts.parameters, args);
        outer := Obj(v2);
        o := InvokeGiven(Proc(c), v2, Obj(v2), args, host, scope);
      case _ =>
        o := Pass;
    }
  }

  // ---------------------------------------------------------------------
  // Properties

  /** Once an assignment raises, nothing after it runs. */
  lemma {:induction false} ReplayStopsAtFailure(world: map<Entity, EntityState>, cs: seq<Channel>, ws: seq<Write>, rest: seq<Write>)
    requires AllCovered(world, cs) && Replay(world, cs, ws).outcome.Fail?
    ensures Replay(world, cs, ws + rest) == Replay(world, cs, ws)
    decreases |ws|
  {
    var first := Step(world, cs, ws[0]);
    assert (ws + rest)[0] == ws[0];
    if first.outcome.Pass? {
      assert (ws + rest)[1..] == ws[1..] + rest;
      StepKeepsCoverage(world, cs, ws[0]);
      ReplayStopsAtFailure(first.world, cs, ws[1..], rest);
    }
  }

  /** Blocks that all pass compose: running two lists of assignments is
      running their concatenation. */
  lemma {:induction false} ReplayConcatenates(world: map<Entity, EntityState>, cs: seq<Channel>, ws: seq<Write>, rest: seq<Write>)
    requires AllCovered(world, cs) && Replay(world, cs, ws).outcome.Pass?
    ensures AllCovered(Replay(world, cs, ws).world, cs)
    ensures Replay(world, cs, ws + rest) == Replay(Replay(world, cs, ws).world, cs, rest)
    decreases |ws|
  {
    if ws == [] {
      assert ws + rest == rest;
    } else {
      var first := Step(world, cs, ws[0]);
      assert (ws + rest)[0] == ws[0];
      assert (ws + rest)[1..] == ws[1..] + rest;
      StepKeepsCoverage(world, cs, ws[0]);
      ReplayConcatenates(first.world, cs, ws[1..], rest);
    }
  }

  /** A block that declares no parameters receives nothing to assign on. */
  lemma {:induction false} UnreceivedWritesAreInert(world: map<Entity, EntityState>, ws: seq<Write>)
    ensures Replay(world, [], ws) == Run(Pass, world)
    decreases |ws|
  {
    if ws != [] {
      UnreceivedWritesAreInert(world, ws[1..]);
    }
  }

  /** One step of `Replay`: the first write, then the rest if it passed. */
  lemma ReplayUnfolds(world: map<Entity, EntityState>, cs: seq<Channel>, ws: seq<Write>)
    requires AllCovered(world, cs) && ws != []
    ensures AllCovered(Step(world, cs, ws[0]).world, cs)
    ensures Step(world, cs, ws[0]).outcome.Fail? ==> Replay(world, cs, ws) == Step(world, cs, ws[0])
    ensures Step(world, cs, ws[0]).outcome.Pass? ==> Replay(world, cs, ws) == Replay(Step(world, cs, ws[0]).world, cs, ws[1..])
  {
    StepKeepsCoverage(world, cs, ws[0]);
  }

  lemma StepKeepsCoverage(world: map<Entity, EntityState>, cs: seq<Channel>, w: Write)
    requires AllCovered(world, cs)
    ensures AllCovered(Step(world, cs, w).world, cs)
  {
  }

  /** Assignments on Rake's task arguments change nothing and raise nothing. */
  lemma {:induction false} SwallowedWritesAreInert(world: map<Entity, EntityState>, cs: seq<Channel>, ws: seq<Write>)
    requires AllCovered(world, cs)
    requires forall i :: 0 <= i < |ws| ==> ws[i].receiver < |cs| && cs[ws[i].receiver] == Swallowed
    ensures Replay(world, cs, ws) == Run(Pass, world)
    decreases |ws|
  {
    if ws != [] {
      assert ws[0] == ws[0];
      SwallowedWritesAreInert(world, cs, ws[1..]);
    }
  }

  /** Without a stored block, invoking is a no-op. */
  lemma NoBlockNoEffect(view: ParameterView, outer: Val, args: Val, host: Host, world: map<Entity, EntityState>)
    requires view.Valid() && view.Root() in world
    ensures Configure(None, view, outer, args, host, world) == Run(Pass, world)
  {
  }

  /** A block's parameters: `[target, args]` cut to its arity, or `[target]`
      when there are no runtime arguments; a one-parameter block never sees
      the arguments. */
  lemma GivenBlockParameters(c: Callable, target: Val, channel: Channel, args: Val, host: Host, world: map<Entity, EntityState>)
    requires Covered(world, channel)
    ensures Truthy(args) && c.arity >= 2 ==>
      GivenRun(Proc(c), target, channel, args, host, world)
        == Replay(world, [channel, Swallowed], host.effects(c, [target, args]))
    ensures c.arity == 1 ==>
      GivenRun(Proc(c), target, channel, args, host, world)
        == Replay(world, [channel], host.effects(c, [target]))
    ensures c.arity == 0 ==>
      GivenRun(Proc(c), target, channel, args, host, world)
        == Replay(world, [], host.effects(c, []))
  {
    if Truthy(args) {
      assert Take([target, args], 1) == [target];
      assert Take([channel, Swallowed], 1) == [channel];
      assert Take([target, args], 0) == [];
      assert Take([channel, Swallowed], 0) == [];
    } else {
      assert Take([target], 0) == [];
      assert Take([channel], 0) == [];
    }
  }

  /** The composed block without runtime arguments raises before anything
      runs: it is a lambda of two parameters. */
  lemma ComposedNeedsArguments(ts: Entity, block: Option<Callable>, view: ParameterView, outer: Val, host: Host, world: map<Entity, EntityState>)
    requires view.Valid() && view.Root() in world && ts in world
    ensures ComposedRun(ts, block, view, outer, Nil, host, world) == Run(Fail(ArityError), world)
  {
  }

  /** A specification block that raises stops the composed block: the task
      set's own block does not run. */
  lemma SpecificationFailureStops(ts: Entity, c: Callable, view: ParameterView, outer: Val, args: Val, host: Host, world: map<Entity, EntityState>)
    requires view.Valid() && view.Root() in world && ts in world && Truthy(args)
    requires BlockCall(c, [Obj(ts), Obj(view), args], [Direct(ts), ViewChannel(view), Swallowed], host, world).outcome.Fail?
    ensures ComposedRun(ts, Some(c), view, outer, args, host, world)
      == BlockCall(c, [Obj(ts), Obj(view), args], [Direct(ts), ViewChannel(view), Swallowed], host, world)
  {
  }

  /** The task set's block writes only the task set's configurable parameters:
      a name the task set does not declare configurable raises, even when the
      task has it. */
  lemma TaskSetBlockWritesOnlyItsConfigurables(ts: Entity, view: ParameterView, args: Val, w: Write, world: map<Entity, EntityState>)
    requires view.Valid() && view.Root() in world
    requires w.receiver == 0 && w.name !in ConfigurableNames(ts.parameters)
    ensures Step(world, [Through(ToView(view), ConfigurableNames(ts.parameters), args), Swallowed], w)
      == Run(Fail(NoMethodError(w.name + "=")), world)
  {
  }

  /** A block whose parameters are views over `root`, or Rake's task
      arguments, changes no entity but `root`. */
  lemma {:induction false} ReplayChangesOnlyRoot(world: map<Entity, EntityState>, cs: seq<Channel>, ws: seq<Write>, root: Entity)
    requires AllCovered(world, cs)
    requires forall i :: 0 <= i < |cs| ==>
      cs[i].Swallowed? || (cs[i].Through? && TargetValid(cs[i].target) && TargetRoot(cs[i].target) == root)
    ensures forall e :: e in world && e != root ==> Replay(world, cs, ws).world[e] == world[e]
    decreases |ws|
  {
    if ws != [] {
      var first := Step(world, cs, ws[0]);
      StepKeepsCoverage(world, cs, ws[0]);
      if first.outcome.Pass? {
        ReplayChangesOnlyRoot(first.world, cs, ws[1..], root);
      }
    }
  }

  /** A replay that passes made every assignment on a view through a writer
      the view has. */
  lemma {:induction false} ReplayPassMeansWritersExist(world: map<Entity, EntityState>, cs: seq<Channel>, ws: seq<Write>)
    requires AllCovered(world, cs) && Replay(world, cs, ws).outcome.Pass?
    ensures forall i :: 0 <= i < |ws| && ws[i].receiver < |cs| && cs[ws[i].receiver].Through? ==>
      ws[i].name in cs[ws[i].receiver].writers
    decreases |ws|
  {
    if ws != [] {
      var first := Step(world, cs, ws[0]);
      StepKeepsCoverage(world, cs, ws[0]);
      ReplayPassMeansWritersExist(first.world, cs, ws[1..]);
      forall i | 1 <= i < |ws| ensures ws[i] == ws[1..][i - 1] {
      }
    }
  }

  /** The task set's block, run on a view over the task, changes the task
      and no other entity. */
  lemma TaskSetBlockChangesOnlyTheTask(ts: Entity, view: ParameterView, outer: Val, args: Val, host: Host, world: map<Entity, EntityState>)
    requires view.Valid() && view.Root() in world && ts in world
    ensures forall e :: e in world && e != view.Root() ==>
      TaskSetBlockRun(ts, view, outer, args, host, world).world[e] == world[e]
  {
    match world[ts].block {
      case Some(Given(Proc(c))) =>
        var ch := Through(ToView(view), ConfigurableNames(ts.parameters), args);
        assert TargetRoot(ToView(view)) == view.Root();
        if Truthy(args) {
          ReplayChangesOnlyRoot(world, Take([ch, Swallowed], c.arity), host.effects(c, Take([outer, args], c.arity)), view.Root());
        } else {
          ReplayChangesOnlyRoot(world, Take([ch], c.arity), host.effects(c, Take([outer], c.arity)), view.Root());
        }
      case _ =>
    }
  }

  /** When the task set's block runs to completion, every assignment it made
      on the view it received named a configurable parameter of the task set. */
  lemma TaskSetBlockAssignsOnlyConfigurables(ts: Entity, c: Callable, view: ParameterView, outer: Val, args: Val, host: Host, world: map<Entity, EntityState>)
    requires view.Valid() && view.Root() in world && ts in world
    requires world[ts].block == Some(Given(Proc(c))) && c.arity >= 1
    requires TaskSetBlockRun(ts, view, outer, args, host, world).outcome.Pass?
    ensures forall w :: w in host.effects(c, Take(if Truthy(args) then [outer, args] else [outer], c.arity)) && w.receiver == 0 ==>
      w.name in ConfigurableNames(ts.parameters)
  {
    var ch := Through(ToView(view), ConfigurableNames(ts.parameters), args);
    var params: seq<Val>, cs: seq<Channel>;
    if Truthy(args) {
      params, cs := [outer, args], [ch, Swallowed];
    } else {
      params, cs := [outer], [ch];
    }
    var ws := host.effects(c, Take(params, c.arity));
    assert TaskSetBlockRun(ts, view, outer, args, host, world) == Replay(world, Take(cs, c.arity), ws);
    assert Take(cs, c.arity)[0] == ch;
    ReplayPassMeansWritersExist(world, Take(cs, c.arity), ws);
    forall w | w in ws && w.receiver == 0 ensures w.name in ConfigurableNames(ts.parameters) {
      var i :| 0 <= i < |ws| && ws[i] == w;
    }
  }

  /** The task set's block is looked up only after the specification's block
      ran: after a passing specification block, the composed lambda is the
      task set's block as that run left the world. */
  lemma TaskSetBlockReadAfterSpecification(ts: Entity, c: Callable, view: ParameterView, outer: Val, args: Val, host: Host, world: map<Entity, EntityState>)
    requires view.Valid() && view.Root() in world && ts in world && Truthy(args)
    requires BlockCall(c, [Obj(ts), Obj(view), args], [Direct(ts), ViewChannel(view), Swallowed], host, world).outcome.Pass?
    ensures ComposedRun(ts, Some(c), view, outer, args, host, world)
      == TaskSetBlockRun(ts, view, outer, args, host,
           BlockCall(c, [Obj(ts), Obj(view), args], [Direct(ts), ViewChannel(view), Swallowed], host, world).world)
  {
  }

  /** A specification block that assigns the task set's `configuration_block`
      replaces the block that then runs on the task. */
  lemma SpecificationCanReplaceTaskSetBlock(ts: Entity, c: Callable, d: Callable, view: ParameterView, outer: Val, args: Val, host: Host, world: map<Entity, EntityState>)
    requires view.Valid() && view.Root() in world && ts in world && Truthy(args)
    requires c.arity >= 1 && ConfigurationBlockKey !in NameSet(ts.parameters)
    requires host.effects(c, Take([Obj(ts), Obj(view), args], c.arity)) == [Write(0, ConfigurationBlockKey, Proc(d))]
    ensures var after := world[ts := world[ts].(block := Some(Given(Proc(d))))];
      ComposedRun(ts, Some(c), view, outer, args, host, world)
        == GivenRun(Proc(d), outer, Through(ToView(view), ConfigurableNames(ts.parameters), args), args, host, after)
  {
    var after := world[ts := world[ts].(block := Some(Given(Proc(d))))];
    SpecificationAssignsBlock(ts, c, d, view, args, host, world);
    TaskSetBlockReadAfterSpecification(ts, c, view, outer, args, host, world);
    assert after[ts].block == Some(Given(Proc(d)));
  }

  /** The specification block's one assignment to `configuration_block`
      on the task set passes and replaces only that block. */
  lemma SpecificationAssignsBlock(ts: Entity, c: Callable, d: Callable, view: ParameterView, args: Val, host: Host, world: map<Entity, EntityState>)
    requires view.Valid() && view.Root() in world && ts in world
    requires c.arity >= 1 && ConfigurationBlockKey !in NameSet(ts.parameters)
    requires host.effects(c, Take([Obj(ts), Obj(view), args], c.arity)) == [Write(0, ConfigurationBlockKey, Proc(d))]
    ensures BlockCall(c, [Obj(ts), Obj(view), args], [Direct(ts), ViewChannel(view), Swallowed], host, world)
      == Run(Pass, world[ts := world[ts].(block := Some(Given(Proc(d))))])
  {
    var cs := Take([Direct(ts), ViewChannel(view), Swallowed], c.arity);
    var w := Write(0, ConfigurationBlockKey, Proc(d));
    assert cs[0] == Direct(ts);
    assert Step(world, cs, w) == Run(Pass, world[ts := world[ts].(block := Some(Given(Proc(d))))]);
    assert [w][1..] == [];
  }
}
