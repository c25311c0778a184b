/** One declared parameter (lib/rake_factory/parameter.rb): its options, how
    a read resolves and transforms the stored slot, and when it counts as
    unset. Writing the slot belongs to the entity (entity.dfy). */
module Parameters {
  import opened Wrappers
  import opened Values

  /** The transform applied on every read: the identity lambda installed
      when none is given, the `name` parameter's symbol coercion
      (defaults.rb:84-88), or a user lambda. */
  datatype Transform = Identity | ToSymbol | Custom(callable: Callable)

  /** The options hash given to `parameter`; `Nil`/`None` stands for an
      absent key (Ruby's `options[:key]` cannot tell absent from nil). */
  datatype Options = Options(default: Val, required: Val, transform: Option<Transform>, configurable: Val)

  const NoOptions := Options(Nil, Nil, None, Nil)

  /** A parameter declaration; `default == Nil` means no default. */
  datatype Parameter = Parameter(name: string, default: Val, required: bool, configurable: bool, transform: Transform)

  /** `Parameter.new(name, options)` (parameter.rb:10-17). */
  function NewParameter(name: string, options: Options): (p: Parameter)
    ensures p.name == name && p.default == options.default
    ensures p.required <==> Truthy(options.required)
    ensures p.configurable <==> options.configurable == Nil || Truthy(options.configurable)
    ensures p.transform == if options.transform.Some? then options.transform.value else Identity
  {
    Parameter(
      name,
      options.default,
      Truthy(options.required),
      if options.configurable == Nil then true else Truthy(options.configurable),
      match options.transform
      case Some(t) => t
      case None => Identity)
  }

  /** Calls the transform on a resolved value: the identity returns it, the
      symbol coercion turns exactly the strings into symbols and returns
      everything else unchanged, and a user lambda receives it as its one
      argument. */
  function ApplyTransform(t: Transform, v: Val, host: Host): (r: Val)
    ensures t == Identity ==> r == v
    ensures t == ToSymbol ==> (r.Sym? <==> v.Sym? || v.Str?)
    ensures t == ToSymbol && v.Str? ==> r == Sym(v.s)
    ensures t == ToSymbol && !v.Str? ==> r == v
    ensures t.Custom? ==> r == host.call(t.callable, [v])
  {
    match t
    case Identity => v
    case ToSymbol =>
      (match v
       case Str(s) => Sym(s)
       case _ => v)
    case Custom(c) => host.call(c, [v])
  }

  /** The instance-variable slot of a parameter; an unset instance variable reads as nil. */
  function Slot(slots: map<string, Val>, name: string): Val {
    if name in slots then slots[name] else Nil
  }

  /** `get` (parameter.rb:68-72): resolve the stored slot, evaluate it with
      the entity as context, then transform it; nothing is cached. */
  function Get(p: Parameter, stored: Val, self: Val, host: Host): (r: Val)
    ensures !stored.Lazy? ==> r == ApplyTransform(p.transform, stored, host)
    ensures stored.Lazy? && stored.value.Static? ==> r == ApplyTransform(p.transform, stored.value.held, host)
    ensures stored.Lazy? && stored.value.Dynamic? ==>
      r == ApplyTransform(p.transform, host.call(stored.value.block, Take(CallArguments(stored.value, [self]), stored.value.block.arity)), host)
  {
    ApplyTransform(p.transform, Evaluate(Resolve(stored), [self], host), host)
  }

  /** `dissatisfied_by?` (parameter.rb:56-58): only a required parameter
      can be unset, and one holding a plain object with no transform is
      unset exactly when that object is nil. */
  predicate DissatisfiedBy(p: Parameter, stored: Val, self: Val, host: Host): (b: bool)
    ensures b ==> p.required
    ensures p.required && !stored.Lazy? && p.transform == Identity ==> (b <==> stored == Nil)
  {
    p.required && Get(p, stored, self, host) == Nil
  }

  /** `satisfied_by?` (parameter.rb:60-62): an optional parameter is always
      satisfied, a required one whenever its read value is not nil. */
  predicate SatisfiedBy(p: Parameter, stored: Val, self: Val, host: Host): (b: bool)
    ensures !p.required ==> b
    ensures b <==> !p.required || Get(p, stored, self, host) != Nil
  {
    !DissatisfiedBy(p, stored, self, host)
  }

  /** Writing a default (`apply_default_to`, parameter.rb:44-46): only a
      non-nil default is written, so a `false` default is. */
  function ApplyDefault(p: Parameter, slots: map<string, Val>): (r: map<string, Val>)
    ensures p.default != Nil ==> p.name in r && r[p.name] == p.default
    ensures p.default == Nil ==> r == slots
    ensures r.Keys == slots.Keys + (if p.default != Nil then {p.name} else {})
    ensures forall k :: k in slots && k != p.name ==> r[k] == slots[k]
  {
    if p.default != Nil then slots[p.name := p.default] else slots
  }

  // ---------------------------------------------------------------------
  // Properties

  /** With no options: not required, configurable, identity transform, no default. */
  lemma OptionDefaults(name: string)
    ensures NewParameter(name, NoOptions) == Parameter(name, Nil, false, true, Identity)
  {
  }

  /** Only an explicit `configurable: false` makes a parameter non-configurable. */
  lemma ConfigurableOnlyWhenNotFalse(name: string, options: Options)
    ensures !NewParameter(name, options).configurable <==> options.configurable == Bool(false)
  {
  }

  /** `false` is a default that is written; only nil is skipped. */
  lemma FalseDefaultIsApplied(p: Parameter, slots: map<string, Val>)
    requires p.default == Bool(false)
    ensures p.name in ApplyDefault(p, slots) && ApplyDefault(p, slots)[p.name] == Bool(false)
  {
  }

  /** Set-then-get round trip: a plain object stored in a slot reads back
      verbatim under the identity transform; a stored lambda is retained,
      not called. */
  lemma PlainSlotReadsBack(p: Parameter, v: Val, self: Val, host: Host)
    requires p.transform == Identity && !v.Lazy?
    ensures Get(p, v, self, host) == v
  {
  }

  /** A stored dynamic value is re-evaluated with the entity as its context on
      every read, then transformed: its block receives the first `arity` of
      its prepended arguments, the entity and its appended arguments, so a
      fresh one-parameter block receives the entity alone. */
  lemma DynamicSlotEvaluatedWithEntity(p: Parameter, x: Value, self: Val, host: Host)
    requires x.Dynamic?
    ensures Get(p, Lazy(x), self, host) == ApplyTransform(p.transform, host.call(x.block, Take(x.pre + [self] + x.post, x.block.arity)), host)
    ensures x.pre == [] && x.post == [] && x.block.arity == 1 ==> Get(p, Lazy(x), self, host) == ApplyTransform(p.transform, host.call(x.block, [self]), host)
  {
    if x.pre == [] && x.post == [] && x.block.arity == 1 {
      OneArityReceivesFirstContext(x.block, self, [], host);
      assert [self] + [] == [self];
    }
  }

  /** The symbol coercion of `name`: strings become symbols, symbols stay,
      anything that cannot be converted is returned unchanged; coercing twice
      is coercing once. */
  lemma ToSymbolCoerces(v: Val, host: Host)
    ensures v.Str? ==> ApplyTransform(ToSymbol, v, host) == Sym(v.s)
    ensures !v.Str? ==> ApplyTransform(ToSymbol, v, host) == v
    ensures ApplyTransform(ToSymbol, ApplyTransform(ToSymbol, v, host), host) == ApplyTransform(ToSymbol, v, host)
  {
  }

  /** Satisfaction: a parameter that is not required is always satisfied; a
      required one exactly when its read value is not nil. */
  lemma SatisfiedIffReadNotNil(p: Parameter, stored: Val, self: Val, host: Host)
    ensures !p.required ==> SatisfiedBy(p, stored, self, host)
    ensures p.required ==> (SatisfiedBy(p, stored, self, host) <==> Get(p, stored, self, host) != Nil)
    ensures SatisfiedBy(p, stored, self, host) != DissatisfiedBy(p, stored, self, host)
  {
  }
}
