/** Static and dynamic values (lib/rake_factory/values.rb).

    Ruby objects are modelled by `Val`. A `StaticValue` or `DynamicValue`
    stored in a parameter slot is itself a Ruby object, so `Val` embeds
    `Value` through `Lazy`. User-supplied blocks and lambdas are `Callable`s:
    the model knows how many parameters one declares, and nothing about its
    body, whose behaviour is the `Host` given to every evaluation. */
module Values {

  /** A Ruby block or lambda written by the user: its `arity` and an identity. */
  datatype Callable = Callable(arity: nat, id: nat)

  /** A Ruby object as far as the engine can observe it. */
  datatype Val =
    | Nil
    | Bool(b: bool)
    | Int(i: int)
    | Str(s: string)
    | Sym(name: string)
    | List(items: seq<Val>)
    | Hash(entries: map<string, Val>)
    | Obj(ref: object)            // an entity or a parameter view
    | Proc(callable: Callable)    // a lambda stored as a plain value
    | Lazy(value: Value)          // a StaticValue or DynamicValue object

  /** `StaticValue` holds a value; `DynamicValue` holds a block and the
      arguments spliced before and after the evaluation context. */
  datatype Value =
    | Static(held: Val)
    | Dynamic(block: Callable, pre: seq<Val>, post: seq<Val>)

  /** One assignment `receiver.name = value` made by a configuration block;
      `receiver` is the position of the block parameter it is made on. */
  datatype Write = Write(receiver: nat, name: string, value: Val)

  /** What the model cannot see of user code: the result a callable returns
      for given arguments, and the assignments a configuration block makes. */
  datatype Host = Host(
    call: (Callable, seq<Val>) -> Val,
    effects: (Callable, seq<Val>) -> seq<Write>)

  /** Ruby truthiness: everything except nil and false. */
  predicate Truthy(v: Val) {
    v != Nil && v != Bool(false)
  }

  /** `xs.slice(0, n)` for a natural `n`: the first `n` elements, or all of
      them when there are fewer. */
  function Take<T>(xs: seq<T>, n: nat): (r: seq<T>)
    ensures |r| == if n < |xs| then n else |xs|
    ensures forall i :: 0 <= i < |r| ==> r[i] == xs[i]
  {
    if n < |xs| then xs[..n] else xs
  }

  /** `Values.resolve` (values.rb:5-12): value objects pass through, any
      other object is wrapped in a static value, so resolving twice is
      resolving once. */
  function Resolve(v: Val): (r: Value)
    ensures v.Lazy? ==> r == v.value
    ensures !v.Lazy? ==> r == Static(v)
  {
    match v
    case Lazy(x) => x
    case _ => Static(v)
  }

  /** `prepend_argument` (values.rb:32-36, 55-57). */
  function Prepend(x: Value, argument: Val): (r: Value)
    ensures r.Dynamic? == x.Dynamic?
    ensures x.Static? ==> r == x
    ensures x.Dynamic? ==> r.block == x.block && r.post == x.post && r.pre == [argument] + x.pre
  {
    match x
    case Static(_) => x
    case Dynamic(block, pre, post) => Dynamic(block, [argument] + pre, post)
  }

  /** `append_argument` (values.rb:38-42, 59-61). */
  function Append(x: Value, argument: Val): (r: Value)
    ensures r.Dynamic? == x.Dynamic?
    ensures x.Static? ==> r == x
    ensures x.Dynamic? ==> r.block == x.block && r.pre == x.pre && r.post == x.post + [argument]
  {
    match x
    case Static(_) => x
    case Dynamic(block, pre, post) => Dynamic(block, pre, post + [argument])
  }

  /** Every argument a dynamic value has to offer its block for a context. */
  function CallArguments(x: Value, context: seq<Val>): seq<Val>
    requires x.Dynamic?
  {
    x.pre + context + x.post
  }

  /** `evaluate` (values.rb:44-47, 63-65): a static value is its held
      object; a dynamic value calls its block with as many of its call
      arguments as the block declares, so a block whose prepended arguments
      already fill its parameters never sees the context. */
  function Evaluate(x: Value, context: seq<Val>, host: Host): (r: Val)
    ensures x.Static? ==> r == x.held
    ensures x.Dynamic? ==> r == host.call(x.block, Take(CallArguments(x, context), x.block.arity))
    ensures x.Dynamic? && x.block.arity <= |x.pre| ==> r == host.call(x.block, x.pre[..x.block.arity])
  {
    match x
    case Static(v) => v
    case Dynamic(block, pre, post) =>
      PrefixFillsArity(pre, context + post, block.arity);
      assert pre + context + post == pre + (context + post);
      host.call(block, Take(pre + context + post, block.arity))
  }

  /** Taking no more than a leading part supplies is taking from that part. */
  lemma PrefixFillsArity<T>(pre: seq<T>, rest: seq<T>, n: nat)
    ensures n <= |pre| ==> Take(pre + rest, n) == pre[..n]
  {
    if n <= |pre| {
      assert (pre + rest)[..n] == pre[..n];
    }
  }

  // ---------------------------------------------------------------------
  // Properties

  /** A value that is already static or dynamic is returned unchanged, and
      resolving is idempotent. */
  lemma ResolveKeepsValues(x: Value, v: Val)
    ensures Resolve(Lazy(x)) == x
    ensures Resolve(Lazy(Resolve(v))) == Resolve(v)
  {
  }

  /** Anything that is not a value object is wrapped in a static value, which
      evaluates back to it under every context. */
  lemma ResolveWrapsPlainObjects(v: Val, context: seq<Val>, host: Host)
    requires !v.Lazy?
    ensures Resolve(v) == Static(v)
    ensures Evaluate(Resolve(v), context, host) == v
  {
  }

  /** A static value ignores its evaluation context. */
  lemma StaticIgnoresContext(v: Val, c1: seq<Val>, c2: seq<Val>, host: Host)
    ensures Evaluate(Static(v), c1, host) == v
    ensures Evaluate(Static(v), c1, host) == Evaluate(Static(v), c2, host)
  {
  }

  /** Prepending adds a leading argument to every future call, and nothing else. */
  lemma PrependLeadsEveryCall(x: Value, a: Val, context: seq<Val>)
    requires x.Dynamic?
    ensures CallArguments(Prepend(x, a), context) == [a] + CallArguments(x, context)
  {
    assert [a] + x.pre + context + x.post == [a] + (x.pre + context + x.post);
  }

  /** Appending adds a trailing argument to every future call, and nothing else. */
  lemma AppendTrailsEveryCall(x: Value, a: Val, context: seq<Val>)
    requires x.Dynamic?
    ensures CallArguments(Append(x, a), context) == CallArguments(x, context) + [a]
  {
    assert x.pre + context + (x.post + [a]) == (x.pre + context + x.post) + [a];
  }

  /** Context elements past the block's arity are never seen: two contexts
      that agree on their first `k` elements evaluate alike whenever the
      prepended arguments and those `k` cover the block's parameters. */
  lemma ContextBeyondArityIsInvisible(x: Value, c1: seq<Val>, c2: seq<Val>, k: nat, host: Host)
    requires x.Dynamic? && k <= |c1| && k <= |c2| && c1[..k] == c2[..k]
    requires x.block.arity <= |x.pre| + k
    ensures Evaluate(x, c1, host) == Evaluate(x, c2, host)
  {
    var n := x.block.arity;
    var a1 := Take(CallArguments(x, c1), n);
    var a2 := Take(CallArguments(x, c2), n);
    assert |a1| == n && |a2| == n;
    forall i | 0 <= i < n
      ensures a1[i] == a2[i]
    {
      if i >= |x.pre| {
        assert c1[i - |x.pre|] == c1[..k][i - |x.pre|];
        assert c2[i - |x.pre|] == c2[..k][i - |x.pre|];
      }
    }
    assert a1 == a2;
  }

  /** A block declaring no parameters ignores the context entirely. */
  lemma ZeroArityIgnoresContext(b: Callable, pre: seq<Val>, post: seq<Val>, c1: seq<Val>, c2: seq<Val>, host: Host)
    requires b.arity == 0
    ensures Evaluate(Dynamic(b, pre, post), c1, host) == host.call(b, [])
    ensures Evaluate(Dynamic(b, pre, post), c1, host) == Evaluate(Dynamic(b, pre, post), c2, host)
  {
  }

  /** A one-parameter block of a fresh dynamic value receives only the first
      context element (the entity, when a parameter is read). */
  lemma OneArityReceivesFirstContext(b: Callable, self: Val, rest: seq<Val>, host: Host)
    requires b.arity == 1
    ensures Evaluate(Dynamic(b, [], []), [self] + rest, host) == host.call(b, [self])
  {
    assert Take([] + ([self] + rest) + [], 1) == [self];
  }

  /** An argument appended after the context is seen only by a block that
      declares more parameters than the prefix and context supply. */
  lemma AppendBeyondArityIsInvisible(x: Value, a: Val, context: seq<Val>, host: Host)
    requires x.Dynamic? && x.block.arity <= |x.pre| + |context|
    ensures Evaluate(Append(x, a), context, host) == Evaluate(x, context, host)
  {
    var full := x.pre + context + x.post;
    var n := x.block.arity;
    AppendTrailsEveryCall(x, a, context);
    assert CallArguments(Append(x, a), context) == full + [a];
    assert Take(full + [a], n) == (full + [a])[..n];
    assert n <= |full|;
    assert (full + [a])[..n] == full[..n];
    if n < |full| {
      assert Take(full, n) == full[..n];
    } else {
      assert full[..n] == full;
    }
  }

  /** A fresh dynamic value whose block takes two parameters, once its
      runtime arguments are appended, receives `(entity, arguments)` when read. */
  lemma AppendedArgumentsReachSecondParameter(b: Callable, self: Val, args: Val, host: Host)
    requires b.arity == 2
    ensures Evaluate(Append(Dynamic(b, [], []), args), [self], host) == host.call(b, [self, args])
  {
    assert [] + [self] + ([] + [args]) == [self, args];
  }
}
