/** The class side of a task (lib/rake_factory/defaults.rb and the class
    method `parameter` of lib/rake_factory/parameters.rb:29-37).

    A task class owns a parameter set. Subclassing a task runs the
    `inherited` hook, which declares the five built-in parameters; the
    `default_*` class methods then overwrite their defaults. */
module Defaults {
  import opened Wrappers
  import opened Exceptions
  import opened Values
  import opened Parameters
  import opened ParameterSets

  const NameKey := "name"
  const ArgumentNamesKey := "argument_names"
  const PrerequisitesKey := "prerequisites"
  const OrderOnlyPrerequisitesKey := "order_only_prerequisites"
  const DescriptionKey := "description"

  const BuiltInNames := {NameKey, ArgumentNamesKey, PrerequisitesKey, OrderOnlyPrerequisitesKey, DescriptionKey}

  /** The options of the five built-in declarations (defaults.rb:61-88). */
  function BuiltInOptions(name: string): Options {
    if name == NameKey then Options(Nil, Nil, Some(ToSymbol), Bool(false))
    else if name == DescriptionKey then Options(Nil, Nil, None, Bool(false))
    else Options(List([]), Nil, None, Bool(false))
  }

  /** The table the `inherited` hook leaves. */
  function BuiltIns(): seq<Parameter> {
    [NewParameter(NameKey, BuiltInOptions(NameKey)),
     NewParameter(ArgumentNamesKey, BuiltInOptions(ArgumentNamesKey)),
     NewParameter(PrerequisitesKey, BuiltInOptions(PrerequisitesKey)),
     NewParameter(OrderOnlyPrerequisitesKey, BuiltInOptions(OrderOnlyPrerequisitesKey)),
     NewParameter(DescriptionKey, BuiltInOptions(DescriptionKey))]
  }

  lemma BuiltInTable()
    ensures UniqueNames(BuiltIns()) && NameSet(BuiltIns()) == BuiltInNames
    ensures Names(BuiltIns()) == [NameKey, ArgumentNamesKey, PrerequisitesKey, OrderOnlyPrerequisitesKey, DescriptionKey]
    ensures forall p :: p in BuiltIns() ==> p == NewParameter(p.name, BuiltInOptions(p.name))
  {
    BuiltInNamesDistinct();
    BuiltInNameSet();
    BuiltInNamesInOrder();
    BuiltInsDeclared();
  }

  lemma BuiltInNameSet()
    ensures NameSet(BuiltIns()) == BuiltInNames
  {
    var b := BuiltIns();
    assert forall p :: p in b <==> p == b[0] || p == b[1] || p == b[2] || p == b[3] || p == b[4];
  }

  lemma BuiltInNamesInOrder()
    ensures Names(BuiltIns()) == [NameKey, ArgumentNamesKey, PrerequisitesKey, OrderOnlyPrerequisitesKey, DescriptionKey]
  {
  }

  lemma BuiltInsDeclared()
    ensures forall p :: p in BuiltIns() ==> p == NewParameter(p.name, BuiltInOptions(p.name))
  {
    var b := BuiltIns();
    assert forall p :: p in b <==> p == b[0] || p == b[1] || p == b[2] || p == b[3] || p == b[4];
  }

  /** The five names have five different lengths. */
  lemma BuiltInNamesDistinct()
    ensures UniqueNames(BuiltIns())
  {
    var b := BuiltIns();
    assert |b[0].name| == 4 && |b[1].name| == 14 && |b[2].name| == 13 && |b[3].name| == 24 && |b[4].name| == 11;
  }

  /** With unique names, no parameter shares its name with an earlier one. */
  lemma NameNotBefore(ps: seq<Parameter>, k: nat)
    requires UniqueNames(ps) && k < |ps|
    ensures ps[k].name !in NameSet(ps[..k])
  {
    forall q | q in ps[..k] ensures q.name != ps[k].name {
      var i :| 0 <= i < k && ps[..k][i] == q;
    }
  }

  /** A class whose parameter set is a `ParameterSet`. */
  class TaskClass {
    const parameterSet: ParameterSet

    ghost predicate Valid()
      reads this, parameterSet
    {
      parameterSet.Valid() && BuiltInNames <= NameSet(parameterSet.parameters)
    }

    /** Subclassing a task: the `inherited` hook declares `name`,
        `argument_names`, `prerequisites`, `order_only_prerequisites` and
        `description`, in that order (defaults.rb:17-28). */
    constructor ()
      ensures Valid() && fresh(parameterSet)
      ensures Names(parameterSet.parameters) == [NameKey, ArgumentNamesKey, PrerequisitesKey, OrderOnlyPrerequisitesKey, DescriptionKey]
      ensures forall p :: p in parameterSet.parameters ==> p == NewParameter(p.name, BuiltInOptions(p.name))
    {
      var s := new ParameterSet();
      parameterSet := s;
      new;
      BuiltInTable();
      DeclareBuiltIn(s, NameKey, 0);
      DeclareBuiltIn(s, ArgumentNamesKey, 1);
      DeclareBuiltIn(s, PrerequisitesKey, 2);
      DeclareBuiltIn(s, OrderOnlyPrerequisitesKey, 3);
      DeclareBuiltIn(s, DescriptionKey, 4);
      assert BuiltIns()[..5] == BuiltIns();
    }

    /** `name_parameter`, `argument_names_parameter`, ... (defaults.rb:61-88):
        the built-in declaration `key`, the `k`-th in the hook. */
    static method DeclareBuiltIn(s: ParameterSet, key: string, k: nat)
      requires k < |BuiltIns()| && key == BuiltIns()[k].name
      requires s.Valid() && s.parameters == BuiltIns()[..k]
      modifies s
      ensures s.Valid() && s.parameters == BuiltIns()[..k + 1]
    {
      BuiltInNamesDistinct();
      NameNotBefore(BuiltIns(), k);
      var _ := s.Add(key, BuiltInOptions(key));
      assert BuiltIns()[..k + 1] == BuiltIns()[..k] + [BuiltIns()[k]];
    }

    /** The class method `parameter` (parameters.rb:34-37): declares the
        parameter in the class's set; instances get its reader and writer. */
    method Parameter(name: string, options: Options) returns (p: Parameter)
      requires Valid()
      modifies parameterSet
      ensures Valid()
      ensures p == NewParameter(name, options)
      ensures parameterSet.parameters == AddTo(old(parameterSet.parameters), p)
      ensures Find(parameterSet.parameters, name) == Some(p)
    {
      p := parameterSet.Add(name, options);
    }

    /** The `default_*` class methods (defaults.rb:30-51): a built-in's
        default is always found, so the update always succeeds. */
    method DefaultFor(key: string, value: Val)
      requires Valid() && key in BuiltInNames
      modifies parameterSet
      ensures Valid()
      ensures parameterSet.parameters == WithDefault(old(parameterSet.parameters), key, value)
    {
      var o := parameterSet.UpdateDefaultFor(key, value);
    }

    /** `default_name` (defaults.rb:30-32). */
    method DefaultName(name: Val)
      requires Valid()
      modifies parameterSet
      ensures Valid()
      ensures parameterSet.parameters == WithDefault(old(parameterSet.parameters), NameKey, name)
    {
      DefaultFor(NameKey, name);
    }

    /** `default_argument_names` (defaults.rb:34-36). */
    method DefaultArgumentNames(argumentNames: Val)
      requires Valid()
      modifies parameterSet
      ensures Valid()
      ensures parameterSet.parameters == WithDefault(old(parameterSet.parameters), ArgumentNamesKey, argumentNames)
    {
      DefaultFor(ArgumentNamesKey, argumentNames);
    }

    /** `default_prerequisites` (defaults.rb:38-40). */
    method DefaultPrerequisites(prerequisites: Val)
      requires Valid()
      modifies parameterSet
      ensures Valid()
      ensures parameterSet.parameters == WithDefault(old(parameterSet.parameters), PrerequisitesKey, prerequisites)
    {
      DefaultFor(PrerequisitesKey, prerequisites);
    }

    /** `default_order_only_prerequisites` (defaults.rb:42-47). */
    method DefaultOrderOnlyPrerequisites(orderOnlyPrerequisites: Val)
      requires Valid()
      modifies parameterSet
      ensures Valid()
      ensures parameterSet.parameters == WithDefault(old(parameterSet.parameters), OrderOnlyPrerequisitesKey, orderOnlyPrerequisites)
    {
      DefaultFor(OrderOnlyPrerequisitesKey, orderOnlyPrerequisites);
    }

    /** `default_description` (defaults.rb:49-51). */
    method DefaultDescription(description: Val)
      requires Valid()
      modifies parameterSet
      ensures Valid()
      ensures parameterSet.parameters == WithDefault(old(parameterSet.parameters), DescriptionKey, description)
    {
      DefaultFor(DescriptionKey, description);
    }
  }

  // ---------------------------------------------------------------------
  // Properties

  /** The built-ins: none is configurable or required; `name` coerces to a
      symbol; the three lists default to empty; `description` has no default. */
  lemma BuiltInDeclarations(key: string)
    requires key in BuiltInNames
    ensures var p := NewParameter(key, BuiltInOptions(key));
      && !p.configurable && !p.required && p.name == key
      && (key == NameKey ==> p.transform == ToSymbol && p.default == Nil)
      && (key == DescriptionKey ==> p.transform == Identity && p.default == Nil)
      && (key in {ArgumentNamesKey, PrerequisitesKey, OrderOnlyPrerequisitesKey} ==> p.transform == Identity && p.default == List([]))
  {
  }

  /** No built-in gets a writer on a parameter view. */
  lemma {:induction false} BuiltInsNotConfigurable(ps: seq<Parameter>)
    requires forall p :: p in ps ==> p == NewParameter(p.name, BuiltInOptions(p.name))
    ensures ConfigurableNames(ps) == {}
  {
    forall p | p in ps ensures !p.configurable {
      assert p == NewParameter(p.name, BuiltInOptions(p.name));
    }
  }

  /** A `default_*` update on a table holding the built-ins changes that
      built-in's default alone and keeps every built-in present. */
  lemma DefaultUpdateKeepsBuiltIns(ps: seq<Parameter>, key: string, value: Val)
    requires UniqueNames(ps) && BuiltInNames <= NameSet(ps) && key in BuiltInNames
    ensures BuiltInNames <= NameSet(WithDefault(ps, key, value))
    ensures Find(WithDefault(ps, key, value), key).value.default == value
    ensures forall n :: n != key ==> Find(WithDefault(ps, key, value), n) == Find(ps, n)
  {
    WithDefaultChangesOnlyNamed(ps, key, value);
    var r := WithDefault(ps, key, value);
    forall n | n != key ensures Find(r, n) == Find(ps, n) {
      if n in NameSet(ps) {
        var i := IndexOf(ps, n);
        FindAt(ps, i);
        FindAt(r, i);
      }
    }
  }
}
