/** The ordered table of a class's parameters (lib/rake_factory/parameter_set.rb).

    The Ruby hash from name to `Parameter` is a sequence with unique names,
    in insertion order. `ParameterSet` is the mutable class-level object;
    the functions below are the table operations on a sequence, which the
    entity (entity.dfy) uses for its snapshot of the table. */
module ParameterSets {
  import opened Wrappers
  import opened Exceptions
  import opened Values
  import opened Parameters

  predicate UniqueNames(ps: seq<Parameter>) {
    forall i, j :: 0 <= i < j < |ps| ==> ps[i].name != ps[j].name
  }

  /** The names in declaration order. */
  function Names(ps: seq<Parameter>): (r: seq<string>)
    ensures |r| == |ps| && forall i :: 0 <= i < |ps| ==> r[i] == ps[i].name
  {
    if ps == [] then [] else Names(ps[..|ps| - 1]) + [ps[|ps| - 1].name]
  }

  function NameSet(ps: seq<Parameter>): set<string> {
    set p | p in ps :: p.name
  }

  /** The names of the configurable parameters, for which views get writers. */
  function ConfigurableNames(ps: seq<Parameter>): set<string> {
    set p | p in ps && p.configurable :: p.name
  }

  /** Where a name stands in the table. */
  function IndexOf(ps: seq<Parameter>, name: string): (i: nat)
    requires name in NameSet(ps)
    ensures i < |ps| && ps[i].name == name
  {
    if ps[0].name == name then 0
    else
      assert name in NameSet(ps[1..]) by {
        var q :| q in ps && q.name == name;
        assert q != ps[0];
        assert q in ps[1..];
      }
      1 + IndexOf(ps[1..], name)
  }

  /** `find` (parameter_set.rb:18-20). */
  function Find(ps: seq<Parameter>, name: string): (r: Option<Parameter>)
    ensures r.Some? <==> name in NameSet(ps)
    ensures r.Some? ==> r.value in ps && r.value.name == name
  {
    if name in NameSet(ps) then Some(ps[IndexOf(ps, name)]) else None
  }

  /** Hash assignment by name (parameter_set.rb:12-16): an existing entry is
      replaced where it stands, a new one goes last. */
  function AddTo(ps: seq<Parameter>, p: Parameter): (r: seq<Parameter>)
    ensures p in r
    ensures |r| == if p.name in NameSet(ps) then |ps| else |ps| + 1
    ensures forall i :: 0 <= i < |ps| && ps[i].name != p.name ==> r[i] == ps[i]
  {
    if p.name in NameSet(ps) then
      var i := IndexOf(ps, p.name);
      assert ps[i := p][i] == p;
      ps[i := p]
    else ps + [p]
  }

  /** `update_default_for` (parameter_set.rb:26-28) on a table that holds `name`. */
  function WithDefault(ps: seq<Parameter>, name: string, v: Val): (r: seq<Parameter>)
    requires name in NameSet(ps)
    ensures |r| == |ps|
    ensures forall i :: 0 <= i < |ps| ==>
      r[i].name == ps[i].name && r[i].required == ps[i].required &&
      r[i].configurable == ps[i].configurable && r[i].transform == ps[i].transform
    ensures exists i :: 0 <= i < |ps| && ps[i].name == name && r[i] == ps[i].(default := v)
  {
    var i := IndexOf(ps, name);
    ps[i := ps[i].(default := v)]
  }

  /** `apply_defaults_to` (parameter_set.rb:30-34): every default, in
      declaration order; only parameters' slots are written. */
  function WithDefaults(ps: seq<Parameter>, slots: map<string, Val>): (r: map<string, Val>)
    ensures slots.Keys <= r.Keys <= slots.Keys + NameSet(ps)
    ensures forall k :: k in slots && k !in NameSet(ps) ==> r[k] == slots[k]
  {
    if ps == [] then slots
    else
      NameSetOfPrefix(ps[..|ps| - 1], ps[|ps| - 1]);
      assert ps[..|ps| - 1] + [ps[|ps| - 1]] == ps;
      ApplyDefault(ps[|ps| - 1], WithDefaults(ps[..|ps| - 1], slots))
  }

  /** The names of the parameters an entity leaves dissatisfied, in
      declaration order (parameter_set.rb:36-41): parameters' names, no more
      of them than there are parameters. */
  function Unsatisfied(ps: seq<Parameter>, slots: map<string, Val>, self: Val, host: Host): (r: seq<string>)
    ensures |r| <= |ps|
    ensures forall n :: n in r ==> n in NameSet(ps)
  {
    if ps == [] then []
    else
      NameSetOfPrefix(ps[..|ps| - 1], ps[|ps| - 1]);
      assert ps[..|ps| - 1] + [ps[|ps| - 1]] == ps;
      var rest := Unsatisfied(ps[..|ps| - 1], slots, self, host);
      var p := ps[|ps| - 1];
      if DissatisfiedBy(p, Slot(slots, p.name), self, host) then rest + [p.name] else rest
  }

  /** `names.join(sep)`. */
  function Join(names: seq<string>, sep: string): string {
    if names == [] then ""
    else if |names| == 1 then names[0]
    else names[0] + sep + Join(names[1..], sep)
  }

  /** The message of the combined error (parameter_set.rb:42-47): a single
      name stands alone, more than one take the plural. */
  function RequirementsMessage(names: seq<string>): (m: string)
    ensures |names| == 1 ==> m == "Required parameter " + names[0] + " unset."
    ensures "Required parameter" <= m
    ensures "Required parameters" <= m <==> |names| > 1
  {
    var m := "Required parameter" + (if |names| > 1 then "s" else "") + " " + Join(names, ",") + " unset.";
    assert m[18] == if |names| > 1 then 's' else ' ';
    assert "Required parameters" <= m ==> m[18] == "Required parameters"[18];
    m
  }

  /** `enforce_requirements_on` (parameter_set.rb:36-48). */
  function Enforce(ps: seq<Parameter>, slots: map<string, Val>, self: Val, host: Host): (o: Outcome<Error>)
    ensures o.Pass? <==> forall p :: p in ps ==> SatisfiedBy(p, Slot(slots, p.name), self, host)
    ensures o.Fail? ==> o.error.RequiredParameterUnset?
    ensures o.Fail? ==> o.error == RequiredParameterUnset(RequirementsMessage(Unsatisfied(ps, slots, self, host)))
  {
    var names := Unsatisfied(ps, slots, self, host);
    NoneUnsatisfiedIffAllSatisfied(ps, slots, self, host);
    if names == [] then Pass else Fail(RequiredParameterUnset(RequirementsMessage(names)))
  }

  /** `read_from` (parameter_set.rb:50-54): one entry per parameter. */
  function Snapshot(ps: seq<Parameter>, slots: map<string, Val>, self: Val, host: Host): (r: map<string, Val>)
    ensures r.Keys == NameSet(ps)
  {
    if ps == [] then map[]
    else
      NameSetOfPrefix(ps[..|ps| - 1], ps[|ps| - 1]);
      assert ps[..|ps| - 1] + [ps[|ps| - 1]] == ps;
      var p := ps[|ps| - 1];
      Snapshot(ps[..|ps| - 1], slots, self, host)[p.name := Get(p, Slot(slots, p.name), self, host)]
  }

  predicate OccursAt(s: string, t: string, i: nat) {
    i + |t| <= |s| && s[i..i + |t|] == t
  }

  /** `t` is a substring of `s`. */
  ghost predicate Contains(s: string, t: string) {
    exists i: nat :: OccursAt(s, t, i)
  }

  // ---------------------------------------------------------------------
  // Properties of the table operations

  lemma {:induction false} NameSetOfPrefix(ps: seq<Parameter>, p: Parameter)
    ensures NameSet(ps + [p]) == NameSet(ps) + {p.name}
  {
    assert forall q :: q in ps + [p] <==> q in ps || q == p;
  }

  /** With unique names, `find` returns the entry standing at a name's position. */
  lemma {:induction false} FindAt(ps: seq<Parameter>, i: nat)
    requires UniqueNames(ps) && i < |ps|
    ensures Find(ps, ps[i].name) == Some(ps[i])
  {
    assert ps[i] in ps;
    var j := IndexOf(ps, ps[i].name);
    assert j == i;
  }

  /** Adding keeps the names unique, makes `p` the entry for its name, and
      leaves every other entry where it was. */
  lemma AddToReplacesOrAppends(ps: seq<Parameter>, p: Parameter)
    requires UniqueNames(ps)
    ensures UniqueNames(AddTo(ps, p))
    ensures NameSet(AddTo(ps, p)) == NameSet(ps) + {p.name}
    ensures Find(AddTo(ps, p), p.name) == Some(p)
    ensures forall n :: n != p.name ==> Find(AddTo(ps, p), n) == Find(ps, n)
    ensures p.name in NameSet(ps) ==> |AddTo(ps, p)| == |ps|
    ensures p.name !in NameSet(ps) ==> AddTo(ps, p) == ps + [p]
  {
    var r := AddTo(ps, p);
    var k := if p.name in NameSet(ps) then IndexOf(ps, p.name) else |ps|;
    assert |r| == |ps| || |r| == |ps| + 1;
    assert r[k] == p;
    assert forall i :: 0 <= i < |r| && i != k ==> r[i] == ps[i];
    assert forall i :: 0 <= i < |ps| && i != k ==> ps[i].name != p.name;
    assert UniqueNames(r);
    assert NameSet(r) == NameSet(ps) + {p.name} by {
      forall n | n in NameSet(ps) + {p.name} ensures n in NameSet(r) {
        if n != p.name {
          var q :| q in ps && q.name == n;
          var i :| 0 <= i < |ps| && ps[i] == q;
          assert r[i] == q;
        }
      }
      forall n | n in NameSet(r) ensures n in NameSet(ps) + {p.name} {
        var q :| q in r && q.name == n;
        var i :| 0 <= i < |r| && r[i] == q;
        if i != k { assert ps[i] in ps; }
      }
    }
    FindAt(r, k);
    forall n | n != p.name ensures Find(r, n) == Find(ps, n) {
      if n in NameSet(ps) {
        var i := IndexOf(ps, n);
        FindAt(ps, i);
        FindAt(r, i);
      }
    }
  }

  /** `update_default_for` changes only the named entry's default: names,
      order and every other entry are untouched, and names stay unique. */
  lemma WithDefaultChangesOnlyNamed(ps: seq<Parameter>, name: string, v: Val)
    requires UniqueNames(ps) && name in NameSet(ps)
    ensures |WithDefault(ps, name, v)| == |ps|
    ensures forall i :: 0 <= i < |ps| ==> WithDefault(ps, name, v)[i].name == ps[i].name
    ensures forall i :: 0 <= i < |ps| && ps[i].name != name ==> WithDefault(ps, name, v)[i] == ps[i]
    ensures Find(WithDefault(ps, name, v), name) == Some(Find(ps, name).value.(default := v))
    ensures UniqueNames(WithDefault(ps, name, v))
    ensures NameSet(WithDefault(ps, name, v)) == NameSet(ps)
  {
    var r := WithDefault(ps, name, v);
    var k := IndexOf(ps, name);
    FindAt(ps, k);
    FindAt(r, k);
    assert NameSet(r) == NameSet(ps) by {
      forall n | n in NameSet(ps) ensures n in NameSet(r) {
        var q :| q in ps && q.name == n;
        var i :| 0 <= i < |ps| && ps[i] == q;
        assert r[i].name == n;
        assert r[i] in r;
      }
      forall n | n in NameSet(r) ensures n in NameSet(ps) {
        var q :| q in r && q.name == n;
        var i :| 0 <= i < |r| && r[i] == q;
        assert ps[i] in ps;
      }
    }
  }

  /** After the defaults are applied, each parameter with a non-nil default
      holds that default. */
  lemma {:induction false} WithDefaultsHoldsDefault(ps: seq<Parameter>, slots: map<string, Val>, i: nat)
    requires UniqueNames(ps) && i < |ps| && ps[i].default != Nil
    ensures ps[i].name in WithDefaults(ps, slots)
    ensures WithDefaults(ps, slots)[ps[i].name] == ps[i].default
  {
    var n := |ps| - 1;
    if i < n {
      WithDefaultsHoldsDefault(ps[..n], slots, i);
    }
  }

  /** A slot that no non-nil default names keeps what it held before. */
  lemma {:induction false} WithDefaultsElsewhere(ps: seq<Parameter>, slots: map<string, Val>, k: string)
    requires forall p :: p in ps && p.name == k ==> p.default == Nil
    ensures k in WithDefaults(ps, slots) <==> k in slots
    ensures k in slots ==> WithDefaults(ps, slots)[k] == slots[k]
  {
    if ps != [] {
      var n := |ps| - 1;
      assert forall p :: p in ps[..n] ==> p in ps;
      WithDefaultsElsewhere(ps[..n], slots, k);
    }
  }

  /** Exactly the dissatisfied parameters are named, and there are no more
      names than parameters (UnsatisfiedInOrder: each once, in order, when
      the names are unique). */
  lemma {:induction false} UnsatisfiedMembers(ps: seq<Parameter>, slots: map<string, Val>, self: Val, host: Host)
    ensures forall n :: n in Unsatisfied(ps, slots, self, host) <==>
      exists p :: p in ps && p.name == n && DissatisfiedBy(p, Slot(slots, n), self, host)
    ensures |Unsatisfied(ps, slots, self, host)| <= |ps|
  {
    if ps != [] {
      var n := |ps| - 1;
      UnsatisfiedMembers(ps[..n], slots, self, host);
      assert forall p :: p in ps <==> p in ps[..n] || p == ps[n];
    }
  }

  /** No name is listed twice. */
  predicate Distinct(names: seq<string>) {
    forall a, b :: 0 <= a < b < |names| ==> names[a] != names[b]
  }

  /** `x` is listed somewhere before `y`. */
  predicate ListedBefore(names: seq<string>, x: string, y: string) {
    exists a, b :: 0 <= a < b < |names| && names[a] == x && names[b] == y
  }

  /** With unique names, no unset parameter is named twice. */
  lemma {:induction false} UnsatisfiedDistinct(ps: seq<Parameter>, slots: map<string, Val>, self: Val, host: Host)
    requires UniqueNames(ps)
    ensures Distinct(Unsatisfied(ps, slots, self, host))
  {
    if ps != [] {
      var n := |ps| - 1;
      var pre := ps[..n];
      var p := ps[n];
      UnsatisfiedDistinct(pre, slots, self, host);
      var rest := Unsatisfied(pre, slots, self, host);
      var u := Unsatisfied(ps, slots, self, host);
      if u != rest {
        assert u == rest + [p.name];
        assert p.name !in NameSet(pre) by {
          forall q | q in pre ensures q.name != p.name {
            var k :| 0 <= k < n && pre[k] == q;
            assert ps[k] == q;
          }
        }
        forall a, b | 0 <= a < b < |u| ensures u[a] != u[b] {
          assert u[a] == rest[a];
          if b == |rest| {
            assert rest[a] in rest;
            assert u[b] == p.name;
          } else {
            assert u[b] == rest[b];
            assert rest[a] != rest[b];
          }
        }
      }
    }
  }

  /** Unset parameters are named in declaration order: an earlier declared
      one before a later one. */
  lemma {:induction false} UnsatisfiedInOrder(ps: seq<Parameter>, slots: map<string, Val>, self: Val, host: Host)
    ensures forall i, j :: (0 <= i < j < |ps| &&
      DissatisfiedBy(ps[i], Slot(slots, ps[i].name), self, host) &&
      DissatisfiedBy(ps[j], Slot(slots, ps[j].name), self, host)) ==>
      ListedBefore(Unsatisfied(ps, slots, self, host), ps[i].name, ps[j].name)
  {
    if ps != [] {
      var n := |ps| - 1;
      var pre := ps[..n];
      var p := ps[n];
      UnsatisfiedInOrder(pre, slots, self, host);
      UnsatisfiedMembers(pre, slots, self, host);
      var rest := Unsatisfied(pre, slots, self, host);
      var u := Unsatisfied(ps, slots, self, host);
      assert |rest| <= |u| && forall k :: 0 <= k < |rest| ==> u[k] == rest[k];
      forall i, j | 0 <= i < j < |ps| &&
        DissatisfiedBy(ps[i], Slot(slots, ps[i].name), self, host) &&
        DissatisfiedBy(ps[j], Slot(slots, ps[j].name), self, host)
        ensures ListedBefore(u, ps[i].name, ps[j].name)
      {
        assert pre[i] == ps[i];
        if j == n {
          assert u == rest + [p.name];
          assert ps[i].name in rest;
          var a :| 0 <= a < |rest| && rest[a] == ps[i].name;
          assert u[a] == ps[i].name && u[|rest|] == ps[j].name;
        } else {
          assert pre[j] == ps[j];
          var a, b :| 0 <= a < b < |rest| && rest[a] == ps[i].name && rest[b] == ps[j].name;
          assert u[a] == rest[a] && u[b] == rest[b];
        }
      }
    }
  }

  lemma NoneUnsatisfiedIffAllSatisfied(ps: seq<Parameter>, slots: map<string, Val>, self: Val, host: Host)
    ensures Unsatisfied(ps, slots, self, host) == [] <==>
      forall p :: p in ps ==> SatisfiedBy(p, Slot(slots, p.name), self, host)
  {
    var names := Unsatisfied(ps, slots, self, host);
    UnsatisfiedMembers(ps, slots, self, host);
    if names != [] {
      assert names[0] in names;
    }
  }

  /** Two required parameters left unset are named in declaration order,
      with the plural. */
  lemma TwoUnsetNamedInOrder(p1: Parameter, p2: Parameter, slots: map<string, Val>, self: Val, host: Host)
    requires p1.required && p2.required && p1.transform == Identity && p2.transform == Identity
    requires p1.name !in slots && p2.name !in slots
    ensures Enforce([p1, p2], slots, self, host)
      == Fail(RequiredParameterUnset("Required parameters " + p1.name + "," + p2.name + " unset."))
  {
    assert DissatisfiedBy(p1, Slot(slots, p1.name), self, host);
    assert DissatisfiedBy(p2, Slot(slots, p2.name), self, host);
    assert [p1, p2][..1] == [p1];
    assert [p1][..0] == [];
    assert Unsatisfied([p1], slots, self, host) == [p1.name];
    assert Unsatisfied([p1, p2], slots, self, host) == [p1.name, p2.name];
    assert Join([p1.name, p2.name], ",") == p1.name + "," + Join([p2.name], ",");
    assert Join([p1.name, p2.name], ",") == p1.name + "," + p2.name;
    assert RequirementsMessage([p1.name, p2.name])
      == "Required parameters " + p1.name + "," + p2.name + " unset.";
  }

  lemma ContainsAt(s: string, t: string, i: nat)
    requires OccursAt(s, t, i)
    ensures Contains(s, t)
  {
  }

  /** Every joined name is a substring of the joined string. */
  lemma {:induction false} JoinContainsEach(names: seq<string>, sep: string, k: nat)
    requires k < |names|
    ensures Contains(Join(names, sep), names[k])
  {
    var j := Join(names, sep);
    if |names| == 1 {
      ContainsAt(j, names[0], 0);
    } else if k == 0 {
      assert j == names[0] + (sep + Join(names[1..], sep));
      assert j[0..|names[0]|] == names[0];
      ContainsAt(j, names[0], 0);
    } else {
      JoinContainsEach(names[1..], sep, k - 1);
      var rest := Join(names[1..], sep);
      var t := names[k];
      var i: nat :| OccursAt(rest, t, i);
      var off := |names[0]| + |sep|;
      assert j == (names[0] + sep) + rest;
      assert j[off + i..off + i + |t|] == rest[i..i + |t|];
      ContainsAt(j, t, off + i);
    }
  }

  /** The message names each of the names it is built from. */
  lemma MessageContainsEach(names: seq<string>, k: nat)
    requires k < |names|
    ensures Contains(RequirementsMessage(names), names[k])
  {
    JoinContainsEach(names, ",", k);
    var prefix := "Required parameter" + (if |names| > 1 then "s" else "") + " ";
    var j := Join(names, ",");
    var m := RequirementsMessage(names);
    var t := names[k];
    assert m == prefix + j + " unset.";
    var i: nat :| OccursAt(j, t, i);
    assert m[|prefix| + i..|prefix| + i + |t|] == j[i..i + |t|];
    ContainsAt(m, t, |prefix| + i);
  }

  /** The combined error names every unset required parameter. */
  lemma MessageNamesEveryUnset(ps: seq<Parameter>, slots: map<string, Val>, self: Val, host: Host, p: Parameter)
    requires p in ps && DissatisfiedBy(p, Slot(slots, p.name), self, host)
    ensures Enforce(ps, slots, self, host).Fail?
    ensures Contains(Enforce(ps, slots, self, host).error.message, p.name)
  {
    var names := Unsatisfied(ps, slots, self, host);
    UnsatisfiedMembers(ps, slots, self, host);
    assert p.name in names;
    var k :| 0 <= k < |names| && names[k] == p.name;
    MessageContainsEach(names, k);
  }

  /** The message pluralises only for more than one name. */
  lemma MessageShapes()
    ensures RequirementsMessage(["spinach"]) == "Required parameter spinach unset."
    ensures RequirementsMessage(["spinach", "lettuce"]) == "Required parameters spinach,lettuce unset."
  {
    TwoNamesJoined("spinach", "lettuce");
  }

  /** Two names are joined around one separator. */
  lemma TwoNamesJoined(a: string, b: string)
    ensures Join([a, b], ",") == a + "," + b
  {
    assert [a, b][1..] == [b];
  }

  /** The snapshot has exactly one key per parameter, mapped to its read value. */
  lemma {:induction false} SnapshotReadsEach(ps: seq<Parameter>, slots: map<string, Val>, self: Val, host: Host)
    requires UniqueNames(ps)
    ensures Snapshot(ps, slots, self, host).Keys == NameSet(ps)
    ensures forall p :: p in ps ==> Snapshot(ps, slots, self, host)[p.name] == Get(p, Slot(slots, p.name), self, host)
  {
    if ps != [] {
      var n := |ps| - 1;
      var pre := ps[..n];
      var last := ps[n];
      SnapshotReadsEach(pre, slots, self, host);
      var m := Snapshot(pre, slots, self, host);
      var r := Snapshot(ps, slots, self, host);
      assert r == m[last.name := Get(last, Slot(slots, last.name), self, host)];
      forall p | p in ps
        ensures r[p.name] == Get(p, Slot(slots, p.name), self, host)
      {
        if p != last {
          var i :| 0 <= i < |ps| && ps[i] == p;
          assert i != n;
          assert pre[i] == p;
          assert p.name != last.name;
        }
      }
    }
  }

  /** The mutable table of one class (`ParameterSet`). */
  class ParameterSet {
    var parameters: seq<Parameter>

    ghost predicate Valid()
      reads this
    {
      UniqueNames(parameters)
    }

    /** `ParameterSet.new` (parameter_set.rb:8-10). */
    constructor ()
      ensures Valid() && parameters == []
    {
      parameters := [];
    }

    /** `add` (parameter_set.rb:12-16). */
    method Add(name: string, options: Options) returns (p: Parameter)
      requires Valid()
      modifies this
      ensures Valid()
      ensures p == NewParameter(name, options)
      ensures parameters == AddTo(old(parameters), p)
      ensures NameSet(parameters) == NameSet(old(parameters)) + {name}
      ensures name !in NameSet(old(parameters)) ==> parameters == old(parameters) + [p]
      ensures Find(parameters, name) == Some(p)
    {
      p := NewParameter(name, options);
      AddToReplacesOrAppends(parameters, p);
      parameters := AddTo(parameters, p);
    }

    /** `find` on the table. */
    function FindParameter(name: string): (r: Option<Parameter>)
      reads this
      ensures r.Some? <==> name in NameSet(parameters)
      ensures r.Some? ==> r.value in parameters && r.value.name == name
    {
      Find(parameters, name)
    }

    /** `update_default_for` (parameter_set.rb:26-28); an unknown name calls
        `default=` on nil. */
    method UpdateDefaultFor(name: string, value: Val) returns (o: Outcome<Error>)
      requires Valid()
      modifies this
      ensures Valid()
      ensures o.Pass? <==> name in NameSet(old(parameters))
      ensures o.Fail? ==> o.error == NoMethodError("default=") && parameters == old(parameters)
      ensures o.Pass? ==> name in NameSet(old(parameters)) && parameters == WithDefault(old(parameters), name, value)
      ensures NameSet(parameters) == NameSet(old(parameters))
    {
      if name !in NameSet(parameters) {
        return Fail(NoMethodError("default="));
      }
      WithDefaultChangesOnlyNamed(parameters, name, value);
      parameters := WithDefault(parameters, name, value);
      o := Pass;
    }
  }
}
