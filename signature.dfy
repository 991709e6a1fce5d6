/** The signature matcher: the checks a loaded script module and the supplied arguments must
    pass before `entrypoint(dist, **args)` is called. */
module Signature {
  import opened Outcomes
  import opened Values

  /** The `entrypoint` attribute of a loaded module: not callable, or a function with its
      declared positional parameter names, as `inspect.getfullargspec(...).args` lists them. */
  datatype Entrypoint = NotCallable | Function(params: seq<string>)

  /** A loaded script module, reduced to its `entrypoint` attribute (absent or present). */
  datatype Module = Module(entrypoint: Option<Entrypoint>)

  function MissingEntrypoint(script: string): string
  {
    "Unable to find \"entrypoint\" function in the script \"" + script + "\""
  }

  function NotAFunction(script: string): string
  {
    "\"entrypoint\" is not a function in the script \"" + script + "\""
  }

  const NoParameters: string := "function \"entrypoint\" should accept at least one argument"

  const CountMismatch: string :=
    "Number of arguments of \"entrypoint\" does not match number of provided arguments"

  function UnknownArgument(name: string): string
  {
    "\"entrypoint\" does not accept argument \"" + name + "\""
  }

  /** `_validate_arg`: the name is checked against every declared parameter, the first one
      (the one that receives the distribution) included. */
  function ValidateArg(name: string, params: seq<string>): (r: Option<string>)
    ensures r.None? <==> name in params
    ensures r.Some? ==> r.value == UnknownArgument(name)
  {
    if name !in params then Some(UnknownArgument(name)) else None
  }

  /** The failure of the first supplied argument whose name the entrypoint does not declare. */
  function ArgNamesFailure(args: seq<(string, Value)>, params: seq<string>): Option<Failure>
  {
    if |args| == 0 then None
    else match ValidateArg(args[0].0, params)
      case Some(message) => Some(Reported(message))
      case None => ArgNamesFailure(args[1..], params)
  }

  /** The name check passes exactly when every supplied name is declared; otherwise it reports
      the first supplied name, in argument order, that is not. */
  lemma {:induction false} ArgNamesFirstUnknown(args: seq<(string, Value)>, params: seq<string>)
    returns (k: nat)
    ensures ArgNamesFailure(args, params).None? <==> forall i :: 0 <= i < |args| ==> args[i].0 in params
    ensures ArgNamesFailure(args, params).Some? ==>
      && k < |args| && args[k].0 !in params
      && (forall j :: 0 <= j < k ==> args[j].0 in params)
      && ArgNamesFailure(args, params) == Some(Reported(UnknownArgument(args[k].0)))
  {
    k := 0;
    if |args| > 0 && args[0].0 in params {
      var k' := ArgNamesFirstUnknown(args[1..], params);
      k := k' + 1;
      forall i | 0 < i < |args| ensures args[i].0 == args[1..][i - 1].0 { }
    }
  }

  /** The loop over `args.items()`: it stops at the first name the entrypoint does not accept. */
  method CheckArgNames(args: seq<(string, Value)>, params: seq<string>) returns (r: Option<Failure>)
    ensures r == ArgNamesFailure(args, params)
  {
    var i := 0;
    while i < |args|
      invariant 0 <= i <= |args|
      invariant ArgNamesFailure(args, params) == ArgNamesFailure(args[i..], params)
    {
      assert args[i..][1..] == args[i + 1..];
      var maybeError := ValidateArg(args[i].0, params);
      if maybeError.Some? {
        return Some(Reported(maybeError.value));
      }
      i := i + 1;
    }
    return None;
  }

  /** The checks on a loaded module and the supplied arguments, in the order they are made:
      the attribute exists, it is callable, it declares a parameter, `len(args)` is one less
      than the number of parameters, and every supplied name is declared. `len` of a value
      without a length raises TypeError, and `.items()` of a non-dictionary AttributeError. */
  function SignatureFailure(script: string, m: Module, args: Value): (r: Option<Failure>)
    ensures r.None? ==> args.Dict?
  {
    match m.entrypoint
    case None => Some(Reported(MissingEntrypoint(script)))
    case Some(NotCallable) => Some(Reported(NotAFunction(script)))
    case Some(Function(params)) =>
      if |params| == 0 then Some(Reported(NoParameters))
      else match Length(args)
        case None => Some(Raised("TypeError"))
        case Some(n) =>
          if |params| - 1 != n then Some(Reported(CountMismatch))
          else if !args.Dict? then Some(Raised("AttributeError"))
          else ArgNamesFailure(args.entries, params)
  }

  /** The checks of `_call_script` between loading the script and calling its entrypoint. */
  method CheckSignature(script: string, m: Module, args: Value) returns (r: Option<Failure>)
    ensures r == SignatureFailure(script, m, args)
  {
    if m.entrypoint.None? {
      return Some(Reported(MissingEntrypoint(script)));
    }
    if m.entrypoint.value.NotCallable? {
      return Some(Reported(NotAFunction(script)));
    }
    var params := m.entrypoint.value.params;
    if |params| == 0 {
      return Some(Reported(NoParameters));
    }
    var length := Length(args);
    if length.None? {
      return Some(Raised("TypeError"));
    }
    if |params| - 1 != length.value {
      return Some(Reported(CountMismatch));
    }
    if !args.Dict? {
      return Some(Raised("AttributeError"));
    }
    r := CheckArgNames(args.entries, params);
  }

  /** The entrypoint is called exactly when it exists, is callable, declares at least one
      parameter, the arguments are a dictionary with one entry fewer than the parameters, and
      every argument name is among the declared parameters. */
  lemma SignatureAccepts(script: string, m: Module, args: Value)
    ensures SignatureFailure(script, m, args).None? <==>
      && m.entrypoint.Some? && m.entrypoint.value.Function?
      && |m.entrypoint.value.params| >= 1
      && args.Dict?
      && |m.entrypoint.value.params| - 1 == |args.entries|
      && forall i :: 0 <= i < |args.entries| ==> args.entries[i].0 in m.entrypoint.value.params
  {
    if args.Dict? && m.entrypoint.Some? && m.entrypoint.value.Function? {
      var _ := ArgNamesFirstUnknown(args.entries, m.entrypoint.value.params);
    }
  }

  /** The set of names in a list of names. */
  function NameSet(names: seq<string>): set<string>
  {
    set x | x in names
  }

  predicate Distinct(names: seq<string>)
  {
    forall i, j :: 0 <= i < j < |names| ==> names[i] != names[j]
  }

  lemma {:induction false} DistinctNameSetSize(names: seq<string>)
    requires Distinct(names)
    ensures |NameSet(names)| == |names|
  {
    if |names| > 0 {
      DistinctNameSetSize(names[1..]);
      assert NameSet(names) == {names[0]} + NameSet(names[1..]);
      assert names[0] !in NameSet(names[1..]);
    }
  }

  /** When the first parameter's name is not among the supplied arguments, an accepted call
      binds them exactly: the supplied names are the declared parameters after the first,
      whatever their order (parameter names are distinct in Python, and so are dictionary keys). */
  lemma AcceptedArgsBindExactly(script: string, params: seq<string>, args: Value)
    requires SignatureFailure(script, Module(Some(Function(params))), args).None?
    requires Distinct(params)
    requires args.Dict? && Distinct(Keys(args.entries))
    requires params != [] && params[0] !in Keys(args.entries)
    ensures NameSet(Keys(args.entries)) == NameSet(params[1..])
  {
    SignatureAccepts(script, Module(Some(Function(params))), args);
    var names := Keys(args.entries);
    var declared := NameSet(params[1..]);
    assert NameSet(names) <= declared by {
      forall x | x in NameSet(names) ensures x in declared {
        var i :| 0 <= i < |names| && names[i] == x;
        assert x == args.entries[i].0;
        var j :| 0 <= j < |params| && params[j] == x;
        assert j != 0;
        assert params[1..][j - 1] == x;
      }
    }
    DistinctNameSetSize(names);
    assert Distinct(params[1..]) by {
      forall i, j | 0 <= i < j < |params[1..]| ensures params[1..][i] != params[1..][j] {
        assert params[1..][i] == params[i + 1] && params[1..][j] == params[j + 1];
      }
    }
    DistinctNameSetSize(params[1..]);
    assert |declared - NameSet(names)| == 0;
  }

  /** The first parameter's own name passes the name check, although Python then refuses the
      call `entrypoint(dist, **args)` for receiving two values for that parameter: the check
      accepts `{first: x}` for parameters `(first, second)` while the supplied names are not
      the parameters after the first. */
  lemma FirstParameterNameAccepted(script: string, first: string, second: string, x: Value)
    requires first != second
    ensures SignatureFailure(script, Module(Some(Function([first, second]))), Dict([(first, x)])).None?
    ensures NameSet(Keys([(first, x)])) != NameSet([first, second][1..])
  {
    assert [(first, x)][1..] == [];
    assert Keys([(first, x)])[0] == first;
    assert first in NameSet(Keys([(first, x)]));
    assert [first, second][1..] == [second];
    assert first !in NameSet([second]);
    assert ValidateArg(first, [first, second]).None?;
    assert ArgNamesFailure([(first, x)], [first, second]) == None;
    assert Length(Dict([(first, x)])) == Some(1);
  }

  /** The test script's entrypoint `(dist, value1, value2)` accepts `value1` and `value2` in
      either order, and turns down one or three arguments with the count message. */
  lemma FixtureSignature(v1: Value, v2: Value, v3: Value)
    ensures var m := Module(Some(Function(["dist", "value1", "value2"])));
      && SignatureFailure("test_script", m, Dict([("value1", v1), ("value2", v2)])).None?
      && SignatureFailure("test_script", m, Dict([("value2", v2), ("value1", v1)])).None?
      && SignatureFailure("test_script", m, Dict([("value1", v1)])) == Some(Reported(CountMismatch))
      && SignatureFailure("test_script", m, Dict([("value1", v1), ("value2", v2), ("value3", v3)]))
         == Some(Reported(CountMismatch))
  {
    var ps := ["dist", "value1", "value2"];
    assert ps[1] == "value1" && ps[2] == "value2";
    var a1, a2 := [("value1", v1)], [("value2", v2)];
    assert ArgNamesFailure(a1, ps) == None by {
      assert a1[1..] == [];
    }
    assert ArgNamesFailure(a2, ps) == None by {
      assert a2[1..] == [];
    }
    assert ([("value1", v1)] + a2)[1..] == a2;
    assert ([("value2", v2)] + a1)[1..] == a1;
    assert [("value1", v1), ("value2", v2)] == [("value1", v1)] + a2;
    assert [("value2", v2), ("value1", v1)] == [("value2", v2)] + a1;
  }

  /** An entrypoint that declares no parameter is refused whatever the arguments. */
  lemma NoParameterEntrypointRefused(script: string, args: Value)
    ensures SignatureFailure(script, Module(Some(Function([]))), args) == Some(Reported(NoParameters))
  {
  }
}
