/** The invocation dispatcher and its two entry surfaces: the `monorepo_call` keyword of
    `setup()` and the `[tool.setuptools_monorepo]` table of `pyproject.toml`. The process state
    the plug-in touches is an `Interpreter`: the module search path `sys.path`, and the traces
    of the entrypoint files it loads and of the entrypoint calls it makes. */
module Dispatch {
  import opened Outcomes
  import opened Text
  import opened Values
  import opened Discovery
  import opened Validation
  import opened Signature

  /** The file, inside a script's directory, that defines its entrypoint. */
  const EntrypointFile: string := "entrypoint.py"

  /** One call `entrypoint(dist, **args)` of a script's entrypoint. */
  datatype Call = Call(script: Script, args: seq<(string, Value)>)

  /** What the plug-in gets from outside its own code. `rootQuery` is the output of
      `git rev-parse --show-toplevel` or the failure of that command; `markerQuery` gives, for a
      repository root, the output of `git ls-files` for the marker files or its failure; `load`
      loads an entrypoint file under a given `sys.path` (finding its module spec and loader,
      then executing it) and yields the `sys.path` it leaves behind together with the module or
      the exception raised; `run` is what an entrypoint
      call raises, if anything. */
  datatype Environment = Environment(
    rootQuery: Result<string>,
    markerQuery: string -> Result<string>,
    load: (seq<string>, string) -> (seq<string>, Result<Module>),
    run: Call -> Option<Failure>)

  /** What a run of invocations did: how many invocations completed, which entrypoint files
      it tried to load (whether or not a module spec and loader were found for them) and which
      entrypoints were called, in order, and the failure that stopped the run, if any. */
  datatype Trace = Trace(completed: nat, imported: seq<string>, called: seq<Call>, failure: Option<Failure>)

  /** The directory added to `sys.path` while an entrypoint file loads: the parent of the
      script's directory, so that a script can import its sibling packages. For the normalised
      absolute paths git reports, `abspath(join(d, pardir))` is `dirname(d)`. */
  function ScriptParent(file: string): string
  {
    Dirname(Dirname(file))
  }

  function EntrypointPath(script: Script): string
  {
    script.path + [Separator] + EntrypointFile
  }

  /** For a script directory `parent/name`, the directory put in front of `sys.path` while its
      entrypoint loads is `parent`, the directory that holds the script and its siblings. */
  lemma ScriptParentIsParentDirectory(parent: string, name: string)
    requires parent != "" && parent[|parent| - 1] != Separator
    requires name != "" && Separator !in name
    ensures ScriptParent(EntrypointPath(Script(name, parent + [Separator] + name))) == parent
  {
    var dir := parent + "/" + name;
    assert Separator !in EntrypointFile;
    assert EntrypointPath(Script(name, dir)) == dir + "/" + EntrypointFile;
    DirnameOfChild(dir, EntrypointFile);
    DirnameOfChild(parent, name);
  }

  /** The script a target resolves to, found afresh from the repository root and its listing. */
  function Locate(env: Environment, target: string): Result<Script>
  {
    match env.rootQuery
    case Err(f) => Err(f)
    case Ok(rootOutput) =>
      var root := Strip(rootOutput);
      match env.markerQuery(root)
      case Err(f) => Err(f)
      case Ok(listing) =>
        match Resolve(Discover(root, listing), target)
        case None => Err(Reported("Unable to find script " + target))
        case Some(script) => Ok(script)
  }

  /** The module an entrypoint file yields when loaded with the script parent in front of `path`. */
  function LoadModule(env: Environment, path: seq<string>, file: string): Result<Module>
  {
    env.load([ScriptParent(file)] + path, file).1
  }

  /** The outcome of calling the entrypoint of a loaded module: the signature checks, then
      the call itself, which completes unless it raises. */
  function Invoke(env: Environment, file: string, script: Script, m: Module, args: Value): Trace
  {
    match SignatureFailure(script.name, m, args)
    case Some(f) => Trace(0, [file], [], Some(f))
    case None =>
      var call := Call(script, args.entries);
      var outcome := env.run(call);
      Trace(if outcome.None? then 1 else 0, [file], [call], outcome)
  }

  /** The outcome of running a resolved script: load its entrypoint file, then invoke. */
  function Attempt(env: Environment, path: seq<string>, script: Script, args: Value): Trace
  {
    var file := EntrypointPath(script);
    match LoadModule(env, path, file)
    case Err(f) => Trace(0, [file], [], Some(f))
    case Ok(m) => Invoke(env, file, script, m, args)
  }

  /** `_call_script`: resolve the target, load its entrypoint file, check the signature, call. */
  function CallStep(env: Environment, path: seq<string>, inv: Invocation): Trace
  {
    match Locate(env, inv.target)
    case Err(f) => Trace(0, [], [], Some(f))
    case Ok(script) => Attempt(env, path, script, inv.args)
  }

  /** The shape of one invocation's trace: it completes exactly when it does not fail, it
      loads at most one file, and it makes a call only after loading one; a completed
      invocation made exactly one call. */
  predicate SingleStep(t: Trace)
  {
    && t.completed == (if t.failure.None? then 1 else 0)
    && |t.called| <= |t.imported| <= 1
    && (t.failure.None? ==> |t.called| == 1)
  }

  lemma CallStepShape(env: Environment, path: seq<string>, inv: Invocation)
    ensures SingleStep(CallStep(env, path, inv))
  {
    match Locate(env, inv.target)
    case Err(_) =>
    case Ok(script) =>
      assert CallStep(env, path, inv) == Attempt(env, path, script, inv.args);
      match LoadModule(env, path, EntrypointPath(script))
      case Err(_) =>
      case Ok(m) =>
  }

  /** Running a resolved script always attempts to load its entrypoint file, and that one file
      only, whether the load, the signature checks or the call then fail or not. */
  lemma AttemptLoadsEntrypoint(env: Environment, path: seq<string>, script: Script, args: Value)
    ensures Attempt(env, path, script, args).imported == [EntrypointPath(script)]
  {
  }

  /** An invocation whose target resolves loads exactly that script's entrypoint file. */
  lemma ResolvedTargetLoadsEntrypoint(env: Environment, path: seq<string>, inv: Invocation)
    requires Locate(env, inv.target).Ok?
    ensures CallStep(env, path, inv).imported == [EntrypointPath(Locate(env, inv.target).value)]
  {
    AttemptLoadsEntrypoint(env, path, Locate(env, inv.target).value, inv.args);
  }

  /** A target that names no discovered script fails with "Unable to find script", before
      any entrypoint file is loaded and before any call. */
  lemma UnknownTargetLoadsNothing(env: Environment, path: seq<string>, inv: Invocation)
    requires env.rootQuery.Ok?
    requires env.markerQuery(Strip(env.rootQuery.value)).Ok?
    requires var scripts := Discover(Strip(env.rootQuery.value), env.markerQuery(Strip(env.rootQuery.value)).value);
      forall i :: 0 <= i < |scripts| ==> scripts[i].name != inv.target
    ensures CallStep(env, path, inv) == Trace(0, [], [], Some(Reported("Unable to find script " + inv.target)))
  {
  }

  /** The entrypoint is called only after the target resolved to a script of that name, its
      entrypoint file loaded, and the signature checks passed; it is called with the script and
      the supplied arguments. */
  lemma CallOnlyIfAccepted(env: Environment, path: seq<string>, inv: Invocation)
    requires |CallStep(env, path, inv).called| > 0
    ensures Locate(env, inv.target).Ok?
    ensures var script := Locate(env, inv.target).value;
      && script.name == inv.target
      && LoadModule(env, path, EntrypointPath(script)).Ok?
      && SignatureFailure(script.name, LoadModule(env, path, EntrypointPath(script)).value, inv.args).None?
      && inv.args.Dict?
      && CallStep(env, path, inv).called == [Call(script, inv.args.entries)]
      && CallStep(env, path, inv).imported == [EntrypointPath(script)]
  {
    var rootOutput := env.rootQuery.value;
    var root := Strip(rootOutput);
    var listing := env.markerQuery(root).value;
    assert Resolve(Discover(root, listing), inv.target).Some?;
  }

  /** A call an invocation makes is to the script its target names, with its arguments. */
  lemma CallMatchesInvocation(env: Environment, path: seq<string>, inv: Invocation)
    requires CallStep(env, path, inv).called != []
    ensures var call := CallStep(env, path, inv).called[0];
      call.script.name == inv.target && Dict(call.args) == inv.args
  {
    CallOnlyIfAccepted(env, path, inv);
  }

  function Then(a: Trace, b: Trace): Trace
  {
    Trace(a.completed + b.completed, a.imported + b.imported, a.called + b.called, b.failure)
  }

  lemma ThenAssociative(a: Trace, b: Trace, c: Trace)
    ensures Then(a, Then(b, c)) == Then(Then(a, b), c)
  {
    assert a.imported + (b.imported + c.imported) == (a.imported + b.imported) + c.imported;
    assert a.called + (b.called + c.called) == (a.called + b.called) + c.called;
  }

  /** Invocation traces run one after the other; the first failure ends the run. Since the
      environment does not change between invocations, each invocation's trace can be
      computed in advance; the ones after a failure never take effect. */
  function Run(steps: seq<Trace>): Trace
    decreases |steps|
  {
    if |steps| == 0 then Trace(0, [], [], None)
    else if steps[0].failure.Some? then steps[0]
    else Then(steps[0], Run(steps[1..]))
  }

  /** The trace each invocation would leave if it ran on its own. */
  function Steps(env: Environment, path: seq<string>, invs: seq<Invocation>): (steps: seq<Trace>)
    ensures |steps| == |invs|
  {
    if |invs| == 0 then [] else [CallStep(env, path, invs[0])] + Steps(env, path, invs[1..])
  }

  lemma {:induction false} StepsAt(env: Environment, path: seq<string>, invs: seq<Invocation>, i: nat)
    requires i < |invs|
    ensures Steps(env, path, invs)[i] == CallStep(env, path, invs[i])
  {
    if i > 0 {
      StepsAt(env, path, invs[1..], i - 1);
    }
  }

  /** Every invocation's trace has the shape of a single step. */
  lemma StepsAreSingle(env: Environment, path: seq<string>, invs: seq<Invocation>)
    ensures forall i :: 0 <= i < |invs| ==> SingleStep(Steps(env, path, invs)[i])
  {
    forall i | 0 <= i < |invs| ensures SingleStep(Steps(env, path, invs)[i]) {
      StepsAt(env, path, invs, i);
      CallStepShape(env, path, invs[i]);
    }
  }

  /** A run of invocations, one after the other, stopping at the first failure. */
  function Batch(env: Environment, path: seq<string>, invs: seq<Invocation>): Trace
  {
    Run(Steps(env, path, invs))
  }

  /** The files whose load the given steps attempt, in order. */
  function ImportsOf(steps: seq<Trace>): seq<string>
  {
    if |steps| == 0 then [] else steps[0].imported + ImportsOf(steps[1..])
  }

  /** The calls the given steps make, in order. */
  function CallsOf(steps: seq<Trace>): seq<Call>
  {
    if |steps| == 0 then [] else steps[0].called + CallsOf(steps[1..])
  }

  /** How many invocations a run started: the completed ones and the one that failed. */
  function Attempted(t: Trace): nat
  {
    t.completed + if t.failure.Some? then 1 else 0
  }

  lemma SeqAssoc<T>(a: seq<T>, b: seq<T>, c: seq<T>)
    ensures a + b + c == a + (b + c)
  {
  }

  /** A run is sequential and stops at the first failure: the steps before the stop all
      completed, the run fails with the failure of the first step that fails, the files and
      calls are exactly those of the steps started, and none after the failing one starts. */
  lemma {:induction false} RunHaltsAtFirstFailure(steps: seq<Trace>)
    requires forall i :: 0 <= i < |steps| ==> SingleStep(steps[i])
    ensures var t := Run(steps);
      && Attempted(t) <= |steps|
      && (forall i :: 0 <= i < t.completed ==> steps[i].failure.None?)
      && (t.failure.None? <==> t.completed == |steps|)
      && (t.failure.Some? ==> t.failure == steps[t.completed].failure)
      && t.imported == ImportsOf(steps[..Attempted(t)])
      && t.called == CallsOf(steps[..Attempted(t)])
  {
    if |steps| > 0 {
      var first := steps[0];
      if first.failure.Some? {
        assert steps[..1][1..] == [];
      } else {
        var rest := Run(steps[1..]);
        RunHaltsAtFirstFailure(steps[1..]);
        var n := Attempted(rest);
        assert steps[..n + 1] == [first] + steps[1..][..n];
        assert steps[..n + 1][1..] == steps[1..][..n];
        assert steps[..n + 1][0] == first;
        forall i | 0 < i < rest.completed + 1 ensures steps[i].failure.None? {
          assert steps[1..][i - 1] == steps[i];
        }
        if rest.failure.Some? {
          assert steps[1..][rest.completed] == steps[rest.completed + 1];
        }
      }
    }
  }

  /** The calls of a run begin with the one call of every completed step, in step order. */
  lemma {:induction false} RunCallsInOrder(steps: seq<Trace>)
    requires forall i :: 0 <= i < |steps| ==> SingleStep(steps[i])
    ensures var t := Run(steps);
      && t.completed <= |steps| && t.completed <= |t.called|
      && forall i :: 0 <= i < t.completed ==> steps[i].called != [] && t.called[i] == steps[i].called[0]
  {
    if |steps| > 0 && steps[0].failure.None? {
      var rest := Run(steps[1..]);
      RunCallsInOrder(steps[1..]);
      var t := Run(steps);
      assert t.called == steps[0].called + rest.called;
      forall i | 0 < i < t.completed ensures steps[i].called != [] && t.called[i] == steps[i].called[0] {
        assert steps[1..][i - 1] == steps[i];
      }
    }
  }

  /** Steps after a failure change nothing. */
  lemma {:induction false} RunIgnoresAfterFailure(a: seq<Trace>, b: seq<Trace>)
    requires Run(a).failure.Some?
    ensures Run(a + b) == Run(a)
  {
    assert |a| > 0;
    assert (a + b)[0] == a[0];
    if a[0].failure.None? {
      assert (a + b)[1..] == a[1..] + b;
      RunIgnoresAfterFailure(a[1..], b);
    }
  }

  /** A run that has not failed so far goes on with the next step. */
  lemma {:induction false} RunSnoc(a: seq<Trace>, last: Trace)
    requires Run(a).failure.None?
    ensures Run(a + [last]) == Then(Run(a), last)
  {
    if |a| == 0 {
      assert [] + [last] == [last];
      assert [last][1..] == [];
    } else {
      assert (a + [last])[0] == a[0];
      assert (a + [last])[1..] == a[1..] + [last];
      RunSnoc(a[1..], last);
      ThenAssociative(a[0], Run(a[1..]), last);
    }
  }

  lemma {:induction false} StepsSnoc(env: Environment, path: seq<string>, invs: seq<Invocation>, i: nat)
    requires i < |invs|
    ensures Steps(env, path, invs[..i + 1]) == Steps(env, path, invs[..i]) + [CallStep(env, path, invs[i])]
  {
    assert invs[..i + 1] == invs[..i] + [invs[i]];
    StepsConcat(env, path, invs[..i], [invs[i]]);
    assert [invs[i]][1..] == [];
    assert Steps(env, path, [invs[i]]) == [CallStep(env, path, invs[i])] + [];
  }

  /** The run of the first `i + 1` invocations, from the run of the first `i` when none of
      those failed. */
  lemma BatchSnoc(env: Environment, path: seq<string>, invs: seq<Invocation>, i: nat)
    requires i < |invs| && Batch(env, path, invs[..i]).failure.None?
    ensures Batch(env, path, invs[..i + 1]) == Then(Batch(env, path, invs[..i]), CallStep(env, path, invs[i]))
  {
    StepsSnoc(env, path, invs, i);
    RunSnoc(Steps(env, path, invs[..i]), CallStep(env, path, invs[i]));
  }

  /** Once the first `k` invocations have failed, that is the run of them all. */
  lemma BatchStopsAfterFailure(env: Environment, path: seq<string>, invs: seq<Invocation>, k: nat)
    requires k <= |invs| && Batch(env, path, invs[..k]).failure.Some?
    ensures Batch(env, path, invs) == Batch(env, path, invs[..k])
  {
    assert invs == invs[..k] + invs[k..];
    StepsConcat(env, path, invs[..k], invs[k..]);
    RunIgnoresAfterFailure(Steps(env, path, invs[..k]), Steps(env, path, invs[k..]));
  }

  lemma {:induction false} StepsConcat(env: Environment, path: seq<string>, a: seq<Invocation>, b: seq<Invocation>)
    ensures Steps(env, path, a + b) == Steps(env, path, a) + Steps(env, path, b)
  {
    if |a| == 0 {
      assert a + b == b;
    } else {
      assert (a + b)[0] == a[0];
      assert (a + b)[1..] == a[1..] + b;
      StepsConcat(env, path, a[1..], b);
    }
  }

  /** A run of invocations: the invocations before the stop all completed, the run fails with
      the failure of the first invocation that fails, the files loaded and the calls made are
      those of the invocations started, and none after the failing one is started. */
  lemma BatchHaltsAtFirstFailure(env: Environment, path: seq<string>, invs: seq<Invocation>)
    ensures var t := Batch(env, path, invs);
      && Attempted(t) <= |invs|
      && (forall i :: 0 <= i < t.completed ==> CallStep(env, path, invs[i]).failure.None?)
      && (t.failure.None? <==> t.completed == |invs|)
      && (t.failure.Some? ==> t.failure == CallStep(env, path, invs[t.completed]).failure)
      && t.imported == ImportsOf(Steps(env, path, invs)[..Attempted(t)])
      && t.called == CallsOf(Steps(env, path, invs)[..Attempted(t)])
  {
    var steps := Steps(env, path, invs);
    StepsAreSingle(env, path, invs);
    RunHaltsAtFirstFailure(steps);
    forall i | 0 <= i < |invs| ensures steps[i] == CallStep(env, path, invs[i]) {
      StepsAt(env, path, invs, i);
    }
  }

  /** Every invocation before the stop called the entrypoint of the script its target names,
      with its own arguments, in invocation order. */
  lemma BatchCallsTargetsInOrder(env: Environment, path: seq<string>, invs: seq<Invocation>)
    ensures var t := Batch(env, path, invs);
      && t.completed <= |invs| && t.completed <= |t.called|
      && forall i :: 0 <= i < t.completed ==>
        t.called[i].script.name == invs[i].target && Dict(t.called[i].args) == invs[i].args
  {
    var steps := Steps(env, path, invs);
    StepsAreSingle(env, path, invs);
    RunCallsInOrder(steps);
    var t := Run(steps);
    assert t == Batch(env, path, invs) && t.completed <= |invs|;
    forall i | 0 <= i < t.completed
      ensures t.called[i].script.name == invs[i].target && Dict(t.called[i].args) == invs[i].args
    {
      StepsAt(env, path, invs, i);
      CallMatchesInvocation(env, path, invs[i]);
    }
  }

  /** The failure reported for a keyword value the validator turns down. */
  function Rejected(r: Rejection): Failure
  {
    match r
    case Message(text) => Reported("invalid argument passed: " + text)
    case MissingKey(_) => Raised("KeyError")
  }

  /** The keyword surface: validate the whole value first, then run its invocations. */
  function KeywordRun(env: Environment, path: seq<string>, value: Value): Trace
  {
    match Validate(value)
    case Some(r) => Trace(0, [], [], Some(Rejected(r)))
    case None => Batch(env, path, Invocations(value))
  }

  /** An invalid keyword value runs nothing; a valid one runs one invocation per element of a
      sequence, or exactly one for a single dictionary, with a missing `args` taken as `{}`. */
  lemma KeywordValidatesBeforeRunning(env: Environment, path: seq<string>, value: Value)
    ensures Validate(value).Some? ==>
      KeywordRun(env, path, value) == Trace(0, [], [], Some(Rejected(Validate(value).value)))
    ensures Validate(value).None? && value.Dict? ==>
      var target := Lookup(value.entries, "target").value.s;
      var args := Lookup(value.entries, "args");
      KeywordRun(env, path, value)
        == Batch(env, path, [Invocation(target, if args.Some? then args.value else Dict([]))])
  {
    if Validate(value).None? && value.Dict? {
      var inv := GetCallArgs(value);
      assert Invocations(value) == [inv];
    }
  }

  /** An empty sequence (and so the empty string, which Python also treats as a sequence) is a
      valid keyword value that runs nothing. */
  lemma EmptyKeywordValueRunsNothing(env: Environment, path: seq<string>, value: Value)
    requires value == List([]) || value == Tuple([]) || value == Str("")
    ensures KeywordRun(env, path, value) == Trace(0, [], [], None)
  {
    assert Elements(value) == [];
  }

  /** The result of reading `pyproject.toml`: absent, not parseable, or its top-level table. */
  datatype Pyproject = Missing | Unparsable(error: Failure) | Parsed(table: seq<(string, Value)>)

  /** What the walk down to `tool.setuptools_monorepo` finds: nothing to run, an exception
      raised by `in` or `[...]` on a `tool` value that is not a table, or the table to run. */
  datatype TableWalk = NoTable | Broken(failure: Failure) | Table(entries: seq<(string, Value)>)

  function MonorepoTable(project: Pyproject): TableWalk
  {
    match project
    case Missing => NoTable
    case Unparsable(f) => Broken(f)
    case Parsed(top) =>
      match Lookup(top, "tool")
      case None => NoTable
      case Some(tool) =>
        match Contains(tool, "setuptools_monorepo")
        case Err(f) => Broken(f)
        case Ok(present) =>
          if !present then NoTable
          else match Subscript(tool, "setuptools_monorepo")
            case Err(f) => Broken(f)
            case Ok(invocations) => if invocations.Dict? then Table(invocations.entries) else NoTable
  }

  /** There is a table to run exactly when `pyproject.toml` parsed, has a `tool` table, and
      that holds a `setuptools_monorepo` table; its entries are then the invocations. When
      `tool` is missing, or has no such key, or the value is not a table, nothing runs. */
  lemma MonorepoTableFound(project: Pyproject)
    ensures MonorepoTable(project).Table? <==>
      && project.Parsed?
      && Lookup(project.table, "tool").Some? && Lookup(project.table, "tool").value.Dict?
      && Lookup(Lookup(project.table, "tool").value.entries, "setuptools_monorepo").Some?
      && Lookup(Lookup(project.table, "tool").value.entries, "setuptools_monorepo").value.Dict?
    ensures MonorepoTable(project).Table? ==>
      Dict(MonorepoTable(project).entries)
        == Lookup(Lookup(project.table, "tool").value.entries, "setuptools_monorepo").value
    ensures project.Parsed? && Lookup(project.table, "tool").Some? && Lookup(project.table, "tool").value.Dict? ==>
      MonorepoTable(project).Table? || MonorepoTable(project) == NoTable
    ensures project.Missing? || (project.Parsed? && Lookup(project.table, "tool").None?) ==>
      MonorepoTable(project) == NoTable
    ensures project.Unparsable? ==> MonorepoTable(project) == Broken(project.error)
    ensures MonorepoTable(project).Broken? ==>
      || project.Unparsable?
      || (project.Parsed? && Lookup(project.table, "tool").Some? && !Lookup(project.table, "tool").value.Dict?)
  {
  }

  /** The table's entries as invocations: each key is a target and its value the arguments. */
  function TableInvocations(entries: seq<(string, Value)>): (invs: seq<Invocation>)
    ensures |invs| == |entries|
    ensures forall i :: 0 <= i < |invs| ==> invs[i] == Invocation(entries[i].0, entries[i].1)
  {
    seq(|entries|, i requires 0 <= i < |entries| => Invocation(entries[i].0, entries[i].1))
  }

  /** The configuration-file surface. */
  function DistRun(env: Environment, path: seq<string>, project: Pyproject): Trace
  {
    match MonorepoTable(project)
    case NoTable => Trace(0, [], [], None)
    case Broken(f) => Trace(0, [], [], Some(f))
    case Table(entries) => Batch(env, path, TableInvocations(entries))
  }

  /** The configuration-file surface does nothing when there is no `pyproject.toml`, no `tool`
      table, or no `setuptools_monorepo` entry in it; it fails, before loading anything, when
      the walk fails; otherwise it runs each table entry in turn as an invocation. */
  lemma DistRunFollowsTable(env: Environment, path: seq<string>, project: Pyproject)
    ensures project.Missing? || (project.Parsed? && Lookup(project.table, "tool").None?) ==>
      DistRun(env, path, project) == Trace(0, [], [], None)
    ensures
      && project.Parsed? && Lookup(project.table, "tool").Some? && Lookup(project.table, "tool").value.Dict?
      && Lookup(Lookup(project.table, "tool").value.entries, "setuptools_monorepo").None?
      ==> DistRun(env, path, project) == Trace(0, [], [], None)
    ensures MonorepoTable(project).Broken? ==>
      DistRun(env, path, project) == Trace(0, [], [], Some(MonorepoTable(project).failure))
    ensures MonorepoTable(project).Table? ==>
      DistRun(env, path, project) == Batch(env, path, TableInvocations(MonorepoTable(project).entries))
  {
    MonorepoTableFound(project);
  }

  /** The interpreter state the plug-in reads and changes. */
  class Interpreter {
    /** `sys.path`, front first. */
    var path: seq<string>
    /** The entrypoint files whose load was attempted so far, in order; a file whose module spec
        or loader is missing is recorded although none of it ran. */
    var imports: seq<string>
    /** The entrypoint calls made so far, in order. */
    var calls: seq<Call>

    constructor (initial: seq<string>)
      ensures path == initial && imports == [] && calls == []
    {
      path := initial;
      imports := [];
      calls := [];
    }

    /** Entering `_add_to_path`: `sys.path` becomes a copy with `extra` in front, so the list
        that was there before is never changed; that list is handed back for the exit. */
    method AddToPath(extra: string) returns (saved: seq<string>)
      modifies this
      ensures saved == old(path) && path == [extra] + old(path)
      ensures imports == old(imports) && calls == old(calls)
    {
      saved := path;
      path := [extra] + path;
    }

    /** Leaving `_add_to_path`, normally or by an exception: the saved list is put back. */
    method RestorePath(saved: seq<string>)
      modifies this
      ensures path == saved && imports == old(imports) && calls == old(calls)
    {
      path := saved;
    }

    /** `_import_script`: the file is loaded with the script parent in front of `sys.path`;
        whether that succeeds or raises, `sys.path` is afterwards exactly what it was, even if
        the executed code rearranged it. */
    method ImportScript(env: Environment, file: string) returns (r: Result<Module>)
      modifies this
      ensures path == old(path) && calls == old(calls)
      ensures imports == old(imports) + [file]
      ensures r == env.load([ScriptParent(file)] + old(path), file).1
      ensures r == LoadModule(env, old(path), file)
    {
      var saved := AddToPath(ScriptParent(file));
      var outcome := env.load(path, file);
      path := outcome.0;
      imports := imports + [file];
      // the `finally` clause: runs on the success and on the failure path alike
      RestorePath(saved);
      r := outcome.1;
    }

    /** `_call_script`. */
    method CallScript(env: Environment, inv: Invocation) returns (failure: Option<Failure>)
      modifies this
      ensures path == old(path)
      ensures var t := CallStep(env, old(path), inv);
        && failure == t.failure
        && imports == old(imports) + t.imported
        && calls == old(calls) + t.called
    {
      var located := Locate(env, inv.target);
      if located.Err? {
        return Some(located.failure);
      }
      var script := located.value;
      assert CallStep(env, path, inv) == Attempt(env, path, script, inv.args);
      var loaded := ImportScript(env, EntrypointPath(script));
      if loaded.Err? {
        return Some(loaded.failure);
      }
      assert Attempt(env, path, script, inv.args) == Invoke(env, EntrypointPath(script), script, loaded.value, inv.args);
      var signatureFailure := CheckSignature(script.name, loaded.value, inv.args);
      if signatureFailure.Some? {
        return signatureFailure;
      }
      var call := Call(script, inv.args.entries);
      calls := calls + [call];
      failure := env.run(call);
    }

    /** One round of the dispatch loop: invocation `i`, once the first `i` have completed. */
    method DispatchNext(env: Environment, invs: seq<Invocation>, i: nat, ghost imports0: seq<string>, ghost calls0: seq<Call>)
      returns (f: Option<Failure>)
      requires i < |invs|
      requires var done := Batch(env, path, invs[..i]);
        && done.failure.None? && done.completed == i
        && imports == imports0 + done.imported && calls == calls0 + done.called
      modifies this
      ensures path == old(path)
      ensures var done := Batch(env, path, invs[..i + 1]);
        && done.failure == f && done.completed == (if f.None? then i + 1 else i)
        && imports == imports0 + done.imported && calls == calls0 + done.called
    {
      ghost var done := Batch(env, path, invs[..i]);
      ghost var step := CallStep(env, path, invs[i]);
      CallStepShape(env, path, invs[i]);
      BatchSnoc(env, path, invs, i);
      ghost var before := (imports, calls);
      f := CallScript(env, invs[i]);
      assert imports == before.0 + step.imported && calls == before.1 + step.called;
      SeqAssoc(imports0, done.imported, step.imported);
      SeqAssoc(calls0, done.called, step.called);
    }

    /** The dispatch loop of both surfaces: invocations in order, stopping at the first failure;
        what earlier invocations did stays done. */
    method DispatchAll(env: Environment, invs: seq<Invocation>) returns (completed: nat, failure: Option<Failure>)
      modifies this
      ensures path == old(path)
      ensures var t := Batch(env, old(path), invs);
        && completed == t.completed && failure == t.failure
        && imports == old(imports) + t.imported
        && calls == old(calls) + t.called
    {
      ghost var start, imports0, calls0 := path, imports, calls;
      var i := 0;
      while i < |invs|
        invariant 0 <= i <= |invs|
        invariant path == start
        invariant var done := Batch(env, start, invs[..i]);
          && done.failure.None? && done.completed == i
          && imports == imports0 + done.imported && calls == calls0 + done.called
      {
        var f := DispatchNext(env, invs, i, imports0, calls0);
        if f.Some? {
          BatchStopsAfterFailure(env, start, invs, i + 1);
          return i, f;
        }
        i := i + 1;
      }
      assert invs[..i] == invs;
      return i, None;
    }

    /** `handle_monorepo_keywords`. */
    method HandleMonorepoKeywords(env: Environment, value: Value) returns (completed: nat, failure: Option<Failure>)
      modifies this
      ensures path == old(path)
      ensures var t := KeywordRun(env, old(path), value);
        && completed == t.completed && failure == t.failure
        && imports == old(imports) + t.imported
        && calls == old(calls) + t.called
    {
      var rejection := ValidateValue(value);
      if rejection.Some? {
        return 0, Some(Rejected(rejection.value));
      }
      completed, failure := DispatchAll(env, Invocations(value));
    }

    /** `handle_monorepo_dist`, from the already-read `pyproject.toml` on. */
    method HandleMonorepoDist(env: Environment, project: Pyproject) returns (completed: nat, failure: Option<Failure>)
      modifies this
      ensures path == old(path)
      ensures var t := DistRun(env, old(path), project);
        && completed == t.completed && failure == t.failure
        && imports == old(imports) + t.imported
        && calls == old(calls) + t.called
    {
      match MonorepoTable(project)
      case NoTable =>
        return 0, None;
      case Broken(f) =>
        return 0, Some(f);
      case Table(entries) =>
        completed, failure := DispatchAll(env, TableInvocations(entries));
    }
  }
}
