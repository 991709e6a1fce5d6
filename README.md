# setuptools-monorepo, modelled in Dafny

setuptools-monorepo is a setuptools plug-in. It runs scripts that live in the same git repository
as the package being built. A script is a directory holding a `monorepo_script.toml` marker file
and an `entrypoint.py` that defines `entrypoint(dist, ...)`. The plug-in offers two surfaces:

- the `monorepo_call=` keyword of `setup()`, which takes one invocation dictionary
  `{"target": ..., "args": {...}}` or a sequence of them;
- the `[tool.setuptools_monorepo]` table of `pyproject.toml`, whose entries map a target to its
  arguments.

For each invocation the plug-in does four things:

1. It finds the repository root and lists the marker files.
2. It picks the first script whose directory name is the target.
3. It executes that script's `entrypoint.py` with the script's parent directory in front of
   `sys.path`, and restores `sys.path` afterwards.
4. It checks the entrypoint's signature against the supplied arguments, then calls it.

The first failure stops the run.

The model is split into modules that follow those steps:

- `Outcomes` (`outcomes.dfy`): the `Option`/`Result` wrappers, and the two ways a step fails.
  `Reported` is a message printed to stderr followed by `RuntimeError`. `Raised` is a Python
  exception that escapes, such as `KeyError`, `TypeError` or `AttributeError`.
- `Text` (`text.dfy`): the string operations the plug-in depends on, with Python's semantics:
  `str.split`, `str.join`, `str.strip` (the whitespace of `str.isspace`) and `posixpath.dirname`.
- `Values` (`values.dfy`): the dynamic Python values that reach the plug-in. This covers
  dictionary lookup, `isinstance(..., Sequence)`, iteration, `len`, `in` and subscription, each
  with the exception Python raises.
- `Discovery` (`discovery.dfy`): marker listing, to scripts, to the script a target resolves to.
- `Validation` (`validation.dfy`): the keyword-surface validator and its normalisation into
  invocations.
- `Signature` (`signature.dfy`): the checks on a loaded entrypoint.
- `Dispatch` (`dispatch.dfy`): one invocation (`CallStep`), a run of invocations stopping at the
  first failure (`Batch`), both surfaces (`KeywordRun`, `DistRun`), and the class `Interpreter`.
  `Interpreter` holds `sys.path` and the traces of loaded entrypoint files and entrypoint calls, and its
  methods carry out the source's procedures step by step against those functions.

The outside world is a value of `Dispatch.Environment`. It holds:

- the output of the two git commands, or how they failed;
- the executing of an entrypoint file, given `sys.path`: the `sys.path` it leaves and the module
  or the exception;
- the outcome of an entrypoint call.

The argument checks evidently mean the supplied names to be the entrypoint's parameters after
the first, the one that receives the distribution: the count check at line 172 leaves the first
out. The name check at line 110 does not: it checks every supplied name against all declared
parameters, the first included. The model follows the code. `Signature.FirstParameterNameAccepted`
shows what follows: an argument named after the first parameter passes all checks, although
Python then refuses the call. `Signature.AcceptedArgsBindExactly` shows that the intended contract
holds whenever the first parameter's name is not supplied.

## Model

| member | source | states |
|---|---|---|
| Outcomes.Filter | monorepo_loader/setuptools_monorepo.py:54 | the generator keeps elements of its input, only ones that pass the test, and every input element that passes; their order is given by `Outcomes.FilterConcat` |
| Outcomes.FilterConcat | monorepo_loader/setuptools_monorepo.py:54 | filtering a concatenation is the concatenation of the filtered parts, so kept elements stay in input order |
| Text.Split | monorepo_loader/setuptools_monorepo.py:53 | `str.split(sep)` gives at least one part, and no part holds the separator |
| Text.Join | monorepo_loader/setuptools_monorepo.py:69 | `sep.join(parts)`; `Text.SplitJoin` and `Text.JoinSplit` state that it and `Text.Split` undo each other |
| Text.SplitJoin | monorepo_loader/setuptools_monorepo.py:53 | joining the parts of a split with the separator gives back the string |
| Text.JoinSplit | monorepo_loader/setuptools_monorepo.py:66-69 | splitting a join of separator-free parts gives back the parts |
| Text.SplitsIffContains | monorepo_loader/setuptools_monorepo.py:62-63 | a split has more than one part exactly when the separator occurs |
| Text.Strip | monorepo_loader/setuptools_monorepo.py:48 | `str.strip()` as `TrimEnd(TrimStart(s))`; by `Text.StripIsSlice` the result is a slice of the string with only whitespace before and after it, and it is empty or begins and ends with a non-whitespace character |
| Text.StripIsSlice | monorepo_loader/setuptools_monorepo.py:48 | the stripped string is `s[i..j]` with only whitespace before `i` and from `j` on: leading and trailing whitespace is removed, and nothing else |
| Text.StripEmptyIffBlank | monorepo_loader/setuptools_monorepo.py:54 | a line strips to `""` exactly when every character is whitespace |
| Text.DirnameOfChild | monorepo_loader/setuptools_monorepo.py:129-130 | `dirname(d + "/" + f)` is `d` for a single segment `f` |
| Text.Dirname | monorepo_loader/setuptools_monorepo.py:129 | `posixpath.dirname`; by `Text.DirnameIsPrefix` the result is a prefix of the path and is empty when the path has no `/`, and by `Text.DirnameOfChild` the directory of `d/f` is `d` |
| Text.DirnameIsPrefix | monorepo_loader/setuptools_monorepo.py:129 | the directory name is a prefix of the path, and empty for a path without `/` |
| Values.Lookup | monorepo_loader/setuptools_monorepo.py:86-89 | a key is missing exactly when it is not among the keys; a found value is stored under that key |
| Values.IsSequence | monorepo_loader/setuptools_monorepo.py:103 | `isinstance(v, Sequence)`: a str, list or tuple, not a dict; `Dispatch.EmptyKeywordValueRunsNothing` and `Validation.ValidateValue` state what follows for a str and for the empty sequences |
| Values.Elements | monorepo_loader/setuptools_monorepo.py:97 | iterating a list or tuple yields its items and a str its one-character strings; `Values.Length` states that `len` counts exactly these, and `Validation.FirstRejectionIsFirstFailure` what validating them element by element gives |
| Values.Length | monorepo_loader/setuptools_monorepo.py:172 | `len` succeeds exactly on a str, list, tuple or dict; for a sequence it is the number of elements iteration yields, for a dict its number of keys |
| Values.Contains | monorepo_loader/setuptools_monorepo.py:227 | `in` raises TypeError exactly when the container is neither a sequence nor a dict; on a dict it agrees with `Lookup`, on a list or tuple with membership among the elements |
| Values.Subscript | monorepo_loader/setuptools_monorepo.py:230 | `[key]` succeeds exactly when the container is a dict and `in` says the key is there, and then gives the value `Lookup` finds; otherwise KeyError on a dict and TypeError on anything else |
| Discovery.Markers | monorepo_loader/setuptools_monorepo.py:53-54 | `_find_script_markers`: the listing split at newlines, blank lines dropped; `Discovery.MarkersAreNonBlankLines` states which lines these are |
| Discovery.IsScript | monorepo_loader/setuptools_monorepo.py:61-63 | `_is_script`: a split of the marker into more than one segment; `Discovery.IsScriptIffNested` states this is exactly a path containing a separator |
| Discovery.MakeScript | monorepo_loader/setuptools_monorepo.py:65-70 | `_make_script`: the name is the second-to-last segment and the path the root joined with all but the last; `Discovery.MakeScriptDecomposes` and `Discovery.MakeScriptOfSegments` state it on the marker and on its segments |
| Discovery.MarkersAreNonBlankLines | monorepo_loader/setuptools_monorepo.py:51-54 | the markers are exactly the listed lines that hold a non-whitespace character |
| Discovery.IsScriptIffNested | monorepo_loader/setuptools_monorepo.py:61-63 | a marker is a script exactly when its path contains a separator, so markers in the root are ignored |
| Discovery.MakeScriptDecomposes | monorepo_loader/setuptools_monorepo.py:65-70 | a marker splits as prefix, name, separator, file; the script is named after the marker's directory and lives at root + separator + prefix + name |
| Discovery.MakeScriptOfSegments | monorepo_loader/setuptools_monorepo.py:65-70 | the marker `s1/.../sn` names script `sn-1` at `root/s1/.../sn-1` |
| Discovery.ScriptsOfOne | monorepo_loader/setuptools_monorepo.py:72 | a single marker yields `[MakeScript(root, m)]` when it is nested and nothing otherwise, so at most one script |
| Discovery.ScriptsOf | monorepo_loader/setuptools_monorepo.py:72 | the scripts of a marker list: `Discovery.ScriptsOfOne` states that one marker yields its own script exactly when nested and none otherwise, and `Discovery.ScriptsOfConcat` that a list yields its markers' scripts in order, so at most one script comes from each marker |
| Discovery.ScriptsOfConcat | monorepo_loader/setuptools_monorepo.py:72 | discovery keeps listing order: scripts of earlier markers come first |
| Discovery.ScriptsOfSound | monorepo_loader/setuptools_monorepo.py:72 | every discovered script is the script of a nested marker |
| Discovery.ScriptsOfComplete | monorepo_loader/setuptools_monorepo.py:72 | every nested marker yields its script |
| Discovery.Discover | monorepo_loader/setuptools_monorepo.py:57-72 | `_discover_scripts`: the scripts of the markers of a listing; `Discovery.ScriptsOfSound`, `Discovery.ScriptsOfComplete` and `Discovery.ScriptsOfConcat` give its contents and order |
| Discovery.FirstNamed | monorepo_loader/setuptools_monorepo.py:150 | gives no index exactly when no script has the name; otherwise the index of a script with the name, and none before it has the name |
| Discovery.Resolve | monorepo_loader/setuptools_monorepo.py:150 | a target is unresolved exactly when no script has its name; a resolved script has the name and was discovered |
| Discovery.ResolveSkips | monorepo_loader/setuptools_monorepo.py:150 | a script of another name in front does not change resolution |
| Discovery.ResolvePicksFirstMarker | monorepo_loader/setuptools_monorepo.py:148-150 | a resolved target is the script of the first listed nested marker whose directory has that name |
| Validation.ValidateSingle | monorepo_loader/setuptools_monorepo.py:75-92 | `_validate_single_value`: the checks in source order, with the `KeyError` of a missing `target`; `Validation.ValidateSingleAccepts` states exactly which values pass and `Validation.UnknownKeysRejected` the first message |
| Validation.ValidateSingleAccepts | monorepo_loader/setuptools_monorepo.py:75-92 | a value passes exactly when it is a dict with no key but `target`/`args`, a string `target`, and an `args` that is a dict if present |
| Validation.UnknownKeys | monorepo_loader/setuptools_monorepo.py:79-81 | the comprehension over the keys that are neither `target` nor `args`; `Validation.UnknownKeysRejected` states the rejection it leads to |
| Validation.UnknownKeysRejected | monorepo_loader/setuptools_monorepo.py:79-84 | a dict with a foreign key is refused first, with a message listing exactly the foreign keys in key order |
| Validation.FirstRejection | monorepo_loader/setuptools_monorepo.py:96-101 | `_validate_all`: the rejection of the first failing element; `Validation.FirstRejectionIsFirstFailure` states that it is the first failure and passes exactly when all elements pass |
| Validation.Validate | monorepo_loader/setuptools_monorepo.py:95-106 | `_validate_value`: a sequence (a str included) element by element, anything else as one value; `Validation.ValidateValue` is the loop proved equal to it |
| Validation.FirstRejectionIsFirstFailure | monorepo_loader/setuptools_monorepo.py:95-101 | a sequence passes exactly when every element passes; otherwise it is refused with the first failing element's rejection |
| Validation.ValidateValue | monorepo_loader/setuptools_monorepo.py:95-106 | the validation loop returns the validator's verdict on the whole value |
| Validation.ValidatedElementsAreDicts | monorepo_loader/setuptools_monorepo.py:197-208 | after validation every element to dispatch is a valid dict, so the "not a dict" branch is never taken |
| Validation.MakeSequence | monorepo_loader/setuptools_monorepo.py:197-201 | `_make_sequence`: a sequence as it is, anything else as a one-element list; `Validation.Invocations` and `Validation.ValidatedElementsAreDicts` state what the dispatch loop then sees |
| Validation.GetCallArgs | monorepo_loader/setuptools_monorepo.py:192-195 | the invocation's target is the dict's `target` string; its args are `args`, or `{}` when absent |
| Validation.Invocations | monorepo_loader/setuptools_monorepo.py:197-210 | one invocation per element of a sequence, in order, and exactly one for a single dict |
| Signature.ValidateArg | monorepo_loader/setuptools_monorepo.py:109-113 | `_validate_arg` against all declared parameters, the first included; `Signature.ArgNamesFirstUnknown` and `Signature.SignatureAccepts` state what the name check as a whole accepts |
| Signature.ArgNamesFailure | monorepo_loader/setuptools_monorepo.py:176-180 | the first failing `_validate_arg` in `args.items()` order; `Signature.ArgNamesFirstUnknown` states when it passes and which name it reports |
| Signature.ArgNamesFirstUnknown | monorepo_loader/setuptools_monorepo.py:176-180 | the name check passes exactly when every name is declared; otherwise it reports the first undeclared name in argument order |
| Signature.CheckArgNames | monorepo_loader/setuptools_monorepo.py:176-180 | the loop over `args.items()` returns the first unknown-name failure |
| Signature.CheckSignature | monorepo_loader/setuptools_monorepo.py:158-180 | the checks in `_call_script`, in source order, return the failure the signature rules give |
| Signature.SignatureFailure | monorepo_loader/setuptools_monorepo.py:158-180 | arguments that pass every check are a dict |
| Signature.SignatureAccepts | monorepo_loader/setuptools_monorepo.py:158-180 | the call happens exactly when entrypoint exists, is callable, has a parameter, the args dict has one entry fewer, and every name is declared |
| Signature.AcceptedArgsBindExactly | monorepo_loader/setuptools_monorepo.py:172-182 | when the first parameter's name is not supplied, accepted names are exactly the parameters after the first |
| Signature.FirstParameterNameAccepted | monorepo_loader/setuptools_monorepo.py:109-110 | `{first: x}` passes against parameters `(first, second)`, although its names are not the parameters after the first |
| Signature.FixtureSignature | monorepo_loader/setuptools_monorepo.py:172-180 | `(dist, value1, value2)` accepts `value1`, `value2` in either order and refuses one or three arguments with the count message |
| Signature.NoParameterEntrypointRefused | monorepo_loader/setuptools_monorepo.py:168-170 | an entrypoint without parameters is refused whatever the arguments |
| Dispatch.ScriptParent | monorepo_loader/setuptools_monorepo.py:129-130 | the directory `_import_script` puts in front of `sys.path`; `Dispatch.ScriptParentIsParentDirectory` states that it is the parent of the script directory |
| Dispatch.ScriptParentIsParentDirectory | monorepo_loader/setuptools_monorepo.py:128-130 | for script directory `parent/name`, the added path entry is `parent` |
| Dispatch.EntrypointPath | monorepo_loader/setuptools_monorepo.py:156 | the script directory, a separator and `entrypoint.py`; `Dispatch.AttemptLoadsEntrypoint` states that this is the one file an attempt loads |
| Dispatch.LoadModule | monorepo_loader/setuptools_monorepo.py:128-142 | the loader run with the script parent in front of `sys.path`; `Dispatch.Interpreter.ImportScript` is the procedure proved to give it, restoring `sys.path` |
| Dispatch.Locate | monorepo_loader/setuptools_monorepo.py:146-154 | the root query, the marker listing and `next(...)`; `Dispatch.UnknownTargetLoadsNothing` states the "Unable to find script" failure, and `Discovery.ResolvePicksFirstMarker` which script is found |
| Dispatch.Invoke | monorepo_loader/setuptools_monorepo.py:158-182 | the signature checks, then the call; `Dispatch.CallOnlyIfAccepted` states that a call happens only when `Signature.SignatureFailure` passes |
| Dispatch.Attempt | monorepo_loader/setuptools_monorepo.py:156-182 | load the entrypoint file, then `Invoke`; `Dispatch.AttemptLoadsEntrypoint` states that exactly that file's load is attempted, and `Dispatch.CallStepShape` that a call is made only after it |
| Dispatch.AttemptLoadsEntrypoint | monorepo_loader/setuptools_monorepo.py:156 | running a resolved script attempts to load exactly its entrypoint file, whatever happens afterwards |
| Dispatch.ResolvedTargetLoadsEntrypoint | monorepo_loader/setuptools_monorepo.py:148-156 | an invocation whose target resolves attempts to load exactly the entrypoint file of the script it resolves to |
| Dispatch.CallStep | monorepo_loader/setuptools_monorepo.py:145-182 | `_call_script` as one trace; `Dispatch.CallStepShape`, `Dispatch.CallOnlyIfAccepted` and `Dispatch.CallMatchesInvocation` state what it fails with, loads and calls |
| Dispatch.CallStepShape | monorepo_loader/setuptools_monorepo.py:145-182 | an invocation completes exactly when it does not fail, attempts to load at most one file, and calls only after loading one |
| Dispatch.UnknownTargetLoadsNothing | monorepo_loader/setuptools_monorepo.py:148-154 | an unknown target fails with "Unable to find script" before any file is loaded or any call made |
| Dispatch.CallOnlyIfAccepted | monorepo_loader/setuptools_monorepo.py:145-182 | a call happens only after the target resolved to a script of that name, its file loaded and the signature passed; the call is with the supplied arguments |
| Dispatch.CallMatchesInvocation | monorepo_loader/setuptools_monorepo.py:182 | a call goes to the script the target names, with the invocation's arguments |
| Dispatch.Run | monorepo_loader/setuptools_monorepo.py:205-211 | a loop over steps that stops at the first failure; `Dispatch.RunHaltsAtFirstFailure`, `Dispatch.RunCallsInOrder`, `Dispatch.RunIgnoresAfterFailure` and `Dispatch.RunSnoc` state how |
| Dispatch.Batch | monorepo_loader/setuptools_monorepo.py:205-211 | the run of the invocations' `CallStep` traces; `Dispatch.BatchHaltsAtFirstFailure` and `Dispatch.BatchCallsTargetsInOrder` state what it loads and calls |
| Dispatch.RunHaltsAtFirstFailure | monorepo_loader/setuptools_monorepo.py:205-211 | the steps before the stop all completed; the run fails with the first failing step's failure; files and calls are those of the steps started |
| Dispatch.RunCallsInOrder | monorepo_loader/setuptools_monorepo.py:205-211 | a run's calls begin with one call per completed step, in order |
| Dispatch.RunIgnoresAfterFailure | monorepo_loader/setuptools_monorepo.py:205-211 | steps after a failure change nothing |
| Dispatch.RunSnoc | monorepo_loader/setuptools_monorepo.py:205-211 | a run that has not failed goes on with the next step |
| Dispatch.BatchHaltsAtFirstFailure | monorepo_loader/setuptools_monorepo.py:205-211 | invocations before the stop all completed; the run fails exactly with the first invocation's failure; nothing after it starts |
| Dispatch.BatchCallsTargetsInOrder | monorepo_loader/setuptools_monorepo.py:205-211 | every completed invocation called the script its target names with its own arguments, in invocation order |
| Dispatch.KeywordRun | monorepo_loader/setuptools_monorepo.py:185-211 | `handle_monorepo_keywords`: validate, then run the invocations; `Dispatch.KeywordValidatesBeforeRunning` and `Dispatch.EmptyKeywordValueRunsNothing` state it |
| Dispatch.Rejected | monorepo_loader/setuptools_monorepo.py:86-190 | a validation message becomes the reported "invalid argument passed" failure and a missing `target` the escaping KeyError; `Dispatch.KeywordValidatesBeforeRunning` states that either stops the run before anything is loaded |
| Dispatch.KeywordValidatesBeforeRunning | monorepo_loader/setuptools_monorepo.py:185-203 | an invalid keyword value runs nothing and is reported; a valid single dict runs exactly its one invocation, with `{}` for missing args |
| Dispatch.EmptyKeywordValueRunsNothing | monorepo_loader/setuptools_monorepo.py:185-205 | an empty list, tuple or string is accepted and runs nothing |
| Dispatch.MonorepoTable | monorepo_loader/setuptools_monorepo.py:214-232 | the walk from `pyproject.toml` to the `setuptools_monorepo` table; `Dispatch.MonorepoTableFound` states when it finds a table, when nothing, and when it fails |
| Dispatch.MonorepoTableFound | monorepo_loader/setuptools_monorepo.py:214-232 | there is a table to run exactly when the file parsed, `tool` is a table and holds a `setuptools_monorepo` table, whose entries are then run; a missing file or a missing `tool` gives nothing to run; a failure comes only from an unparsable file or from `in`/`[...]` on a `tool` that is not a table |
| Dispatch.TableInvocations | monorepo_loader/setuptools_monorepo.py:234-235 | one invocation per table entry, target the key and arguments the value; `Dispatch.DistRunFollowsTable` states they are run in order as a `Batch`, and `Dispatch.BatchCallsTargetsInOrder` that each completed one called its target |
| Dispatch.DistRun | monorepo_loader/setuptools_monorepo.py:214-235 | `handle_monorepo_dist`: walk to the table, then run its entries; `Dispatch.DistRunFollowsTable` states it |
| Dispatch.DistRunFollowsTable | monorepo_loader/setuptools_monorepo.py:214-235 | no file, no `tool` or no `setuptools_monorepo` entry runs nothing and does not fail; a failed walk fails before loading anything; a found table runs its entries in order as a `Batch` |
| Dispatch.Interpreter.AddToPath | monorepo_loader/setuptools_monorepo.py:116-120 | `sys.path` becomes a new list with the extra entry in front; the old list is handed back |
| Dispatch.Interpreter.RestorePath | monorepo_loader/setuptools_monorepo.py:123-124 | the saved `sys.path` is put back |
| Dispatch.Interpreter.ImportScript | monorepo_loader/setuptools_monorepo.py:128-142 | the file runs with the script parent in front of `sys.path`; afterwards `sys.path` is what it was, on success and on failure alike |
| Dispatch.Interpreter.CallScript | monorepo_loader/setuptools_monorepo.py:145-182 | the procedure leaves `sys.path` unchanged and fails, loads and calls exactly as `CallStep` says |
| Dispatch.Interpreter.DispatchNext | monorepo_loader/setuptools_monorepo.py:205-211 | one turn of the dispatch loop: from the run of the first `i` invocations, none failed, to the run of the first `i + 1`, with `sys.path` unchanged |
| Dispatch.Interpreter.DispatchAll | monorepo_loader/setuptools_monorepo.py:205-211 | the loop's completed count, failure, loaded files and calls are those of `Batch` |
| Dispatch.Interpreter.HandleMonorepoKeywords | monorepo_loader/setuptools_monorepo.py:185-211 | the keyword handler does what `KeywordRun` says |
| Dispatch.Interpreter.HandleMonorepoDist | monorepo_loader/setuptools_monorepo.py:214-235 | the configuration handler does what `DistRun` says |

## Left out

- The git commands and `_run_command` (lines 34-48) are not run. Their outputs or failures are
  fields of `Dispatch.Environment`, and the model does not build the text of the failure messages.
- Byte decoding (`.decode()`) is left out: command outputs are taken as already-decoded strings.
- The `importlib` machinery (lines 133-142) is not modelled. A missing spec, a missing loader and
  an exception raised by the executed file all show up as the `Err` of `Environment.load`. The
  traces record every file whose load was attempted, so a file for which no spec or loader was
  found is recorded although none of it ran.
- `inspect.getfullargspec` is not modelled. A module is reduced to its `entrypoint` attribute and
  that attribute's positional parameter names.
- Reading and parsing `pyproject.toml` and `os.path.exists` (lines 215-222) are not modelled. The
  model starts from the outcome, a `Dispatch.Pyproject`.
- The text written to stderr by `_eprint` is not modelled. A `Reported` failure carries the message.
- What an entrypoint does when called is reduced to whether it raises (`Environment.run`). The
  call at line 182 is made outside `_add_to_path`, so an entrypoint that edits `sys.path` changes
  it for the invocations after it; the model does not capture that, and `sys.path` is unchanged
  after `CallScript`, `DispatchAll` and both handlers partly because `Environment.run` cannot
  change it. The same holds for an executed entrypoint file that replaces `sys.path` instead of
  editing the list: the restore at lines 123-124 undoes either, as `ImportScript` states.
- The environment is the same for every invocation. The source asks git again for each
  invocation, so an entrypoint that changes the repository could affect later invocations; the
  model does not capture that.
- Dictionary keys are strings. Keyword values with non-string keys are not modelled.
- A `Values.Dict` may list a key twice, which no Python dict does. The model does not exclude
  such values: for them `Length` counts every entry where `len` counts distinct keys, and
  `Lookup` takes the first entry. Every dict that reaches the plug-in has distinct keys.
- Sequences other than `str`, `list` and `tuple` (such as `bytes` or `range`) are not modelled.
- `os.path.sep` is `/`. Windows path separators are not modelled.
- `os.path.abspath(join(d, pardir))` at line 130 is modelled as `dirname(d)`, which is right for
  the normalised absolute paths git reports. Paths with `.` or `..` segments, and the current
  directory, are not modelled.
- The generators at lines 54 and 72 are evaluated eagerly. Nothing they call has an effect, so
  the result is the same.
- Dispatch: the "not a dict" branch at line 206 is left out of `KeywordRun` and
  `HandleMonorepoKeywords`, because `Validation.ValidatedElementsAreDicts` proves validation
  already excludes it.
- Validation.ValidateSingle: a missing `target` key is modelled as the `MissingKey` rejection,
  which the keyword surface turns into the `KeyError` Python raises at line 86; no message is
  printed.
