# lambada registry, dispatch and discovery in Dafny

This project models the core of *lambada*, a small Python library that lets
one source tree declare several AWS Lambda handlers ("dancers") with a
decorator on a `Lambada` registry ("tune"):

- `values.dfy` (module `Values`): Python values as the core sees them
  (`None`, booleans, ints, strings, lists), Python truthiness, `Option`,
  `Result` and the exceptions involved.
- `registry.dfy` (module `Registry`, from `lambada/__init__.py`): the `Dancer`
  record and its call-through, and the `Lambada` class with its mutable
  `config` and `dancers` fields. It covers building the base configuration,
  resolving a registration name, registering in both the bare and the
  parameterised decorator forms, and dispatching an event to the dancer named
  by the context. A miss raises `No Matching Dancer for the tune: <name>`.
  A user function is opaque: it is modelled by its `__name__` and by a
  function from the event it receives to whether the call returns or raises.
  A call is recorded as the `Invocation` it received, `(event, context)`
  passed through untouched.
- `context.dfy` (module `Context`, from `lambada/common.py`): `LambdaContext`
  with its stored fields and its deadline. The clock is an integer parameter
  (`now`, in milliseconds).
- `discovery.dfy` (module `Discovery`, from `lambada/common.py`):
  `get_lambada_class` over abstract load results. The directory scan skips
  files that fail to load, echoes them, and numbers the successful loads
  consecutively. The selection loops return the first `Lambada` instance in
  module order, then attribute order. A missing path raises
  `Path does not exist`.

Invariants proved: every key of `dancers` is that entry's own name, and the
base configuration has exactly the ten recognised keys. Both hold after
construction and after every registration. Lemmas cover sequences of
registrations (last write wins, untouched keys keep their entries, distinct
names give one entry each). Others cover the first-match search (nested
search with early `break` equals the first match in the concatenated scan
order) and the directory scan (a failed load changes neither the modules kept
nor their numbering).

The model follows `lambada/__init__.py` as it stands, not the later API that
the repository's tests and sample use:

- `Dancer.__call__` discards the handler's result (`lambada/__init__.py:48`),
  so dispatch returns nothing.
- `description` defaults to `None`, not to the empty string.
- The per-dancer configuration merge, the frozen YAML/environment
  configuration and `requirements` do not exist in `lambada/__init__.py` and
  are not modelled.

## Model

| member | source | states |
|---|---|---|
| `Registry.Dancer.Call` | lambada/__init__.py:44-48 | the wrapped function receives exactly `(event, context)`; the call ends normally exactly when the function returns (its result is dropped), and otherwise re-raises the function's own exception |
| `Registry.ResolveName` | lambada/__init__.py:154-157 | the registration key is the given name when it is a non-empty string, and the function's own `__name__` when the name is absent, empty or the decorated function itself |
| `Registry.Register` | lambada/__init__.py:159-163 | one registration adds exactly the entry's name to the keys, maps it to the new entry (overwriting any earlier one), leaves every other key's entry unchanged, and preserves "every key is its entry's name" |
| `Registry.NoMatchingDancer` | lambada/__init__.py:105-109 | the dispatch-miss error is a plain exception whose message starts with the fixed prefix `No Matching Dancer for the tune: ` and continues with exactly the missing name |
| `Registry.Dispatched` | lambada/__init__.py:93-109 | a missing name makes no call and raises the no-match error; a present name calls that entry's function with exactly `(event, context)`; a normal return yields nothing; a KeyError from the handler is reported as the no-match error; any other exception propagates unchanged |
| `Registry.BaseConfig` | lambada/__init__.py:77-89 | the base configuration has exactly the ten keys `extra_files`, `handler`, `ignore_files`, `memory`, `region`, `role`, `timeout`, `vpc`, `security_groups`, `subnets`; `extra_files`/`ignore_files` become `[]` when falsy; every other argument is stored unchanged |
| `Registry.Lambada.constructor` | lambada/__init__.py:58-91 | a new registry has no dancers, the base configuration built from its arguments (defaults `lambda.tune`, timeout 30, memory 128), and satisfies the registry invariant |
| `Registry.Lambada.Call` | lambada/__init__.py:93-109 | dispatch on `context.function_name` produces exactly the call and outcome `Dispatched` describes, modifies nothing, and any dancer it calls is registered under, and carries, the dispatched name |
| `Registry.Lambada.ApplyDecorator` | lambada/__init__.py:129-163 | the inner decorator stores a `Dancer` with the resolved name, the given function, description, timeout and memory under that name (last write wins), returns that same entry, keeps the invariant and leaves `config` alone |
| `Registry.Lambada.DancerDecorator` | lambada/__init__.py:111-169 | bare use registers the decorated function at once under its own name and returns the `Dancer`; parameterised use registers nothing and returns a decorator carrying the given options |
| `Registry.RegisterAllKeys` | lambada/__init__.py:159 | after any run of registrations the keys are exactly the old keys plus the registered names |
| `Registry.LastWriteWins` | lambada/__init__.py:159 | a name maps to the last entry registered under it |
| `Registry.UntouchedKeep` | lambada/__init__.py:159 | a key no registration names keeps its old entry |
| `Registry.RegisterAllKeyed` | lambada/__init__.py:159-161 | any run of registrations preserves "every key is its entry's name" |
| `Registry.DistinctRegistrations` | lambada/__init__.py:159-163 | registrations under distinct names into an empty table give exactly those names, each mapped to its own entry |
| `Registry.SecondRegistrationWins` | lambada/__init__.py:101-103 | after two registrations under one name, dispatch to that name calls only the second function |
| `Registry.HandlerKeyErrorDependsOnEvent` | lambada/__init__.py:102-104 | a handler that raises KeyError only for some events is reported as the no-match error for those events alone; for the others dispatch ends normally |
| `Context.Deadline` | lambada/common.py:131-132 | a deadline exists exactly when the timeout is truthy, and then lies `timeout*1000` ms after construction time |
| `Context.LambdaContext.constructor` | lambada/common.py:104-132 | every supplied field is stored unchanged and `_end` is the deadline for the construction time and timeout |
| `Context.LambdaContext.GetRemainingTimeAsWritten` | lambada/common.py:134-140 | as written: raises AttributeError exactly when `_end` was never assigned, otherwise gives the remaining time |
| `Context.LambdaContext.GetRemainingTimeInMillis` | lambada/common.py:134-140 | remaining time is absent exactly when there is no (or a zero) deadline; otherwise it is the signed distance from now to the deadline, negative exactly when the deadline has passed |
| `Context.CountdownFromConstruction` | lambada/common.py:131-140 | a context built at time T with truthy timeout t reports `t*1000 - (now - T)` ms at time now, unless the deadline `T + t*1000` is exactly 0, which is falsy and reads as no remaining time |
| `Context.NoTimeoutMeansNoRemainingTime` | lambada/common.py:131-139 | without a truthy timeout the corrected query reports no remaining time at every clock reading, while the code as written raises AttributeError |
| `Discovery.Loads` | lambada/common.py:30-45 | the directory scan keeps at most one module per file, and the kept modules are named `__temp<n>__` with consecutive numbers from the starting counter |
| `Discovery.LoadsSnoc` | lambada/common.py:32-45 | each further file of the listing adds exactly one thing at the end: if it loads, a module holding that file's attributes named `__temp<n>__` with the next number; if it fails, the line `Unable to import <path>`, with the modules unchanged |
| `Discovery.LoadsAccountForEveryFile` | lambada/common.py:32-45 | the kept modules and the failure reports together number exactly the files of the scan |
| `Discovery.FailedLoadIsSkipped` | lambada/common.py:33-45 | inserting a file that fails to load anywhere in the listing changes neither the modules kept nor their numbering |
| `Discovery.LoadDirectory` | lambada/common.py:30-45 | the scan loop yields exactly the modules `Loads` describes and the echoed "Unable to import" line for each failed file, in order |
| `Discovery.FirstTuneIndex` | lambada/common.py:55-62 | the inner loop's stopping point: an index at most the length, holding a `Lambada` instance if it is in range, with none before it |
| `Discovery.FirstTuneIn` | lambada/common.py:55-62 | one module yields no registry exactly when none of its attributes is a `Lambada` instance |
| `Discovery.FirstTuneIsFirstInScanOrder` | lambada/common.py:54-64 | the per-module search with early exit finds the first `Lambada` instance of the concatenated scan order |
| `Discovery.FindTune` | lambada/common.py:54-65 | the two selection loops with `break` return the first `Lambada` instance in module order, then attribute order, or None |
| `Discovery.GetLambadaClass` | lambada/common.py:16-65 | a missing path raises `Path does not exist`; a single file's load error propagates; otherwise the result is the first `Lambada` instance of the loaded modules, and only a directory scan echoes failed files |
| `Discovery.FailingFileDoesNotHideTune` | lambada/common.py:41-45 | one file failing to load does not change which registry a directory scan finds |

## Findings

| source | as written | input that shows it | evidently intended | confidence | as-written member | corrected member |
|---|---|---|---|---|---|---|
| lambada/common.py:131-139 | `_end` is assigned only when the timeout is truthy, yet `get_remaining_time_in_millis` reads it unconditionally, so it raises AttributeError | `LambdaContext('tester1')` without a timeout, then `get_remaining_time_in_millis()` | return `None` when no deadline was set, as `lambada/tests/test_common.py:121-123` expects | high, not executed | `Context.LambdaContext.GetRemainingTimeAsWritten` (shown by `Context.NoTimeoutMeansNoRemainingTime`) | `Context.LambdaContext.GetRemainingTimeInMillis` |

## Left out

- `lambada/cli.py`: the click commands, their echo formatting and the packaging/upload calls into `lambda_uploader` are not part of this model.
- `LambadaConfig` (`lambada/common.py:75-93`) is not part of this model. It delegates defaults and validation to `lambda_uploader.config.Config`, whose code is not available.
- `get_time_millis`: the float wall clock with rounding is replaced by the integer parameter `now`.
- Loading and reflection: `imp.load_source`, `glob`, `os.path.isdir`/`isfile`, `dir()` and `getattr` are replaced by their results (`PathKind`, `LoadResult`, attribute sequences). `dir()`'s alphabetical order and glob's order are taken as given.
- `glob(path + '*.py')` with a directory path that lacks a trailing separator matches sibling files rather than the directory's contents. Since the listing is an input, the model does not capture this.
- The stack trace echoed after "Unable to import <file>", `LambdaContext.__str__` and all `log.debug` calls are debugging output and are not modelled.
- `Registry.Dancer.Call`: the model takes exactly `(event, context)`, the only call the registry makes. It does not take the arbitrary `*args, **kwargs` the Python wrapper forwards.
- The `functools.wraps` wrapper `_decorator` is folded into the call. It forwards arguments and result unchanged; only its logging is dropped.
- A `Dancer` built directly with `name=None` is not modelled, because the registry always passes a string name.
- `callable(name)` is modelled only for the decorated function itself (`NameArg.Decorated`). A non-function callable passed as `name` is not distinguished.
- The decorator returned by parameterised use is applied to the same registry through `Lambada.ApplyDecorator`. The `Options` value does not record which registry created it.
- Python values are restricted to `None`, booleans, integers, strings and lists. A float timeout for `LambdaContext` is not modelled, since timeouts are integers here.
- A user function's outcome depends only on the event it receives. It does not depend on the fields of the context object, which the model passes by reference only.
- `getattr(module, name, None)` raising anything other than ImportError propagates out of `get_lambada_class`. The model's attributes cannot raise anything else, so this error path is not modelled.
- A load failure that is neither an `Exception` nor a `SystemExit` (for example KeyboardInterrupt) aborts the directory scan. The model treats every failed load as caught and skipped.
- `function_name` is typed as a string. An unhashable name, which makes the dictionary lookup in `Lambada.__call__` raise TypeError instead of the no-match error, is not modelled.
- Exception chaining (`raise ... from`-style context on the no-match error) is not modelled.
- The frozen configuration object, environment/file configuration loading, per-dancer configuration merging and region overrides are not modelled. They belong to a later version of the library than the `lambada/__init__.py` modelled here.
