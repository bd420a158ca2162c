# pypyr `pype` and `contextclearall` steps in Dafny

This project models two steps of the pypyr pipeline runner.

- **`pype`** runs a child pipeline from inside the running (parent) pipeline. It works in three stages:
  - It resolves the `pype` configuration map into a `PypeArgs` record. The defaults depend on which keys are present and on Python truthiness.
  - It runs the child, either on the parent's own context or on a fresh context built from `args`.
  - If the child ran on a fresh context, it copies the `out` keys back into the parent. A failure of the child is re-raised or swallowed according to `raiseError` and the kind of exception.
- **`contextclearall`** wipes the shared context in place.

Files:

- `values.dfy` (module `Values`): Python values as they appear in a context (None, str, bool, int, list, dict). It also defines truthiness, hashability and `dict.get`.
- `context.dfy` (module `Contexts`): the `Context` class. Its `entries` map is what the steps change in place.
- `pype.dfy` (module `Pype`) contains:
  - argument resolution (`GetArguments`, `ArgumentsFromPype` and one `Resolve…` function per default rule);
  - the `out` normalisation and write-back (`OutKeyMap`, `SelfMap`, `CopyOut`, `WriteChildContextToParent`);
  - the error policy and context routing (`ErrorPolicy`, `StepSpec`, `RunStep`);
  - lemmas about `RunStep`'s specification.
- `contextclearall.dfy` (module `ContextClearAll`): the clear-all step.

The pipeline engine is a parameter, `engine: (PypeArgs, map<Value, Value>) -> ChildRun`. It receives the resolved arguments and the context the child starts on. It returns how the run ended and what that context holds afterwards. `shlex.split` is a parameter `split: string -> Result<seq<string>>`. It fails where `shlex` raises, as it does on unbalanced quotes or a trailing escape.

Where the code and its docstrings disagree, the model follows the code:
- `resolveFromParent` defaults to the parent's `is_parent_cascading`, not to `True`.
- `loader` defaults to the parent's loader when loading cascades, and to `None` otherwise.
- Only a `None` name is rejected as having no value. An empty string name is accepted.

## Model

| member | source | states |
|---|---|---|
| `Pype.GetArguments` | pypyr/steps/pype.py:197-210 | A missing `pype` entry raises KeyNotInContextError. A `None` entry raises KeyInContextHasNoValueError. A non-dict entry raises TypeError, because `pype['name']` cannot subscript it. Otherwise the result is the resolution of the dict. A successful result never has a truthy `out` together with a truthy `use_parent_context`. |
| `Pype.ArgumentsFromPype` | pypyr/steps/pype.py:200-280 | Each error condition is checked in source order, with its own exception: missing name, `None` name, non-dict `args`, a truthy non-string `pipeArg`, a `pipeArg` that `shlex.split` rejects (its ValueError), `out` with the parent context. The result is Ok exactly when none of them holds, and then each field is given by its rule. The name is taken as is, so an empty string is accepted. `pipe_arg` is `None` exactly when `pipeArg` is falsy, and is otherwise the split tokens. `raise_error` defaults to True. `success`, `failure` and `pyDir` default to None. |
| `Pype.ResolveSkipParse` | pypyr/steps/pype.py:219-225 | If `skipParse` is absent, it is False when `pipeArg` is truthy and True when it is not. An explicit `skipParse` is used as given. |
| `Pype.ResolveUseParentContext` | pypyr/steps/pype.py:227-230 | If `useParentContext` is absent, it is False when `args` or `pipeArg` is truthy and True otherwise. An explicit value is used as given. |
| `Pype.ResolveGroups` | pypyr/steps/pype.py:244-246 | A string `groups` becomes a one-element list. Any other value, including absent (None), passes through unchanged. The result is never a string. |
| `Pype.ResolveLoader` | pypyr/steps/pype.py:251-256 | An explicit `loader` always wins, even None. Otherwise the result is the parent's loader when loader cascading is on, and None when it is off. |
| `Pype.ResolveParent` | pypyr/steps/pype.py:259-266 | An explicit `parent` always wins. Otherwise the result is the parent pipeline's `parent` when resolve-from-parent is truthy and the resolved loader equals the parent's loader, and None in every other case. Resolve-from-parent defaults to `is_parent_cascading`. |
| `Pype.SelfMap` | pypyr/steps/pype.py:296-297 | `{k: k for k in out}` succeeds exactly when every element is hashable, and fails with TypeError otherwise. On success its keys are exactly the list's elements, each mapped to itself. |
| `Pype.OutKeyMap` | pypyr/steps/pype.py:294-302 | A string `k` gives `{k: k}` and a list gives its self-map. A dict is used as the parent-to-child key map. Any other type raises ContextError. |
| `Pype.StrOutIsSingletonList` | pypyr/steps/pype.py:294-297 | A string `out` and the one-element list holding it give the same key map. |
| `Pype.CopyOut` | pypyr/steps/pype.py:304-310 | After a complete copy, the parent's keys are its old keys plus the mapped keys. Each mapped parent key holds the child's value for its child key. Every other parent entry is unchanged. |
| `Pype.WriteChildContextToParent` | pypyr/steps/pype.py:283-310 | A bad `out` type raises its error and leaves the parent unchanged. When every child key can be read, the parent becomes `CopyOut` of the old parent. Otherwise the call raises the error of some unreadable child key (TypeError or KeyNotInContextError), and the parent keeps all its old keys: apart from mapped keys already copied from the child, nothing has changed. The child context is never modified. |
| `Pype.ErrorPolicy` | pypyr/steps/pype.py:151-166 | ControlOfFlowInstruction, Stop and non-Exception errors always propagate. Any other error propagates if and only if `raiseError` is truthy; otherwise the step ends normally. A normal completion stays normal. |
| `Pype.RunStep` | pypyr/steps/pype.py:110-168 | The new parent context and the outcome satisfy `StepSpec`, which works as follows. Argument errors are raised, and the context is untouched. With the parent context, truthy `args` are merged into it and the child runs on it. Without the parent context, the child runs on a fresh context made from `args`. The `out` keys are written back only after a normal completion with a truthy `out`. Every outcome then goes through `ErrorPolicy`. |
| `Pype.ArgumentErrorsAreNeverSwallowed` | pypyr/steps/pype.py:112-114 | Errors from `get_arguments` always reach the caller, whatever `raiseError` is, and the context is unchanged. |
| `Pype.FlowInstructionsAlwaysPropagate` | pypyr/steps/pype.py:151-154 | A ControlOfFlowInstruction or Stop raised by the child is the step's own outcome. |
| `Pype.ChildErrorPropagatesIffRaiseError` | pypyr/steps/pype.py:155-166 | Any other Exception from the child is re-raised exactly when `raiseError` is truthy. Otherwise the step completes normally. |
| `Pype.ParentContextRouting` | pypyr/steps/pype.py:124-132 | With the parent context, the child starts on the parent context updated with `args` (when truthy): the old keys plus the args keys, with the args values, and every other old key keeps its value. The parent afterwards is exactly what the child left in it. |
| `Pype.FreshContextRouting` | pypyr/steps/pype.py:134-148 | Without the parent context, the child starts on `args`, or on an empty context when `args` is falsy. The parent changes only if the child completed normally, `out` is truthy and valid. It then changes only in the keys `out` names and loses no key. |
| `Pype.WriteBackErrorsFollowRaiseError` | pypyr/steps/pype.py:145-166 | After the child completes normally with a truthy `out` on a fresh context, a write-back failure (an `out` that is not str, list or dict, or an unreadable child key) reaches the caller exactly when `raiseError` is truthy. Any error the step then raises is one of ContextError, TypeError or KeyNotInContextError. |
| `Contexts.Context.constructor` | pypyr/steps/pype.py:138-141 | `Context(args)` holds exactly the given entries, and `Context()` holds the empty map. |
| `ContextClearAll.RunStep` | pypyr/steps/contextclearall.py:9-21 | After the step the context holds no keys, whatever it held before. This includes a `contextClear` list naming only some keys, and an already empty context, so the step is idempotent. The clear happens in place on the caller's object. |
| `ContextClearAll.ClearThenSet` | tests/unit/pypyr/steps/contextclearall_test.py:20-30 | The cleared context is still the same object and still works as a dictionary: a key set after the wipe is its only key and reads back its value. |

## Left out

- `pypyr/cli.py` (argument parsing through `argparse`, exit-code mapping) is outside this model.
- Pipeline execution is left out. `Pipeline(...)` and `load_and_run_pipeline` are the `engine` parameter. The constructor is assumed not to raise, so every child failure is attributed to the run. The child's arguments (name, `pipe_arg`, parse flag, loader, groups, `py_dir`, parent) are handed to `engine` without interpretation.
- `shlex.split` is the `split` parameter, so its tokenising rules are not modelled. Its failure on a string (ValueError) is modelled through `split`'s error result. A truthy `pipeArg` that is not a string raises AttributeError, as `shlex` does when it tries to read it.
- `Context.get_formatted` is the identity, so no templating is modelled. `assert_key_has_value` is "key present and not None".
- `context.current_pipeline` is the `LoaderInfo` parameter. Its absence, which would raise AttributeError, is not modelled.
- Python floats are not modelled. Python equality between `bool` and `int` (`True == 1`) is not modelled either: the model uses structural equality of values, in dictionary keys and in `loader == parent_loader`.
- `Pype.WriteChildContextToParent`: does not model dictionary insertion order. The keys are written in an unspecified order. When a child key cannot be read part-way, the model does not pin down which keys were already written, or which of several errors is raised first.
- `Pype.WriteChildContextToParent`: requires the parent and child contexts to be different objects. `run_step` always passes a fresh child. The Python function would also accept the same object twice.
- Subclasses of ControlOfFlowInstruction and Stop (Call, Jump, StopPipeline, …) are represented by those two names. Every other Exception the child raises is `PipelineError`, and a non-Exception BaseException is `KeyboardInterrupt`.
- All `logger` calls are diagnostic output only and are left out.
- `pypyr/steps/filewriteyaml.py` (directory creation, file I/O, YAML dump) and `pypyr/version.py` (formatting around a foreign `platform` call) are not part of this model.
