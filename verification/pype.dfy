/**
 * The `pype` step: run a child pipeline from inside the running (parent)
 * pipeline.
 *
 * Three decisions make up the step:
 *  - argument resolution (`GetArguments`): the `pype` configuration map is
 *    turned into a `PypeArgs` record, with defaults that depend on which
 *    keys are present and on Python truthiness;
 *  - copying results back (`WriteChildContextToParent`): `out` names the
 *    child keys whose values are written into the parent context;
 *  - context routing and error policy (`RunStep`): which context the child
 *    runs on, and whether a failure of the child reaches the caller.
 *
 * The pipeline engine is a parameter: `engine(args, context)` says how the
 * child run ends and what the context it ran on holds afterwards.
 */
module Pype {
  import opened Values
  import opened Contexts

  /** The exceptions the step raises or lets through. */
  datatype Error =
    | KeyNotInContextError
    | KeyInContextHasNoValueError
    | ContextError
    | TypeError                 // Python built-in: subscripting a non-dict, an unhashable key
    | AttributeError            // Python built-in: shlex given something that is not a string
    | ValueError                // Python built-in: shlex on unbalanced quotes or a trailing escape
    | ControlOfFlowInstruction  // a Call or Jump out of the child pipeline
    | Stop                      // a request to stop the pipeline or the step-group
    | PipelineError             // any other Exception the child pipeline raises
    | KeyboardInterrupt         // a BaseException that is not an Exception

  /** `except Exception` catches every error except a bare BaseException. */
  predicate IsException(e: Error)
  {
    !e.KeyboardInterrupt?
  }

  /** Control-of-flow instructions and stops are directions, not failures. */
  predicate IsFlowInstruction(e: Error)
  {
    e.ControlOfFlowInstruction? || e.Stop?
  }

  datatype Result<T> = Ok(value: T) | Err(error: Error)

  /** How a call ends: it returns normally, or it raises. */
  datatype Outcome = Completed | Raised(error: Error)

  /** What the parent pipeline was loaded with (`pipeline_definition.info`). */
  datatype LoaderInfo = LoaderInfo(
    loader: Value,
    isLoaderCascading: bool,
    isParentCascading: bool,
    parent: Value)

  /** The resolved arguments of one `pype` invocation. */
  datatype PypeArgs = PypeArgs(
    pipelineName: Value,
    args: Value,
    out: Value,
    useParentContext: Value,
    pipeArg: Value,
    skipParse: Value,
    raiseError: Value,
    loader: Value,
    stepGroups: Value,
    successGroup: Value,
    failureGroup: Value,
    pyDir: Value,
    parent: Value)

  /** How the child pipeline ended, and its context afterwards. */
  datatype ChildRun = ChildRun(outcome: Outcome, context: map<Value, Value>)

  const PypeKey := Str("pype")
  const NameKey := Str("name")
  const ArgsKey := Str("args")
  const OutKey := Str("out")
  const PipeArgKey := Str("pipeArg")
  const SkipParseKey := Str("skipParse")
  const UseParentContextKey := Str("useParentContext")
  const RaiseErrorKey := Str("raiseError")
  const GroupsKey := Str("groups")
  const SuccessKey := Str("success")
  const FailureKey := Str("failure")
  const LoaderKey := Str("loader")
  const PyDirKey := Str("pyDir")
  const ResolveFromParentKey := Str("resolveFromParent")
  const ParentKey := Str("parent")

  // ---------------------------------------------------------------------
  // Argument resolution
  // ---------------------------------------------------------------------

  function ArgsOf(pype: map<Value, Value>): Value
  {
    GetOr(pype, ArgsKey, None)
  }

  function PipeArgStringOf(pype: map<Value, Value>): Value
  {
    GetOr(pype, PipeArgKey, None)
  }

  function OutOf(pype: map<Value, Value>): Value
  {
    GetOr(pype, OutKey, None)
  }

  /** `skipParse`: parse the child's input only when a pipeArg is given, unless told otherwise. */
  function ResolveSkipParse(pype: map<Value, Value>): (r: Value)
    ensures Truthy(PipeArgStringOf(pype)) && SkipParseKey !in pype ==> r == Bool(false)
    ensures !Truthy(PipeArgStringOf(pype)) && SkipParseKey !in pype ==> r == Bool(true)
    ensures SkipParseKey in pype ==> r == pype[SkipParseKey]
  {
    if Truthy(PipeArgStringOf(pype)) && SkipParseKey !in pype then Bool(false)
    else GetOr(pype, SkipParseKey, Bool(true))
  }

  /**
   * `useParentContext`: a child given its own args or pipeArg gets a fresh
   * context, unless told otherwise; with neither it shares the parent's.
   */
  function ResolveUseParentContext(pype: map<Value, Value>): (r: Value)
    ensures (Truthy(ArgsOf(pype)) || Truthy(PipeArgStringOf(pype))) && UseParentContextKey !in pype
            ==> r == Bool(false)
    ensures !Truthy(ArgsOf(pype)) && !Truthy(PipeArgStringOf(pype)) && UseParentContextKey !in pype
            ==> r == Bool(true)
    ensures UseParentContextKey in pype ==> r == pype[UseParentContextKey]
  {
    if (Truthy(ArgsOf(pype)) || Truthy(PipeArgStringOf(pype))) && UseParentContextKey !in pype
    then Bool(false)
    else GetOr(pype, UseParentContextKey, Bool(true))
  }

  /** `groups`: a single string becomes a one-element list; anything else passes through. */
  function ResolveGroups(groups: Value): (r: Value)
    ensures groups.Str? ==> r == List([groups])
    ensures !groups.Str? ==> r == groups
    ensures !r.Str?
  {
    if groups.Str? then List([groups]) else groups
  }

  /** `loader`: an explicit loader wins; otherwise the parent's loader if it cascades. */
  function ResolveLoader(pype: map<Value, Value>, info: LoaderInfo): (r: Value)
    ensures LoaderKey in pype ==> r == pype[LoaderKey]
    ensures LoaderKey !in pype && info.isLoaderCascading ==> r == info.loader
    ensures LoaderKey !in pype && !info.isLoaderCascading ==> r == None
  {
    GetOr(pype, LoaderKey, if info.isLoaderCascading then info.loader else None)
  }

  /** `resolveFromParent`, defaulting to whether the parent's location cascades. */
  function ResolveFromParent(pype: map<Value, Value>, info: LoaderInfo): Value
  {
    GetOr(pype, ResolveFromParentKey, Bool(info.isParentCascading))
  }

  /**
   * `parent`: an explicit parent wins; otherwise the parent pipeline's own
   * parent, but only when resolving from the parent and the child loads
   * with the same loader as the parent.
   */
  function ResolveParent(pype: map<Value, Value>, info: LoaderInfo, loader: Value): (r: Value)
    ensures ParentKey in pype ==> r == pype[ParentKey]
    ensures ParentKey !in pype && Truthy(ResolveFromParent(pype, info)) && loader == info.loader
            ==> r == info.parent
    ensures ParentKey !in pype && !(Truthy(ResolveFromParent(pype, info)) && loader == info.loader)
            ==> r == None
    ensures ParentKey !in pype && ResolveFromParentKey !in pype && info.isParentCascading && loader == info.loader
            ==> r == info.parent
    ensures ParentKey !in pype && ResolveFromParentKey !in pype && !info.isParentCascading
            ==> r == None
  {
    var parentDefault :=
      if Truthy(ResolveFromParent(pype, info)) && loader == info.loader then info.parent else None;
    GetOr(pype, ParentKey, parentDefault)
  }

  /** `args` is present and not None, yet not a dict. */
  predicate ArgsNotDict(pype: map<Value, Value>)
  {
    ArgsOf(pype) != None && !ArgsOf(pype).Dict?
  }

  /** A truthy pipeArg that shlex cannot read, because it is not a string. */
  predicate PipeArgNotString(pype: map<Value, Value>)
  {
    Truthy(PipeArgStringOf(pype)) && !PipeArgStringOf(pype).Str?
  }

  /** A string pipeArg that `shlex.split` (here `split`) rejects. */
  predicate PipeArgUnsplittable(pype: map<Value, Value>, split: string -> Result<seq<string>>)
  {
    Truthy(PipeArgStringOf(pype)) && PipeArgStringOf(pype).Str? && split(PipeArgStringOf(pype).s).Err?
  }

  /** `out` only makes sense when the child runs on a context of its own. */
  predicate OutWithParentContext(pype: map<Value, Value>)
  {
    Truthy(OutOf(pype)) && Truthy(ResolveUseParentContext(pype))
  }

  /** `name` is present and not None (an empty string is accepted). */
  predicate HasName(pype: map<Value, Value>)
  {
    NameKey in pype && pype[NameKey] != None
  }

  /**
   * Everything `get_arguments` does once the `pype` entry is a dict: checks
   * in source order, then the defaults. `split` stands for `shlex.split`.
   */
  function ArgumentsFromPype(pype: map<Value, Value>, info: LoaderInfo, split: string -> Result<seq<string>>)
    : (r: Result<PypeArgs>)
    // the error conditions, each with the exception the source raises
    ensures NameKey !in pype ==> r == Err(KeyNotInContextError)
    ensures NameKey in pype && pype[NameKey] == None ==> r == Err(KeyInContextHasNoValueError)
    ensures HasName(pype) && ArgsNotDict(pype) ==> r == Err(ContextError)
    ensures HasName(pype) && !ArgsNotDict(pype) && PipeArgNotString(pype) ==> r == Err(AttributeError)
    ensures HasName(pype) && !ArgsNotDict(pype) && PipeArgUnsplittable(pype, split)
            ==> r == Err(split(PipeArgStringOf(pype).s).error)
    ensures HasName(pype) && !ArgsNotDict(pype) && !PipeArgNotString(pype) && !PipeArgUnsplittable(pype, split)
            && OutWithParentContext(pype)
            ==> r == Err(ContextError)
    ensures r.Ok? <==>
              && HasName(pype) && !ArgsNotDict(pype) && !PipeArgNotString(pype)
              && !PipeArgUnsplittable(pype, split) && !OutWithParentContext(pype)
    // the resolved record
    ensures r.Ok? ==> r.value.pipelineName == pype[NameKey]
    ensures r.Ok? ==> r.value.args == ArgsOf(pype) && (r.value.args == None || r.value.args.Dict?)
    ensures r.Ok? ==> r.value.out == OutOf(pype)
    ensures r.Ok? ==> !(Truthy(r.value.out) && Truthy(r.value.useParentContext))
    ensures r.Ok? ==> (r.value.pipeArg == None <==> !Truthy(PipeArgStringOf(pype)))
    ensures r.Ok? && Truthy(PipeArgStringOf(pype))
            ==> r.value.pipeArg == StrList(split(PipeArgStringOf(pype).s).value)
    ensures r.Ok? ==> r.value.skipParse == ResolveSkipParse(pype)
    ensures r.Ok? ==> r.value.useParentContext == ResolveUseParentContext(pype)
    ensures r.Ok? && RaiseErrorKey !in pype ==> r.value.raiseError == Bool(true)
    ensures r.Ok? && RaiseErrorKey in pype ==> r.value.raiseError == pype[RaiseErrorKey]
    ensures r.Ok? ==> r.value.stepGroups == ResolveGroups(GetOr(pype, GroupsKey, None))
    ensures r.Ok? ==> r.value.successGroup == GetOr(pype, SuccessKey, None)
    ensures r.Ok? ==> r.value.failureGroup == GetOr(pype, FailureKey, None)
    ensures r.Ok? ==> r.value.pyDir == GetOr(pype, PyDirKey, None)
    ensures r.Ok? ==> r.value.loader == ResolveLoader(pype, info)
    ensures r.Ok? ==> r.value.parent == ResolveParent(pype, info, r.value.loader)
  {
    if NameKey !in pype then Err(KeyNotInContextError)
    else if pype[NameKey] == None then Err(KeyInContextHasNoValueError)
    else
      var args := ArgsOf(pype);
      if args != None && !args.Dict? then Err(ContextError)
      else
        var pipeArgString := PipeArgStringOf(pype);
        if Truthy(pipeArgString) && !pipeArgString.Str? then Err(AttributeError)
        else if Truthy(pipeArgString) && split(pipeArgString.s).Err? then Err(split(pipeArgString.s).error)
        else
          var pipeArg := if Truthy(pipeArgString) then StrList(split(pipeArgString.s).value) else None;
          var skipParse := ResolveSkipParse(pype);
          var useParentContext := ResolveUseParentContext(pype);
          var out := OutOf(pype);
          if Truthy(out) && Truthy(useParentContext) then Err(ContextError)
          else
            var loader := ResolveLoader(pype, info);
            Ok(PypeArgs(
                 pipelineName := pype[NameKey],
                 args := args,
                 out := out,
                 useParentContext := useParentContext,
                 pipeArg := pipeArg,
                 skipParse := skipParse,
                 raiseError := GetOr(pype, RaiseErrorKey, Bool(true)),
                 loader := loader,
                 stepGroups := ResolveGroups(GetOr(pype, GroupsKey, None)),
                 successGroup := GetOr(pype, SuccessKey, None),
                 failureGroup := GetOr(pype, FailureKey, None),
                 pyDir := GetOr(pype, PyDirKey, None),
                 parent := ResolveParent(pype, info, loader)))
  }

  /**
   * `get_arguments(context)`: the `pype` entry must be present and not None,
   * and must be a dict for `pype['name']` to work. Formatting of the entry
   * is the identity here.
   */
  function GetArguments(context: map<Value, Value>, info: LoaderInfo, split: string -> Result<seq<string>>)
    : (r: Result<PypeArgs>)
    ensures PypeKey !in context ==> r == Err(KeyNotInContextError)
    ensures PypeKey in context && context[PypeKey] == None ==> r == Err(KeyInContextHasNoValueError)
    ensures PypeKey in context && context[PypeKey] != None && !context[PypeKey].Dict? ==> r == Err(TypeError)
    ensures PypeKey in context && context[PypeKey].Dict?
            ==> r == ArgumentsFromPype(context[PypeKey].entries, info, split)
    ensures r.Ok? ==> !(Truthy(r.value.out) && Truthy(r.value.useParentContext))
  {
    if PypeKey !in context then Err(KeyNotInContextError)
    else if context[PypeKey] == None then Err(KeyInContextHasNoValueError)
    else if !context[PypeKey].Dict? then Err(TypeError)
    else ArgumentsFromPype(context[PypeKey].entries, info, split)
  }

  // ---------------------------------------------------------------------
  // Copying results back into the parent
  // ---------------------------------------------------------------------

  /** `{k: k for k in items}`: every key maps to itself; an unhashable key is a TypeError. */
  function SelfMap(items: seq<Value>): (r: Result<map<Value, Value>>)
    ensures r.Ok? <==> forall i :: 0 <= i < |items| ==> Hashable(items[i])
    ensures r.Err? ==> r.error == TypeError
    ensures r.Ok? ==> r.value.Keys == set i | 0 <= i < |items| :: items[i]
    ensures r.Ok? ==> forall k :: k in r.value ==> r.value[k] == k
  {
    if items == [] then Ok(map[])
    else if !Hashable(items[0]) then Err(TypeError)
    else
      match SelfMap(items[1..])
      case Err(e) => Err(e)
      case Ok(m) => Ok(m[items[0] := items[0]])
  }

  /**
   * The parent-key to child-key map that `out` stands for: a string names one
   * key, a list names several (each copied under its own name), a dict maps
   * parent keys to child keys; anything else is a ContextError.
   */
  function OutKeyMap(out: Value): (r: Result<map<Value, Value>>)
    ensures out.Str? ==> r == Ok(map[out := out])
    ensures out.List? ==> r == SelfMap(out.items)
    ensures out.Dict? ==> r == Ok(out.entries)
    ensures !out.Str? && !out.List? && !out.Dict? ==> r == Err(ContextError)
  {
    match out
    case Str(_) => Ok(map[out := out])
    case List(items) => SelfMap(items)
    case Dict(entries) => Ok(entries)
    case _ => Err(ContextError)
  }

  /** `child_context.get_formatted(key)`, with formatting as the identity. */
  function ChildValue(child: map<Value, Value>, key: Value): Result<Value>
  {
    if !Hashable(key) then Err(TypeError)
    else if key !in child then Err(KeyNotInContextError)
    else Ok(child[key])
  }

  /** Every child key named by the map can be read from the child. */
  predicate AllFound(keyMap: map<Value, Value>, child: map<Value, Value>)
  {
    forall k :: k in keyMap ==> ChildValue(child, keyMap[k]).Ok?
  }

  /**
   * The parent after a complete copy: each mapped parent key holds the
   * child's value for its child key, every other parent entry is as before.
   */
  function CopyOut(parent: map<Value, Value>, keyMap: map<Value, Value>, child: map<Value, Value>)
    : (r: map<Value, Value>)
    requires AllFound(keyMap, child)
    ensures r.Keys == parent.Keys + keyMap.Keys
    ensures forall k :: k in keyMap ==> ChildValue(child, keyMap[k]) == Ok(r[k])
    ensures forall k :: k in parent && k !in keyMap ==> r[k] == parent[k]
  {
    parent + map k | k in keyMap :: child[keyMap[k]]
  }

  /**
   * The parent after a copy that stopped at an unreadable child key: some of
   * the mapped keys hold the child's values, all other entries are as before.
   */
  ghost predicate PartiallyCopied(
    before: map<Value, Value>, after: map<Value, Value>,
    keyMap: map<Value, Value>, child: map<Value, Value>)
  {
    && before.Keys <= after.Keys
    && (forall k :: k in after ==> k in before || k in keyMap)
    && (forall k :: k in before && k !in keyMap ==> after[k] == before[k])
    && (forall k :: k in after && k in keyMap ==>
          (k in before && after[k] == before[k]) || ChildValue(child, keyMap[k]) == Ok(after[k]))
  }

  /** Some child key named by the map cannot be read, failing with `e`. */
  ghost predicate FailingLookup(keyMap: map<Value, Value>, child: map<Value, Value>, e: Error)
  {
    exists k :: k in keyMap && ChildValue(child, keyMap[k]) == Err(e)
  }

  /** What `write_child_context_to_parent` may leave behind, and how it ends. */
  ghost predicate WriteBackSpec(
    out: Value, before: map<Value, Value>, after: map<Value, Value>,
    child: map<Value, Value>, w: Outcome)
  {
    match OutKeyMap(out)
    case Err(e) => w == Raised(e) && after == before
    case Ok(keyMap) =>
      if AllFound(keyMap, child) then
        w == Completed && after == CopyOut(before, keyMap, child)
      else
        w.Raised? && FailingLookup(keyMap, child, w.error) && PartiallyCopied(before, after, keyMap, child)
  }

  lemma CopyOutOfPartIsPartial(
    before: map<Value, Value>, keyMap: map<Value, Value>,
    done: map<Value, Value>, child: map<Value, Value>)
    requires forall k :: k in done ==> k in keyMap && done[k] == keyMap[k]
    requires AllFound(done, child)
    ensures PartiallyCopied(before, CopyOut(before, done, child), keyMap, child)
  {
  }

  /** Copying one more key extends a partial copy by that key. */
  lemma CopyOutStep(
    before: map<Value, Value>, keyMap: map<Value, Value>, todo: set<Value>,
    child: map<Value, Value>, key: Value)
    requires todo <= keyMap.Keys && key in todo
    requires AllFound(keyMap - todo, child)
    requires ChildValue(child, keyMap[key]).Ok?
    ensures AllFound(keyMap - (todo - {key}), child)
    ensures CopyOut(before, keyMap - (todo - {key}), child)
            == CopyOut(before, keyMap - todo, child)[key := child[keyMap[key]]]
  {
    var next := keyMap - (todo - {key});
    assert next == (keyMap - todo)[key := keyMap[key]];
  }

  /**
   * `write_child_context_to_parent(out, parent, child)`: writes the `out`
   * keys into the parent, one key at a time, in place. Dictionary order is
   * not modelled: the keys are taken in any order.
   */
  method WriteChildContextToParent(out: Value, parentContext: Context, childContext: Context)
    returns (w: Outcome)
    requires parentContext != childContext
    modifies parentContext
    ensures childContext.entries == old(childContext.entries)
    ensures WriteBackSpec(out, old(parentContext.entries), parentContext.entries, childContext.entries, w)
  {
    var saveMe := OutKeyMap(out);
    if saveMe.Err? {
      return Raised(saveMe.error);
    }
    var keyMap := saveMe.value;
    var child := childContext.entries;
    var todo := keyMap.Keys;
    while todo != {}
      invariant todo <= keyMap.Keys
      invariant AllFound(keyMap - todo, child)
      invariant parentContext.entries == CopyOut(old(parentContext.entries), keyMap - todo, child)
      decreases todo
    {
      var parentKey :| parentKey in todo;
      var value := ChildValue(child, keyMap[parentKey]);
      if value.Err? {
        CopyOutOfPartIsPartial(old(parentContext.entries), keyMap, keyMap - todo, child);
        assert !AllFound(keyMap, child);
        assert FailingLookup(keyMap, child, value.error);
        return Raised(value.error);
      }
      CopyOutStep(old(parentContext.entries), keyMap, todo, child, parentKey);
      parentContext.entries := parentContext.entries[parentKey := value.value];
      todo := todo - {parentKey};
    }
    assert keyMap - todo == keyMap;
    w := Completed;
  }

  // ---------------------------------------------------------------------
  // Context routing and error policy
  // ---------------------------------------------------------------------

  /**
   * The `except` clauses around the child run: flow instructions and
   * non-Exceptions always propagate; any other error propagates exactly
   * when raiseError is truthy and is swallowed otherwise.
   */
  function ErrorPolicy(o: Outcome, raiseError: Value): (r: Outcome)
    ensures o.Completed? ==> r == Completed
    ensures o.Raised? && (IsFlowInstruction(o.error) || !IsException(o.error)) ==> r == o
    ensures o.Raised? && IsException(o.error) && !IsFlowInstruction(o.error)
            ==> (r == o <==> Truthy(raiseError)) && (r == Completed <==> !Truthy(raiseError))
  {
    match o
    case Completed => Completed
    case Raised(e) =>
      if IsFlowInstruction(e) || !IsException(e) || Truthy(raiseError) then o else Completed
  }

  /** The parent context once `context.update(args)` has run, when args is truthy. */
  function WithArgs(context: map<Value, Value>, args: Value): map<Value, Value>
  {
    if Truthy(args) && args.Dict? then context + args.entries else context
  }

  /** The fresh child context: `Context(args)` when args is truthy, else `Context()`. */
  function FreshChildContext(args: Value): map<Value, Value>
  {
    if Truthy(args) && args.Dict? then args.entries else map[]
  }

  /** The context the child pipeline starts on. */
  function ChildStart(before: map<Value, Value>, pa: PypeArgs): map<Value, Value>
  {
    if Truthy(pa.useParentContext) then WithArgs(before, pa.args) else FreshChildContext(pa.args)
  }

  /** What `run_step` may leave in the parent context, and how it ends. */
  ghost predicate StepSpec(
    before: map<Value, Value>, after: map<Value, Value>, r: Outcome,
    info: LoaderInfo, split: string -> Result<seq<string>>,
    engine: (PypeArgs, map<Value, Value>) -> ChildRun)
  {
    match GetArguments(before, info, split)
    case Err(e) => r == Raised(e) && after == before
    case Ok(pa) =>
      var run := engine(pa, ChildStart(before, pa));
      if Truthy(pa.useParentContext) then
        after == run.context && r == ErrorPolicy(run.outcome, pa.raiseError)
      else if run.outcome.Raised? || !Truthy(pa.out) then
        after == before && r == ErrorPolicy(run.outcome, pa.raiseError)
      else
        exists w :: WriteBackSpec(pa.out, before, after, run.context, w) && r == ErrorPolicy(w, pa.raiseError)
  }

  /**
   * `run_step(context)`: resolve the arguments (outside the `try`), run the
   * child on the parent's context or on a fresh one, copy `out` back, and
   * apply the error policy.
   */
  method RunStep(
    context: Context, info: LoaderInfo, split: string -> Result<seq<string>>,
    engine: (PypeArgs, map<Value, Value>) -> ChildRun)
    returns (r: Outcome)
    modifies context
    ensures StepSpec(old(context.entries), context.entries, r, info, split, engine)
  {
    var pypeArgs := GetArguments(context.entries, info, split);
    if pypeArgs.Err? {
      return Raised(pypeArgs.error);
    }
    var pa := pypeArgs.value;
    if Truthy(pa.useParentContext) {
      if Truthy(pa.args) {
        context.entries := context.entries + pa.args.entries;
      }
      var run := engine(pa, context.entries);
      context.entries := run.context;
      r := ErrorPolicy(run.outcome, pa.raiseError);
    } else {
      var childContext := new Context(if Truthy(pa.args) then pa.args.entries else map[]);
      var run := engine(pa, childContext.entries);
      childContext.entries := run.context;
      if run.outcome.Completed? && Truthy(pa.out) {
        var w := WriteChildContextToParent(pa.out, context, childContext);
        r := ErrorPolicy(w, pa.raiseError);
      } else {
        r := ErrorPolicy(run.outcome, pa.raiseError);
      }
    }
  }

  // ---------------------------------------------------------------------
  // Properties of the step
  // ---------------------------------------------------------------------

  /** A string `out` is the one-element list holding that string. */
  lemma StrOutIsSingletonList(key: Value)
    requires key.Str?
    ensures OutKeyMap(key) == OutKeyMap(List([key]))
  {
  }

  /**
   * Errors of argument resolution happen before the `try`: they always
   * reach the caller and the context is left as it was.
   */
  lemma ArgumentErrorsAreNeverSwallowed(
    before: map<Value, Value>, after: map<Value, Value>, r: Outcome,
    info: LoaderInfo, split: string -> Result<seq<string>>,
    engine: (PypeArgs, map<Value, Value>) -> ChildRun)
    requires StepSpec(before, after, r, info, split, engine)
    requires GetArguments(before, info, split).Err?
    ensures r == Raised(GetArguments(before, info, split).error)
    ensures after == before
  {
  }

  /** A control-of-flow instruction or stop from the child always reaches the caller. */
  lemma FlowInstructionsAlwaysPropagate(
    before: map<Value, Value>, after: map<Value, Value>, r: Outcome,
    info: LoaderInfo, split: string -> Result<seq<string>>,
    engine: (PypeArgs, map<Value, Value>) -> ChildRun)
    requires StepSpec(before, after, r, info, split, engine)
    requires GetArguments(before, info, split).Ok?
    requires var pa := GetArguments(before, info, split).value;
             var o := engine(pa, ChildStart(before, pa)).outcome;
             o.Raised? && IsFlowInstruction(o.error)
    ensures r == engine(GetArguments(before, info, split).value,
                        ChildStart(before, GetArguments(before, info, split).value)).outcome
  {
  }

  /**
   * Any other Exception from the child reaches the caller exactly when
   * raiseError is truthy; otherwise the step ends normally.
   */
  lemma ChildErrorPropagatesIffRaiseError(
    before: map<Value, Value>, after: map<Value, Value>, r: Outcome,
    info: LoaderInfo, split: string -> Result<seq<string>>,
    engine: (PypeArgs, map<Value, Value>) -> ChildRun)
    requires StepSpec(before, after, r, info, split, engine)
    requires GetArguments(before, info, split).Ok?
    requires var pa := GetArguments(before, info, split).value;
             var o := engine(pa, ChildStart(before, pa)).outcome;
             o.Raised? && IsException(o.error) && !IsFlowInstruction(o.error)
    ensures var pa := GetArguments(before, info, split).value;
            var o := engine(pa, ChildStart(before, pa)).outcome;
            (r == o <==> Truthy(pa.raiseError)) && (r == Completed <==> !Truthy(pa.raiseError))
  {
  }

  /**
   * With the parent context, args (when truthy) are written into the
   * parent first, and the child runs on that very context.
   */
  lemma ParentContextRouting(
    before: map<Value, Value>, after: map<Value, Value>, r: Outcome,
    info: LoaderInfo, split: string -> Result<seq<string>>,
    engine: (PypeArgs, map<Value, Value>) -> ChildRun)
    requires StepSpec(before, after, r, info, split, engine)
    requires GetArguments(before, info, split).Ok?
    requires Truthy(GetArguments(before, info, split).value.useParentContext)
    ensures var pa := GetArguments(before, info, split).value;
            && ChildStart(before, pa).Keys == before.Keys + (if Truthy(pa.args) then pa.args.entries.Keys else {})
            && (forall k :: k in ChildStart(before, pa) && k !in before ==> Truthy(pa.args))
            && (Truthy(pa.args) ==> forall k :: k in pa.args.entries ==> ChildStart(before, pa)[k] == pa.args.entries[k])
            && (forall k :: k in before && !(Truthy(pa.args) && k in pa.args.entries)
                  ==> ChildStart(before, pa)[k] == before[k])
            && after == engine(pa, ChildStart(before, pa)).context
  {
  }

  /**
   * Without the parent context, the child starts on a context made from
   * args alone; the parent changes only in the keys `out` names, and only
   * when the child completed normally and `out` is truthy.
   */
  lemma FreshContextRouting(
    before: map<Value, Value>, after: map<Value, Value>, r: Outcome,
    info: LoaderInfo, split: string -> Result<seq<string>>,
    engine: (PypeArgs, map<Value, Value>) -> ChildRun)
    requires StepSpec(before, after, r, info, split, engine)
    requires GetArguments(before, info, split).Ok?
    requires !Truthy(GetArguments(before, info, split).value.useParentContext)
    ensures var pa := GetArguments(before, info, split).value;
            && ChildStart(before, pa) == (if Truthy(pa.args) then pa.args.entries else map[])
            && (after != before ==> engine(pa, ChildStart(before, pa)).outcome.Completed? && Truthy(pa.out))
            && (after != before ==> OutKeyMap(pa.out).Ok?)
            && (OutKeyMap(pa.out).Ok? ==>
                  && before.Keys <= after.Keys
                  && (forall k :: k in after ==> k in before || k in OutKeyMap(pa.out).value)
                  && (forall k :: k in before && k !in OutKeyMap(pa.out).value ==> after[k] == before[k]))
  {
  }

  /**
   * Errors of the write-back (an `out` of the wrong type, an unreadable
   * child key) are inside the `try` too: they reach the caller exactly when
   * raiseError is truthy, and they are the only way the step can raise
   * after the child completed normally.
   */
  lemma WriteBackErrorsFollowRaiseError(
    before: map<Value, Value>, after: map<Value, Value>, r: Outcome,
    info: LoaderInfo, split: string -> Result<seq<string>>,
    engine: (PypeArgs, map<Value, Value>) -> ChildRun)
    requires StepSpec(before, after, r, info, split, engine)
    requires GetArguments(before, info, split).Ok?
    requires var pa := GetArguments(before, info, split).value;
             && !Truthy(pa.useParentContext) && Truthy(pa.out)
             && engine(pa, ChildStart(before, pa)).outcome.Completed?
    ensures var pa := GetArguments(before, info, split).value;
            var child := engine(pa, ChildStart(before, pa)).context;
            && (OutKeyMap(pa.out).Err? || !AllFound(OutKeyMap(pa.out).value, child)
                ==> (r.Raised? <==> Truthy(pa.raiseError)))
            && (r.Raised? ==> Truthy(pa.raiseError) && r.error in {ContextError, TypeError, KeyNotInContextError})
  {
  }
}
