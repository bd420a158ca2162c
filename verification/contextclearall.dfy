/**
 * The `contextclearall` step: wipe every entry of the context, keeping the
 * same Context object.
 */
module ContextClearAll {
  import opened Values
  import opened Contexts

  /** `context.clear()`: afterwards no key at all is left, whatever was there. */
  method RunStep(context: Context)
    modifies context
    ensures context.entries == map[]
  {
    context.entries := map[];
  }

  /**
   * The cleared context is still the caller's object and goes on working as
   * a dictionary: a key set after the wipe is the only key it holds.
   */
  method ClearThenSet(context: Context, key: Value, value: Value)
    modifies context
    ensures context.entries == map[key := value]
  {
    RunStep(context);
    context.entries := context.entries[key := value];
  }
}
