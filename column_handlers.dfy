/**
 * The column handlers of an import or export: the shared default handlers,
 * overlaid with the handlers a model class declares for its own columns.
 */
module ColumnHandlers {
  import opened Wrappers

  /** A handler class, by name. */
  type Handler = string

  /**
   * `aggregate_column_handlers`: a copy of the defaults updated with the model's
   * specific handlers (`None` when the class declares none). The defaults are a value
   * here, so the shared default map is never changed by the call.
   */
  method AggregateColumnHandlers(defaults: map<string, Handler>, specific: Option<map<string, Handler>>)
    returns (result: map<string, Handler>)
    ensures specific.None? ==> result == defaults
    ensures specific.Some? ==> result.Keys == defaults.Keys + specific.value.Keys
    ensures specific.Some? ==> forall k :: k in specific.value ==> result[k] == specific.value[k]
    ensures forall k :: k in defaults && (specific.None? || k !in specific.value) ==> k in result && result[k] == defaults[k]
  {
    result := defaults;
    if specific.Some? {
      result := result + specific.value;
    }
  }
}
