/** Values shared by every module of the model: optional values, dictionary
    entries, the errors the billing and data-source services raise, and the
    result type that carries them. */
module Types {

  datatype Option<T> = None | Some(value: T) {
    /** `d.get(key, default)` once the lookup has produced this option. */
    function GetOr(default: T): T {
      if Some? then value else default
    }
  }

  /** Python truthiness of an optional string: `None` and `""` are false. */
  predicate Truthy(x: Option<string>) {
    x.Some? && x.value != ""
  }

  /** One key of a Python dict as seen by the code: the key is missing, it is
      bound to `None`, or it is bound to a string. */
  datatype Field = Absent | Null | Present(text: string) {
    /** `key in d` */
    predicate KeyPresent() {
      !Absent?
    }

    /** `d.get(key) is None` */
    predicate ValueIsNone() {
      !Present?
    }

    /** The value `d.get(key)` yields: `None` for a missing key or a `None` value. */
    function AsOption(): Option<string> {
      if Present? then Some(text) else None
    }
  }

  /** The exceptions the modelled code raises, by kind. */
  datatype Error =
    | MalformedSegment(segment: string)  // ValueError: `(a, b) = q_item.split('=')`
    | NoResults                          // UnboundLocalError: `columns` used with no result
    | ColumnMismatch                     // pandas: a row whose width differs from the columns
    | NothingToConcatenate               // pandas: `pd.concat([])`
    | UnknownAggregation(symbol: string) // KeyError: `AGGR_MAP[aggr]`
    | LevelNotFound(level: string)       // pandas: `groupby(level=...)` on a missing level
    | NotAMapping                        // AttributeError: a list has no `.items()`
    | MissingKey(key: string)            // KeyError on a dict subscript
    | RequiredParameter(key: string)     // ERROR_REQUIRED_PARAMETER(key=...)
    | PluginCallFailed                   // an exception from the plugin runtime
    | RepositoryCallFailed               // an exception from the plugin repository
    | SecretCallFailed                   // an exception from the secret service
    | StoreCallFailed                    // an exception from the data-source manager
    | NotFound(dataSourceId: string)     // the data-source manager found no such record

  datatype Result<T> = Ok(value: T) | Err(error: Error) {
    predicate IsFailure() {
      Err?
    }

    function PropagateFailure<U>(): Result<U>
      requires Err?
    {
      Err(error)
    }

    function Extract(): T
      requires Ok?
    {
      value
    }
  }
}
