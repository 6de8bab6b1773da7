/** The shapes of the values a store definition holds (src/types.ts):
    plain JSON data, functions, and JavaScript's `undefined`, which the
    store code tests for explicitly. */
module Values {

  datatype Option<+T> = None | Some(value: T)

  /** A JSON value. JavaScript numbers are modelled as integers. */
  datatype Json =
    | Null
    | Bool(b: bool)
    | Num(n: int)
    | Str(s: string)
    | Arr(items: seq<Json>)
    | Obj(fields: map<string, Json>)

  /** The functions that appear in a store. Caller-authored functions are
      opaque tokens; the others are the closures the library itself creates:
      the two kinds of synthesized setter, the dual-mode dispatcher wrapped
      around a field's function, and the `() => {}` no-op. */
  datatype Fn =
    | UserFn(id: nat)
    | AssignSetter(field: string)
    | GetterOnlySetter(field: string)
    | Dispatcher(inner: Fn)
    | Noop

  /** Any JavaScript value the core looks at. */
  datatype Value = Json(json: Json) | Function(fn: Fn) | Undefined
  {
    /** `value instanceof Function` */
    predicate IsFunction() { Function? }

    /** `typeof value === 'string'` */
    predicate IsString() { Json? && json.Str? }
  }

  /** How a call into code returns: with a value, or by throwing. */
  datatype Outcome = Returned(value: Value) | Threw(error: string)
}
