/**
 The resolver context and the three ways a response handler can end: returning a
 value, recording an error with `util.appendError` and carrying on, or aborting
 the field with `util.error`, `util.unauthorized` or a JavaScript TypeError.
 */
module AppSync {
  import opened Js

  /** The error the data source reports in `ctx.error`. */
  datatype EffectError = EffectError(message: string, errorType: string)

  /**
   The parts of `ctx` the resolvers read: the field arguments (`ctx.args`, also
   reachable as `ctx.arguments`), the data source's result and its error.
   */
  datatype Context = Context(args: map<string, Value>, result: Value, error: Option<EffectError>)

  /** Why a handler stopped the field. */
  datatype Fault =
    | TypeError(property: string)                              // property read on null or undefined
    | Error(message: string, errorType: string, data: Value)    // util.error
    | Unauthorized                                             // util.unauthorized

  datatype Outcome =
    | Returned(value: Value)
      /** util.appendError(message, type, data): the error is recorded and the
          handler goes on; as appendError returns `undefined`, a handler that
          returns its result yields `undefined` as the field value. */
    | Appended(message: string, errorType: string, data: Value)
    | Aborted(fault: Fault)

  /** An argument of the field, as `const { name } = ctx.args` reads it. */
  function Arg(ctx: Context, name: string): (v: Value)
    ensures name !in ctx.args ==> v == Undefined
    ensures name in ctx.args ==> v == ctx.args[name]
  {
    Own(ctx.args, name)
  }

  /** `return util.appendError(error.message, error.type, result)` */
  function AppendError(e: EffectError, result: Value): (o: Outcome)
    ensures o.Appended? && o.message == e.message && o.errorType == e.errorType && o.data == result
  {
    Appended(e.message, e.errorType, result)
  }

  /**
   The response rule shared by the data resolvers: an error from the store is
   appended together with the partial result, otherwise the result is returned.
   */
  function AppendOrReturn(ctx: Context): (o: Outcome)
    ensures !o.Aborted?
    ensures o.Returned? <==> ctx.error.None?
    ensures o.Returned? ==> o.value == ctx.result
    ensures o.Appended? ==> o == AppendError(ctx.error.value, ctx.result)
  {
    if ctx.error.Some? then AppendError(ctx.error.value, ctx.result) else Returned(ctx.result)
  }
}
