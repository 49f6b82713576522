/** The `getBook` query: a GetItem by the `id` argument. */
module QueryGetBook {
  import opened Js
  import opened AppSync
  import opened Requests

  /** `get({ key: { id } })` with `id` taken from the arguments. */
  function Request(ctx: Context): (op: Operation)
    ensures op.GetItem?
    ensures op.key.Keys == {"id"}
    ensures op.key["id"] == Arg(ctx, "id")
  {
    GetItem(map["id" := Arg(ctx, "id")])
  }

  /**
   Without an error the fetched item is the field's value, whatever it is, an
   absent item included; with one, the error is appended with the partial
   result and the handler does not abort.
   */
  function Response(ctx: Context): (o: Outcome)
    ensures ctx.error.None? ==> o == Returned(ctx.result)
    ensures ctx.error.Some? ==>
      o == Appended(ctx.error.value.message, ctx.error.value.errorType, ctx.result)
  {
    AppendOrReturn(ctx)
  }

  /** Only the `id` argument reaches the request. */
  lemma RequestDependsOnlyOnId(c1: Context, c2: Context)
    ensures Request(c1) == Request(c2) <==> Arg(c1, "id") == Arg(c2, "id")
  {
    if Request(c1) == Request(c2) {
      assert Request(c1).key["id"] == Request(c2).key["id"];
    }
  }

  /** A missing item is not an error: the field resolves to that absent value. */
  lemma AbsentIsNotError(ctx: Context)
    requires ctx.error.None? && Nullish(ctx.result)
    ensures Response(ctx) == Returned(ctx.result)
  {
  }
}
