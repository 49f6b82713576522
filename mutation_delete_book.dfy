/** The `deleteBook` mutation: an unconditional DeleteItem by `input.id`. */
module MutationDeleteBook {
  import opened Js
  import opened AppSync
  import opened Requests

  /**
   `remove({ key: { id } })` with `id` destructured from `input`, which throws
   when `input` is null or undefined. No condition is attached.
   */
  function Request(ctx: Context): (r: Built)
    ensures r.Threw? <==> Nullish(Arg(ctx, "input"))
    ensures r.Threw? ==> r.fault == TypeError("id")
    ensures r.Ok? ==> r.op.DeleteItem? && r.op.condition.None?
    ensures r.Ok? ==> r.op.key.Keys == {"id"} && Some(r.op.key["id"]) == Read(Arg(ctx, "input"), "id")
  {
    match Read(Arg(ctx, "input"), "id")
    case None => Threw(TypeError("id"))
    case Some(id) => Ok(DeleteItem(map["id" := id], None))
  }

  /** The deleted item is returned on success; an error is appended with it. */
  function Response(ctx: Context): (o: Outcome)
    ensures !o.Aborted?
    ensures ctx.error.None? ==> o == Returned(ctx.result)
    ensures ctx.error.Some? ==>
      o == Appended(ctx.error.value.message, ctx.error.value.errorType, ctx.result)
  {
    AppendOrReturn(ctx)
  }

  /** Fields of `input` other than `id`, and the other arguments, do not reach the request. */
  lemma OnlyInputIdMatters(c1: Context, c2: Context)
    requires Arg(c1, "input").Obj? && Arg(c2, "input").Obj?
    ensures Request(c1) == Request(c2) <==>
      Own(Arg(c1, "input").fields, "id") == Own(Arg(c2, "input").fields, "id")
  {
    if Request(c1) == Request(c2) {
      assert Request(c1).op.key["id"] == Request(c2).op.key["id"];
    }
  }
}
