/** The `createBook` mutation: a PutItem that must not overwrite an existing book. */
module MutationCreateBook {
  import opened Js
  import opened AppSync
  import opened Requests

  /** `{ and: [{ id: { attributeExists: false } }] }`: no item with this id exists yet. */
  const IdNotExists: Predicate := And([AttributeExists("id", false)])

  /** `input.id`, or `None` when reading it throws. */
  function InputId(ctx: Context): (r: Option<Value>)
    ensures r.None? <==> Nullish(Arg(ctx, "input"))
  {
    Read(Arg(ctx, "input"), "id")
  }

  /**
   `put({ key: { id: input.id ?? util.autoId() }, item: input, condition })`.
   `autoId` stands for the identifier `util.autoId()` would generate; it is
   used only when `input.id` is null or undefined. Reading `input.id` throws
   when `input` itself is null or undefined.
   */
  function Request(ctx: Context, autoId: string): (r: Built)
    ensures r.Threw? <==> Nullish(Arg(ctx, "input"))
    ensures r.Threw? ==> r.fault == TypeError("id")
    ensures r.Ok? ==> r.op.PutItem? && r.op.key.Keys == {"id"} && !Nullish(r.op.key["id"])
    ensures r.Ok? ==> r.op.item == Arg(ctx, "input") && r.op.condition == Some(IdNotExists)
    ensures r.Ok? && !Nullish(InputId(ctx).value) ==> r.op.key["id"] == InputId(ctx).value
    ensures r.Ok? && Nullish(InputId(ctx).value) ==> r.op.key["id"] == Str(autoId)
  {
    var values := Arg(ctx, "input");
    match InputId(ctx)
    case None => Threw(TypeError("id"))
    case Some(id) => Ok(PutItem(map["id" := Coalesce(id, Str(autoId))], values, Some(IdNotExists)))
  }

  /**
   The written item is returned on success; any error, a failed
   `attributeExists` condition included, is appended rather than thrown.
   */
  function Response(ctx: Context): (o: Outcome)
    ensures !o.Aborted?
    ensures ctx.error.None? ==> o == Returned(ctx.result)
    ensures ctx.error.Some? ==>
      o == Appended(ctx.error.value.message, ctx.error.value.errorType, ctx.result)
  {
    AppendOrReturn(ctx)
  }

  /**
   The generated identifier is consulted exactly when `input.id` is null or
   undefined: only then do two different identifiers give two different requests.
   */
  lemma AutoIdUsedIffIdNullish(ctx: Context)
    requires !Nullish(Arg(ctx, "input"))
    ensures (exists g1, g2 :: Request(ctx, g1) != Request(ctx, g2)) <==> Nullish(InputId(ctx).value)
  {
    if Nullish(InputId(ctx).value) {
      assert Request(ctx, "a").op.key["id"] != Request(ctx, "b").op.key["id"];
    }
  }
}
