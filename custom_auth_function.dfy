/**
 The authorization function: it hands the field's arguments to a Lambda and,
 unlike the data resolvers, aborts the field when the call failed or denied.
 */
module CustomAuthFunction {
  import opened Js
  import opened AppSync
  import opened Requests

  /** `{ operation: "Invoke", payload: { variables: ctx.arguments } }` */
  function Request(ctx: Context): (op: Operation)
    ensures op.Invoke? && op.payload.Obj? && op.payload.fields.Keys == {"variables"}
    ensures op.payload.fields["variables"] == Obj(ctx.args)
  {
    Invoke(Obj(map["variables" := Obj(ctx.args)]))
  }

  /**
   An error from the Lambda aborts with `util.error` before `allow` is looked
   at; otherwise a falsy `allow` aborts as unauthorized, and a truthy one lets
   the field go on with `{}`. Reading `allow` from a null or undefined result
   throws.
   */
  function Response(ctx: Context): (o: Outcome)
    ensures !o.Appended?
    ensures ctx.error.Some? ==>
      o == Aborted(Error(ctx.error.value.message, ctx.error.value.errorType, ctx.result))
    ensures ctx.error.None? && Nullish(ctx.result) ==> o == Aborted(TypeError("allow"))
    ensures o == Aborted(Unauthorized) <==>
      ctx.error.None? && !Nullish(ctx.result) && !Truthy(Read(ctx.result, "allow").value)
    ensures o.Returned? <==>
      ctx.error.None? && !Nullish(ctx.result) && Truthy(Read(ctx.result, "allow").value)
    ensures o.Returned? ==> o.value == Obj(map[])
  {
    if ctx.error.Some? then
      Aborted(Error(ctx.error.value.message, ctx.error.value.errorType, ctx.result))
    else match Read(ctx.result, "allow")
      case None => Aborted(TypeError("allow"))
      case Some(allow) => if !Truthy(allow) then Aborted(Unauthorized) else Returned(Obj(map[]))
  }

  /** The Lambda sees exactly the field's arguments: distinct arguments give distinct requests. */
  lemma RequestForwardsArguments(c1: Context, c2: Context)
    ensures Request(c1) == Request(c2) <==> c1.args == c2.args
  {
    if Request(c1) == Request(c2) {
      assert Request(c1).payload.fields["variables"] == Request(c2).payload.fields["variables"];
    }
  }

  /** Only an explicit, truthy `allow` from a successful call lets the field go on. */
  lemma PassesOnlyWhenAllowed(ctx: Context)
    requires !Response(ctx).Aborted?
    ensures ctx.error.None? && ctx.result.Obj? && "allow" in ctx.result.fields
    ensures Truthy(ctx.result.fields["allow"])
  {
  }
}
