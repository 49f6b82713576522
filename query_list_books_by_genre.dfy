/** The `listBooksByGenre` query: a Scan filtered on the `genres` attribute. */
module QueryListBooksByGenre {
  import opened Js
  import opened AppSync
  import opened Requests

  /** `{ genres: { contains: genre } }` */
  function GenreFilter(genre: Value): (p: Predicate)
    ensures p.Contains? && p.attribute == "genres" && p.operand == genre
  {
    Contains("genres", genre)
  }

  /**
   `const { genre, limit = 20, nextToken } = ctx.args` then
   `scan({ limit, filter, nextToken })`: the page size falls back to 20 only
   when `limit` is undefined, and the cursor is passed on untouched.
   */
  function Request(ctx: Context): (op: Operation)
    ensures op.Scan? && op.filter == Some(GenreFilter(Arg(ctx, "genre")))
    ensures Arg(ctx, "limit") == Undefined ==> op.limit == Num(20)
    ensures Arg(ctx, "limit") != Undefined ==> op.limit == Arg(ctx, "limit")
    ensures op.nextToken == Arg(ctx, "nextToken")
  {
    Scan(WithDefault(Arg(ctx, "limit"), Num(20)), Some(GenreFilter(Arg(ctx, "genre"))), Arg(ctx, "nextToken"))
  }

  /**
   On an error the error is appended with the raw result and nothing is
   normalised. Otherwise the page becomes `{ items, nextToken }`: `items` is
   `[]` when the result has none, every other field of the result is dropped,
   and destructuring a null or undefined result throws.
   */
  function Response(ctx: Context): (o: Outcome)
    ensures ctx.error.Some? ==>
      o == Appended(ctx.error.value.message, ctx.error.value.errorType, ctx.result)
    ensures ctx.error.None? && Nullish(ctx.result) ==> o == Aborted(TypeError("items"))
    ensures ctx.error.None? && !Nullish(ctx.result) ==>
      o.Returned? && o.value.Obj? && o.value.fields.Keys == {"items", "nextToken"}
    ensures ctx.error.None? && !Nullish(ctx.result) ==>
      var items := Read(ctx.result, "items").value;
      o.value.fields["items"] == (if items == Undefined then Arr([]) else items)
    ensures ctx.error.None? && !Nullish(ctx.result) ==>
      o.value.fields["nextToken"] == Read(ctx.result, "nextToken").value
  {
    if ctx.error.Some? then AppendError(ctx.error.value, ctx.result)
    else match Read(ctx.result, "items")
      case None => Aborted(TypeError("items"))
      case Some(items) =>
        var nextToken := Read(ctx.result, "nextToken").value;
        Returned(Obj(map["items" := WithDefault(items, Arr([])), "nextToken" := nextToken]))
  }

  /**
   The cursor of a returned page, passed back as the `nextToken` argument,
   reaches the next scan unchanged, whatever the other arguments are.
   */
  lemma CursorRoundTrip(page: Context, args: map<string, Value>)
    requires page.error.None? && !Nullish(page.result)
    ensures var next := Context(args["nextToken" := Response(page).value.fields["nextToken"]], Undefined, None);
      Request(next).nextToken == Read(page.result, "nextToken").value
  {
  }
}
