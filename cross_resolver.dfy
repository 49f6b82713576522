/** Properties relating the resolvers to one another. */
module CrossResolver {
  import opened Js
  import opened AppSync
  import opened Requests
  import QueryGetBook
  import MutationCreateBook
  import MutationDeleteBook
  import QueryBooksByPublisherIndex
  import QueryListBooksByGenre
  import CustomAuthFunction

  /**
   Given the same failed effect, the authorization function aborts with the
   error while every data resolver records the same message, type and partial
   result and carries on.
   */
  lemma ErrorPolicyContrast(ctx: Context)
    requires ctx.error.Some?
    ensures var e := ctx.error.value;
      && CustomAuthFunction.Response(ctx) == Aborted(Error(e.message, e.errorType, ctx.result))
      && QueryGetBook.Response(ctx) == Appended(e.message, e.errorType, ctx.result)
      && MutationCreateBook.Response(ctx) == Appended(e.message, e.errorType, ctx.result)
      && MutationDeleteBook.Response(ctx) == Appended(e.message, e.errorType, ctx.result)
      && QueryBooksByPublisherIndex.Response(ctx) == Appended(e.message, e.errorType, ctx.result)
      && QueryListBooksByGenre.Response(ctx) == Appended(e.message, e.errorType, ctx.result)
  {
  }

  /**
   The key a create writes is the key that `getBook(id)` reads and that
   `deleteBook({ id })` removes, for the id the book ends up with.
   */
  lemma CreatedKeyIsReadAndDeletedKey(ctx: Context, autoId: string)
    requires MutationCreateBook.Request(ctx, autoId).Ok?
    ensures var key := MutationCreateBook.Request(ctx, autoId).op.key;
      && QueryGetBook.Request(Context(map["id" := key["id"]], Undefined, None)) == GetItem(key)
      && MutationDeleteBook.Request(Context(map["input" := Obj(map["id" := key["id"]])], Undefined, None))
         == Ok(DeleteItem(key, None))
  {
    var key := MutationCreateBook.Request(ctx, autoId).op.key;
    assert key == map["id" := key["id"]];
  }
}
