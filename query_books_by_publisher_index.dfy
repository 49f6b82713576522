/** The `queryBooksByPublisherIndex` query: a Query on the `publisher-index` GSI. */
module QueryBooksByPublisherIndex {
  import opened Js
  import opened AppSync
  import opened Requests

  const PublisherIndex := "publisher-index"
  const NamePlaceholder := "#key"
  const ValuePlaceholder := ":key"
  /** The template literal `#key = :key`. */
  const KeyExpression := NamePlaceholder + " = " + ValuePlaceholder

  /**
   The helper `dynamodbGetItemRequest(key, value, index, limit, nextToken)`,
   which despite its name builds a Query: the equality `#key = :key` with
   `#key` bound to the attribute name and `:key` to the value, read forward
   and returning all attributes.
   */
  function QueryRequest(key: string, value: Value, index: string, limit: Value, nextToken: Value): (op: Operation)
    ensures op.Query? && op.index == index && op.limit == limit && op.nextToken == nextToken
    ensures op.query.expression == KeyExpression
    ensures op.query.names == map[NamePlaceholder := key] && op.query.values == map[ValuePlaceholder := value]
    ensures op.scanIndexForward && op.select == "ALL_ATTRIBUTES"
  {
    Query(KeyCondition(KeyExpression, map[NamePlaceholder := key], map[ValuePlaceholder := value]),
          index, limit, nextToken, true, "ALL_ATTRIBUTES")
  }

  /**
   `const { publisherId, first = 20, after } = ctx.args`: the page size falls
   back to 20 only when `first` is undefined, and `after` is passed on as the
   cursor untouched.
   */
  function Request(ctx: Context): (op: Operation)
    ensures op.Query? && op.index == PublisherIndex && op.query.expression == KeyExpression
    ensures op.query.names == map[NamePlaceholder := "publisherId"]
    ensures op.query.values == map[ValuePlaceholder := Arg(ctx, "publisherId")]
    ensures Arg(ctx, "first") == Undefined ==> op.limit == Num(20)
    ensures Arg(ctx, "first") != Undefined ==> op.limit == Arg(ctx, "first")
    ensures op.nextToken == Arg(ctx, "after")
    ensures op.scanIndexForward && op.select == "ALL_ATTRIBUTES"
  {
    QueryRequest("publisherId", Arg(ctx, "publisherId"), PublisherIndex,
                 WithDefault(Arg(ctx, "first"), Num(20)), Arg(ctx, "after"))
  }

  /** The query page is returned as is on success; an error is appended with it. */
  function Response(ctx: Context): (o: Outcome)
    ensures !o.Aborted?
    ensures ctx.error.None? ==> o == Returned(ctx.result)
    ensures ctx.error.Some? ==>
      o == Appended(ctx.error.value.message, ctx.error.value.errorType, ctx.result)
  {
    AppendOrReturn(ctx)
  }

  /** `#key = :key` uses exactly the name placeholder `#key` and the value placeholder `:key`. */
  lemma KeyExpressionPlaceholders()
    ensures Placeholders(KeyExpression, '#') == {NamePlaceholder}
    ensures Placeholders(KeyExpression, ':') == {ValuePlaceholder}
  {
    var key, tail := "key", " = " + ValuePlaceholder;
    assert ['#'] + key == NamePlaceholder && [':'] + key == ValuePlaceholder;
    // `#key`, then text without `#`
    assert KeyExpression == ['#'] + key + tail;
    PlaceholdersTake('#', key, tail);
    PlaceholdersSkipPrefix(tail, "", '#');
    assert tail + "" == tail;
    // text without `:`, then `:key`
    assert KeyExpression == (NamePlaceholder + " = ") + ([':'] + key + "");
    PlaceholdersSkipPrefix(NamePlaceholder + " = ", [':'] + key + "", ':');
    PlaceholdersTake(':', key, "");
  }

  /** The key condition binds every placeholder it uses and uses every binding. */
  lemma RequestKeyConditionWellFormed(ctx: Context)
    ensures WellFormed(Request(ctx).query)
  {
    KeyExpressionPlaceholders();
  }
}
