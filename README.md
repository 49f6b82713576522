# Books API resolvers

A Dafny model of the AppSync JavaScript resolvers of the Books API. Each
resolver file exports a `request(ctx)` handler, which turns the field's
arguments into an operation for its data source (a DynamoDB table or, for the
authorization function, a Lambda), and a `response(ctx)` handler, which turns
the data source's `{ error, result }` into the field's outcome.

The model has one module per resolver file and three shared ones:

- `Js` (js.dfy): JavaScript values, keeping `undefined` apart from `null`;
  truthiness; `??` (`Coalesce`), a destructuring default (`WithDefault`), and
  property reads, which throw on `null`/`undefined` (`Read` gives `None`).
- `AppSync` (appsync.dfy): the context (`args`, `result`, `error`), and the
  outcome of a response handler: `Returned(v)`, `Appended(message, type, data)`
  for `util.appendError` (recorded, evaluation goes on), `Aborted(fault)` for
  `util.error`, `util.unauthorized` or a JavaScript TypeError.
- `Requests` (requests.dfy): the operation descriptors (`GetItem`, `PutItem`,
  `DeleteItem`, `Query`, `Scan`, `Invoke`), the condition and filter objects,
  and the placeholders (`#name`, `:name`) of a key-condition expression.
- `QueryGetBook`, `MutationCreateBook`, `MutationDeleteBook`,
  `QueryBooksByPublisherIndex`, `QueryListBooksByGenre`, `CustomAuthFunction`:
  each file's `Request` and `Response`; `CrossResolver` relates them.

All handlers are pure functions. `util.autoId()` is a parameter of the create
request.

Some behaviour of the code is easy to misread, and the model keeps it as written:

- The index query's response returns the store result as is; it is not
  reshaped into `{ items, nextCursor }`.
- The page size falls back to 20 only when `first` (or `limit`) is
  `undefined`. A `null` is passed on, since a destructuring default ignores
  `null`.
- The create key is `input.id ?? autoId`. An empty-string id is kept, because
  `??` replaces only `null` and `undefined`.
- A handler that reads a property of a `null` or `undefined` value throws a
  TypeError. The model makes this explicit. It happens in four places: the
  create and delete requests when `input` is missing, the genre scan's
  response on a missing result, and the authorization response on a missing
  result. In the last case the field is aborted by the TypeError, not by
  `util.unauthorized`.

## Model

| member | source | states |
|---|---|---|
| `Js.Nullish` | appsync/resolvers/booksApi/js/mutationCreateBook.js:11 | true exactly for `undefined` and `null`, the values `??` replaces and a property read throws on |
| `Js.Truthy` | appsync/resolvers/booksApi/js/customAuthFunction.js:18 | false exactly for `undefined`, `null`, `false`, `0` and `''`, so `allow: 0` or `allow: ""` is a denial |
| `Js.Coalesce` | appsync/resolvers/booksApi/js/mutationCreateBook.js:11 | `a ?? b` is `a` unless `a` is null or undefined, then `b`; the result is never nullish when `b` is not |
| `Js.WithDefault` | appsync/resolvers/booksApi/js/queryBooksByPublisherIndex.js:13 | a destructuring default replaces only `undefined` |
| `Js.Own` | appsync/resolvers/booksApi/js/queryGetBook.js:10 | a missing property reads as `undefined`, a present one as its value |
| `Js.Read` | appsync/resolvers/booksApi/js/mutationDeleteBook.js:10 | a property read throws exactly when the object is null or undefined; otherwise it gives the own property or `undefined` |
| `Js.CoalesceAndDefaultDifferOnlyOnNull` | appsync/resolvers/booksApi/js/queryListBooksByGenre.js:14 | `??` and a destructuring default disagree exactly on `null` |
| `AppSync.Arg` | appsync/resolvers/booksApi/js/queryGetBook.js:10 | a field argument is its supplied value, or `undefined` when absent |
| `AppSync.AppendError` | appsync/resolvers/booksApi/js/queryGetBook.js:25 | `util.appendError` records the error's message, type and the partial result, and does not abort |
| `AppSync.AppendOrReturn` | appsync/resolvers/booksApi/js/queryBooksByPublisherIndex.js:23-27 | the data resolvers' rule: never aborts; returns the result iff there is no error, else appends `(message, type, result)` |
| `Requests.Placeholders` | appsync/resolvers/booksApi/js/queryBooksByPublisherIndex.js:40 | the store's reading of an expression such as the one at line 40: the placeholders it uses for one sigil, each starting with that sigil, and none when the sigil does not occur |
| `QueryGetBook.Request` | appsync/resolvers/booksApi/js/queryGetBook.js:9-15 | a GetItem whose key has only `id`, equal to `args.id` |
| `QueryGetBook.Response` | appsync/resolvers/booksApi/js/queryGetBook.js:22-28 | without an error the result is returned unchanged; with one, `(message, type, result)` is appended |
| `QueryGetBook.RequestDependsOnlyOnId` | appsync/resolvers/booksApi/js/queryGetBook.js:10-11 | two contexts give the same request iff their `id` arguments are equal |
| `QueryGetBook.AbsentIsNotError` | appsync/resolvers/booksApi/js/queryGetBook.js:23-27 | an absent or null item with no error is returned as exactly that value (`undefined` stays `undefined`, `null` stays `null`), not as an error |
| `MutationCreateBook.InputId` | appsync/resolvers/booksApi/js/mutationCreateBook.js:10-11 | reading `input.id` throws iff `input` is null or undefined |
| `MutationCreateBook.Request` | appsync/resolvers/booksApi/js/mutationCreateBook.js:9-19 | a PutItem keyed on `id` alone, whose id is `input.id` when that is not nullish and the generated id otherwise, so never nullish; the item is `input` verbatim; the condition is `and[id attributeExists false]`; throws iff `input` is nullish |
| `MutationCreateBook.Response` | appsync/resolvers/booksApi/js/mutationCreateBook.js:26-32 | never aborts: the written item on success, `(message, type, result)` appended on any error, a failed condition included |
| `MutationCreateBook.AutoIdUsedIffIdNullish` | appsync/resolvers/booksApi/js/mutationCreateBook.js:11 | the generated id influences the request iff `input.id` is null or undefined |
| `MutationDeleteBook.Request` | appsync/resolvers/booksApi/js/mutationDeleteBook.js:9-15 | an unconditional DeleteItem whose key has only `id`, equal to `input.id`; throws iff `input` is nullish |
| `MutationDeleteBook.Response` | appsync/resolvers/booksApi/js/mutationDeleteBook.js:22-28 | never aborts: the deleted item on success, `(message, type, result)` appended on error |
| `MutationDeleteBook.OnlyInputIdMatters` | appsync/resolvers/booksApi/js/mutationDeleteBook.js:10-11 | two requests are equal iff their `input.id` are equal: no other field has influence |
| `QueryBooksByPublisherIndex.QueryRequest` | appsync/resolvers/booksApi/js/queryBooksByPublisherIndex.js:39-53 | the helper builds a Query (despite its name) with expression `#key = :key`, `#key` bound to the key name and `:key` to the value, the given index, limit and cursor, read forward, all attributes |
| `QueryBooksByPublisherIndex.Request` | appsync/resolvers/booksApi/js/queryBooksByPublisherIndex.js:12-16 | a Query on `publisher-index` with the equality expression `#key = :key`, i.e. `publisherId = args.publisherId`; limit 20 iff `first` is undefined, else `first`; cursor `args.after` verbatim; forward; `ALL_ATTRIBUTES` |
| `QueryBooksByPublisherIndex.Response` | appsync/resolvers/booksApi/js/queryBooksByPublisherIndex.js:22-28 | never aborts: the page as is on success, `(message, type, result)` appended on error |
| `QueryBooksByPublisherIndex.KeyExpressionPlaceholders` | appsync/resolvers/booksApi/js/queryBooksByPublisherIndex.js:40 | `#key = :key` uses exactly the name placeholder `#key` and the value placeholder `:key` |
| `QueryBooksByPublisherIndex.RequestKeyConditionWellFormed` | appsync/resolvers/booksApi/js/queryBooksByPublisherIndex.js:40-42 | the expression's placeholders are exactly the bound names and values, so none is unbound or unused |
| `QueryListBooksByGenre.GenreFilter` | appsync/resolvers/booksApi/js/queryListBooksByGenre.js:15 | the filter is `genres contains genre` |
| `QueryListBooksByGenre.Request` | appsync/resolvers/booksApi/js/queryListBooksByGenre.js:13-17 | a Scan filtered by `genres contains args.genre`; limit 20 iff `limit` is undefined, else `limit`; cursor `args.nextToken` verbatim |
| `QueryListBooksByGenre.Response` | appsync/resolvers/booksApi/js/queryListBooksByGenre.js:23-30 | on error, `(message, type, result)` appended with no normalisation; otherwise exactly `{ items, nextToken }`, `items` defaulting to `[]`, other fields dropped; a nullish result throws |
| `QueryListBooksByGenre.CursorRoundTrip` | appsync/resolvers/booksApi/js/queryListBooksByGenre.js:14-16 | a page's `nextToken` passed back as the argument reaches the next scan unchanged |
| `CustomAuthFunction.Request` | appsync/resolvers/booksApi/js/customAuthFunction.js:3-10 | an Invoke whose payload is `{ variables: ctx.arguments }` and nothing else |
| `CustomAuthFunction.Response` | appsync/resolvers/booksApi/js/customAuthFunction.js:12-23 | never appends; an error aborts with `util.error(message, type, result)` before `allow` is read; unauthorized iff no error and `allow` is falsy; `{}` iff no error and `allow` is truthy; a nullish result throws |
| `CustomAuthFunction.RequestForwardsArguments` | appsync/resolvers/booksApi/js/customAuthFunction.js:7 | two requests are equal iff the arguments are equal |
| `CustomAuthFunction.PassesOnlyWhenAllowed` | appsync/resolvers/booksApi/js/customAuthFunction.js:14-22 | the field goes on only after a successful call whose result has a truthy `allow` |
| `CrossResolver.ErrorPolicyContrast` | appsync/resolvers/booksApi/js/customAuthFunction.js:14-16 | on the same error the authorization function aborts while each data resolver appends the same `(message, type, result)` |
| `CrossResolver.CreatedKeyIsReadAndDeletedKey` | appsync/resolvers/booksApi/js/mutationCreateBook.js:11-17 | the key a create writes is the key `getBook(id)` reads and `deleteBook({ id })` removes |

## Left out

- `util.dynamodb.toMapValues` and the attribute-value encoding that `get`,
  `put`, `remove` and `scan` apply: descriptors hold the JavaScript values
  themselves.
- `util.autoId()` randomness: the generated id is a parameter of
  `MutationCreateBook.Request`.
- The pipeline engine, the stash and `ctx.prev.result`: sequencing of
  functions is done by the AppSync runtime, not by code in this repository.
  Each handler's outcome is modelled, not a step runner.
- DynamoDB itself: enforcing conditions, pagination, ordering and secondary
  indexes happen in the store. The store's `{ error, result }` is an input to
  each `Response`.
- The CDK stacks (lib/anycompany_reads-backend-stack.ts,
  lib/anycompany_reads-frontend-stack.ts), the CDK entry point
  (bin/anycompany_reads-application.ts) and the Amplify deployment Lambda
  (lambda/amplify_deployment/index.mjs): provisioning, configuration and
  network I/O. The resolver files the backend stack also wires
  (mutationUpdateBook.js, queryListBooks.js, queryBooksByAuthorIndex.js) are
  not part of this model.
- Numbers are integers: floating point and NaN (falsy in JavaScript) are not
  modelled.
- Built-in properties of strings and arrays (such as `length`) are not
  modelled. No handler reads one, so a property read on such a value gives
  `undefined`.
- The field value that `return util.appendError(...)` produces: appendError
  returns `undefined`, and `Appended` keeps only the error it records.
