# Collection-mutation engine of the farm-store REST API

The server keeps its data in one JSON document served by json-server and adds
its own handlers for two collections, `productos` (key `id_producto`) and
`usuarios` (key `id_usuario`). This project models those handlers:

- **create** (`POST /productos`, `POST /usuarios`): check the required fields,
  take the key one above the key of the last record ("1" for an empty
  collection), build a record from that key and exactly the required fields,
  push it, and return it;
- **update** (`PUT /productos/:id`, `PUT /usuarios/:id`): check the required
  fields first, then find the first record whose key is the string `id`
  (not found otherwise), spread the old record and overwrite the required
  fields, and splice the result into the same position;
- **bulk delete** (`POST /productos/eliminar`): reject a body whose `ids` is
  not an array, otherwise keep exactly the products whose key is not in `ids`.

Products require truthy `nombre` and `categoria` and a `stock` that is not
null or undefined, so a stock of `0` is accepted. Users require all eight of
`nombre`, `apellido`, `email`, `telefono`, `direccion`, `tipo_usuario`,
`username` and `password` to be truthy.

Layout:

- `json.dfy` (module `Json`): request-body values, JavaScript truthiness and
  `== null`.
- `decimal.dfy` (module `Decimal`): `parseInt` on digit strings and
  `toString` on naturals, with both round trips.
- `engine.dfy` (module `Engine`): the engine, parameterised by a `Resource`
  (key field and required-field rules). It holds validation, next key, lookup,
  merge and filter, plus `CreateStep`, `UpdateStep` and `DeleteStep`, which
  give the collection after a request and the reported outcome.
- `keys.dfy` (module `KeyOrder`): the handlers' comments promise unique keys.
  When keys increase along the collection, every operation keeps them
  increasing, so a new key never collides.
- `resources.dfy` (module `Resources`): the product and user configurations,
  their exact validation tests, and worked scenarios.
- `handlers.dfy` (module `Handlers`): class `Collection` holds a record list
  that its methods push onto, splice or replace. Class `Store` holds the two
  collections and has one method per route. Each method is proved to leave
  exactly the state and outcome its step function gives.

Three behaviours of `index.js` that a reader of a REST API might not expect:

- an update overwrites only the required fields, not every field the payload
  carries;
- a create copies only the required fields into the new record, not the
  whole payload;
- an update validates the payload before looking up the id, so an invalid
  payload for an unknown id reports a validation error, not not-found.

## Model

| member | source | states |
|---|---|---|
| Json.FalsyButPresent | index.js:34 | a value passes `== null` but fails `!x` exactly when it is `false`, `0` or `""`; this is why stock `0` is accepted |
| Decimal.NatToDecimal | index.js:43 | `toString` of a natural is a canonical numeral (digits, no leading zero), starting with `0` only for zero |
| Decimal.ParseFormat | index.js:43 | parsing the numeral of `n` gives back `n` |
| Decimal.FormatParse | index.js:43 | formatting the value of a canonical numeral gives back the same string |
| Decimal.NatToDecimalInjective | index.js:43 | distinct numbers get distinct numerals |
| Engine.Validates | index.js:34 | a payload passes iff every required field passes its own test (truthy, or not null/undefined) |
| Engine.MissingFieldRejected | index.js:100 | a payload missing any required field, or sending it as null, is rejected |
| Engine.NextId | index.js:43 | the new key is a canonical numeral: "1" on an empty collection, else one more than the LAST record's key |
| Engine.FindIndex | index.js:73 | returns the first position whose key is strictly the string `id`; none exactly when no record has that key |
| Engine.NewRecord | index.js:45-50 | a created record has exactly the key field and the required fields; its key is the new id and each field holds the payload's value |
| Engine.Merge | index.js:79-84 | the merged record keeps every old property, adds the required fields, and takes the payload's value for exactly those |
| Engine.MergeKeepsKey | index.js:149-159 | an update never changes the record's key, whatever the payload carries |
| Engine.MergeIgnoresOtherFields | index.js:62 | payload properties other than the required fields have no effect on an update |
| Engine.MergeIdempotent | index.js:79-84 | applying the same update twice equals applying it once |
| Engine.NewRecordIsMerge | index.js:110-120 | a created record equals the merge of the payload into a record that holds only the new key |
| Engine.Remaining | index.js:23 | the filter keeps a record iff it was in the collection and its key is not in `ids`, and never grows the list |
| Engine.RemainingAppend | index.js:23 | the filter distributes over concatenation, so survivors keep their relative order |
| Engine.RemainingNoMatch | index.js:23 | ids that match no record remove nothing: the collection is returned unchanged |
| Engine.RemainingNoIds | index.js:23 | `ids = []` is a no-op |
| Engine.RemainingIdempotent | index.js:23 | deleting the same ids again removes nothing more |
| Engine.RemainingBySet | index.js:23 | only membership in `ids` matters, not their order or repetitions |
| Engine.CreateStep | index.js:30-57 | invalid payload: error and collection unchanged; otherwise exactly one record appended after the unchanged old ones, built from the next key, and returned; keys stay digit strings |
| Engine.UpdateStep | index.js:60-93 | invalid payload: error, unchanged; no matching key: not found, unchanged; otherwise only the first matching position is replaced by its merge, which is returned; length and every key are preserved |
| Engine.DeleteStep | index.js:13-27 | `ids` not an array: error and collection unchanged; otherwise acknowledged and the collection becomes the filtered list |
| KeyOrder.IncreasingUnique | index.js:107-108 | increasing keys are pairwise distinct |
| KeyOrder.NextIdFresh | index.js:42-43 | on an increasing collection the next key exceeds every key, so no record has it |
| KeyOrder.CreateKeepsIncreasing | index.js:42-56 | a create keeps keys increasing, and the created key differs from every earlier record's key |
| KeyOrder.UpdateKeepsIncreasing | index.js:79-89 | an update keeps keys increasing |
| KeyOrder.RemainingKeepsIncreasing | index.js:23 | filtering keeps the survivors' keys increasing |
| KeyOrder.DeleteKeepsIncreasing | index.js:13-27 | a bulk delete keeps keys increasing |
| Resources.ResourcesWellFormed | index.js:45-50 | neither resource lists its key among its required fields; the product fields are nombre, categoria, stock |
| Resources.ProductValidation | index.js:34-36 | a product payload passes iff nombre and categoria are truthy and stock is not null or undefined |
| Resources.UserValidation | index.js:100-102 | a user payload passes iff all eight fields are truthy |
| Resources.CreateThenDeleteScenario | index.js:13-57 | creating Tornillo with stock 0 in an empty collection yields key "1"; deleting ids ["1"] then empties the collection |
| Resources.NextIdScenario | index.js:43 | after keys "1" and "2" the next key is "3" |
| Resources.NotFoundScenario | index.js:73-76 | updating "99" among keys "1" to "3" reports not found and changes nothing |
| Resources.NumericIdsDeleteNothing | index.js:23 | the number 1 in `ids` does not delete the record with key "1" (strict comparison) |
| Resources.DeletedKeyReused | index.js:23-43 | after deleting the last record, the next create hands out its key again |
| Resources.PositionalKeyCollides | index.js:43 | were keys out of order, the next key could equal an existing key |
| Handlers.Collection.Create | index.js:30-57 | pushes onto the record list exactly as `CreateStep` says and keeps increasing keys increasing |
| Handlers.Collection.Update | index.js:60-93 | splices the record list exactly as `UpdateStep` says and keeps increasing keys increasing |
| Handlers.Collection.BulkDelete | index.js:13-27 | replaces the record list exactly as `DeleteStep` says and keeps increasing keys increasing |
| Handlers.Store.DeleteProducts | index.js:13-27 | bulk delete on products only; users untouched |
| Handlers.Store.CreateProduct | index.js:30-57 | product create; users untouched |
| Handlers.Store.UpdateProduct | index.js:60-93 | product update; users untouched |
| Handlers.Store.CreateUser | index.js:96-127 | user create; products untouched |
| Handlers.Store.UpdateUser | index.js:130-168 | user update; products untouched |

## Left out

- json-server itself: creating the server, its default middlewares, the body parser and the generic router with its own GET, DELETE-by-id and POST routes. This is third-party code.
- `server.listen` and the `PORT` environment lookup, which are I/O.
- The `.write()` calls that save the document to disk. Here, saving is the collection field taking its new value.
- HTTP status codes and JSON message strings. Outcomes are the `Outcome` datatype.
- Interleaving of concurrent requests. Each handler runs as one uninterrupted step.
- Engine.NextId: requires the last record's key to be a string of digits. Full `parseInt` (whitespace, sign, trailing junk, `NaN` giving the key "NaN") is not modelled. The store keeps every key a digit string (`Collection.Valid`), and the handlers preserve that.
- Engine.CreateStep: requires every key of the collection to be a string of digits (the store invariant above), although the source parses only the last key.
- JavaScript numbers are modelled as unbounded integers. Fractions, `NaN`, rounding above 2^53 and the exponent form of `toString` from 1e21 up are not modelled.
- `includes` compares arrays and objects by reference in JavaScript but structurally here. Keys are strings, so the filter's result is the same.
- The property order of a created or updated JSON object is not modelled, because records are maps.
