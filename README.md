# fh.db over MongoDB, modelled in Dafny

This project models the compatibility layer in `index.js`, which lets code written for the
legacy fh.db API run against MongoDB. A caller hands `db` an action descriptor: a loosely
typed object naming an `act` (create, read, list, update, delete, deleteall or index), a
collection `type`, and parameters such as `guid`, `fields`, operator groups, `skip`, `limit`,
`sort` and `index`. The layer does the following:

- validates the descriptor and picks the handler;
- turns the descriptor into a MongoDB filter, options or documents;
- issues one driver call;
- normalises what the store returns into the fh.db envelope `{type, guid, fields}`.

The model is organised by the layer's own parts:

- `js_values.dfy` (`JsValues`): the JavaScript values the layer handles.
  - An object is an ordered sequence of own properties, because `for..in` order is observable.
  - `Assign` is a property write, `Lookup`/`Get`/`At` are property reads, and `Entries` is `for..in` enumeration.
  - Also defined: truthiness, `typeof`, `String(v)`, `toUpperCase`, a string's `length` in UTF-16 code units, and `Count`, the number a value stands for when a loop counter or `70` is compared with it.
- `object_ids.dfy` (`ObjectIds`): `createObjectIdFromHexString`, the identifier codec. A `guid` that parses as 24 hex digits becomes an ObjectId; anything else passes through unchanged.
- `query_builder.dfy` (`QueryBuilder`): `critOps` and `buildQuery`.
  - These are the loops that merge the operator groups `eq`, `ne`, `lt`, `le`, `gt`, `ge`, `like`, `in` and `geo` into one filter, field by field.
  - The three group loops (`CritEq`, `BuildQuery`, `CritGeo`) are methods proved equal to a pure specification (`ApplyFields` over `ApplyEntries`), and the properties are proved of that specification.
  - The loop of `list` over `critOps` is the method `Actions.ListFilter`, in `actions.dfy`, proved equal to `BuildFilter` (`ApplyOps` over the groups in order).
- `envelope.dfy` (`Envelopes`): `generateReturn`, the response normaliser, as a loop method proved equal to `Envelope`, with lemmas giving the envelope's layout.
- `actions.dfy` (`Actions`): the seven handlers, each split at its one store call.
  - A request builder maps the descriptor to an immediate callback error, an immediate reply, a raise, or a store `Command`.
  - A response builder maps the store's result to the reply.
  - The in-place loops (the `_id` coercion of `create` and the direction rewrite of `index`) are methods over arrays.
- `dispatch.dfy` (`Dispatch`): `validateOptions`, `processAction` and `db`.
  - What a run does is an `Effect`: the callback invocations it makes, in order, then how it ends (done, waiting on the store, or a raise now or inside a later connect callback).
  - `Db` delivers that effect to the caller's callback, or settles a promise with it.

### Where the code departs from the fh.db contract it imitates

The model follows the code.

- Promise mode. In `db` (index.js:472-491), `processAction` runs inside the promise executor's `try`. So a raise in `validateOptions` (missing `act` or `type`) rejects the promise rather than escaping synchronously (`Dispatch.ThrowsBecomeRejections`).
- `create` with an empty object. The check at index.js:216 rejects only falsy values, non-objects and empty arrays, so `{}` is inserted as one empty document (`Actions.CreateChecksFields`).
- `index` with a null spec. Only an `undefined` spec is refused (index.js:404); a `null` one reaches `createIndex` (`Actions.IndexGuard`).
- `skip` of 0. It is falsy and is dropped, so only positive numbers reach the store (`Actions.PagingAccepted`).
- `eq` with an operator on the same field. `eq` is applied first, so it never overwrites an operator constraint. Instead, a later operator group cannot write into a primitive `eq` value, and the operator is silently lost (`QueryBuilder.EqLiteralSurvivesOperator`).
- `update`'s read-back. It calls `read` with the same descriptor, so the replacement document in `fields` is also read as a projection list (`Actions.UpdateReadBackProjection`, `Actions.UpdateReadBackWithLength`).
- Over-long `type`. It is reported through the callback, but `processAction` does not stop there: the handler still runs and may call back a second time (`Dispatch.TooLongContinues`, `Dispatch.TooLongReadCallsBackTwice`).

## Model

| member | source | states |
|---|---|---|
| JsValues.Assign | index.js:164-165 | A property write sets the written name and leaves every other name's value alone. An existing name keeps its position; a new one is appended. The object's names stay distinct. |
| JsValues.EntriesDistinct | index.js:97-99 | `for..in` over an object visits distinct names. |
| JsValues.Digits | index.js:443 | The decimal text of a number has at least one digit, and exactly one for numbers below 10. |
| JsValues.DigitsInjective | index.js:443 | Distinct numbers render to distinct decimal texts. |
| JsValues.DecimalDigits | index.js:265 | Converting a number's decimal text back to a number gives that number. |
| JsValues.CountOfText | index.js:265 | In a comparison, a number and its decimal text count alike (`i < "3"` as `i < 3`). |
| JsValues.Utf16Length | index.js:442 | A string's `length` is at least its number of characters and at most twice that. |
| JsValues.Utf16LengthBmp | index.js:442 | Without characters outside the Basic Multilingual Plane, `length` is the number of characters. |
| JsValues.Utf16LengthAstral | index.js:442 | Characters outside the Basic Multilingual Plane each count twice in `length`. |
| JsValues.HasOwnProperty | index.js:98 | `v.hasOwnProperty(k)` raises exactly on null, undefined, and an object owning a `hasOwnProperty` property. |
| JsValues.OwnNames | index.js:97-98 | Otherwise it accepts exactly the names `for..in` visits, plus `length` on arrays and strings. |
| JsValues.EnumeratedOwn | index.js:97-98 | Every name `for..in` visits passes the test, unless the object shadows the method, which raises. |
| ObjectIds.CreateFromHexString | index.js:201 | The library accepts exactly the strings of 24 hex digits. The result is an ObjectId whose text is the input in lower case. |
| ObjectIds.Decode | index.js:198-207 | The parsed ObjectId when the library accepts the input, the input itself when it raises. Only a string can change. |
| ObjectIds.DecodeRendered | index.js:198-207 | The text an ObjectId renders to decodes back to that ObjectId. |
| ObjectIds.DecodeIgnoresCase | index.js:198-207 | Hex ids differing only in letter case decode to the same ObjectId. |
| ObjectIds.DecodeIdempotent | index.js:198-207 | Decoding an already decoded value changes nothing. |
| QueryBuilder.WithProperty | index.js:160-165 | A write into the field's constraint raises exactly on null or undefined. It updates an object and is lost on a primitive. |
| QueryBuilder.GeoTerm | index.js:135-140 | Building `$centerSphere` raises exactly when the geo spec is null or undefined. |
| QueryBuilder.CritEq | index.js:94-103 | The `eq` loop computes exactly the `eq` group's specification. It raises only when the group owns a `hasOwnProperty` property. |
| QueryBuilder.BuildQuery | index.js:155-169 | The operator loop computes exactly the operator group's specification, including its raises. |
| QueryBuilder.CritGeo | index.js:125-145 | The `geo` loop computes exactly the `$within` group's specification, including its raises. |
| QueryBuilder.OperatorField | index.js:160-165 | One field of `buildQuery`: an absent field starts from `{}`, and the new constraint is the operator merge, raising on null. |
| QueryBuilder.WithinField | index.js:131-140 | One field of `geo`: an absent field starts from `{}`, and the new constraint is the `$within` merge, raising on a null constraint or a nullish spec. |
| QueryBuilder.CritGroup | index.js:93-146 | `critOps[op]` is the group's specification for each of the nine groups. |
| QueryBuilder.ApplyEntriesKeys | index.js:155-169 | After a group, the filter names its old fields plus the group's fields, and no others. |
| QueryBuilder.ApplyEntriesOthers | index.js:155-169 | A group leaves every field it does not name as it was. |
| QueryBuilder.ApplyEntriesOk | index.js:155-169 | A group succeeds when every one of its fields merges without a raise. |
| QueryBuilder.ApplyEntriesThrow | index.js:155-169 | A group raises when any one of its fields cannot be merged. |
| QueryBuilder.ApplyEntriesRaises | index.js:155-169 | A group succeeds if and only if each field merges into its original constraint without a raise. |
| QueryBuilder.ApplyEntriesPointwise | index.js:155-169 | A successful group gives each named field the merge of the group's value into that field's original constraint. Other fields are unchanged. |
| QueryBuilder.MergedOperator | index.js:160-165 | Merging an operator raises exactly on a null constraint. An absent field gets `{op: v}`, an object gains `op`, and a primitive stays. |
| QueryBuilder.MergedWithin | index.js:131-141 | Merging `$within` raises exactly on a null constraint or a null/undefined spec; otherwise it merges like an operator. |
| QueryBuilder.OperatorGroup | index.js:155-169 | An operator group raises exactly when it owns a `hasOwnProperty` property or one of its fields is constrained by null. Otherwise each of its fields is merged with the operator, and nothing else changes. |
| QueryBuilder.EqGroup | index.js:94-103 | The `eq` group raises exactly when it owns a `hasOwnProperty` property. Otherwise it sets each of its fields to the literal value and leaves other fields alone. |
| QueryBuilder.GeoGroup | index.js:125-145 | The `geo` group raises exactly when it owns a `hasOwnProperty` property, or on a null constraint or a null/undefined spec. Otherwise each field gains its `$within` term, and nothing else changes. |
| QueryBuilder.ApplyOpsKeys | index.js:287-292 | The loop over `critOps` adds exactly the field names of the truthy groups. |
| QueryBuilder.FilterKeys | index.js:286-292 | The filter `list` builds names exactly the fields of the groups present. |
| QueryBuilder.FreshFieldGroup | index.js:155-169 | A one-field group on a field not yet constrained appends `{f: {op: v}}` (for `eq`, `{f: v}`). A field named `hasOwnProperty` raises instead. |
| QueryBuilder.SameFieldGroup | index.js:160-165 | A one-field operator group on an already constrained field merges into that constraint in place. A field named `hasOwnProperty` raises instead. |
| QueryBuilder.SkipAbsentGroups | index.js:287-291 | Groups the descriptor lacks, or holds falsy, leave the filter as it is. |
| QueryBuilder.GroupAt | index.js:287-291 | After absent groups, the filter continues from the first present group's result. |
| QueryBuilder.TwoGroups | index.js:287-291 | With only two groups present, the filter is the second group applied to the first group's result. |
| QueryBuilder.TwoGroupFilter | index.js:286-292 | The filter of a descriptor holding two groups, in `critOps` order. |
| QueryBuilder.SecondOperator | index.js:160-165 | A second operator on a one-operator field joins that field's constraint, unless the field is named `hasOwnProperty`, which raises. |
| QueryBuilder.OperatorsCompose | index.js:104-124 | Two operator groups on one field (a `ge`/`le` range, say) give one constraint holding both operators, in group order. A field named `hasOwnProperty` makes the first group raise. |
| QueryBuilder.EqLiteralSurvivesOperator | index.js:94-124 | A primitive `eq` value survives any later operator group on the same field, which is lost. A field named `hasOwnProperty` makes `eq` raise. |
| QueryBuilder.LiteralKeepsOperator | index.js:160-165 | An operator group leaves a field holding a primitive unchanged, unless the field is named `hasOwnProperty`, which raises. |
| Envelopes.NonIdEntries | index.js:185-186 | The copied properties never include `_id`. |
| Envelopes.GenerateReturn | index.js:177-196 | The loop with its first-field flag computes exactly the specification `Envelope`. |
| Envelopes.CopyFieldsEmpty | index.js:184-193 | `fields` is created exactly when some name other than `_id` is enumerated. |
| Envelopes.NonIdEntriesKeep | index.js:185-191 | Dropping `_id` keeps every other name and its value, with names still distinct. |
| Envelopes.CopyFieldsAppends | index.js:185-192 | Copying field by field appends exactly the non-`_id` properties, in document order. |
| Envelopes.HeadWrites | index.js:180-183 | A truthy `_id` writes `type` then `guid` and nothing named `fields`. |
| Envelopes.EnvelopeOfNothing | index.js:178-179 | A null or undefined document gives `{}`. |
| Envelopes.EnvelopeLayout | index.js:177-196 | The envelope is `type` and `guid` (only for a truthy `_id`), then `fields` holding the non-`_id` properties (only if there are any). |
| Envelopes.EnvelopeIdentity | index.js:180-183 | The envelope has `type` and `guid` exactly when `_id` is truthy. `guid` is then `_id`'s text. |
| Envelopes.EnvelopeFields | index.js:184-193 | The envelope has `fields` exactly when the document has a property other than `_id`. `fields` then holds all of them, in order. |
| Envelopes.GuidRoundTrip | index.js:182 | The `guid` of a stored document decodes back to its ObjectId. |
| Actions.IdQuery | index.js:260 | The identity query has a single property, `_id`, holding the decoded `guid`. |
| Actions.CoerceId | index.js:224-225 | One `forEach` step raises exactly on a null or undefined document, a document owning a `hasOwnProperty` property, or a null or undefined `_id`. Otherwise only `_id` may change: it is decoded when its `length` is 24. |
| Actions.ShadowedDocumentRaises | index.js:224 | A document `{hasOwnProperty: 1}` makes the `_id` check raise. |
| Actions.CoerceAll | index.js:223-227 | The `forEach` succeeds if and only if every step does, and gives each document's coerced form. Otherwise it raises some step's error. |
| Actions.CoerceIds | index.js:223-227 | The in-place loop leaves each slot coerced, or stops at the first raise. Earlier slots are then coerced and later ones untouched. |
| Actions.CoerceAllStops | index.js:223-227 | The first document that raises ends the `forEach` with its error. |
| Actions.Create | index.js:213-229 | The handler's code computes `create`'s request. |
| Actions.CreateChecksFields | index.js:216-218 | `create` fails exactly when `fields` is falsy, not an object, or an empty array. An empty plain object is inserted. |
| Actions.CreateInserts | index.js:220-229 | `insertMany` gets one document per element, or the object wrapped in an array. Each keeps its names and non-`_id` values, and `_id` is decoded exactly when its `length` is 24. |
| Actions.CreateReplyShape | index.js:234-244 | One inserted document is answered with its envelope; any other count with `{Status: "OK", Count}`. |
| Actions.ListedNames | index.js:265-266 | The loop reads as many names as `fields.length` counts. An array lists the texts of its elements. An object without index properties lists only "undefined". A string lists as many names as its UTF-16 length, the first ones being its characters. A value other than an array, object or string lists nothing. |
| Actions.BuildProjection | index.js:264-267 | The projection loop computes the projection of the listed names. |
| Actions.ProjectionMongoOptions | index.js:262-269 | `mongoOptions` as `read` builds it. |
| Actions.ProjectionNames | index.js:264-267 | The projection maps exactly the listed names, each to 1. |
| Actions.ProjectionOfStrings | index.js:263-268 | An array of strings projects exactly those strings. |
| Actions.GuidGuards | index.js:254-271 | `read` and `delete` answer `{}` without a store call exactly when `guid` is falsy. Otherwise they address `{_id: decode(guid)}` in `type`. |
| Actions.UpdateChecksInOrder | index.js:338-348 | `update` checks `fields` before `guid`, each with its own error. With both present, it replaces `{_id: decode(guid)}` with `fields` and reads that document back. |
| Actions.UpdateReadBackProjection | index.js:354 | The read-back of a plain replacement object without a `length` property projects no names. |
| Actions.ProjectionOfOneName | index.js:264-267 | Listing one name, however often, projects just that name. |
| Actions.UpdateReadBackWithLength | index.js:354 | A replacement without index properties, whose `length` counts at least 1 (`1`, `"3"`, `true`), makes the read-back project only the name "undefined". |
| Actions.ProjectionOptionsKeys | index.js:262-269 | The projection is `read`'s only option, present exactly when `fields` is truthy. |
| Actions.ListFilter | index.js:286-292 | The loop over `critOps` computes `BuildFilter`. |
| Actions.ShadowedGroupRaises | index.js:97-98 | A `list` descriptor whose `eq` group is `{hasOwnProperty: 1}` makes the filter raise. |
| Actions.ListMongoOptions | index.js:294-312 | The option writes compute `list`'s options. |
| Actions.List | index.js:285-314 | The handler's code computes `list`'s request. |
| Actions.ListOptionsContents | index.js:296-312 | Each of `projection`, `skip`, `limit` and `sort` reaches `find` exactly when accepted, unchanged. |
| Actions.PagingAccepted | index.js:304-309 | `skip` and `limit` are passed on exactly when they are positive numbers. |
| Actions.ListResponse | index.js:319-325 | The push loop computes the reply `{count, list}`. |
| Actions.ListReplyContents | index.js:319-324 | `count` is the list's length, there is one entry per document, and entry i is document i's envelope. |
| Actions.DirectionOf | index.js:414-415 | A token raises exactly when it is null or undefined or its `toString` cannot complete. Otherwise: -1 exactly for "DESC", "2d" exactly for "2D", and 1 for anything else, compared upper-cased. |
| Actions.ShadowedTokenRaises | index.js:414 | A token `{toString: 1}` makes the direction rewrite raise. |
| Actions.DirectionsOf | index.js:413-416 | The rewrite succeeds exactly when every token is neither null nor undefined and converts to text, and then maps each token to its direction. |
| Actions.RewriteDirections | index.js:413-417 | The in-place loop leaves the directions in the slots, or raises as the specification does. On a raise, the slots before the first raising token hold their directions, and it and the later ones are untouched. |
| Actions.Index | index.js:402-424 | The handler's code computes `index`'s request. |
| Actions.IndexReplyShape | index.js:419-426 | Once the collection callback arrives, `index` fails with "Collection doesn't exist" exactly when the collection is null. Otherwise it answers `{status: "OK", indexName}`. |
| Actions.DeleteAllShape | index.js:386-394 | `deleteall` issues `deleteMany` on the `type` collection and answers `{status: "ok", count}` with the deleted count. |
| Actions.IndexGuard | index.js:403-406 | `index` fails exactly on an undefined `index`. A null one is passed to `createIndex`. |
| Actions.IndexKeepsOrder | index.js:413-417 | The handler raises exactly when a token is null or undefined or does not convert to text. Otherwise every key keeps its position and gets its direction. |
| Actions.DirectionIgnoresCase | index.js:414-415 | Two string tokens equal up to letter case give the same direction. |
| Actions.DirectionTokens | index.js:408-415 | Examples: "asc", "Desc" and "2d" map to 1, -1 and "2d"; "text" and the number -1 fall back to 1. |
| Dispatch.ActionNamed | index.js:450-456 | A name selects the handler with that name. |
| Dispatch.ActionNamesRoundTrip | index.js:450-456 | Each handler is selected by its own name and by no other. |
| Dispatch.ValidateOptions | index.js:435-445 | Validation reports at most one callback error, the over-long `type` notice. |
| Dispatch.TypeLength | index.js:442-443 | A string `type` is reported exactly when it is longer than 70 UTF-16 code units. |
| Dispatch.TypeLengthBmp | index.js:442-443 | Within the Basic Multilingual Plane, a `type` is reported exactly when it is longer than 70 characters. |
| Dispatch.AstralTypeTooLong | index.js:442-443 | A `type` of 36 characters outside the Basic Multilingual Plane is reported, since its `length` is 72. |
| Dispatch.MissingAct | index.js:436-437 | A falsy `act` raises before anything else; behind a promise it rejects. |
| Dispatch.MissingType | index.js:439-440 | A falsy `type` raises unless `act` is close, list, export or import. |
| Dispatch.ListWithoutType | index.js:439 | `list` without a `type` runs against the undefined collection. |
| Dispatch.Handled | index.js:458-465 | The connect callback makes at most one call. A raise comes at once only on a reused connection, and one inside a later callback only after a newly opened connection. It never ends silently. |
| Dispatch.ProcessAction | index.js:447-466 | A validation raise happens before any callback. Otherwise the reported notices are the first calls. A raise before returning comes from validation or from a handler on a reused connection. A raise inside a later callback happens only after a newly opened connection. A run with no call never simply ends. |
| Dispatch.Db | index.js:472-491 | The caller's callback is used exactly when one is given. A promise is never `Pending`: it settles, waits on the store, or, only after a newly opened connection, the handler's raise escapes and it never settles. |
| Dispatch.TooLongContinues | index.js:442-465 | The over-long notice is the first callback and the handler still runs. A promise rejects with the notice. |
| Dispatch.TooLongReadCallsBackTwice | index.js:442-458 | A `read` with an over-long `type` and no `guid` calls back twice: the notice, then `{}`. |
| Dispatch.UnknownBeforeConnect | index.js:450-453 | An unknown `act` is answered with "Unknown fh.db action" and does not depend on the connection. |
| Dispatch.Settle | index.js:478-488 | The first callback settles the promise: an error rejects it and a result resolves it. A raise before returning rejects it. With no call, it is `Pending` exactly when the run ends with nothing in flight, and left unsettled (`Unhandled`) exactly when a raise escapes inside a later callback. |
| Dispatch.ThrowsBecomeRejections | index.js:472-491 | A validation raise reaches a callback caller as a raise, and rejects the promise otherwise. |
| Dispatch.HandlerRaise | index.js:458-488 | A handler's raise rejects the promise on a reused connection. After a fresh connect it escapes, and the promise never settles. |
| Dispatch.CallbackCount | index.js:447-466 | The callback is called at most twice, and twice only after an over-long `type`. The promise is never left pending: it settles, waits on the store, or the handler's raise escapes. |

## Left out

- The connection manager (index.js:11-86) is not modelled: connecting, caching the database and client, the URL from the environment, client options and `close`. Whether the connection is reused, newly opened or refused is a parameter of `Dispatch.ProcessAction`.
- The MongoDB driver is not modelled.
  - A store call is a `Command` value, and its results are parameters of the response builders (`CreateReply`, `ListReply`, `DeleteAllReply`, `IndexReply`, and `Envelope` for `read` and `delete`).
  - Driver errors are passed to the callback unchanged and are not modelled further, including the `null !== err` tests.
  - What `find`, `findOne`, projections, `sort`, `skip`, `limit` and `createIndex` then select is store behaviour and is not modelled.
- Numbers are integers. The geo radius `radius / 6378` is kept as an unevaluated `Radians` term, because floating point is not modelled.
- Regular expressions are opaque values; `$regex` matching is store behaviour.
- Objects are ordered own-property lists. JavaScript's rule that integer-like keys enumerate first, inherited and non-enumerable properties, and named properties on arrays, regular expressions and ObjectIds are not modelled. So an operator written onto an array, a regular expression or an ObjectId constraint (`QueryBuilder.WithProperty`) leaves the value as it is; the store's serialisation of those values would leave the extra property out as well. `for..in` over an ObjectId, a regular expression or a `Radians` term visits nothing.
- Aliasing between the caller's descriptor and the objects the handlers mutate is not modelled.
  - In `create` and `index`, the in-place rewrites are shown on arrays holding the documents or directions.
  - The request builders return the rewritten values.
- `toUpperCase` is modelled on ASCII letters only.
- Dispatch.ActionNamed: only the seven handlers are selectable. The source's `this[options.act]` would also select the client's other methods and `Object.prototype` methods (`connect`, `validateOptions`, `toString`, ...); the model treats those names as unknown.
- Actions.ProjectionLength: `fields.length` goes through `JsValues.Count`, and so does `type.length` in `Dispatch.TooLong`. `Count` converts a string only when it is plain decimal digits. Strings with a sign, decimal point, exponent, hex prefix, surrounding whitespace or "Infinity" count as 0 rather than as `Number` reads them. Fractional numbers are not represented.
- Strings are indexed (`fields[i]` on a string `fields`) and enumerated (`for..in` over a string `index`) by character, not by UTF-16 code unit, because a lone surrogate half is not a Dafny character. This differs from JavaScript only for strings with characters outside the Basic Multilingual Plane. `length` itself counts code units.
- Actions.ListedNames, Envelopes.Head, Dispatch.TooLongNotice, Actions.CreateFieldsError, Actions.IndexError, Dispatch.ProcessAction, JsValues.Count: an object owning a `toString` property cannot be converted to text or to a number. In the source, that makes each of these raise a TypeError:
  - `fields[options.fields[i]] = 1` (index.js:266);
  - `document._id.toString()` (index.js:182);
  - the concatenation of `type` (index.js:443) or of `act` (index.js:217, 405) into a message;
  - the lookup `this[options.act]` (index.js:449);
  - a comparison with such a `length`.
  - These members convert such an object to "[object Object]" and do not raise. `JsValues.Printable` states the condition; only `Actions.DirectionOf` raises on it.
- `console.log` calls are not modelled.
