# RavenDB Node.js client: commands, operations and query acceptance

This project models part of the RavenDB Node.js client. The first part is the
protocol commands and operations a client builds before it sends anything:

- patching a document;
- putting a compare-exchange value;
- storing a document, which is also how the replication tests resolve a conflict;
- updating an external-replication task;
- creating a database.

Each command checks its arguments when it is constructed, and throws a named
error if one is wrong. It builds a request description (method, URI, headers,
body) from its fields and the target `ServerNode`. It says whether it reads or
writes. It turns the response text into its `result`, or rejects it.

The second part is what the session's `QueryOperation` does with a query
result:

- the page-size precondition at construction;
- the missing-index and stale-result checks when a result arrives;
- the per-document `deserialize` decision between a tracked entity, a single
  unwrapped field, a substituted nested object and a key-by-key projection;
- the identity back-fill, which never overwrites a value the document states.

Layout, one module per file:

- `Wrappers` holds `Option`, `Result` and `Outcome`.
- `Json` models JavaScript values, with `undefined`, truthiness and property reads.
- `Text` models `String.prototype.trim`, `indexOf`/`replace` with a string
  pattern, and decimal rendering of a non-negative integer.
- `Protocol` holds what the commands share: `ServerNode`, `Headers`,
  `HttpRequest`, the error kinds, and the collaborators `Codec` and `Conventions`.
- `Patch`, `CompareExchange`, `PutDocument`, `ExternalReplication`,
  `CreateDatabase` and `Query` each model one source file.

Modelling conventions:

- **Classes.** A command or operation is a Dafny `class`. Fields the source
  assigns only in its constructor are `const`. `result`, `_currentQueryResults`,
  `_disableEntitiesTracking` and the `endPoint`/`params`/`payload` of
  `CreateDatabaseCommand` are `var` fields, and the methods that assign them say
  so in `modifies`.
- **Throwing constructors.**
  - The class constructor requires that the argument checks pass.
  - A static `Create` method stands for `new X(...)`. It returns either the
    error the source throws or a fresh object.
  - The checks themselves are a function returning `Option<Error>`, in the
    source's order, so the first failing check decides the message.
- **Foreign calls.** `encodeURIComponent`, JSON deserialization,
  `ObjectKeysTransform.camelCase`, the conventions' type lookups,
  `StringUtil.validateDBName` and `CompareExchangeResult.parseFromString` are
  arrow-typed fields of `Codec` and `Conventions`, or a function parameter, or a
  recorded call.
- **Request bodies.** A body is the JSON value handed to the serializer.
- **Absent text.** The empty string stands for an absent or empty response text,
  since JavaScript treats both as falsy and takes the same branch.
- **Query results.** `QueryOperation.complete` returns the deserialized list
  together with the session calls it made, in order: `registerIncludes`, one
  `trackEntity` per tracked document, and `registerMissingIncludes`. What
  `trackEntity` returns, and the call of `trySetIdentity`, are recorded in the
  value each document deserializes to. `complete` deserializes with `deserialize`
  as written; the corrected `Query.Deserialize` of the finding below stands beside it.
- **Read/write and result type.** `isReadRequest` is the constant `false` on
  every command here except `CreateDatabaseCommand`, whose older base class
  has no such field, so neither has its model. `resultType` is the constant `"PatchResult"`,
  `"CommandResult"` or `"COMMAND_RESULT"`. Each is a `const` field with that
  value.

## Model

| member | source | states |
|---|---|---|
| Protocol.WithChangeVector | src/Documents/Commands/PutDocumentCommand.ts:56 | the change-vector header is set exactly when the change vector is non-null, and carries it unchanged; the content type is kept |
| Text.TrimEmptyIffBlank | src/Documents/Operations/PatchOperation.ts:56-58 | `trim()` of a script is empty exactly when the script is white space only, under JavaScript's white-space set |
| Text.IndexOf | src/Database/Commands/CreateDatabaseCommand.ts:19 | the index found is an occurrence of the pattern, and no occurrence comes before it |
| Text.DecimalStringInjective | src/Documents/Operations/CompareExchange/PutCompareExchangeValueOperation.ts:70 | distinct non-negative indexes render as distinct decimal strings |
| Patch.OperationArgsAccepted | src/Documents/Operations/PatchOperation.ts:52-62 | `PatchOperation` accepts its arguments exactly when the patch is present, its script is not null, empty or blank, and a given patchIfMissing has a non-blank script |
| Patch.OperationRejectsMissingScript | src/Documents/Operations/PatchOperation.ts:52-58 | a null patch, or a null, empty or blank main script, is an InvalidArgumentException |
| Patch.OperationChecksFallback | src/Documents/Operations/PatchOperation.ts:60-62 | with a usable main script, an absent patchIfMissing is accepted and a blank fallback script is an InvalidArgumentException with the fallback message |
| Patch.PatchOperation.Create | src/Documents/Operations/PatchOperation.ts:45-70 | construction fails exactly when the checks fail, with their error; otherwise the arguments are stored unchanged |
| Patch.CommandArgsAccepted | src/Documents/Operations/PatchOperation.ts:101-119 | `PatchCommand` accepts its arguments exactly when conventions and patch are present, both scripts are usable and the id is non-empty |
| Patch.GetCommandFailures | src/Documents/Operations/PatchOperation.ts:72-83 | once the operation has accepted its patch, `getCommand` fails only for null conventions or an empty id |
| Patch.PatchOperation.GetCommand | src/Documents/Operations/PatchOperation.ts:72-83 | id, change vector, patch, patchIfMissing and the skip flag are passed on unchanged, with debug and test always false |
| Patch.PatchCommand.Create | src/Documents/Operations/PatchOperation.ts:95-127 | construction fails exactly when the command's checks fail; otherwise the fields hold the arguments and the `{patch, patchIfMissing}` payload |
| Patch.PatchCommand.CreateRequest | src/Documents/Operations/PatchOperation.ts:133-158 | a PATCH to the document URI followed by the set flags in fixed order, JSON content type, change-vector header exactly when non-null, the payload as body |
| Patch.PatchUriDeterminesFlags | src/Documents/Operations/PatchOperation.ts:136-146 | two patch URIs for the same document are equal only when all three flags are equal |
| Patch.PatchUriAddressesDocument | src/Documents/Operations/PatchOperation.ts:134 | every patch URI starts with the document URI of the encoded id |
| Patch.PatchCommand.SetResponse | src/Documents/Operations/PatchOperation.ts:160-167 | an empty response leaves `result` as it was; any other becomes the camel-cased deserialized body |
| CompareExchange.CommandArgsError | src/Documents/Operations/CompareExchange/PutCompareExchangeValueOperation.ts:51-57 | the command's arguments are accepted exactly when the key is non-empty and the index is not negative (so 0 is accepted); any rejection is an InvalidArgumentException |
| CompareExchange.PutCompareExchangeValueCommand.Create | src/Documents/Operations/CompareExchange/PutCompareExchangeValueOperation.ts:44-63 | construction fails exactly when those checks fail; null conventions fall back to the default conventions |
| CompareExchange.PutCompareExchangeValueOperation.constructor | src/Documents/Operations/CompareExchange/PutCompareExchangeValueOperation.ts:20-24 | key, value and index are stored unchanged; nothing is validated, so a missing key or negative index is accepted here |
| CompareExchange.PutCompareExchangeValueOperation.GetCommand | src/Documents/Operations/CompareExchange/PutCompareExchangeValueOperation.ts:26-31 | key, value and index are forwarded unchanged to the command, which does the validation; the command keeps the given conventions, or the defaults when none are given |
| CompareExchange.PutCompareExchangeValueCommand.CreateRequest | src/Documents/Operations/CompareExchange/PutCompareExchangeValueOperation.ts:69-83 | a PUT to `.../cmpxchg?key=<raw key>&index=<index>` with JSON content type and the body `SingleKey("Object", value)` |
| CompareExchange.PutUriInjective | src/Documents/Operations/CompareExchange/PutCompareExchangeValueOperation.ts:70 | the key and the index can be recovered from the URI: distinct pairs give distinct URIs |
| Json.SingleKey | src/Documents/Operations/CompareExchange/PutCompareExchangeValueOperation.ts:72-80 | the body record has the single key given (`Object` here, `watcher` for the external-replication update), holding the value unchanged |
| CompareExchange.ParseTypeDispatch | src/Documents/Operations/CompareExchange/PutCompareExchangeValueOperation.ts:85-95 | a primitive value is parsed with a null type; otherwise the type descriptor is passed exactly when it is a class |
| CompareExchange.PutCompareExchangeValueCommand.SetResponse | src/Documents/Operations/CompareExchange/PutCompareExchangeValueOperation.ts:85-95 | `result` is the parse of the response with the command's conventions and the type the value's shape selects |
| PutDocument.ArgsError | src/Documents/Commands/PutDocumentCommand.ts:22-28 | the arguments are accepted exactly when the id is non-empty and the document is truthy; a rejection is an InvalidArgumentException |
| PutDocument.PutDocumentCommand.Create | src/Documents/Commands/PutDocumentCommand.ts:19-33 | construction fails exactly when those checks fail; otherwise id, change vector and document are stored |
| PutDocument.PutDocumentCommand.CreateRequest | src/Documents/Commands/PutDocumentCommand.ts:41-59 | a PUT to `.../docs?id=<encoded id>` whose body is the document as given, with JSON content type and the change vector as precondition exactly when non-null |
| PutDocument.PutDocumentCommand.SetResponse | src/Documents/Commands/PutDocumentCommand.ts:61-63 | `result` is the deserialized response, the `PutResult` |
| PutDocument.ResolveConflict | test/Ported/Server/Replication/DocumentReplicationTest.ts:213-219 | storing a chosen conflict variant with a null change vector is accepted for any non-empty id and truthy body, and yields an unconditional PUT of that body |
| ExternalReplication.UpdateExternalReplicationOperation.constructor | src/Documents/Operations/Replication/UpdateExternalReplicationOperation.ts:13-15 | the watcher is stored unchanged; nothing is validated |
| ExternalReplication.UpdateExternalReplicationCommand.constructor | src/Documents/Operations/Replication/UpdateExternalReplicationOperation.ts:29-32 | the watcher is stored unchanged and there is no result yet; nothing is validated |
| ExternalReplication.UpdateExternalReplicationOperation.GetCommand | src/Documents/Operations/Replication/UpdateExternalReplicationOperation.ts:17-19 | the conventions are ignored and the watcher forwarded unchanged |
| ExternalReplication.UpdateExternalReplicationCommand.CreateRequest | src/Documents/Operations/Replication/UpdateExternalReplicationOperation.ts:34-46 | a POST to `.../admin/tasks/external-replication` with JSON content type and the body `SingleKey("watcher", newWatcher)` |
| ExternalReplication.ParseResponse | src/Documents/Operations/Replication/UpdateExternalReplicationOperation.ts:52-58 | an empty response is an invalid-response error; any other is deserialized |
| ExternalReplication.UpdateExternalReplicationCommand.SetResponse | src/Documents/Operations/Replication/UpdateExternalReplicationOperation.ts:52-58 | on an empty response the error is raised and `result` is left as it was; otherwise `result` is the deserialized response |
| CreateDatabase.CreateDatabaseCommand.constructor | src/Database/Commands/CreateDatabaseCommand.ts:13-16 | the command starts with an empty endpoint and the PUT method, and validates nothing |
| CreateDatabase.DatabaseNameStripsPrefix | src/Database/Commands/CreateDatabaseCommand.ts:19 | an id `Raven/Databases/<name>` yields `<name>` |
| CreateDatabase.DatabaseNameWithoutPrefix | src/Database/Commands/CreateDatabaseCommand.ts:19 | an id without the prefix is used as the name unchanged |
| CreateDatabase.DatabaseNameCutsFirstOccurrence | src/Database/Commands/CreateDatabaseCommand.ts:19 | the name is the id with its first occurrence of the prefix cut out, wherever that occurrence is |
| CreateDatabase.DatabaseNameRemovesOnlyOnce | src/Database/Commands/CreateDatabaseCommand.ts:19 | a doubled prefix keeps its second copy |
| CreateDatabase.RequestCheck | src/Database/Commands/CreateDatabaseCommand.ts:19-25 | the name validator's error comes first; with a valid name, a missing `Raven/DataDir` setting is an InvalidOperationException; otherwise the checks pass |
| CreateDatabase.CreateDatabaseCommand.CreateRequest | src/Database/Commands/CreateDatabaseCommand.ts:18-30 | on failure endpoint, params and payload are unchanged; on success params are `{name}`, the endpoint is `<url>/admin/databases` and the payload is the document |
| CreateDatabase.CreateDatabaseCommand.SetResponse | src/Database/Commands/CreateDatabaseCommand.ts:32-40 | a response without a body is an ErrorResponseException; otherwise the base class's result is returned |
| Query.AssertPageSizeSet | src/Documents/Session/Operations/QueryOperation.ts:66-79 | fails, with an InvalidOperationException, exactly when the conventions demand a page size and the query sets none |
| Query.QueryOperation.Create | src/Documents/Session/Operations/QueryOperation.ts:30-47 | construction fails exactly when the page-size check fails; otherwise the arguments, the metadata-only and index-entries-only flags among them, are stored and there are no current results |
| Query.EnsureIsAcceptable | src/Documents/Session/Operations/QueryOperation.ts:268-280 | fails exactly for a stale result under `waitForNonStaleResults`, with a TimeoutException whose message carries the elapsed time |
| Query.AcceptResult | src/Documents/Session/Operations/QueryOperation.ts:224-229 | an absent result names the missing index; a present one is accepted exactly when it is not a stale result that was waited on |
| Query.QueryOperation.SetResult | src/Documents/Session/Operations/QueryOperation.ts:62-64 | a refused result leaves the current results unchanged; an accepted one is saved as it is, staleness included |
| Query.QueryOperation.SetDisableEntitiesTracking | src/Documents/Session/Operations/QueryOperation.ts:220-222 | the tracking flag takes the given value |
| Query.IdOf | src/Documents/Session/Operations/QueryOperation.ts:116-119 | the id passed on is metadata `@id` exactly when that is a non-empty string, otherwise null |
| Query.ReadHit | src/Documents/Session/Operations/QueryOperation.ts:112-130 | an entry fails, with a TypeError, exactly when it is not an object or its metadata is null or undefined; otherwise it is deserialized by `deserialize` as written, with the id `IdOf` extracts |
| Query.ReadHitAgreesUnlessSubstituted | src/Documents/Session/Operations/QueryOperation.ts:112-130 | where no nested object is substituted, an entry reads the same under the corrected `deserialize` |
| Query.LeadingHits | src/Documents/Session/Operations/QueryOperation.ts:111-134 | the values the loop gets through: every one is an entry's reading, in order, and the loop stops only at an entry that cannot be read |
| Query.LeadingHitsUnique | src/Documents/Session/Operations/QueryOperation.ts:111-134 | any prefix of readings that ends at the first unreadable entry, or at the end, is that list |
| Query.ReadResults | src/Documents/Session/Operations/QueryOperation.ts:111-134 | the loop ends with a RavenException exactly when it stops before the end; otherwise its list is the readings of all entries; the `trackEntity` calls made are those of the tracked values it got through |
| Query.QueryOperation.Complete | src/Documents/Session/Operations/QueryOperation.ts:102-142 | exactly one value per result entry, in order; a RavenException and no list exactly when some entry cannot be read; the session sees the includes registered (tracking on), then a `trackEntity` call per tracked value read before the loop stopped, then the missing includes registered (tracking on, loop finished) |
| Query.SingleField | src/Documents/Session/Operations/QueryOperation.ts:161-183 | without exactly one projection and no type, the document goes on unchanged; an early return happens only under the single-field rule |
| Query.SingleFieldCases | src/Documents/Session/Operations/QueryOperation.ts:161-183 | under the rule: a truthy primitive is returned as it is; a falsy, null or absent field gives null; an object replaces the document exactly when `fieldsToFetch[0]` equals the projected field |
| Query.Project | src/Documents/Session/Operations/QueryOperation.ts:193-197 | the projection gets exactly the projected keys, each copied from the document (undefined when missing), plus the instance's own other properties |
| Query.Backfill | src/Documents/Session/Operations/QueryOperation.ts:200-211 | the identity is set exactly when the id and identity property are non-empty and the document's value for that property is falsy, and then it is set to the id |
| Query.Deserialize | src/Documents/Session/Operations/QueryOperation.ts:144-214 | a document is tracked exactly when `@projection` is null, undefined or false, and then with the resolved type, id, document, metadata and tracking flag; a scalar comes only from the single-field rule, and when that rule returns a value the result is that value |
| Query.DeserializeProjects | src/Documents/Session/Operations/QueryOperation.ts:185-198 | when the single-field rule neither returns nor substitutes, both definitions agree, and with a projection list the result holds exactly the projected keys copied from the document, besides the instance's own properties; without one it is a full copy |
| Query.DeserializeKeepsSubstitutedObject | src/Documents/Session/Operations/QueryOperation.ts:177-198 | a substituted nested object becomes the result with all its properties |
| Query.DeserializeNeverOverwritesIdentity | src/Documents/Session/Operations/QueryOperation.ts:200-211 | in both definitions, the identity is back-filled only with a non-empty id, and never over a truthy value the document states |
| Query.DeserializeAsWritten | src/Documents/Session/Operations/QueryOperation.ts:144-214 | the function as written: a document is tracked exactly when `@projection` is null, undefined or false, and then with the resolved type, id, document, metadata and tracking flag; a scalar comes only from the single-field rule, and when that rule returns a value the result is that value; a projected result has the resolved entity type |
| Query.DeserializeSingleFieldScalar | src/Documents/Session/Operations/QueryOperation.ts:161-175 | under the single-field rule, in both definitions, a truthy primitive field is returned as it is and a falsy, null or absent one as null |
| Query.SingleFieldProjectionReadsValue | src/Documents/Session/Operations/QueryOperation.ts:112-130 | projecting the one field `name` out of `{name: "Arek", age: 30}` reads as the string `"Arek"` |
| Query.DeserializeAsWrittenProjects | src/Documents/Session/Operations/QueryOperation.ts:177-198 | as written, the projection list is applied to whatever document the single-field rule hands on, a substituted nested object included: exactly the projected keys, each read from that document, plus the instance's own properties; without a list, a full copy of that document |
| Query.DeserializeAgreesUnlessSubstituted | src/Documents/Session/Operations/QueryOperation.ts:177-198 | the written and corrected definitions agree on every input where no nested object is substituted |
| Query.SubstitutedObjectLost | src/Documents/Session/Operations/QueryOperation.ts:177-198 | selecting the object field `address` yields `{address: undefined}` as written, and the object itself when corrected |

## Left out

- The JSON serializer and deserializer are foreign calls. So are `camelCase`,
  `encodeURIComponent`, `parseFromString`, `validateDBName` and `toJson`. The
  model treats them as uninterpreted functions, or records what they are handed.
- `StringUtil.format('{url}/admin/databases', serverNode)` is interpreted, not
  left open: the endpoint is the node's URL followed by `/admin/databases`.
  The placeholder substitution of `StringUtil.format` in general is not modelled.
- `_typedObjectMapper.toObjectLiteral({ patch, patchIfMissing })` is modelled by
  its shape only: `Patch.Payload` and `Patch.PatchLiteral` produce an object with
  keys `patch` and `patchIfMissing`, each `{script, values}` (a null script
  for an absent one) or null. Any other
  conversion the mapper applies to the values is not modelled.
- The `_serializer` getter of `PutDocumentCommand` clears the serializer's
  replacer rules in place. The model sends the document value unchanged, which
  is what that clearing achieves; the serializer object is not modelled.
- `HeadersBuilder`, `_getHeaders` and `_addChangeVectorIfNotNull` live in the
  command base class, which is not part of this model. Headers are reduced to the
  JSON content type and the optional change-vector precondition.
- The text of `_throwInvalidResponse`'s error is not modelled, only its kind.
- Logging, `logQuery`, and the building of the parameter string in
  `ensureIsAcceptableAndSaveResult` are left out. They are side output only.
- The stopwatch and `enterQueryContext` are left out. The elapsed time is a
  string parameter, so the TypeError for a stopwatch that was never started is
  not modelled.
- `createRequest` of `QueryOperation` builds a `QueryCommand`, which is not part
  of this model, and bumps the session's request counter. It is left out.
- Query.QueryOperation.Complete: requires current results, where the source
  would throw a TypeError on `createSnapshot` of undefined. The snapshot is the
  result value itself.
- Query.Deserialize: `fromObjectLiteral` is taken as the identity on the
  document. `new projType()` is `Conventions.instantiate`, so a constructed
  instance's own properties are all it contributes. Failures inside `trackEntity`
  and `trySetIdentity` are not modelled, so the RavenException of `complete`
  covers only the failing property reads.
- JSON arrays are not modelled: `Value` has no array case, and no entry, field
  or compare-exchange value here is read as one. `TypeUtil.isPrimitive` is read
  as "not an object", so null and undefined count as primitive; `TypeUtil` is
  not part of this model, and that reading is a modelling choice.
- CreateDatabase.CreateDatabaseCommand.SetResponse: the result of
  `super.setResponse(response)` is a parameter. An error that the base class
  raises before the body check is therefore not modelled; the base class is not
  part of this model.
- Numbers are unbounded integers. The way JavaScript renders a fraction, or a
  number above 1e21, in the compare-exchange index is not modelled.
- `'Raven/DataDir' in settings` also finds properties inherited through the
  prototype chain. The model looks only at the settings' own keys.
- Network execution, node selection, retries and failover are left out. So is
  any wait-and-retry on stale results: the stale check raises at once.
- The client has no conflict resolver of its own. Resolution appears only as
  the put of a chosen variant with a null change vector, which
  `PutDocument.ResolveConflict` models.
- A null `patchIfMissing.script` is modelled only where the source calls
  `trim()` on it, as the resulting TypeError.

## Findings

| source | as written | input that shows it | evidently intended | confidence | as-written member | corrected member |
|---|---|---|---|---|---|---|
| src/Documents/Session/Operations/QueryOperation.ts:177-198 | the single-field rule replaces the document by the nested object, then the projection list is still applied to that object, looking up the projected field name inside it | document `{address: {city: "X"}}` with `@projection: true`, projections `["address"]`, fieldsToFetch `["address"]`, no type: the result is `{address: undefined}` | the nested object is returned whole, as its own fields | medium, not executed | Query.DeserializeAsWritten, Query.SubstitutedObjectLost | Query.Deserialize, Query.DeserializeKeepsSubstitutedObject |
