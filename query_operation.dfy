/**
 * The session's query operation (src/Documents/Session/Operations/QueryOperation.ts):
 * the page-size precondition checked at construction, the acceptance of a query
 * result (missing index, stale result), and the turning of each result document
 * into what the caller receives — a tracked entity, a single unwrapped field, or
 * a projection with the identity back-filled.
 *
 * The session is represented by what the operation asks of it: its conventions,
 * and the calls `registerIncludes`, `trackEntity` and `registerMissingIncludes`,
 * which are returned as a list of recorded calls. `trackEntity`'s result and the
 * call of `trySetIdentity` are recorded in the value a document turns into.
 */
module Query {
  import opened Wrappers
  import opened Json
  import opened Protocol

  /** The parts of `IndexQuery` the operation reads. */
  datatype IndexQuery = IndexQuery(query: string, pageSizeSet: bool, waitForNonStaleResults: bool)

  /** A query result as the server returns it. */
  datatype QueryResult = QueryResult(
    results: seq<Value>,
    includes: Value,
    includedPaths: seq<string>,
    isStale: bool,
    totalResults: int)

  /** `FieldsToFetchToken`: the fields the query selects and the names they are projected to. */
  datatype FieldsToFetchToken = FieldsToFetchToken(fieldsToFetch: Option<seq<string>>, projections: Option<seq<string>>)

  /**
   * What `deserialize` returns for one document.
   *  - Tracked: `session.trackEntity(entityType, id, document, metadata, disableTracking)`.
   *  - Scalar: a single projected field returned as it is.
   *  - Projected: an instance of `entityType` (or a plain object) with `fields`;
   *    `identity` is the id handed to `trySetIdentity`, None when it is not called.
   */
  datatype Deserialized =
    | Tracked(entityType: Option<TypeName>, id: Option<string>, document: map<string, Value>,
              metadata: Value, disableTracking: bool)
    | Scalar(value: Value)
    | Projected(entityType: Option<TypeName>, fields: map<string, Value>, identity: Option<string>)

  /** The calls the operation makes on its session. */
  datatype SessionCall =
    | RegisterIncludes(includes: Value)
    | TrackEntity(entityType: Option<TypeName>, id: Option<string>, document: map<string, Value>,
                  metadata: Value, disableTracking: bool)
    | RegisterMissingIncludes(results: seq<Value>, includes: Value, includedPaths: seq<string>)

  const MetadataKey: string := "@metadata"
  const MetadataId: string := "@id"
  const MetadataProjection: string := "@projection"

  const PageSizeNotSet: Error := Error(InvalidOperationException,
    "Attempt to query without explicitly specifying a page size. " +
    "You can use .take() methods to set maximum number of results. " +
    "By default the page size is set to Integer.MAX_VALUE and can cause severe performance degradation.")

  const UnreadableJson: Error := Error(RavenException, "Unable to read json.")

  // ------------------------------------------------------------ acceptance

  /** `_assertPageSizeSet`: a query must set its page size when the conventions demand it. */
  function AssertPageSizeSet(throwIfPageSizeNotSet: bool, pageSizeSet: bool): (o: Outcome<Error>)
    ensures o.Fail? <==> throwIfPageSizeNotSet && !pageSizeSet
    ensures o.Fail? ==> o.error.kind == InvalidOperationException
  {
    if !throwIfPageSizeNotSet then Pass
    else if pageSizeSet then Pass
    else Fail(PageSizeNotSet)
  }

  /**
   * `ensureIsAcceptable`: a stale result is refused only when the query waits for
   * non-stale results; `elapsed` is the rendered duration of the stopwatch.
   */
  function EnsureIsAcceptable(result: QueryResult, waitForNonStaleResults: bool, elapsed: string): (o: Outcome<Error>)
    ensures o.Fail? <==> waitForNonStaleResults && result.isStale
    ensures o.Fail? ==>
      (o.error.kind == TimeoutException &&
       o.error.message == "Waited for " + elapsed + " for the query to return non stale result.")
  {
    if waitForNonStaleResults && result.isStale then
      Fail(Error(TimeoutException, "Waited for " + elapsed + " for the query to return non stale result."))
    else Pass
  }

  /** The checks of `ensureIsAcceptableAndSaveResult`: an absent result means the index does not exist. */
  function AcceptResult(result: Option<QueryResult>, indexName: string, waitForNonStaleResults: bool, elapsed: string)
    : (o: Outcome<Error>)
    ensures result.None? ==> o == Fail(Error(IndexDoesNotExistException, "Could not find index " + indexName + "."))
    ensures result.Some? ==> o == EnsureIsAcceptable(result.value, waitForNonStaleResults, elapsed)
    ensures o.Pass? <==> result.Some? && !(waitForNonStaleResults && result.value.isStale)
  {
    if result.None? then Fail(Error(IndexDoesNotExistException, "Could not find index " + indexName + "."))
    else EnsureIsAcceptable(result.value, waitForNonStaleResults, elapsed)
  }

  // ----------------------------------------------------------- deserialize

  /** The id `complete` passes on: metadata `@id` when it is a non-empty string, otherwise null. */
  function IdOf(idNode: Value): (id: Option<string>)
    ensures id.Some? <==> idNode.Str? && idNode.s != ""
    ensures id.Some? ==> id.value == idNode.s
  {
    if Truthy(idNode) && idNode.Str? then Some(idNode.s) else None
  }

  /** Whether the single-field rule applies: exactly one projection, and no type requested. */
  predicate SingleFieldApplies(fieldsToFetch: Option<FieldsToFetchToken>, clazz: Option<TypeName>) {
    fieldsToFetch.Some? && fieldsToFetch.value.projections.Some? &&
    |fieldsToFetch.value.projections.value| == 1 && clazz.None?
  }

  /** Whether the token lists projections (an empty list still counts: an array is truthy). */
  predicate HasProjections(fieldsToFetch: Option<FieldsToFetchToken>) {
    fieldsToFetch.Some? && fieldsToFetch.value.projections.Some?
  }

  /**
   * Where the single-field rule leaves `deserialize`: either it returns a value
   * at once, or it goes on to build the projection from `document`, which is the
   * nested object when `substituted`.
   */
  datatype Step = Return(value: Value) | Build(document: map<string, Value>, substituted: bool)

  /**
   * The single-field rule of `deserialize`: with exactly one projection and no
   * type, a primitive field is returned at once, a missing one as null, and an
   * object field may replace the document.
   */
  function SingleField(document: map<string, Value>, fieldsToFetch: Option<FieldsToFetchToken>, clazz: Option<TypeName>)
    : (s: Step)
    ensures !SingleFieldApplies(fieldsToFetch, clazz) ==> s == Build(document, false)
    ensures s.Return? ==> SingleFieldApplies(fieldsToFetch, clazz)
    ensures s.Build? && !s.substituted ==> s.document == document
  {
    if SingleFieldApplies(fieldsToFetch, clazz) then
      var projectField := fieldsToFetch.value.projections.value[0];
      var jsonNode := Get(document, projectField);
      if !IsNullOrUndefined(jsonNode) && IsPrimitive(jsonNode) then
        Return(if Truthy(jsonNode) then jsonNode else Null)
      else if IsNullOrUndefined(jsonNode) then
        Return(Null)
      else
        var fetched := fieldsToFetch.value.fieldsToFetch;
        // `fieldsToFetch[0]` of an empty list is undefined, which equals no field name
        if fetched.Some? && |fetched.value| > 0 && fetched.value[0] == projectField && jsonNode.Obj? then
          Build(jsonNode.fields, true)
        else
          Build(document, false)
    else
      Build(document, false)
  }

  /** The single-field rule, case by case. */
  lemma SingleFieldCases(document: map<string, Value>, fieldsToFetch: Option<FieldsToFetchToken>, clazz: Option<TypeName>)
    requires SingleFieldApplies(fieldsToFetch, clazz)
    ensures var field := fieldsToFetch.value.projections.value[0];
      var node := Get(document, field);
      var fetched := fieldsToFetch.value.fieldsToFetch;
      var s := SingleField(document, fieldsToFetch, clazz);
      (IsPrimitive(node) && Truthy(node) ==> s == Return(node)) &&
      (!Truthy(node) ==> s == Return(Null)) &&
      (node.Obj? ==> s.Build?) &&
      (node.Obj? && fetched.Some? && |fetched.value| > 0 && fetched.value[0] == field ==>
        s == Build(node.fields, true)) &&
      (node.Obj? && !(fetched.Some? && |fetched.value| > 0 && fetched.value[0] == field) ==>
        s == Build(document, false))
  {
  }

  /** `new projType()` when the type resolves, `{}` otherwise. */
  function Instance(conventions: Conventions, clazz: Option<TypeName>): map<string, Value> {
    var projType := conventions.findEntityType(clazz);
    if projType.Some? then conventions.instantiate(projType.value) else map[]
  }

  /** The keys of a projection list. */
  function KeySet(keys: seq<string>): set<string> {
    set k | k in keys
  }

  /**
   * `projections.reduce((reduced, key) => { reduced[key] = raw[key]; ... }, acc)`:
   * every projected key is set — to `undefined` when the document lacks it — and
   * the other properties of `acc` are kept.
   */
  function Project(keys: seq<string>, raw: map<string, Value>, acc: map<string, Value>): (r: map<string, Value>)
    ensures r.Keys == acc.Keys + KeySet(keys)
    ensures forall k :: k in keys ==> r[k] == Get(raw, k)
    ensures forall k :: k in acc && k !in keys ==> r[k] == acc[k]
    decreases |keys|
  {
    if keys == [] then acc
    else
      var r := Project(keys[1..], raw, acc[keys[0] := Get(raw, keys[0])]);
      assert KeySet(keys) == {keys[0]} + KeySet(keys[1..]) by {
        forall k | k in keys ensures k == keys[0] || k in keys[1..] {
          var i :| 0 <= i < |keys| && keys[i] == k;
          if i > 0 { assert keys[1..][i - 1] == k; }
        }
      }
      r
  }

  /**
   * The identity back-fill of `deserialize`: the id the identity is set to, None when
   * `trySetIdentity` is not called. It is called only with a non-empty id and
   * identity property, and only when the document's own value for that property
   * is falsy.
   */
  function Backfill(id: Option<string>, document: map<string, Value>, conventions: Conventions, clazz: Option<TypeName>)
    : (identity: Option<string>)
    ensures identity.Some? <==>
      (Present(id) && Present(conventions.identityProperty(clazz)) &&
       !Truthy(Get(document, conventions.identityProperty(clazz).value)))
    ensures identity.Some? ==> identity == id
  {
    if !Present(id) then None
    else
      var identityProperty := conventions.identityProperty(clazz);
      if !Present(identityProperty) then None
      else if Truthy(Get(document, identityProperty.value)) then None
      else id
  }

  /** Whether `deserialize` takes the tracking branch: `@projection` is null, undefined or `false`. */
  predicate IsUnprojected(projection: Value) {
    IsNullOrUndefined(projection) || projection == Bool(false)
  }

  /**
   * `QueryOperation.deserialize` as written: after the single-field rule has
   * replaced the document by the nested object, the projection list is still
   * applied, to the nested object.
   */
  function DeserializeAsWritten(id: Option<string>, document: map<string, Value>, metadata: Value,
                                fieldsToFetch: Option<FieldsToFetchToken>, disableTracking: bool,
                                conventions: Conventions, clazz: Option<TypeName>): (r: Deserialized)
    requires !IsNullOrUndefined(metadata)
    ensures r.Tracked? <==> IsUnprojected(Member(metadata, MetadataProjection).value)
    ensures r.Tracked? ==> r == Tracked(conventions.findEntityType(clazz), id, document, metadata, disableTracking)
    ensures r.Scalar? ==> SingleFieldApplies(fieldsToFetch, clazz)
    ensures !IsUnprojected(Member(metadata, MetadataProjection).value) && SingleField(document, fieldsToFetch, clazz).Return? ==>
      r == Scalar(SingleField(document, fieldsToFetch, clazz).value)
    ensures r.Projected? ==> r.entityType == conventions.findEntityType(clazz)
  {
    var projection := Member(metadata, MetadataProjection).value;
    if IsUnprojected(projection) then
      Tracked(conventions.findEntityType(clazz), id, document, metadata, disableTracking)
    else
      match SingleField(document, fieldsToFetch, clazz)
      case Return(v) => Scalar(v)
      case Build(doc, _) =>
        var fields :=
          if HasProjections(fieldsToFetch) then Project(fieldsToFetch.value.projections.value, doc, Instance(conventions, clazz))
          else Instance(conventions, clazz) + doc;
        Projected(conventions.findEntityType(clazz), fields, Backfill(id, doc, conventions, clazz))
  }

  /**
   * `QueryOperation.deserialize` with the nested object returned whole once it
   * replaced the document; otherwise as written.
   */
  function Deserialize(id: Option<string>, document: map<string, Value>, metadata: Value,
                       fieldsToFetch: Option<FieldsToFetchToken>, disableTracking: bool,
                       conventions: Conventions, clazz: Option<TypeName>): (r: Deserialized)
    requires !IsNullOrUndefined(metadata)
    ensures r.Tracked? <==> IsUnprojected(Member(metadata, MetadataProjection).value)
    ensures r.Tracked? ==> r == Tracked(conventions.findEntityType(clazz), id, document, metadata, disableTracking)
    ensures r.Scalar? ==> SingleFieldApplies(fieldsToFetch, clazz)
    ensures !IsUnprojected(Member(metadata, MetadataProjection).value) && SingleField(document, fieldsToFetch, clazz).Return? ==>
      r == Scalar(SingleField(document, fieldsToFetch, clazz).value)
    ensures r.Projected? ==> r.entityType == conventions.findEntityType(clazz)
  {
    var projection := Member(metadata, MetadataProjection).value;
    if IsUnprojected(projection) then
      Tracked(conventions.findEntityType(clazz), id, document, metadata, disableTracking)
    else
      match SingleField(document, fieldsToFetch, clazz)
      case Return(v) => Scalar(v)
      case Build(doc, substituted) =>
        var fields :=
          if HasProjections(fieldsToFetch) && !substituted then
            Project(fieldsToFetch.value.projections.value, doc, Instance(conventions, clazz))
          else Instance(conventions, clazz) + doc;
        Projected(conventions.findEntityType(clazz), fields, Backfill(id, doc, conventions, clazz))
  }

  /**
   * When the single-field rule neither returns nor substitutes, the result of
   * both definitions holds, with a projection list, the instance's own
   * properties and exactly the projected keys, each copied from the document;
   * without a list it is a full copy of the document.
   */
  lemma DeserializeProjects(id: Option<string>, document: map<string, Value>, metadata: Value,
                            fieldsToFetch: Option<FieldsToFetchToken>, disableTracking: bool,
                            conventions: Conventions, clazz: Option<TypeName>)
    requires !IsNullOrUndefined(metadata)
    requires !IsUnprojected(Member(metadata, MetadataProjection).value)
    requires SingleField(document, fieldsToFetch, clazz) == Build(document, false)
    ensures var r := DeserializeAsWritten(id, document, metadata, fieldsToFetch, disableTracking, conventions, clazz);
      var instance := Instance(conventions, clazz);
      r == Deserialize(id, document, metadata, fieldsToFetch, disableTracking, conventions, clazz) &&
      r.Projected? &&
      (HasProjections(fieldsToFetch) ==>
        r.fields.Keys == instance.Keys + KeySet(fieldsToFetch.value.projections.value) &&
        forall k :: k in fieldsToFetch.value.projections.value ==> r.fields[k] == Get(document, k)) &&
      (!HasProjections(fieldsToFetch) ==> r.fields == instance + document)
  {
  }

  /**
   * As written, the projection list is applied to whatever document the
   * single-field rule hands on, a substituted nested object included: with a
   * list the result holds the instance's own properties and exactly the
   * projected keys, each read from that document; without one it is a full
   * copy of that document.
   */
  lemma DeserializeAsWrittenProjects(id: Option<string>, document: map<string, Value>, metadata: Value,
                                     fieldsToFetch: Option<FieldsToFetchToken>, disableTracking: bool,
                                     conventions: Conventions, clazz: Option<TypeName>)
    requires !IsNullOrUndefined(metadata)
    requires !IsUnprojected(Member(metadata, MetadataProjection).value)
    requires SingleField(document, fieldsToFetch, clazz).Build?
    ensures var r := DeserializeAsWritten(id, document, metadata, fieldsToFetch, disableTracking, conventions, clazz);
      var doc := SingleField(document, fieldsToFetch, clazz).document;
      var instance := Instance(conventions, clazz);
      r.Projected? &&
      (HasProjections(fieldsToFetch) ==>
        r.fields.Keys == instance.Keys + KeySet(fieldsToFetch.value.projections.value) &&
        forall k :: k in fieldsToFetch.value.projections.value ==> r.fields[k] == Get(doc, k)) &&
      (!HasProjections(fieldsToFetch) ==> r.fields == instance + doc)
  {
  }

  /**
   * A nested object that the single-field rule substitutes becomes the result:
   * its properties are all kept, under their own names.
   */
  lemma DeserializeKeepsSubstitutedObject(id: Option<string>, document: map<string, Value>, metadata: Value,
                                          fieldsToFetch: Option<FieldsToFetchToken>, disableTracking: bool,
                                          conventions: Conventions, clazz: Option<TypeName>)
    requires !IsNullOrUndefined(metadata)
    requires !IsUnprojected(Member(metadata, MetadataProjection).value)
    requires SingleField(document, fieldsToFetch, clazz).Build? && SingleField(document, fieldsToFetch, clazz).substituted
    ensures var r := Deserialize(id, document, metadata, fieldsToFetch, disableTracking, conventions, clazz);
      var inner := SingleField(document, fieldsToFetch, clazz).document;
      r.Projected? && r.fields == Instance(conventions, clazz) + inner &&
      inner == Get(document, fieldsToFetch.value.projections.value[0]).fields
  {
  }

  /**
   * In both definitions, the identity is back-filled only with a non-empty id,
   * and never over a truthy value the (possibly substituted) document already
   * holds for the identity property.
   */
  lemma DeserializeNeverOverwritesIdentity(id: Option<string>, document: map<string, Value>, metadata: Value,
                                           fieldsToFetch: Option<FieldsToFetchToken>, disableTracking: bool,
                                           conventions: Conventions, clazz: Option<TypeName>)
    requires !IsNullOrUndefined(metadata)
    ensures var r := DeserializeAsWritten(id, document, metadata, fieldsToFetch, disableTracking, conventions, clazz);
      var property := conventions.identityProperty(clazz);
      r.Projected? ==>
        var doc := SingleField(document, fieldsToFetch, clazz).document;
        (r.identity.Some? <==> Present(id) && Present(property) && !Truthy(Get(doc, property.value))) &&
        (r.identity.Some? ==> r.identity == id)
    ensures var r := Deserialize(id, document, metadata, fieldsToFetch, disableTracking, conventions, clazz);
      var property := conventions.identityProperty(clazz);
      r.Projected? ==>
        var doc := SingleField(document, fieldsToFetch, clazz).document;
        (r.identity.Some? <==> Present(id) && Present(property) && !Truthy(Get(doc, property.value))) &&
        (r.identity.Some? ==> r.identity == id)
  {
  }

  /** The two definitions differ only where the nested object was substituted. */
  lemma DeserializeAgreesUnlessSubstituted(id: Option<string>, document: map<string, Value>, metadata: Value,
                                           fieldsToFetch: Option<FieldsToFetchToken>, disableTracking: bool,
                                           conventions: Conventions, clazz: Option<TypeName>)
    requires !IsNullOrUndefined(metadata)
    requires !(SingleField(document, fieldsToFetch, clazz).Build? && SingleField(document, fieldsToFetch, clazz).substituted)
    ensures DeserializeAsWritten(id, document, metadata, fieldsToFetch, disableTracking, conventions, clazz) ==
            Deserialize(id, document, metadata, fieldsToFetch, disableTracking, conventions, clazz)
  {
  }

  /**
   * Selecting the single object field `address`: as written, the substituted
   * object `{city: "X"}` is projected on `address`, which it lacks, so the
   * caller gets `{address: undefined}`; the corrected definition returns the object.
   */
  lemma SubstitutedObjectLost(conventions: Conventions)
    requires conventions.findEntityType(None).None?
    ensures var inner := map["city" := Str("X")];
      var document := map["address" := Obj(inner)];
      var metadata := Obj(map[MetadataProjection := Bool(true)]);
      var token := Some(FieldsToFetchToken(Some(["address"]), Some(["address"])));
      DeserializeAsWritten(None, document, metadata, token, false, conventions, None) ==
        Projected(None, map["address" := Undefined], None) &&
      Deserialize(None, document, metadata, token, false, conventions, None) ==
        Projected(None, inner, None)
  {
  }

  /**
   * Under the single-field rule, in both definitions, a truthy primitive field is
   * returned as it is and a falsy, null or absent one as null.
   */
  lemma DeserializeSingleFieldScalar(id: Option<string>, document: map<string, Value>, metadata: Value,
                                     fieldsToFetch: Option<FieldsToFetchToken>, disableTracking: bool,
                                     conventions: Conventions, clazz: Option<TypeName>)
    requires !IsNullOrUndefined(metadata)
    requires !IsUnprojected(Member(metadata, MetadataProjection).value)
    requires SingleFieldApplies(fieldsToFetch, clazz)
    ensures var node := Get(document, fieldsToFetch.value.projections.value[0]);
      var written := DeserializeAsWritten(id, document, metadata, fieldsToFetch, disableTracking, conventions, clazz);
      var corrected := Deserialize(id, document, metadata, fieldsToFetch, disableTracking, conventions, clazz);
      (IsPrimitive(node) && Truthy(node) ==> written == Scalar(node) && corrected == Scalar(node)) &&
      (!Truthy(node) ==> written == Scalar(Null) && corrected == Scalar(Null))
  {
    SingleFieldCases(document, fieldsToFetch, clazz);
  }

  /** A projection of the one field `name` out of `{name: "Arek", age: 30}` reads as the string itself. */
  lemma SingleFieldProjectionReadsValue(conventions: Conventions)
    ensures var metadata := Obj(map[MetadataProjection := Bool(true)]);
      var hit := Obj(map["name" := Str("Arek"), "age" := Num(30), MetadataKey := metadata]);
      var token := Some(FieldsToFetchToken(Some(["name"]), Some(["name"])));
      ReadHit(hit, token, false, conventions, None) == Success(Scalar(Str("Arek")))
  {
    var metadata := Obj(map[MetadataProjection := Bool(true)]);
    var hit := Obj(map["name" := Str("Arek"), "age" := Num(30), MetadataKey := metadata]);
    var token := Some(FieldsToFetchToken(Some(["name"]), Some(["name"])));
    assert Get(hit.fields, MetadataKey) == metadata;
    SingleFieldCases(hit.fields, token, None);
  }

  /**
   * One entry of `results` inside `complete`'s loop: reading `@metadata` of a
   * null entry, or `@id` of missing metadata, throws a TypeError; otherwise the
   * entry is deserialized, by `deserialize` as written, with the id `IdOf` extracts.
   */
  function ReadHit(hit: Value, fieldsToFetch: Option<FieldsToFetchToken>, disableTracking: bool,
                   conventions: Conventions, clazz: Option<TypeName>): (r: Result<Deserialized, Error>)
    ensures r.Failure? <==> !hit.Obj? || IsNullOrUndefined(Get(hit.fields, MetadataKey))
    ensures r.Failure? ==> r.error.kind == TypeError
    ensures r.Success? ==> (
      var metadata := Get(hit.fields, MetadataKey);
      r.value == DeserializeAsWritten(IdOf(Member(metadata, MetadataId).value), hit.fields, metadata,
                                      fieldsToFetch, disableTracking, conventions, clazz))
  {
    // a primitive entry reads its metadata as undefined, whose `@id` then throws
    if !hit.Obj? then Failure(Error(TypeError, "Cannot read properties of undefined"))
    else
      var metadata := Get(hit.fields, MetadataKey);
      match Member(metadata, MetadataId)
      case None => Failure(Error(TypeError, "Cannot read properties of undefined"))
      case Some(idNode) =>
        Success(DeserializeAsWritten(IdOf(idNode), hit.fields, metadata, fieldsToFetch, disableTracking, conventions, clazz))
  }

  /**
   * An entry whose single projected object is not substituted reads the same
   * under the corrected `Deserialize`.
   */
  lemma ReadHitAgreesUnlessSubstituted(hit: Value, fieldsToFetch: Option<FieldsToFetchToken>, disableTracking: bool,
                                       conventions: Conventions, clazz: Option<TypeName>)
    requires hit.Obj? && !IsNullOrUndefined(Get(hit.fields, MetadataKey))
    requires !(SingleField(hit.fields, fieldsToFetch, clazz).Build? && SingleField(hit.fields, fieldsToFetch, clazz).substituted)
    ensures var metadata := Get(hit.fields, MetadataKey);
      ReadHit(hit, fieldsToFetch, disableTracking, conventions, clazz) ==
        Success(Deserialize(IdOf(Member(metadata, MetadataId).value), hit.fields, metadata,
                            fieldsToFetch, disableTracking, conventions, clazz))
  {
    var metadata := Get(hit.fields, MetadataKey);
    DeserializeAgreesUnlessSubstituted(IdOf(Member(metadata, MetadataId).value), hit.fields, metadata,
                                       fieldsToFetch, disableTracking, conventions, clazz);
  }

  /**
   * The values of the entries `complete`'s loop gets through: those before the
   * first entry that cannot be read (all of them when every entry can be read).
   */
  function LeadingHits(results: seq<Value>, fieldsToFetch: Option<FieldsToFetchToken>, disableTracking: bool,
                       conventions: Conventions, clazz: Option<TypeName>): (hits: seq<Deserialized>)
    ensures |hits| <= |results|
    ensures forall j :: 0 <= j < |hits| ==>
      ReadHit(results[j], fieldsToFetch, disableTracking, conventions, clazz) == Success(hits[j])
    ensures |hits| < |results| ==> ReadHit(results[|hits|], fieldsToFetch, disableTracking, conventions, clazz).Failure?
  {
    if results == [] then []
    else
      match ReadHit(results[0], fieldsToFetch, disableTracking, conventions, clazz)
      case Failure(_) => []
      case Success(v) =>
        var rest := LeadingHits(results[1..], fieldsToFetch, disableTracking, conventions, clazz);
        [v] + rest
  }

  /** A readable prefix that ends at the first unreadable entry, or at the end, is `LeadingHits`. */
  lemma {:induction false} LeadingHitsUnique(results: seq<Value>, hits: seq<Deserialized>,
                                             fieldsToFetch: Option<FieldsToFetchToken>, disableTracking: bool,
                                             conventions: Conventions, clazz: Option<TypeName>)
    requires |hits| <= |results|
    requires forall j :: 0 <= j < |hits| ==>
      ReadHit(results[j], fieldsToFetch, disableTracking, conventions, clazz) == Success(hits[j])
    requires |hits| < |results| ==> ReadHit(results[|hits|], fieldsToFetch, disableTracking, conventions, clazz).Failure?
    ensures LeadingHits(results, fieldsToFetch, disableTracking, conventions, clazz) == hits
  {
    if results != [] && hits != [] {
      var rest, tail := results[1..], hits[1..];
      assert ReadHit(results[0], fieldsToFetch, disableTracking, conventions, clazz) == Success(hits[0]);
      forall j | 0 <= j < |tail|
        ensures ReadHit(rest[j], fieldsToFetch, disableTracking, conventions, clazz) == Success(tail[j])
      {
        assert rest[j] == results[j + 1] && tail[j] == hits[j + 1];
      }
      if |tail| < |rest| {
        assert rest[|tail|] == results[|hits|];
      }
      LeadingHitsUnique(rest, tail, fieldsToFetch, disableTracking, conventions, clazz);
      assert hits == [hits[0]] + tail;
    }
  }

  /** The `trackEntity` calls that deserializing `values` made, in order. */
  function TrackCalls(values: seq<Deserialized>): seq<SessionCall> {
    if values == [] then []
    else
      var last := values[|values| - 1];
      TrackCalls(values[..|values| - 1]) +
        (if last.Tracked? then [TrackEntity(last.entityType, last.id, last.document, last.metadata, last.disableTracking)]
         else [])
  }

  /** Deserializing one more value adds its `trackEntity` call, if it has one, at the end. */
  lemma TrackCallsSnoc(values: seq<Deserialized>, v: Deserialized)
    ensures TrackCalls(values + [v]) ==
      TrackCalls(values) + (if v.Tracked? then [TrackEntity(v.entityType, v.id, v.document, v.metadata, v.disableTracking)] else [])
  {
    assert (values + [v])[..|values|] == values;
  }

  /**
   * The loop of `complete`: the entries are read in order until one cannot be
   * read, which ends the loop with a RavenException; every tracked value read
   * on the way has made its `trackEntity` call.
   */
  method ReadResults(results: seq<Value>, fieldsToFetch: Option<FieldsToFetchToken>, disableTracking: bool,
                     conventions: Conventions, clazz: Option<TypeName>)
    returns (r: Result<seq<Deserialized>, Error>, tracked: seq<SessionCall>)
    ensures var hits := LeadingHits(results, fieldsToFetch, disableTracking, conventions, clazz);
      tracked == TrackCalls(hits) &&
      (r.Failure? <==> |hits| < |results|) &&
      (r.Failure? ==> r.error == UnreadableJson) &&
      (r.Success? ==> r.value == hits)
  {
    var list: seq<Deserialized> := [];
    tracked := [];
    var i := 0;
    while i < |results|
      invariant 0 <= i <= |results|
      invariant |list| == i
      invariant forall j :: 0 <= j < i ==>
        ReadHit(results[j], fieldsToFetch, disableTracking, conventions, clazz) == Success(list[j])
      invariant tracked == TrackCalls(list)
    {
      var hit := ReadHit(results[i], fieldsToFetch, disableTracking, conventions, clazz);
      if hit.Failure? {
        LeadingHitsUnique(results, list, fieldsToFetch, disableTracking, conventions, clazz);
        return Failure(UnreadableJson), tracked;
      }
      var value := hit.value;
      if value.Tracked? {
        tracked := tracked + [TrackEntity(value.entityType, value.id, value.document, value.metadata, value.disableTracking)];
      }
      TrackCallsSnoc(list, value);
      list := list + [value];
      i := i + 1;
    }
    LeadingHitsUnique(results, list, fieldsToFetch, disableTracking, conventions, clazz);
    r := Success(list);
  }

  // -------------------------------------------------------------- operation

  class QueryOperation {
    const indexName: string
    const indexQuery: IndexQuery
    const fieldsToFetch: Option<FieldsToFetchToken>
    const metadataOnly: bool
    const indexEntriesOnly: bool
    /** The session's conventions. */
    const conventions: Conventions
    var disableEntitiesTracking: bool
    var currentQueryResults: Option<QueryResult>

    constructor (conventions: Conventions, indexName: string, indexQuery: IndexQuery,
                 fieldsToFetch: Option<FieldsToFetchToken>, disableEntitiesTracking: bool,
                 metadataOnly: bool, indexEntriesOnly: bool)
      requires AssertPageSizeSet(conventions.throwIfQueryPageSizeIsNotSet, indexQuery.pageSizeSet).Pass?
      ensures this.conventions == conventions && this.indexName == indexName && this.indexQuery == indexQuery
      ensures this.fieldsToFetch == fieldsToFetch && this.disableEntitiesTracking == disableEntitiesTracking
      ensures this.metadataOnly == metadataOnly && this.indexEntriesOnly == indexEntriesOnly
      ensures currentQueryResults.None?
    {
      this.conventions := conventions;
      this.indexName := indexName;
      this.indexQuery := indexQuery;
      this.fieldsToFetch := fieldsToFetch;
      this.disableEntitiesTracking := disableEntitiesTracking;
      this.metadataOnly := metadataOnly;
      this.indexEntriesOnly := indexEntriesOnly;
      this.currentQueryResults := None;
    }

    /** `new QueryOperation(...)`: throws exactly when the page size is demanded and not set. */
    static method Create(conventions: Conventions, indexName: string, indexQuery: IndexQuery,
                         fieldsToFetch: Option<FieldsToFetchToken>, disableEntitiesTracking: bool,
                         metadataOnly: bool, indexEntriesOnly: bool)
      returns (r: Result<QueryOperation, Error>)
      ensures r.Failure? <==> conventions.throwIfQueryPageSizeIsNotSet && !indexQuery.pageSizeSet
      ensures r.Failure? ==> r.error == PageSizeNotSet
      ensures r.Success? ==> (fresh(r.value) && r.value.indexQuery == indexQuery && r.value.conventions == conventions &&
        r.value.fieldsToFetch == fieldsToFetch && r.value.disableEntitiesTracking == disableEntitiesTracking &&
        r.value.indexName == indexName && r.value.metadataOnly == metadataOnly &&
        r.value.indexEntriesOnly == indexEntriesOnly && r.value.currentQueryResults.None?)
    {
      var check := AssertPageSizeSet(conventions.throwIfQueryPageSizeIsNotSet, indexQuery.pageSizeSet);
      if check.Fail? {
        r := Failure(check.error);
      } else {
        var op := new QueryOperation(conventions, indexName, indexQuery, fieldsToFetch,
                                     disableEntitiesTracking, metadataOnly, indexEntriesOnly);
        r := Success(op);
      }
    }

    /**
     * `setResult` / `ensureIsAcceptableAndSaveResult`: a refused result leaves the
     * current results as they were; an accepted one is saved as it is, so a stale
     * result that is accepted is still marked stale.
     */
    method SetResult(result: Option<QueryResult>, elapsed: string) returns (outcome: Outcome<Error>)
      modifies this`currentQueryResults
      ensures outcome == AcceptResult(result, indexName, indexQuery.waitForNonStaleResults, elapsed)
      ensures outcome.Fail? ==> currentQueryResults == old(currentQueryResults)
      ensures outcome.Pass? ==> currentQueryResults == result
    {
      if result.None? {
        return Fail(Error(IndexDoesNotExistException, "Could not find index " + indexName + "."));
      }
      outcome := EnsureIsAcceptable(result.value, indexQuery.waitForNonStaleResults, elapsed);
      if outcome.Fail? {
        return;
      }
      currentQueryResults := result;
    }

    method SetDisableEntitiesTracking(on: bool)
      modifies this`disableEntitiesTracking
      ensures disableEntitiesTracking == on
    {
      disableEntitiesTracking := on;
    }

    /**
     * `complete`: one deserialized value per entry of the current results, in
     * their order, or — if any entry cannot be read — a RavenException and no
     * list at all. The session sees, in order: the includes registered (with
     * tracking on), one `trackEntity` call per tracked entry the loop got
     * through — also those before an entry that fails, which stay tracked —
     * and the missing includes registered (with tracking on, and only when the
     * loop finished).
     */
    method Complete(clazz: Option<TypeName>) returns (r: Result<seq<Deserialized>, Error>, calls: seq<SessionCall>)
      requires currentQueryResults.Some?
      ensures var results := currentQueryResults.value.results;
        r.Failure? <==>
          (exists j :: 0 <= j < |results| &&
             ReadHit(results[j], fieldsToFetch, disableEntitiesTracking, conventions, clazz).Failure?)
      ensures r.Failure? ==> r.error == UnreadableJson
      ensures var results := currentQueryResults.value.results;
        r.Success? ==> |r.value| == |results| && forall j :: 0 <= j < |results| ==>
          ReadHit(results[j], fieldsToFetch, disableEntitiesTracking, conventions, clazz) == Success(r.value[j])
      ensures var q := currentQueryResults.value;
        var hits := LeadingHits(q.results, fieldsToFetch, disableEntitiesTracking, conventions, clazz);
        calls == (if disableEntitiesTracking then [] else [RegisterIncludes(q.includes)]) +
                 TrackCalls(hits) +
                 (if !disableEntitiesTracking && r.Success?
                  then [RegisterMissingIncludes(q.results, q.includes, q.includedPaths)] else [])
    {
      var queryResult := currentQueryResults.value;
      var registered := if disableEntitiesTracking then [] else [RegisterIncludes(queryResult.includes)];
      var tracked;
      r, tracked := ReadResults(queryResult.results, fieldsToFetch, disableEntitiesTracking, conventions, clazz);
      var missing := if disableEntitiesTracking || r.Failure? then []
                     else [RegisterMissingIncludes(queryResult.results, queryResult.includes, queryResult.includedPaths)];
      calls := registered + tracked + missing;
    }
  }
}
