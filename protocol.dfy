/**
 * What every protocol command shares: the target node, the request description
 * a command builds, the named errors it throws, and the foreign collaborators
 * (URI encoding, JSON deserialization, key casing, the conventions object)
 * that the commands call but that are not part of this model. Each collaborator
 * is a field of function type, so the model treats it as an uninterpreted
 * function.
 */
module Protocol {
  import opened Wrappers
  import opened Json

  /** The node a command is sent to. */
  datatype ServerNode = ServerNode(url: string, database: string)

  datatype HttpMethod = GET | PUT | POST | PATCH

  /**
   * The request headers the commands set: the JSON content type, and the
   * change vector that the optimistic-concurrency header carries (None: the
   * header is absent and the write is unconditional).
   */
  datatype Headers = Headers(jsonContentType: bool, changeVector: Option<string>)

  /**
   * `_addChangeVectorIfNotNull`: the change-vector header is attached exactly
   * when the change vector is non-null, and carries it unchanged.
   */
  function WithChangeVector(h: Headers, changeVector: Option<string>): (r: Headers)
    ensures r.jsonContentType == h.jsonContentType
    ensures changeVector.Some? ==> r.changeVector == changeVector
    ensures changeVector.None? ==> r.changeVector == h.changeVector
  {
    if changeVector.Some? then h.(changeVector := changeVector) else h
  }

  /** The headers `_getHeaders().withContentTypeJson().build()` yields. */
  const JsonHeaders: Headers := Headers(true, None)

  /**
   * A request description. `body` is the JSON value handed to the serializer;
   * the serializer itself is not modelled.
   */
  datatype HttpRequest = HttpRequest(verb: HttpMethod, uri: string, headers: Headers, body: Value)

  /** `node.url + "/databases/" + node.database`, the prefix of every database-scoped URI. */
  function DatabaseUri(node: ServerNode): string {
    node.url + "/databases/" + node.database
  }

  /** The exception names the core throws. */
  datatype ErrorKind =
    | InvalidArgumentException
    | InvalidOperationException
    | IndexDoesNotExistException
    | TimeoutException
    | RavenException
    | InvalidResponse          // RavenCommand._throwInvalidResponse
    | ErrorResponseException
    | TypeError                // the runtime error of calling a method on null

  datatype Error = Error(kind: ErrorKind, message: string)

  /** Foreign codec functions. */
  datatype Codec = Codec(
    encodeUriComponent: string -> string,
    deserialize: string -> Value,
    camelCase: Value -> Value)

  /** A type a caller passes to the session (`DocumentType`), by name. */
  type TypeName = string

  /** What `getEntityTypeDescriptor` returns; `TypeUtil.isClass` tells the two apart. */
  datatype TypeDescriptor = ClassType(name: TypeName) | ObjectLiteralType(name: TypeName)

  /**
   * The parts of `DocumentConventions` the core consults. `instantiate` gives
   * the properties a freshly constructed instance of a resolved type already
   * has (what `new projType()` sets in its constructor).
   */
  datatype Conventions = Conventions(
    throwIfQueryPageSizeIsNotSet: bool,
    findEntityType: Option<TypeName> -> Option<TypeName>,
    identityProperty: Option<TypeName> -> Option<string>,
    entityTypeDescriptor: Value -> TypeDescriptor,
    instantiate: TypeName -> map<string, Value>)
}
