/**
 * The store-document command (src/Documents/Commands/PutDocumentCommand.ts):
 * id and document validation, the PUT of the document as given, the
 * change-vector precondition, and the stored `PutResult`.
 */
module PutDocument {
  import opened Wrappers
  import opened Json
  import opened Protocol

  /** The checks of the constructor, in the source's order; None when both pass. */
  function ArgsError(id: Option<string>, document: Value): (e: Option<Error>)
    ensures e.None? <==> Present(id) && Truthy(document)
    ensures e.Some? ==> e.value.kind == InvalidArgumentException
  {
    if !Present(id) then Some(Error(InvalidArgumentException, "Id cannot be null or undefined."))
    else if !Truthy(document) then Some(Error(InvalidArgumentException, "Document cannot be null or undefined."))
    else None
  }

  /** The URI of a document: `{url}/databases/{database}/docs?id={encodeURIComponent(id)}`. */
  function DocumentUri(node: ServerNode, codec: Codec, id: string): string {
    DatabaseUri(node) + "/docs?id=" + codec.encodeUriComponent(id)
  }

  class PutDocumentCommand {
    const isReadRequest: bool := false

    const id: string
    const changeVector: Option<string>
    const document: Value
    /** The deserialized response, a `PutResult { id, changeVector }`. */
    var result: Option<Value>

    constructor (id: Option<string>, changeVector: Option<string>, document: Value)
      requires ArgsError(id, document).None?
      ensures Some(this.id) == id && this.changeVector == changeVector && this.document == document
      ensures result.None?
    {
      this.id := id.value;
      this.changeVector := changeVector;
      this.document := document;
      this.result := None;
    }

    /** `new PutDocumentCommand(...)`: throws for an empty id or a missing document. */
    static method Create(id: Option<string>, changeVector: Option<string>, document: Value)
      returns (r: Result<PutDocumentCommand, Error>)
      ensures r.Failure? <==> ArgsError(id, document).Some?
      ensures r.Failure? ==> r.error == ArgsError(id, document).value
      ensures r.Success? ==> (fresh(r.value) && Some(r.value.id) == id && r.value.changeVector == changeVector &&
        r.value.document == document && r.value.result.None?)
    {
      var err := ArgsError(id, document);
      if err.Some? {
        r := Failure(err.value);
      } else {
        var cmd := new PutDocumentCommand(id, changeVector, document);
        r := Success(cmd);
      }
    }

    /**
     * `createRequest`: a PUT of the document, serialized as given, to the
     * document URI; the change vector becomes the request's precondition
     * exactly when it is non-null.
     */
    function CreateRequest(node: ServerNode, codec: Codec): (req: HttpRequest)
      ensures req.verb == PUT && req.uri == DocumentUri(node, codec, id)
      ensures req.body == document
      ensures req.headers.jsonContentType
      ensures req.headers.changeVector == changeVector
    {
      HttpRequest(PUT, DocumentUri(node, codec, id), WithChangeVector(JsonHeaders, changeVector), document)
    }

    /** `setResponse`: the deserialized response becomes the result. */
    method SetResponse(response: string, codec: Codec)
      modifies this`result
      ensures result == Some(codec.deserialize(response))
    {
      result := Some(codec.deserialize(response));
    }
  }

  /**
   * Resolving a conflict, as the replication test does it: a store of the chosen
   * candidate's body with a null change vector. The command is accepted for any
   * chosen body, and its request carries no precondition, so it overwrites
   * whatever revision the server holds.
   */
  method ResolveConflict(id: string, chosen: Value, node: ServerNode, codec: Codec) returns (req: Result<HttpRequest, Error>)
    ensures req.Success? <==> id != "" && Truthy(chosen)
    ensures req.Success? ==> req.value.verb == PUT && req.value.uri == DocumentUri(node, codec, id)
    ensures req.Success? ==> req.value.headers.changeVector.None? && req.value.body == chosen
  {
    var cmd := PutDocumentCommand.Create(Some(id), None, chosen);
    match cmd
    case Failure(e) => req := Failure(e);
    case Success(c) => req := Success(c.CreateRequest(node, codec));
  }
}
