/**
 * The create-database command (src/Database/Commands/CreateDatabaseCommand.ts),
 * written against the older command base class that keeps `endPoint`, `params`
 * and `payload` as fields which `createRequest` assigns.
 */
module CreateDatabase {
  import opened Wrappers
  import opened Json
  import opened Text
  import opened Protocol

  /** The database record: its id (`Raven/Databases/<name>`) and its settings. */
  datatype DatabaseDocument = DatabaseDocument(databaseId: string, settings: map<string, Value>)

  const DatabasesPrefix: string := "Raven/Databases/"
  const DataDirSetting: string := "Raven/DataDir"
  const DataDirMissing: Error := Error(InvalidOperationException, "The Raven/DataDir setting is mandatory")

  /** `databaseId.replace('Raven/Databases/', '')`: the first occurrence of the prefix removed. */
  function DatabaseName(databaseId: string): string {
    ReplaceFirst(databaseId, DatabasesPrefix, "")
  }

  /** An id that starts with the prefix yields what follows it. */
  lemma DatabaseNameStripsPrefix(name: string)
    ensures DatabaseName(DatabasesPrefix + name) == name
  {
  }

  /** An id without the prefix anywhere is used as the name unchanged. */
  lemma DatabaseNameWithoutPrefix(databaseId: string)
    requires forall j: nat :: !OccursAt(databaseId, DatabasesPrefix, j)
    ensures DatabaseName(databaseId) == databaseId
  {
  }

  /**
   * Only the first occurrence is removed, wherever it is: the name is the id
   * with the 16 characters of the first occurrence cut out.
   */
  lemma DatabaseNameCutsFirstOccurrence(databaseId: string, i: nat)
    requires OccursAt(databaseId, DatabasesPrefix, i)
    requires forall j: nat :: j < i ==> !OccursAt(databaseId, DatabasesPrefix, j)
    ensures DatabaseName(databaseId) == databaseId[..i] + databaseId[i + |DatabasesPrefix|..]
  {
  }

  /** A doubled prefix keeps its second copy. */
  lemma DatabaseNameRemovesOnlyOnce(name: string)
    ensures DatabaseName(DatabasesPrefix + DatabasesPrefix + name) == DatabasesPrefix + name
  {
  }

  /**
   * The checks `createRequest` makes before it assigns anything: the stripped
   * name goes to the name validator first, then the settings must hold
   * `Raven/DataDir`.
   */
  function RequestCheck(document: DatabaseDocument, validateDbName: string -> Option<Error>): (o: Outcome<Error>)
    ensures o.Pass? <==> validateDbName(DatabaseName(document.databaseId)).None? && DataDirSetting in document.settings
    ensures validateDbName(DatabaseName(document.databaseId)).Some? ==>
      o == Fail(validateDbName(DatabaseName(document.databaseId)).value)
    ensures validateDbName(DatabaseName(document.databaseId)).None? && DataDirSetting !in document.settings ==>
      o == Fail(DataDirMissing)
  {
    var dbName := DatabaseName(document.databaseId);
    match validateDbName(dbName)
    case Some(e) => Fail(e)
    case None => if DataDirSetting !in document.settings then Fail(DataDirMissing) else Pass
  }

  class CreateDatabaseCommand {
    const verb: HttpMethod
    const databaseDocument: DatabaseDocument
    var endPoint: string
    var params: Option<map<string, string>>
    /** `databaseDocument.toJson()`: the document whose JSON form is sent (toJson is not modelled). */
    var payload: Option<DatabaseDocument>

    /** `super('', RequestMethods.Put)`: an empty endpoint and the PUT method; nothing is validated. */
    constructor (databaseDocument: DatabaseDocument)
      ensures verb == PUT && endPoint == "" && this.databaseDocument == databaseDocument
      ensures params.None? && payload.None?
    {
      verb := PUT;
      endPoint := "";
      this.databaseDocument := databaseDocument;
      params := None;
      payload := None;
    }

    /**
     * `createRequest`: when the checks pass, the name parameter, the endpoint
     * `{url}/admin/databases` and the payload are set; when they fail, nothing is.
     */
    method CreateRequest(node: ServerNode, validateDbName: string -> Option<Error>) returns (outcome: Outcome<Error>)
      modifies this`endPoint, this`params, this`payload
      ensures outcome == RequestCheck(databaseDocument, validateDbName)
      ensures outcome.Fail? ==> endPoint == old(endPoint) && params == old(params) && payload == old(payload)
      ensures outcome.Pass? ==>
        (params == Some(map["name" := DatabaseName(databaseDocument.databaseId)]) &&
         endPoint == node.url + "/admin/databases" && payload == Some(databaseDocument))
    {
      var dbName := DatabaseName(databaseDocument.databaseId);
      var invalid := validateDbName(dbName);
      if invalid.Some? {
        return Fail(invalid.value);
      }
      if DataDirSetting !in databaseDocument.settings {
        return Fail(DataDirMissing);
      }
      params := Some(map["name" := dbName]);
      endPoint := node.url + "/admin/databases";
      payload := Some(databaseDocument);
      outcome := Pass;
    }

    /**
     * `setResponse`: `baseResult` is what the base class's `setResponse` returned;
     * a response without a body is an ErrorResponseException.
     */
    function SetResponse(responseBody: string, baseResult: Value): (r: Result<Value, Error>)
      ensures r.Failure? <==> responseBody == ""
      ensures r.Failure? ==> r.error.kind == ErrorResponseException
      ensures r.Success? ==> r.value == baseResult
    {
      if responseBody == "" then Failure(Error(ErrorResponseException, "Response is invalid.")) else Success(baseResult)
    }
  }
}
