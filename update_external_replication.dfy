/**
 * The external-replication update operation and its command
 * (src/Documents/Operations/Replication/UpdateExternalReplicationOperation.ts):
 * a POST of `{ watcher }` to the database's external-replication task endpoint,
 * and a response that must not be empty.
 */
module ExternalReplication {
  import opened Wrappers
  import opened Json
  import opened Protocol

  /** The URI of the external-replication task endpoint of the node's database. */
  function TaskUri(node: ServerNode): string {
    DatabaseUri(node) + "/admin/tasks/external-replication"
  }

  /** The error `_throwInvalidResponse` raises (its message is not part of this model). */
  const InvalidResponseError: Error := Error(InvalidResponse, "")

  /**
   * The outcome of `setResponse`: an empty response is an invalid-response
   * error, any other response is deserialized.
   */
  function ParseResponse(response: string, codec: Codec): (r: Result<Value, Error>)
    ensures r.Failure? <==> response == ""
    ensures r.Failure? ==> r.error.kind == InvalidResponse
    ensures r.Success? ==> r.value == codec.deserialize(response)
  {
    if response == "" then Failure(InvalidResponseError) else Success(codec.deserialize(response))
  }

  class UpdateExternalReplicationOperation {
    const resultType: string := "COMMAND_RESULT"

    const newWatcher: Value

    constructor (newWatcher: Value)
      ensures this.newWatcher == newWatcher
    {
      this.newWatcher := newWatcher;
    }

    /** `getCommand`: the conventions are ignored and the watcher forwarded unchanged. */
    method GetCommand(conventions: Option<Conventions>) returns (cmd: UpdateExternalReplicationCommand)
      ensures fresh(cmd) && cmd.newWatcher == newWatcher && cmd.result.None?
    {
      cmd := new UpdateExternalReplicationCommand(newWatcher);
    }
  }

  class UpdateExternalReplicationCommand {
    const isReadRequest: bool := false

    const newWatcher: Value
    var result: Option<Value>

    constructor (newWatcher: Value)
      ensures this.newWatcher == newWatcher && result.None?
    {
      this.newWatcher := newWatcher;
      this.result := None;
    }

    /** `createRequest`: a POST of `{ watcher }` to the task endpoint. */
    function CreateRequest(node: ServerNode): (req: HttpRequest)
      ensures req.verb == POST && req.uri == TaskUri(node) && req.headers == JsonHeaders
      ensures req.body == SingleKey("watcher", newWatcher)
    {
      HttpRequest(POST, TaskUri(node), JsonHeaders, SingleKey("watcher", newWatcher))
    }

    /** `setResponse`: throws on an empty response and leaves the result unset; otherwise stores the deserialized response. */
    method SetResponse(response: string, codec: Codec) returns (outcome: Outcome<Error>)
      modifies this`result
      ensures ParseResponse(response, codec).Failure? ==>
        outcome == Fail(ParseResponse(response, codec).error) && result == old(result)
      ensures ParseResponse(response, codec).Success? ==>
        outcome == Pass && result == Some(ParseResponse(response, codec).value)
    {
      match ParseResponse(response, codec)
      case Failure(e) =>
        outcome := Fail(e);
      case Success(v) =>
        result := Some(v);
        outcome := Pass;
    }
  }
}
