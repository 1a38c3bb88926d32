/**
 * The patch operation and its command (src/Documents/Operations/PatchOperation.ts):
 * eager validation of the patch scripts, the PATCH request with its optional
 * query-string flags and change-vector header, and the camel-cased result.
 */
module Patch {
  import opened Wrappers
  import opened Json
  import opened Text
  import opened Protocol

  /** A patch: the server-side script and its parameter values. */
  datatype PatchRequest = PatchRequest(script: Option<string>, values: map<string, Value>)

  /** The object literal the typed object mapper makes of a patch request (its two properties by name). */
  function PatchLiteral(p: PatchRequest): Value {
    Obj(map["script" := (if p.script.Some? then Str(p.script.value) else Null), "values" := Obj(p.values)])
  }

  /** The command's stored payload: `toObjectLiteral({ patch, patchIfMissing })`. */
  function Payload(patch: PatchRequest, patchIfMissing: Option<PatchRequest>): Value {
    Obj(map["patch" := PatchLiteral(patch),
            "patchIfMissing" := (if patchIfMissing.Some? then PatchLiteral(patchIfMissing.value) else Null)])
  }

  /** The error `patchIfMissing && !patchIfMissing.script.trim()` raises, with the message of the caller. */
  function FallbackScriptError(patchIfMissing: Option<PatchRequest>, message: string): Option<Error> {
    if patchIfMissing.None? then None
    else match patchIfMissing.value.script
      case None => Some(Error(TypeError, "patchIfMissing.script is null"))
      case Some(s) => if Trim(s) == "" then Some(Error(InvalidArgumentException, message)) else None
  }

  /** The checks of `PatchOperation`'s constructor, in the source's order; None when all pass. */
  function OperationArgsError(patch: Option<PatchRequest>, patchIfMissing: Option<PatchRequest>): Option<Error> {
    if patch.None? then Some(Error(InvalidArgumentException, "Patch cannot be null"))
    else if patch.value.script.None? || patch.value.script.value == "" || Trim(patch.value.script.value) == "" then
      Some(Error(InvalidArgumentException, "Patch script cannot be null"))
    else FallbackScriptError(patchIfMissing, "PatchIfMissing script cannot be null")
  }

  /** The checks of `PatchCommand`'s constructor, in the source's order; None when all pass. */
  function CommandArgsError(conventions: Option<Conventions>, id: Option<string>,
                            patch: Option<PatchRequest>, patchIfMissing: Option<PatchRequest>): Option<Error> {
    if conventions.None? then Some(Error(InvalidArgumentException, "Conventions cannot be null"))
    else if patch.None? then Some(Error(InvalidArgumentException, "Patch cannot be null"))
    else if patch.value.script.None? then Some(Error(TypeError, "patch.script is null"))
    else if Trim(patch.value.script.value) == "" then Some(Error(InvalidArgumentException, "Patch.Script cannot be null"))
    else if FallbackScriptError(patchIfMissing, "PatchIfMissing.Script cannot be null").Some? then
      FallbackScriptError(patchIfMissing, "PatchIfMissing.Script cannot be null")
    else if !Present(id) then Some(Error(InvalidArgumentException, "Id cannot be null"))
    else None
  }

  /** A script is usable when it is present and not white space only. */
  predicate UsableScript(script: Option<string>) {
    script.Some? && !IsBlank(script.value)
  }

  /**
   * `PatchOperation` accepts its arguments exactly when the patch is present,
   * its script is usable, and a patchIfMissing, if given, has a usable script.
   */
  lemma OperationArgsAccepted(patch: Option<PatchRequest>, patchIfMissing: Option<PatchRequest>)
    ensures OperationArgsError(patch, patchIfMissing).None? <==>
      patch.Some? && UsableScript(patch.value.script) &&
      (patchIfMissing.None? || UsableScript(patchIfMissing.value.script))
  {
    if patch.Some? && patch.value.script.Some? { TrimEmptyIffBlank(patch.value.script.value); }
    if patchIfMissing.Some? && patchIfMissing.value.script.Some? { TrimEmptyIffBlank(patchIfMissing.value.script.value); }
  }

  /** A null patch, or a main script that is null, empty or white space only, is an InvalidArgumentException. */
  lemma OperationRejectsMissingScript(patch: Option<PatchRequest>, patchIfMissing: Option<PatchRequest>)
    requires patch.None? || !UsableScript(patch.value.script)
    ensures OperationArgsError(patch, patchIfMissing).Some?
    ensures OperationArgsError(patch, patchIfMissing).value.kind == InvalidArgumentException
  {
  }

  /** With a usable main script, a white-space-only fallback script is an InvalidArgumentException, an absent fallback is accepted. */
  lemma OperationChecksFallback(patch: PatchRequest, patchIfMissing: Option<PatchRequest>)
    requires UsableScript(patch.script)
    ensures patchIfMissing.None? ==> OperationArgsError(Some(patch), patchIfMissing).None?
    ensures patchIfMissing.Some? && patchIfMissing.value.script.Some? && IsBlank(patchIfMissing.value.script.value) ==>
      OperationArgsError(Some(patch), patchIfMissing) ==
        Some(Error(InvalidArgumentException, "PatchIfMissing script cannot be null"))
  {
    TrimEmptyIffBlank(patch.script.value);
    if patchIfMissing.Some? && patchIfMissing.value.script.Some? { TrimEmptyIffBlank(patchIfMissing.value.script.value); }
  }

  /**
   * `PatchCommand` accepts its arguments exactly when conventions and patch are
   * present, both scripts are usable and the id is non-empty.
   */
  lemma CommandArgsAccepted(conventions: Option<Conventions>, id: Option<string>,
                            patch: Option<PatchRequest>, patchIfMissing: Option<PatchRequest>)
    ensures CommandArgsError(conventions, id, patch, patchIfMissing).None? <==>
      conventions.Some? && patch.Some? && UsableScript(patch.value.script) &&
      (patchIfMissing.None? || UsableScript(patchIfMissing.value.script)) && Present(id)
  {
    if patch.Some? && patch.value.script.Some? { TrimEmptyIffBlank(patch.value.script.value); }
    if patchIfMissing.Some? && patchIfMissing.value.script.Some? { TrimEmptyIffBlank(patchIfMissing.value.script.value); }
  }

  /**
   * After `PatchOperation` has accepted its arguments, `getCommand` can fail only
   * for null conventions or an empty id: the operation does not check the id.
   */
  lemma GetCommandFailures(conventions: Option<Conventions>, id: Option<string>,
                           patch: PatchRequest, patchIfMissing: Option<PatchRequest>)
    requires OperationArgsError(Some(patch), patchIfMissing).None?
    ensures CommandArgsError(conventions, id, Some(patch), patchIfMissing) ==
      if conventions.None? then Some(Error(InvalidArgumentException, "Conventions cannot be null"))
      else if !Present(id) then Some(Error(InvalidArgumentException, "Id cannot be null"))
      else None
  {
  }

  const SkipParam: string := "&skipPatchIfChangeVectorMismatch=true"
  const DebugParam: string := "&debug=true"
  const TestParam: string := "&test=true"

  function Flag(on: bool, param: string): string {
    if on then param else ""
  }

  /** The URI of a patch request: the document URI with the three optional flags in fixed order. */
  function PatchUri(node: ServerNode, encodedId: string, skip: bool, debug: bool, test: bool): string {
    DatabaseUri(node) + "/docs?id=" + encodedId + Flag(skip, SkipParam) + Flag(debug, DebugParam) + Flag(test, TestParam)
  }

  /** The query-string flags can be read back from a patch URI: distinct flag settings give distinct URIs. */
  lemma PatchUriDeterminesFlags(node: ServerNode, encodedId: string,
                                skip1: bool, debug1: bool, test1: bool,
                                skip2: bool, debug2: bool, test2: bool)
    requires PatchUri(node, encodedId, skip1, debug1, test1) == PatchUri(node, encodedId, skip2, debug2, test2)
    ensures skip1 == skip2 && debug1 == debug2 && test1 == test2
  {
  }

  /** Every patch URI addresses the document: it starts with the document URI of the id. */
  lemma PatchUriAddressesDocument(node: ServerNode, encodedId: string, skip: bool, debug: bool, test: bool)
    ensures var docUri := DatabaseUri(node) + "/docs?id=" + encodedId;
      var uri := PatchUri(node, encodedId, skip, debug, test);
      |docUri| <= |uri| && uri[..|docUri|] == docUri
  {
  }

  class PatchOperation {
    const resultType: string := "PatchResult"

    const id: Option<string>
    const changeVector: Option<string>
    const patch: PatchRequest
    const patchIfMissing: Option<PatchRequest>
    const skipPatchIfChangeVectorMismatch: bool

    constructor (id: Option<string>, changeVector: Option<string>, patch: PatchRequest,
                 patchIfMissing: Option<PatchRequest>, skipPatchIfChangeVectorMismatch: bool)
      requires OperationArgsError(Some(patch), patchIfMissing).None?
      ensures this.id == id && this.changeVector == changeVector && this.patch == patch
      ensures this.patchIfMissing == patchIfMissing
      ensures this.skipPatchIfChangeVectorMismatch == skipPatchIfChangeVectorMismatch
    {
      this.id := id;
      this.changeVector := changeVector;
      this.patch := patch;
      this.patchIfMissing := patchIfMissing;
      this.skipPatchIfChangeVectorMismatch := skipPatchIfChangeVectorMismatch;
    }

    /** `new PatchOperation(...)`: throws the first failing check, otherwise stores its arguments. */
    static method Create(id: Option<string>, changeVector: Option<string>, patch: Option<PatchRequest>,
                         patchIfMissing: Option<PatchRequest>, skipPatchIfChangeVectorMismatch: bool)
      returns (r: Result<PatchOperation, Error>)
      ensures r.Failure? <==> OperationArgsError(patch, patchIfMissing).Some?
      ensures r.Failure? ==> r.error == OperationArgsError(patch, patchIfMissing).value
      ensures r.Success? ==> (fresh(r.value) && Some(r.value.patch) == patch &&
        r.value.id == id && r.value.changeVector == changeVector &&
        r.value.patchIfMissing == patchIfMissing &&
        r.value.skipPatchIfChangeVectorMismatch == skipPatchIfChangeVectorMismatch)
    {
      var err := OperationArgsError(patch, patchIfMissing);
      if err.Some? {
        r := Failure(err.value);
      } else {
        var op := new PatchOperation(id, changeVector, patch.value, patchIfMissing, skipPatchIfChangeVectorMismatch);
        r := Success(op);
      }
    }

    /** `getCommand`: the stored fields passed through, without debug information and not in test mode. */
    method GetCommand(conventions: Option<Conventions>) returns (r: Result<PatchCommand, Error>)
      ensures r.Failure? <==> CommandArgsError(conventions, id, Some(patch), patchIfMissing).Some?
      ensures r.Failure? ==> r.error == CommandArgsError(conventions, id, Some(patch), patchIfMissing).value
      ensures r.Success? ==> fresh(r.value) && r.value.Stores(id.value, changeVector, patch, patchIfMissing,
                                                             skipPatchIfChangeVectorMismatch, false, false)
    {
      r := PatchCommand.Create(conventions, id, changeVector, Some(patch), patchIfMissing,
                               skipPatchIfChangeVectorMismatch, false, false);
    }
  }

  class PatchCommand {
    const isReadRequest: bool := false

    const id: string
    const changeVector: Option<string>
    const payload: Value
    const skipPatchIfChangeVectorMismatch: bool
    const returnDebugInformation: bool
    const test: bool
    var result: Option<Value>

    /** The command holds exactly these arguments and has no result yet. */
    predicate Stores(id: string, changeVector: Option<string>, patch: PatchRequest, patchIfMissing: Option<PatchRequest>,
                     skip: bool, debug: bool, test: bool)
      reads this
    {
      this.id == id && this.changeVector == changeVector && payload == Payload(patch, patchIfMissing) &&
      skipPatchIfChangeVectorMismatch == skip && returnDebugInformation == debug && this.test == test &&
      result.None?
    }

    constructor (conventions: Option<Conventions>, id: Option<string>, changeVector: Option<string>,
                 patch: Option<PatchRequest>, patchIfMissing: Option<PatchRequest>,
                 skip: bool, debug: bool, test: bool)
      requires CommandArgsError(conventions, id, patch, patchIfMissing).None?
      ensures id.Some? && patch.Some?
      ensures Stores(id.value, changeVector, patch.value, patchIfMissing, skip, debug, test)
    {
      this.id := id.value;
      this.changeVector := changeVector;
      this.payload := Payload(patch.value, patchIfMissing);
      this.skipPatchIfChangeVectorMismatch := skip;
      this.returnDebugInformation := debug;
      this.test := test;
      this.result := None;
    }

    /** `new PatchCommand(...)`: throws the first failing check, otherwise stores its arguments. */
    static method Create(conventions: Option<Conventions>, id: Option<string>, changeVector: Option<string>,
                         patch: Option<PatchRequest>, patchIfMissing: Option<PatchRequest>,
                         skip: bool, debug: bool, test: bool)
      returns (r: Result<PatchCommand, Error>)
      ensures r.Failure? <==> CommandArgsError(conventions, id, patch, patchIfMissing).Some?
      ensures r.Failure? ==> r.error == CommandArgsError(conventions, id, patch, patchIfMissing).value
      ensures r.Success? ==> (id.Some? && patch.Some? && fresh(r.value) &&
        r.value.Stores(id.value, changeVector, patch.value, patchIfMissing, skip, debug, test))
    {
      var err := CommandArgsError(conventions, id, patch, patchIfMissing);
      if err.Some? {
        r := Failure(err.value);
      } else {
        var cmd := new PatchCommand(conventions, id, changeVector, patch, patchIfMissing, skip, debug, test);
        r := Success(cmd);
      }
    }

    /** `createRequest`: a PATCH of the document URI, the flags appended in fixed order. */
    method CreateRequest(node: ServerNode, codec: Codec) returns (req: HttpRequest)
      ensures req.verb == PATCH
      ensures req.uri == PatchUri(node, codec.encodeUriComponent(id), skipPatchIfChangeVectorMismatch,
                                  returnDebugInformation, test)
      ensures req.headers == WithChangeVector(JsonHeaders, changeVector)
      ensures req.body == payload
    {
      var uri := node.url + "/databases/" + node.database + "/docs?id=" + codec.encodeUriComponent(id);
      if skipPatchIfChangeVectorMismatch {
        uri := uri + SkipParam;
      }
      if returnDebugInformation {
        uri := uri + DebugParam;
      }
      if test {
        uri := uri + TestParam;
      }
      req := HttpRequest(PATCH, uri, WithChangeVector(JsonHeaders, changeVector), payload);
    }

    /** `setResponse`: an empty response leaves the result as it was, any other is deserialized and camel-cased. */
    method SetResponse(response: string, codec: Codec)
      modifies this`result
      ensures response == "" ==> result == old(result)
      ensures response != "" ==> result == Some(codec.camelCase(codec.deserialize(response)))
    {
      if response == "" {
        return;
      }
      var raw := codec.deserialize(response);
      result := Some(codec.camelCase(raw));
    }
  }
}
