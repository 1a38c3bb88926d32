/**
 * The compare-exchange put operation and its command
 * (src/Documents/Operations/CompareExchange/PutCompareExchangeValueOperation.ts):
 * key and index validation, the PUT request whose URI carries the raw key and the
 * decimal index, and the two-way dispatch on the value's shape when the response
 * is parsed.
 */
module CompareExchange {
  import opened Wrappers
  import opened Json
  import opened Text
  import opened Protocol

  /** The checks of the command's constructor, in the source's order; None when both pass. */
  function CommandArgsError(key: Option<string>, index: int): (e: Option<Error>)
    ensures e.None? <==> Present(key) && index >= 0
    ensures e.Some? ==> e.value.kind == InvalidArgumentException
  {
    if !Present(key) then Some(Error(InvalidArgumentException, "The key argument must have value"))
    else if index < 0 then Some(Error(InvalidArgumentException, "Index must be a non-negative number"))
    else None
  }

  const IndexParam: string := "&index="

  /** The URI of a compare-exchange put: the key inserted verbatim, not URI-encoded. */
  function PutUri(node: ServerNode, key: string, index: nat): string {
    DatabaseUri(node) + "/cmpxchg?key=" + key + IndexParam + DecimalString(index)
  }

  /** In `a + "&index=" + digits`, the last `&` is the one that starts `"&index="`. */
  lemma LastAmpersand(a: string, d: string)
    requires forall i :: 0 <= i < |d| ==> IsDigit(d[i])
    ensures var s := a + IndexParam + d;
      s[|a|] == '&' && forall j :: |a| < j < |s| ==> s[j] != '&'
  {
  }

  /** `"&index="` followed by digits cannot end a string in two different ways: the split point is unique. */
  lemma IndexSuffixUnique(a1: string, d1: string, a2: string, d2: string)
    requires a1 + IndexParam + d1 == a2 + IndexParam + d2
    requires forall i :: 0 <= i < |d1| ==> IsDigit(d1[i])
    requires forall i :: 0 <= i < |d2| ==> IsDigit(d2[i])
    ensures a1 == a2 && d1 == d2
  {
    var s := a1 + IndexParam + d1;
    LastAmpersand(a1, d1);
    LastAmpersand(a2, d2);
    assert |a1| == |a2|;
    assert a1 == s[..|a1|] && a2 == s[..|a2|];
    assert d1 == s[|a1| + |IndexParam|..] && d2 == s[|a2| + |IndexParam|..];
  }

  /** Distinct (key, index) pairs give distinct URIs: both are recoverable from the URI. */
  lemma PutUriInjective(node: ServerNode, key1: string, index1: nat, key2: string, index2: nat)
    requires PutUri(node, key1, index1) == PutUri(node, key2, index2)
    ensures key1 == key2 && index1 == index2
  {
    var prefix := DatabaseUri(node) + "/cmpxchg?key=";
    assert PutUri(node, key1, index1) == (prefix + key1) + IndexParam + DecimalString(index1);
    assert PutUri(node, key2, index2) == (prefix + key2) + IndexParam + DecimalString(index2);
    IndexSuffixUnique(prefix + key1, DecimalString(index1), prefix + key2, DecimalString(index2));
    assert key1 == (prefix + key1)[|prefix|..];
    assert key2 == (prefix + key2)[|prefix|..];
    DecimalStringInjective(index1, index2);
  }

  /**
   * The type passed to `CompareExchangeResult.parseFromString`: null for a
   * primitive value; otherwise the value's type descriptor when it is a class,
   * else null.
   */
  function ParseType(value: Value, conventions: Conventions): Option<TypeDescriptor> {
    if IsPrimitive(value) then None
    else
      var descriptor := conventions.entityTypeDescriptor(value);
      if descriptor.ClassType? then Some(descriptor) else None
  }

  /** The dispatch has exactly two ways to pass a type, and passes one only for a structured value of class type. */
  lemma ParseTypeDispatch(value: Value, conventions: Conventions)
    ensures IsPrimitive(value) ==> ParseType(value, conventions).None?
    ensures ParseType(value, conventions).Some? <==>
      !IsPrimitive(value) && conventions.entityTypeDescriptor(value).ClassType?
    ensures ParseType(value, conventions).Some? ==>
      ParseType(value, conventions).value == conventions.entityTypeDescriptor(value)
  {
  }

  /** A recorded call of the foreign parser `CompareExchangeResult.parseFromString(response, conventions, type)`. */
  datatype ParseCall = ParseFromString(response: string, conventions: Conventions, parseType: Option<TypeDescriptor>)

  class PutCompareExchangeValueOperation {
    const resultType: string := "CommandResult"

    const key: Option<string>
    const value: Value
    const index: int

    /** The operation validates nothing. */
    constructor (key: Option<string>, value: Value, index: int)
      ensures this.key == key && this.value == value && this.index == index
    {
      this.key := key;
      this.value := value;
      this.index := index;
    }

    /** `getCommand`: key, value and index forwarded unchanged to the command, which validates them. */
    method GetCommand(conventions: Option<Conventions>, defaults: Conventions)
      returns (r: Result<PutCompareExchangeValueCommand, Error>)
      ensures r.Failure? <==> CommandArgsError(key, index).Some?
      ensures r.Failure? ==> r.error == CommandArgsError(key, index).value
      ensures r.Success? ==> (fresh(r.value) && Some(r.value.key) == key && r.value.value == value &&
        r.value.index == index && r.value.result.None? &&
        r.value.conventions == (if conventions.Some? then conventions.value else defaults))
    {
      r := PutCompareExchangeValueCommand.Create(key, value, index, conventions, defaults);
    }
  }

  class PutCompareExchangeValueCommand {
    const isReadRequest: bool := false

    const key: string
    const value: Value
    const index: nat
    const conventions: Conventions
    var result: Option<ParseCall>

    /** `defaults` stands for `DocumentConventions.defaultConventions`, used when no conventions are given. */
    constructor (key: Option<string>, value: Value, index: int, conventions: Option<Conventions>, defaults: Conventions)
      requires CommandArgsError(key, index).None?
      ensures Some(this.key) == key && this.value == value && this.index == index
      ensures this.conventions == (if conventions.Some? then conventions.value else defaults)
      ensures result.None?
    {
      this.key := key.value;
      this.value := value;
      this.index := index;
      this.conventions := if conventions.Some? then conventions.value else defaults;
      this.result := None;
    }

    /** `new PutCompareExchangeValueCommand(...)`: throws for an empty key or a negative index; null conventions are not an error. */
    static method Create(key: Option<string>, value: Value, index: int, conventions: Option<Conventions>,
                         defaults: Conventions)
      returns (r: Result<PutCompareExchangeValueCommand, Error>)
      ensures r.Failure? <==> CommandArgsError(key, index).Some?
      ensures r.Failure? ==> r.error == CommandArgsError(key, index).value
      ensures r.Success? ==> (fresh(r.value) && Some(r.value.key) == key && r.value.value == value &&
        r.value.index == index && r.value.result.None? &&
        r.value.conventions == (if conventions.Some? then conventions.value else defaults))
    {
      var err := CommandArgsError(key, index);
      if err.Some? {
        r := Failure(err.value);
      } else {
        var cmd := new PutCompareExchangeValueCommand(key, value, index, conventions, defaults);
        r := Success(cmd);
      }
    }

    /** `createRequest`: a PUT whose URI carries the raw key and the index, whose body is the record `{ Object: value }`. */
    function CreateRequest(node: ServerNode): (req: HttpRequest)
      ensures req.verb == PUT && req.headers == JsonHeaders
      ensures req.uri == PutUri(node, key, index)
      ensures req.body == SingleKey("Object", value)
    {
      HttpRequest(PUT, PutUri(node, key, index), JsonHeaders, SingleKey("Object", value))
    }

    /**
     * `setResponse`: the response is parsed with the command's conventions (the
     * defaults when none were given) and the type the value's shape selects.
     */
    method SetResponse(response: string)
      modifies this`result
      ensures result == Some(ParseFromString(response, conventions, ParseType(value, conventions)))
    {
      if IsPrimitive(value) {
        result := Some(ParseFromString(response, conventions, None));
      } else {
        var descriptor := conventions.entityTypeDescriptor(value);
        result := Some(ParseFromString(response, conventions, if descriptor.ClassType? then Some(descriptor) else None));
      }
    }
  }
}
