/** `ComponentRequest`: decodes the body of one component message, runs the
    fail-fast validation in its fixed order, gates on the checksum and
    classifies the action queue. */
module ComponentRequests {
  import opened Values
  import opened Text
  import opened Multipart

  /** The parts of the Django request that the decoder reads: the headers,
      the form fields and the uploaded files in their order, and the raw body. */
  datatype Request = Request(
    meta: map<string, string>,
    post: seq<(string, string)>,
    files: seq<(string, seq<Upload>)>,
    body: string)

  /** The functions this core calls in modules it does not own: the JSON
      decoder (`None` where it raises `JSONDecodeError`), `generate_checksum`,
      and the bare method name `parse_call_method_name` extracts (`None`
      where it raises). */
  datatype Collaborators = Collaborators(
    loads: string -> Option<Value>,
    digest: Value -> string,
    methodName: Value -> Option<string>)

  /** One entry of the classified queue; each keeps the dictionary it was
      built from. `Action` is the base class, used for any other type. */
  datatype Action =
    | SyncInput(raw: map<string, Value>)
    | CallMethod(raw: map<string, Value>)
    | Refresh(raw: map<string, Value>)
    | Reset(raw: map<string, Value>)
    | Toggle(raw: map<string, Value>)
    | Action(raw: map<string, Value>)

  const MultipartType: string := "multipart/form-data"
  const BodyNotParsed: string := "Body could not be parsed"
  const InvalidBody: string := "Invalid body"
  const MissingName: string := "Missing component name"
  const MissingData: string := "Missing data"
  const MissingId: string := "Missing component id"
  const MissingEpoch: string := "Missing epoch"
  const MissingChecksum: string := "Missing checksum"
  const ChecksumMismatch: string := "Checksum does not match"

  /** The declared content type; a request without one has "". */
  function ContentType(request: Request): (contentType: string) {
    Get(request.meta, "CONTENT_TYPE", "")
  }

  predicate IsMultipart(request: Request) {
    HasSubstring(ContentType(request), MultipartType)
  }

  /** The decoded body before the constructor's `except` clause: the
      multipart decoder or the JSON decoder, chosen by content type. */
  function Decoded(request: Request, loads: string -> Option<Value>): (r: Result<Value, Error>)
    ensures IsMultipart(request) ==> r == MultipartData(request.post, request.files, loads)
    ensures !IsMultipart(request) ==> (r.Failure? <==> loads(request.body).None?)
    ensures !IsMultipart(request) && r.Failure? ==> r.error == JsonDecodeError
    ensures !IsMultipart(request) && r.Success? ==> Some(r.value) == loads(request.body)
  {
    if IsMultipart(request) then
      MultipartData(request.post, request.files, loads)
    else
      match loads(request.body)
      case None => Failure(JsonDecodeError)
      case Some(v) => Success(v)
  }

  /** The `try` block of the constructor: a JSON decode error, from either
      decoder, becomes `UnicornViewError`; any other error passes through. */
  function DecodeBody(request: Request, loads: string -> Option<Value>): (r: Result<Value, Error>)
    ensures r.Success? <==> Decoded(request, loads).Success?
    ensures r.Success? ==> r.value == Decoded(request, loads).value
    ensures r.Failure? ==> r.error != JsonDecodeError
    ensures r == Failure(UnicornViewError(BodyNotParsed)) <==> Decoded(request, loads) == Failure(JsonDecodeError)
    ensures r.Failure? && r.error != UnicornViewError(BodyNotParsed) ==> r == Decoded(request, loads)
  {
    match Decoded(request, loads)
    case Failure(JsonDecodeError) => Failure(UnicornViewError(BodyNotParsed))
    case other => other
  }

  /** `validate_checksum`: the body's checksum must be present, truthy and
      equal to the digest of `data`. */
  function ChecksumVerdict(body: Value, data: Value, digest: Value -> string): (o: Outcome<Error>)
    ensures o.Pass? <==>
      body.Map? && Truthy(Get(body.fields, "checksum", Null))
      && Get(body.fields, "checksum", Null) == Str(digest(data))
    ensures o == Fail(AssertionError(MissingChecksum)) <==>
      body.Map? && !Truthy(Get(body.fields, "checksum", Null))
    ensures o == Fail(AssertionError(ChecksumMismatch)) <==>
      body.Map? && Truthy(Get(body.fields, "checksum", Null))
      && Get(body.fields, "checksum", Null) != Str(digest(data))
  {
    if !body.Map? then Fail(ShapeError)
    else
      var checksum := Get(body.fields, "checksum", Null);
      if !Truthy(checksum) then Fail(AssertionError(MissingChecksum))
      else if checksum != Str(digest(data)) then Fail(AssertionError(ChecksumMismatch))
      else Pass
  }

  /** What `for action_data in v` visits. A list gives its elements; an
      empty dictionary, string or file gives nothing. A non-empty dictionary
      or string gives strings and a non-empty file gives byte lines, on which
      the `.get` that follows fails; `None`, booleans and numbers are not
      iterable. */
  function Iterate(v: Value): (r: Result<seq<Value>, Error>)
    ensures r.Failure? ==> r.error == ShapeError
    ensures r.Success? <==>
      v.List? || v == Map(map[]) || v == Str("") || (v.File? && v.upload.size == 0)
    ensures r.Success? && !v.List? ==> r.value == []
    ensures v.List? ==> r == Success(v.items)
  {
    match v
    case List(items) => Success(items)
    case Map(fields) => if fields == map[] then Success([]) else Failure(ShapeError)
    case Str(s) => if s == "" then Success([]) else Failure(ShapeError)
    case File(u) => if u.size == 0 then Success([]) else Failure(ShapeError)
    case _ => Failure(ShapeError)
  }

  /** The action class for a `callMethod` entry, by its bare method name. */
  function CallMethodAction(methodName: string, raw: map<string, Value>): (a: Action)
    ensures a.raw == raw
    ensures a.Refresh? <==> methodName == "$refresh"
    ensures a.Reset? <==> methodName == "$reset"
    ensures a.Toggle? <==> methodName == "$toggle"
    ensures a.CallMethod? <==> methodName !in {"$refresh", "$reset", "$toggle"}
  {
    if methodName == "$refresh" then Refresh(raw)
    else if methodName == "$reset" then Reset(raw)
    else if methodName == "$toggle" then Toggle(raw)
    else CallMethod(raw)
  }

  /** One entry of the queue: its `type` picks the class. Only a `callMethod`
      entry reads its `payload` (default `{}`) and the payload's `name`
      (default ""). */
  function Classify(item: Value, methodName: Value -> Option<string>): (r: Result<Action, Error>)
    ensures r.Success? ==> item.Map? && r.value.raw == item.fields
    ensures r.Success? && r.value.SyncInput? <==>
      item.Map? && Get(item.fields, "type", Null) == Str("syncInput")
    ensures r.Success? && r.value.Action? <==>
      item.Map? && Get(item.fields, "type", Null) !in {Str("syncInput"), Str("callMethod")}
    ensures r.Success? && !r.value.SyncInput? && !r.value.Action? ==>
      && Get(item.fields, "type", Null) == Str("callMethod")
      && Get(item.fields, "payload", Map(map[])).Map?
      && var name := methodName(Get(Get(item.fields, "payload", Map(map[])).fields, "name", Str("")));
         name.Some? && r.value == CallMethodAction(name.value, item.fields)
  {
    if !item.Map? then Failure(ShapeError)
    else
      var actionType := Get(item.fields, "type", Null);
      var payload := Get(item.fields, "payload", Map(map[]));
      if actionType == Str("syncInput") then Success(SyncInput(item.fields))
      else if actionType == Str("callMethod") then
        if !payload.Map? then Failure(ShapeError)
        else
          match methodName(Get(payload.fields, "name", Str("")))
          case None => Failure(MethodNameError)
          case Some(name) => Success(CallMethodAction(name, item.fields))
      else Success(Action(item.fields))
  }

  /** The queue, entry by entry; the first entry that fails ends it. */
  function ClassifyAll(items: seq<Value>, methodName: Value -> Option<string>): (r: Result<seq<Action>, Error>)
    ensures r.Success? <==> forall i :: 0 <= i < |items| ==> Classify(items[i], methodName).Success?
    ensures r.Success? ==>
      && |r.value| == |items|
      && forall i :: 0 <= i < |items| ==> Success(r.value[i]) == Classify(items[i], methodName)
    ensures r.Failure? ==>
      exists i :: 0 <= i < |items| && Classify(items[i], methodName) == Failure(r.error)
        && forall j :: 0 <= j < i ==> Classify(items[j], methodName).Success?
    decreases |items|
  {
    if items == [] then Success([])
    else
      var front := items[..|items| - 1];
      assert forall i :: 0 <= i < |front| ==> front[i] == items[i];
      match ClassifyAll(front, methodName)
      case Failure(e) => Failure(e)
      case Success(actions) =>
        match Classify(items[|items| - 1], methodName)
        case Failure(e) => Failure(e)
        case Success(a) => Success(actions + [a])
  }

  /** The fields of a constructed request. */
  datatype Fields = Fields(
    body: Value, name: string, data: Value, id: Value, epoch: Value,
    key: Value, hash: Value, actionQueue: seq<Action>)

  /** What every constructed request satisfies: each required field passed
      its check, `key` and `hash` are read with their defaults, the checksum
      gate passed, and the queue is the classification of the body's
      `actionQueue`. */
  predicate Admitted(f: Fields, ext: Collaborators) {
    && f.body.Map? && Truthy(f.body)
    && f.name != ""
    && f.data == Get(f.body.fields, "data", Null) && f.data != Null
    && f.id == Get(f.body.fields, "id", Null) && Truthy(f.id)
    && f.epoch == Get(f.body.fields, "epoch", Str("")) && Truthy(f.epoch)
    && f.key == Get(f.body.fields, "key", Str(""))
    && f.hash == Get(f.body.fields, "hash", Str(""))
    && ChecksumVerdict(f.body, f.data, ext.digest) == Pass
    && var queue := Iterate(Get(f.body.fields, "actionQueue", List([])));
       queue.Success? && ClassifyAll(queue.value, ext.methodName) == Success(f.actionQueue)
  }

  /** The checks that come after decoding, in the constructor's order. */
  function Validate(body: Value, componentName: string, ext: Collaborators): (r: Result<Fields, Error>)
    ensures r.Success? ==> Admitted(r.value, ext) && r.value.body == body && r.value.name == componentName
  {
    if !Truthy(body) then Failure(AssertionError(InvalidBody))
    else if componentName == "" then Failure(AssertionError(MissingName))
    else if !body.Map? then Failure(ShapeError)
    else
      var data := Get(body.fields, "data", Null);
      var id := Get(body.fields, "id", Null);
      var epoch := Get(body.fields, "epoch", Str(""));
      if data == Null then Failure(AssertionError(MissingData))
      else if !Truthy(id) then Failure(AssertionError(MissingId))
      else if !Truthy(epoch) then Failure(AssertionError(MissingEpoch))
      else
        match ChecksumVerdict(body, data, ext.digest)
        case Fail(e) => Failure(e)
        case Pass =>
          match Iterate(Get(body.fields, "actionQueue", List([])))
          case Failure(e) => Failure(e)
          case Success(items) =>
            match ClassifyAll(items, ext.methodName)
            case Failure(e) => Failure(e)
            case Success(queue) =>
              Success(Fields(body, componentName, data, id, epoch,
                             Get(body.fields, "key", Str("")), Get(body.fields, "hash", Str("")), queue))
  }

  /** `ComponentRequest(request, component_name)`: the constructed fields or
      the exception that escapes. */
  function Construct(request: Request, componentName: string, ext: Collaborators): (r: Result<Fields, Error>)
    ensures r.Failure? ==> r.error != JsonDecodeError
    ensures r.Success? ==>
      && DecodeBody(request, ext.loads) == Success(r.value.body)
      && r.value.name == componentName
      && Admitted(r.value, ext)
  {
    match DecodeBody(request, ext.loads)
    case Failure(e) => Failure(e)
    case Success(body) =>
      var v := Validate(body, componentName, ext);
      assert v.Failure? ==> v.error != JsonDecodeError;
      v
  }

  class ComponentRequest {
    const request: Request
    var body: Value
    var name: string
    var data: Value
    var id: Value
    var epoch: Value
    var key: Value
    var hash: Value
    var actionQueue: seq<Action>

    function Snapshot(): (fields: Fields)
      reads this
    {
      Fields(body, name, data, id, epoch, key, hash, actionQueue)
    }

    /** The first two statements of `__init__`: an empty body and the request. */
    constructor (request: Request)
      ensures this.request == request && body == Map(map[])
    {
      this.request := request;
      body := Map(map[]);
      name := "";
      data := Null;
      id := Null;
      epoch := Null;
      key := Null;
      hash := Null;
      actionQueue := [];
    }

    /** `validate_checksum`: reads the body and `data`, changes nothing. */
    method ValidateChecksum(digest: Value -> string) returns (o: Outcome<Error>)
      ensures o == ChecksumVerdict(body, data, digest)
    {
      if !body.Map? {
        return Fail(ShapeError);
      }
      var checksum := Get(body.fields, "checksum", Null);
      if !Truthy(checksum) {
        return Fail(AssertionError(MissingChecksum));
      }
      var generated := digest(data);
      if checksum != Str(generated) {
        return Fail(AssertionError(ChecksumMismatch));
      }
      return Pass;
    }

    /** The queue loop of `__init__`: one entry classified and appended per
        turn. */
    method BuildActionQueue(items: seq<Value>, methodName: Value -> Option<string>) returns (o: Outcome<Error>)
      modifies this
      ensures body == old(body) && data == old(data) && name == old(name) && id == old(id)
      ensures epoch == old(epoch) && key == old(key) && hash == old(hash)
      ensures o.Pass? <==> ClassifyAll(items, methodName).Success?
      ensures o.Pass? ==> actionQueue == ClassifyAll(items, methodName).value
      ensures o.Fail? ==> ClassifyAll(items, methodName) == Failure(o.error)
    {
      actionQueue := [];
      for j := 0 to |items|
        invariant ClassifyAll(items[..j], methodName) == Success(actionQueue)
        invariant body == old(body) && data == old(data) && name == old(name) && id == old(id)
        invariant epoch == old(epoch) && key == old(key) && hash == old(hash)
      {
        assert items[..j + 1][..j] == items[..j];
        var actionData := items[j];
        if !actionData.Map? {
          ClassifyAllStopsAt(items, j + 1, methodName);
          return Fail(ShapeError);
        }
        var actionType := Get(actionData.fields, "type", Null);
        var payload := Get(actionData.fields, "payload", Map(map[]));
        if actionType == Str("syncInput") {
          actionQueue := actionQueue + [SyncInput(actionData.fields)];
        } else if actionType == Str("callMethod") {
          if !payload.Map? {
            ClassifyAllStopsAt(items, j + 1, methodName);
            return Fail(ShapeError);
          }
          var methodName' := methodName(Get(payload.fields, "name", Str("")));
          if methodName'.None? {
            ClassifyAllStopsAt(items, j + 1, methodName);
            return Fail(MethodNameError);
          }
          if methodName'.value == "$refresh" {
            actionQueue := actionQueue + [Refresh(actionData.fields)];
          } else if methodName'.value == "$reset" {
            actionQueue := actionQueue + [Reset(actionData.fields)];
          } else if methodName'.value == "$toggle" {
            actionQueue := actionQueue + [Toggle(actionData.fields)];
          } else {
            actionQueue := actionQueue + [CallMethod(actionData.fields)];
          }
        } else {
          actionQueue := actionQueue + [Action(actionData.fields)];
        }
      }
      assert items[..|items|] == items;
      return Pass;
    }

    /** The rest of `__init__`, statement by statement. On failure the
        exception escapes and the half-built object is dropped. */
    method Init(componentName: string, ext: Collaborators) returns (o: Outcome<Error>)
      modifies this
      ensures o.Pass? <==> Construct(request, componentName, ext).Success?
      ensures o.Pass? ==> Snapshot() == Construct(request, componentName, ext).value
      ensures o.Fail? ==> Construct(request, componentName, ext) == Failure(o.error)
    {
      var contentType := Get(request.meta, "CONTENT_TYPE", "");
      var isMultipart := HasSubstring(contentType, MultipartType);
      var decoded: Result<Value, Error>;
      if isMultipart {
        decoded := ParseMultipartData(request.post, request.files, ext.loads);
      } else {
        var parsed := ext.loads(request.body);
        decoded := if parsed.None? then Failure(JsonDecodeError) else Success(parsed.value);
      }
      if decoded.Failure? {
        if decoded.error == JsonDecodeError {
          return Fail(UnicornViewError(BodyNotParsed));
        }
        return Fail(decoded.error);
      }
      body := decoded.value;
      if !Truthy(body) {
        return Fail(AssertionError(InvalidBody));
      }
      name := componentName;
      if name == "" {
        return Fail(AssertionError(MissingName));
      }
      if !body.Map? {
        return Fail(ShapeError);
      }
      data := Get(body.fields, "data", Null);
      if data == Null {
        return Fail(AssertionError(MissingData));
      }
      id := Get(body.fields, "id", Null);
      if !Truthy(id) {
        return Fail(AssertionError(MissingId));
      }
      epoch := Get(body.fields, "epoch", Str(""));
      if !Truthy(epoch) {
        return Fail(AssertionError(MissingEpoch));
      }
      key := Get(body.fields, "key", Str(""));
      hash := Get(body.fields, "hash", Str(""));
      o := ValidateChecksum(ext.digest);
      if o.Fail? {
        return;
      }
      actionQueue := [];
      var queue := Iterate(Get(body.fields, "actionQueue", List([])));
      if queue.Failure? {
        return Fail(queue.error);
      }
      o := BuildActionQueue(queue.value, ext.methodName);
    }
  }

  /** Once a prefix of the queue fails, the whole queue fails the same way. */
  lemma {:induction false} ClassifyAllStopsAt(items: seq<Value>, j: nat, methodName: Value -> Option<string>)
    requires j <= |items| && ClassifyAll(items[..j], methodName).Failure?
    ensures ClassifyAll(items, methodName) == ClassifyAll(items[..j], methodName)
    decreases |items| - j
  {
    if j < |items| {
      assert items[..j + 1][..j] == items[..j];
      ClassifyAllStopsAt(items, j + 1, methodName);
    } else {
      assert items[..j] == items;
    }
  }

  /** The call `ComponentRequest(request, component_name)`: a fresh object
      holding the constructed fields, or the exception it raised. */
  method NewComponentRequest(request: Request, componentName: string, ext: Collaborators)
    returns (r: Result<ComponentRequest, Error>)
    ensures r.Success? <==> Construct(request, componentName, ext).Success?
    ensures r.Success? ==>
      fresh(r.value) && r.value.request == request
      && r.value.Snapshot() == Construct(request, componentName, ext).value
    ensures r.Failure? ==> Construct(request, componentName, ext) == Failure(r.error)
  {
    var c := new ComponentRequest(request);
    var o := c.Init(componentName, ext);
    if o.Fail? {
      return Failure(o.error);
    }
    return Success(c);
  }
}
