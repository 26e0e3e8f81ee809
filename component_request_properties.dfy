/** What construction promises: the order of its checks, the kinds of error
    it raises, the checksum gate, and the classification of the queue. */
module ComponentRequestProperties {
  import opened Values
  import opened Text
  import opened PathTree
  import opened Multipart
  import opened MultipartProperties
  import opened ComponentRequests

  /** The checks after decoding run in a fixed order and the first one that
      fails is the one reported: body, name, data, id, epoch, checksum. */
  lemma ValidationOrder(request: Request, componentName: string, ext: Collaborators, body: Value)
    requires DecodeBody(request, ext.loads) == Success(body)
    ensures !Truthy(body) ==>
      Construct(request, componentName, ext) == Failure(AssertionError(InvalidBody))
    ensures Truthy(body) && componentName == "" ==>
      Construct(request, componentName, ext) == Failure(AssertionError(MissingName))
    ensures Truthy(body) && componentName != "" && body.Map? ==>
      var data := Get(body.fields, "data", Null);
      var id := Get(body.fields, "id", Null);
      var epoch := Get(body.fields, "epoch", Str(""));
      && (data == Null ==>
            Construct(request, componentName, ext) == Failure(AssertionError(MissingData)))
      && (data != Null && !Truthy(id) ==>
            Construct(request, componentName, ext) == Failure(AssertionError(MissingId)))
      && (data != Null && Truthy(id) && !Truthy(epoch) ==>
            Construct(request, componentName, ext) == Failure(AssertionError(MissingEpoch)))
      && (data != Null && Truthy(id) && Truthy(epoch) && ChecksumVerdict(body, data, ext.digest).Fail? ==>
            Construct(request, componentName, ext) == Failure(ChecksumVerdict(body, data, ext.digest).error))
  {
  }

  /** A body that does not decode as JSON is reported as `UnicornViewError`
      before anything else is looked at, even a missing component name. */
  lemma UndecodableBodyReportedFirst(request: Request, componentName: string, ext: Collaborators)
    requires Decoded(request, ext.loads) == Failure(JsonDecodeError)
    ensures Construct(request, componentName, ext) == Failure(UnicornViewError(BodyNotParsed))
  {
  }

  /** An empty body is an `AssertionError`, not a `UnicornViewError`: only
      the JSON decode error is caught and rewrapped. */
  lemma EmptyBodyIsAssertion(request: Request, componentName: string, ext: Collaborators)
    requires !IsMultipart(request) && ext.loads(request.body) == Some(Map(map[]))
    ensures Construct(request, componentName, ext) == Failure(AssertionError(InvalidBody))
    ensures Construct(request, componentName, ext).error != UnicornViewError(BodyNotParsed)
  {
  }

  /** A multipart `actionQueue` field that does not decode as JSON fails
      construction with `UnicornViewError`, whatever follows it. */
  lemma MultipartQueueNotParsed(request: Request, before: seq<(string, string)>, text: string,
                                after: seq<(string, string)>, componentName: string, ext: Collaborators)
    requires IsMultipart(request)
    requires request.post == before + [(ActionQueueKey, text)] + after
    requires FormPass(before, ext.loads).Success? && ext.loads(text).None?
    ensures Construct(request, componentName, ext) == Failure(UnicornViewError(BodyNotParsed))
  {
    var post := request.post;
    ActionQueueDecoded(before, text, ext.loads);
    assert post[..|before| + 1] == before + [(ActionQueueKey, text)];
    FormPassFailureStays(post, |before| + 1, ext.loads);
  }

  /** `data` may be an empty dictionary: only a missing or null `data` is
      rejected. */
  lemma EmptyDataAccepted(request: Request, componentName: string, ext: Collaborators, body: Value)
    requires DecodeBody(request, ext.loads) == Success(body) && body.Map?
    requires componentName != "" && Get(body.fields, "data", Null) == Map(map[])
    ensures Construct(request, componentName, ext) != Failure(AssertionError(MissingData))
  {
  }

  /** For a body that passes the checks before it, the checksum gate: a
      missing checksum and a mismatch are reported, a constructed request's
      checksum is the digest of its `data`, and a matching checksum lets
      construction through to the queue, which then decides it. */
  lemma ChecksumGate(request: Request, componentName: string, ext: Collaborators, body: Value)
    requires DecodeBody(request, ext.loads) == Success(body) && body.Map? && Truthy(body)
    requires componentName != ""
    requires Get(body.fields, "data", Null) != Null
    requires Truthy(Get(body.fields, "id", Null)) && Truthy(Get(body.fields, "epoch", Str("")))
    ensures
      var checksum := Get(body.fields, "checksum", Null);
      var data := Get(body.fields, "data", Null);
      var r := Construct(request, componentName, ext);
      && (!Truthy(checksum) ==> r == Failure(AssertionError(MissingChecksum)))
      && (Truthy(checksum) && checksum != Str(ext.digest(data)) ==> r == Failure(AssertionError(ChecksumMismatch)))
      && (r.Success? ==> checksum == Str(ext.digest(data)) && ext.digest(data) != "")
    ensures
      var checksum := Get(body.fields, "checksum", Null);
      var data := Get(body.fields, "data", Null);
      var queue := Iterate(Get(body.fields, "actionQueue", List([])));
      Truthy(checksum) && checksum == Str(ext.digest(data)) ==>
        (Construct(request, componentName, ext).Success? <==>
           queue.Success? && ClassifyAll(queue.value, ext.methodName).Success?)
  {
  }

  /** The converse of `Validate`'s contract: a body that passes every check,
      with a queue that classifies, is accepted with exactly those fields. */
  lemma AdmittedIsAccepted(body: Value, componentName: string, ext: Collaborators, f: Fields)
    requires Admitted(f, ext) && f.body == body && f.name == componentName
    ensures Validate(body, componentName, ext) == Success(f)
  {
  }

  /** The converse of `Construct`'s contract: a request whose decoded body
      passes every check is constructed, with exactly those fields. */
  lemma AdmittedIsConstructed(request: Request, componentName: string, ext: Collaborators, f: Fields)
    requires DecodeBody(request, ext.loads) == Success(f.body)
    requires Admitted(f, ext) && f.name == componentName
    ensures Construct(request, componentName, ext) == Success(f)
  {
    AdmittedIsAccepted(f.body, componentName, ext, f);
  }

  /** The gate runs before the queue is looked at: while the checksum fails,
      the request is rejected for it whatever `actionQueue` holds. */
  lemma GateBeforeClassification(request: Request, componentName: string, ext: Collaborators,
                                 body: Value, queue: Value)
    requires DecodeBody(request, ext.loads) == Success(body) && body.Map? && Truthy(body)
    requires ChecksumVerdict(body, Get(body.fields, "data", Null), ext.digest).Fail?
    ensures
      var other := Map(body.fields["actionQueue" := queue]);
      Validate(other, componentName, ext) == Construct(request, componentName, ext)
  {
  }

  lemma StringPlusCharDiffers(s: string, c: char)
    ensures s + [c] != s
  {
    assert |s + [c]| != |s|;
  }

  /** The round trip of the gate: a JSON body whose checksum is the digest
      of its `data` is admitted; the same body with one character appended
      to the checksum is rejected for the mismatch. */
  lemma ChecksumRoundTrip(good: Request, bad: Request, componentName: string, ext: Collaborators,
                          fields: map<string, Value>)
    requires !IsMultipart(good) && !IsMultipart(bad)
    requires "actionQueue" !in fields && componentName != ""
    requires Get(fields, "data", Null) != Null
    requires Truthy(Get(fields, "id", Null)) && Truthy(Get(fields, "epoch", Str("")))
    requires
      var digest := ext.digest(Get(fields, "data", Null));
      && ext.loads(good.body) == Some(Map(fields["checksum" := Str(digest)]))
      && ext.loads(bad.body) == Some(Map(fields["checksum" := Str(digest + "x")]))
    requires ext.digest(Get(fields, "data", Null)) != ""
    ensures Construct(good, componentName, ext).Success?
    ensures Construct(good, componentName, ext).value.actionQueue == []
    ensures Construct(bad, componentName, ext) == Failure(AssertionError(ChecksumMismatch))
  {
    var data := Get(fields, "data", Null);
    var digest := ext.digest(data);
    StringPlusCharDiffers(digest, 'x');
    var goodBody := Map(fields["checksum" := Str(digest)]);
    var badBody := Map(fields["checksum" := Str(digest + "x")]);
    assert Get(goodBody.fields, "data", Null) == data && Get(badBody.fields, "data", Null) == data;
    assert "checksum" in goodBody.fields && Truthy(goodBody);
    assert "checksum" in badBody.fields && Truthy(badBody);
    assert Get(goodBody.fields, "actionQueue", List([])) == List([]);
    assert ClassifyAll([], ext.methodName) == Success([]);
  }

  /** The queue keeps the length and order of the body's `actionQueue`,
      entry `i` being the classification of item `i`; an item that cannot be
      classified fails construction, and once every earlier check passes the
      error is that of the first such item. */
  lemma QueueClassifiedInOrder(request: Request, componentName: string, ext: Collaborators,
                               body: Value, items: seq<Value>)
    requires DecodeBody(request, ext.loads) == Success(body) && body.Map?
    requires Iterate(Get(body.fields, "actionQueue", List([]))) == Success(items)
    ensures Construct(request, componentName, ext).Success? ==>
      var queue := Construct(request, componentName, ext).value.actionQueue;
      && |queue| == |items|
      && forall i :: 0 <= i < |items| ==> Classify(items[i], ext.methodName) == Success(queue[i])
    ensures forall i :: 0 <= i < |items| && Classify(items[i], ext.methodName).Failure? ==>
      Construct(request, componentName, ext).Failure?
    ensures
      && Truthy(body) && componentName != ""
      && Get(body.fields, "data", Null) != Null
      && Truthy(Get(body.fields, "id", Null)) && Truthy(Get(body.fields, "epoch", Str("")))
      && ChecksumVerdict(body, Get(body.fields, "data", Null), ext.digest).Pass?
      && Construct(request, componentName, ext).Failure?
      ==>
      exists i :: 0 <= i < |items|
        && Classify(items[i], ext.methodName) == Failure(Construct(request, componentName, ext).error)
        && forall j :: 0 <= j < i ==> Classify(items[j], ext.methodName).Success?
  {
  }

  /** The classifier raises only for an entry that is not a dictionary, a
      `callMethod` whose payload is not a dictionary, or a method name the
      parser rejects. */
  lemma ClassifyFailsOnlyOn(item: Value, methodName: Value -> Option<string>)
    ensures Classify(item, methodName).Failure? <==>
      || !item.Map?
      || (&& Get(item.fields, "type", Null) == Str("callMethod")
          && var payload := Get(item.fields, "payload", Map(map[]));
             (!payload.Map? || methodName(Get(payload.fields, "name", Str(""))).None?))
  {
  }

  /** A `callMethod` without a payload is classified by the bare name of "". */
  lemma MissingPayloadDefaults(fields: map<string, Value>, methodName: Value -> Option<string>)
    requires Get(fields, "type", Null) == Str("callMethod") && "payload" !in fields
    requires methodName(Str("")).Some?
    ensures Classify(Map(fields), methodName) == Success(CallMethodAction(methodName(Str("")).value, fields))
  {
  }

  /** The four classes of a `callMethod` entry, by bare method name. */
  lemma CallMethodExamples(fields: map<string, Value>, call: Value, methodName: Value -> Option<string>)
    requires Get(fields, "type", Null) == Str("callMethod")
    requires Get(fields, "payload", Map(map[])) == Map(map["name" := call])
    ensures methodName(call) == Some("$toggle") ==> Classify(Map(fields), methodName) == Success(Toggle(fields))
    ensures methodName(call) == Some("$refresh") ==> Classify(Map(fields), methodName) == Success(Refresh(fields))
    ensures methodName(call) == Some("$reset") ==> Classify(Map(fields), methodName) == Success(Reset(fields))
    ensures methodName(call) == Some("save") ==> Classify(Map(fields), methodName) == Success(CallMethod(fields))
  {
  }

  /** Path keys land at the top level of the body, so a multipart body gets
      a `data` entry only from a key whose first segment names `data`. */
  lemma {:induction false} FormPassLeavesDataOut(post: seq<(string, string)>, loads: string -> Option<Value>)
    requires forall k :: 0 <= k < |post| ==> post[k].0 != "data"
    requires forall k :: (0 <= k < |post| && StartsWith(post[k].0, DataPrefix)
                          && ParseSegment(PathParts(post[k].0)[0]).Success?) ==>
               ParseSegment(PathParts(post[k].0)[0]).value.name != "data"
    ensures FormPass(post, loads).Success? ==> "data" !in FormPass(post, loads).value.fields
    decreases |post|
  {
    if post != [] {
      var front := post[..|post| - 1];
      assert forall k :: 0 <= k < |front| ==> front[k] == post[k];
      FormPassLeavesDataOut(front, loads);
    }
  }

  lemma {:induction false} FilePassLeavesDataOut(body: Value, files: seq<(string, seq<Upload>)>)
    requires body.Map? && "data" !in body.fields
    requires forall k :: 0 <= k < |files| && StartsWith(files[k].0, DataPrefix) ==>
               PathParts(files[k].0)[0] != "data"
    ensures FilePass(body, files).Success? ==> "data" !in FilePass(body, files).value.fields
    decreases |files|
  {
    if files != [] {
      var front := files[..|files| - 1];
      assert forall k :: 0 <= k < |front| ==> front[k] == files[k];
      FilePassLeavesDataOut(body, front);
    }
  }

  /** The consequence for construction: a multipart request whose keys
      never name `data` as their first segment is rejected for missing data,
      since `data.x` is stored at `x`. */
  lemma MultipartPathFieldsMissData(request: Request, componentName: string, ext: Collaborators)
    requires IsMultipart(request) && componentName != ""
    requires forall k :: 0 <= k < |request.post| ==> request.post[k].0 != "data"
    requires forall k :: (0 <= k < |request.post| && StartsWith(request.post[k].0, DataPrefix)
                          && ParseSegment(PathParts(request.post[k].0)[0]).Success?) ==>
               ParseSegment(PathParts(request.post[k].0)[0]).value.name != "data"
    requires forall k :: 0 <= k < |request.files| && StartsWith(request.files[k].0, DataPrefix) ==>
               PathParts(request.files[k].0)[0] != "data"
    requires MultipartData(request.post, request.files, ext.loads).Success?
    requires Truthy(MultipartData(request.post, request.files, ext.loads).value)
    ensures Construct(request, componentName, ext) == Failure(AssertionError(MissingData))
  {
    FormPassLeavesDataOut(request.post, ext.loads);
    var body := FormPass(request.post, ext.loads).value;
    FilePassLeavesDataOut(body, request.files);
  }
}
