/** `parse_multipart_data`: the body of a multipart/form-data request,
    rebuilt from its form fields and then its uploaded files. */
module Multipart {
  import opened Values
  import opened Text
  import opened PathTree

  /** Keys with this prefix are paths into the body. */
  const DataPrefix: string := "data."

  /** The field whose value is always JSON text. */
  const ActionQueueKey: string := "actionQueue"

  /** The errors that can escape the decoder: a malformed JSON
      `actionQueue`, a malformed bracket index, or a value of the wrong shape
      on a key's path. */
  predicate DecoderError(e: Error) {
    e == JsonDecodeError || e == ShapeError || e.IndexParseError?
  }

  /** The segments of a path key: what follows the prefix, split on dots. */
  function PathParts(key: string): (parts: seq<string>)
    requires StartsWith(key, DataPrefix)
    ensures |parts| >= 1
  {
    Split(key[|DataPrefix|..], '.')
  }

  /** One form field: a path key is walked from the top-level dictionary,
      `actionQueue` is decoded as JSON, any other key is stored as it came. */
  function AddField(body: Value, key: string, value: string, loads: string -> Option<Value>): (r: Result<Value, Error>)
    requires body.Map?
    ensures r.Failure? ==> DecoderError(r.error)
    ensures r.Success? ==> r.value.Map?
  {
    if StartsWith(key, DataPrefix) then
      WalkFailureKinds(body, PathParts(key), Str(value));
      Walk(body, PathParts(key), Str(value))
    else if key == ActionQueueKey then
      match loads(value)
      case None => Failure(JsonDecodeError)
      case Some(queue) => Success(Map(body.fields[key := queue]))
    else
      Success(Map(body.fields[key := Str(value)]))
  }

  /** The form-field pass: the fields in order, from an empty dictionary;
      the first failure ends it. */
  function FormPass(post: seq<(string, string)>, loads: string -> Option<Value>): (r: Result<Value, Error>)
    ensures r.Failure? ==> DecoderError(r.error)
    ensures r.Success? ==> r.value.Map?
    decreases |post|
  {
    if post == [] then
      Success(Map(map[]))
    else
      match FormPass(post[..|post| - 1], loads)
      case Failure(e) => Failure(e)
      case Success(body) => AddField(body, post[|post| - 1].0, post[|post| - 1].1, loads)
  }

  /** What the file pass stores for one key: the file itself when there is
      exactly one, the list of files otherwise. */
  function Stored(uploads: seq<Upload>): (v: Value)
    ensures v.File? <==> |uploads| == 1
    ensures v.File? ==> v.upload == uploads[0]
    ensures !v.File? ==>
      && v.List? && |v.items| == |uploads|
      && forall j :: 0 <= j < |uploads| ==> v.items[j] == File(uploads[j])
  {
    if |uploads| == 1 then File(uploads[0]) else List(seq(|uploads|, i requires 0 <= i < |uploads| => File(uploads[i])))
  }

  /** One entry of the uploaded files: only path keys are placed. */
  function AddFiles(body: Value, key: string, uploads: seq<Upload>): (r: Result<Value, Error>)
    requires body.Map?
    ensures r.Failure? ==> r.error == ShapeError
    ensures r.Success? ==> r.value.Map?
  {
    if StartsWith(key, DataPrefix) then
      FileWalkFailureKind(body, PathParts(key), Stored(uploads));
      FileWalk(body, PathParts(key), Stored(uploads))
    else
      Success(body)
  }

  /** The file pass over the body the form-field pass built. */
  function FilePass(body: Value, files: seq<(string, seq<Upload>)>): (r: Result<Value, Error>)
    requires body.Map?
    ensures r.Failure? ==> DecoderError(r.error)
    ensures r.Success? ==> r.value.Map?
    decreases |files|
  {
    if files == [] then
      Success(body)
    else
      match FilePass(body, files[..|files| - 1])
      case Failure(e) => Failure(e)
      case Success(b) => AddFiles(b, files[|files| - 1].0, files[|files| - 1].1)
  }

  /** The whole decoder: form fields first, then files. */
  function MultipartData(post: seq<(string, string)>, files: seq<(string, seq<Upload>)>,
                         loads: string -> Option<Value>): (r: Result<Value, Error>)
    ensures r.Failure? ==> DecoderError(r.error)
    ensures r.Success? ==> r.value.Map?
  {
    match FormPass(post, loads)
    case Failure(e) => Failure(e)
    case Success(body) => FilePass(body, files)
  }

  lemma {:induction false} FormPassFailureStays(post: seq<(string, string)>, j: nat, loads: string -> Option<Value>)
    requires j <= |post| && FormPass(post[..j], loads).Failure?
    ensures FormPass(post, loads) == FormPass(post[..j], loads)
    decreases |post| - j
  {
    if j < |post| {
      assert post[..j + 1][..j] == post[..j];
      FormPassFailureStays(post, j + 1, loads);
    } else {
      assert post[..j] == post;
    }
  }

  lemma {:induction false} FilePassFailureStays(body: Value, files: seq<(string, seq<Upload>)>, j: nat)
    requires body.Map? && j <= |files| && FilePass(body, files[..j]).Failure?
    ensures FilePass(body, files) == FilePass(body, files[..j])
    decreases |files| - j
  {
    if j < |files| {
      assert files[..j + 1][..j] == files[..j];
      FilePassFailureStays(body, files, j + 1);
    } else {
      assert files[..j] == files;
    }
  }

  /** The decoder as the source runs it: a loop over the form fields that
      updates one dictionary through the cursor walk, then a loop over the
      files. */
  method ParseMultipartData(post: seq<(string, string)>, files: seq<(string, seq<Upload>)>,
                            loads: string -> Option<Value>) returns (r: Result<Value, Error>)
    ensures r == MultipartData(post, files, loads)
  {
    r := ParseFormFields(post, loads);
    if r.Success? {
      r := PlaceFiles(r.value, files);
    }
  }

  /** The first loop of the decoder, over `request.POST.items()`. */
  method ParseFormFields(post: seq<(string, string)>, loads: string -> Option<Value>)
    returns (r: Result<Value, Error>)
    ensures r == FormPass(post, loads)
  {
    var data := Map(map[]);
    for j := 0 to |post|
      invariant FormPass(post[..j], loads) == Success(data)
    {
      assert post[..j + 1][..j] == post[..j];
      var (key, value) := post[j];
      var next: Result<Value, Error>;
      if StartsWith(key, DataPrefix) {
        var fieldPath := key[|DataPrefix|..];
        var parts := Split(fieldPath, '.');
        next := InsertField(data, parts, Str(value));
      } else if key == ActionQueueKey {
        var queue := loads(value);
        if queue.None? {
          next := Failure(JsonDecodeError);
        } else {
          next := Success(Map(data.fields[key := queue.value]));
        }
      } else {
        next := Success(Map(data.fields[key := Str(value)]));
      }
      if next.Failure? {
        FormPassFailureStays(post, j + 1, loads);
        return Failure(next.error);
      }
      data := next.value;
    }
    assert post[..|post|] == post;
    r := Success(data);
  }

  /** The second loop of the decoder, over `request.FILES.lists()`, placing
      files into the dictionary the first loop built. */
  method PlaceFiles(body: Value, files: seq<(string, seq<Upload>)>) returns (r: Result<Value, Error>)
    requires body.Map?
    ensures r == FilePass(body, files)
  {
    var data := body;
    for j := 0 to |files|
      invariant data.Map? && FilePass(body, files[..j]) == Success(data)
    {
      assert files[..j + 1][..j] == files[..j];
      var (key, fileList) := files[j];
      if StartsWith(key, DataPrefix) {
        var fieldPath := key[|DataPrefix|..];
        var parts := Split(fieldPath, '.');
        var next: Result<Value, Error>;
        if |fileList| == 1 {
          next := InsertFile(data, parts, File(fileList[0]));
        } else {
          next := InsertFile(data, parts, List(seq(|fileList|, i requires 0 <= i < |fileList| => File(fileList[i]))));
        }
        if next.Failure? {
          FilePassFailureStays(body, files, j + 1);
          return Failure(next.error);
        }
        data := next.value;
      }
    }
    assert files[..|files|] == files;
    r := Success(data);
  }
}
