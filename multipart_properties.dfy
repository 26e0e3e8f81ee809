/** What the multipart decoder makes of particular fields and files. */
module MultipartProperties {
  import opened Values
  import opened Text
  import opened PathTree
  import opened PathTreeProperties
  import opened Multipart

  /** A key `data.name` lands at the TOP level of the body, under `name`,
      not under `data`: the walk starts at the dictionary it is building. */
  lemma DataKeyLandsAtTopLevel(name: string, v: string, loads: string -> Option<Value>)
    requires '.' !in name && !('[' in name && ']' in name)
    ensures MultipartData([(DataPrefix + name, v)], [], loads) == Success(Map(map[name := Str(v)]))
  {
    var key := DataPrefix + name;
    assert StartsWith(key, DataPrefix);
    assert key[|DataPrefix|..] == name;
    assert PathParts(key) == [name];
    assert ParseSegment(name) == Success(Plain(name));
    assert [(key, v)][..0] == [];
    assert FormPass([(key, v)], loads) == Walk(Map(map[]), [name], Str(v));
  }

  lemma GapFillingKeyParts()
    ensures PathParts("data.items[2].x") == ["items[2]", "x"]
    ensures ParseSegment("items[2]") == Success(Indexed("items", 2))
    ensures ParseSegment("x") == Success(Plain("x"))
  {
    var key := "data.items[2].x";
    assert StartsWith(key, DataPrefix);
    assert key[|DataPrefix|..] == Join(["items[2]", "x"], '.');
    SplitJoin(["items[2]", "x"], '.');
    assert RenderSegment(Indexed("items", 2)) == "items[2]";
    ParseRenderedSegment(Indexed("items", 2));
  }

  lemma GapFillingWalk(head: string, name: string, i: nat, leaf: string, v: Value)
    requires ParseSegment(head) == Success(Indexed(name, i))
    requires ParseSegment(leaf) == Success(Plain(leaf))
    ensures Walk(Map(map[]), [head, leaf], v)
         == Success(Map(map[name := List(seq(i, _ => Map(map[])) + [Map(map[leaf := v])])]))
  {
    var parts := [head, leaf];
    assert parts[1..] == [leaf];
    var slots := Pad([], i, Map(map[]));
    assert Walk(slots[i], parts[1..], v) == Success(Map(map[leaf := v]));
    assert slots[i := Map(map[leaf := v])] == seq(i, _ => Map(map[])) + [Map(map[leaf := v])];
  }

  /** A single path field and no files: the decoder is one walk. */
  lemma SinglePathField(key: string, v: string, loads: string -> Option<Value>)
    requires StartsWith(key, DataPrefix)
    ensures MultipartData([(key, v)], [], loads) == Walk(Map(map[]), PathParts(key), Str(v))
  {
    var post := [(key, v)];
    assert post[..|post| - 1] == [];
    assert FormPass(post[..|post| - 1], loads) == Success(Map(map[]));
    var r := Walk(Map(map[]), PathParts(key), Str(v));
    assert AddField(Map(map[]), key, v, loads) == r;
    assert FormPass(post, loads) == r;
    if r.Success? {
      assert FilePass(r.value, []) == r;
    }
  }

  lemma ThirdSlotWalk(head: string, name: string, leaf: string, v: Value)
    requires ParseSegment(head) == Success(Indexed(name, 2))
    requires ParseSegment(leaf) == Success(Plain(leaf))
    ensures Walk(Map(map[]), [head, leaf], v)
         == Success(Map(map[name := List([Map(map[]), Map(map[]), Map(map[leaf := v])])]))
  {
    GapFillingWalk(head, name, 2, leaf, v);
    var slots := seq(2, _ => Map(map[])) + [Map(map[leaf := v])];
    assert slots == [Map(map[]), Map(map[]), Map(map[leaf := v])];
  }

  /** Gap filling: `data.items[2].x = v` alone gives a three-element list
      whose first two elements are empty dictionaries. */
  lemma IndexGapFilledWithEmptyMaps(v: string, loads: string -> Option<Value>)
    ensures MultipartData([("data.items[2].x", v)], [], loads)
         == Success(Map(map["items" := List([Map(map[]), Map(map[]), Map(map["x" := Str(v)])])]))
  {
    var key := "data.items[2].x";
    GapFillingKeyParts();
    assert StartsWith(key, DataPrefix);
    SinglePathField(key, v, loads);
    ThirdSlotWalk("items[2]", "items", "x", Str(v));
  }

  /** Any key outside the `data.` paths other than `actionQueue` is stored
      as the string it came as, replacing an earlier value. */
  lemma OtherKeyStoredVerbatim(post: seq<(string, string)>, key: string, value: string, loads: string -> Option<Value>)
    requires !StartsWith(key, DataPrefix) && key != ActionQueueKey
    requires FormPass(post, loads).Success?
    ensures FormPass(post + [(key, value)], loads)
         == Success(Map(FormPass(post, loads).value.fields[key := Str(value)]))
  {
    assert (post + [(key, value)])[..|post|] == post;
  }

  /** `actionQueue` is decoded as JSON; text that does not decode fails the
      whole decoder with a JSON decode error. */
  lemma ActionQueueDecoded(post: seq<(string, string)>, text: string, loads: string -> Option<Value>)
    requires FormPass(post, loads).Success?
    ensures loads(text).None? ==> FormPass(post + [(ActionQueueKey, text)], loads) == Failure(JsonDecodeError)
    ensures loads(text).Some? ==>
      FormPass(post + [(ActionQueueKey, text)], loads)
      == Success(Map(FormPass(post, loads).value.fields[ActionQueueKey := loads(text).value]))
  {
    assert (post + [(ActionQueueKey, text)])[..|post|] == post;
    assert ActionQueueKey[..|DataPrefix|][0] != DataPrefix[0];
  }

  /** A file key `data.name` stores its files at `name`, taken literally
      (brackets included), over whatever a form field left there: the file
      itself when there is one, the list of files otherwise. */
  lemma FileReplacesFormValue(post: seq<(string, string)>, name: string, uploads: seq<Upload>,
                              loads: string -> Option<Value>)
    requires '.' !in name
    requires FormPass(post, loads).Success?
    ensures
      var body := FormPass(post, loads).value;
      MultipartData(post, [(DataPrefix + name, uploads)], loads) == Success(Map(body.fields[name := Stored(uploads)]))
    ensures |uploads| == 1 ==> Stored(uploads) == File(uploads[0])
    ensures |uploads| != 1 ==>
      Stored(uploads).List? && |Stored(uploads).items| == |uploads|
      && forall i :: 0 <= i < |uploads| ==> Stored(uploads).items[i] == File(uploads[i])
  {
    var key := DataPrefix + name;
    assert StartsWith(key, DataPrefix);
    assert key[|DataPrefix|..] == name;
    assert PathParts(key) == [name];
    var body := FormPass(post, loads).value;
    assert [(key, uploads)][..0] == [];
    assert FilePass(body, [(key, uploads)]) == AddFiles(body, key, uploads);
    assert AddFiles(body, key, uploads) == FileWalk(body, [name], Stored(uploads));
  }

  /** Two files under one key are kept as an ordered two-element list. */
  lemma TwoFilesKeptInOrder(a: Upload, b: Upload, loads: string -> Option<Value>)
    ensures MultipartData([], [("data.upload", [a, b])], loads)
         == Success(Map(map["upload" := List([File(a), File(b)])]))
  {
    FileReplacesFormValue([], "upload", [a, b], loads);
    assert DataPrefix + "upload" == "data.upload";
    assert Stored([a, b]) == List([File(a), File(b)]);
  }
}
