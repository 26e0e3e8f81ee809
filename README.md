# django-unicorn request decoder, modelled in Dafny

This project models the server side of django-unicorn's component message:
`src/django_unicorn/views/request.py`. It covers three parts of that file:

- **`parse_multipart_data`** rebuilds a nested body from flat form keys
  such as `data.items[2].name`. It decodes the `actionQueue` field as
  JSON, then places uploaded files.
- **`ComponentRequest.__init__`** decodes the body, as JSON or as
  multipart. It runs the fail-fast checks in their fixed order (body,
  component name, `data`, `id`, `epoch`), applies the defaults for `key`
  and `hash`, runs the checksum gate and classifies the action queue.
- **`ComponentRequest.validate_checksum`** compares the body's checksum
  with the digest of `data`.

How the files are organised:

- `values.dfy` holds the decoded values and errors:
  - Python truthiness and `dict.get`.
  - Python's runtime exceptions on a value of the wrong shape, written out
    as one error, `ShapeError`.
  - `int()` failures written out as `IndexParseError`.
- `text.dfy` holds the string operations the decoder relies on:
  `startswith`, substring test, `index`, `split` and `int()`.
- `path_tree.dfy` holds the path walk. There it is a recursive
  specification (`Walk`, `FileWalk`). It is also imperative methods that
  move a cursor down the tree as the source does (`InsertField`,
  `InsertFile`). Each method is proved equal to its specification.
  - The source's cursor aliases into the dictionary it is building. The
    model records the path the cursor took (`Frame`s) and rebuilds the
    tree from it.
  - No two positions of the body share an object, so this value model
    loses nothing.
- `multipart.dfy` holds the two passes of `parse_multipart_data`. They are
  specification functions over the form fields and files in order, plus
  the loop methods `ParseFormFields` and `PlaceFiles`, which
  `ParseMultipartData` runs in turn.
- `component_request.dfy` holds the constructor's steps as functions
  (`Construct`), and the class `ComponentRequest` with the fields
  `__init__` assigns.
  - The Python call `ComponentRequest(request, name)` is
    `NewComponentRequest`. It allocates the object, and its method `Init`
    runs `__init__` statement by statement.
  - The result is either the fresh object or the exception that escaped.
- `*_properties.dfy` holds lemmas about the specification functions.

Some functions are defined in modules outside this model. They are
parameters of type `Collaborators`:

- `loads` is the JSON decoder. It returns `None` where it would raise
  `JSONDecodeError`.
- `generate_checksum` is the digest.
- The bare method name that `parse_call_method_name` extracts. It returns
  `None` where that parser raises.

The Django request is a value `Request`. It holds the `META` headers, the
form fields as `POST.items()` yields them, the files as `FILES.lists()`
yields them, and the raw body.

Two behaviours of the code are worth knowing:

- A multipart key `data.foo` is stored at `body["foo"]`, not at
  `body["data"]["foo"]`, because the walk starts at the top-level
  dictionary (request.py:29, :69).
  - `MultipartPathFieldsMissData` proves the consequence. A multipart
    request whose keys never name `data` as their first segment is rejected
    with "Missing data".
- An empty body raises `AssertionError("Invalid body")`. The `except`
  clause catches only `JSONDecodeError`, so that error escapes unwrapped
  (request.py:118-121).

## Model

| member | source | states |
|---|---|---|
| Values.Truthy | src/django_unicorn/views/request.py:118-136 | Python's `not x` in the checks at :118, :124, :132, :136 and :182: a value is false exactly when it is `None`, `False`, zero or an empty string, list or dictionary; a file counts as true when its name is non-empty |
| Text.StartsWith | src/django_unicorn/views/request.py:23 | `key.startswith("data.")` (also :66) holds exactly when the key is the prefix followed by some rest |
| Text.HasSubstring | src/django_unicorn/views/request.py:107-108 | the multipart test `t in s` is true exactly when `t` occurs at some position of `s` |
| Text.FirstIndex | src/django_unicorn/views/request.py:33-34 | `s.index(c)` is the position of the first occurrence of `c` |
| Text.Split | src/django_unicorn/views/request.py:28 | `split(".")` gives at least one piece, no piece holds a dot, and joining the pieces with dots gives back the key |
| Text.SplitJoin | src/django_unicorn/views/request.py:28 | splitting a dot-join of dot-free pieces gives back the pieces |
| Text.DecimalRoundTrip | src/django_unicorn/views/request.py:34 | `int()` of the decimal text of `n` is `n` |
| PathTree.ParseSegment | src/django_unicorn/views/request.py:32-34 | a piece holding both brackets is `name[index]`: the name is the text before the first `[`, the index is the decimal value of the text between the first `[` and the first `]`, and parsing fails exactly when that text is not digits; any other piece is a plain name |
| PathTree.IndexTextSplitsPart | src/django_unicorn/views/request.py:33-34 | when the first `[` precedes the first `]`, the piece is `name[digits]tail` with the index text as `digits`, no `[` in `name` and no `]` in `digits`; when the `]` comes first the index text is empty |
| PathTree.ParseRenderedSegment | src/django_unicorn/views/request.py:47-49 | a segment written as `name[i]` parses back to the same name and index |
| PathTree.PadList | src/django_unicorn/views/request.py:37-38 | the placeholder loop makes `index` valid, keeps every element there before and adds only filler slots at the end |
| PathTree.Walk | src/django_unicorn/views/request.py:29-56 | a successful walk starts and ends at a dictionary; it adds at most the first segment's name to the keys and leaves every other top-level entry unchanged |
| PathTreeProperties.WalkThroughStringCharacter | src/django_unicorn/views/request.py:35-39 | an intermediate `name[i]` on a string longer than `i` moves onto that character without padding, and a walk with any further segments then fails with the next segment's index error or, failing that, a shape error |
| PathTreeProperties.ParseSegmentIgnoresTail | src/django_unicorn/views/request.py:33-34 | `name[digits]` followed by any text parses as `name` and the value of `digits`; the text after the first `]` is ignored |
| PathTreeProperties.LeadingZeroIgnored | src/django_unicorn/views/request.py:34 | a leading zero does not change the index that `int()` reads |
| PathTree.FileWalk | src/django_unicorn/views/request.py:69-80 | the file walk adds at most the first piece as a key and leaves every other entry unchanged |
| PathTree.WalkFailureKinds | src/django_unicorn/views/request.py:32-43 | the form-field walk fails only with a malformed index or a value of the wrong shape |
| PathTree.FileWalkFailureKind | src/django_unicorn/views/request.py:70-73 | the file walk fails only on a value of the wrong shape |
| PathTree.WalkStep | src/django_unicorn/views/request.py:30-43 | a walk of two or more segments is one cursor step followed by the walk of the rest, plugged back into the parent |
| PathTree.DescendStep | src/django_unicorn/views/request.py:31-43 | one turn of the intermediate-segment loop moves the cursor as the step specification says |
| PathTree.SetLeaf | src/django_unicorn/views/request.py:46-56 | the final-segment store fails only with a malformed index or a value of the wrong shape; `FinalSlot` and `FinalName` state what it stores |
| PathTree.StoreLeaf | src/django_unicorn/views/request.py:46-56 | the final-segment store (padded with `None` for a bracket segment) matches its specification |
| PathTree.Rebuild | src/django_unicorn/views/request.py:29-43 | rebuilding the tree from the cursor's path gives the tree the aliased updates leave |
| PathTree.DescendPath | src/django_unicorn/views/request.py:30-43 | the loop over all segments but the last either fails with exactly the walk's error, or stops at a cursor from which the walk of the last segment, rebuilt along the path taken, is the whole walk |
| PathTree.InsertField | src/django_unicorn/views/request.py:25-56 | the cursor loop over one form key computes exactly the recursive walk, its failures included |
| PathTree.InsertFile | src/django_unicorn/views/request.py:67-80 | the cursor loop over one file key computes exactly the file walk |
| PathTreeProperties.IntermediateSlot | src/django_unicorn/views/request.py:32-39 | an intermediate `name[i]` leaves a list of length max(len, i+1), with old elements kept, new slots `{}`, and the walk continuing inside slot `i` |
| PathTreeProperties.FinalSlot | src/django_unicorn/views/request.py:47-54 | a final `name[i]` leaves a list of length max(len, i+1), with the value at `i`, old elements kept and new slots `None` |
| PathTreeProperties.FinalName | src/django_unicorn/views/request.py:55-56 | a final plain name overwrites the entry at that key, and succeeds exactly on a dictionary |
| PathTreeProperties.WalkThenLookup | src/django_unicorn/views/request.py:29-56 | after a successful walk, the key's own address holds the value |
| PathTreeProperties.WalkKeepsOtherSlots | src/django_unicorn/views/request.py:37-39 | a walk through `name[i]` leaves every other existing slot of that list unchanged |
| PathTreeProperties.WalkDescendsIntoExisting | src/django_unicorn/views/request.py:35-43 | an existing child named by the first segment is reused: the new child is the walk of the rest from it |
| PathTreeProperties.WalkKeepsOtherEntries | src/django_unicorn/views/request.py:29-56 | every existing entry whose address parts from the key's at some segment is unchanged by the walk |
| PathTreeProperties.SiblingKeysShareSubtree | src/django_unicorn/views/request.py:29-43 | two keys sharing a prefix build one subtree in which both values are found at their addresses |
| PathTreeProperties.FileWalkIsPlainWalk | src/django_unicorn/views/request.py:69-73 | on keys without brackets the file walk equals the form-field walk |
| PathTreeProperties.FileWalkKeepsBrackets | src/django_unicorn/views/request.py:75-80 | the file walk stores a bracketed piece literally as a dictionary key |
| Multipart.PathParts | src/django_unicorn/views/request.py:25-28 | the segments of a `data.` key are never empty as a list |
| Multipart.AddField | src/django_unicorn/views/request.py:23-62 | one form field keeps the body a dictionary, and fails only with a decoder error |
| Multipart.FormPass | src/django_unicorn/views/request.py:22-62 | the form-field pass yields a dictionary or a decoder error |
| Multipart.Stored | src/django_unicorn/views/request.py:77-80 | exactly one file is stored as that file; any other number is stored as the list of the files, in order |
| Multipart.AddFiles | src/django_unicorn/views/request.py:66-80 | one file entry keeps the body a dictionary and fails only on a wrong shape |
| Multipart.FilePass | src/django_unicorn/views/request.py:65-80 | the file pass yields a dictionary or a decoder error |
| Multipart.MultipartData | src/django_unicorn/views/request.py:12-82 | the decoder yields a dictionary or one of its three error kinds |
| Multipart.FormPassFailureStays | src/django_unicorn/views/request.py:22-62 | once a field fails, the pass ends with that failure |
| Multipart.FilePassFailureStays | src/django_unicorn/views/request.py:65-80 | once a file entry fails, the pass ends with that failure |
| Multipart.ParseMultipartData | src/django_unicorn/views/request.py:12-82 | the two loops compute exactly the specification of both passes, form fields first, then files |
| Multipart.ParseFormFields | src/django_unicorn/views/request.py:21-62 | the loop over the form fields computes exactly the form pass, stopping at the first failing field |
| Multipart.PlaceFiles | src/django_unicorn/views/request.py:65-80 | the loop over the uploaded files computes exactly the file pass over the body the form loop built |
| MultipartProperties.DataKeyLandsAtTopLevel | src/django_unicorn/views/request.py:25-29 | `data.name = v` alone gives `{name: v}`, at the top level |
| MultipartProperties.SinglePathField | src/django_unicorn/views/request.py:18-56 | one path field and no files decode to one walk from `{}` |
| MultipartProperties.GapFillingWalk | src/django_unicorn/views/request.py:32-56 | `name[i].leaf` from `{}` gives a list of `i` empty dictionaries followed by `{leaf: v}` |
| MultipartProperties.IndexGapFilledWithEmptyMaps | src/django_unicorn/views/request.py:32-56 | `data.items[2].x = v` alone gives `{items: [{}, {}, {x: v}]}` |
| MultipartProperties.OtherKeyStoredVerbatim | src/django_unicorn/views/request.py:60-62 | any other key is stored as its string at the top level, replacing an earlier value |
| MultipartProperties.ActionQueueDecoded | src/django_unicorn/views/request.py:57-59 | `actionQueue` is stored as its JSON decoding, and malformed JSON fails the pass |
| MultipartProperties.FileReplacesFormValue | src/django_unicorn/views/request.py:75-80 | a file key overwrites a form value at the same name; one file is stored as a scalar, otherwise the list of files is stored in order |
| MultipartProperties.TwoFilesKeptInOrder | src/django_unicorn/views/request.py:77-80 | two files under one key become the two-element list in their order |
| ComponentRequests.Decoded | src/django_unicorn/views/request.py:106-116 | a multipart content type selects the form decoder; otherwise the body is JSON, failing exactly when JSON decoding fails |
| ComponentRequests.DecodeBody | src/django_unicorn/views/request.py:110-121 | a JSON decode error from either decoder becomes `UnicornViewError("Body could not be parsed")`; no other error is rewrapped |
| ComponentRequests.ChecksumVerdict | src/django_unicorn/views/request.py:180-188 | the gate passes iff the checksum is truthy and equals the digest of `data`; otherwise it reports "Missing checksum" or "Checksum does not match" |
| ComponentRequests.Iterate | src/django_unicorn/views/request.py:146 | the loop succeeds exactly on a list, an empty dictionary, an empty string or an empty file; a list yields its items, the empty values yield nothing, and every other value (`None`, a boolean, a number, a non-empty dictionary, string or file) fails with a wrong-shape error |
| ComponentRequests.CallMethodAction | src/django_unicorn/views/request.py:156-163 | `$refresh`, `$reset` and `$toggle` select their classes; every other name is `CallMethod` |
| ComponentRequests.Classify | src/django_unicorn/views/request.py:147-165 | `syncInput` gives SyncInput; a type other than `syncInput` or `callMethod` gives Action; a `callMethod` is classified by the parsed name of its payload; each keeps its raw dictionary |
| ComponentRequests.ClassifyAll | src/django_unicorn/views/request.py:144-165 | the queue succeeds iff every item classifies; it keeps length and order; otherwise it fails with the first failing item's error |
| ComponentRequests.ClassifyAllStopsAt | src/django_unicorn/views/request.py:146-165 | a failing prefix of the queue fails the whole queue the same way |
| ComponentRequests.Validate | src/django_unicorn/views/request.py:118-165 | the checks after decoding admit only bodies that pass every check, keeping the name given |
| ComponentRequests.Construct | src/django_unicorn/views/request.py:102-165 | construction never leaks a JSON decode error; a constructed request was decoded from the request and passed every check |
| ComponentRequestProperties.AdmittedIsAccepted | src/django_unicorn/views/request.py:118-165 | conversely, a body that passes every check and whose queue classifies is accepted with exactly those fields |
| ComponentRequestProperties.AdmittedIsConstructed | src/django_unicorn/views/request.py:102-165 | conversely, a request whose decoded body passes every check is constructed with exactly those fields |
| ComponentRequests.ComponentRequest.constructor | src/django_unicorn/views/request.py:103-104 | a new object has an empty body and the request |
| ComponentRequests.ComponentRequest.ValidateChecksum | src/django_unicorn/views/request.py:173-188 | the check reads the body and `data` and reports exactly the gate's verdict |
| ComponentRequests.ComponentRequest.BuildActionQueue | src/django_unicorn/views/request.py:144-165 | the append loop leaves the classified queue or the first item's error, and no other field changes |
| ComponentRequests.ComponentRequest.Init | src/django_unicorn/views/request.py:106-165 | `__init__` succeeds exactly when the specification does, with the fields it specifies, and fails with the same error otherwise |
| ComponentRequests.NewComponentRequest | src/django_unicorn/views/request.py:102-165 | the call gives a fresh object holding the constructed fields, or the error construction raises |
| ComponentRequestProperties.ValidationOrder | src/django_unicorn/views/request.py:118-142 | the first failing check of body, name, data, id, epoch, checksum is the one reported |
| ComponentRequestProperties.UndecodableBodyReportedFirst | src/django_unicorn/views/request.py:110-121 | a JSON decode failure is reported as `UnicornViewError` before anything else |
| ComponentRequestProperties.EmptyBodyIsAssertion | src/django_unicorn/views/request.py:118-121 | an empty JSON body raises `AssertionError("Invalid body")`, not `UnicornViewError` |
| ComponentRequestProperties.MultipartQueueNotParsed | src/django_unicorn/views/request.py:57-59 | a multipart `actionQueue` that is not JSON fails construction with `UnicornViewError` |
| ComponentRequestProperties.EmptyDataAccepted | src/django_unicorn/views/request.py:127-129 | an empty `data` dictionary is not rejected as missing |
| ComponentRequestProperties.ChecksumGate | src/django_unicorn/views/request.py:142-146 | past the other checks, a missing or mismatched checksum is reported; a constructed request carries the digest of its data; a truthy checksum equal to the digest lets construction through, which then succeeds exactly when the queue classifies |
| ComponentRequestProperties.GateBeforeClassification | src/django_unicorn/views/request.py:142-146 | while the checksum fails, the outcome does not depend on `actionQueue` |
| ComponentRequestProperties.ChecksumRoundTrip | src/django_unicorn/views/request.py:180-188 | checksum `digest(data)` is admitted; `digest(data) + "x"` is rejected as a mismatch |
| ComponentRequestProperties.QueueClassifiedInOrder | src/django_unicorn/views/request.py:144-165 | a constructed queue has the items' length and order; an unclassifiable item fails construction, and once every earlier check passes the error is that of the first unclassifiable item |
| ComponentRequestProperties.ClassifyFailsOnlyOn | src/django_unicorn/views/request.py:147-155 | classification fails exactly for a non-dictionary item, a `callMethod` whose payload is not a dictionary, or a rejected method name |
| ComponentRequestProperties.MissingPayloadDefaults | src/django_unicorn/views/request.py:148-154 | a `callMethod` without a payload is classified by the name parsed from "" |
| ComponentRequestProperties.CallMethodExamples | src/django_unicorn/views/request.py:152-163 | `$toggle`, `$refresh`, `$reset` and `save` give Toggle, Refresh, Reset and CallMethod |
| ComponentRequestProperties.FormPassLeavesDataOut | src/django_unicorn/views/request.py:22-62 | the form pass adds a `data` entry only for a key whose first segment names `data` |
| ComponentRequestProperties.FilePassLeavesDataOut | src/django_unicorn/views/request.py:65-80 | the file pass adds a `data` entry only for a key whose first piece is `data` |
| ComponentRequestProperties.MultipartPathFieldsMissData | src/django_unicorn/views/request.py:29 | a multipart request whose keys never name `data` first is rejected with "Missing data" |

## Left out

- `int()` is modelled on ASCII decimal digits only. Python also accepts a
  sign, surrounding whitespace, `_` separators and non-ASCII digits. Such a
  bracket index is `IndexParseError` here. With a negative index Python
  counts from the end of a non-empty list: an intermediate `name[-1]`
  descends into the last element and a final one overwrites it. On an
  empty or newly created list it raises `IndexError`.
- Indices are unbounded here. Python's `int()` refuses a digit string
  longer than its integer-string limit (4300 digits by default) with
  `ValueError`, and padding a list up to an index beyond the available
  memory raises `MemoryError` (request.py:37-38, :52-53). In both cases
  the model's `ParseSegment` and `Pad` succeed and build the list.
- Dictionaries have string keys. A final `name[i]` that finds a dictionary
  longer than `i` stores under the integer key `i` in Python; the model
  reports `ShapeError`. Python's integer-keyed entry cannot be expressed.
- Python's different runtime exceptions are one `ShapeError`:
  `TypeError` and `AttributeError` when a value has the wrong shape, and
  `KeyError` on a missing integer key.
- Key order of dictionaries is not modelled; maps are unordered.
- JSON numbers are integers. Floats and the JSON decoder's internals are
  not modelled, and `loads` is a parameter.
- `generate_checksum` and `parse_call_method_name` are parameters. Their
  modules are not part of this model. A rejection by the method-name
  parser is `MethodNameError`, and its arguments and keyword arguments are
  dropped.
- The `Action`, `SyncInput`, `CallMethod`, `Refresh`, `Reset` and `Toggle`
  constructors live in `views/action.py`, which is not part of this model.
  Each action only keeps the dictionary it was built from.
- Iterating an uploaded file as the `actionQueue` visits its lines. The
  model keeps only whether there are any, from the file's size.
- Django's `QueryDict` plumbing is not modelled: the `request.META`,
  `request.POST.items()`, `request.FILES.lists()` and `request.body`
  accessors. `POST.items()` yields the last value of a repeated key, and
  the model takes the pairs as yielded.
- `__repr__`, `logging` and `__slots__` are not modelled.
- ComponentRequests.ComponentRequest.Init: after a failure, the contract
  says nothing about the half-assigned fields, because the raised
  exception discards the object.
