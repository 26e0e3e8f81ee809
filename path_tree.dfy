/** The path-tree builder of `parse_multipart_data`: how one form key such as
    `data.items[2].name` is split into segments and how its value is stored
    in the nested body, walking down from the top-level dictionary. */
module PathTree {
  import opened Values
  import opened Text

  /** One dot-separated piece of a form key: `name` or `name[index]`. */
  datatype Segment = Plain(name: string) | Indexed(name: string, index: nat)

  /** The text between the first `[` and the first `]` of a piece: Python's
      slice `part[open + 1:close]`. */
  function IndexText(part: string): (digits: string)
    requires '[' in part && ']' in part
    ensures FirstIndex(part, '[') < FirstIndex(part, ']') ==>
      digits == part[FirstIndex(part, '[') + 1..FirstIndex(part, ']')]
    ensures FirstIndex(part, ']') <= FirstIndex(part, '[') ==> digits == ""
  {
    var open := FirstIndex(part, '[');
    var close := FirstIndex(part, ']');
    if open < close then part[open + 1..close] else ""
  }

  /** What the index text is: when the `[` comes first, the piece reads
      `name[digits]tail` with no `[` in `name` and no `]` in `digits`;
      when the `]` comes first, Python's slice is empty. */
  lemma IndexTextSplitsPart(part: string)
    requires '[' in part && ']' in part
    ensures
      var open := FirstIndex(part, '[');
      var close := FirstIndex(part, ']');
      var digits := IndexText(part);
      && (open < close ==>
            && part == part[..open] + "[" + digits + "]" + part[close + 1..]
            && '[' !in part[..open] && ']' !in digits)
      && (close <= open ==> digits == "")
  {
    var open := FirstIndex(part, '[');
    var close := FirstIndex(part, ']');
    if open < close {
      SplitAround(part, open, close);
      NotInSlice(part, 0, open, '[');
      NotInSlice(part, open + 1, close, ']');
    }
  }

  /** A character absent from positions `i` to `j` of `s` is not in that slice. */
  lemma NotInSlice(s: string, i: nat, j: nat, c: char)
    requires i <= j <= |s| && forall k :: i <= k < j ==> s[k] != c
    ensures c !in s[i..j]
  {
  }

  /** A string cut around two of its positions. */
  lemma SplitAround(s: string, i: nat, j: nat)
    requires i < j < |s|
    ensures s == s[..i] + [s[i]] + s[i + 1..j] + [s[j]] + s[j + 1..]
  {
    assert s[..i] + [s[i]] == s[..i + 1];
    assert s[..i + 1] + s[i + 1..j] == s[..j];
    assert s[..j] + [s[j]] == s[..j + 1];
  }

  /** How the decoder reads one piece of a key: a piece holding both `[` and
      `]` is `name[index]`, where `name` runs up to the first `[` and `index`
      is `int()` of the text between the first `[` and the first `]`; any
      other piece is a plain name. */
  function ParseSegment(part: string): (r: Result<Segment, Error>)
    ensures r.Failure? <==> '[' in part && ']' in part && !IsDigits(IndexText(part))
    ensures r.Failure? ==> r.error == IndexParseError(part)
    ensures r.Success? ==> (r.value.Plain? <==> !('[' in part && ']' in part))
    ensures r.Success? && r.value.Plain? ==> r.value.name == part
    ensures r.Success? && r.value.Indexed? ==>
      && '[' in part && ']' in part
      && r.value.name == part[..FirstIndex(part, '[')]
      && r.value.index == DecimalValue(IndexText(part))
    ensures r.Success? && r.value.Indexed? ==> '[' !in r.value.name
  {
    if '[' in part && ']' in part then
      var open := FirstIndex(part, '[');
      var digits := IndexText(part);
      if IsDigits(digits) then
        assert forall k :: 0 <= k < open ==> part[..open][k] == part[k];
        Success(Indexed(part[..open], DecimalValue(digits)))
      else
        Failure(IndexParseError(part))
    else
      Success(Plain(part))
  }

  /** How a client writes a segment into a form key. */
  function RenderSegment(seg: Segment): (text: string) {
    match seg
    case Plain(name) => name
    case Indexed(name, index) => name + "[" + DecimalString(index) + "]"
  }

  /** Rendering a segment whose name holds no bracket and parsing it back
      gives the same segment. */
  lemma ParseRenderedSegment(seg: Segment)
    requires '[' !in seg.name && ']' !in seg.name
    ensures ParseSegment(RenderSegment(seg)) == Success(seg)
  {
    if seg.Indexed? {
      var n, d := seg.name, DecimalString(seg.index);
      var part := RenderSegment(seg);
      assert part == n + "[" + d + "]";
      assert part[|n|] == '[';
      assert forall k :: 0 <= k < |n| ==> part[k] == n[k];
      assert FirstIndex(part, '[') == |n|;
      assert forall k :: 0 <= k < |d| ==> part[|n| + 1 + k] == d[k];
      assert part[|n| + 1 + |d|] == ']';
      assert FirstIndex(part, ']') == |n| + 1 + |d|;
      assert part[|n| + 1..|n| + 1 + |d|] == d;
      assert part[..|n|] == n;
      DecimalRoundTrip(seg.index);
    }
  }

  /** Segments that address different entries: different names, or two
      slots of the same list. */
  predicate Disjoint(a: Segment, b: Segment) {
    a.name != b.name || (a.Indexed? && b.Indexed? && a.index != b.index)
  }

  /** The list `xs` after `while len(xs) <= index: xs.append(filler)`. */
  function Pad(xs: seq<Value>, index: nat, filler: Value): (ys: seq<Value>) {
    if index < |xs| then xs else xs + seq(index + 1 - |xs|, _ => filler)
  }

  /** The placeholder loop itself: it makes `index` a valid position, keeps
      every element already there and adds only `filler` slots at the end. */
  method PadList(xs: seq<Value>, index: nat, filler: Value) returns (ys: seq<Value>)
    ensures |ys| == if index < |xs| then |xs| else index + 1
    ensures ys[..|xs|] == xs
    ensures forall j :: |xs| <= j < |ys| ==> ys[j] == filler
    ensures ys == Pad(xs, index, filler)
  {
    ys := xs;
    while |ys| <= index
      invariant |xs| <= |ys| <= if index < |xs| then |xs| else index + 1
      invariant ys[..|xs|] == xs
      invariant forall j :: |xs| <= j < |ys| ==> ys[j] == filler
    {
      ys := ys + [filler];
    }
  }

  /** Storing `value` under the last segment of a key, at the dictionary
      `cur` the walk has reached: `cur[name] = value`, or for `name[index]`
      the list at `name` (created if absent) padded with `None` and
      `value` put at `index`. */
  function SetLeaf(cur: Value, part: string, value: Value): (r: Result<Value, Error>)
    ensures r.Failure? ==> r.error == ShapeError || r.error.IndexParseError?
  {
    match ParseSegment(part)
    case Failure(e) => Failure(e)
    case Success(Plain(k)) =>
      if cur.Map? then Success(Map(cur.fields[k := value])) else Failure(ShapeError)
    case Success(Indexed(b, i)) =>
      if !cur.Map? then Failure(ShapeError)
      else
        var list := Get(cur.fields, b, List([]));
        if !list.List? then Failure(ShapeError)
        else Success(Map(cur.fields[b := List(Pad(list.items, i, Null)[i := value])]))
  }

  /** The walk of the form-field pass, from the dictionary `cur` along the
      segments `parts` of one key: every segment but the last descends,
      creating `{}` for a missing name and, for `name[index]`, the list at
      `name` padded with `{}` up to `index` (a string longer than `index` is
      not padded: the walk goes on from its character, where nothing can be
      stored); the last segment stores `value`. A successful walk starts and ends at a dictionary, and
      leaves every entry but the one its first segment names as it was. */
  function Walk(cur: Value, parts: seq<string>, value: Value): (r: Result<Value, Error>)
    requires |parts| >= 1
    ensures r.Success? ==> cur.Map? && r.value.Map? && ParseSegment(parts[0]).Success?
    ensures r.Success? ==>
      var k := ParseSegment(parts[0]).value.name;
      && r.value.fields.Keys == cur.fields.Keys + {k}
      && forall x :: x in cur.fields && x != k ==> r.value.fields[x] == cur.fields[x]
    decreases |parts|
  {
    if |parts| == 1 then
      SetLeaf(cur, parts[0], value)
    else
      match ParseSegment(parts[0])
      case Failure(e) => Failure(e)
      case Success(seg) =>
        if !cur.Map? then Failure(ShapeError)
        else
          match seg
          case Plain(k) =>
            (match Walk(Get(cur.fields, k, Map(map[])), parts[1..], value)
             case Failure(e) => Failure(e)
             case Success(child) => Success(Map(cur.fields[k := child])))
          case Indexed(b, i) =>
            var list := Get(cur.fields, b, List([]));
            if list.Str? && i < |list.s| then
              Walk(Str([list.s[i]]), parts[1..], value)
            else if !list.List? then Failure(ShapeError)
            else
              var xs := Pad(list.items, i, Map(map[]));
              match Walk(xs[i], parts[1..], value)
              case Failure(e) => Failure(e)
              case Success(child) => Success(Map(cur.fields[b := List(xs[i := child])]))
  }

  /** The walk of the file pass: every segment is a plain name, even one
      holding brackets; missing names become `{}` and the last segment
      stores `stored`. */
  function FileWalk(cur: Value, parts: seq<string>, stored: Value): (r: Result<Value, Error>)
    requires |parts| >= 1
    ensures r.Success? ==> cur.Map? && r.value.Map?
    ensures r.Success? ==>
      && r.value.fields.Keys == cur.fields.Keys + {parts[0]}
      && forall x :: x in cur.fields && x != parts[0] ==> r.value.fields[x] == cur.fields[x]
    decreases |parts|
  {
    if !cur.Map? then
      Failure(ShapeError)
    else if |parts| == 1 then
      Success(Map(cur.fields[parts[0] := stored]))
    else
      match FileWalk(Get(cur.fields, parts[0], Map(map[])), parts[1..], stored)
      case Failure(e) => Failure(e)
      case Success(child) => Success(Map(cur.fields[parts[0] := child]))
  }

  /** The form-field walk fails only on a malformed index or a value of
      the wrong shape. */
  lemma {:induction false} WalkFailureKinds(cur: Value, parts: seq<string>, value: Value)
    requires |parts| >= 1
    ensures Walk(cur, parts, value).Failure? ==>
      Walk(cur, parts, value).error == ShapeError || Walk(cur, parts, value).error.IndexParseError?
    decreases |parts|
  {
    if |parts| > 1 && cur.Map? && ParseSegment(parts[0]).Success? {
      match ParseSegment(parts[0]).value
      case Plain(k) =>
        WalkFailureKinds(Get(cur.fields, k, Map(map[])), parts[1..], value);
      case Indexed(b, i) =>
        var list := Get(cur.fields, b, List([]));
        if list.Str? && i < |list.s| {
          WalkFailureKinds(Str([list.s[i]]), parts[1..], value);
        } else if list.List? {
          WalkFailureKinds(Pad(list.items, i, Map(map[]))[i], parts[1..], value);
        }
    }
  }

  /** The file walk fails only on a value of the wrong shape. */
  lemma {:induction false} FileWalkFailureKind(cur: Value, parts: seq<string>, stored: Value)
    requires |parts| >= 1
    ensures FileWalk(cur, parts, stored).Failure? ==> FileWalk(cur, parts, stored).error == ShapeError
    decreases |parts|
  {
    if |parts| > 1 && cur.Map? {
      FileWalkFailureKind(Get(cur.fields, parts[0], Map(map[])), parts[1..], stored);
    }
  }

  /** Reading the entry a key addresses, following the same segment syntax. */
  function Lookup(v: Value, parts: seq<string>): (entry: Option<Value>)
    decreases |parts|
  {
    if parts == [] then
      Some(v)
    else
      match ParseSegment(parts[0])
      case Failure(_) => None
      case Success(Plain(k)) =>
        if v.Map? && k in v.fields then Lookup(v.fields[k], parts[1..]) else None
      case Success(Indexed(b, i)) =>
        if v.Map? && b in v.fields && v.fields[b].List? && i < |v.fields[b].items|
        then Lookup(v.fields[b].items[i], parts[1..])
        else None
  }

  // ---------------------------------------------------------------------
  // The cursor of the source: the walk as a loop over a path of frames.
  // ---------------------------------------------------------------------

  /** Where the cursor stands relative to its parent dictionary: at the
      entry `key`, at slot `index` of the list `items` under `key`, or at
      character `index` of the string `text` under `key`. */
  datatype Frame =
    | FieldFrame(fields: map<string, Value>, key: string)
    | SlotFrame(fields: map<string, Value>, key: string, items: seq<Value>, index: nat)
    | CharFrame(fields: map<string, Value>, key: string, text: string, index: nat)

  /** The parent dictionary once the child under the cursor is `v`. A
      character cannot be replaced, so a `CharFrame` leaves the parent as it
      was; no walk through one succeeds. */
  function Plug(f: Frame, v: Value): (parent: Value) {
    match f
    case FieldFrame(m, k) => Map(m[k := v])
    case SlotFrame(m, k, xs, i) => Map(m[k := List(if i < |xs| then xs[i := v] else xs)])
    case CharFrame(m, _, _, _) => Map(m)
  }

  /** The whole tree once the child under the innermost frame is `v`. */
  function Unwind(path: seq<Frame>, v: Value): (tree: Value)
    decreases |path|
  {
    if path == [] then v else Unwind(path[..|path| - 1], Plug(path[|path| - 1], v))
  }

  /** The parent dictionary once the walk below the frame has ended. */
  function PlugResult(f: Frame, r: Result<Value, Error>): (plugged: Result<Value, Error>) {
    match r
    case Failure(e) => Failure(e)
    case Success(v) => Success(Plug(f, v))
  }

  function Rewrap(path: seq<Frame>, r: Result<Value, Error>): (rewrapped: Result<Value, Error>) {
    match r
    case Failure(e) => Failure(e)
    case Success(v) => Success(Unwind(path, v))
  }

  lemma RewrapPush(path: seq<Frame>, f: Frame, r: Result<Value, Error>)
    ensures Rewrap(path + [f], r) == Rewrap(path, PlugResult(f, r))
  {
    assert (path + [f])[..|path|] == path;
  }

  /** One non-final step of the form-field walk: the frame the cursor
      leaves behind and the child it moves to. */
  function Descend(cur: Value, part: string): (step: Result<(Frame, Value), Error>) {
    match ParseSegment(part)
    case Failure(e) => Failure(e)
    case Success(seg) =>
      if !cur.Map? then Failure(ShapeError)
      else
        match seg
        case Plain(k) => Success((FieldFrame(cur.fields, k), Get(cur.fields, k, Map(map[]))))
        case Indexed(b, i) =>
          var list := Get(cur.fields, b, List([]));
          if list.Str? && i < |list.s| then Success((CharFrame(cur.fields, b, list.s, i), Str([list.s[i]])))
          else if !list.List? then Failure(ShapeError)
          else
            var xs := Pad(list.items, i, Map(map[]));
            Success((SlotFrame(cur.fields, b, xs, i), xs[i]))
  }

  lemma WalkStep(cur: Value, parts: seq<string>, value: Value)
    requires |parts| >= 2
    ensures Descend(cur, parts[0]).Failure? ==> Walk(cur, parts, value) == Failure(Descend(cur, parts[0]).error)
    ensures Descend(cur, parts[0]).Success? ==>
      var (frame, child) := Descend(cur, parts[0]).value;
      Walk(cur, parts, value) == PlugResult(frame, Walk(child, parts[1..], value))
  {
  }

  lemma WalkLast(cur: Value, part: string, value: Value)
    ensures Walk(cur, [part], value) == SetLeaf(cur, part, value)
  {
  }

  /** One non-final step as the source writes it (the body of the loop over
      `parts[:-1]`): create the entry or the padded list, then move. */
  method DescendStep(current: Value, part: string) returns (d: Result<(Frame, Value), Error>)
    ensures d == Descend(current, part)
  {
    var seg := ParseSegment(part);
    if seg.Failure? {
      return Failure(seg.error);
    }
    if !current.Map? {
      return Failure(ShapeError);
    }
    match seg.value {
      case Plain(k) =>
        var child := if k in current.fields then current.fields[k] else Map(map[]);
        d := Success((FieldFrame(current.fields, k), child));
      case Indexed(b, n) =>
        var list := if b in current.fields then current.fields[b] else List([]);
        if list.Str? && n < |list.s| {
          return Success((CharFrame(current.fields, b, list.s, n), Str([list.s[n]])));
        }
        if !list.List? {
          return Failure(ShapeError);
        }
        var xs := PadList(list.items, n, Map(map[]));
        d := Success((SlotFrame(current.fields, b, xs, n), xs[n]));
    }
  }

  /** The last step of the form-field walk as the source writes it: the
      padding loop with `None`, then the assignment. */
  method StoreLeaf(current: Value, part: string, value: Value) returns (r: Result<Value, Error>)
    ensures r == SetLeaf(current, part, value)
  {
    var seg := ParseSegment(part);
    if seg.Failure? {
      return Failure(seg.error);
    }
    if !current.Map? {
      return Failure(ShapeError);
    }
    match seg.value {
      case Plain(k) =>
        r := Success(Map(current.fields[k := value]));
      case Indexed(b, n) =>
        var list := if b in current.fields then current.fields[b] else List([]);
        if !list.List? {
          return Failure(ShapeError);
        }
        var xs := PadList(list.items, n, Null);
        r := Success(Map(current.fields[b := List(xs[n := value])]));
    }
  }

  /** Rebuilds the tree from the path the cursor took. */
  method Rebuild(path: seq<Frame>, leaf: Value) returns (v: Value)
    ensures v == Unwind(path, leaf)
  {
    var rest := path;
    v := leaf;
    while rest != []
      invariant Unwind(path, leaf) == Unwind(rest, v)
    {
      v := Plug(rest[|rest| - 1], v);
      rest := rest[..|rest| - 1];
    }
  }

  /** One turn of the descent keeps the whole walk equal to the walk that
      remains, rebuilt along the path: a failing step is the walk's error. */
  lemma WalkAdvance(data: Value, parts: seq<string>, value: Value, path: seq<Frame>, current: Value, i: nat)
    requires i < |parts| - 1
    requires Walk(data, parts, value) == Rewrap(path, Walk(current, parts[i..], value))
    ensures Descend(current, parts[i]).Failure? ==>
      Walk(data, parts, value) == Failure(Descend(current, parts[i]).error)
    ensures Descend(current, parts[i]).Success? ==>
      var (frame, child) := Descend(current, parts[i]).value;
      Walk(data, parts, value) == Rewrap(path + [frame], Walk(child, parts[i + 1..], value))
  {
    assert parts[i..][0] == parts[i] && parts[i..][1..] == parts[i + 1..];
    WalkStep(current, parts[i..], value);
    if Descend(current, parts[i]).Success? {
      var (frame, child) := Descend(current, parts[i]).value;
      RewrapPush(path, frame, Walk(child, parts[i + 1..], value));
    }
  }

  /** The loop over `parts[:-1]`: the cursor moves down the tree, creating
      and padding as it goes. On success the whole walk is the walk of the
      last segment from where the cursor stopped, rebuilt along the path it
      took; on failure it is the step's error. */
  method DescendPath(data: Value, parts: seq<string>, value: Value)
    returns (r: Result<(seq<Frame>, Value), Error>)
    requires |parts| >= 1
    ensures r.Failure? ==> Walk(data, parts, value) == Failure(r.error)
    ensures r.Success? ==>
      Walk(data, parts, value) == Rewrap(r.value.0, Walk(r.value.1, [parts[|parts| - 1]], value))
  {
    var current := data;
    var path: seq<Frame> := [];
    var i := 0;
    while i < |parts| - 1
      invariant 0 <= i <= |parts| - 1
      invariant Walk(data, parts, value) == Rewrap(path, Walk(current, parts[i..], value))
    {
      var step := DescendStep(current, parts[i]);
      WalkAdvance(data, parts, value, path, current, i);
      if step.Failure? {
        return Failure(step.error);
      }
      var (frame, child) := step.value;
      path := path + [frame];
      current := child;
      i := i + 1;
    }
    assert parts[i..] == [parts[|parts| - 1]];
    r := Success((path, current));
  }

  /** The form-field walk as the source runs it: a cursor moves down the
      tree, creating and padding as it goes, stores the value, and the tree
      is rebuilt from the path it took. */
  method InsertField(data: Value, parts: seq<string>, value: Value) returns (r: Result<Value, Error>)
    requires |parts| >= 1
    ensures r == Walk(data, parts, value)
  {
    var descent := DescendPath(data, parts, value);
    if descent.Failure? {
      return Failure(descent.error);
    }
    var (path, current) := descent.value;
    var last := parts[|parts| - 1];
    WalkLast(current, last, value);
    var leaf := StoreLeaf(current, last, value);
    if leaf.Failure? {
      return leaf;
    }
    var tree := Rebuild(path, leaf.value);
    r := Success(tree);
  }

  /** The file-pass walk as the source runs it, with the same cursor. */
  method InsertFile(data: Value, parts: seq<string>, stored: Value) returns (r: Result<Value, Error>)
    requires |parts| >= 1
    ensures r == FileWalk(data, parts, stored)
  {
    var current := data;
    var path: seq<Frame> := [];
    var i := 0;
    while i < |parts| - 1
      invariant 0 <= i <= |parts| - 1
      invariant FileWalk(data, parts, stored) == Rewrap(path, FileWalk(current, parts[i..], stored))
    {
      assert parts[i..][0] == parts[i] && parts[i..][1..] == parts[i + 1..];
      if !current.Map? {
        return Failure(ShapeError);
      }
      var child := if parts[i] in current.fields then current.fields[parts[i]] else Map(map[]);
      RewrapPush(path, FieldFrame(current.fields, parts[i]), FileWalk(child, parts[i + 1..], stored));
      path := path + [FieldFrame(current.fields, parts[i])];
      current := child;
      i := i + 1;
    }
    assert parts[i..] == [parts[i]];
    if !current.Map? {
      return Failure(ShapeError);
    }
    var tree := Rebuild(path, Map(current.fields[parts[i] := stored]));
    r := Success(tree);
  }
}
