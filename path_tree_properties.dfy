/** What one form key does to the body: the shape of the lists it pads,
    the value it leaves at its own address, and the entries it leaves alone. */
module PathTreeProperties {
  import opened Values
  import opened Text
  import opened PathTree

  /** An intermediate `name[i]`: the list at `name` (created empty if
      absent) grows to at least `i + 1` elements, only by new `{}` slots at
      its end, every other element stays, and the walk goes on inside
      element `i`. */
  lemma IntermediateSlot(cur: Value, parts: seq<string>, value: Value, name: string, i: nat)
    requires |parts| >= 2 && ParseSegment(parts[0]) == Success(Indexed(name, i))
    requires Walk(cur, parts, value).Success?
    ensures cur.Map?
    ensures
      var before := Get(cur.fields, name, List([]));
      var after := Walk(cur, parts, value).value.fields[name];
      && before.List? && after.List?
      && |after.items| == (if i < |before.items| then |before.items| else i + 1)
      && (forall j :: 0 <= j < |before.items| && j != i ==> after.items[j] == before.items[j])
      && (forall j :: |before.items| <= j < |after.items| && j != i ==> after.items[j] == Map(map[]))
      && Walk(if i < |before.items| then before.items[i] else Map(map[]), parts[1..], value)
         == Success(after.items[i])
  {
  }

  /** An intermediate `name[i]` whose entry is a string longer than `i`
      moves the cursor onto that character without padding; what follows
      then fails, with the next segment's own index error if it has one and
      otherwise because nothing can be stored in a string. */
  lemma WalkThroughStringCharacter(fields: map<string, Value>, head: string, rest: seq<string>,
                                   name: string, i: nat, text: string, value: Value)
    requires ParseSegment(head) == Success(Indexed(name, i)) && i < |text| && |rest| >= 1
    ensures ParseSegment(rest[0]).Failure? ==>
      Walk(Map(fields[name := Str(text)]), [head] + rest, value) == Failure(IndexParseError(rest[0]))
    ensures ParseSegment(rest[0]).Success? ==>
      Walk(Map(fields[name := Str(text)]), [head] + rest, value) == Failure(ShapeError)
  {
    assert ([head] + rest)[0] == head;
    assert ([head] + rest)[1..] == rest;
  }

  lemma BracketPositions(name: string, digits: string, tail: string)
    requires '[' !in name && ']' !in name && IsDigits(digits)
    ensures var part := name + "[" + digits + "]" + tail;
      && '[' in part && ']' in part
      && FirstIndex(part, '[') == |name|
      && FirstIndex(part, ']') == |name| + 1 + |digits|
      && part[..|name|] == name
      && part[|name| + 1..|name| + 1 + |digits|] == digits
  {
    var part := name + "[" + digits + "]" + tail;
    assert part[|name|] == '[';
    assert forall k :: 0 <= k < |name| ==> part[k] == name[k];
    assert forall k :: 0 <= k < |digits| ==> part[|name| + 1 + k] == digits[k];
    assert part[|name| + 1 + |digits|] == ']';
  }

  /** The index is read from the first `[` to the first `]` only: whatever
      follows that `]`, brackets included, is ignored. */
  lemma ParseSegmentIgnoresTail(name: string, digits: string, tail: string)
    requires '[' !in name && ']' !in name && IsDigits(digits)
    ensures ParseSegment(name + "[" + digits + "]" + tail) == Success(Indexed(name, DecimalValue(digits)))
  {
    BracketPositions(name, digits, tail);
    assert IndexText(name + "[" + digits + "]" + tail) == digits;
  }

  /** Leading zeros of an index do not change it: `a[01]` is slot 1. */
  lemma {:induction false} LeadingZeroIgnored(digits: string)
    requires IsDigits(digits)
    ensures IsDigits("0" + digits) && DecimalValue("0" + digits) == DecimalValue(digits)
    decreases |digits|
  {
    var s := "0" + digits;
    assert s[..|s| - 1] == "0" + digits[..|digits| - 1];
    if |digits| > 1 {
      LeadingZeroIgnored(digits[..|digits| - 1]);
    } else {
      assert DecimalValue(s[..|s| - 1]) == 10 * DecimalValue("") + 0;
    }
  }

  /** A final `name[i]`: the list at `name` grows to at least `i + 1`
      elements, the new slots are `None`, `value` is at `i`, and every
      other element stays. */
  lemma FinalSlot(cur: Value, part: string, value: Value, name: string, i: nat)
    requires ParseSegment(part) == Success(Indexed(name, i))
    requires Walk(cur, [part], value).Success?
    ensures cur.Map?
    ensures
      var before := Get(cur.fields, name, List([]));
      var after := Walk(cur, [part], value).value.fields[name];
      && before.List? && after.List?
      && |after.items| == (if i < |before.items| then |before.items| else i + 1)
      && after.items[i] == value
      && (forall j :: 0 <= j < |before.items| && j != i ==> after.items[j] == before.items[j])
      && (forall j :: |before.items| <= j < |after.items| && j != i ==> after.items[j] == Null)
  {
  }

  /** A final plain name overwrites whatever the dictionary held there. */
  lemma FinalName(cur: Value, part: string, value: Value)
    requires !('[' in part && ']' in part)
    ensures Walk(cur, [part], value).Success? <==> cur.Map?
    ensures cur.Map? ==> Walk(cur, [part], value) == Success(Map(cur.fields[part := value]))
  {
  }

  /** After a successful walk, the key's own address holds the value. */
  lemma {:induction false} WalkThenLookup(cur: Value, parts: seq<string>, value: Value)
    requires |parts| >= 1
    requires Walk(cur, parts, value).Success?
    ensures Lookup(Walk(cur, parts, value).value, parts) == Some(value)
    decreases |parts|
  {
    var r := Walk(cur, parts, value).value;
    assert parts[1..] == [] ==> Lookup(value, parts[1..]) == Some(value);
    if |parts| > 1 {
      match ParseSegment(parts[0]).value
      case Plain(k) =>
        WalkThenLookup(Get(cur.fields, k, Map(map[])), parts[1..], value);
      case Indexed(b, i) =>
        var xs := Pad(Get(cur.fields, b, List([])).items, i, Map(map[]));
        WalkThenLookup(xs[i], parts[1..], value);
    }
  }

  /** A walk through `name[i]` leaves the other existing slots of that list. */
  lemma WalkKeepsOtherSlots(cur: Value, p: seq<string>, value: Value, name: string, i: nat, j: nat)
    requires |p| >= 1 && ParseSegment(p[0]) == Success(Indexed(name, i)) && i != j
    requires Walk(cur, p, value).Success?
    requires name in cur.fields && cur.fields[name].List? && j < |cur.fields[name].items|
    ensures Walk(cur, p, value).value.fields[name].List?
    ensures Walk(cur, p, value).value.fields[name].items[j] == cur.fields[name].items[j]
  {
  }

  /** A walk of two or more segments rebuilds the child its first segment
      names, when that child already existed, from the rest of the key. */
  lemma WalkDescendsIntoExisting(cur: Value, p: seq<string>, value: Value, child: Value)
    requires |p| >= 2 && Walk(cur, p, value).Success?
    requires Lookup(cur, p[..1]) == Some(child)
    ensures Walk(child, p[1..], value).Success?
    ensures Lookup(Walk(cur, p, value).value, p[..1]) == Some(Walk(child, p[1..], value).value)
  {
    assert p[..1][1..] == [];
    assert p[..1][0] == p[0];
    match ParseSegment(p[0]).value
    case Plain(x) =>
    case Indexed(x, i) =>
      assert Pad(cur.fields[x].items, i, Map(map[])) == cur.fields[x].items;
  }

  /** Reading a key of one segment or more: the first segment, then the rest. */
  lemma LookupSplit(v: Value, q: seq<string>)
    requires |q| >= 1
    ensures Lookup(v, q)
         == match Lookup(v, q[..1]) case None => None case Some(c) => Lookup(c, q[1..])
  {
    assert q[..1][1..] == [];
    assert q[..1][0] == q[0];
  }

  /** The k = 0 case below: the two keys part at their first segment. */
  lemma WalkKeepsDisjointEntry(cur: Value, p: seq<string>, q: seq<string>, value: Value)
    requires |p| >= 1 && |q| >= 1
    requires ParseSegment(p[0]).Success? && ParseSegment(q[0]).Success?
    requires Disjoint(ParseSegment(p[0]).value, ParseSegment(q[0]).value)
    requires Walk(cur, p, value).Success? && Lookup(cur, q).Some?
    ensures Lookup(Walk(cur, p, value).value, q) == Lookup(cur, q)
  {
    var r := Walk(cur, p, value).value;
    var sp := ParseSegment(p[0]).value;
    var sq := ParseSegment(q[0]).value;
    if sq.name != sp.name {
      assert r.fields[sq.name] == cur.fields[sq.name];
    } else {
      WalkKeepsOtherSlots(cur, p, value, sp.name, sp.index, sq.index);
    }
  }

  lemma CommonPrefixTail(p: seq<string>, q: seq<string>, k: nat)
    requires 0 < k < |p| && k < |q| && p[..k] == q[..k]
    ensures p[..1] == q[..1] && p[1..][..k - 1] == q[1..][..k - 1]
    ensures p[1..][k - 1] == p[k] && q[1..][k - 1] == q[k]
  {
    assert p[..1] == p[..k][..1] && q[..1] == q[..k][..1];
    assert p[1..][..k - 1] == p[..k][1..];
    assert q[1..][..k - 1] == q[..k][1..];
  }

  /** A walk leaves every entry that existed before and that its key does
      not address unchanged: `q` agrees with `p` up to position `k`, where
      the two name different entries. */
  lemma {:induction false} WalkKeepsOtherEntries(cur: Value, p: seq<string>, q: seq<string>, k: nat, value: Value)
    requires k < |p| && k < |q| && p[..k] == q[..k]
    requires ParseSegment(p[k]).Success? && ParseSegment(q[k]).Success?
    requires Disjoint(ParseSegment(p[k]).value, ParseSegment(q[k]).value)
    requires Walk(cur, p, value).Success? && Lookup(cur, q).Some?
    ensures Lookup(Walk(cur, p, value).value, q) == Lookup(cur, q)
    decreases k
  {
    if k == 0 {
      WalkKeepsDisjointEntry(cur, p, q, value);
    } else {
      var r := Walk(cur, p, value).value;
      CommonPrefixTail(p, q, k);
      LookupSplit(cur, q);
      LookupSplit(r, q);
      var child := Lookup(cur, q[..1]).value;
      WalkDescendsIntoExisting(cur, p, value, child);
      WalkKeepsOtherEntries(child, p[1..], q[1..], k - 1, value);
    }
  }

  /** Two keys that share a prefix and then part build one subtree: after
      both walks each key's address holds its own value. */
  lemma SiblingKeysShareSubtree(cur: Value, p: seq<string>, q: seq<string>, k: nat, v1: Value, v2: Value)
    requires k < |p| && k < |q| && p[..k] == q[..k]
    requires ParseSegment(p[k]).Success? && ParseSegment(q[k]).Success?
    requires Disjoint(ParseSegment(p[k]).value, ParseSegment(q[k]).value)
    requires Walk(cur, p, v1).Success?
    requires Walk(Walk(cur, p, v1).value, q, v2).Success?
    ensures
      var both := Walk(Walk(cur, p, v1).value, q, v2).value;
      Lookup(both, p) == Some(v1) && Lookup(both, q) == Some(v2)
  {
    var first := Walk(cur, p, v1).value;
    WalkThenLookup(cur, p, v1);
    WalkThenLookup(first, q, v2);
    WalkKeepsOtherEntries(first, q, p, k, v2);
  }

  /** On keys without bracket syntax the file pass walks exactly like the
      form-field pass. */
  lemma {:induction false} FileWalkIsPlainWalk(cur: Value, parts: seq<string>, stored: Value)
    requires |parts| >= 1
    requires forall j :: 0 <= j < |parts| ==> !('[' in parts[j] && ']' in parts[j])
    ensures FileWalk(cur, parts, stored) == Walk(cur, parts, stored)
    decreases |parts|
  {
    if |parts| > 1 && cur.Map? {
      FileWalkIsPlainWalk(Get(cur.fields, parts[0], Map(map[])), parts[1..], stored);
    }
  }

  /** The file pass stores a bracketed name literally, as a dictionary key. */
  lemma FileWalkKeepsBrackets(cur: Value, part: string, stored: Value)
    requires cur.Map?
    ensures FileWalk(cur, [part], stored) == Success(Map(cur.fields[part := stored]))
  {
  }
}
