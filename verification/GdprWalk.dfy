/**
  How the walk is written: the loops that rewrite a document in place, path string by path
  string, and the whole round trip for a schema.
*/
module GdprWalk {
  import opened Helpers
  import opened GdprPaths
  import opened GdprRoundTrip
  import opened GdprMarks

  // ---- The walk ------------------------------------------------------------------------------------

  lemma Uncons<T>(x: T, s: seq<T>)
    ensures ([x] + s)[0] == x && ([x] + s)[1..] == s
  {
  }

  lemma StepsUnfold(segments: seq<Segment>)
    requires segments != []
    ensures var p, rest := Steps(segments), Steps(segments[1..]);
      && p != [] && p[0] == Key(segments[0].key)
      && (if segments[0].isArray then p[1..] != [] && p[1..][0] == Each && p[1..][1..] == rest else p[1..] == rest)
  {
    var rest := Steps(segments[1..]);
    var tail := if segments[0].isArray then [Each] + rest else rest;
    assert Steps(segments) == [Key(segments[0].key)] + tail;
    Uncons(Key(segments[0].key), tail);
    Uncons(Each, rest);
  }

  /** `_apply_at_path`; no segments means nothing is addressed. */
  method ApplyAtPath(op: Op, at: Location, segments: seq<Segment>, node: Json) returns (r: Option<Json>)
    ensures r == if segments == [] then Some(node) else Apply(op, at, Steps(segments), node)
    decreases |segments|, 1
  {
    if segments == [] { return Some(node); }
    var key, last := segments[0].key, |segments| == 1;
    if !node.Obj? || key !in node.members { return Some(node); }
    var child := node.members[key];
    var here := at + [At(key)];
    var rest := Steps(segments[1..]);
    var changed: Option<Json>;
    StepsUnfold(segments);
    if segments[0].isArray {
      if !child.Arr? {
        assert node.members[key := child] == node.members;
        return Some(node);
      }
      var items := ApplyAtElements(op, here, segments[1..], child.items);
      changed := if items.None? then None else Some(Arr(items.value));
    } else {
      if last {
        changed := op(here, child);
      } else {
        changed := ApplyAtPath(op, here, segments[1..], child);
      }
    }
    return if changed.None? then None else Some(Obj(node.members[key := changed.value]));
  }

  // Its loop over the elements of an array; no segments means the elements themselves.
  method ApplyAtElements(op: Op, at: Location, segments: seq<Segment>, elements: seq<Json>)
    returns (r: Option<seq<Json>>)
    ensures r == ApplyEach(op, at, Steps(segments), elements, 0)
    decreases |segments|, 2
  {
    var items: seq<Json> := [];
    ghost var all := ApplyEach(op, at, Steps(segments), elements, 0);
    assert elements[0..] == elements && (all.Some? ==> [] + all.value == all.value);
    for i := 0 to |elements|
      invariant |items| == i
      invariant ApplyEach(op, at, Steps(segments), elements, 0)
             == Prefixed(items, ApplyEach(op, at, Steps(segments), elements[i..], i))
    {
      var elem: Option<Json>;
      if segments == [] {
        elem := op(at + [Index(i)], elements[i]);
      } else {
        elem := ApplyAtPath(op, at + [Index(i)], segments, elements[i]);
      }
      ghost var tail := ApplyEach(op, at, Steps(segments), elements[i + 1..], i + 1);
      assert elements[i..][1..] == elements[i + 1..];
      if elem.None? { return None; }
      assert tail.Some? ==> items + ([elem.value] + tail.value) == (items + [elem.value]) + tail.value;
      items := items + [elem.value];
    }
    assert elements[|elements|..] == [] && items + [] == items;
    return Some(items);
  }

  ghost function Prefixed(done: seq<Json>, rest: Option<seq<Json>>): Option<seq<Json>> {
    if rest.None? then None else Some(done + rest.value)
  }

  // `_walk` from the i-th path on: one operation per path string, and a mark on the root, which
  // has no segments, addresses nothing.
  function WalkFrom(ops: seq<Op>, parsed: seq<seq<Segment>>, i: nat, d: Json): Option<Json>
    requires |ops| == |parsed| && i <= |parsed|
    decreases |parsed| - i
  {
    if i == |parsed| then Some(d)
    else
      var r := ApplySegments(ops[i], parsed[i], d);
      if r.None? then None else WalkFrom(ops, parsed, i + 1, r.value)
  }

  function ParseAll(paths: seq<string>): seq<seq<Segment>> {
    seq(|paths|, i requires 0 <= i < |paths| => Parse(paths[i]))
  }

  // The walk over the path strings of a schema.
  function WalkAll(ops: seq<Op>, paths: seq<string>, d: Json): Option<Json>
    requires |ops| == |paths|
  {
    WalkFrom(ops, ParseAll(paths), 0, d)
  }

  function ApplySegments(op: Op, segments: seq<Segment>, d: Json): Option<Json> {
    if segments == [] then Some(d) else Apply(op, [], Steps(segments), d)
  }

  // The paths that address something, and their operations.
  function Addressed(parsed: seq<seq<Segment>>, i: nat): seq<Path>
    requires i <= |parsed|
    decreases |parsed| - i
  {
    if i == |parsed| then []
    else if parsed[i] == [] then Addressed(parsed, i + 1)
    else [Steps(parsed[i])] + Addressed(parsed, i + 1)
  }

  function AddressedOps(ops: seq<Op>, parsed: seq<seq<Segment>>, i: nat): (kept: seq<Op>)
    requires |ops| == |parsed| && i <= |parsed|
    ensures |kept| == |Addressed(parsed, i)|
    decreases |parsed| - i
  {
    if i == |parsed| then []
    else if parsed[i] == [] then AddressedOps(ops, parsed, i + 1)
    else [ops[i]] + AddressedOps(ops, parsed, i + 1)
  }

  // The walk is the run over the paths that address something.
  lemma {:induction false} WalkIsApplyAll(ops: seq<Op>, parsed: seq<seq<Segment>>, i: nat, d: Json)
    requires |ops| == |parsed| && i <= |parsed|
    ensures WalkFrom(ops, parsed, i, d) == ApplyAll(AddressedOps(ops, parsed, i), Addressed(parsed, i), d)
    decreases |parsed| - i
  {
    if i < |parsed| {
      if parsed[i] == [] {
        WalkIsApplyAll(ops, parsed, i + 1, d);
      } else {
        var p := Steps(parsed[i]);
        var r := Apply(ops[i], [], p, d);
        if r.Some? { WalkIsApplyAll(ops, parsed, i + 1, r.value); }
        ApplyAppend([ops[i]], [p], AddressedOps(ops, parsed, i + 1), Addressed(parsed, i + 1), d);
        assert [ops[i]][..0] == [] && [p][..0] == [];
        assert ApplyAll([ops[i]], [p], d) == r;
      }
    }
  }

  method ApplyFromRoot(op: Op, segments: seq<Segment>, d: Json) returns (r: Option<Json>)
    ensures r == ApplySegments(op, segments, d)
  {
    r := ApplyAtPath(op, [], segments, d);
  }

  /** A document that `protect` and `unprotect` rewrite in place. */
  class Document {
    var data: Json

    constructor (data: Json)
      ensures this.data == data
    {
      this.data := data;
    }

    /** `_walk` with one operation per path; it stops at the first that raises. */
    method Walk(ops: seq<Op>, paths: seq<string>) returns (ok: bool)
      requires |ops| == |paths|
      modifies this
      ensures ok <==> WalkAll(ops, paths, old(data)).Some?
      ensures ok ==> WalkAll(ops, paths, old(data)) == Some(data)
    {
      ok := true;
      ghost var parsed := ParseAll(paths);
      for i := 0 to |paths|
        invariant ok && WalkFrom(ops, parsed, i, data) == WalkFrom(ops, parsed, 0, old(data))
      {
        var r := ApplyFromRoot(ops[i], Parse(paths[i]), data);
        if r.None? { return false; }
        data := r.value;
      }
    }
  }

  // Where an addressed path and its operation come from.
  lemma {:induction false} AddressedFrom(ops: seq<Op>, parsed: seq<seq<Segment>>, i: nat, k: nat) returns (j: nat)
    requires |ops| == |parsed| && i <= |parsed| && k < |Addressed(parsed, i)|
    ensures i <= j < |parsed| && parsed[j] != []
    ensures Addressed(parsed, i)[k] == Steps(parsed[j]) && AddressedOps(ops, parsed, i)[k] == ops[j]
    decreases |parsed| - i
  {
    if parsed[i] == [] {
      j := AddressedFrom(ops, parsed, i + 1, k);
    } else if k == 0 {
      j := i;
    } else {
      j := AddressedFrom(ops, parsed, i + 1, k - 1);
    }
  }

  // The round trip on path strings: walking with one operation per path and then undoing it at
  // every path gives the document back.
  lemma WalkThereAndBack(undo: Op, ops: seq<Op>, paths: seq<string>, d: Json)
    requires |ops| == |paths| && AllUndo(undo, ops) && NoneNested(Addressed(ParseAll(paths), 0))
    requires WalkAll(ops, paths, d).Some?
    ensures WalkAll(Everywhere(undo, |paths|), paths, WalkAll(ops, paths, d).value) == Some(d)
  {
    var back, parsed := Everywhere(undo, |paths|), ParseAll(paths);
    var sealed := WalkAll(ops, paths, d).value;
    var kept, keptBack := AddressedOps(ops, parsed, 0), AddressedOps(back, parsed, 0);
    WalkIsApplyAll(ops, parsed, 0, d);
    forall k | 0 <= k < |kept| ensures Undoes(undo, kept[k]) { var j := AddressedFrom(ops, parsed, 0, k); }
    RoundTrip(undo, kept, Addressed(parsed, 0), d);
    WalkIsApplyAll(back, parsed, 0, sealed);
    forall k | 0 <= k < |keptBack| ensures keptBack[k] == undo { var j := AddressedFrom(back, parsed, 0, k); }
    SameEverywhere(undo, keptBack, Addressed(parsed, 0), sealed);
  }

  // ---- For a schema -----------------------------------------------------------------------------------

  // Every mark leads where it stands, and none but the root is nested in another.
  ghost predicate Sound(schema: Schema) {
    && (forall p :: p in Marked(schema, []) ==> Readable(p))
    && (forall p, q :: p in Marked(schema, []) && q in Marked(schema, []) && p != [] && q != [] && p != q ==>
        !Nested(p, q))
  }

  // What the strings of a schema address, in whatever order, are its marks.
  lemma AddressedAreMarks(schema: Schema, strings: seq<string>, k: nat)
    requires Sound(schema) && multiset(strings) ==
      multiset(Collected(schema, "")) && k < |Addressed(ParseAll(strings), 0)|
    ensures Addressed(ParseAll(strings), 0)[k] in Marked(schema, []) && Addressed(ParseAll(strings), 0)[k] != []
  {
    var none: Op := (_, v) => Some(v);
    var j := AddressedFrom(Everywhere(none, |strings|), ParseAll(strings), 0, k);
    assert strings[j] in multiset(strings);
    assert strings[j] in multiset(Collected(schema, ""));
    var i :| 0 <= i < |Collected(schema, "")| && Collected(schema, "")[i] == strings[j];
    MarkParsesIff(schema, i);
    assert Marked(schema, [])[i] in Marked(schema, []);
    assert Steps(Parse(strings[j])) == Marked(schema, [])[i];
  }

  // For any schema whose marks lead where they stand and are not nested, any document and any
  // order of its path strings, sorted or not: sealing at every path and then unsealing gives the
  // document back.
  lemma SchemaRoundTrip(schema: Schema, strings: seq<string>, unseal: Unseal, seals: seq<Seal>, d: Json)
    requires Sound(schema) && multiset(strings) == multiset(Collected(schema, ""))
    requires |seals| == |strings| && AllInverse(unseal, seals)
    requires WalkAll(Sealings(seals), strings, d).Some?
    ensures WalkAll(Everywhere(Opening(unseal), |strings|), strings, WalkAll(Sealings(seals), strings, d).value)
         == Some(d)
  {
    var addressed := Addressed(ParseAll(strings), 0);
    forall p, q | p in addressed && q in addressed && p != q ensures !Nested(p, q) {
      var i :| 0 <= i < |addressed| && addressed[i] == p;
      var k :| 0 <= k < |addressed| && addressed[k] == q;
      AddressedAreMarks(schema, strings, i);
      AddressedAreMarks(schema, strings, k);
    }
    forall i | 0 <= i < |seals| ensures Undoes(Opening(unseal), Sealings(seals)[i]) {
      assert Inverse(unseal, seals[i]);
    }
    WalkThereAndBack(Opening(unseal), Sealings(seals), strings, d);
  }

  // ---- What the walk does, location by location -----------------------------------------------------------

  lemma {:induction false} OnceInTheList<T>(s: seq<T>, x: T)
    requires NoneTwice(s)
    ensures multiset(s)[x] <= 1
  {
    if s != [] {
      var rest := s[1..];
      assert s == [s[0]] + rest;
      forall i, j | 0 <= i < |rest| && 0 <= j < |rest| && rest[i] == rest[j] ensures i == j {
        assert s[i + 1] == s[j + 1];
      }
      OnceInTheList(rest, x);
      if x in rest {
        var i :| 0 <= i < |rest| && rest[i] == x;
        assert s[i + 1] == x;
      }
    }
  }

  lemma TwiceInTheList<T>(s: seq<T>, i: nat, j: nat)
    requires i < j < |s| && s[i] == s[j]
    ensures multiset(s)[s[i]] >= 2
  {
    assert s == s[..i] + [s[i]] + s[i + 1..j] + [s[j]] + s[j + 1..];
    assert multiset(s) == multiset(s[..i] + s[i + 1..j] + s[j + 1..]) + multiset{s[i]} + multiset{s[j]};
  }

  // The string of a mark, in whatever order the strings are.
  lemma StringOf(schema: Schema, strings: seq<string>, j: nat) returns (i: nat)
    requires Sound(schema) && multiset(strings) == multiset(Collected(schema, "")) && j < |strings|
    ensures |Collected(schema, "")| == |Marked(schema, [])|
    ensures i < |Marked(schema, [])| && strings[j] == Collected(schema, "")[i]
    ensures Steps(Parse(strings[j])) == Marked(schema, [])[i]
  {
    assert strings[j] in multiset(strings);
    assert strings[j] in multiset(Collected(schema, ""));
    i :| 0 <= i < |Collected(schema, "")| && Collected(schema, "")[i] == strings[j];
    MarkParsesIff(schema, i);
    assert Marked(schema, [])[i] in Marked(schema, []);
  }

  // The path strings of a schema lead to paths of their own.
  lemma StringsAreApart(schema: Schema, strings: seq<string>, a: nat, b: nat)
    requires Sound(schema) && NamesApart(schema) && multiset(strings) == multiset(Collected(schema, ""))
    requires a < b < |strings|
    ensures Steps(Parse(strings[a])) != Steps(Parse(strings[b]))
  {
    var i := StringOf(schema, strings, a);
    var k := StringOf(schema, strings, b);
    var collected := Collected(schema, "");
    MarkedOnce(schema, []);
    if strings[a] == strings[b] {
      TwiceInTheList(strings, a, b);
      forall x, y | 0 <= x < |collected| && 0 <= y < |collected| && collected[x] == collected[y] ensures x == y {
        MarkParsesIff(schema, x);
        MarkParsesIff(schema, y);
        assert Marked(schema, [])[x] in Marked(schema, []) && Marked(schema, [])[y] in Marked(schema, []);
      }
      OnceInTheList(collected, strings[a]);
    }
  }

  lemma {:induction false} AddressedOnce(parsed: seq<seq<Segment>>, i: nat)
    requires i <= |parsed|
    requires forall a, b :: i <= a < b < |parsed| && parsed[a] != [] && parsed[b] != [] ==>
      Steps(parsed[a]) != Steps(parsed[b])
    ensures NoneTwice(Addressed(parsed, i))
    decreases |parsed| - i
  {
    if i < |parsed| {
      AddressedOnce(parsed, i + 1);
      if parsed[i] != [] {
        var rest := Addressed(parsed, i + 1);
        forall k | 0 <= k < |rest| ensures rest[k] != Steps(parsed[i]) {
          var none: Op := (_, v) => Some(v);
          var j := AddressedFrom(Everywhere(none, |parsed|), parsed, i + 1, k);
        }
        NoneTwiceInBoth([Steps(parsed[i])], rest);
      }
    }
  }

  // An addressing string is in the list of what is addressed, with its operation.
  lemma {:induction false} AddressedAt(ops: seq<Op>, parsed: seq<seq<Segment>>, i: nat, j: nat) returns (k: nat)
    requires |ops| == |parsed| && i <= j < |parsed| && parsed[j] != []
    ensures k < |Addressed(parsed, i)|
    ensures Addressed(parsed, i)[k] == Steps(parsed[j]) && AddressedOps(ops, parsed, i)[k] == ops[j]
    decreases |parsed| - i
  {
    if i == j {
      k := 0;
    } else {
      k := AddressedAt(ops, parsed, i + 1, j);
      if parsed[i] != [] { k := k + 1; }
    }
  }

  // No marked path passes the location, the root aside.
  ghost predicate OffTheMarks(schema: Schema, where: Location) {
    forall p :: p in Marked(schema, []) && p != [] ==> !Meets(where, p)
  }

  // For any schema whose marks lead where they stand and are not nested, any document and any order
  // of its path strings: what no mark leads to is as it was, and where a mark leads stands what the
  // operation of its string makes of the value there.
  lemma WalkByLocation(schema: Schema, strings: seq<string>, ops: seq<Op>, d: Json, where: Location)
    requires Sound(schema) && NamesApart(schema) && multiset(strings) == multiset(Collected(schema, ""))
    requires |ops| == |strings| && WalkAll(ops, strings, d).Some?
    ensures var e := WalkAll(ops, strings, d).value;
      && (OffTheMarks(schema, where) ==> Get(e, where) == Get(d, where))
      && forall j :: (0 <= j < |strings| && strings[j] != "" && EndsAt(Steps(Parse(strings[j])), where)) ==>
           Get(d, where).Some? ==> Get(e, where).Some? && Get(e, where) == ops[j](where, Get(d, where).value)
  {
    var parsed := ParseAll(strings);
    var paths, kept := Addressed(parsed, 0), AddressedOps(ops, parsed, 0);
    WalkIsApplyAll(ops, parsed, 0, d);
    forall a, b | 0 <= a < b < |parsed| ensures Steps(parsed[a]) != Steps(parsed[b]) {
      StringsAreApart(schema, strings, a, b);
    }
    AddressedOnce(parsed, 0);
    forall k | 0 <= k < |paths| ensures paths[k] in Marked(schema, []) && paths[k] != [] {
      AddressedAreMarks(schema, strings, k);
    }
    assert forall p :: p in paths ==> p in Marked(schema, []) && p != [];
    ListByLocation(kept, paths, d, where);
    forall j | 0 <= j < |strings| && strings[j] != "" && Get(d, where).Some? && EndsAt(Steps(Parse(strings[j])), where)
      ensures var e := WalkAll(ops, strings, d).value;
        Get(e, where).Some? && Get(e, where) == ops[j](where, Get(d, where).value)
    {
      var k := AddressedAt(ops, parsed, 0, j);
    }
  }

  // So protect leaves the ciphertext of its value where a mark leads, and nothing else is touched;
  // every mark but one on the root has its string.
  lemma EveryMarkIsSealed(schema: Schema, strings: seq<string>, seals: seq<Seal>, d: Json, where: Location, mark: Path)
    requires Sound(schema) && NamesApart(schema) && multiset(strings) == multiset(Collected(schema, ""))
    requires |seals| == |strings| && WalkAll(Sealings(seals), strings, d).Some?
    ensures var e := WalkAll(Sealings(seals), strings, d).value;
      && (OffTheMarks(schema, where) ==> Get(e, where) == Get(d, where))
      && (LeadsToMark(schema, mark) && mark != [] && EndsAt(mark, where) && Get(d, where).Some? ==>
          exists j, c :: 0 <= j < |seals| && seals[j](where, Get(d, where).value) == Some(c) && Get(e, where) ==
            Some(Str(c)))
  {
    WalkByLocation(schema, strings, Sealings(seals), d, where);
    if LeadsToMark(schema, mark) && mark != [] && EndsAt(mark, where) && Get(d, where).Some? {
      var j := StringTo(schema, strings, mark);
      assert seals[j](where, Get(d, where).value).Some?;
    }
  }

  lemma StringTo(schema: Schema, strings: seq<string>, mark: Path) returns (j: nat)
    requires Sound(schema) && multiset(strings) == multiset(Collected(schema, ""))
    requires LeadsToMark(schema, mark) && mark != []
    ensures j < |strings| && strings[j] != "" && Steps(Parse(strings[j])) == mark
  {
    var node :| LeadsTo(schema, mark, node) && node.Schema? && node.marked;
    LeadsIsMarked(schema, [], mark, node);
    assert [] + mark == mark;
    PrintedParsesIff(mark);
    CollectedIff(schema, Print(mark));
    assert Print(mark) in multiset(Collected(schema, ""));
    assert Print(mark) in multiset(strings);
    j :| 0 <= j < |strings| && strings[j] == Print(mark);
    assert Parse("") == [];
  }

  // And unprotect leaves there what the ciphertext opens to.
  lemma EveryMarkIsOpened(schema: Schema, strings: seq<string>, unseal: Unseal, d: Json, where: Location, mark: Path)
    requires Sound(schema) && NamesApart(schema) && multiset(strings) == multiset(Collected(schema, ""))
    requires WalkAll(Everywhere(Opening(unseal), |strings|), strings, d).Some?
    ensures var e := WalkAll(Everywhere(Opening(unseal), |strings|), strings, d).value;
      && (OffTheMarks(schema, where) ==> Get(e, where) == Get(d, where))
      && (LeadsToMark(schema, mark) && mark != [] && EndsAt(mark, where) && Get(d, where).Some? ==>
          var v := Get(d, where).value;
          Get(e, where).Some? && Get(e, where) == if v.Str? then unseal(v.s) else Some(v))
  {
    WalkByLocation(schema, strings, Everywhere(Opening(unseal), |strings|), d, where);
    if LeadsToMark(schema, mark) && mark != [] && EndsAt(mark, where) && Get(d, where).Some? {
      var j := StringTo(schema, strings, mark);
    }
  }
}
