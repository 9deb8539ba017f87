/**
  Where the paths come from: the marks of a schema printed as path strings, and the strings
  parsed into segments.
*/
module GdprMarks {
  import opened Helpers
  import opened GdprPaths

  // A key, and whether every element of the array under it is meant.
  datatype Segment = Segment(key: string, isArray: bool)

  // A schema node, as far as the marks go; anything that is no mapping is Malformed.
  datatype Schema =
    | Schema(marked: bool, properties: seq<(string, Schema)>, items: Option<Schema>)
    | Malformed

  function Steps(segments: seq<Segment>): Path {
    if segments == [] then []
    else [Key(segments[0].key)] + (if segments[0].isArray then [Each] else []) + Steps(segments[1..])
  }

  // ---- Parsing ------------------------------------------------------------------------------

  function Split(s: string): (parts: seq<string>)
    ensures parts != []
  {
    if s == "" then [""]
    else
      var rest := Split(s[1..]);
      if s[0] == '.' then [""] + rest else [[s[0]] + rest[0]] + rest[1..]
  }

  function ParsePart(part: string): Segment {
    if |part| >= 2 && part[|part| - 2..] == "[]" then Segment(part[..|part| - 2], true) else Segment(part, false)
  }

  function ParseParts(parts: seq<string>): seq<Segment> {
    if parts == [] then [] else [ParsePart(parts[0])] + ParseParts(parts[1..])
  }

  // `_parse_path`
  function Parse(path: string): seq<Segment> {
    if path == "" then [] else ParseParts(Split(path))
  }

  // ---- Printing -------------------------------------------------------------------------------

  // `_join`
  function Join(path: string, name: string): string {
    if path == "" then name else path + "." + name
  }

  function Print(p: Path): string {
    if p == [] then ""
    else match p[|p| - 1]
      case Key(k) => Join(Print(p[..|p| - 1]), k)
      case Each => Print(p[..|p| - 1]) + "[]"
  }

  // `_collect_sensitive`, as strings and as paths.
  function Collected(schema: Schema, path: string): seq<string>
    decreases schema, 1
  {
    if schema.Malformed? then []
    else (if schema.marked then [path] else [])
         + CollectedFrom(schema, schema.properties, path)
         + (if schema.items.Some? then Collected(schema.items.value, path + "[]") else [])
  }

  function CollectedFrom(schema: Schema, properties: seq<(string, Schema)>, path: string): seq<string>
    requires forall i :: 0 <= i < |properties| ==> properties[i].1 < schema
    decreases schema, 0, |properties|
  {
    if properties == [] then []
    else Collected(properties[0].1, Join(path, properties[0].0)) + CollectedFrom(schema, properties[1..], path)
  }

  function Marked(schema: Schema, path: Path): seq<Path>
    decreases schema, 1
  {
    if schema.Malformed? then []
    else (if schema.marked then [path] else [])
         + MarkedFrom(schema, schema.properties, path)
         + (if schema.items.Some? then Marked(schema.items.value, path + [Each]) else [])
  }

  function MarkedFrom(schema: Schema, properties: seq<(string, Schema)>, path: Path): seq<Path>
    requires forall i :: 0 <= i < |properties| ==> properties[i].1 < schema
    decreases schema, 0, |properties|
  {
    if properties == [] then []
    else Marked(properties[0].1, path + [Key(properties[0].0)]) + MarkedFrom(schema, properties[1..], path)
  }

  // ---- Printed paths parse back ----------------------------------------------------------------

  predicate EndsLikeArray(name: string) {
    |name| >= 2 && name[|name| - 2..] == "[]"
  }

  predicate EachFollows(p: Path, i: nat) {
    i + 1 < |p| && p[i + 1].Each?
  }

  // What any parsed path is like: an array belongs to a key of its own, no name holds a dot, and
  // one that ends like an array is followed by one.
  ghost predicate Wellformed(p: Path) {
    && (forall i :: 0 <= i < |p| && p[i].Each? ==> i > 0 && p[i - 1].Key?)
    && (forall i :: 0 <= i < |p| && p[i].Key? ==>
        '.' !in p[i].name && (EndsLikeArray(p[i].name) ==> EachFollows(p, i)))
  }

  // The empty name leads and is no array: it leaves no trace in the string.
  ghost predicate Unmarked(p: Path) {
    p != [] && p[0] == Key("") && !EachFollows(p, 0)
  }

  ghost predicate Readable(p: Path) {
    Wellformed(p) && !Unmarked(p)
  }

  lemma {:induction false} SplitPart(part: string)
    requires '.' !in part
    ensures Split(part) == [part]
  {
    if part != "" {
      SplitPart(part[1..]);
      assert [part[0]] + part[1..] == part;
    }
  }

  lemma {:induction false} SplitAfterDot(s: string, part: string)
    requires '.' !in part
    ensures Split(s + "." + part) == Split(s) + [part]
  {
    var t := s + "." + part;
    if s == "" {
      assert t[1..] == part;
      SplitPart(part);
    } else {
      assert t[1..] == s[1..] + "." + part && t[0] == s[0];
      SplitAfterDot(s[1..], part);
    }
  }

  lemma {:induction false} NoDotInParts(s: string, i: nat)
    requires i < |Split(s)|
    ensures '.' !in Split(s)[i]
  {
    if s != "" {
      var rest := Split(s[1..]);
      if s[0] == '.' {
        if i > 0 { NoDotInParts(s[1..], i - 1); }
      } else {
        NoDotInParts(s[1..], i);
      }
    }
  }

  lemma {:induction false} ParsePartsAppend(parts: seq<string>, part: string)
    ensures ParseParts(parts + [part]) == ParseParts(parts) + [ParsePart(part)]
  {
    if parts == [] {
      assert ([part])[1..] == [];
    } else {
      assert (parts + [part])[1..] == parts[1..] + [part];
      ParsePartsAppend(parts[1..], part);
    }
  }

  lemma {:induction false} StepsAppend(a: seq<Segment>, x: Segment)
    ensures Steps(a + [x]) == Steps(a) + Steps([x])
  {
    if a != [] {
      assert (a + [x])[1..] == a[1..] + [x];
      StepsAppend(a[1..], x);
    } else {
      assert a + [x] == [x];
    }
  }

  // ---- Every parsed path is well formed ----------------------------------------------------------

  lemma StepsOfParts(parts: seq<string>)
    requires parts != []
    ensures var x := ParsePart(parts[0]);
      Steps(ParseParts(parts)) == Tail(x.key, x.isArray) + Steps(ParseParts(parts[1..]))
  {
    var x, rest := ParsePart(parts[0]), ParseParts(parts[1..]);
    assert ParseParts(parts) == [x] + rest && ([x] + rest)[1..] == rest;
  }

  lemma {:induction false} PartsAreWellformed(parts: seq<string>)
    requires forall i :: 0 <= i < |parts| ==> '.' !in parts[i]
    ensures Wellformed(Steps(ParseParts(parts)))
    ensures parts != [] ==> Steps(ParseParts(parts)) != [] && Steps(ParseParts(parts))[0].Key?
  {
    if parts != [] {
      PartsAreWellformed(parts[1..]);
      StepsOfParts(parts);
      FirstIsWellformed(parts[0], Steps(ParseParts(parts[1..])));
    }
  }

  // A well formed path stays so behind a first segment that is.
  lemma BehindFirst(first: Path, rest: Path)
    requires Wellformed(first) && Wellformed(rest) && (rest != [] ==> rest[0].Key?)
    ensures Wellformed(first + rest)
  {
    var p, n := first + rest, |first|;
    forall i | 0 <= i < |p| && p[i].Each? ensures i > 0 && p[i - 1].Key? {
      if i < n { assert p[i] == first[i]; } else { assert p[i] == rest[i - n]; }
    }
    forall i | 0 <= i < |p| && p[i].Key? ensures '.' !in p[i].name && (EndsLikeArray(p[i].name) ==> EachFollows(p, i)) {
      if i < n {
        assert p[i] == first[i];
        if EachFollows(first, i) { assert p[i + 1] == first[i + 1]; }
      } else {
        assert p[i] == rest[i - n];
        if EachFollows(rest, i - n) { assert p[i + 1] == rest[i - n + 1]; }
      }
    }
  }

  lemma ParsedSegment(part: string)
    requires '.' !in part
    ensures var x := ParsePart(part); '.' !in x.key && (!x.isArray ==> !EndsLikeArray(x.key))
  {
  }

  lemma SegmentIsWellformed(name: string, isArray: bool)
    requires '.' !in name && (!isArray ==> !EndsLikeArray(name))
    ensures Wellformed(Tail(name, isArray))
  {
  }

  lemma FirstIsWellformed(part: string, rest: Path)
    requires '.' !in part && Wellformed(rest) && (rest != [] ==> rest[0].Key?)
    ensures var x := ParsePart(part); Wellformed(Tail(x.key, x.isArray) + rest)
  {
    var x := ParsePart(part);
    ParsedSegment(part);
    SegmentIsWellformed(x.key, x.isArray);
    BehindFirst(Tail(x.key, x.isArray), rest);
  }

  lemma ParsedIsWellformed(s: string)
    ensures Wellformed(Steps(Parse(s)))
  {
    if s != "" {
      forall i | 0 <= i < |Split(s)| ensures '.' !in Split(s)[i] { NoDotInParts(s, i); }
      PartsAreWellformed(Split(s));
    }
  }

  // ---- A readable path parses back -----------------------------------------------------------------

  lemma PartParses(name: string)
    ensures ParsePart(name + "[]") == Segment(name, true)
    ensures !EndsLikeArray(name) ==> ParsePart(name) == Segment(name, false)
    ensures '.' !in name ==> '.' !in name + "[]"
  {
    var s := name + "[]";
    assert s[|s| - 2..] == "[]" && s[..|s| - 2] == name;
  }

  lemma OnePart(path: string, part: string)
    requires '.' !in part && (path == "" ==> part != "")
    ensures Parse(Join(path, part)) == Parse(path) + [ParsePart(part)]
  {
    if path == "" {
      SplitPart(part);
      ParsePartsAppend([], part);
      assert [] + [part] == [part];
    } else {
      SplitAfterDot(path, part);
      ParsePartsAppend(Split(path), part);
    }
  }

  function Tail(name: string, isArray: bool): Path {
    if isArray then [Key(name), Each] else [Key(name)]
  }

  function Part(name: string, isArray: bool): string {
    if isArray then name + "[]" else name
  }

  // A printed path ends in the part of its last segment.
  lemma PrintedEnds(base: Path, name: string, isArray: bool)
    ensures Print(base + Tail(name, isArray)) == Join(Print(base), Part(name, isArray))
  {
    var p := base + [Key(name)];
    assert p[..|p| - 1] == base;
    if isArray {
      var q := base + [Key(name), Each];
      assert q[..|q| - 1] == p && q[|q| - 1] == Each;
      assert Join(Print(base), name) + "[]" == Join(Print(base), name + "[]");
    }
  }

  lemma PathEnds(p: Path) returns (base: Path, name: string, isArray: bool)
    requires Readable(p) && p != []
    ensures p == base + Tail(name, isArray) && |base| < |p| && Readable(base)
    ensures '.' !in name && (!isArray ==> !EndsLikeArray(name)) && (base == [] && !isArray ==> name != "")
  {
    var n := |p| - 1;
    isArray := p[n].Each?;
    var m := if isArray then n - 1 else n;
    base, name := p[..m], p[m].name;
    assert p[m].Key? && p == base + p[m..];
    assert p[m..] == Tail(name, isArray);
    ReadableFront(p, m);
  }

  lemma ReadableFront(p: Path, m: nat)
    requires Readable(p) && m < |p| && p[m].Key?
    ensures Readable(p[..m])
  {
    var base := p[..m];
    assert forall i :: 0 <= i < m ==> base[i] == p[i];
    forall i | 0 <= i < m && EachFollows(p, i) ensures EachFollows(base, i) { assert i + 1 != m; }
  }

  lemma {:induction false} ReadableParses(p: Path)
    requires Readable(p)
    ensures Steps(Parse(Print(p))) == p
    decreases |p|
  {
    if p != [] {
      var base, name, isArray := PathEnds(p);
      ReadableParses(base);
      LastSegmentParses(base, name, isArray);
    }
  }

  lemma LastSegmentParses(base: Path, name: string, isArray: bool)
    requires Steps(Parse(Print(base))) == base
    requires '.' !in name && (!isArray ==> !EndsLikeArray(name)) && (base == [] && !isArray ==> name != "")
    ensures Steps(Parse(Print(base + Tail(name, isArray)))) == base + Tail(name, isArray)
  {
    PrintedEnds(base, name, isArray);
    PartParses(name);
    OnePart(Print(base), Part(name, isArray));
    StepsAppend(Parse(Print(base)), Segment(name, isArray));
    assert Steps([Segment(name, isArray)][1..]) == [];
  }

  // ---- No other path does ---------------------------------------------------------------------------

  lemma {:induction false} EmptyNamePrintsNothing(r: Path)
    requires r != [] ==> r[0].Key?
    ensures Print([Key("")] + r) == Print(r)
    decreases |r|
  {
    var p := [Key("")] + r;
    if r == [] {
      assert p[..0] == [];
    } else {
      assert p[..|p| - 1] == [Key("")] + r[..|r| - 1] && p[|p| - 1] == r[|r| - 1];
      EmptyNamePrintsNothing(r[..|r| - 1]);
    }
  }

  // A leading empty name is dropped, so what parses back is shorter.
  lemma {:induction false} UnmarkedIsShortened(p: Path)
    requires Wellformed(p) && Unmarked(p)
    ensures |Steps(Parse(Print(p)))| < |p|
    decreases |p|
  {
    var r := p[1..];
    assert p == [Key("")] + r;
    EmptyNamePrintsNothing(r);
    TailIsWellformed(p);
    if Unmarked(r) { UnmarkedIsShortened(r); } else { ReadableParses(r); }
  }

  lemma TailIsWellformed(p: Path)
    requires Wellformed(p) && p != [] && !EachFollows(p, 0)
    ensures Wellformed(p[1..])
  {
    var r := p[1..];
    assert forall i :: 0 <= i < |r| ==> r[i] == p[i + 1];
    forall i | 0 <= i < |r| && EachFollows(p, i + 1) ensures EachFollows(r, i) { }
  }

  // The mark of a path survives printing and parsing exactly when the path is readable.
  lemma PrintedParsesIff(p: Path)
    ensures Steps(Parse(Print(p))) == p <==> Readable(p)
  {
    if Readable(p) {
      ReadableParses(p);
    } else {
      ParsedIsWellformed(Print(p));
      if Wellformed(p) { UnmarkedIsShortened(p); }
    }
  }

  // ---- The marks of a schema ---------------------------------------------------------------------

  ghost predicate Printed(strings: seq<string>, paths: seq<Path>) {
    |strings| == |paths| && forall i :: 0 <= i < |paths| ==> strings[i] == Print(paths[i])
  }

  lemma {:induction false} CollectedIsPrinted(schema: Schema, path: Path)
    ensures Printed(Collected(schema, Print(path)), Marked(schema, path))
    decreases schema, 1
  {
    if schema.Schema? {
      CollectedFromIsPrinted(schema, schema.properties, path);
      if schema.items.Some? {
        assert (path + [Each])[..|path|] == path;
        CollectedIsPrinted(schema.items.value, path + [Each]);
      }
    }
  }

  lemma {:induction false} CollectedFromIsPrinted(schema: Schema, properties: seq<(string, Schema)>, path: Path)
    requires forall i :: 0 <= i < |properties| ==> properties[i].1 < schema
    ensures Printed(CollectedFrom(schema, properties, Print(path)), MarkedFrom(schema, properties, path))
    decreases schema, 0, |properties|
  {
    if properties != [] {
      var inner := path + [Key(properties[0].0)];
      assert inner[..|path|] == path;
      CollectedIsPrinted(properties[0].1, inner);
      CollectedFromIsPrinted(schema, properties[1..], path);
    }
  }

  // The path string of a mark leads where the mark stands exactly when its path is readable.
  lemma MarkParsesIff(schema: Schema, i: nat)
    ensures |Collected(schema, "")| == |Marked(schema, [])|
    ensures i < |Marked(schema, [])| ==>
      (Steps(Parse(Collected(schema, "")[i])) == Marked(schema, [])[i] <==> Readable(Marked(schema, [])[i]))
  {
    CollectedIsPrinted(schema, []);
    if i < |Marked(schema, [])| { PrintedParsesIff(Marked(schema, [])[i]); }
  }

  // So the mark of an array of arrays leads elsewhere: to a key that ends in brackets.
  lemma NestedArraysAreLost(name: string)
    requires '.' !in name
    ensures Steps(Parse(Print([Key(name), Each, Each]))) == [Key(name + "[]"), Each]
  {
    var part := name + "[]" + "[]";
    PrintedTwice(name);
    PartParses(name + "[]");
    PartParses(name);
    OnePart("", part);
    assert Parse(part) == [Segment(name + "[]", true)];
    StepsOfOne(Segment(name + "[]", true));
  }

  lemma StepsOfOne(x: Segment)
    ensures Steps([x]) == Tail(x.key, x.isArray)
  {
    assert [x][1..] == [];
  }

  lemma PrintedTwice(name: string)
    ensures Print([Key(name), Each, Each]) == name + "[]" + "[]"
  {
    var p := [Key(name), Each, Each];
    PrintedEnds([], name, true);
    assert p[..2] == [Key(name), Each] == [] + [Key(name), Each];
  }

  // ---- Which nodes are collected ---------------------------------------------------------------------

  // The path leads from the schema to the node: by a key to a property of that name, by an array to
  // what its elements are.
  ghost predicate LeadsTo(schema: Schema, path: Path, node: Schema)
    decreases |path|
  {
    !schema.Malformed? &&
    if path == [] then node == schema
    else match path[0]
      case Key(k) =>
        exists i :: 0 <= i < |schema.properties| && schema.properties[i].0 == k
          && LeadsTo(schema.properties[i].1, path[1..], node)
      case Each => schema.items.Some? && LeadsTo(schema.items.value, path[1..], node)
  }

  ghost predicate LeadsToMark(schema: Schema, path: Path) {
    exists node :: LeadsTo(schema, path, node) && node.Schema? && node.marked
  }

  lemma {:induction false} MarkedFromIff(schema: Schema, properties: seq<(string, Schema)>, base: Path, p: Path)
    requires forall i :: 0 <= i < |properties| ==> properties[i].1 < schema
    ensures p in MarkedFrom(schema, properties, base) <==>
      exists i :: 0 <= i < |properties| && p in Marked(properties[i].1, base + [Key(properties[i].0)])
    decreases |properties|
  {
    if properties != [] {
      var rest := properties[1..];
      MarkedFromIff(schema, rest, base, p);
      assert forall i :: 0 <= i < |rest| ==> rest[i] == properties[i + 1];
      if i :| 0 <= i < |rest| && p in Marked(rest[i].1, base + [Key(rest[i].0)]) {
        assert p in Marked(properties[i + 1].1, base + [Key(properties[i + 1].0)]);
      }
      if i :| 0 <= i < |properties| && p in Marked(properties[i].1, base + [Key(properties[i].0)]) {
        if i > 0 { assert p in Marked(rest[i - 1].1, base + [Key(rest[i - 1].0)]); }
      }
    }
  }

  lemma StepsTo(schema: Schema, path: Path, child: Schema)
    requires path != [] && !schema.Malformed? && LeadsToMark(child, path[1..])
    requires match path[0]
      case Key(k) => exists i :: 0 <= i < |schema.properties| && schema.properties[i] == (k, child)
      case Each => schema.items == Some(child)
    ensures LeadsToMark(schema, path)
  {
    var node :| LeadsTo(child, path[1..], node) && node.Schema? && node.marked;
    assert LeadsTo(schema, path, node);
  }

  // What is marked under a base leads from there to a mark.
  lemma {:induction false} MarkedLeads(schema: Schema, base: Path, p: Path)
    requires p in Marked(schema, base)
    ensures base <= p && LeadsToMark(schema, p[|base|..])
    decreases schema
  {
    if schema.marked && p == base {
      assert p[|base|..] == [] && LeadsTo(schema, [], schema);
    } else if p in MarkedFrom(schema, schema.properties, base) {
      MarkedFromIff(schema, schema.properties, base, p);
      var i :| 0 <= i < |schema.properties|
        && p in Marked(schema.properties[i].1, base + [Key(schema.properties[i].0)]);
      MarkedLeads(schema.properties[i].1, base + [Key(schema.properties[i].0)], p);
      assert p[|base|] == (base + [Key(schema.properties[i].0)])[|base|];
      assert p[|base|..][1..] == p[|base| + 1..];
      StepsTo(schema, p[|base|..], schema.properties[i].1);
    } else {
      MarkedLeads(schema.items.value, base + [Each], p);
      assert p[|base|] == (base + [Each])[|base|];
      assert p[|base|..][1..] == p[|base| + 1..];
      StepsTo(schema, p[|base|..], schema.items.value);
    }
  }

  // What leads to a mark is marked.
  lemma {:induction false} LeadsIsMarked(schema: Schema, base: Path, path: Path, node: Schema)
    requires LeadsTo(schema, path, node) && node.Schema? && node.marked
    ensures base + path in Marked(schema, base)
    decreases |path|
  {
    if path == [] {
      assert base + path == base;
    } else {
      var next := base + [path[0]];
      assert next + path[1..] == base + path;
      match path[0]
      case Key(k) =>
        var i :| 0 <= i < |schema.properties| && schema.properties[i].0 == k
          && LeadsTo(schema.properties[i].1, path[1..], node);
        LeadsIsMarked(schema.properties[i].1, next, path[1..], node);
        MarkedFromIff(schema, schema.properties, base, base + path);
      case Each => LeadsIsMarked(schema.items.value, next, path[1..], node);
    }
  }

  // Exactly the marked nodes that keys and arrays lead to are collected, each under the print of a
  // path that leads there.
  lemma CollectedIff(schema: Schema, s: string)
    ensures s in Collected(schema, "") <==> exists path :: LeadsToMark(schema, path) && Print(path) == s
  {
    CollectedIsPrinted(schema, []);
    var marks, strings := Marked(schema, []), Collected(schema, "");
    if s in strings {
      var i :| 0 <= i < |strings| && strings[i] == s;
      MarkedLeads(schema, [], marks[i]);
      assert marks[i][0..] == marks[i];
    }
    if path :| LeadsToMark(schema, path) && Print(path) == s {
      var node :| LeadsTo(schema, path, node) && node.Schema? && node.marked;
      LeadsIsMarked(schema, [], path, node);
      assert [] + path == path;
      var i :| 0 <= i < |marks| && marks[i] == path;
      assert strings[i] == s;
    }
  }

  // The properties of a node have names of their own, as the keys of a mapping have.
  ghost predicate NamesApart(schema: Schema)
    decreases schema
  {
    schema.Malformed? ||
    (&& (forall i, j :: 0 <= i < j < |schema.properties| ==> schema.properties[i].0 != schema.properties[j].0)
     && (forall i :: 0 <= i < |schema.properties| ==> NamesApart(schema.properties[i].1))
     && (schema.items.Some? ==> NamesApart(schema.items.value)))
  }

  // Beyond the base the path goes on with that step.
  ghost predicate Beyond(base: Path, p: Path, step: Step) {
    base + [step] <= p
  }

  lemma MarkedBeyond(schema: Schema, base: Path, step: Step, p: Path)
    requires p in Marked(schema, base + [step])
    ensures Beyond(base, p, step)
  {
    MarkedLeads(schema, base + [step], p);
  }

  lemma BeyondIsOne(base: Path, p: Path, a: Step, b: Step)
    requires Beyond(base, p, a) && Beyond(base, p, b)
    ensures a == b && p != base
  {
    assert p[|base|] == (base + [a])[|base|] == (base + [b])[|base|];
  }

  // No node is marked twice.
  lemma {:induction false} MarkedOnce(schema: Schema, base: Path)
    requires NamesApart(schema)
    ensures NoneTwice(Marked(schema, base))
    decreases schema, 1
  {
    if schema.Schema? {
      var own := if schema.marked then [base] else [];
      var named := MarkedFrom(schema, schema.properties, base);
      var each := if schema.items.Some? then Marked(schema.items.value, base + [Each]) else [];
      MarkedFromOnce(schema, schema.properties, base);
      if schema.items.Some? { MarkedOnce(schema.items.value, base + [Each]); }
      forall p | p in named ensures p !in own && p !in each {
        MarkedFromIff(schema, schema.properties, base, p);
        var i :| 0 <= i < |schema.properties|
          && p in Marked(schema.properties[i].1, base + [Key(schema.properties[i].0)]);
        MarkedBeyond(schema.properties[i].1, base, Key(schema.properties[i].0), p);
        BeyondIsOne(base, p, Key(schema.properties[i].0), Key(schema.properties[i].0));
        if p in each {
          MarkedBeyond(schema.items.value, base, Each, p);
          BeyondIsOne(base, p, Key(schema.properties[i].0), Each);
        }
      }
      forall p | p in each ensures p !in own {
        MarkedBeyond(schema.items.value, base, Each, p);
        BeyondIsOne(base, p, Each, Each);
      }
      NoneTwiceInBoth(own, named);
      NoneTwiceInBoth(own + named, each);
    }
  }

  lemma {:induction false} MarkedFromOnce(schema: Schema, properties: seq<(string, Schema)>, base: Path)
    requires forall i :: 0 <= i < |properties| ==> properties[i].1 < schema && NamesApart(properties[i].1)
    requires forall i, j :: 0 <= i < j < |properties| ==> properties[i].0 != properties[j].0
    ensures NoneTwice(MarkedFrom(schema, properties, base))
    decreases schema, 0, |properties|
  {
    if properties != [] {
      var rest := properties[1..];
      var first := Key(properties[0].0);
      assert forall i :: 0 <= i < |rest| ==> rest[i] == properties[i + 1];
      MarkedOnce(properties[0].1, base + [first]);
      MarkedFromOnce(schema, rest, base);
      forall p | p in Marked(properties[0].1, base + [first]) ensures p !in MarkedFrom(schema, rest, base) {
        MarkedBeyond(properties[0].1, base, first, p);
        MarkedFromIff(schema, rest, base, p);
        if i :| 0 <= i < |rest| && p in Marked(rest[i].1, base + [Key(rest[i].0)]) {
          MarkedBeyond(rest[i].1, base, Key(rest[i].0), p);
          BeyondIsOne(base, p, first, Key(rest[i].0));
        }
      }
      NoneTwiceInBoth(Marked(properties[0].1, base + [first]), MarkedFrom(schema, rest, base));
    }
  }
}
