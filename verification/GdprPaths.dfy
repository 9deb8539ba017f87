/**
  Sensitive paths and the transformation of the values at a path. A path is a sequence of
  steps, a key of an object or every element of an array; an operation rewrites the value at
  each location a path leads to, or raises. Objects are maps: member order carries no meaning.
*/
module GdprPaths {
  import opened Helpers

  datatype Json =
    | Null
    | Bool(b: bool)
    | Num(n: int)             // stands for any number; no operation looks at one
    | Str(s: string)
    | Arr(items: seq<Json>)
    | Obj(members: map<string, Json>)

  datatype Step = Key(name: string) | Each

  type Path = seq<Step>

  // A location inside a document.
  datatype Place = At(name: string) | Index(i: nat)

  type Location = seq<Place>

  // What a leaf operation does to the value at a location; None when it raises. The location
  // stands for whatever the operation draws for that call, such as a nonce.
  type Op = (Location, Json) -> Option<Json>

  // ---- The transformation -------------------------------------------------------------

  function Apply(op: Op, at: Location, path: Path, node: Json): Option<Json>
    decreases |path|, 0
  {
    if path == [] then op(at, node)
    else match path[0]
      case Key(k) =>
        if !node.Obj? || k !in node.members then Some(node)
        else
          var child := Apply(op, at + [At(k)], path[1..], node.members[k]);
          if child.None? then None else Some(Obj(node.members[k := child.value]))
      case Each =>
        if !node.Arr? then Some(node)
        else
          var items := ApplyEach(op, at, path[1..], node.items, 0);
          if items.None? then None else Some(Arr(items.value))
  }

  // The elements from the i-th on.
  function ApplyEach(op: Op, at: Location, path: Path, items: seq<Json>, i: nat): Option<seq<Json>>
    decreases |path|, |items| + 1
  {
    if items == [] then Some([])
    else
      var head := Apply(op, at + [Index(i)], path, items[0]);
      if head.None? then None
      else
        var tail := ApplyEach(op, at, path, items[1..], i + 1);
        if tail.None? then None else Some([head.value] + tail.value)
  }

  function Then(r: Option<Json>, op: Op, at: Location, path: Path): Option<Json> {
    if r.None? then None else Apply(op, at, path, r.value)
  }

  function ThenEach(r: Option<seq<Json>>, op: Op, at: Location, path: Path, i: nat): Option<seq<Json>> {
    if r.None? then None else ApplyEach(op, at, path, r.value, i)
  }

  // ---- Inverse operations -----------------------------------------------------------------

  // `undo` restores whatever `op` wrote, wherever it wrote it.
  ghost predicate Undoes(undo: Op, op: Op) {
    forall at, v :: op(at, v).Some? ==> undo(at, op(at, v).value) == Some(v)
  }

  lemma {:induction false} UndoneAtPath(op: Op, undo: Op, at: Location, path: Path, node: Json)
    requires Undoes(undo, op) && Apply(op, at, path, node).Some?
    ensures Apply(undo, at, path, Apply(op, at, path, node).value) == Some(node)
    decreases |path|, 0
  {
    if path != [] {
      match path[0]
      case Key(k) =>
        if node.Obj? && k in node.members {
          UndoneAtPath(op, undo, at + [At(k)], path[1..], node.members[k]);
          var child := Apply(op, at + [At(k)], path[1..], node.members[k]).value;
          assert node.members[k := child][k := node.members[k]] == node.members;
        }
      case Each =>
        if node.Arr? { UndoneAtEach(op, undo, at, path[1..], node.items, 0); }
    }
  }

  lemma {:induction false} UndoneAtEach(op: Op, undo: Op, at: Location, path: Path, items: seq<Json>, i: nat)
    requires Undoes(undo, op) && ApplyEach(op, at, path, items, i).Some?
    ensures ApplyEach(undo, at, path, ApplyEach(op, at, path, items, i).value, i) == Some(items)
    decreases |path|, |items| + 1
  {
    if items != [] {
      UndoneAtPath(op, undo, at + [Index(i)], path, items[0]);
      UndoneAtEach(op, undo, at, path, items[1..], i + 1);
      var done := ApplyEach(op, at, path, items, i).value;
      assert done[1..] == ApplyEach(op, at, path, items[1..], i + 1).value;
      assert [items[0]] + items[1..] == items;
    }
  }

  // ---- Different paths ----------------------------------------------------------------------

  // One path leads to, or to a part of, a value the other rewrites.
  predicate Nested(p: Path, q: Path) {
    p <= q || q <= p
  }

  lemma NestedTails(p: Path, q: Path)
    requires !Nested(p, q) && p[0] == q[0]
    ensures !Nested(p[1..], q[1..])
  {
    assert p == [p[0]] + p[1..] && q == [q[0]] + q[1..];
  }

  // Operations at paths that are not nested commute, raising included.
  lemma {:induction false} Commute(f: Op, p: Path, g: Op, q: Path, at: Location, node: Json)
    requires !Nested(p, q)
    ensures Then(Apply(f, at, p, node), g, at, q) == Then(Apply(g, at, q, node), f, at, p)
    decreases |p|, 0
  {
    match (p[0], q[0])
    case (Key(k), Key(l)) =>
      if node.Obj? {
        if k == l {
          NestedTails(p, q);
          if k in node.members { CommuteUnder(f, p, g, q, at, node, k); }
        } else {
          CommuteBeside(f, p, g, q, at, node, k, l);
        }
      }
    case (Each, Each) =>
      NestedTails(p, q);
      if node.Arr? { CommuteEach(f, p[1..], g, q[1..], at, node.items, 0); }
    case _ =>
  }

  lemma CommuteUnder(f: Op, p: Path, g: Op, q: Path, at: Location, node: Json, k: string)
    requires !Nested(p, q) && p[0] == q[0] == Key(k) && !Nested(p[1..], q[1..])
    requires node.Obj? && k in node.members
    ensures Then(Apply(f, at, p, node), g, at, q) == Then(Apply(g, at, q, node), f, at, p)
    decreases |p| - 1, 1
  {
    Commute(f, p[1..], g, q[1..], at + [At(k)], node.members[k]);
    KeyUnfolds(f, p, g, q, at, node, k);
    KeyUnfolds(g, q, f, p, at, node, k);
  }

  lemma KeyUnfolds(f: Op, p: Path, g: Op, q: Path, at: Location, node: Json, k: string)
    requires p != [] && q != [] && p[0] == q[0] == Key(k) && node.Obj? && k in node.members
    ensures Then(Apply(f, at, p, node), g, at, q) ==
      (var child := Then(Apply(f, at + [At(k)], p[1..], node.members[k]), g, at + [At(k)], q[1..]);
       if child.None? then None else Some(Obj(node.members[k := child.value])))
  {
    var a := Apply(f, at + [At(k)], p[1..], node.members[k]);
    if a.Some? {
      var b := Apply(g, at + [At(k)], q[1..], a.value);
      if b.Some? { assert node.members[k := a.value][k := b.value] == node.members[k := b.value]; }
    }
  }

  lemma CommuteBeside(f: Op, p: Path, g: Op, q: Path, at: Location, node: Json, k: string, l: string)
    requires p != [] && q != [] && p[0] == Key(k) && q[0] == Key(l) && k != l && node.Obj?
    ensures Then(Apply(f, at, p, node), g, at, q) == Then(Apply(g, at, q, node), f, at, p)
  {
    var m := node.members;
    if k in m && l in m {
      var a := Apply(f, at + [At(k)], p[1..], m[k]);
      var b := Apply(g, at + [At(l)], q[1..], m[l]);
      if a.Some? && b.Some? {
        assert m[k := a.value][l := b.value] == m[l := b.value][k := a.value];
      }
    }
  }

  lemma {:induction false} CommuteEach(f: Op, p: Path, g: Op, q: Path, at: Location, items: seq<Json>, i: nat)
    requires !Nested(p, q)
    ensures ThenEach(ApplyEach(f, at, p, items, i), g, at, q, i) == ThenEach(ApplyEach(g, at, q, items, i), f, at, p, i)
    decreases |p|, |items| + 1
  {
    if items != [] {
      Commute(f, p, g, q, at + [Index(i)], items[0]);
      CommuteEach(f, p, g, q, at, items[1..], i + 1);
      EachUnfolds(f, p, g, q, at, items, i);
      EachUnfolds(g, q, f, p, at, items, i);
    }
  }

  lemma EachUnfolds(f: Op, p: Path, g: Op, q: Path, at: Location, items: seq<Json>, i: nat)
    requires items != []
    ensures ThenEach(ApplyEach(f, at, p, items, i), g, at, q, i) ==
      (var head := Then(Apply(f, at + [Index(i)], p, items[0]), g, at + [Index(i)], q);
       var tail := ThenEach(ApplyEach(f, at, p, items[1..], i + 1), g, at, q, i + 1);
       if head.None? || tail.None? then None else Some([head.value] + tail.value))
  {
    var all := ApplyEach(f, at, p, items, i);
    if all.Some? {
      assert all.value[1..] == ApplyEach(f, at, p, items[1..], i + 1).value;
    }
  }

  // ---- Location by location -------------------------------------------------------------------

  function Get(d: Json, where: Location): Option<Json>
    decreases |where|
  {
    if where == [] then Some(d)
    else match where[0]
      case At(k) => if d.Obj? && k in d.members then Get(d.members[k], where[1..]) else None
      case Index(i) => if d.Arr? && i < |d.items| then Get(d.items[i], where[1..]) else None
  }

  predicate Fits(place: Place, step: Step) {
    match place
    case At(k) => step == Key(k)
    case Index(_) => step == Each
  }

  // The location agrees with the path as far as both go: it is above, at or below a value the
  // path leads to.
  predicate Meets(where: Location, path: Path) {
    where == [] || path == [] || (Fits(where[0], path[0]) && Meets(where[1..], path[1..]))
  }

  // What becomes of the value at a location: rewritten where the path ends, unchanged where
  // the path does not pass.
  ghost predicate Rewritten(op: Op, at: Location, path: Path, d: Json, e: Json, where: Location) {
    if Meets(where, path) then
      |where| == |path| && Get(d, where).Some? ==>
        Get(e, where).Some? && Get(e, where) == op(at + where, Get(d, where).value)
    else Get(e, where) == Get(d, where)
  }

  // Every location is accounted for, and the keys and lengths on the way stay as they were.
  lemma {:induction false} ApplyByLocation(op: Op, at: Location, path: Path, d: Json, where: Location)
    requires Apply(op, at, path, d).Some?
    ensures Rewritten(op, at, path, d, Apply(op, at, path, d).value, where)
    decreases |where|
  {
    if where == [] {
      assert at + where == at;
    } else if path != [] {
      match path[0]
      case Key(k) =>
        if where[0] == At(k) && d.Obj? && k in d.members {
          assert at + where == (at + [At(k)]) + where[1..];
          ApplyByLocation(op, at + [At(k)], path[1..], d.members[k], where[1..]);
        }
      case Each =>
        if d.Arr? { EachByLocation(op, at, path, d, where); }
    }
  }

  lemma EachByLocation(op: Op, at: Location, path: Path, d: Json, where: Location)
    requires path != [] && path[0] == Each && d.Arr? && Apply(op, at, path, d).Some? && where != []
    ensures Rewritten(op, at, path, d, Apply(op, at, path, d).value, where)
    decreases |where|, 0
  {
    ElementOf(op, at, path[1..], d.items, 0, 0);
    if where[0].Index? && where[0].i < |d.items| {
      var i := where[0].i;
      ElementOf(op, at, path[1..], d.items, 0, i);
      assert at + where == (at + [Index(i)]) + where[1..];
      ApplyByLocation(op, at + [Index(i)], path[1..], d.items[i], where[1..]);
    }
  }

  lemma {:induction false} ElementOf(op: Op, at: Location, path: Path, items: seq<Json>, from: nat, i: nat)
    requires ApplyEach(op, at, path, items, from).Some?
    ensures var out := ApplyEach(op, at, path, items, from).value;
      |out| == |items| && (i < |items| ==> Apply(op, at + [Index(from + i)], path, items[i]) == Some(out[i]))
    decreases |items|
  {
    if items != [] {
      ElementOf(op, at, path, items[1..], from + 1, if i == 0 then 0 else i - 1);
    }
  }

  // The path ends at a location of the document at which the operation raises.
  ghost predicate RaisesAt(op: Op, at: Location, path: Path, d: Json, where: Location) {
    |where| == |path| && Meets(where, path) && Get(d, where).Some? && op(at + where, Get(d, where).value) == None
  }

  // An operation at a path raises exactly when it does at a location the path leads to: a path that
  // leads nowhere in the document raises nothing.
  lemma {:induction false} RaisesIff(op: Op, at: Location, path: Path, d: Json)
    ensures Apply(op, at, path, d) == None <==> exists where :: RaisesAt(op, at, path, d, where)
    decreases |path|, 0
  {
    if path == [] {
      assert at + [] == at;
      if op(at, d) == None { assert RaisesAt(op, at, [], d, []); }
    } else if path[0].Key? && d.Obj? && path[0].name in d.members {
      var k := path[0].name;
      RaisesIff(op, at + [At(k)], path[1..], d.members[k]);
      if w: Location :| RaisesAt(op, at + [At(k)], path[1..], d.members[k], w) {
        RaisesBelow(op, at, path, d, [At(k)] + w);
      }
      if w: Location :| RaisesAt(op, at, path, d, w) { RaisesBelow(op, at, path, d, w); }
    } else if path[0].Each? && d.Arr? {
      EachRaisesIff(op, at, path[1..], d.items, 0);
      if i: int, w: Location :| ElementRaises(op, at, path[1..], d.items, 0, i, w) {
        RaisesBelow(op, at, path, d, [Index(i)] + w);
      }
      if w: Location :| RaisesAt(op, at, path, d, w) {
        RaisesBelow(op, at, path, d, w);
        assert ElementRaises(op, at, path[1..], d.items, 0, w[0].i, w[1..]);
      }
    } else {
      forall w: Location ensures !RaisesAt(op, at, path, d, w) { }
    }
  }

  lemma RaisesBelow(op: Op, at: Location, path: Path, d: Json, where: Location)
    requires path != [] && where != [] && Fits(where[0], path[0]) && Get(d, [where[0]]).Some?
    ensures RaisesAt(op, at, path, d, where) <==>
      RaisesAt(op, at + [where[0]], path[1..], Get(d, [where[0]]).value, where[1..])
  {
    assert [where[0]][1..] == [];
    assert at + where == (at + [where[0]]) + where[1..];
  }

  // It raises in the i-th of the elements, which are those from some index on.
  ghost predicate ElementRaises(op: Op, at: Location, path: Path, items: seq<Json>, from: nat, i: int,
                                where: Location) {
    0 <= i < |items| && RaisesAt(op, at + [Index(from + i)], path, items[i], where)
  }

  lemma {:induction false} EachRaisesIff(op: Op, at: Location, path: Path, items: seq<Json>, from: nat)
    ensures ApplyEach(op, at, path, items, from) == None <==>
      exists i, where :: ElementRaises(op, at, path, items, from, i, where)
    decreases |path|, |items| + 1
  {
    if items != [] {
      var rest := items[1..];
      RaisesIff(op, at + [Index(from)], path, items[0]);
      EachRaisesIff(op, at, path, rest, from + 1);
      forall i: int, w: Location
        ensures i > 0 ==>
          (ElementRaises(op, at, path, items, from, i, w) <==> ElementRaises(op, at, path, rest, from + 1, i - 1, w))
      {
      }
      var next := from + 1;
      if i: int, w: Location :| ElementRaises(op, at, path, rest, next, i, w) {
        assert ElementRaises(op, at, path, items, from, i + 1, w);
      }
      if w: Location :| RaisesAt(op, at + [Index(from)], path, items[0], w) {
        assert ElementRaises(op, at, path, items, from, 0, w);
      }
    }
  }
}
