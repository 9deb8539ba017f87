/**
  Lists of sensitive paths: protecting a document at each of them in turn and unprotecting it
  at each of them in turn. The round trip is exact for every document precisely when no path is
  nested in another.
*/
module GdprRoundTrip {
  import opened Helpers
  import opened GdprPaths

  // ---- A list of paths --------------------------------------------------------------------

  // One operation per path, in list order.
  function ApplyAll(ops: seq<Op>, paths: seq<Path>, d: Json): Option<Json>
    requires |ops| == |paths|
    decreases |paths|
  {
    if paths == [] then Some(d)
    else
      var n := |paths| - 1;
      Then(ApplyAll(ops[..n], paths[..n], d), ops[n], [], paths[n])
  }

  // The same operation at every path.
  function UndoAll(undo: Op, paths: seq<Path>, d: Json): Option<Json>
    decreases |paths|
  {
    if paths == [] then Some(d)
    else Then(UndoAll(undo, paths[..|paths| - 1], d), undo, [], paths[|paths| - 1])
  }

  ghost predicate NoneNested(paths: seq<Path>) {
    forall p, q :: p in paths && q in paths && p != q ==> !Nested(p, q)
  }

  ghost predicate AllUndo(undo: Op, ops: seq<Op>) {
    forall i :: 0 <= i < |ops| ==> Undoes(undo, ops[i])
  }

  // An operation at a path that is nested in none of the list may go first or last.
  lemma {:induction false} FirstOrLast(undo: Op, paths: seq<Path>, p: Path, d: Json)
    requires forall q :: q in paths && q != p ==> !Nested(q, p)
    ensures (var first := Apply(undo, [], p, d); if first.None? then None else UndoAll(undo, paths, first.value))
         == Then(UndoAll(undo, paths, d), undo, [], p)
    decreases |paths|
  {
    if paths != [] {
      var n := |paths| - 1;
      var q := paths[n];
      assert q in paths;
      FirstOrLast(undo, paths[..n], p, d);
      var mid := UndoAll(undo, paths[..n], d);
      if mid.Some? && p != q { Commute(undo, p, undo, q, [], mid.value); }
    }
  }

  // Unprotecting what was protected gives the document back, whatever each call drew, when the
  // paths are pairwise equal or not nested.
  lemma {:induction false} RoundTrip(undo: Op, ops: seq<Op>, paths: seq<Path>, d: Json)
    requires |ops| == |paths| && AllUndo(undo, ops) && NoneNested(paths)
    requires ApplyAll(ops, paths, d).Some?
    ensures UndoAll(undo, paths, ApplyAll(ops, paths, d).value) == Some(d)
    decreases |paths|
  {
    if paths != [] {
      var n := |paths| - 1;
      var mid := ApplyAll(ops[..n], paths[..n], d).value;
      var sealed := ApplyAll(ops, paths, d).value;
      UndoneAtPath(ops[n], undo, [], paths[n], mid);
      FirstOrLast(undo, paths[..n], paths[n], sealed);
      RoundTrip(undo, ops[..n], paths[..n], d);
    }
  }

  // ---- The order of the list -----------------------------------------------------------------

  lemma {:induction false} UndoAppend(undo: Op, a: seq<Path>, b: seq<Path>, d: Json)
    ensures UndoAll(undo, a + b, d) ==
      (var first := UndoAll(undo, a, d); if first.None? then None else UndoAll(undo, b, first.value))
    decreases |b|
  {
    if b == [] {
      assert a + b == a;
    } else {
      var n := |b| - 1;
      assert (a + b)[..|a + b| - 1] == a + b[..n];
      UndoAppend(undo, a, b[..n], d);
    }
  }

  // An operation with its path.
  type Job = (Op, Path)

  function Jobs(ops: seq<Op>, paths: seq<Path>): seq<Job>
    requires |ops| == |paths|
  {
    seq(|ops|, i requires 0 <= i < |ops| => (ops[i], paths[i]))
  }

  function JobsAll(jobs: seq<Job>, d: Json): Option<Json>
    decreases |jobs|
  {
    if jobs == [] then Some(d)
    else
      var n := |jobs| - 1;
      Then(JobsAll(jobs[..n], d), jobs[n].0, [], jobs[n].1)
  }

  lemma {:induction false} JobsAreApplyAll(ops: seq<Op>, paths: seq<Path>, d: Json)
    requires |ops| == |paths|
    ensures JobsAll(Jobs(ops, paths), d) == ApplyAll(ops, paths, d)
    decreases |paths|
  {
    if paths != [] {
      var n := |paths| - 1;
      assert Jobs(ops, paths)[..n] == Jobs(ops[..n], paths[..n]);
      JobsAreApplyAll(ops[..n], paths[..n], d);
    }
  }

  // Different jobs are at paths that are not nested.
  ghost predicate Apart(jobs: seq<Job>) {
    forall x, y :: x in jobs && y in jobs && x != y ==> !Nested(x.1, y.1)
  }

  lemma {:induction false} JobFirstOrLast(jobs: seq<Job>, x: Job, d: Json)
    requires forall y :: y in jobs && y != x ==> !Nested(y.1, x.1)
    ensures (var first := Apply(x.0, [], x.1, d); if first.None? then None else JobsAll(jobs, first.value))
         == Then(JobsAll(jobs, d), x.0, [], x.1)
    decreases |jobs|
  {
    if jobs != [] {
      var n := |jobs| - 1;
      var y := jobs[n];
      assert y in jobs;
      JobFirstOrLast(jobs[..n], x, d);
      var mid := JobsAll(jobs[..n], d);
      if mid.Some? && x != y { Commute(x.0, x.1, y.0, y.1, [], mid.value); }
    }
  }

  lemma {:induction false} JobsAppend(a: seq<Job>, b: seq<Job>, d: Json)
    ensures JobsAll(a + b, d) ==
      (var first := JobsAll(a, d); if first.None? then None else JobsAll(b, first.value))
    decreases |b|
  {
    if b == [] {
      assert a + b == a;
    } else {
      var n := |b| - 1;
      assert (a + b)[..|a + b| - 1] == a + b[..n];
      JobsAppend(a, b[..n], d);
    }
  }

  lemma JobMovesLast(a: seq<Job>, x: Job, c: seq<Job>, d: Json)
    requires Apart(a + ([x] + c))
    ensures JobsAll(a + ([x] + c), d) == Then(JobsAll(a + c, d), x.0, [], x.1)
  {
    JobsAppend(a, [x] + c, d);
    JobsAppend(a, c, d);
    var mid := JobsAll(a, d);
    if mid.Some? {
      JobsAppend([x], c, mid.value);
      assert [x][..0] == [] && JobsAll([x], mid.value) == Apply(x.0, [], x.1, mid.value);
      assert x in a + ([x] + c);
      JobFirstOrLast(c, x, mid.value);
    }
  }

  lemma LastTakenOut<T>(a: seq<T>, i: nat, b: seq<T>)
    requires multiset(a) == multiset(b) && b != [] && i < |a| && a[i] == b[|b| - 1]
    ensures multiset(a[..i] + a[i + 1..]) == multiset(b[..|b| - 1])
    ensures a == a[..i] + ([a[i]] + a[i + 1..])
  {
    assert a == a[..i] + ([a[i]] + a[i + 1..]);
    assert b == b[..|b| - 1] + [a[i]];
    assert multiset(a[..i] + a[i + 1..]) == multiset(a) - multiset{a[i]};
    assert multiset(b[..|b| - 1]) == multiset(b) - multiset{a[i]};
  }

  // Without nesting the order of the jobs does not matter, raising included, so neither does
  // sorting the paths: not for protecting, where each path has its own draws, and not for
  // unprotecting, where the same path may come more than once.
  lemma {:induction false} OrderIsIrrelevant(a: seq<Job>, b: seq<Job>, d: Json)
    requires multiset(a) == multiset(b) && Apart(a)
    ensures JobsAll(a, d) == JobsAll(b, d)
    decreases |b|
  {
    if b == [] {
      assert |a| == |multiset(a)| == |multiset(b)| == 0;
    } else {
      var n := |b| - 1;
      var x := b[n];
      assert x in multiset(b);
      assert x in multiset(a);
      var i :| 0 <= i < |a| && a[i] == x;
      LastTakenOut(a, i, b);
      JobMovesLast(a[..i], x, a[i + 1..], d);
      OrderIsIrrelevant(a[..i] + a[i + 1..], b[..n], d);
    }
  }

  // ---- Location by location -----------------------------------------------------------------------

  // What no path leads to, into or through is as it was after the whole list.
  lemma {:induction false} OthersUntouched(jobs: seq<Job>, d: Json, where: Location)
    requires JobsAll(jobs, d).Some? && forall x :: x in jobs ==> !Meets(where, x.1)
    ensures Get(JobsAll(jobs, d).value, where) == Get(d, where)
    decreases |jobs|
  {
    if jobs != [] {
      var n := |jobs| - 1;
      assert jobs[n] in jobs;
      OthersUntouched(jobs[..n], d, where);
      ApplyByLocation(jobs[n].0, [], jobs[n].1, JobsAll(jobs[..n], d).value, where);
    }
  }

  // Two paths that lead to a location, or through it, are nested when one of them ends there.
  lemma {:induction false} MeetingIsNested(where: Location, p: Path, q: Path)
    requires Meets(where, p) && Meets(where, q) && |where| == |q|
    ensures Nested(p, q)
  {
    if where != [] && p != [] {
      MeetingIsNested(where[1..], p[1..], q[1..]);
      assert p == [p[0]] + p[1..] && q == [q[0]] + q[1..];
    }
  }

  // And the value at the end of each path is what the operation of that path makes of it: no
  // other job of the list has touched it before or touches it after.
  lemma LeafRewritten(jobs: seq<Job>, i: nat, d: Json, where: Location)
    requires JobsAll(jobs, d).Some? && Apart(jobs) && i < |jobs|
    requires forall k :: 0 <= k < |jobs| && k != i ==> jobs[k] != jobs[i]
    requires |where| == |jobs[i].1| && Meets(where, jobs[i].1) && Get(d, where).Some?
    ensures jobs[i].0(where, Get(d, where).value).Some?
    ensures Get(JobsAll(jobs, d).value, where) == jobs[i].0(where, Get(d, where).value)
  {
    var x := jobs[i];
    var a, c := jobs[..i], jobs[i + 1..];
    forall y | y in a || y in c ensures !Meets(where, y.1) {
      assert y in jobs && y != x;
      if Meets(where, y.1) { MeetingIsNested(where, y.1, x.1); }
    }
    assert jobs == a + ([x] + c);
    JobsAppend(a, [x] + c, d);
    var before := JobsAll(a, d).value;
    JobsAppend([x], c, before);
    assert [x][..0] == [] && JobsAll([x], before) == Apply(x.0, [], x.1, before);
    OthersUntouched(a, d, where);
    ApplyByLocation(x.0, [], x.1, before, where);
    assert [] + where == where;
    OthersUntouched(c, Apply(x.0, [], x.1, before).value, where);
  }

  // ---- The cipher ---------------------------------------------------------------------------------

  // `_encrypt_leaf`: the JSON of the value, encrypted; the draw may depend on the location.
  type Seal = (Location, Json) -> Option<string>

  // Decrypt, then parse the JSON.
  type Unseal = string -> Option<Json>

  function Sealing(seal: Seal): Op {
    (at, v) => match seal(at, v) case None => None case Some(c) => Some(Str(c))
  }

  // `_decrypt_leaf`: a value that is no string is left alone.
  function Opening(unseal: Unseal): Op {
    (at: Location, v: Json) => if v.Str? then unseal(v.s) else Some(v)
  }

  ghost predicate Inverse(unseal: Unseal, seal: Seal) {
    forall at, v :: seal(at, v).Some? ==> unseal(seal(at, v).value) == Some(v)
  }

  function Sealings(seals: seq<Seal>): seq<Op> {
    seq(|seals|, i requires 0 <= i < |seals| => Sealing(seals[i]))
  }

  // `protect`, the i-th path with the draws of the i-th seal, and `unprotect`.
  function Protect(seals: seq<Seal>, paths: seq<Path>, d: Json): Option<Json>
    requires |seals| == |paths|
  {
    ApplyAll(Sealings(seals), paths, d)
  }

  function Unprotect(unseal: Unseal, paths: seq<Path>, d: Json): Option<Json> {
    UndoAll(Opening(unseal), paths, d)
  }

  ghost predicate AllInverse(unseal: Unseal, seals: seq<Seal>) {
    forall i :: 0 <= i < |seals| ==> Inverse(unseal, seals[i])
  }

  function Everywhere(undo: Op, n: nat): seq<Op> {
    seq(n, _ => undo)
  }

  lemma {:induction false} SameEverywhere(undo: Op, ops: seq<Op>, paths: seq<Path>, d: Json)
    requires |ops| == |paths| && forall i :: 0 <= i < |ops| ==> ops[i] == undo
    ensures ApplyAll(ops, paths, d) == UndoAll(undo, paths, d)
    decreases |paths|
  {
    if paths != [] { SameEverywhere(undo, ops[..|paths| - 1], paths[..|paths| - 1], d); }
  }

  lemma JobsAreApart(ops: seq<Op>, paths: seq<Path>)
    requires |ops| == |paths| && NoneNested(paths) && NoneTwice(paths)
    ensures Apart(Jobs(ops, paths))
    ensures forall i, k :: 0 <= i < |ops| && 0 <= k < |ops| && k != i ==> Jobs(ops, paths)[k] != Jobs(ops, paths)[i]
  {
    var jobs := Jobs(ops, paths);
    forall x, y | x in jobs && y in jobs && x != y ensures !Nested(x.1, y.1) {
      var i :| 0 <= i < |jobs| && jobs[i] == x;
      var k :| 0 <= k < |jobs| && jobs[k] == y;
      assert paths[i] in paths && paths[k] in paths && paths[i] != paths[k];
    }
    forall i, k | 0 <= i < |ops| && 0 <= k < |ops| && k != i ensures jobs[k] != jobs[i] {
      assert paths[k] != paths[i];
    }
  }

  lemma ListByLocation(ops: seq<Op>, paths: seq<Path>, d: Json, where: Location)
    requires |ops| == |paths| && NoneNested(paths) && NoneTwice(paths) && ApplyAll(ops, paths, d).Some?
    ensures var e := ApplyAll(ops, paths, d).value;
      && (OutOfTheWay(paths, where) ==> Get(e, where) == Get(d, where))
      && forall i :: 0 <= i < |paths| && EndsAt(paths[i], where) && Get(d, where).Some? ==>
           Get(e, where).Some? && Get(e, where) == ops[i](where, Get(d, where).value)
  {
    var jobs := Jobs(ops, paths);
    JobsAreApplyAll(ops, paths, d);
    JobsAreApart(ops, paths);
    if OutOfTheWay(paths, where) {
      forall x | x in jobs ensures !Meets(where, x.1) {
        var i :| 0 <= i < |jobs| && jobs[i] == x;
        assert paths[i] in paths;
      }
      OthersUntouched(jobs, d, where);
    }
    forall i | 0 <= i < |paths| && EndsAt(paths[i], where) && Get(d, where).Some?
      ensures var e := ApplyAll(ops, paths, d).value;
        Get(e, where).Some? && Get(e, where) == ops[i](where, Get(d, where).value)
    {
      LeafRewritten(jobs, i, d, where);
    }
  }

  // No path leads to the location, into it or through it.
  ghost predicate OutOfTheWay(paths: seq<Path>, where: Location) {
    forall p :: p in paths ==> !Meets(where, p)
  }

  predicate EndsAt(p: Path, where: Location) {
    |where| == |p| && Meets(where, p)
  }

  ghost predicate ListRaisesAt(ops: seq<Op>, paths: seq<Path>, d: Json, i: int, where: Location)
    requires |ops| == |paths|
  {
    0 <= i < |paths| && RaisesAt(ops[i], [], paths[i], d, where)
  }

  // A list of operations raises exactly when one of them does at a location its path leads to in
  // the document as it was.
  lemma {:induction false} ListRaisesIff(ops: seq<Op>, paths: seq<Path>, d: Json)
    requires |ops| == |paths| && NoneNested(paths) && NoneTwice(paths)
    ensures ApplyAll(ops, paths, d) == None <==> exists i, where :: ListRaisesAt(ops, paths, d, i, where)
    decreases |paths|
  {
    if paths != [] {
      var n := |paths| - 1;
      var r := ApplyAll(ops[..n], paths[..n], d);
      ListRaisesIff(ops[..n], paths[..n], d);
      if r.None? {
        var i: int, w: Location :| ListRaisesAt(ops[..n], paths[..n], d, i, w);
        assert ListRaisesAt(ops, paths, d, i, w);
      } else {
        RaisesIff(ops[n], [], paths[n], r.value);
        forall w: Location
          ensures RaisesAt(ops[n], [], paths[n], r.value, w) <==> RaisesAt(ops[n], [], paths[n], d, w)
        {
          if EndsAt(paths[n], w) { EndIsUntouched(ops[..n], paths[..n], paths[n], d, w); }
        }
        if i: int, w: Location :| ListRaisesAt(ops, paths, d, i, w) {
          assert i < n ==> ListRaisesAt(ops[..n], paths[..n], d, i, w);
        }
        if w: Location :| RaisesAt(ops[n], [], paths[n], d, w) { assert ListRaisesAt(ops, paths, d, n, w); }
      }
    }
  }

  // The end of a path that is nested with none of the list is untouched by it.
  lemma EndIsUntouched(ops: seq<Op>, paths: seq<Path>, p: Path, d: Json, where: Location)
    requires |ops| == |paths| && NoneNested(paths) && NoneTwice(paths) && ApplyAll(ops, paths, d).Some?
    requires EndsAt(p, where) && forall q :: q in paths ==> !Nested(q, p)
    ensures Get(ApplyAll(ops, paths, d).value, where) == Get(d, where)
  {
    forall q | q in paths ensures !Meets(where, q) {
      if Meets(where, q) { MeetingIsNested(where, q, p); }
    }
    ListByLocation(ops, paths, d, where);
  }

  // After protect, what no marked path passes is as it was, and the value at the end of every
  // marked path is the ciphertext of the value that stood there.
  lemma ProtectByLocation(seals: seq<Seal>, paths: seq<Path>, d: Json, where: Location)
    requires |seals| == |paths| && NoneNested(paths) && NoneTwice(paths) && Protect(seals, paths, d).Some?
    ensures var e := Protect(seals, paths, d).value;
      && (OutOfTheWay(paths, where) ==> Get(e, where) == Get(d, where))
      && forall i :: 0 <= i < |paths| && EndsAt(paths[i], where) && Get(d, where).Some? ==>
           exists c :: seals[i](where, Get(d, where).value) == Some(c) && Get(e, where) == Some(Str(c))
  {
    ListByLocation(Sealings(seals), paths, d, where);
    forall i | 0 <= i < |paths| && EndsAt(paths[i], where) && Get(d, where).Some?
      ensures exists c ::
        seals[i](where, Get(d, where).value) == Some(c) && Get(Protect(seals, paths, d).value, where) == Some(Str(c))
    {
      assert seals[i](where, Get(d, where).value).Some?;
    }
  }

  // After unprotect, what no marked path passes is as it was, and the value at the end of every
  // marked path is what its ciphertext opens to, or, when it is no string, itself.
  lemma UnprotectByLocation(unseal: Unseal, paths: seq<Path>, d: Json, where: Location)
    requires NoneNested(paths) && NoneTwice(paths) && Unprotect(unseal, paths, d).Some?
    ensures var e := Unprotect(unseal, paths, d).value;
      && (OutOfTheWay(paths, where) ==> Get(e, where) == Get(d, where))
      && forall i :: 0 <= i < |paths| && EndsAt(paths[i], where) && Get(d, where).Some? ==>
           var v := Get(d, where).value;
           Get(e, where).Some? && Get(e, where) == if v.Str? then unseal(v.s) else Some(v)
  {
    var ops := Everywhere(Opening(unseal), |paths|);
    SameEverywhere(Opening(unseal), ops, paths, d);
    ListByLocation(ops, paths, d, where);
  }

  // The document comes back whatever it is.
  ghost predicate AlwaysRestores(unseal: Unseal, seals: seq<Seal>, paths: seq<Path>)
    requires |seals| == |paths|
  {
    forall d :: Protect(seals, paths, d).Some? ==> Unprotect(unseal, paths, Protect(seals, paths, d).value) == Some(d)
  }

  lemma ProtectThenUnprotect(unseal: Unseal, seals: seq<Seal>, paths: seq<Path>, d: Json)
    requires |seals| == |paths| && AllInverse(unseal, seals) && NoneNested(paths)
    requires Protect(seals, paths, d).Some?
    ensures Unprotect(unseal, paths, Protect(seals, paths, d).value) == Some(d)
  {
    forall i | 0 <= i < |seals| ensures Undoes(Opening(unseal), Sealings(seals)[i]) {
      assert Inverse(unseal, seals[i]);
    }
    RoundTrip(Opening(unseal), Sealings(seals), paths, d);
  }

  // ---- Nested paths break it ------------------------------------------------------------------------

  // The document that consists of one path with a value at its end.
  function Tree(path: Path, leaf: Json): Json {
    if path == [] then leaf
    else match path[0]
      case Key(k) => Obj(map[k := Tree(path[1..], leaf)])
      case Each => Arr([Tree(path[1..], leaf)])
  }

  function LocationOf(path: Path): Location {
    if path == [] then []
    else [match path[0] case Key(k) => At(k) case Each => Index(0)] + LocationOf(path[1..])
  }

  lemma {:induction false} TreeSplits(p: Path, q: Path, leaf: Json)
    ensures Tree(p + q, leaf) == Tree(p, Tree(q, leaf))
  {
    if p == [] {
      assert p + q == q;
    } else {
      assert (p + q)[1..] == p[1..] + q;
      TreeSplits(p[1..], q, leaf);
    }
  }

  lemma {:induction false} TreeIsInjective(p: Path, a: Json, b: Json)
    requires Tree(p, a) == Tree(p, b)
    ensures a == b
  {
    if p != [] {
      var x, y := Tree(p[1..], a), Tree(p[1..], b);
      assert x == y by {
        if p[0].Key? { assert map[p[0].name := x][p[0].name] == map[p[0].name := y][p[0].name]; }
        else { assert [x][0] == [y][0]; }
      }
      TreeIsInjective(p[1..], a, b);
    }
  }

  lemma EachOfOne(op: Op, at: Location, p: Path, v: Json)
    ensures ApplyEach(op, at, p, [v], 0) ==
      (var r := Apply(op, at + [Index(0)], p, v); if r.None? then None else Some([r.value]))
  {
    assert [v][1..] == [] && ApplyEach(op, at, p, [v][1..], 1) == Some([]);
    var r := Apply(op, at + [Index(0)], p, v);
    if r.Some? { assert [r.value] + [] == [r.value]; }
  }

  lemma {:induction false} AtItsEnd(op: Op, at: Location, p: Path, v: Json)
    ensures Apply(op, at, p, Tree(p, v)) ==
      (var r := op(at + LocationOf(p), v); if r.None? then None else Some(Tree(p, r.value)))
    decreases |p|
  {
    if p == [] {
      assert at + LocationOf(p) == at;
    } else {
      match p[0]
      case Key(k) =>
        AtItsEnd(op, at + [At(k)], p[1..], v);
        assert at + LocationOf(p) == (at + [At(k)]) + LocationOf(p[1..]);
        assert forall x, y: Json :: map[k := x][k := y] == map[k := y];
      case Each =>
        AtItsEnd(op, at + [Index(0)], p[1..], v);
        assert at + LocationOf(p) == (at + [Index(0)]) + LocationOf(p[1..]);
        EachOfOne(op, at, p[1..], Tree(p[1..], v));
    }
  }

  lemma {:induction false} OffItsWay(op: Op, at: Location, r: Path, q: Path, s: string)
    requires !(r <= q)
    ensures Apply(op, at, r, Tree(q, Str(s))) == Some(Tree(q, Str(s)))
    decreases |r|
  {
    if q != [] && r[0] == q[0] {
      assert r == [r[0]] + r[1..] && q == [q[0]] + q[1..];
      var sub := Tree(q[1..], Str(s));
      match r[0]
      case Key(k) =>
        OffItsWay(op, at + [At(k)], r[1..], q[1..], s);
        assert map[k := sub][k := sub] == map[k := sub];
      case Each =>
        OffItsWay(op, at + [Index(0)], r[1..], q[1..], s);
        EachOfOne(op, at, r[1..], sub);
    }
  }

  ghost predicate OffTheWay(paths: seq<Path>, q: Path) {
    forall r :: r in paths ==> !(r <= q)
  }

  lemma {:induction false} AllOffItsWay(ops: seq<Op>, undo: Op, paths: seq<Path>, q: Path, s: string)
    requires |ops| == |paths| && OffTheWay(paths, q)
    ensures ApplyAll(ops, paths, Tree(q, Str(s))) == Some(Tree(q, Str(s)))
    ensures UndoAll(undo, paths, Tree(q, Str(s))) == Some(Tree(q, Str(s)))
    decreases |paths|
  {
    if paths != [] {
      var n := |paths| - 1;
      assert forall r :: r in paths[..n] ==> r in paths;
      AllOffItsWay(ops[..n], undo, paths[..n], q, s);
      assert paths[n] in paths;
      OffItsWay(ops[n], [], paths[n], q, s);
      OffItsWay(undo, [], paths[n], q, s);
    }
  }

  lemma {:induction false} ApplyAppend(f: seq<Op>, a: seq<Path>, g: seq<Op>, b: seq<Path>, d: Json)
    requires |f| == |a| && |g| == |b|
    ensures ApplyAll(f + g, a + b, d) ==
      (var first := ApplyAll(f, a, d); if first.None? then None else ApplyAll(g, b, first.value))
    decreases |b|
  {
    if b == [] {
      assert a + b == a && f + g == f;
    } else {
      var n := |b| - 1;
      assert (a + b)[..|a + b| - 1] == a + b[..n];
      assert (f + g)[..|a + b| - 1] == f + g[..n];
      ApplyAppend(f, a, g[..n], b[..n], d);
    }
  }

  // A list a + [x] + b, taken step by step.
  lemma ApplySplit(ops: seq<Op>, undo: Op, paths: seq<Path>, i: nat, d: Json)
    requires |ops| == |paths| && i < |paths|
    ensures ApplyAll(ops, paths, d) ==
      (var r := ApplyAll(ops[..i], paths[..i], d);
       var u := Then(r, ops[i], [], paths[i]);
       if u.None? then None else ApplyAll(ops[i + 1..], paths[i + 1..], u.value))
    ensures UndoAll(undo, paths, d) ==
      (var r := UndoAll(undo, paths[..i], d);
       var u := Then(r, undo, [], paths[i]);
       if u.None? then None else UndoAll(undo, paths[i + 1..], u.value))
  {
    assert paths[..i + 1][..i] == paths[..i] && ops[..i + 1][..i] == ops[..i];
    assert paths == paths[..i + 1] + paths[i + 1..] && ops == ops[..i + 1] + ops[i + 1..];
    ApplyAppend(ops[..i + 1], paths[..i + 1], ops[i + 1..], paths[i + 1..], d);
    UndoAppend(undo, paths[..i + 1], paths[i + 1..], d);
  }

  // p is above q and nothing else in the list is.
  ghost predicate OnlyAbove(paths: seq<Path>, p: Path, q: Path) {
    && p in paths && q in paths && p <= q && p != q
    && forall r :: r in paths && r <= q ==> r == p || r == q
  }

  lemma {:induction false} ShortestConflict(paths: seq<Path>, p: Path, q: Path) returns (a: Path, b: Path)
    requires p in paths && q in paths && p <= q && p != q
    ensures OnlyAbove(paths, a, b)
    decreases |q|
  {
    if r :| r in paths && r <= q && r != p && r != q {
      if |p| <= |r| {
        assert p == q[..|p|] == r[..|p|];
        assert r == q[..|r|];
        a, b := ShortestConflict(paths, p, r);
      } else {
        assert r == q[..|r|] == p[..|r|];
        a, b := ShortestConflict(paths, r, p);
      }
    } else {
      a, b := p, q;
    }
  }

  // The seals always succeed; `clear` is a string the cipher refuses to open.
  ghost predicate Refuses(unseal: Unseal, seals: seq<Seal>, clear: string) {
    unseal(clear).None? && forall i, at, v :: 0 <= i < |seals| ==> seals[i](at, v).Some?
  }

  lemma Below(r: Path, p: Path, q: Path)
    requires p <= q && p != q
    ensures (r <= p ==> r <= q) && !(q <= p)
  {
    if r <= p { assert r == p[..|r|] == q[..|r|]; }
    assert p == q[..|p|];
    assert q[..|q|] == q;
  }

  // A piece of the list without p is off the way to p, and without q as well to q.
  lemma PieceOffTheWay(paths: seq<Path>, p: Path, q: Path, i: nat, j: nat, lo: nat, hi: nat)
    requires NoneTwice(paths) && OnlyAbove(paths, p, q) && i < |paths| && j < |paths| && paths[i] == p && paths[j] == q
    requires lo <= hi <= |paths| && !(lo <= i < hi)
    ensures OffTheWay(paths[lo..hi], p)
    ensures !(lo <= j < hi) ==> OffTheWay(paths[lo..hi], q)
  {
    forall r | r in paths[lo..hi] ensures !(r <= p) && (!(lo <= j < hi) ==> !(r <= q)) {
      var k :| 0 <= k < hi - lo && paths[lo..hi][k] == r;
      assert paths[lo + k] == r;
      assert r == p ==> lo + k == i;
      assert r == q ==> lo + k == j;
      assert r in paths;
      Below(r, p, q);
    }
  }

  lemma TreeBelow(p: Path, q: Path, leaf: Json)
    requires p <= q
    ensures Tree(q, leaf) == Tree(p, Tree(q[|p|..], leaf))
  {
    assert p + q[|p|..] == q;
    TreeSplits(p, q[|p|..], leaf);
  }

  // One path of the list leads to the value of a tree, and the ones after it are hidden by the
  // ciphertext.
  lemma SealsAtItsEnd(seals: seq<Seal>, undo: Op, paths: seq<Path>, p: Path, i: nat, sub: Json)
    returns (c: string)
    requires i < |seals| == |paths| && paths[i] == p && OffTheWay(paths[i + 1..], p)
    requires ApplyAll(Sealings(seals)[..i], paths[..i], Tree(p, sub)) == Some(Tree(p, sub))
    requires seals[i](LocationOf(p), sub).Some?
    ensures seals[i](LocationOf(p), sub) == Some(c)
    ensures ApplyAll(Sealings(seals), paths, Tree(p, sub)) == Some(Tree(p, Str(c)))
  {
    var ops := Sealings(seals);
    AtItsEnd(ops[i], [], p, sub);
    assert [] + LocationOf(p) == LocationOf(p);
    c := seals[i](LocationOf(p), sub).value;
    AllOffItsWay(ops[i + 1..], undo, paths[i + 1..], p, c);
    ApplySplit(ops, undo, paths, i, Tree(p, sub));
  }

  // Container first: the container is restored, and then its clear part is opened.
  lemma ContainerFirst(unseal: Unseal, seals: seq<Seal>, paths: seq<Path>, clear: string, p: Path, q: Path, i: nat,
                       j: nat)
    requires |seals| == |paths| && AllInverse(unseal, seals) && Refuses(unseal, seals, clear) && NoneTwice(paths)
    requires OnlyAbove(paths, p, q) && i < j < |paths| && paths[i] == p && paths[j] == q
    ensures var d := Tree(q, Str(clear));
      Protect(seals, paths, d).Some? && Unprotect(unseal, paths, Protect(seals, paths, d).value).None?
  {
    var d := Tree(q, Str(clear));
    var ops, undo := Sealings(seals), Opening(unseal);
    PieceOffTheWay(paths, p, q, i, j, 0, i);
    PieceOffTheWay(paths, p, q, i, j, i + 1, |paths|);
    assert paths[0..i] == paths[..i] && paths[i + 1..|paths|] == paths[i + 1..];
    TreeBelow(p, q, Str(clear));
    AllOffItsWay(ops[..i], undo, paths[..i], q, clear);
    var c := SealsAtItsEnd(seals, undo, paths, p, i, Tree(q[|p|..], Str(clear)));
    assert Inverse(unseal, seals[i]);
    ClearPartIsOpened(unseal, seals, paths, clear, p, q, i, j, c);
  }

  lemma ClearPartIsOpened(unseal: Unseal, seals: seq<Seal>, paths: seq<Path>, clear: string, p: Path, q: Path,
                          i: nat, j: nat, c: string)
    requires |seals| == |paths| && unseal(clear).None? && NoneTwice(paths)
    requires OnlyAbove(paths, p, q) && i < j < |paths| && paths[i] == p && paths[j] == q
    requires unseal(c) == Some(Tree(q[|p|..], Str(clear)))
    ensures Unprotect(unseal, paths, Tree(p, Str(c))).None?
  {
    var ops, undo := Sealings(seals), Opening(unseal);
    var rest, k := paths[i + 1..], j - i - 1;
    PieceOffTheWay(paths, p, q, i, j, 0, i);
    PieceOffTheWay(paths, p, q, i, j, i + 1, j);
    assert paths[0..i] == paths[..i] && rest[..k] == paths[i + 1..j] && rest[k] == q;
    TreeBelow(p, q, Str(clear));
    AllOffItsWay(ops[..i], undo, paths[..i], p, c);
    AtItsEnd(undo, [], p, Str(c));
    ApplySplit(ops, undo, paths, i, Tree(p, Str(c)));
    AllOffItsWay(ops[i + 1..][..k], undo, rest[..k], q, clear);
    AtItsEnd(undo, [], q, Str(clear));
    ApplySplit(ops[i + 1..], undo, rest, k, Tree(q, Str(clear)));
  }

  // Part first: the container hides the part when it is its turn to be opened.
  lemma PartFirst(unseal: Unseal, seals: seq<Seal>, paths: seq<Path>, clear: string, p: Path, q: Path, i: nat, j: nat)
    requires |seals| == |paths| && AllInverse(unseal, seals) && Refuses(unseal, seals, clear) && NoneTwice(paths)
    requires OnlyAbove(paths, p, q) && j < i < |paths| && paths[i] == p && paths[j] == q
    ensures var d := Tree(q, Str(clear));
      Protect(seals, paths, d).Some? && Unprotect(unseal, paths, Protect(seals, paths, d).value) != Some(d)
  {
    var undo := Opening(unseal);
    var c1 := PartIsSealed(seals, paths, clear, p, q, i, j, undo, unseal);
    var sub := Tree(q[|p|..], Str(c1));
    assert Inverse(unseal, seals[i]) && Inverse(unseal, seals[j]);
    var c2 := seals[i](LocationOf(p), sub).value;
    TreeBelow(p, q, Str(c1));
    PieceOffTheWay(paths, p, q, i, j, 0, i);
    PieceOffTheWay(paths, p, q, i, j, i + 1, |paths|);
    assert paths[0..i] == paths[..i] && paths[i + 1..|paths|] == paths[i + 1..];
    PartStaysSealed(unseal, seals, paths, p, q, i, c2, sub, c1);
    if Tree(q, Str(c1)) == Tree(q, Str(clear)) { TreeIsInjective(q, Str(c1), Str(clear)); }
  }

  lemma PartIsSealed(seals: seq<Seal>, paths: seq<Path>, clear: string, p: Path, q: Path, i: nat, j: nat, undo: Op,
                     unseal: Unseal)
    returns (c1: string)
    requires |seals| == |paths| && Refuses(unseal, seals, clear) && NoneTwice(paths)
    requires OnlyAbove(paths, p, q) && j < i < |paths| && paths[i] == p && paths[j] == q
    ensures seals[j](LocationOf(q), Str(clear)) == Some(c1)
    ensures seals[i](LocationOf(p), Tree(q[|p|..], Str(c1))).Some?
    ensures Protect(seals, paths, Tree(q, Str(clear)))
      == Some(Tree(p, Str(seals[i](LocationOf(p), Tree(q[|p|..], Str(c1))).value)))
  {
    var ops := Sealings(seals);
    var first, firstPaths := ops[..i], paths[..i];
    PieceOffTheWay(paths, p, q, i, j, 0, j);
    PieceOffTheWay(paths, p, q, i, j, j + 1, i);
    PieceOffTheWay(paths, p, q, i, j, i + 1, |paths|);
    assert firstPaths[..j] == paths[0..j] && firstPaths[j + 1..] == paths[j + 1..i];
    assert paths[i + 1..|paths|] == paths[i + 1..];
    AllOffItsWay(first[..j], undo, firstPaths[..j], q, clear);
    AtItsEnd(ops[j], [], q, Str(clear));
    assert [] + LocationOf(q) == LocationOf(q);
    c1 := seals[j](LocationOf(q), Str(clear)).value;
    AllOffItsWay(first[j + 1..], undo, firstPaths[j + 1..], q, c1);
    ApplySplit(first, undo, firstPaths, j, Tree(q, Str(clear)));

    var sub := Tree(q[|p|..], Str(c1));
    TreeBelow(p, q, Str(c1));
    AtItsEnd(ops[i], [], p, sub);
    assert [] + LocationOf(p) == LocationOf(p);
    AllOffItsWay(ops[i + 1..], undo, paths[i + 1..], p, seals[i](LocationOf(p), sub).value);
    ApplySplit(ops, undo, paths, i, Tree(q, Str(clear)));
  }

  lemma PartStaysSealed(unseal: Unseal, seals: seq<Seal>, paths: seq<Path>, p: Path, q: Path, i: nat, c: string,
                        sub: Json, c1: string)
    requires i < |seals| == |paths| && paths[i] == p && OffTheWay(paths[..i], p) && OffTheWay(paths[i + 1..], q)
    requires unseal(c) == Some(sub) && Tree(p, sub) == Tree(q, Str(c1))
    ensures Unprotect(unseal, paths, Tree(p, Str(c))) == Some(Tree(q, Str(c1)))
  {
    var ops, undo := Sealings(seals), Opening(unseal);
    AllOffItsWay(ops[..i], undo, paths[..i], p, c);
    AtItsEnd(undo, [], p, Str(c));
    AllOffItsWay(ops[i + 1..], undo, paths[i + 1..], q, c1);
    ApplySplit(ops, undo, paths, i, Tree(p, Str(c)));
  }

  // Whatever the order of the paths: every document comes back exactly when no path is nested in
  // another. The paths are distinct and the cipher refuses some string it did not produce.
  lemma RestoresIff(unseal: Unseal, seals: seq<Seal>, paths: seq<Path>, clear: string)
    requires |seals| == |paths| && AllInverse(unseal, seals) && Refuses(unseal, seals, clear) && NoneTwice(paths)
    ensures AlwaysRestores(unseal, seals, paths) <==> NoneNested(paths)
  {
    if NoneNested(paths) {
      forall d | Protect(seals, paths, d).Some?
        ensures Unprotect(unseal, paths, Protect(seals, paths, d).value) == Some(d)
      {
        ProtectThenUnprotect(unseal, seals, paths, d);
      }
    } else {
      var x, y :| x in paths && y in paths && x != y && Nested(x, y);
      var p, q := ShortestConflict(paths, if x <= y then x else y, if x <= y then y else x);
      var i :| 0 <= i < |paths| && paths[i] == p;
      var j :| 0 <= j < |paths| && paths[j] == q;
      if i < j { ContainerFirst(unseal, seals, paths, clear, p, q, i, j); }
      else { PartFirst(unseal, seals, paths, clear, p, q, i, j); }
      var d := Tree(q, Str(clear));
      assert Protect(seals, paths, d).Some? && Unprotect(unseal, paths, Protect(seals, paths, d).value) != Some(d);
    }
  }
}
