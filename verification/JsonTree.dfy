/**
  Parsed JSON bodies. An object is its list of pairs as it was written, so repeated members
  survive; a dictionary is such a list without repetitions, in insertion order.
*/
module JsonTree {
  import opened Helpers

  datatype Json =
    | Null
    | Bool(b: bool)
    | Int(n: int)
    | Float(finite: bool, bits: int)   // 1e400 reads as a number that is not finite
    | Str(s: string)
    | Arr(items: seq<Json>)
    | Obj(members: Pairs)

  type Pairs = seq<(string, Json)>

  // ---- Dictionaries --------------------------------------------------------------------

  function Get(d: Pairs, key: string): Option<Json> {
    if d == [] then None else if d[0].0 == key then Some(d[0].1) else Get(d[1..], key)
  }

  // `d[key] = value`: in place, or at the end for a new key.
  function Put(d: Pairs, key: string, value: Json): Pairs {
    if d == [] then [(key, value)]
    else if d[0].0 == key then [(key, value)] + d[1..]
    else [d[0]] + Put(d[1..], key, value)
  }

  function Del(d: Pairs, key: string): Pairs {
    if d == [] then [] else if d[0].0 == key then d[1..] else [d[0]] + Del(d[1..], key)
  }

  ghost predicate Has(d: Pairs, key: string) {
    exists i :: 0 <= i < |d| && d[i].0 == key
  }

  ghost predicate Distinct(d: Pairs) {
    forall i, j :: 0 <= i < j < |d| ==> d[i].0 != d[j].0
  }

  lemma {:induction false} GetIs(d: Pairs, key: string)
    ensures Get(d, key).Some? <==> Has(d, key)
    ensures Get(d, key).Some? ==> (key, Get(d, key).value) in d
  {
    if d != [] {
      GetIs(d[1..], key);
      if Has(d[1..], key) {
        var i :| 0 <= i < |d[1..]| && d[1..][i].0 == key;
        assert d[i + 1].0 == key;
      }
    }
  }

  lemma {:induction false} GetOf(d: Pairs, i: nat)
    requires Distinct(d) && i < |d|
    ensures Get(d, d[i].0) == Some(d[i].1)
  {
    if i > 0 {
      assert d[1..][i - 1] == d[i];
      GetOf(d[1..], i - 1);
    }
  }

  lemma {:induction false} PutIs(d: Pairs, key: string, value: Json)
    ensures Get(Put(d, key, value), key) == Some(value)
    ensures forall k :: k != key ==> Get(Put(d, key, value), k) == Get(d, k)
    ensures forall p :: p in Put(d, key, value) ==> p == (key, value) || p in d
    ensures Distinct(d) ==> Distinct(Put(d, key, value))
    decreases |d|
  {
    if d != [] && d[0].0 != key {
      PutIs(d[1..], key, value);
      var tail := Put(d[1..], key, value);
      if Distinct(d) {
        assert Distinct(d[1..]);
        forall j | 0 <= j < |tail| ensures tail[j].0 != d[0].0 {
          assert tail[j] in tail;
          if tail[j] != (key, value) {
            var i :| 0 <= i < |d[1..]| && d[1..][i] == tail[j];
            assert d[i + 1] == tail[j];
          }
        }
      }
      assert Put(d, key, value)[1..] == tail;
    }
  }

  lemma {:induction false} DelLeaves(d: Pairs, key: string)
    ensures forall k :: k != key ==> Get(Del(d, key), k) == Get(d, k)
    ensures forall p :: p in Del(d, key) ==> p in d
    ensures Get(d, key) == None ==> Del(d, key) == d
    decreases |d|
  {
    if d != [] && d[0].0 != key {
      DelLeaves(d[1..], key);
      assert Del(d, key)[1..] == Del(d[1..], key);
    }
  }

  lemma {:induction false} DelTakes(d: Pairs, key: string)
    requires Distinct(d)
    ensures Distinct(Del(d, key)) && Get(Del(d, key), key) == None
    decreases |d|
  {
    if d != [] && d[0].0 != key {
      DelTakes(d[1..], key);
      DelLeaves(d[1..], key);
      var tail := Del(d[1..], key);
      forall j | 0 <= j < |tail| ensures tail[j].0 != d[0].0 {
        assert tail[j] in d[1..];
        var i :| 0 <= i < |d[1..]| && d[1..][i] == tail[j];
        assert d[i + 1] == tail[j];
      }
      assert Del(d, key)[1..] == tail;
    } else if d != [] {
      GetIs(d[1..], key);
    }
  }

  lemma DelIs(d: Pairs, key: string)
    ensures forall k :: k != key ==> Get(Del(d, key), k) == Get(d, k)
    ensures forall p :: p in Del(d, key) ==> p in d
    ensures Distinct(d) ==> Distinct(Del(d, key)) && Get(Del(d, key), key) == None
    ensures Get(d, key) == None ==> Del(d, key) == d
  {
    DelLeaves(d, key);
    if Distinct(d) { DelTakes(d, key); }
  }

  // The dictionary a parser builds: the last value of a repeated member wins.
  function Dict(pairs: Pairs): Pairs {
    if pairs == [] then []
    else Put(Dict(pairs[..|pairs| - 1]), pairs[|pairs| - 1].0, pairs[|pairs| - 1].1)
  }

  lemma {:induction false} DictIs(pairs: Pairs)
    ensures Distinct(Dict(pairs))
    ensures forall p :: p in Dict(pairs) ==> p in pairs
    decreases |pairs|
  {
    if pairs != [] {
      var n := |pairs| - 1;
      DictIs(pairs[..n]);
      PutIs(Dict(pairs[..n]), pairs[n].0, pairs[n].1);
    }
  }

  // The value of the last occurrence of a member.
  function LastOf(pairs: Pairs, key: string): Option<Json>
    decreases |pairs|
  {
    if pairs == [] then None
    else if pairs[|pairs| - 1].0 == key then Some(pairs[|pairs| - 1].1)
    else LastOf(pairs[..|pairs| - 1], key)
  }

  ghost predicate IsLast(pairs: Pairs, key: string, i: int) {
    0 <= i < |pairs| && pairs[i].0 == key && forall j :: i < j < |pairs| ==> pairs[j].0 != key
  }

  lemma {:induction false} LastOfIs(pairs: Pairs, key: string)
    ensures match LastOf(pairs, key)
      case None => forall i :: 0 <= i < |pairs| ==> pairs[i].0 != key
      case Some(v) => exists i :: IsLast(pairs, key, i) && pairs[i].1 == v
    decreases |pairs|
  {
    if pairs != [] {
      var n := |pairs| - 1;
      if pairs[n].0 == key {
        assert IsLast(pairs, key, n);
      } else {
        LastOfIs(pairs[..n], key);
        if LastOf(pairs, key).Some? {
          var i :| IsLast(pairs[..n], key, i) && pairs[..n][i].1 == LastOf(pairs, key).value;
          assert IsLast(pairs, key, i);
        }
      }
    }
  }

  // It keeps every member, and the last value of a repeated one wins.
  lemma {:induction false} LastWins(pairs: Pairs, key: string)
    ensures Get(Dict(pairs), key) == LastOf(pairs, key)
    decreases |pairs|
  {
    if pairs != [] {
      var n := |pairs| - 1;
      LastWins(pairs[..n], key);
      PutIs(Dict(pairs[..n]), pairs[n].0, pairs[n].1);
    }
  }

  lemma {:induction false} PutNew(d: Pairs, key: string, value: Json)
    requires !Has(d, key)
    ensures Put(d, key, value) == d + [(key, value)]
  {
    if d != [] {
      assert d[0].0 != key;
      forall i | 0 <= i < |d[1..]| ensures d[1..][i].0 != key { assert d[1..][i] == d[i + 1]; }
      PutNew(d[1..], key, value);
    }
  }

  lemma {:induction false} DictOfDistinct(pairs: Pairs)
    requires Distinct(pairs)
    ensures Dict(pairs) == pairs
    decreases |pairs|
  {
    if pairs != [] {
      var n := |pairs| - 1;
      DictOfDistinct(pairs[..n]);
      PutNew(pairs[..n], pairs[n].0, pairs[n].1);
    }
  }

  // ---- Loading ------------------------------------------------------------------------------

  function Load(j: Json): Json
    decreases j, 1, 0
  {
    match j
    case Arr(items) => Arr(LoadAll(j, items))
    case Obj(members) => Obj(Dict(LoadPairs(j, members)))
    case _ => j
  }

  function LoadAll(root: Json, items: seq<Json>): (r: seq<Json>)
    requires forall i :: 0 <= i < |items| ==> items[i] < root
    ensures |r| == |items|
    decreases root, 0, |items|
  {
    if items == [] then [] else [Load(items[0])] + LoadAll(root, items[1..])
  }

  function LoadPairs(root: Json, pairs: Pairs): (r: Pairs)
    requires forall i :: 0 <= i < |pairs| ==> pairs[i].1 < root
    ensures |r| == |pairs|
    decreases root, 0, |pairs|
  {
    if pairs == [] then [] else [(pairs[0].0, Load(pairs[0].1))] + LoadPairs(root, pairs[1..])
  }

  lemma {:induction false} LoadPairsAt(root: Json, pairs: Pairs, i: nat)
    requires forall k :: 0 <= k < |pairs| ==> pairs[k].1 < root
    requires i < |pairs|
    ensures LoadPairs(root, pairs)[i] == (pairs[i].0, Load(pairs[i].1))
    decreases |pairs|
  {
    if i > 0 { LoadPairsAt(root, pairs[1..], i - 1); }
  }

  lemma {:induction false} LoadAllAt(root: Json, items: seq<Json>, i: nat)
    requires forall k :: 0 <= k < |items| ==> items[k] < root
    requires i < |items|
    ensures LoadAll(root, items)[i] == Load(items[i])
    decreases |items|
  {
    if i > 0 { LoadAllAt(root, items[1..], i - 1); }
  }

  // Every object without repeated members, all the way down: what a parser returns.
  ghost predicate Proper(j: Json) {
    match j
    case Arr(items) => forall i :: 0 <= i < |items| ==> Proper(items[i])
    case Obj(members) => Distinct(members) && forall i :: 0 <= i < |members| ==> Proper(members[i].1)
    case _ => true
  }

  // Every member of a loaded object is one of the pairs, loaded.
  lemma LoadedMember(j: Json, p: (string, Json)) returns (i: nat)
    requires j.Obj? && p in Load(j).members
    ensures i < |j.members| && p == (j.members[i].0, Load(j.members[i].1))
  {
    var loaded := LoadPairs(j, j.members);
    DictIs(loaded);
    i :| 0 <= i < |loaded| && loaded[i] == p;
    LoadPairsAt(j, j.members, i);
  }

  lemma {:induction false} LoadIsProper(j: Json)
    ensures Proper(Load(j))
  {
    match j
    case Arr(items) =>
      forall i | 0 <= i < |items| ensures Proper(Load(j).items[i]) {
        LoadAllAt(j, items, i);
        LoadIsProper(items[i]);
      }
    case Obj(members) =>
      DictIs(LoadPairs(j, members));
      forall k | 0 <= k < |Load(j).members| ensures Proper(Load(j).members[k].1) {
        var i := LoadedMember(j, Load(j).members[k]);
        LoadIsProper(members[i].1);
      }
    case _ =>
  }

  lemma {:induction false} LoadOfProper(j: Json)
    requires Proper(j)
    ensures Load(j) == j
  {
    match j
    case Arr(items) =>
      forall i | 0 <= i < |items| ensures LoadAll(j, items)[i] == items[i] {
        LoadAllAt(j, items, i);
        LoadOfProper(items[i]);
      }
      assert LoadAll(j, items) == items;
    case Obj(members) =>
      forall i | 0 <= i < |members| ensures LoadPairs(j, members)[i] == members[i] {
        LoadPairsAt(j, members, i);
        LoadOfProper(members[i].1);
      }
      assert LoadPairs(j, members) == members;
      DictOfDistinct(members);
    case _ =>
  }

  // ---- Finite numbers -------------------------------------------------------------------------

  // The magnitude from which an integer no longer rounds to a finite double: 2^1024 - 2^970.
  const DOUBLE_LIMIT: int := Power(2, 970) * (Power(2, 54) - 1)

  function Power(base: int, n: nat): int {
    if n == 0 then 1 else base * Power(base, n - 1)
  }

  // `_is_finite_number`
  predicate FiniteNumber(j: Json) {
    match j
    case Int(n) => -DOUBLE_LIMIT < n < DOUBLE_LIMIT
    case Float(finite, _) => finite
    case _ => true
  }

  predicate AllFinite(j: Json) {
    match j
    case Arr(items) => forall i :: 0 <= i < |items| ==> AllFinite(items[i])
    case Obj(members) => forall i :: 0 <= i < |members| ==> AllFinite(members[i].1)
    case _ => FiniteNumber(j)
  }

  // Every float is finite: what the encoder writes is JSON again exactly then.
  predicate FloatsFinite(j: Json) {
    match j
    case Arr(items) => forall i :: 0 <= i < |items| ==> FloatsFinite(items[i])
    case Obj(members) => forall i :: 0 <= i < |members| ==> FloatsFinite(members[i].1)
    case Float(finite, _) => finite
    case _ => true
  }

  lemma {:induction false} LoadKeepsFinite(j: Json)
    ensures AllFinite(j) ==> AllFinite(Load(j))
    ensures FloatsFinite(j) ==> FloatsFinite(Load(j))
  {
    match j
    case Arr(items) =>
      forall i | 0 <= i < |items|
        ensures Load(j).items[i] == Load(items[i])
        ensures AllFinite(items[i]) ==> AllFinite(Load(items[i]))
        ensures FloatsFinite(items[i]) ==> FloatsFinite(Load(items[i]))
      {
        LoadAllAt(j, items, i);
        LoadKeepsFinite(items[i]);
      }
    case Obj(members) =>
      forall k | 0 <= k < |Load(j).members|
        ensures AllFinite(j) ==> AllFinite(Load(j).members[k].1)
        ensures FloatsFinite(j) ==> FloatsFinite(Load(j).members[k].1)
      {
        var i := LoadedMember(j, Load(j).members[k]);
        LoadKeepsFinite(members[i].1);
      }
    case _ =>
  }

  lemma {:induction false} FiniteFloats(j: Json)
    requires AllFinite(j)
    ensures FloatsFinite(j)
  {
    match j
    case Arr(items) => forall i | 0 <= i < |items| ensures FloatsFinite(items[i]) { FiniteFloats(items[i]); }
    case Obj(members) =>
      forall i | 0 <= i < |members| ensures FloatsFinite(members[i].1) { FiniteFloats(members[i].1); }
    case _ =>
  }

  function Size(j: Json): (n: nat)
    ensures n > 0
    decreases j, 1, 0
  {
    match j
    case Arr(items) => 1 + SizeAll(j, items)
    case Obj(members) => 1 + SizePairs(j, members)
    case _ => 1
  }

  function SizeAll(root: Json, items: seq<Json>): nat
    requires forall i :: 0 <= i < |items| ==> items[i] < root
    decreases root, 0, |items|
  {
    if items == [] then 0 else Size(items[0]) + SizeAll(root, items[1..])
  }

  function SizePairs(root: Json, pairs: Pairs): nat
    requires forall i :: 0 <= i < |pairs| ==> pairs[i].1 < root
    decreases root, 0, |pairs|
  {
    if pairs == [] then 0 else Size(pairs[0].1) + SizePairs(root, pairs[1..])
  }

  function Weight(stack: seq<Json>): nat {
    if stack == [] then 0 else Weight(stack[..|stack| - 1]) + Size(stack[|stack| - 1])
  }

  lemma {:induction false} WeightAppend(stack: seq<Json>, more: seq<Json>)
    ensures Weight(stack + more) == Weight(stack) + Weight(more)
    decreases |more|
  {
    if more == [] {
      assert stack + more == stack;
    } else {
      assert (stack + more)[..|stack + more| - 1] == stack + more[..|more| - 1];
      WeightAppend(stack, more[..|more| - 1]);
    }
  }

  function Values(pairs: Pairs): seq<Json> {
    seq(|pairs|, i requires 0 <= i < |pairs| => pairs[i].1)
  }

  lemma {:induction false} WeightOfItems(root: Json, items: seq<Json>)
    requires forall i :: 0 <= i < |items| ==> items[i] < root
    ensures Weight(items) == SizeAll(root, items)
    decreases |items|
  {
    if items != [] {
      WeightOfItems(root, items[1..]);
      assert items == [items[0]] + items[1..];
      WeightAppend([items[0]], items[1..]);
      assert [items[0]][..0] == [];
    }
  }

  lemma {:induction false} WeightOfValues(root: Json, pairs: Pairs)
    requires forall i :: 0 <= i < |pairs| ==> pairs[i].1 < root
    ensures Weight(Values(pairs)) == SizePairs(root, pairs)
    decreases |pairs|
  {
    if pairs != [] {
      WeightOfValues(root, pairs[1..]);
      assert Values(pairs) == [pairs[0].1] + Values(pairs[1..]);
      WeightAppend([pairs[0].1], Values(pairs[1..]));
      assert [pairs[0].1][..0] == [];
    }
  }

  ghost predicate StackFinite(stack: seq<Json>) {
    forall i :: 0 <= i < |stack| ==> AllFinite(stack[i])
  }

  lemma StackFiniteAppend(a: seq<Json>, b: seq<Json>)
    ensures StackFinite(a + b) <==> StackFinite(a) && StackFinite(b)
  {
    if StackFinite(a + b) {
      forall i | 0 <= i < |a| ensures AllFinite(a[i]) { assert (a + b)[i] == a[i]; }
      forall i | 0 <= i < |b| ensures AllFinite(b[i]) { assert (a + b)[|a| + i] == b[i]; }
    }
  }

  // What the stack gets for a value that is taken off.
  function Children(j: Json): seq<Json> {
    match j
    case Arr(items) => items
    case Obj(members) => Values(members)
    case _ => []
  }

  lemma ChildrenAre(j: Json)
    ensures Weight(Children(j)) < Size(j)
    ensures AllFinite(j) <==> StackFinite(Children(j)) && FiniteNumber(j)
  {
    match j
    case Arr(items) => WeightOfItems(j, items);
    case Obj(members) =>
      WeightOfValues(j, members);
      assert forall i :: 0 <= i < |members| ==> Values(members)[i] == members[i].1;
    case _ =>
  }

  /** `_all_numbers_finite`: the tree on an explicit stack. */
  method AllNumbersFinite(root: Json) returns (ok: bool)
    ensures ok <==> AllFinite(root)
  {
    var stack := [root];
    while stack != []
      invariant StackFinite(stack) <==> AllFinite(root)
      decreases Weight(stack)
    {
      var rest, value := stack[..|stack| - 1], stack[|stack| - 1];
      assert stack == rest + [value];
      StackFiniteAppend(rest, [value]);
      ChildrenAre(value);
      StackFiniteAppend(rest, Children(value));
      WeightAppend(rest, Children(value));
      if value.Obj? || value.Arr? {
        stack := rest + Children(value);
      } else {
        if !FiniteNumber(value) {
          assert !AllFinite([value][0]);
          return false;
        }
        assert rest + [] == rest;
        stack := rest;
      }
    }
    return true;
  }
}
