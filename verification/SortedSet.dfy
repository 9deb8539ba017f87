/**
  A Redis sorted set: members ranked by score and, at equal scores, by their bytes. It is
  kept as the sequence of its entries in rank order.
*/
module SortedSet {
  import opened Helpers

  // `Never` is the score `+inf`.
  datatype Score = At(time: int) | Never

  datatype Entry = Entry(score: Score, member: string)

  type ZSet = seq<Entry>

  predicate BytesLess(a: string, b: string) {
    b != [] && (a == [] || a[0] < b[0] || (a[0] == b[0] && BytesLess(a[1..], b[1..])))
  }

  lemma BytesLessIsTotal(a: string, b: string)
    ensures BytesLess(a, b) || BytesLess(b, a) || a == b
  {
    if a != [] && b != [] && a[0] == b[0] {
      BytesLessIsTotal(a[1..], b[1..]);
      assert a == [a[0]] + a[1..] && b == [b[0]] + b[1..];
    }
  }

  lemma BytesLessIsTransitive(a: string, b: string, c: string)
    requires BytesLess(a, b) && BytesLess(b, c)
    ensures BytesLess(a, c)
  {
    if a != [] && a[0] == b[0] && b[0] == c[0] { BytesLessIsTransitive(a[1..], b[1..], c[1..]); }
  }

  // The score of a reservation made now: `floor(now) + retry_after`, or `+inf` when recovery is off.
  function Deadline(retryAfter: Option<nat>, now: int): Score {
    match retryAfter
    case None => Never
    case Some(seconds) => At(now + seconds)
  }

  // The order of bytes: a proper prefix comes first, else the first byte that differs decides.
  lemma {:induction false} BytesLessIs(a: string, b: string)
    ensures BytesLess(a, b) <==>
      (exists k :: 0 <= k <= |a| && k < |b| && a[..k] == b[..k] && (k == |a| || a[k] < b[k]))
  {
    if a == [] {
      if b != [] { assert a[..0] == b[..0]; }
    } else if b != [] {
      BytesLessIs(a[1..], b[1..]);
      if k :| 0 <= k <= |a[1..]| && k < |b[1..]| && a[1..][..k] == b[1..][..k]
              && (k == |a[1..]| || a[1..][k] < b[1..][k]) && a[0] == b[0] {
        assert a[..k + 1] == [a[0]] + a[1..][..k] && b[..k + 1] == [b[0]] + b[1..][..k];
        assert k + 1 == |a| || a[k + 1] < b[k + 1];
      }
      if k :| 0 <= k <= |a| && k < |b| && a[..k] == b[..k] && (k == |a| || a[k] < b[k]) {
        if k > 0 {
          assert a[0] == a[..k][0] == b[..k][0] == b[0];
          assert a[1..][..k - 1] == a[..k][1..] == b[..k][1..] == b[1..][..k - 1];
        }
      }
      if a[0] < b[0] { assert a[..0] == b[..0]; }
    }
  }

  predicate Due(score: Score, now: int) {
    score.At? && score.time <= now
  }

  predicate Before(a: Entry, b: Entry) {
    match (a.score, b.score)
    case (At(s), At(t)) => s < t || (s == t && BytesLess(a.member, b.member))
    case (At(_), Never) => true
    case (Never, At(_)) => false
    case (Never, Never) => BytesLess(a.member, b.member)
  }

  lemma BeforeIsTransitive(a: Entry, b: Entry, c: Entry)
    requires Before(a, b) && Before(b, c)
    ensures Before(a, c)
  {
    if BytesLess(a.member, b.member) && BytesLess(b.member, c.member) {
      BytesLessIsTransitive(a.member, b.member, c.member);
    }
  }

  lemma BeforeIsTotal(a: Entry, b: Entry)
    ensures a.member != b.member ==> Before(a, b) || Before(b, a)
  {
    BytesLessIsTotal(a.member, b.member);
  }

  ghost predicate Ranked(z: ZSet) {
    && (forall i, j :: 0 <= i < j < |z| ==> Before(z[i], z[j]))
    && (forall i, j :: 0 <= i < j < |z| ==> z[i].member != z[j].member)
  }

  function Members(z: ZSet): seq<string> {
    if z == [] then [] else [z[0].member] + Members(z[1..])
  }

  lemma {:induction false} MembersAre(z: ZSet)
    ensures |Members(z)| == |z|
    ensures forall i :: 0 <= i < |z| ==> Members(z)[i] == z[i].member
  {
    if z != [] { MembersAre(z[1..]); }
  }

  function IndexOf(z: ZSet, member: string): (k: nat)
    ensures k <= |z|
  {
    if z == [] || z[0].member == member then 0 else 1 + IndexOf(z[1..], member)
  }

  lemma {:induction false} IndexOfIs(z: ZSet, member: string)
    ensures var k := IndexOf(z, member);
      && (k < |z| ==> z[k].member == member)
      && (forall i :: 0 <= i < k ==> z[i].member != member)
  {
    if z != [] && z[0].member != member { IndexOfIs(z[1..], member); }
  }

  predicate Has(z: ZSet, member: string) {
    IndexOf(z, member) < |z|
  }

  // ZREM
  function Remove(z: ZSet, member: string): ZSet {
    var k := IndexOf(z, member);
    if k < |z| then z[..k] + z[k + 1..] else z
  }

  // The rank a new entry gets.
  function Position(z: ZSet, e: Entry): (k: nat)
    ensures k <= |z|
  {
    if z == [] || Before(e, z[0]) then 0 else 1 + Position(z[1..], e)
  }

  lemma {:induction false} PositionIs(z: ZSet, e: Entry)
    ensures var k := Position(z, e);
      && (k < |z| ==> Before(e, z[k]))
      && (forall i :: 0 <= i < k ==> !Before(e, z[i]))
  {
    if z != [] && !Before(e, z[0]) { PositionIs(z[1..], e); }
  }

  function Insert(z: ZSet, e: Entry): ZSet {
    z[..Position(z, e)] + [e] + z[Position(z, e)..]
  }

  // ZADD
  function Add(z: ZSet, score: Score, member: string): ZSet {
    Insert(Remove(z, member), Entry(score, member))
  }

  lemma IndexInRanked(z: ZSet, k: nat)
    requires Ranked(z) && k < |z|
    ensures IndexOf(z, z[k].member) == k
  {
    var j := IndexOf(z, z[k].member);
    IndexOfIs(z, z[k].member);
    assert !(k < j) && forall i :: 0 <= i < k ==> z[i].member != z[k].member;
  }

  lemma RemoveKeepsRank(z: ZSet, member: string)
    requires Ranked(z)
    ensures Ranked(Remove(z, member)) && !Has(Remove(z, member), member)
  {
    var r := Remove(z, member);
    var k := IndexOf(z, member);
    IndexOfIs(z, member);
    if k < |z| {
      assert forall i :: 0 <= i < |r| ==> r[i] == z[if i < k then i else i + 1];
    }
    IndexOfIs(r, member);
  }

  lemma RemoveLeavesOthers(z: ZSet, member: string)
    requires Ranked(z)
    ensures forall e :: e in Remove(z, member) <==> e in z && e.member != member
  {
    var r := Remove(z, member);
    var k := IndexOf(z, member);
    IndexOfIs(z, member);
    if k < |z| {
      assert z == z[..k] + [z[k]] + z[k + 1..];
      assert forall e :: e in z <==> e in z[..k] || e == z[k] || e in z[k + 1..];
      assert forall e :: e in r <==> e in z[..k] || e in z[k + 1..];
    }
  }

  lemma InsertSplits(z: ZSet, e: Entry, i: nat)
    requires Ranked(z) && !Has(z, e.member) && i < |z|
    ensures if i < Position(z, e) then Before(z[i], e) else Before(e, z[i])
  {
    var k := Position(z, e);
    PositionIs(z, e);
    IndexOfIs(z, e.member);
    assert z[i].member != e.member;
    BeforeIsTotal(e, z[i]);
    if k < i { BeforeIsTransitive(e, z[k], z[i]); }
  }

  lemma InsertKeepsRank(z: ZSet, e: Entry)
    requires Ranked(z) && !Has(z, e.member)
    ensures Ranked(Insert(z, e))
  {
    var r, k := Insert(z, e), Position(z, e);
    IndexOfIs(z, e.member);
    forall i, j | 0 <= i < j < |r| ensures Before(r[i], r[j]) && r[i].member != r[j].member {
      if i < k { InsertSplits(z, e, i); }
      if k < j { InsertSplits(z, e, j - 1); }
    }
  }

  lemma InsertAddsOne(z: ZSet, e: Entry)
    ensures forall x :: x in Insert(z, e) <==> x in z || x == e
  {
    var k := Position(z, e);
    assert z == z[..k] + z[k..];
  }

  lemma AddKeepsRank(z: ZSet, score: Score, member: string)
    requires Ranked(z)
    ensures Ranked(Add(z, score, member))
    ensures forall x :: x in Add(z, score, member) <==> (x in z && x.member != member) || x == Entry(score, member)
  {
    RemoveKeepsRank(z, member);
    RemoveLeavesOthers(z, member);
    InsertKeepsRank(Remove(z, member), Entry(score, member));
    InsertAddsOne(Remove(z, member), Entry(score, member));
  }

  lemma HasIff(z: ZSet, member: string)
    ensures Has(z, member) <==> exists e :: e in z && e.member == member
  {
    IndexOfIs(z, member);
    if Has(z, member) { assert z[IndexOf(z, member)] in z; }
  }

  // A value read off each entry, in rank order.
  function Project<S, T>(z: seq<S>, f: S -> T): seq<T> {
    if z == [] then [] else [f(z[0])] + Project(z[1..], f)
  }

  lemma {:induction false} ProjectConcat<S, T>(a: seq<S>, b: seq<S>, f: S -> T)
    ensures Project(a + b, f) == Project(a, f) + Project(b, f)
  {
    if a == [] {
      assert a + b == b;
    } else {
      assert (a + b)[1..] == a[1..] + b;
      ProjectConcat(a[1..], b, f);
    }
  }

  lemma {:induction false} ProjectAt<S, T>(z: seq<S>, f: S -> T, k: nat)
    requires k < |z|
    ensures |Project(z, f)| == |z| && Project(z, f)[k] == f(z[k])
  {
    if |z| > 1 { ProjectAt(z[1..], f, if k == 0 then 0 else k - 1); }
  }

  lemma ProjectAround<S, T>(a: seq<S>, e: S, b: seq<S>, f: S -> T)
    ensures multiset(Project(a + [e] + b, f)) == multiset(Project(a + b, f)) + multiset{f(e)}
  {
    ProjectConcat(a, b, f);
    ProjectConcat(a + [e], b, f);
    ProjectConcat(a, [e], f);
    assert Project([e], f) == [f(e)];
  }

  lemma ProjectInsert<T>(z: ZSet, f: Entry -> T, e: Entry)
    ensures multiset(Project(Insert(z, e), f)) == multiset(Project(z, f)) + multiset{f(e)}
  {
    var k := Position(z, e);
    ProjectAround(z[..k], e, z[k..], f);
    assert z[..k] + z[k..] == z;
  }

  lemma ProjectRemove<T>(z: ZSet, f: Entry -> T, member: string)
    requires Has(z, member)
    ensures multiset(Project(z, f)) == multiset(Project(Remove(z, member), f)) + multiset{f(z[IndexOf(z, member)])}
    ensures z[IndexOf(z, member)].member == member
  {
    IndexOfIs(z, member);
    var k := IndexOf(z, member);
    SplitAt(z, k);
    ProjectAround(z[..k], z[k], z[k + 1..], f);
  }

  lemma SplitAt<S>(z: seq<S>, k: nat)
    requires k < |z|
    ensures z[..k] + [z[k]] + z[k + 1..] == z
  {
  }

  // How many members ZRANGEBYSCORE -inf now LIMIT 0 limit returns (a limit of -1 is no limit).
  function RangeCount(z: ZSet, now: int, limit: int): (n: nat)
    ensures n <= |z|
  {
    if z == [] || limit == 0 || !Due(z[0].score, now) then 0
    else 1 + RangeCount(z[1..], now, if limit < 0 then limit else limit - 1)
  }

  lemma {:induction false} RangeCountIs(z: ZSet, now: int, limit: int)
    ensures var n := RangeCount(z, now, limit);
      && (0 <= limit ==> n <= limit)
      && (forall i :: 0 <= i < n ==> Due(z[i].score, now))
      && (n < |z| ==> !Due(z[n].score, now) || n == limit)
  {
    if z != [] && limit != 0 && Due(z[0].score, now) {
      RangeCountIs(z[1..], now, if limit < 0 then limit else limit - 1);
    }
  }

  // Without a limit every due member is in the range: they rank before all the others.
  lemma RangeIsComplete(z: ZSet, now: int, limit: int, i: nat)
    requires Ranked(z) && RangeCount(z, now, limit) <= i < |z|
    requires limit < 0 || RangeCount(z, now, limit) < limit
    ensures !Due(z[i].score, now)
  {
    var n := RangeCount(z, now, limit);
    RangeCountIs(z, now, limit);
    if n < i { assert Before(z[n], z[i]); }
  }
}
