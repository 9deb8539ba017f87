/**
  The legacy Redis layout: a ready list, a `:processing` list and a sorted set of
  reservation deadlines per queue, moved only by the three scripts RESERVE, SETTLE and
  SWEEP. Each script is one atomic step; any number of workers call them in any order, with
  any clock. A deadline member is `<token>:<raw>` with a 32-character token.
*/
module RedisLegacy {
  import opened Helpers
  import opened SortedSet

  // How a reservation ended: by its holder, or taken back by a sweep.
  datatype Outcome = Settled(token: string) | Recovered(token: string)

  // What happened on a queue so far; the scripts never read it.
  datatype History = History(
    entered: multiset<string>,  // values pushed onto the queue by a producer or a settle
    left: multiset<string>,     // values an effective settle took out of the queue
    issued: set<string>,        // reservation tokens used so far
    outcomes: seq<Outcome>,
    stranded: nat)              // empty values a sweep left in `:processing`

  datatype Queue = Queue(ready: seq<string>, processing: seq<string>, deadlines: ZSet, past: History)

  const Empty := Queue([], [], [], History(multiset{}, multiset{}, {}, [], 0))

  const TOKEN_LENGTH := 32

  function Member(token: string, raw: string): string {
    token + ":" + raw
  }

  function TokenOf(member: string): string {
    if |member| >= TOKEN_LENGTH then member[..TOKEN_LENGTH] else member
  }

  function RawOf(member: string): string {
    if |member| > TOKEN_LENGTH then member[TOKEN_LENGTH + 1..] else ""
  }

  predicate WellFormed(member: string) {
    |member| > TOKEN_LENGTH && member[TOKEN_LENGTH] == ':'
  }

  function EntryRaw(e: Entry): string {
    RawOf(e.member)
  }

  function EntryToken(e: Entry): string {
    TokenOf(e.member)
  }

  function Raws(z: ZSet): seq<string> {
    Project(z, EntryRaw)
  }

  function Tokens(z: ZSet): seq<string> {
    Project(z, EntryToken)
  }

  function OutcomeTokens(outcomes: seq<Outcome>): seq<string> {
    if outcomes == [] then [] else OutcomeTokens(outcomes[..|outcomes| - 1]) + [outcomes[|outcomes| - 1].token]
  }

  function Copies(v: string, n: nat): multiset<string> {
    multiset{}[v := n]
  }

  // LREM key 1 value
  function RemoveFirst<T(==)>(list: seq<T>, v: T): seq<T> {
    if list == [] then []
    else if list[0] == v then list[1..]
    else [list[0]] + RemoveFirst(list[1..], v)
  }

  lemma {:induction false} RemoveFirstTakesOne<T>(list: seq<T>, v: T)
    ensures multiset(RemoveFirst(list, v)) == multiset(list) - multiset{v}
  {
    if list != [] {
      assert list == [list[0]] + list[1..];
      if list[0] != v { RemoveFirstTakesOne(list[1..], v); }
    }
  }

  lemma HeadMoved<T>(from: seq<T>, to: seq<T>)
    requires from != []
    ensures multiset(to + [from[0]]) == multiset(to) + multiset{from[0]}
    ensures multiset(from[1..]) + multiset(to + [from[0]]) == multiset(from) + multiset(to)
  {
    assert from == [from[0]] + from[1..];
  }

  // ---- The scripts -------------------------------------------------------------

  function Push(s: Queue, v: string): Queue {
    s.(ready := s.ready + [v], past := s.past.(entered := s.past.entered + multiset{v}))
  }

  // RESERVE: the head moves to `:processing` and its deadline member is added.
  function Reserve(s: Queue, score: Score, token: string): Queue {
    if s.ready == [] then s else
      var raw := s.ready[0];
      s.(ready := s.ready[1..],
         processing := s.processing + [raw],
         deadlines := Add(s.deadlines, score, Member(token, raw)),
         past := s.past.(issued := s.past.issued + {token}))
  }

  // SETTLE, on the queue the reservation came from: gated on its own deadline member.
  function SettleOut(s: Queue, token: string, raw: string): Queue {
    if !Has(s.deadlines, Member(token, raw)) then s else
      s.(processing := RemoveFirst(s.processing, raw),
         deadlines := Remove(s.deadlines, Member(token, raw)),
         past := s.past.(left := s.past.left + multiset{raw}, outcomes := s.past.outcomes + [Settled(token)]))
  }

  // One member of the loop of SWEEP.
  function SweepOne(s: Queue, m: string): Queue {
    var kept := s.(deadlines := Remove(s.deadlines, m),
                   past := s.past.(outcomes := s.past.outcomes + [Recovered(TokenOf(m))]));
    if WellFormed(m) && |m| > TOKEN_LENGTH + 1 && RawOf(m) in s.processing then
      kept.(processing := RemoveFirst(s.processing, RawOf(m)), ready := s.ready + [RawOf(m)])
    else
      kept.(past := kept.past.(stranded := s.past.stranded + 1))
  }

  function SweepEach(s: Queue, ms: seq<string>): Queue
    decreases |ms|
  {
    if ms == [] then s else SweepEach(SweepOne(s, ms[0]), ms[1..])
  }

  function Lapsed(s: Queue, now: int, batch: int): seq<string> {
    Members(s.deadlines[..RangeCount(s.deadlines, now, batch)])
  }

  function Sweep(s: Queue, now: int, batch: int): Queue {
    SweepEach(s, Lapsed(s, now, batch))
  }

  // ---- The invariant -----------------------------------------------------------

  ghost predicate Inv(s: Queue) {
    && Ranked(s.deadlines)
    && (forall i :: 0 <= i < |s.deadlines| ==> WellFormed(s.deadlines[i].member))
    // `:processing` holds exactly the reserved values, and the empty ones a sweep stranded.
    && multiset(s.processing) == multiset(Raws(s.deadlines)) + Copies("", s.past.stranded)
    // nothing is made or lost
    && multiset(s.ready) + multiset(s.processing) + s.past.left == s.past.entered
    // a token is reserved or has one outcome, never both, never two
    && multiset(Tokens(s.deadlines)) + multiset(OutcomeTokens(s.past.outcomes)) == multiset(s.past.issued)
    && (forall t :: t in s.past.issued ==> |t| == TOKEN_LENGTH)
  }

  // `:processing` and the deadline set agree.
  ghost predicate Matched(s: Queue) {
    multiset(s.processing) == multiset(Raws(s.deadlines))
  }

  lemma MemberParts(token: string, raw: string)
    requires |token| == TOKEN_LENGTH
    ensures WellFormed(Member(token, raw)) && TokenOf(Member(token, raw)) == token && RawOf(Member(token, raw)) == raw
  {
  }

  lemma OutcomeAdded(outcomes: seq<Outcome>, o: Outcome)
    ensures OutcomeTokens(outcomes + [o]) == OutcomeTokens(outcomes) + [o.token]
  {
    assert (outcomes + [o])[..|outcomes|] == outcomes;
  }

  // ---- Each script keeps the invariant -------------------------------------------

  lemma PushKeeps(s: Queue, v: string)
    requires Inv(s)
    ensures Inv(Push(s, v))
  {
  }

  lemma ReserveKeeps(s: Queue, score: Score, token: string)
    requires Inv(s) && |token| == TOKEN_LENGTH && token !in s.past.issued
    ensures Inv(Reserve(s, score, token))
  {
    if s.ready != [] {
      var raw := s.ready[0];
      var z := Add(s.deadlines, score, Member(token, raw));
      MemberAdded(s, score, token, raw);
      HeadMoved(s.ready, s.processing);
    }
  }

  // What adding a deadline member under a new token does to the sums of the invariant.
  lemma MemberAdded(s: Queue, score: Score, token: string, raw: string)
    requires Inv(s) && |token| == TOKEN_LENGTH && token !in s.past.issued
    ensures var z := Add(s.deadlines, score, Member(token, raw));
      && Ranked(z) && (forall i :: 0 <= i < |z| ==> WellFormed(z[i].member))
      && multiset(Raws(z)) == multiset(Raws(s.deadlines)) + multiset{raw}
      && multiset(Tokens(z)) + multiset(OutcomeTokens(s.past.outcomes)) == multiset(s.past.issued + {token})
  {
    FreshIsAbsent(s, token, raw);
    EntryAdded(s.deadlines, score, token, raw);
    var was, now := multiset(Tokens(s.deadlines)), multiset(Tokens(Add(s.deadlines, score, Member(token, raw))));
    TokenIssued(s.past.issued, token, was, now, multiset(OutcomeTokens(s.past.outcomes)));
  }

  lemma EntryAdded(z: ZSet, score: Score, token: string, raw: string)
    requires Ranked(z) && |token| == TOKEN_LENGTH && !Has(z, Member(token, raw))
    requires forall i :: 0 <= i < |z| ==> WellFormed(z[i].member)
    ensures var y := Add(z, score, Member(token, raw));
      && Ranked(y) && (forall i :: 0 <= i < |y| ==> WellFormed(y[i].member))
      && multiset(Raws(y)) == multiset(Raws(z)) + multiset{raw}
      && multiset(Tokens(y)) == multiset(Tokens(z)) + multiset{token}
  {
    var m := Member(token, raw);
    var y := Add(z, score, m);
    MemberParts(token, raw);
    assert Remove(z, m) == z;
    AddKeepsRank(z, score, m);
    ProjectInsert(z, EntryRaw, Entry(score, m));
    ProjectInsert(z, EntryToken, Entry(score, m));
    forall i | 0 <= i < |y| ensures WellFormed(y[i].member) { assert y[i] in y; }
  }

  lemma TokenIssued(issued: set<string>, token: string, was: multiset<string>, now: multiset<string>,
                    ended: multiset<string>)
    requires token !in issued && was + ended == multiset(issued) && now == was + multiset{token}
    ensures now + ended == multiset(issued + {token})
  {
    assert multiset(issued + {token}) == multiset(issued) + multiset{token};
  }

  lemma TokenIsHeld(z: ZSet, m: string)
    requires Has(z, m)
    ensures TokenOf(m) in multiset(Tokens(z))
  {
    var k := IndexOf(z, m);
    IndexOfIs(z, m);
    ProjectAt(z, EntryToken, k);
    assert Tokens(z)[k] in multiset(Tokens(z));
  }

  lemma FreshIsAbsent(s: Queue, token: string, raw: string)
    requires Inv(s) && |token| == TOKEN_LENGTH && token !in s.past.issued
    ensures !Has(s.deadlines, Member(token, raw))
  {
    var m := Member(token, raw);
    MemberParts(token, raw);
    assert token !in multiset(s.past.issued);
    if Has(s.deadlines, m) { TokenIsHeld(s.deadlines, m); }
  }

  // What removing the deadline member `m` does to the sums of the invariant.
  lemma MemberRemoved(s: Queue, m: string, o: Outcome)
    requires Inv(s) && Has(s.deadlines, m) && o.token == TokenOf(m)
    ensures var z := Remove(s.deadlines, m);
      && Ranked(z) && (forall i :: 0 <= i < |z| ==> WellFormed(z[i].member))
      && WellFormed(m)
      && multiset(Raws(s.deadlines)) == multiset(Raws(z)) + multiset{RawOf(m)}
      && multiset(Tokens(z)) + multiset(OutcomeTokens(s.past.outcomes + [o])) == multiset(s.past.issued)
  {
    EntryRemoved(s.deadlines, m);
    ProjectRemove(s.deadlines, EntryRaw, m);
    ProjectRemove(s.deadlines, EntryToken, m);
    OutcomeAdded(s.past.outcomes, o);
    TokenEnded(multiset(Tokens(s.deadlines)), multiset(Tokens(Remove(s.deadlines, m))),
               OutcomeTokens(s.past.outcomes), o.token);
  }

  lemma EntryRemoved(z: ZSet, m: string)
    requires Ranked(z) && Has(z, m)
    requires forall i :: 0 <= i < |z| ==> WellFormed(z[i].member)
    ensures var y := Remove(z, m);
      Ranked(y) && WellFormed(m) && forall i :: 0 <= i < |y| ==> WellFormed(y[i].member)
  {
    var y := Remove(z, m);
    IndexOfIs(z, m);
    RemoveKeepsRank(z, m);
    RemoveLeavesOthers(z, m);
    forall i | 0 <= i < |y| ensures WellFormed(y[i].member) { assert y[i] in y; }
  }

  lemma TokenEnded<T>(was: multiset<T>, now: multiset<T>, ended: seq<T>, token: T)
    requires was == now + multiset{token}
    ensures now + multiset(ended + [token]) == was + multiset(ended)
  {
  }

  lemma TakeOne(p: multiset<string>, r: multiset<string>, left: multiset<string>, c: multiset<string>, x: string)
    requires p == r + c && r == left + multiset{x}
    ensures x in p && p - multiset{x} == left + c
  {
  }

  lemma SettleKeeps(s: Queue, token: string, raw: string)
    requires Inv(s) && |token| == TOKEN_LENGTH
    ensures Inv(SettleOut(s, token, raw))
  {
    var m := Member(token, raw);
    if Has(s.deadlines, m) {
      MemberParts(token, raw);
      MemberSettled(s, SettleOut(s, token, raw), m);
    }
  }

  lemma MemberSettled(s: Queue, t: Queue, m: string)
    requires Inv(s) && Has(s.deadlines, m)
    requires t == s.(processing := RemoveFirst(s.processing, RawOf(m)), deadlines := Remove(s.deadlines, m),
                     past := s.past.(left := s.past.left + multiset{RawOf(m)},
                                     outcomes := s.past.outcomes + [Settled(TokenOf(m))]))
    ensures Inv(t)
  {
    MemberRemoved(s, m, Settled(TokenOf(m)));
    RemoveFirstTakesOne(s.processing, RawOf(m));
    TakeOne(multiset(s.processing), multiset(Raws(s.deadlines)), multiset(Raws(t.deadlines)),
            Copies("", s.past.stranded), RawOf(m));
    OneLeaves(multiset(s.ready), multiset(s.processing), s.past.left, RawOf(m));
  }

  lemma OneLeaves<T>(ready: multiset<T>, processing: multiset<T>, left: multiset<T>, x: T)
    requires x in processing
    ensures ready + (processing - multiset{x}) + (left + multiset{x}) == ready + processing + left
  {
  }

  lemma SweepOneKeeps(s: Queue, m: string)
    requires Inv(s) && Has(s.deadlines, m)
    ensures Inv(SweepOne(s, m))
    ensures SweepOne(s, m).past.stranded == s.past.stranded + (if RawOf(m) == "" then 1 else 0)
  {
    MemberSwept(s, SweepOne(s, m), m);
  }

  lemma MemberSwept(s: Queue, t: Queue, m: string)
    requires Inv(s) && Has(s.deadlines, m) && t == SweepOne(s, m)
    ensures Inv(t) && t.past.stranded == s.past.stranded + (if RawOf(m) == "" then 1 else 0)
  {
    MemberRemoved(s, m, Recovered(TokenOf(m)));
    TakeOne(multiset(s.processing), multiset(Raws(s.deadlines)), multiset(Raws(Remove(s.deadlines, m))),
            Copies("", s.past.stranded), RawOf(m));
    assert t.deadlines == Remove(s.deadlines, m);
    Assembled(s, t, m);
  }

  lemma Assembled(s: Queue, t: Queue, m: string)
    requires t == SweepOne(s, m) && WellFormed(m) && RawOf(m) in multiset(s.processing)
    requires multiset(s.processing) - multiset{RawOf(m)} == multiset(Raws(t.deadlines)) + Copies("", s.past.stranded)
    requires multiset(s.ready) + multiset(s.processing) + s.past.left == s.past.entered
    ensures multiset(t.processing) == multiset(Raws(t.deadlines)) + Copies("", t.past.stranded)
    ensures multiset(t.ready) + multiset(t.processing) + t.past.left == t.past.entered
    ensures t.past.issued == s.past.issued && t.past.outcomes == s.past.outcomes + [Recovered(TokenOf(m))]
    ensures t.past.stranded == s.past.stranded + (if RawOf(m) == "" then 1 else 0)
  {
    if RawOf(m) != "" {
      SweepMoves(s, m);
    } else {
      SweepStrands(s, m);
      assert multiset(s.processing) == multiset(s.processing) - multiset{""} + multiset{""};
    }
  }

  lemma SweepMoves(s: Queue, m: string)
    requires WellFormed(m) && RawOf(m) != "" && RawOf(m) in multiset(s.processing)
    ensures var t := SweepOne(s, m);
      && multiset(t.processing) == multiset(s.processing) - multiset{RawOf(m)}
      && t.past.stranded == s.past.stranded
      && multiset(t.ready) + multiset(t.processing) == multiset(s.ready) + multiset(s.processing)
  {
    var raw := RawOf(m);
    RemoveFirstTakesOne(s.processing, raw);
    assert raw in s.processing;
    assert multiset(s.ready + [raw]) == multiset(s.ready) + multiset{raw};
  }

  lemma SweepStrands(s: Queue, m: string)
    requires WellFormed(m) && RawOf(m) == ""
    ensures var t := SweepOne(s, m);
      && t.processing == s.processing && t.ready == s.ready
      && t.past.stranded == s.past.stranded + 1
      && Copies("", t.past.stranded) == Copies("", s.past.stranded) + multiset{""}
  {
  }

  function EmptyRaws(ms: seq<string>): nat {
    if ms == [] then 0 else (if RawOf(ms[0]) == "" then 1 else 0) + EmptyRaws(ms[1..])
  }

  lemma OthersStay(s: Queue, m: string)
    requires Ranked(s.deadlines)
    ensures SweepOne(s, m).deadlines == Remove(s.deadlines, m)
    ensures forall x :: x != m && Has(s.deadlines, x) ==> Has(SweepOne(s, m).deadlines, x)
  {
    RemoveLeavesOthers(s.deadlines, m);
    var z := Remove(s.deadlines, m);
    forall x | x != m && Has(s.deadlines, x) ensures Has(z, x) {
      IndexOfIs(s.deadlines, x);
      IndexOfIs(z, x);
      var e := s.deadlines[IndexOf(s.deadlines, x)];
      assert e in z;
      var i :| 0 <= i < |z| && z[i] == e;
      assert IndexOf(z, x) <= i;
    }
  }

  ghost predicate AllReserved(z: ZSet, ms: seq<string>) {
    && (forall i :: 0 <= i < |ms| ==> Has(z, ms[i]))
    && (forall i, j :: 0 <= i < j < |ms| ==> ms[i] != ms[j])
  }

  lemma RestReserved(s: Queue, ms: seq<string>)
    requires ms != [] && Ranked(s.deadlines) && AllReserved(s.deadlines, ms)
    ensures AllReserved(SweepOne(s, ms[0]).deadlines, ms[1..])
  {
    OthersStay(s, ms[0]);
    assert forall i :: 0 <= i < |ms[1..]| ==> ms[1..][i] == ms[i + 1];
  }

  lemma {:induction false} SweepEachKeeps(s: Queue, ms: seq<string>)
    requires Inv(s) && AllReserved(s.deadlines, ms)
    ensures Inv(SweepEach(s, ms))
    ensures SweepEach(s, ms).past.stranded == s.past.stranded + EmptyRaws(ms)
    decreases |ms|
  {
    if ms != [] {
      RestReserved(s, ms);
      SweepOneKeeps(s, ms[0]);
      SweepEachKeeps(SweepOne(s, ms[0]), ms[1..]);
    }
  }

  lemma {:induction false} SweepEachLeaves(s: Queue, ms: seq<string>)
    requires Ranked(s.deadlines)
    ensures forall e :: e in SweepEach(s, ms).deadlines <==> e in s.deadlines && e.member !in ms
    decreases |ms|
  {
    if ms != [] {
      RemoveKeepsRank(s.deadlines, ms[0]);
      RemoveLeavesOthers(s.deadlines, ms[0]);
      SweepEachLeaves(SweepOne(s, ms[0]), ms[1..]);
      assert forall x :: x in ms <==> x == ms[0] || x in ms[1..];
    }
  }

  lemma {:induction false} SweepEachHistory(s: Queue, ms: seq<string>)
    ensures SweepEach(s, ms).past.left == s.past.left && SweepEach(s, ms).past.entered == s.past.entered
    ensures SweepEach(s, ms).past.issued == s.past.issued
    decreases |ms|
  {
    if ms != [] { SweepEachHistory(SweepOne(s, ms[0]), ms[1..]); }
  }

  lemma LapsedAreReserved(s: Queue, now: int, batch: int)
    requires Inv(s)
    ensures AllReserved(s.deadlines, Lapsed(s, now, batch))
  {
    var ms := Lapsed(s, now, batch);
    MembersAre(s.deadlines[..RangeCount(s.deadlines, now, batch)]);
    forall i | 0 <= i < |ms| ensures Has(s.deadlines, ms[i]) {
      assert s.deadlines[i].member == ms[i];
      IndexInRanked(s.deadlines, i);
    }
  }

  lemma SweepKeeps(s: Queue, now: int, batch: int)
    requires Inv(s)
    ensures Inv(Sweep(s, now, batch))
    ensures Sweep(s, now, batch).past.stranded == s.past.stranded + EmptyRaws(Lapsed(s, now, batch))
    ensures forall e :: e in Sweep(s, now, batch).deadlines <==> e in s.deadlines && e.member !in Lapsed(s, now, batch)
  {
    var ms := Lapsed(s, now, batch);
    LapsedAreReserved(s, now, batch);
    SweepEachKeeps(s, ms);
    SweepEachLeaves(s, ms);
  }

  // A reservation whose deadline is `+inf`, or has not come, is never swept; without a batch
  // limit every lapsed one is.
  lemma SweepTakesTheLapsed(s: Queue, now: int, batch: int, e: Entry)
    requires Inv(s) && e in s.deadlines
    ensures !Due(e.score, now) ==> e in Sweep(s, now, batch).deadlines
    ensures e.score == Never ==> e in Sweep(s, now, batch).deadlines
    ensures batch < 0 && Due(e.score, now) ==> e !in Sweep(s, now, batch).deadlines
  {
    SweepKeeps(s, now, batch);
    assert e in Sweep(s, now, batch).deadlines <==> e.member !in Lapsed(s, now, batch);
    DueIsLapsed(s.deadlines, now, batch, e);
  }

  lemma DueIsLapsed(z: ZSet, now: int, batch: int, e: Entry)
    requires Ranked(z) && e in z
    ensures e.member in Members(z[..RangeCount(z, now, batch)]) ==> Due(e.score, now)
    ensures batch < 0 && Due(e.score, now) ==> e.member in Members(z[..RangeCount(z, now, batch)])
  {
    var k :| 0 <= k < |z| && z[k] == e;
    LapsedIsAPrefix(z, now, batch, k);
    RangeCountIs(z, now, batch);
    if RangeCount(z, now, batch) <= k && batch < 0 { RangeIsComplete(z, now, batch, k); }
  }

  lemma LapsedIsAPrefix(z: ZSet, now: int, batch: int, k: nat)
    requires Ranked(z) && k < |z|
    ensures var n := RangeCount(z, now, batch); z[k].member in Members(z[..n]) <==> k < n
  {
    var n := RangeCount(z, now, batch);
    var ms := Members(z[..n]);
    MembersAre(z[..n]);
    if k < n { assert ms[k] == z[k].member; }
    if z[k].member in ms {
      var i :| 0 <= i < n && ms[i] == z[k].member;
      IndexInRanked(z, k);
      IndexInRanked(z, i);
    }
  }

  // The sweep keeps `:processing` and the deadline set matched exactly when none of the
  // reservations it takes back holds an empty value: such a value stays in `:processing`
  // with no deadline, and no later sweep finds it.
  lemma SweepStrandsEmptyValues(s: Queue, now: int, batch: int)
    requires Inv(s) && Matched(s)
    ensures Matched(Sweep(s, now, batch)) <==> "" !in Raws(s.deadlines[..RangeCount(s.deadlines, now, batch)])
  {
    SweepKeeps(s, now, batch);
    var t := Sweep(s, now, batch);
    MatchedIffNoneStranded(s);
    MatchedIffNoneStranded(t);
    NoEmptyRaws(s.deadlines[..RangeCount(s.deadlines, now, batch)]);
  }

  lemma MatchedIffNoneStranded(s: Queue)
    requires Inv(s)
    ensures Matched(s) <==> s.past.stranded == 0
  {
    assert multiset(s.processing)[""] == multiset(Raws(s.deadlines))[""] + s.past.stranded;
    if s.past.stranded == 0 { assert Copies("", 0) == multiset{}; }
  }

  lemma {:induction false} NoEmptyRaws(z: ZSet)
    ensures EmptyRaws(Members(z)) == 0 <==> "" !in Raws(z)
  {
    if z != [] {
      assert Members(z)[1..] == Members(z[1..]);
      NoEmptyRaws(z[1..]);
    }
  }

  // ---- Whole runs ------------------------------------------------------------------

  // What any worker or producer may do to a queue next; `Settle` takes any handle, also one
  // whose reservation was swept long ago.
  datatype Step =
    | Pushed(value: string)
    | Reserved(score: Score, token: string)
    | SettledBy(token: string, raw: string)
    | Swept(now: int, batch: int)

  ghost predicate Enabled(s: Queue, step: Step) {
    match step
    case Reserved(_, token) => |token| == TOKEN_LENGTH && token !in s.past.issued
    case SettledBy(token, _) => |token| == TOKEN_LENGTH
    case _ => true
  }

  function Apply(s: Queue, step: Step): Queue {
    match step
    case Pushed(v) => Push(s, v)
    case Reserved(score, token) => Reserve(s, score, token)
    case SettledBy(token, raw) => SettleOut(s, token, raw)
    case Swept(now, batch) => Sweep(s, now, batch)
  }

  function Run(s: Queue, steps: seq<Step>): Queue
    decreases |steps|
  {
    if steps == [] then s else Run(Apply(s, steps[0]), steps[1..])
  }

  ghost predicate Runnable(s: Queue, steps: seq<Step>)
    decreases |steps|
  {
    steps == [] || (Enabled(s, steps[0]) && Runnable(Apply(s, steps[0]), steps[1..]))
  }

  lemma StepKeeps(s: Queue, step: Step)
    requires Inv(s) && Enabled(s, step)
    ensures Inv(Apply(s, step))
  {
    match step
    case Pushed(v) => PushKeeps(s, v);
    case Reserved(score, token) => ReserveKeeps(s, score, token);
    case SettledBy(token, raw) => SettleKeeps(s, token, raw);
    case Swept(now, batch) => SweepKeeps(s, now, batch);
  }

  // In every reachable state: published values are all in the ready list, in `:processing`
  // or settled, with their multiplicities, and every reservation token has either its one
  // deadline member or its one outcome.
  lemma {:induction false} RunKeeps(s: Queue, steps: seq<Step>)
    requires Inv(s) && Runnable(s, steps)
    ensures Inv(Run(s, steps))
    decreases |steps|
  {
    if steps != [] {
      StepKeeps(s, steps[0]);
      RunKeeps(Apply(s, steps[0]), steps[1..]);
    }
  }

  lemma Conservation(steps: seq<Step>)
    requires Runnable(Empty, steps)
    ensures var s := Run(Empty, steps);
      multiset(s.ready) + multiset(s.processing) + s.past.left == s.past.entered
  {
    assert Inv(Empty);
    RunKeeps(Empty, steps);
  }

  // A token takes effect once: with an outcome it has no reservation left, and every later
  // settle under it, whatever was reserved again since, leaves the whole queue unchanged.
  lemma OneOutcomePerToken(steps: seq<Step>, token: string, raw: string)
    requires Runnable(Empty, steps) && |token| == TOKEN_LENGTH
    ensures var s := Run(Empty, steps);
      var ended := multiset(OutcomeTokens(s.past.outcomes))[token];
      && multiset(Tokens(s.deadlines))[token] + ended == (if token in s.past.issued then 1 else 0)
      && (ended == 1 ==> SettleOut(s, token, raw) == s)
  {
    assert Inv(Empty);
    RunKeeps(Empty, steps);
    var s := Run(Empty, steps);
    var issued := multiset(s.past.issued);
    assert issued[token] == if token in s.past.issued then 1 else 0;
    assert (multiset(Tokens(s.deadlines)) + multiset(OutcomeTokens(s.past.outcomes)))[token] == issued[token];
    MemberParts(token, raw);
    if Has(s.deadlines, Member(token, raw)) { TokenIsHeld(s.deadlines, Member(token, raw)); }
  }

  // When no empty value was ever pushed, `:processing` and the deadline set always agree.
  lemma AlwaysMatched(steps: seq<Step>)
    requires Runnable(Empty, steps)
    requires forall i :: 0 <= i < |steps| && steps[i].Pushed? ==> steps[i].value != ""
    ensures Matched(Run(Empty, steps))
  {
    assert Inv(Empty);
    RunKeeps(Empty, steps);
    NoEmptyValue(Empty, steps);
    var s := Run(Empty, steps);
    MatchedIffNoneStranded(s);
    assert multiset(s.processing)[""] >= Copies("", s.past.stranded)[""] == s.past.stranded;
    assert s.past.entered[""] >= multiset(s.processing)[""];
  }

  lemma OnlyPushEnters(s: Queue, step: Step)
    ensures Apply(s, step).past.entered ==
      s.past.entered + (if step.Pushed? then multiset{step.value} else multiset{})
  {
    if step.Swept? { SweepEachHistory(s, Lapsed(s, step.now, step.batch)); }
  }

  lemma {:induction false} NoEmptyValue(s: Queue, steps: seq<Step>)
    requires "" !in s.past.entered
    requires forall i :: 0 <= i < |steps| && steps[i].Pushed? ==> steps[i].value != ""
    ensures "" !in Run(s, steps).past.entered
    decreases |steps|
  {
    if steps != [] {
      OnlyPushEnters(s, steps[0]);
      assert forall i :: 0 <= i < |steps[1..]| ==> steps[1..][i] == steps[i + 1];
      NoEmptyValue(Apply(s, steps[0]), steps[1..]);
    }
  }

  // ---- How long a reservation lasts --------------------------------------------------

  predicate Lasts(retryAfter: Option<nat>, since: int, clock: int) {
    retryAfter == None || clock < since + retryAfter.value
  }

  ghost predicate NoSweepTakes(s: Queue, member: string, clock: int) {
    forall batch :: Has(Sweep(s, clock, batch).deadlines, member)
  }

  // The sweep takes the reservation and hands its value back, unless that is empty.
  ghost predicate SweepTakes(s: Queue, token: string, raw: string, clock: int) {
    var t := Sweep(s, clock, -1);
    && !Has(t.deadlines, Member(token, raw)) && Recovered(token) in t.past.outcomes
    && (raw != "" ==> multiset(t.ready)[raw] > multiset(s.ready)[raw])
  }

  // A reservation made under that token at `since`: no sweep takes it while it lasts, and any
  // sweep without a limit does after that.
  ghost predicate HeldFor(s: Queue, token: string, raw: string, retryAfter: Option<nat>, since: int) {
    && Has(s.deadlines, Member(token, raw))
    && (forall clock :: Lasts(retryAfter, since, clock) ==> NoSweepTakes(s, Member(token, raw), clock))
    && (forall clock :: !Lasts(retryAfter, since, clock) ==> SweepTakes(s, token, raw, clock))
  }

  ghost predicate IsReserved(s: Queue, token: string, raw: string, score: Score) {
    Entry(score, Member(token, raw)) in s.deadlines
  }

  lemma {:induction false} SweptReturns(s: Queue, ms: seq<string>, m: string)
    requires Inv(s) && AllReserved(s.deadlines, ms) && m in ms
    ensures var t := SweepEach(s, ms);
      && Recovered(TokenOf(m)) in t.past.outcomes
      && (RawOf(m) != "" ==> multiset(t.ready)[RawOf(m)] > multiset(s.ready)[RawOf(m)])
    decreases |ms|
  {
    var t := SweepOne(s, ms[0]);
    RestReserved(s, ms);
    SweepOneKeeps(s, ms[0]);
    SweepEachGrows(t, ms[1..]);
    if m == ms[0] {
      assert Recovered(TokenOf(m)) in t.past.outcomes;
      TakenRawIsHeld(s, m);
    } else {
      assert m in ms[1..];
      SweptReturns(t, ms[1..], m);
    }
  }

  lemma TakenRawIsHeld(s: Queue, m: string)
    requires Inv(s) && Has(s.deadlines, m)
    ensures var t := SweepOne(s, m);
      RawOf(m) != "" ==> multiset(t.ready)[RawOf(m)] == multiset(s.ready)[RawOf(m)] + 1
  {
    MemberRemoved(s, m, Recovered(TokenOf(m)));
    assert RawOf(m) in multiset(s.processing);
    assert RawOf(m) in s.processing;
  }

  lemma {:induction false} SweepEachGrows(s: Queue, ms: seq<string>)
    ensures s.ready <= SweepEach(s, ms).ready && s.past.outcomes <= SweepEach(s, ms).past.outcomes
    ensures forall v :: multiset(s.ready)[v] <= multiset(SweepEach(s, ms).ready)[v]
    decreases |ms|
  {
    if ms != [] { SweepEachGrows(SweepOne(s, ms[0]), ms[1..]); }
    var t := SweepEach(s, ms);
    assert t.ready == s.ready + t.ready[|s.ready|..];
  }

  lemma ReservedIsHeldFor(s: Queue, token: string, raw: string, retryAfter: Option<nat>, since: int)
    requires Inv(s) && |token| == TOKEN_LENGTH && IsReserved(s, token, raw, Deadline(retryAfter, since))
    ensures HeldFor(s, token, raw, retryAfter, since)
  {
    var m := Member(token, raw);
    var e := Entry(Deadline(retryAfter, since), m);
    HasIff(s.deadlines, m);
    forall clock, batch | Lasts(retryAfter, since, clock) ensures Has(Sweep(s, clock, batch).deadlines, m) {
      SweepTakesTheLapsed(s, clock, batch, e);
      HasIff(Sweep(s, clock, batch).deadlines, m);
    }
    forall clock | !Lasts(retryAfter, since, clock) ensures SweepTakes(s, token, raw, clock) {
      LapsedIsTaken(s, token, raw, e.score, clock);
    }
  }

  lemma LapsedIsTaken(s: Queue, token: string, raw: string, score: Score, clock: int)
    requires Inv(s) && |token| == TOKEN_LENGTH && IsReserved(s, token, raw, score) && Due(score, clock)
    ensures SweepTakes(s, token, raw, clock)
  {
    var e, ms := Entry(score, Member(token, raw)), Lapsed(s, clock, -1);
    MemberParts(token, raw);
    SweepKeeps(s, clock, -1);
    DueIsLapsed(s.deadlines, clock, -1, e);
    LapsedAreReserved(s, clock, -1);
    SweptReturns(s, ms, e.member);
    HasIff(Sweep(s, clock, -1).deadlines, e.member);
  }

  // A step that leaves such a reservation alone: no settle under its own handle, and no sweep
  // by a clock at which it has lapsed.
  ghost predicate Spares(step: Step, token: string, raw: string, score: Score) {
    match step
    case SettledBy(t, r) => !(t == token && r == raw)
    case Swept(now, _) => !Due(score, now)
    case _ => true
  }

  lemma StepSpares(s: Queue, step: Step, token: string, raw: string, score: Score)
    requires Inv(s) && Enabled(s, step) && |token| == TOKEN_LENGTH && token in s.past.issued
    requires IsReserved(s, token, raw, score) && Spares(step, token, raw, score)
    ensures IsReserved(Apply(s, step), token, raw, score) && token in Apply(s, step).past.issued
  {
    var e := Entry(score, Member(token, raw));
    MemberParts(token, raw);
    match step
    case Reserved(at, t) =>
      if s.ready != [] {
        MemberParts(t, s.ready[0]);
        AddKeepsRank(s.deadlines, at, Member(t, s.ready[0]));
      }
    case SettledBy(t, r) =>
      MemberParts(t, r);
      RemoveLeavesOthers(s.deadlines, Member(t, r));
    case Swept(now, batch) =>
      SweepTakesTheLapsed(s, now, batch, e);
      SweepEachHistory(s, Lapsed(s, now, batch));
    case _ =>
  }

  // Whatever the other workers do meanwhile, a reservation lasts: it is held under its token as
  // long as its holder does not settle it and no clock has reached its deadline, and from then on
  // any sweep without a limit hands the value back.
  lemma {:induction false} ReservationLasts(s: Queue, steps: seq<Step>, token: string, raw: string,
                                            retryAfter: Option<nat>, since: int)
    requires Inv(s) && Runnable(s, steps) && |token| == TOKEN_LENGTH && token in s.past.issued
    requires IsReserved(s, token, raw, Deadline(retryAfter, since))
    requires forall i :: 0 <= i < |steps| ==> Spares(steps[i], token, raw, Deadline(retryAfter, since))
    ensures HeldFor(Run(s, steps), token, raw, retryAfter, since)
    decreases |steps|
  {
    if steps == [] {
      ReservedIsHeldFor(s, token, raw, retryAfter, since);
    } else {
      StepKeeps(s, steps[0]);
      StepSpares(s, steps[0], token, raw, Deadline(retryAfter, since));
      assert forall i :: 0 <= i < |steps[1..]| ==> steps[1..][i] == steps[i + 1];
      ReservationLasts(Apply(s, steps[0]), steps[1..], token, raw, retryAfter, since);
    }
  }

  // A token as the transport draws one.
  ghost predicate IsNew(s: Queue, token: string) {
    |token| == TOKEN_LENGTH && token !in s.past.issued
  }

  lemma ReserveHolds(s: Queue, token: string, retryAfter: Option<nat>, since: int)
    requires Inv(s) && s.ready != [] && IsNew(s, token)
    ensures var t := Reserve(s, Deadline(retryAfter, since), token);
      && Inv(t) && token in t.past.issued && IsReserved(t, token, s.ready[0], Deadline(retryAfter, since))
      && HeldFor(t, token, s.ready[0], retryAfter, since)
  {
    ReserveKeeps(s, Deadline(retryAfter, since), token);
    AddKeepsRank(s.deadlines, Deadline(retryAfter, since), Member(token, s.ready[0]));
    ReservedIsHeldFor(Reserve(s, Deadline(retryAfter, since), token), token, s.ready[0], retryAfter, since);
  }

  // ---- The transport ------------------------------------------------------------------

  function PastOf(past: map<string, History>, key: string): History {
    if key in past then past[key] else Empty.past
  }

  // Where a settle sends its body: another queue's ready list, or this one's.
  datatype Target = Target(queue: string, body: string)

  function AfterSettle(s: Queue, key: string, queue: string, token: string, raw: string,
                       target: Option<Target>, settled: bool): Queue {
    var t := if key == queue then SettleOut(s, token, raw) else s;
    if settled && target.Some? && target.value.queue == key then Push(t, target.value.body) else t
  }

  lemma SettlePushes(s: Queue, key: string, queue: string, token: string, raw: string, target: Target, settled: bool)
    requires target.queue == key
    ensures AfterSettle(s, key, queue, token, raw, Some(target), settled).ready
         == if settled then s.ready + [target.body] else s.ready
  {
  }

  class RedisTransport {
    var ready: map<string, seq<string>>
    var processing: map<string, seq<string>>
    var deadlines: map<string, ZSet>
    ghost var past: map<string, History>
    const retryAfter: Option<nat>
    const batch: int

    constructor (retryAfter: Option<nat>, batch: int)
      ensures forall q :: View(q) == Empty
      ensures this.retryAfter == retryAfter && this.batch == batch
    {
      ready, processing, deadlines, past := map[], map[], map[], map[];
      this.retryAfter, this.batch := retryAfter, batch;
    }

    ghost function View(q: string): Queue
      reads this
    {
      Queue(ListOf(ready, q), ListOf(processing, q), ListOf(deadlines, q), PastOf(past, q))
    }

    method Publish(queue: string, body: string)
      modifies this
      ensures View(queue) == Push(old(View(queue)), body)
      ensures forall q :: q != queue ==> View(q) == old(View(q))
    {
      ready := ready[queue := ListOf(ready, queue) + [body]];
      past := past[queue := PastOf(past, queue).(entered := PastOf(past, queue).entered + multiset{body})];
    }

    // One member of the loop of the SWEEP script.
    method SweepMember(queue: string, m: string) returns (moved: bool)
      modifies this
      ensures View(queue) == SweepOne(old(View(queue)), m)
      ensures forall q :: q != queue ==> View(q) == old(View(q))
      ensures |ListOf(ready, queue)| == |ListOf(old(ready), queue)| + (if moved then 1 else 0)
    {
      ghost var h := PastOf(past, queue).(outcomes := PastOf(past, queue).outcomes + [Recovered(TokenOf(m))]);
      moved := WellFormed(m) && |m| > TOKEN_LENGTH + 1 && RawOf(m) in ListOf(processing, queue);
      if moved {
        processing := processing[queue := RemoveFirst(ListOf(processing, queue), RawOf(m))];
        ready := ready[queue := ListOf(ready, queue) + [RawOf(m)]];
      } else {
        h := h.(stranded := h.stranded + 1);
      }
      deadlines := deadlines[queue := Remove(ListOf(deadlines, queue), m)];
      past := past[queue := h];
    }

    // The SWEEP script.
    method SweepScript(queue: string, now: int) returns (moved: nat)
      modifies this
      ensures View(queue) == Sweep(old(View(queue)), now, batch)
      ensures forall q :: q != queue ==> View(q) == old(View(q))
      ensures |ListOf(ready, queue)| == |ListOf(old(ready), queue)| + moved
    {
      var z := ListOf(deadlines, queue);
      var members := Members(z[..RangeCount(z, now, batch)]);
      moved := 0;
      ghost var before := View(queue);
      assert members[0..] == members;
      for i := 0 to |members|
        invariant SweepEach(View(queue), members[i..]) == SweepEach(before, members)
        invariant forall q :: q != queue ==> View(q) == old(View(q))
        invariant |ListOf(ready, queue)| == |ListOf(old(ready), queue)| + moved
      {
        assert members[i..][0] == members[i] && members[i..][1..] == members[i + 1..];
        var one := SweepMember(queue, members[i]);
        if one { moved := moved + 1; }
      }
    }

    // LMOVE ready processing LEFT RIGHT
    method MoveHead(queue: string) returns (head: string)
      requires ListOf(ready, queue) != []
      modifies this`ready, this`processing
      ensures head == old(ListOf(ready, queue))[0]
      ensures ready == old(ready)[queue := old(ListOf(ready, queue))[1..]]
      ensures processing == old(processing)[queue := old(ListOf(processing, queue)) + [head]]
    {
      head := ListOf(ready, queue)[0];
      ready := ready[queue := ListOf(ready, queue)[1..]];
      processing := processing[queue := ListOf(processing, queue) + [head]];
    }

    // The RESERVE script.
    method ReserveScript(queue: string, score: Score, token: string) returns (raw: Option<string>)
      modifies this
      ensures View(queue) == Reserve(old(View(queue)), score, token)
      ensures forall q :: q != queue ==> View(q) == old(View(q))
      ensures raw == if ListOf(old(ready), queue) == [] then None else Some(ListOf(old(ready), queue)[0])
    {
      if ListOf(ready, queue) == [] { return None; }
      var head := MoveHead(queue);
      var z := Add(ListOf(deadlines, queue), score, Member(token, head));
      deadlines := deadlines[queue := z];
      past := past[queue := PastOf(past, queue).(issued := PastOf(past, queue).issued + {token})];
      raw := Some(head);
    }

    /** One turn of `pop`: sweep, then reserve the head under a new token. */
    method Pop(queue: string, now: int, token: string) returns (raw: Option<string>)
      modifies this
      ensures View(queue) == Reserve(Sweep(old(View(queue)), now, batch), Deadline(retryAfter, now), token)
      ensures forall q :: q != queue ==> View(q) == old(View(q))
      ensures var swept := Sweep(old(View(queue)), now, batch).ready;
        raw == if swept == [] then None else Some(swept[0])
      ensures raw.Some? && Inv(old(View(queue))) && IsNew(old(View(queue)), token) ==>
        HeldFor(View(queue), token, raw.value, retryAfter, now)
    {
      ghost var before := View(queue);
      var _ := SweepScript(queue, now);
      if Inv(before) && IsNew(before, token) && View(queue).ready != [] {
        SweepKeeps(before, now, batch);
        SweepEachHistory(before, Lapsed(before, now, batch));
        ReserveHolds(View(queue), token, retryAfter, now);
      }
      raw := ReserveScript(queue, Deadline(retryAfter, now), token);
    }

    // The SETTLE script up to its push.
    method TakeOut(queue: string, token: string, raw: string) returns (settled: bool)
      modifies this
      ensures settled <==> Has(ListOf(old(deadlines), queue), Member(token, raw))
      ensures View(queue) == SettleOut(old(View(queue)), token, raw)
      ensures forall q :: q != queue ==> View(q) == old(View(q))
    {
      var z := ListOf(deadlines, queue);
      settled := Has(z, Member(token, raw));
      if !settled { return; }
      deadlines := deadlines[queue := Remove(z, Member(token, raw))];
      processing := processing[queue := RemoveFirst(ListOf(processing, queue), raw)];
      ghost var h := PastOf(past, queue);
      past := past[queue := h.(left := h.left + multiset{raw}, outcomes := h.outcomes + [Settled(token)])];
    }

    // The SETTLE script: nothing is touched unless the reservation's own member is there.
    method Settle(queue: string, token: string, raw: string, target: Option<Target>) returns (settled: bool)
      modifies this
      ensures settled <==> Has(ListOf(old(deadlines), queue), Member(token, raw))
      ensures forall q :: View(q) == AfterSettle(old(View(q)), q, queue, token, raw, target, settled)
      ensures !settled ==> forall q :: View(q) == old(View(q))
    {
      settled := TakeOut(queue, token, raw);
      if !settled { return; }
      if target.Some? { Publish(target.value.queue, target.value.body); }
    }

    method Ack(queue: string, token: string, raw: string) returns (settled: bool)
      modifies this
      ensures forall q :: View(q) == AfterSettle(old(View(q)), q, queue, token, raw, None, settled)
    {
      settled := Settle(queue, token, raw, None);
    }

    /** `redeliver`: the reservation goes and the body joins the end of the same queue. */
    method Redeliver(queue: string, token: string, raw: string, body: string) returns (settled: bool)
      modifies this
      ensures forall q :: View(q) == AfterSettle(old(View(q)), q, queue, token, raw, Some(Target(queue, body)), settled)
      ensures ListOf(ready, queue) == if settled then ListOf(old(ready), queue) + [body] else ListOf(old(ready), queue)
    {
      settled := Settle(queue, token, raw, Some(Target(queue, body)));
      SettlePushes(old(View(queue)), queue, queue, token, raw, Target(queue, body), settled);
      assert View(queue).ready == ListOf(ready, queue) && old(View(queue)).ready == ListOf(old(ready), queue);
    }

    /** `dead_letter`: the reservation goes and the record joins the dead-letter queue, together
        or not at all. */
    method DeadLetter(queue: string, token: string, raw: string, dlq: string, body: string) returns (settled: bool)
      modifies this
      ensures forall q :: View(q) == AfterSettle(old(View(q)), q, queue, token, raw, Some(Target(dlq, body)), settled)
      ensures settled <==> Has(ListOf(old(deadlines), queue), Member(token, raw))
      ensures ListOf(ready, dlq) == if settled then ListOf(old(ready), dlq) + [body] else ListOf(old(ready), dlq)
    {
      settled := Settle(queue, token, raw, Some(Target(dlq, body)));
      SettlePushes(old(View(dlq)), dlq, queue, token, raw, Target(dlq, body), settled);
      assert View(dlq).ready == ListOf(ready, dlq) && old(View(dlq)).ready == ListOf(old(ready), dlq);
    }
  }
}
