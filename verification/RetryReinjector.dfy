/**
  The re-inject consumer over many partitions: `_waiting` keeps a deque per partition that
  holds a record. Each method is proved to move the partition it touches as
  HeldPartition.dfy says and to leave every other one alone.
*/
module RetryReinjector {
  import opened Helpers
  import RT = RetryTopic
  import opened HeldPartition

  datatype TopicPartition = TopicPartition(topic: string, number: nat)

  type Deques = map<TopicPartition, seq<Held>>

  datatype BrokerSide = BrokerSide(
    log: seq<Option<int>>, position: nat, committed: nat, paused: bool, writes: seq<Write>, clock: real)

  // A deque stored under its partition, or the partition dropped when it is empty.
  function Store(waiting: Deques, tp: TopicPartition, held: seq<Held>): Deques {
    if held == [] then waiting - {tp} else waiting[tp := held]
  }

  function Assemble(b: BrokerSide, tier: int, held: seq<Held>): Partition {
    Partition(b.log, tier, b.position, b.committed, held, b.paused, b.writes, b.clock)
  }

  function BrokerOf(p: Partition): BrokerSide {
    BrokerSide(p.log, p.position, p.committed, p.paused, p.writes, p.clock)
  }

  // ---- The state as one value ------------------------------------------------------

  // `tierOf` gives the delay of the tier a subscribed topic names.
  datatype State = State(waiting: Deques, broker: map<TopicPartition, BrokerSide>, tierOf: string -> int)

  ghost function View(s: State, tp: TopicPartition): Partition
    requires tp in s.broker
  {
    Assemble(s.broker[tp], s.tierOf(tp.topic), ListOf(s.waiting, tp))
  }

  // The deques belong to known partitions and none of them is empty.
  ghost predicate Shaped(s: State) {
    && s.waiting.Keys <= s.broker.Keys
    && (forall tp :: tp in s.waiting ==> s.waiting[tp] != [])
  }

  ghost predicate Valid(s: State) {
    Shaped(s) && (forall tp :: tp in s.broker ==> Inv(View(s, tp)))
  }

  // The state with a new picture of one partition.
  ghost function Replace(s: State, tp: TopicPartition, p: Partition): State {
    s.(waiting := Store(s.waiting, tp, p.held), broker := s.broker[tp := BrokerOf(p)])
  }

  // `t` is `s` with the partition moved to `p`.
  ghost predicate Moved(s: State, t: State, tp: TopicPartition, p: Partition)
    requires tp in s.broker
  {
    && t.broker.Keys == s.broker.Keys && t.tierOf == s.tierOf
    && View(t, tp) == p
    && (forall o :: o in s.broker && o != tp ==> View(t, o) == View(s, o))
    && (forall o :: o != tp ==> (o in t.waiting <==> o in s.waiting))
  }

  lemma ReplaceMoves(s: State, tp: TopicPartition, p: Partition)
    requires Shaped(s) && tp in s.broker && p.tier == s.tierOf(tp.topic)
    ensures Shaped(Replace(s, tp, p)) && Moved(s, Replace(s, tp, p), tp, p)
  {
    var t := Replace(s, tp, p);
    assert forall o :: o in s.broker && o != tp ==> View(t, o) == View(s, o);
    assert ListOf(t.waiting, tp) == p.held;
    assert View(t, tp) == p;
  }

  // A step of one partition keeps every account.
  lemma ReplaceKeeps(s: State, tp: TopicPartition, step: Step)
    requires Valid(s) && tp in s.broker && (step.Accepted? ==> s.broker[tp].clock <= step.now)
    ensures Valid(Replace(s, tp, Apply(View(s, tp), step)))
  {
    var p := Apply(View(s, tp), step);
    if step.Released? { ReleaseKeepsTier(View(s, tp), step.now, step.outcomes, step.resumeOk); }
    ReplaceMoves(s, tp, p);
    StepKeeps(View(s, tp), step);
    var t := Replace(s, tp, p);
    forall o | o in t.broker ensures Inv(View(t, o)) {
      if o != tp { assert View(t, o) == View(s, o); }
    }
  }

  lemma FreshIsValid(s: State)
    requires s.waiting == map[]
    requires forall tp :: tp in s.broker ==>
      s.broker[tp] == BrokerSide([], 0, 0, false, [], 0.0) && s.tierOf(tp.topic) > 0
    ensures Valid(s)
  {
    forall tp | tp in s.broker ensures Inv(View(s, tp)) {
      assert View(s, tp) == Fresh(s.tierOf(tp.topic));
    }
  }

  // The partitions of the tier topics of some work topics.
  ghost predicate Subscribes(workTopics: seq<string>, tiers: seq<int>, partitions: set<TopicPartition>) {
    && RT.ValidTiers(tiers) && (forall w :: w in workTopics ==> w != "" && '\n' !in w)
    && (forall tp :: tp in partitions ==> tp.topic in RT.Subscribed(workTopics, tiers))
  }

  // Every subscribed topic has a tier, which is what `_accept` looks up for its records.
  lemma SubscribedTiers(workTopics: seq<string>, tiers: seq<int>, partitions: set<TopicPartition>)
    requires Subscribes(workTopics, tiers, partitions)
    ensures forall tp :: tp in partitions ==>
      RT.TierMs(tiers, tp.topic) == Some(Tiers(tiers)(tp.topic)) && Tiers(tiers)(tp.topic) > 0
  {
    forall tp | tp in partitions
      ensures RT.TierMs(tiers, tp.topic) == Some(Tiers(tiers)(tp.topic)) && Tiers(tiers)(tp.topic) > 0
    {
      RT.SubscribedHasTier(workTopics, tiers, tp.topic);
    }
  }

  // The delay of each topic that names a tier.
  function Tiers(tiers: seq<int>): string -> int {
    topic => RT.TierMs(tiers, topic).GetOr(0)
  }

  function FreshState(tierOf: string -> int, partitions: set<TopicPartition>): State {
    State(map[], map tp | tp in partitions :: BrokerSide([], 0, 0, false, [], 0.0), tierOf)
  }

  // A consumer subscribed to the tier topics of its work topics starts with its accounts in order.
  lemma FreshStart(workTopics: seq<string>, tiers: seq<int>, partitions: set<TopicPartition>)
    requires Subscribes(workTopics, tiers, partitions)
    ensures Valid(FreshState(Tiers(tiers), partitions))
    ensures forall tp :: tp in partitions ==>
      View(FreshState(Tiers(tiers), partitions), tp) == Fresh(Tiers(tiers)(tp.topic))
  {
    SubscribedTiers(workTopics, tiers, partitions);
    FreshIsValid(FreshState(Tiers(tiers), partitions));
  }

  ghost function Started(workTopics: seq<string>, tiers: seq<int>, partitions: set<TopicPartition>): (s: State)
    requires Subscribes(workTopics, tiers, partitions)
    ensures Valid(s) && s.broker.Keys == partitions
  {
    FreshStart(workTopics, tiers, partitions);
    FreshState(Tiers(tiers), partitions)
  }

  // ---- The loop of `_release_due` over one deque --------------------------------------

  /** The records that are due, oldest first, up to the first attempt that does not succeed. */
  method ReleaseHeld(p: Partition, now: real, outcomes: nat -> Attempt, resumeOk: bool)
    returns (q: Partition, written: nat, raised: bool)
    requires p.held != []
    ensures q == Release(p, now, outcomes, resumeOk)
    ensures raised <==> Raises(p, now, outcomes)
    ensures raised <==> exists k: nat :: Attempted(p, now, outcomes, k) && EndsThePass(outcomes(p.held[k].index))
    ensures written == Written(p, now, outcomes)
  {
    RaisesIff(p, now, outcomes);
    q, written, raised := p, 0, false;
    while q.held != [] && q.held[0].due <= now
      invariant q.held != [] ==> Release(q, now, outcomes, resumeOk) == Release(p, now, outcomes, resumeOk)
      invariant q.held == [] ==> Resumed(q, resumeOk) == Release(p, now, outcomes, resumeOk)
      invariant Raises(q, now, outcomes) == Raises(p, now, outcomes)
      invariant written + Written(q, now, outcomes) == Written(p, now, outcomes)
      decreases |q.held|
    {
      var outcome := outcomes(q.held[0].index);
      q := TryHead(q, now, outcome);
      if outcome != Done {
        raised := outcome.CommitRaised? || !outcome.seekOk;
        return;
      }
      written := written + 1;
    }
    if q.held == [] { q := Resumed(q, resumeOk); }
  }

  // The wait ends just when the record is due, or at once because it is.
  ghost predicate DueAfter(due: real, clock: real, wait: real) {
    clock + wait == due || (wait == 0.0 && due <= clock)
  }

  /** How long `run_once` may block in the poll: never past the next due record. */
  method PollWait(waiting: Deques, requested: real, clock: real) returns (wait: real)
    requires forall tp :: tp in waiting ==> waiting[tp] != []
    ensures waiting == map[] ==> wait == requested
    ensures waiting != map[] ==> 0.0 <= wait <= Max(requested, 0.0)
    ensures forall tp :: tp in waiting && wait > 0.0 ==> clock + wait <= waiting[tp][0].due / 1000.0
    ensures waiting != map[] && 0.0 <= wait < requested ==>
      exists tp :: tp in waiting && DueAfter(waiting[tp][0].due / 1000.0, clock, wait)
  {
    wait := requested;
    if waiting == map[] { return; }
    var todo := waiting.Keys;
    var nearest :| nearest in todo;
    todo := todo - {nearest};
    while todo != {}
      invariant todo <= waiting.Keys && nearest in waiting
      invariant forall tp :: tp in waiting && tp !in todo ==> waiting[nearest][0].due <= waiting[tp][0].due
    {
      var tp :| tp in todo;
      if waiting[tp][0].due < waiting[nearest][0].due { nearest := tp; }
      todo := todo - {tp};
    }
    wait := Max(0.0, Min(requested, waiting[nearest][0].due / 1000.0 - clock));
  }

  // ---- The consumer -----------------------------------------------------------------------

  class RetryReinjector {
    const tierOf: string -> int
    var waiting: Deques
    var broker: map<TopicPartition, BrokerSide>

    ghost function Snapshot(): State
      reads this
    {
      State(waiting, broker, tierOf)
    }

    constructor (tiers: seq<int>, partitions: set<TopicPartition>)
      ensures Snapshot() == FreshState(Tiers(tiers), partitions)
    {
      this.tierOf := Tiers(tiers);
      waiting := map[];
      broker := map tp | tp in partitions :: BrokerSide([], 0, 0, false, [], 0.0);
    }

    /** `_accept` of the next record of a partition that is not paused. */
    method AcceptNext(tp: TopicPartition, now: real, pauseOk: bool)
      requires Shaped(Snapshot()) && tp in broker
      modifies this
      ensures Snapshot() == Replace(old(Snapshot()), tp, Accept(View(old(Snapshot()), tp), now, pauseOk))
    {
      var b := broker[tp];
      if b.paused || b.position >= |b.log| {
        broker := broker[tp := b.(clock := now)];
        assert Store(waiting, tp, ListOf(waiting, tp)) == waiting;
      } else {
        var due := DueTime(b.log[b.position], tierOf(tp.topic), now);
        waiting := waiting[tp := ListOf(waiting, tp) + [Held(b.position, due, now)]];
        broker := broker[tp := b.(position := b.position + 1, paused := pauseOk, clock := now)];
      }
    }

    /** `_release_due` for one of the held partitions. */
    method ReleasePartition(tp: TopicPartition, now: real, outcomes: nat -> Attempt, resumeOk: bool)
      returns (written: nat, raised: bool)
      requires tp in waiting && tp in broker && waiting[tp] != []
      modifies this
      ensures Snapshot() == Replace(old(Snapshot()), tp, Release(View(old(Snapshot()), tp), now, outcomes, resumeOk))
      ensures raised <==> Raises(View(old(Snapshot()), tp), now, outcomes)
      ensures written == Written(View(old(Snapshot()), tp), now, outcomes)
    {
      var p := Assemble(broker[tp], tierOf(tp.topic), waiting[tp]);
      var q;
      q, written, raised := ReleaseHeld(p, now, outcomes, resumeOk);
      waiting := Store(waiting, tp, q.held);
      broker := broker[tp := BrokerOf(q)];
    }

    /** `_release_due`: the partitions in the order the dictionary lists them, up to the first
        one whose commit or seek raises. */
    method ReleaseDue(order: seq<TopicPartition>, now: real, outcomes: Outcomes, resumeOk: TopicPartition -> bool)
      returns (written: nat, raised: bool)
      requires Shaped(Snapshot()) && Lists(Snapshot(), order)
      modifies this
      ensures Snapshot() == Pass(old(Snapshot()), order, now, outcomes, resumeOk)
      ensures written == PassWrites(old(Snapshot()), order, now, outcomes, resumeOk)
      ensures raised <==> !NoneStops(old(Snapshot()), order, now, outcomes)
    {
      ghost var before := Snapshot();
      PassRaisesIff(before, order, now, outcomes, resumeOk);
      written, raised := 0, false;
      for i := 0 to |order|
        invariant Shaped(Snapshot()) && Lists(Snapshot(), order[i..])
        invariant Pass(Snapshot(), order[i..], now, outcomes, resumeOk) == Pass(before, order, now, outcomes, resumeOk)
        invariant written + PassWrites(Snapshot(), order[i..], now, outcomes, resumeOk)
               == PassWrites(before, order, now, outcomes, resumeOk)
        invariant PassRaises(Snapshot(), order[i..], now, outcomes, resumeOk)
               == PassRaises(before, order, now, outcomes, resumeOk)
        invariant !raised
      {
        ghost var s := Snapshot();
        ListsRest(s, order[i..], Release(View(s, order[i]), now, outcomes(order[i]), resumeOk(order[i])));
        assert order[i..][1..] == order[i + 1..];
        var n, r := ReleasePartition(order[i], now, outcomes(order[i]), resumeOk(order[i]));
        written, raised := written + n, r;
        if raised { return; }
      }
    }

    // The consumer restarts: the deques go and each poll position falls back to the commit.
    method Restart()
      modifies this
      ensures Shaped(Snapshot()) && Snapshot() == Restarted(old(Snapshot()))
    {
      waiting := map[];
      broker := map tp | tp in broker :: broker[tp].(position := broker[tp].committed, paused := false);
    }
  }

  ghost function Restarted(s: State): State {
    s.(waiting := map[],
       broker := map tp | tp in s.broker :: s.broker[tp].(position := s.broker[tp].committed, paused := false))
  }

  lemma RestartKeeps(s: State)
    requires Valid(s)
    ensures Valid(Restarted(s)) && forall tp :: tp in s.broker ==> View(Restarted(s), tp) == Crash(View(s, tp))
  {
    var t := Restarted(s);
    forall tp | tp in s.broker ensures View(t, tp) == Crash(View(s, tp)) && Inv(View(t, tp)) {
      StepKeeps(View(s, tp), Crashed);
    }
  }

  // ---- One pass over every held partition -----------------------------------------------

  type Outcomes = TopicPartition -> (nat -> Attempt)

  // An order that lists held partitions, each once.
  ghost predicate Lists(s: State, order: seq<TopicPartition>) {
    && (forall i :: 0 <= i < |order| ==> order[i] in s.waiting)
    && (forall i, j :: 0 <= i < j < |order| ==> order[i] != order[j])
  }

  lemma ListsRest(s: State, order: seq<TopicPartition>, p: Partition)
    requires Shaped(s) && Lists(s, order) && order != []
    ensures Shaped(Replace(s, order[0], p)) && Lists(Replace(s, order[0], p), order[1..])
  {
    assert forall i :: 0 <= i < |order[1..]| ==> order[1..][i] == order[i + 1];
  }

  ghost function Next(s: State, tp: TopicPartition, now: real, outcomes: Outcomes,
                      resumeOk: TopicPartition -> bool): State
    requires tp in s.broker
  {
    Replace(s, tp, Release(View(s, tp), now, outcomes(tp), resumeOk(tp)))
  }

  ghost function Pass(s: State, order: seq<TopicPartition>, now: real, outcomes: Outcomes,
                      resumeOk: TopicPartition -> bool): State
    requires Shaped(s) && Lists(s, order)
    decreases |order|
  {
    if order == [] then s
    else
      var t := Next(s, order[0], now, outcomes, resumeOk);
      if Raises(View(s, order[0]), now, outcomes(order[0])) then t
      else
        ListsRest(s, order, Release(View(s, order[0]), now, outcomes(order[0]), resumeOk(order[0])));
        Pass(t, order[1..], now, outcomes, resumeOk)
  }

  ghost predicate PassRaises(s: State, order: seq<TopicPartition>, now: real, outcomes: Outcomes,
                             resumeOk: TopicPartition -> bool)
    requires Shaped(s) && Lists(s, order)
    decreases |order|
  {
    order != [] &&
    (Raises(View(s, order[0]), now, outcomes(order[0])) ||
     (ListsRest(s, order, Release(View(s, order[0]), now, outcomes(order[0]), resumeOk(order[0])));
      PassRaises(Next(s, order[0], now, outcomes, resumeOk), order[1..], now, outcomes, resumeOk)))
  }

  // The count the pass returns.
  ghost function PassWrites(s: State, order: seq<TopicPartition>, now: real, outcomes: Outcomes,
                            resumeOk: TopicPartition -> bool): nat
    requires Shaped(s) && Lists(s, order)
    decreases |order|
  {
    if order == [] then 0
    else
      var n := Written(View(s, order[0]), now, outcomes(order[0]));
      if Raises(View(s, order[0]), now, outcomes(order[0])) then n
      else
        ListsRest(s, order, Release(View(s, order[0]), now, outcomes(order[0]), resumeOk(order[0])));
        n + PassWrites(Next(s, order[0], now, outcomes, resumeOk), order[1..], now, outcomes, resumeOk)
  }

  // The partitions a pass gets to: those before the first one that raises, and that one.
  ghost function Reached(s: State, order: seq<TopicPartition>, now: real, outcomes: Outcomes): set<TopicPartition>
    requires Shaped(s) && forall i :: 0 <= i < |order| ==> order[i] in s.waiting
  {
    if order == [] then {}
    else if Raises(View(s, order[0]), now, outcomes(order[0])) then {order[0]}
    else {order[0]} + Reached(s, order[1..], now, outcomes)
  }

  ghost function AfterPass(s: State, order: seq<TopicPartition>, now: real, outcomes: Outcomes,
                           resumeOk: TopicPartition -> bool, tp: TopicPartition): Partition
    requires Shaped(s) && Lists(s, order) && tp in s.broker
  {
    if tp in Reached(s, order, now, outcomes) then Release(View(s, tp), now, outcomes(tp), resumeOk(tp))
    else View(s, tp)
  }

  ghost function WrittenOf(s: State, order: seq<TopicPartition>, now: real, outcomes: Outcomes, tp: TopicPartition): nat
    requires Shaped(s) && Lists(s, order) && tp in s.broker
  {
    if tp in Reached(s, order, now, outcomes) then Written(View(s, tp), now, outcomes(tp)) else 0
  }

  lemma {:induction false} ReachedIsLocal(s: State, t: State, order: seq<TopicPartition>, now: real, outcomes: Outcomes)
    requires Shaped(s) && Shaped(t)
    requires forall i :: 0 <= i < |order| ==>
      order[i] in s.waiting && order[i] in t.waiting && View(s, order[i]) == View(t, order[i])
    ensures Reached(s, order, now, outcomes) == Reached(t, order, now, outcomes)
    ensures forall tp :: tp in Reached(s, order, now, outcomes) ==> tp in order
  {
    if order != [] {
      assert forall i :: 0 <= i < |order[1..]| ==> order[1..][i] == order[i + 1];
      ReachedIsLocal(s, t, order[1..], now, outcomes);
    }
  }

  // The pass is stopped at that partition: it comes to a record whose commit raises or whose seek
  // fails.
  ghost predicate Stopped(s: State, tp: TopicPartition, now: real, outcomes: Outcomes)
    requires tp in s.broker
  {
    var p := View(s, tp);
    exists k: nat :: Attempted(p, now, outcomes(tp), k) && EndsThePass(outcomes(tp)(p.held[k].index))
  }

  ghost predicate NoneStops(s: State, order: seq<TopicPartition>, now: real, outcomes: Outcomes)
    requires forall i :: 0 <= i < |order| ==> order[i] in s.broker
  {
    forall i :: 0 <= i < |order| ==> !Stopped(s, order[i], now, outcomes)
  }

  lemma NoneStopsAfterHead(s: State, order: seq<TopicPartition>, now: real, outcomes: Outcomes)
    requires order != [] && forall i :: 0 <= i < |order| ==> order[i] in s.broker
    ensures (forall i :: 0 <= i < |order[1..]| ==> order[1..][i] in s.broker)
    ensures NoneStops(s, order, now, outcomes) <==>
      !Stopped(s, order[0], now, outcomes) && NoneStops(s, order[1..], now, outcomes)
  {
    assert forall i :: 0 <= i < |order[1..]| ==> order[1..][i] == order[i + 1];
    if !Stopped(s, order[0], now, outcomes) && NoneStops(s, order[1..], now, outcomes) {
      forall i | 0 <= i < |order| ensures !Stopped(s, order[i], now, outcomes) {
        if i > 0 { assert order[1..][i - 1] == order[i]; }
      }
    }
  }

  // A pass gets to exactly the partitions that have no such partition listed before them; a failed
  // write that is sought back keeps it from none.
  lemma {:induction false} ReachedIff(s: State, order: seq<TopicPartition>, now: real, outcomes: Outcomes, i: nat)
    requires Shaped(s) && Lists(s, order) && i < |order|
    ensures order[i] in Reached(s, order, now, outcomes) <==> NoneStops(s, order[..i], now, outcomes)
    decreases |order|
  {
    RaisesIff(View(s, order[0]), now, outcomes(order[0]));
    var rest := order[1..];
    assert forall j :: 0 <= j < |rest| ==> rest[j] == order[j + 1];
    ReachedIsLocal(s, s, rest, now, outcomes);
    if i > 0 {
      assert order[..i][1..] == rest[..i - 1] && order[..i][0] == order[0];
      NoneStopsAfterHead(s, order[..i], now, outcomes);
      if !Stopped(s, order[0], now, outcomes) { ReachedIff(s, rest, now, outcomes, i - 1); }
    }
  }

  // So it raises exactly when one of the partitions stops it, and when none does every listed
  // partition is released: no due head stays behind because of another partition.
  lemma {:induction false} PassRaisesIff(s: State, order: seq<TopicPartition>, now: real, outcomes: Outcomes,
                                         resumeOk: TopicPartition -> bool)
    requires Shaped(s) && Lists(s, order)
    ensures PassRaises(s, order, now, outcomes, resumeOk) <==> !NoneStops(s, order, now, outcomes)
    decreases |order|
  {
    if order != [] {
      var p := Release(View(s, order[0]), now, outcomes(order[0]), resumeOk(order[0]));
      var t := Next(s, order[0], now, outcomes, resumeOk);
      RaisesIff(View(s, order[0]), now, outcomes(order[0]));
      ReleaseKeepsTier(View(s, order[0]), now, outcomes(order[0]), resumeOk(order[0]));
      ListsRest(s, order, p);
      ReplaceMoves(s, order[0], p);
      RestUntouched(s, t, order, p);
      NoneStopsAfterHead(s, order, now, outcomes);
      PassRaisesIff(t, order[1..], now, outcomes, resumeOk);
      StopsAreLocal(s, t, order[1..], now, outcomes);
    }
  }

  lemma StopsAreLocal(s: State, t: State, order: seq<TopicPartition>, now: real, outcomes: Outcomes)
    requires forall i :: 0 <= i < |order| ==>
      order[i] in s.broker && order[i] in t.broker && View(s, order[i]) == View(t, order[i])
    ensures NoneStops(s, order, now, outcomes) <==> NoneStops(t, order, now, outcomes)
  {
    forall i | 0 <= i < |order| ensures Stopped(s, order[i], now, outcomes) <==> Stopped(t, order[i], now, outcomes) { }
  }

  lemma EveryListedIsReleased(s: State, order: seq<TopicPartition>, now: real, outcomes: Outcomes,
                              resumeOk: TopicPartition -> bool, i: nat)
    requires Shaped(s) && Lists(s, order) && i < |order|
    requires NoneStops(s, order, now, outcomes)
    ensures var t := Pass(s, order, now, outcomes, resumeOk);
      && order[i] in t.broker
      && View(t, order[i]) == Release(View(s, order[i]), now, outcomes(order[i]), resumeOk(order[i]))
  {
    ReachedIff(s, order, now, outcomes, i);
    PassIsPartitionwise(s, order, now, outcomes, resumeOk, order[i]);
  }

  // A pass moves exactly the partitions it gets to, each by its own release, whatever the
  // others do; a failed partition does not stop the ones listed before it.
  lemma {:induction false} PassIsPartitionwise(s: State, order: seq<TopicPartition>, now: real, outcomes: Outcomes,
                                               resumeOk: TopicPartition -> bool, tp: TopicPartition)
    requires Shaped(s) && Lists(s, order)
    ensures var t := Pass(s, order, now, outcomes, resumeOk);
      && Shaped(t) && t.broker.Keys == s.broker.Keys && t.tierOf == s.tierOf
      && (tp in s.broker ==> View(t, tp) == AfterPass(s, order, now, outcomes, resumeOk, tp))
    decreases |order|
  {
    if order != [] {
      var head := order[0];
      var p := Release(View(s, head), now, outcomes(head), resumeOk(head));
      var t := Next(s, head, now, outcomes, resumeOk);
      ReleaseKeepsTier(View(s, head), now, outcomes(head), resumeOk(head));
      ReplaceMoves(s, head, p);
      ListsRest(s, order, p);
      if !Raises(View(s, head), now, outcomes(head)) {
        PassIsPartitionwise(t, order[1..], now, outcomes, resumeOk, tp);
        RestUntouched(s, t, order, p);
        ReachedIsLocal(s, t, order[1..], now, outcomes);
      }
    }
  }

  lemma RestUntouched(s: State, t: State, order: seq<TopicPartition>, p: Partition)
    requires Shaped(s) && Lists(s, order) && order != [] && Shaped(t) && Moved(s, t, order[0], p)
    ensures forall i :: 0 <= i < |order[1..]| ==>
      order[1..][i] in s.waiting && order[1..][i] in t.waiting && View(s, order[1..][i]) == View(t, order[1..][i])
    ensures order[0] !in order[1..]
  {
    assert forall i :: 0 <= i < |order[1..]| ==> order[1..][i] == order[i + 1];
  }

  // The account of any partition survives a pass, and its commit moves by the records written.
  lemma PassKeepsOne(s: State, order: seq<TopicPartition>, now: real, outcomes: Outcomes,
                     resumeOk: TopicPartition -> bool,
                     tp: TopicPartition)
    requires Shaped(s) && Lists(s, order) && tp in s.broker && Inv(View(s, tp))
    ensures var t := Pass(s, order, now, outcomes, resumeOk);
      && t.broker.Keys == s.broker.Keys && Inv(View(t, tp))
      && View(t, tp).committed - View(s, tp).committed == WrittenOf(s, order, now, outcomes, tp)
  {
    PassIsPartitionwise(s, order, now, outcomes, resumeOk, tp);
    ReleaseKeeps(View(s, tp), now, outcomes(tp), resumeOk(tp));
    WrittenMovesTheCommit(View(s, tp), now, outcomes(tp), resumeOk(tp));
  }

  lemma PassKeeps(s: State, order: seq<TopicPartition>, now: real, outcomes: Outcomes, resumeOk: TopicPartition -> bool)
    requires Valid(s) && Lists(s, order)
    ensures var t := Pass(s, order, now, outcomes, resumeOk); Valid(t) && t.broker.Keys == s.broker.Keys
  {
    var t := Pass(s, order, now, outcomes, resumeOk);
    PassIsPartitionwise(s, order, now, outcomes, resumeOk, TopicPartition("", 0));
    forall tp | tp in t.broker ensures Inv(View(t, tp)) {
      PassKeepsOne(s, order, now, outcomes, resumeOk, tp);
    }
  }

  // ---- Runs of the whole consumer ---------------------------------------------------------

  datatype Act =
    | Grew(tp: TopicPartition, timestamp: Option<int>)
    | Took(tp: TopicPartition, now: real, pauseOk: bool)
    | Passed(order: seq<TopicPartition>, now: real, outcomes: Outcomes, resumeOk: TopicPartition -> bool)
    | Restarts

  // The clock does not run backwards between two records accepted from a partition.
  ghost predicate Possible(s: State, a: Act) {
    match a
    case Grew(tp, _) => tp in s.broker
    case Took(tp, now, _) => tp in s.broker && s.broker[tp].clock <= now
    case Passed(order, _, _, _) => Lists(s, order)
    case Restarts => true
  }

  ghost function Perform(s: State, a: Act): State
    requires Valid(s) && Possible(s, a)
  {
    match a
    case Grew(tp, timestamp) => Replace(s, tp, Append(View(s, tp), timestamp))
    case Took(tp, now, pauseOk) => Replace(s, tp, Accept(View(s, tp), now, pauseOk))
    case Passed(order, now, outcomes, resumeOk) => Pass(s, order, now, outcomes, resumeOk)
    case Restarts => Restarted(s)
  }

  // The step of one partition in it, if it has one.
  ghost function StepOf(s: State, a: Act, tp: TopicPartition): seq<Step>
    requires Valid(s) && Possible(s, a)
  {
    match a
    case Grew(at, timestamp) => if at == tp then [Appended(timestamp)] else []
    case Took(at, now, pauseOk) => if at == tp then [Accepted(now, pauseOk)] else []
    case Passed(order, now, outcomes, resumeOk) =>
      if tp in Reached(s, order, now, outcomes) then [Released(now, outcomes(tp), resumeOk(tp))] else []
    case Restarts => [Crashed]
  }

  lemma ActKeeps(s: State, a: Act)
    requires Valid(s) && Possible(s, a)
    ensures Valid(Perform(s, a)) && Perform(s, a).broker.Keys == s.broker.Keys && Perform(s, a).tierOf == s.tierOf
  {
    match a
    case Grew(tp, timestamp) => ReplaceKeeps(s, tp, Appended(timestamp));
    case Took(tp, now, pauseOk) => ReplaceKeeps(s, tp, Accepted(now, pauseOk));
    case Passed(order, now, outcomes, resumeOk) =>
      PassKeeps(s, order, now, outcomes, resumeOk);
      PassIsPartitionwise(s, order, now, outcomes, resumeOk, TopicPartition("", 0));
    case Restarts => RestartKeeps(s);
  }

  // At most one step, and it leads from `p` to `q`.
  ghost predicate Leads(p: Partition, steps: seq<Step>, q: Partition) {
    if steps == [] then q == p
    else |steps| == 1 && q == Apply(p, steps[0]) && (steps[0].Accepted? ==> p.clock <= steps[0].now)
  }

  lemma OneStep(p: Partition, steps: seq<Step>, q: Partition)
    requires Leads(p, steps, q)
    ensures Run(p, steps) == q && ClockRuns(p, steps)
  {
  }

  lemma ReplaceLeads(s: State, at: TopicPartition, step: Step, tp: TopicPartition)
    requires Valid(s) && at in s.broker && tp in s.broker && (step.Accepted? ==> s.broker[at].clock <= step.now)
    requires step.Appended? || step.Accepted?
    ensures var t := Replace(s, at, Apply(View(s, at), step));
      tp in t.broker && Leads(View(s, tp), if at == tp then [step] else [], View(t, tp))
  {
    ReplaceMoves(s, at, Apply(View(s, at), step));
  }

  lemma StepLeads(p: Partition, step: Step)
    requires step.Accepted? ==> p.clock <= step.now
    ensures Leads(p, [step], Apply(p, step))
  {
  }

  // The partition goes on by its step of the act.
  ghost predicate Follows(s: State, a: Act, tp: TopicPartition)
    requires Valid(s) && Possible(s, a) && tp in s.broker
  {
    tp in Perform(s, a).broker && Leads(View(s, tp), StepOf(s, a, tp), View(Perform(s, a), tp))
  }

  lemma OneMoves(s: State, a: Act, tp: TopicPartition)
    requires Valid(s) && Possible(s, a) && tp in s.broker && (a.Grew? || a.Took?)
    ensures Follows(s, a, tp)
  {
    ReplaceLeads(s, a.tp, if a.Grew? then Appended(a.timestamp) else Accepted(a.now, a.pauseOk), tp);
  }

  lemma PassMoves(s: State, a: Act, tp: TopicPartition)
    requires Valid(s) && Possible(s, a) && tp in s.broker && a.Passed?
    ensures Follows(s, a, tp)
  {
    PassIsPartitionwise(s, a.order, a.now, a.outcomes, a.resumeOk, tp);
    StepLeads(View(s, tp), Released(a.now, a.outcomes(tp), a.resumeOk(tp)));
  }

  lemma RestartMoves(s: State, tp: TopicPartition)
    requires Valid(s) && tp in s.broker
    ensures Follows(s, Restarts, tp)
  {
    RestartKeeps(s);
    StepLeads(View(s, tp), Crashed);
    assert Perform(s, Restarts) == Restarted(s) && StepOf(s, Restarts, tp) == [Crashed];
    assert View(Restarted(s), tp) == Apply(View(s, tp), Crashed);
  }

  lemma ActLeads(s: State, a: Act, tp: TopicPartition)
    requires Valid(s) && Possible(s, a) && tp in s.broker
    ensures Follows(s, a, tp)
  {
    match a
    case Passed(_, _, _, _) => PassMoves(s, a, tp);
    case Restarts => RestartMoves(s, tp);
    case _ => OneMoves(s, a, tp);
  }

  ghost predicate AllPossible(s: State, acts: seq<Act>)
    requires Valid(s)
    decreases |acts|
  {
    acts == [] ||
    (Possible(s, acts[0]) && (ActKeeps(s, acts[0]); AllPossible(Perform(s, acts[0]), acts[1..])))
  }

  ghost function Work(s: State, acts: seq<Act>): (t: State)
    requires Valid(s) && AllPossible(s, acts)
    ensures Valid(t) && t.broker.Keys == s.broker.Keys
    decreases |acts|
  {
    if acts == [] then s
    else
      ActKeeps(s, acts[0]);
      Work(Perform(s, acts[0]), acts[1..])
  }

  // What the run is to one partition.
  ghost function StepsOf(s: State, acts: seq<Act>, tp: TopicPartition): seq<Step>
    requires Valid(s) && AllPossible(s, acts)
    decreases |acts|
  {
    if acts == [] then []
    else
      ActKeeps(s, acts[0]);
      StepOf(s, acts[0], tp) + StepsOf(Perform(s, acts[0]), acts[1..], tp)
  }

  lemma {:induction false} RunAfterRun(p: Partition, a: seq<Step>, b: seq<Step>)
    ensures Run(p, a + b) == Run(Run(p, a), b)
    ensures ClockRuns(p, a) && ClockRuns(Run(p, a), b) ==> ClockRuns(p, a + b)
    decreases |a|
  {
    if a == [] {
      assert a + b == b;
    } else {
      assert (a + b)[1..] == a[1..] + b && (a + b)[0] == a[0];
      RunAfterRun(Apply(p, a[0]), a[1..], b);
    }
  }

  // However records arrive, passes go over the partitions in whatever order and calls end, and the
  // consumer restarts: each partition goes through a run of its own, and every account holds.
  lemma {:induction false} ConsumerRefines(s: State, acts: seq<Act>, tp: TopicPartition)
    requires Valid(s) && AllPossible(s, acts) && tp in s.broker
    ensures var t := Work(s, acts);
      && Valid(t) && t.broker.Keys == s.broker.Keys
      && View(t, tp) == Run(View(s, tp), StepsOf(s, acts, tp)) && ClockRuns(View(s, tp), StepsOf(s, acts, tp))
    decreases |acts|
  {
    if acts != [] {
      ActKeeps(s, acts[0]);
      var u := Perform(s, acts[0]);
      ActLeads(s, acts[0], tp);
      OneStep(View(s, tp), StepOf(s, acts[0], tp), View(u, tp));
      ConsumerRefines(u, acts[1..], tp);
      RunAfterRun(View(s, tp), StepOf(s, acts[0], tp), StepsOf(u, acts[1..], tp));
    }
  }

  // So, subscribed to the tier topics of its work topics, it never writes a record early: not
  // before it was accepted, nor less than its tier after a timestamp that lay in the past then.
  lemma ConsumerIsNeverEarly(workTopics: seq<string>, tiers: seq<int>, partitions: set<TopicPartition>,
                             acts: seq<Act>, tp: TopicPartition, i: nat)
    requires Subscribes(workTopics, tiers, partitions) && tp in partitions
    requires AllPossible(Started(workTopics, tiers, partitions), acts)
    requires i < |View(Work(Started(workTopics, tiers, partitions), acts), tp).writes|
    ensures var p := View(Work(Started(workTopics, tiers, partitions), acts), tp);
      var w, tier := p.writes[i], RT.TierMs(tiers, tp.topic);
      && tier.Some? && w.index < |p.log| && w.at >= w.accepted
      && (p.log[w.index].Some? && p.log[w.index].value as real <= w.accepted ==>
          w.at >= p.log[w.index].value as real + tier.value as real)
  {
    var s := Started(workTopics, tiers, partitions);
    FreshStart(workTopics, tiers, partitions);
    SubscribedTiers(workTopics, tiers, partitions);
    ConsumerRefines(s, acts, tp);
    NoWriteIsEarly(Tiers(tiers)(tp.topic), StepsOf(s, acts, tp), i);
  }
}
