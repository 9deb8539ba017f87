/**
  One Kafka partition as one consumer group sees it, together with the two in-flight
  books the transport keeps for it. This is the simple form that KafkaTransport.dfy refines:
  sets of offsets instead of lists of client objects.

  `log` may have gaps (compaction, transaction markers), so "the commit reaches x" is
  stated by which records of the log lie below it, and as an equality of positions when
  the log is contiguous.
*/
module OffsetBook {

  datatype Book = Book(
    log: set<nat>,        // offsets of the records the partition holds
    end: nat,             // log end offset
    position: nat,        // next offset the consumer polls
    committed: nat,       // the group's committed position
    inFlight: set<nat>,   // handed out, neither acked nor rewound
    deferred: set<nat>,   // acked while a lower record was in flight
    acked: set<nat>,      // history: acked at some time
    skipped: set<nat>     // history: polled, but no delivery could be built from it
  )

  datatype Step =
    | Append(offset: nat)
    | Poll(built: bool)
    | Ack(offset: nat, commitOk: bool)
    | Rewind(offset: nat)
    | Abandon(seekOk: bool)
    | Crash

  ghost function MinOf(s: set<nat>): (m: nat)
    requires s != {}
    ensures m in s && forall x :: x in s ==> m <= x
  {
    var x :| x in s;
    if s == {x} then x else
      assert s - {x} != {};
      var m := MinOf(s - {x});
      assert forall y :: y in s ==> y == x || y in s - {x};
      if x <= m then x else m
  }

  ghost function MaxOf(s: set<nat>): (m: nat)
    requires s != {}
    ensures m in s && forall x :: x in s ==> x <= m
  {
    var x :| x in s;
    if s == {x} then x else
      assert s - {x} != {};
      var m := MaxOf(s - {x});
      assert forall y :: y in s ==> y == x || y in s - {x};
      if m <= x then x else m
  }

  // The lowest unsettled position: the lowest in-flight offset, else the poll position.
  ghost function Low(b: Book): nat {
    if b.inFlight == {} then b.position else MinOf(b.inFlight)
  }

  ghost function NextOffsets(b: Book): set<nat> {
    set o | o in b.log && b.position <= o
  }

  ghost function Next(b: Book): (o: nat)
    requires NextOffsets(b) != {}
    ensures o in b.log && b.position <= o
    ensures forall x :: x in b.log && b.position <= x ==> o <= x
  {
    var o := MinOf(NextOffsets(b));
    assert o in NextOffsets(b);
    assert forall x :: x in b.log && b.position <= x ==> x in NextOffsets(b);
    o
  }

  ghost function AppendTo(b: Book, offset: nat): Book {
    b.(log := b.log + {offset}, end := offset + 1)
  }

  ghost function PollFrom(b: Book, built: bool): Book {
    if NextOffsets(b) == {} then b else
      var o := Next(b);
      var b' := b.(position := o + 1);
      if built then b'.(inFlight := b.inFlight + {o}) else b'.(skipped := b.skipped + {o})
  }

  // The acked offsets a cumulative commit may now reach: all those below every in-flight one.
  ghost function Committable(waiting: set<nat>, inFlight: set<nat>): set<nat> {
    set d | d in waiting && (forall h :: h in inFlight ==> d < h)
  }

  ghost function AckIn(b: Book, offset: nat, commitOk: bool): Book {
    SettleIn(b, b.inFlight - {offset}, offset, commitOk)
  }

  // The ack of a handle that is no longer in flight. The record may be in flight again under a
  // new handle, and then it stays so.
  ghost function StaleAckIn(b: Book, offset: nat, commitOk: bool): Book {
    SettleIn(b, b.inFlight, offset, commitOk)
  }

  ghost function SettleIn(b: Book, inFlight: set<nat>, offset: nat, commitOk: bool): Book {
    var waiting := b.deferred + {offset};
    var ready := Committable(waiting, inFlight);
    b.(inFlight := inFlight,
       deferred := waiting - ready,
       acked := b.acked + {offset},
       committed := if commitOk && ready != {} then MaxOf(ready) + 1 else b.committed)
  }

  ghost function Below(s: set<nat>, offset: nat): set<nat> {
    set o | o in s && o < offset
  }

  // A seek back to `offset`: it and everything after it will be polled again.
  ghost function RewindTo(b: Book, offset: nat): Book {
    b.(position := offset, inFlight := Below(b.inFlight, offset), deferred := Below(b.deferred, offset))
  }

  // Taking back every abandoned delivery; a seek can fail only on a partition that is no
  // longer assigned, whose position the group resets to the committed offset.
  ghost function AbandonIn(b: Book, seekOk: bool): Book {
    if b.inFlight == {} then b
    else b.(position := if seekOk then Low(b) else b.committed, inFlight := {}, deferred := {})
  }

  ghost function CrashIn(b: Book): Book {
    b.(position := b.committed, inFlight := {}, deferred := {})
  }

  ghost predicate Enabled(b: Book, s: Step) {
    match s
    case Append(o) => b.end <= o
    case Ack(o, _) => o in b.inFlight
    case Rewind(o) => o in b.inFlight
    case _ => true
  }

  ghost function Apply(b: Book, s: Step): Book {
    match s
    case Append(o) => AppendTo(b, o)
    case Poll(built) => PollFrom(b, built)
    case Ack(o, ok) => AckIn(b, o, ok)
    case Rewind(o) => RewindTo(b, o)
    case Abandon(ok) => AbandonIn(b, ok)
    case Crash => CrashIn(b)
  }

  ghost predicate Inv(b: Book) {
    && b.committed <= Low(b) <= b.position <= b.end
    && b.inFlight <= b.log && b.deferred <= b.log
    && (forall o :: o in b.log ==> o < b.end)
    && (forall o :: o in b.inFlight || o in b.deferred ==> o < b.position)
    && b.inFlight !! b.deferred
    && b.deferred <= b.acked
    && (forall o :: o in b.deferred ==> Low(b) < o)
    && (forall o :: o in b.log && Low(b) <= o < b.position ==> o in b.inFlight || o in b.deferred || o in b.skipped)
    && (forall o :: o in b.log && o < Low(b) ==> o in b.acked || o in b.skipped)
  }

  // The commit lags behind the lowest unsettled record by nothing but skipped records.
  ghost predicate CommitIsTight(b: Book) {
    forall o :: o in b.log && b.committed <= o < Low(b) ==> o in b.skipped
  }

  // ---- One step ----------------------------------------------------------------

  lemma AckRaisesLow(b: Book, offset: nat, commitOk: bool)
    requires Inv(b) && offset in b.inFlight
    ensures Low(b) <= Low(AckIn(b, offset, commitOk))
  {
    var c := AckIn(b, offset, commitOk);
    if c.inFlight != {} { assert Low(c) in b.inFlight; }
  }

  lemma AckKeeps(b: Book, offset: nat, commitOk: bool)
    requires Inv(b) && offset in b.inFlight
    ensures Inv(AckIn(b, offset, commitOk))
    ensures b.committed <= AckIn(b, offset, commitOk).committed
    ensures commitOk && CommitIsTight(b) ==> CommitIsTight(AckIn(b, offset, commitOk))
  {
    var c := AckIn(b, offset, commitOk);
    var ready := Committable(b.deferred + {offset}, c.inFlight);
    AckRaisesLow(b, offset, commitOk);
    forall o | o in ready ensures o < Low(c) {
      if c.inFlight != {} { assert Low(c) in c.inFlight; }
    }
    forall o | o in c.deferred ensures Low(c) < o {
      assert o !in ready;
      var h :| h in c.inFlight && h <= o;
      assert Low(c) <= h;
      assert o !in c.inFlight;
    }
    forall o | o in b.log && o < Low(c) ensures o in c.acked || o in c.skipped {
      if Low(b) <= o { assert o !in c.inFlight; }
    }
    if commitOk && CommitIsTight(b) { TightAck(b, offset); }
  }

  lemma TightAck(b: Book, offset: nat)
    requires Inv(b) && offset in b.inFlight && CommitIsTight(b)
    ensures CommitIsTight(AckIn(b, offset, true))
  {
    var c := AckIn(b, offset, true);
    var ready := Committable(b.deferred + {offset}, c.inFlight);
    AckRaisesLow(b, offset, true);
    if ready == {} {
      assert offset !in ready;
      assert Low(b) != offset;
      assert Low(b) in c.inFlight && Low(c) in b.inFlight;
    } else {
      var top := MaxOf(ready);
      assert top >= Low(b);
      forall o | o in b.log && c.committed <= o < Low(c) ensures o in c.skipped {
        assert forall h :: h in c.inFlight ==> o < h;
        assert o in b.deferred + {offset} ==> o in ready && o <= top;
        assert c.inFlight != {} ==> Low(c) in b.inFlight;
        assert o !in c.inFlight;
        assert Low(b) <= o < b.position;
      }
    }
  }

  lemma RewindKeeps(b: Book, offset: nat)
    requires Inv(b) && offset in b.inFlight
    ensures Inv(RewindTo(b, offset)) && Low(RewindTo(b, offset)) == Low(b)
    ensures RewindTo(b, offset).committed == b.committed
  {
    var c := RewindTo(b, offset);
    if c.inFlight == {} {
      assert forall x :: x in b.inFlight && x < offset ==> x in c.inFlight;
      assert Low(b) == offset;
    } else {
      assert Low(c) in b.inFlight;
      assert Low(b) in c.inFlight;
    }
  }

  lemma PollKeeps(b: Book, built: bool)
    requires Inv(b)
    ensures Inv(PollFrom(b, built)) && Low(b) <= Low(PollFrom(b, built))
    ensures CommitIsTight(b) ==> CommitIsTight(PollFrom(b, built))
  {
    var c := PollFrom(b, built);
    if NextOffsets(b) != {} {
      var o := Next(b);
      if b.inFlight == {} {
        if built { assert c.inFlight == {o}; }
      } else {
        assert Low(b) in c.inFlight && Low(c) in c.inFlight;
        assert Low(c) == Low(b);
      }
    }
  }

  lemma AppendKeeps(b: Book, offset: nat)
    requires Inv(b) && b.end <= offset
    ensures Inv(AppendTo(b, offset)) && Low(AppendTo(b, offset)) == Low(b)
  {
    assert Low(AppendTo(b, offset)) == Low(b);
  }

  // Taking back an abandoned partition is a rewind to its lowest in-flight record, or, when
  // the partition was lost, the same with the position the group resets it to.
  lemma AbandonKeeps(b: Book, seekOk: bool)
    requires Inv(b) && b.inFlight != {}
    ensures Inv(AbandonIn(b, seekOk))
    ensures AbandonIn(b, seekOk) == RewindTo(b, Low(b)).(position := if seekOk then Low(b) else b.committed)
  {
    assert Below(b.inFlight, Low(b)) == {} && Below(b.deferred, Low(b)) == {};
  }

  lemma StepKeeps(b: Book, s: Step)
    requires Inv(b) && Enabled(b, s)
    ensures Inv(Apply(b, s))
    ensures b.committed <= Apply(b, s).committed
    ensures b.acked <= Apply(b, s).acked && b.skipped <= Apply(b, s).skipped && b.log <= Apply(b, s).log
    ensures CommitIsTight(b) && !(s.Ack? && !s.commitOk) ==> CommitIsTight(Apply(b, s))
  {
    match s
    case Append(o) => AppendKeeps(b, o);
    case Poll(built) => PollKeeps(b, built);
    case Ack(o, ok) => AckKeeps(b, o, ok);
    case Rewind(o) => RewindKeeps(b, o);
    case Abandon(ok) =>
    case Crash =>
  }

  // ---- Whole runs --------------------------------------------------------------

  ghost predicate Runnable(b: Book, steps: seq<Step>)
    decreases |steps|
  {
    steps == [] || (Enabled(b, steps[0]) && Runnable(Apply(b, steps[0]), steps[1..]))
  }

  ghost function Run(b: Book, steps: seq<Step>): Book
    decreases |steps|
  {
    if steps == [] then b else Run(Apply(b, steps[0]), steps[1..])
  }

  const Fresh := Book({}, 0, 0, 0, {}, {}, {}, {})

  ghost predicate CommitsSucceed(steps: seq<Step>) {
    forall i :: 0 <= i < |steps| && steps[i].Ack? ==> steps[i].commitOk
  }

  lemma {:induction false} RunKeeps(b: Book, steps: seq<Step>)
    requires Inv(b) && Runnable(b, steps)
    ensures Inv(Run(b, steps))
    ensures b.committed <= Run(b, steps).committed
    ensures b.acked <= Run(b, steps).acked && b.skipped <= Run(b, steps).skipped
    ensures CommitIsTight(b) && CommitsSucceed(steps) ==> CommitIsTight(Run(b, steps))
    decreases |steps|
  {
    if steps != [] {
      StepKeeps(b, steps[0]);
      RunKeeps(Apply(b, steps[0]), steps[1..]);
      if CommitIsTight(b) && CommitsSucceed(steps) {
        assert CommitsSucceed(steps[1..]) by {
          forall i | 0 <= i < |steps[1..]| && steps[1..][i].Ack? ensures steps[1..][i].commitOk {
            assert steps[1..][i] == steps[i + 1];
          }
        }
        assert steps[0].Ack? ==> steps[0].commitOk;
      }
    }
  }

  // Every reachable state: a record below the committed position was acked at some time
  // (or never became a delivery), and a record that was not is still in flight, or lies
  // ahead of the poll position and will be polled.
  lemma NothingIsLost(steps: seq<Step>, offset: nat)
    requires Runnable(Fresh, steps)
    ensures var b := Run(Fresh, steps);
      (offset in b.log && offset !in b.acked && offset !in b.skipped) ==>
        b.committed <= offset && (offset in b.inFlight || b.position <= offset)
  {
    RunKeeps(Fresh, steps);
  }

  // ... and after a crash, an abandoned settlement or a rewind the poll position is at or
  // below each such record that is not still in flight, so it is handed out again.
  lemma UnsettledComesBack(steps: seq<Step>, last: Step, offset: nat)
    requires Runnable(Fresh, steps) && Enabled(Run(Fresh, steps), last)
    requires last.Crash? || last.Abandon? || (last.Rewind? && last.offset <= offset)
    requires var b := Run(Fresh, steps); offset in b.log && offset !in b.acked && offset !in b.skipped
    ensures var c := Apply(Run(Fresh, steps), last);
      c.position <= offset && NextOffsets(c) != {} && Next(c) <= offset
  {
    RunKeeps(Fresh, steps);
    var b := Run(Fresh, steps);
    var c := Apply(b, last);
    StepKeeps(b, last);
    assert offset in NextOffsets(c);
  }

  // With every commit accepted, the records below the commit are exactly those below the
  // lowest unsettled one; on a contiguous log of deliverable records the positions are equal.
  lemma CommitIsExact(steps: seq<Step>)
    requires Runnable(Fresh, steps) && CommitsSucceed(steps)
    ensures var b := Run(Fresh, steps);
      && Below(b.log - b.skipped, b.committed) == Below(b.log - b.skipped, Low(b))
      && ((forall o :: 0 <= o < b.end ==> o in b.log) && b.skipped == {} ==> b.committed == Low(b))
  {
    RunKeeps(Fresh, steps);
    var b := Run(Fresh, steps);
    if forall o :: 0 <= o < b.end ==> o in b.log {
      assert b.committed < b.end ==> b.committed in b.log;
    }
  }

  // ---- Handles that are no longer in flight ------------------------------------------

  // No record lies below the commit that nobody acked.
  ghost predicate NonePassed(b: Book) {
    forall o :: o in b.log && o !in b.acked && o !in b.skipped ==> b.committed <= o
  }

  // No record lies behind the poll position that is neither acked nor in flight.
  ghost predicate NoneForgotten(b: Book) {
    forall o :: o in b.log && o !in b.acked && o !in b.skipped ==> o in b.inFlight || b.position <= o
  }

  // An un-acked record of the log before the offset that the consumer has yet to poll.
  ghost predicate Overtakes(b: Book, offset: nat) {
    exists o :: o in b.log && b.position <= o < offset && o !in b.acked && o !in b.skipped
  }

  // What keeps un-acked records safe whether or not the handles acked and rewound are in flight:
  // one that is not in flight lies at or above the poll position and the commit, and above all
  // that is in flight or waits for a commit; one in flight lies at or above the commit.
  ghost predicate Ahead(b: Book, o: nat) {
    b.position <= o && forall x :: x in b.inFlight || x in b.deferred ==> x < o
  }

  ghost predicate Sound(b: Book) {
    && b.position <= b.end && b.committed <= b.end
    && (forall o :: o in b.log || o in b.inFlight || o in b.deferred ==> o < b.end)
    && (forall o :: o in b.inFlight ==> o < b.position)
    && (forall o :: o in b.log && o !in b.acked && o !in b.skipped ==>
        b.committed <= o && (o in b.inFlight || Ahead(b, o)))
  }

  lemma InvIsSound(b: Book)
    requires Inv(b)
    ensures Sound(b)
  {
  }

  // The ack of a handle in flight never passes an un-acked record, nor lets a later one.
  lemma AckIsSafe(b: Book, offset: nat, commitOk: bool)
    requires Sound(b) && offset in b.inFlight
    ensures Sound(AckIn(b, offset, commitOk))
  {
    SettleIsSafe(b, b.inFlight - {offset}, offset, commitOk);
  }

  // Settling a record is safe as long as no un-acked record that is not in flight lies before it.
  lemma SettleIsSafe(b: Book, inFlight: set<nat>, offset: nat, commitOk: bool)
    requires Sound(b) && offset < b.end && b.inFlight - {offset} <= inFlight <= b.inFlight
    requires forall o :: o in b.log && o !in b.acked && o !in b.skipped && o !in b.inFlight ==> offset <= o
    ensures Sound(SettleIn(b, inFlight, offset, commitOk))
  {
    var c := SettleIn(b, inFlight, offset, commitOk);
    var ready := Committable(b.deferred + {offset}, inFlight);
    forall o | o in c.log && o !in c.acked && o !in c.skipped
      ensures c.committed <= o && (o in c.inFlight || Ahead(c, o))
    {
      assert o != offset;
      if o in b.inFlight {
        assert o in inFlight && forall d :: d in ready ==> d < o;
      } else {
        assert Ahead(b, o) && forall d :: d in ready ==> d < o;
      }
    }
  }

  lemma PollIsSafe(b: Book, built: bool)
    requires Sound(b)
    ensures Sound(PollFrom(b, built))
  {
  }

  lemma StepIsSafe(b: Book, s: Step)
    requires Sound(b) && Enabled(b, s)
    ensures Sound(Apply(b, s))
  {
    match s
    case Ack(o, ok) => AckIsSafe(b, o, ok);
    case Poll(built) => PollIsSafe(b, built);
    case _ =>
  }

  lemma {:induction false} RunIsSafe(b: Book, steps: seq<Step>)
    requires Sound(b) && Runnable(b, steps)
    ensures Sound(Run(b, steps))
    decreases |steps|
  {
    if steps != [] {
      StepIsSafe(b, steps[0]);
      RunIsSafe(Apply(b, steps[0]), steps[1..]);
    }
  }

  // Whatever the transport goes on to do, it loses no record.
  ghost predicate SafeFrom(b: Book) {
    forall steps: seq<Step> :: Runnable(b, steps) ==> NonePassed(Run(b, steps)) && NoneForgotten(Run(b, steps))
  }

  lemma SoundIsSafe(b: Book)
    requires Sound(b)
    ensures SafeFrom(b)
  {
    forall steps: seq<Step> | Runnable(b, steps) ensures NonePassed(Run(b, steps)) && NoneForgotten(Run(b, steps)) {
      RunIsSafe(b, steps);
    }
  }

  // Acking all that is in flight commits past everything that waits.
  lemma {:induction false} Flushed(b: Book, waits: nat) returns (steps: seq<Step>)
    requires b.inFlight != {} && waits in b.deferred
    ensures Runnable(b, steps) && Run(b, steps).committed > waits
    ensures Run(b, steps).log == b.log && Run(b, steps).skipped == b.skipped
    ensures Run(b, steps).acked <= b.acked + b.inFlight
    decreases |b.inFlight|
  {
    var o := MaxOf(b.inFlight);
    var c := AckIn(b, o, true);
    var rest: seq<Step> := [];
    if waits in c.deferred {
      assert c.inFlight != {};
      rest := Flushed(c, waits);
    } else {
      assert waits in Committable(b.deferred + {o}, c.inFlight);
    }
    steps := [Ack(o, true)] + rest;
    assert steps[1..] == rest;
  }

  // The ack of any other handle loses a record, now or later, exactly when its record overtakes
  // one that is yet to be polled, and the handle is not dropped at once because its own commit is
  // refused with nothing in flight.
  lemma StaleAckIsSafeIff(b: Book, offset: nat, commitOk: bool)
    requires Sound(b) && offset in b.log
    ensures SafeFrom(StaleAckIn(b, offset, commitOk)) <==>
      !(Overtakes(b, offset) && (commitOk || b.inFlight != {}))
  {
    var c := StaleAckIn(b, offset, commitOk);
    var ready := Committable(b.deferred + {offset}, b.inFlight);
    if Overtakes(b, offset) && (commitOk || b.inFlight != {}) {
      var o :| o in b.log && b.position <= o < offset && o !in b.acked && o !in b.skipped;
      assert o !in c.acked && o !in c.inFlight;
      var steps := [];
      if b.inFlight == {} {
        assert offset in ready;
        assert Run(c, steps) == c && Runnable(c, steps);
      } else {
        steps := Flushed(c, offset);
      }
      assert Run(c, steps).committed > o;
      assert !NonePassed(Run(c, steps));
    } else {
      if !Overtakes(b, offset) { SettleIsSafe(b, b.inFlight, offset, commitOk); }
      SoundIsSafe(c);
    }
  }

  // The seek back to any other handle does exactly when its record overtakes one.
  lemma StaleRewindIsSafeIff(b: Book, offset: nat)
    requires Sound(b) && offset in b.log
    ensures SafeFrom(RewindTo(b, offset)) <==> !Overtakes(b, offset)
  {
    var c := RewindTo(b, offset);
    if Overtakes(b, offset) {
      var o :| o in b.log && b.position <= o < offset && o !in b.acked && o !in b.skipped;
      assert o !in c.inFlight;
      var none: seq<Step> := [];
      assert Runnable(c, none) && Run(c, none) == c;
      assert !NoneForgotten(c);
    } else {
      assert Sound(c);
      SoundIsSafe(c);
    }
  }

  // A step of the protocol, or an ack or rewind that comes too late for its handle.
  datatype Deed =
    | InTurn(step: Step)
    | LateAck(offset: nat, commitOk: bool)
    | LateRewind(offset: nat)

  ghost predicate Possible(b: Book, d: Deed) {
    match d
    case InTurn(s) => Enabled(b, s)
    case LateAck(o, _) => o in b.log
    case LateRewind(o) => o in b.log
  }

  ghost function Perform(b: Book, d: Deed): Book {
    match d
    case InTurn(s) => Apply(b, s)
    case LateAck(o, ok) => StaleAckIn(b, o, ok)
    case LateRewind(o) => RewindTo(b, o)
  }

  ghost predicate Harmless(b: Book, d: Deed) {
    match d
    case InTurn(_) => true
    case LateAck(o, ok) => !(Overtakes(b, o) && (ok || b.inFlight != {}))
    case LateRewind(o) => !Overtakes(b, o)
  }

  ghost predicate AllPossible(b: Book, deeds: seq<Deed>)
    decreases |deeds|
  {
    deeds == [] || (Possible(b, deeds[0]) && AllPossible(Perform(b, deeds[0]), deeds[1..]))
  }

  // None overtakes a record that is yet to be polled when it comes.
  ghost predicate AllHarmless(b: Book, deeds: seq<Deed>)
    decreases |deeds|
  {
    deeds == [] || (Harmless(b, deeds[0]) && AllHarmless(Perform(b, deeds[0]), deeds[1..]))
  }

  ghost predicate SafeThroughout(b: Book, deeds: seq<Deed>)
    decreases |deeds|
  {
    SafeFrom(b) && (deeds == [] || SafeThroughout(Perform(b, deeds[0]), deeds[1..]))
  }

  lemma DeedIsSafeIff(b: Book, d: Deed)
    requires Sound(b) && Possible(b, d)
    ensures SafeFrom(Perform(b, d)) <==> Harmless(b, d)
    ensures Harmless(b, d) ==> Sound(Perform(b, d))
  {
    match d
    case InTurn(s) =>
      StepIsSafe(b, s);
      SoundIsSafe(Apply(b, s));
    case LateAck(o, ok) =>
      StaleAckIsSafeIff(b, o, ok);
      if !Overtakes(b, o) { SettleIsSafe(b, b.inFlight, o, ok); }
    case LateRewind(o) => StaleRewindIsSafeIff(b, o);
  }

  // Any number of late acks and rewinds between the steps: no record is ever lost exactly when
  // none of them overtakes one.
  lemma {:induction false} LateHandlesAreSafeIff(b: Book, deeds: seq<Deed>)
    requires Sound(b) && AllPossible(b, deeds)
    ensures SafeThroughout(b, deeds) <==> AllHarmless(b, deeds)
    decreases |deeds|
  {
    SoundIsSafe(b);
    if deeds != [] {
      var c := Perform(b, deeds[0]);
      DeedIsSafeIff(b, deeds[0]);
      if Harmless(b, deeds[0]) {
        LateHandlesAreSafeIff(c, deeds[1..]);
      } else {
        assert !SafeThroughout(c, deeds[1..]);
      }
    }
  }

  // Two records are polled and the first is rewound, which takes both back.
  lemma RewoundRun()
    ensures var steps := [Append(0), Append(1), Poll(true), Poll(true), Rewind(0)];
      Runnable(Fresh, steps) && Run(Fresh, steps) == Book({0, 1}, 2, 0, 0, {}, {}, {}, {})
  {
    var steps := [Append(0), Append(1), Poll(true), Poll(true), Rewind(0)];
    var b1 := AppendTo(AppendTo(Fresh, 0), 1);
    assert b1.log == {0, 1};
    assert 0 in NextOffsets(b1);
    var b2 := PollFrom(b1, true);
    assert Next(b1) == 0 && b2.inFlight == {0};
    assert 1 in NextOffsets(b2);
    var b3 := PollFrom(b2, true);
    assert Next(b2) == 1 && b3.inFlight == {0, 1};
    var b4 := RewindTo(b3, 0);
    assert b4.inFlight == {} && b4.deferred == {};
    assert steps[1..][1..][1..][1..][1..] == [];
    assert steps[1..] == [Append(1), Poll(true), Poll(true), Rewind(0)];
    assert steps[1..][1..] == [Poll(true), Poll(true), Rewind(0)];
    assert steps[1..][1..][1..] == [Poll(true), Rewind(0)];
    assert steps[1..][1..][1..][1..] == [Rewind(0)];
    assert Runnable(b3, [Rewind(0)]) && Run(b3, [Rewind(0)]) == b4;
    assert Runnable(b2, [Poll(true), Rewind(0)]) && Run(b2, [Poll(true), Rewind(0)]) == b4;
    assert Runnable(b1, steps[1..][1..]) && Run(b1, steps[1..][1..]) == b4;
  }

  // It happens: the ack of the second, which is no longer in flight, commits past the first.
  lemma StaleAckLosesARecord()
    ensures exists steps: seq<Step>, offset: nat ::
      && Runnable(Fresh, steps) && offset in Run(Fresh, steps).log
      && !NonePassed(StaleAckIn(Run(Fresh, steps), offset, true))
  {
    RewoundRun();
    var b := Book({0, 1}, 2, 0, 0, {}, {}, {}, {});
    var c := StaleAckIn(b, 1, true);
    assert Committable({1}, {}) == {1} && c.committed == 2;
    assert 0 in c.log && 0 !in c.acked;
  }
}
