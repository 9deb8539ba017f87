/**
  One partition of a retry topic as the re-inject consumer sees it. Positions count records,
  so gaps in the broker's offsets do not matter: record i is the i-th of the log, a commit of
  record i moves the committed position to i + 1, a seek to record i moves the poll position
  to i. Times are milliseconds.
*/
module HeldPartition {
  import opened Helpers

  // A held record with its due time, and when it was accepted.
  datatype Held = Held(index: nat, due: real, accepted: real)

  // A write that reached the work topic; `confirmed` when the broker's report said so.
  // Due time and acceptance are those of the held record it was made from.
  datatype Write = Write(index: nat, at: real, due: real, accepted: real, confirmed: bool)

  datatype Partition = Partition(
    log: seq<Option<int>>,  // the record timestamps, None when the broker gave none
    tier: int,              // the delay of the topic's tier
    position: nat,
    committed: nat,
    held: seq<Held>,        // the deque in `_waiting`, oldest first
    paused: bool,
    writes: seq<Write>,     // history
    clock: real)            // history: the last clock reading

  // How one attempt to write a record and commit it ends.
  datatype Attempt =
    | Done                                        // written, confirmed, committed
    | CommitRaised                                // written, confirmed, the commit raised
    | WriteFailed(landed: bool, seekOk: bool, resumeOk: bool)  // not confirmed; it may have landed

  function Max(a: real, b: real): real {
    if a < b then b else a
  }

  function Min(a: real, b: real): real {
    if a < b then a else b
  }

  // `target_time`
  function DueTime(timestamp: Option<int>, tier: int, now: real): real {
    match timestamp
    case None => now + tier as real
    case Some(ms) => Min(Max((ms + tier) as real, now), now + tier as real)
  }

  // ---- Steps ---------------------------------------------------------------------

  function Append(p: Partition, timestamp: Option<int>): Partition {
    p.(log := p.log + [timestamp])
  }

  // A poll that returns a record of this partition, and `_accept`.
  function Accept(p: Partition, now: real, pauseOk: bool): Partition {
    if p.paused || p.position >= |p.log| then p.(clock := now)
    else p.(position := p.position + 1,
            held := p.held + [Held(p.position, DueTime(p.log[p.position], p.tier, now), now)],
            paused := pauseOk,
            clock := now)
  }

  function WriteOf(h: Held, now: real, confirmed: bool): Write {
    Write(h.index, now, h.due, h.accepted, confirmed)
  }

  // One turn of the inner loop of `_release_due`, for the head of the deque.
  function TryHead(p: Partition, now: real, outcome: Attempt): Partition
    requires p.held != []
  {
    var h := p.held[0];
    var write := WriteOf(h, now, !outcome.WriteFailed?);
    match outcome
    case Done => p.(writes := p.writes + [write], committed := h.index + 1, held := p.held[1..])
    case CommitRaised => p.(writes := p.writes + [write])
    case WriteFailed(landed, seekOk, resumeOk) =>
      var q := p.(writes := if landed then p.writes + [write] else p.writes,
                  paused := if resumeOk then false else p.paused);
      if seekOk then q.(position := h.index, held := []) else q
  }

  function Resumed(p: Partition, resumeOk: bool): Partition {
    p.(paused := if resumeOk then false else p.paused)
  }

  // `_release_due` on one partition: `outcomes` tells how the attempt on each record ends.
  // `resumeOk` is the resume of a partition that was emptied by writing.
  function Release(p: Partition, now: real, outcomes: nat -> Attempt, resumeOk: bool): Partition
    decreases |p.held|
  {
    if p.held == [] || p.held[0].due > now then p
    else
      var outcome := outcomes(p.held[0].index);
      var q := TryHead(p, now, outcome);
      if outcome != Done then q
      else if q.held == [] then Resumed(q, resumeOk)
      else Release(q, now, outcomes, resumeOk)
  }

  // Whether that pass raises out of `_release_due`: a commit raised, or the seek of a rewind did.
  predicate Raises(p: Partition, now: real, outcomes: nat -> Attempt)
    decreases |p.held|
  {
    p.held != [] && p.held[0].due <= now &&
    match outcomes(p.held[0].index)
    case Done => Raises(TryHead(p, now, Done), now, outcomes)
    case CommitRaised => true
    case WriteFailed(_, seekOk, _) => !seekOk
  }

  // How many records that pass writes and commits.
  function Written(p: Partition, now: real, outcomes: nat -> Attempt): nat
    decreases |p.held|
  {
    if p.held == [] || p.held[0].due > now || outcomes(p.held[0].index) != Done then 0
    else 1 + Written(TryHead(p, now, Done), now, outcomes)
  }

  lemma {:induction false} WrittenMovesTheCommit(p: Partition, now: real, outcomes: nat -> Attempt, resumeOk: bool)
    requires forall k :: 0 <= k < |p.held| ==> p.held[k].index == p.committed + k
    ensures Release(p, now, outcomes, resumeOk).committed == p.committed + Written(p, now, outcomes)
    decreases |p.held|
  {
    if p.held != [] && p.held[0].due <= now && outcomes(p.held[0].index) == Done {
      var q := TryHead(p, now, Done);
      if q.held != [] { WrittenMovesTheCommit(q, now, outcomes, resumeOk); }
    }
  }

  // The pass comes to the k-th held record: it is due, and those before it were due and written.
  ghost predicate Attempted(p: Partition, now: real, outcomes: nat -> Attempt, k: nat) {
    && k < |p.held| && (forall i :: 0 <= i <= k ==> p.held[i].due <= now)
    && forall i :: 0 <= i < k ==> outcomes(p.held[i].index) == Done
  }

  // Its commit raised, or the seek after a failed write did.
  predicate EndsThePass(a: Attempt) {
    a.CommitRaised? || (a.WriteFailed? && !a.seekOk)
  }

  lemma AttemptedAfterHead(p: Partition, now: real, outcomes: nat -> Attempt, k: nat)
    requires p.held != [] && p.held[0].due <= now && outcomes(p.held[0].index) == Done
    ensures Attempted(p, now, outcomes, k + 1) <==> Attempted(TryHead(p, now, Done), now, outcomes, k)
  {
    var q := TryHead(p, now, Done);
    assert forall i :: 0 <= i < |q.held| ==> q.held[i] == p.held[i + 1];
    if Attempted(q, now, outcomes, k) {
      forall i | 0 <= i <= k + 1 ensures p.held[i].due <= now {
        if i > 0 { assert q.held[i - 1].due <= now; }
      }
      forall i | 0 <= i < k + 1 ensures outcomes(p.held[i].index) == Done {
        if i > 0 { assert outcomes(q.held[i - 1].index) == Done; }
      }
    }
  }

  // A pass raises exactly when it comes to a record whose commit raises or whose seek fails; a
  // failed write that is sought back does not.
  lemma {:induction false} RaisesIff(p: Partition, now: real, outcomes: nat -> Attempt)
    ensures Raises(p, now, outcomes) <==>
      exists k: nat :: Attempted(p, now, outcomes, k) && EndsThePass(outcomes(p.held[k].index))
    decreases |p.held|
  {
    if p.held != [] && p.held[0].due <= now {
      var head := outcomes(p.held[0].index);
      if head == Done {
        var q := TryHead(p, now, Done);
        RaisesIff(q, now, outcomes);
        if k: nat :| Attempted(q, now, outcomes, k) && EndsThePass(outcomes(q.held[k].index)) {
          AttemptedAfterHead(p, now, outcomes, k);
          assert q.held[k] == p.held[k + 1];
        }
        if k: nat :| Attempted(p, now, outcomes, k) && EndsThePass(outcomes(p.held[k].index)) {
          assert k > 0;
          AttemptedAfterHead(p, now, outcomes, k - 1);
          assert q.held[k - 1] == p.held[k];
        }
      } else {
        assert Attempted(p, now, outcomes, 0);
        assert forall k: nat :: Attempted(p, now, outcomes, k) && k > 0 ==> outcomes(p.held[0].index) == Done;
      }
    }
  }

  // It writes the records it comes to up to the first that fails: those before the count are due
  // and done, and the one at the count is not there, not due or not done.
  lemma {:induction false} WrittenIs(p: Partition, now: real, outcomes: nat -> Attempt)
    ensures var n := Written(p, now, outcomes);
      && n <= |p.held|
      && (forall i :: 0 <= i < n ==> p.held[i].due <= now && outcomes(p.held[i].index) == Done)
      && (n < |p.held| ==> p.held[n].due > now || outcomes(p.held[n].index) != Done)
    decreases |p.held|
  {
    if p.held != [] && p.held[0].due <= now && outcomes(p.held[0].index) == Done {
      var q := TryHead(p, now, Done);
      WrittenIs(q, now, outcomes);
      assert forall i :: 0 <= i < |q.held| ==> q.held[i] == p.held[i + 1];
      forall i | 0 <= i < Written(p, now, outcomes)
        ensures p.held[i].due <= now && outcomes(p.held[i].index) == Done
      {
        if i > 0 { assert q.held[i - 1] == p.held[i]; }
      }
    }
  }

  // Where a pass leaves the partition once it has written n records: still holding the rest when
  // the next is not due, or its commit or seek raised; sought back to the next and emptied when
  // its write failed; and resumed when it was written or sought back to the end.
  ghost predicate LeftAt(p: Partition, q: Partition, n: nat, now: real, outcomes: nat -> Attempt, resumeOk: bool)
    requires n <= |p.held|
  {
    if n == |p.held| then
      q.held == [] && q.position == p.position && q.paused == (p.paused && (n == 0 || !resumeOk))
    else
      var next := p.held[n];
      var outcome := outcomes(next.index);
      if next.due > now || outcome.CommitRaised? then
        q.held == p.held[n..] && q.position == p.position && q.paused == p.paused
      else
        && outcome.WriteFailed? && q.paused == (p.paused && !outcome.resumeOk)
        && if outcome.seekOk then q.held == [] && q.position == next.index
           else q.held == p.held[n..] && q.position == p.position
  }

  lemma {:induction false} ReleaseLeaves(p: Partition, now: real, outcomes: nat -> Attempt, resumeOk: bool)
    ensures Written(p, now, outcomes) <= |p.held|
    ensures LeftAt(p, Release(p, now, outcomes, resumeOk), Written(p, now, outcomes), now, outcomes, resumeOk)
    decreases |p.held|
  {
    WrittenIs(p, now, outcomes);
    if p.held != [] && p.held[0].due <= now && outcomes(p.held[0].index) == Done && |p.held| > 1 {
      var q := TryHead(p, now, Done);
      var n := Written(q, now, outcomes);
      ReleaseLeaves(q, now, outcomes, resumeOk);
      assert n < |q.held| ==> q.held[n] == p.held[n + 1];
      assert n <= |q.held| ==> q.held[n..] == p.held[n + 1..];
    }
  }

  lemma {:induction false} ReleaseKeepsTier(p: Partition, now: real, outcomes: nat -> Attempt, resumeOk: bool)
    ensures Release(p, now, outcomes, resumeOk).tier == p.tier
    decreases |p.held|
  {
    if p.held != [] && p.held[0].due <= now && outcomes(p.held[0].index) == Done {
      var q := TryHead(p, now, Done);
      if q.held != [] { ReleaseKeepsTier(q, now, outcomes, resumeOk); }
    }
  }

  function Crash(p: Partition): Partition {
    p.(position := p.committed, held := [], paused := false)
  }

  // ---- The invariant ---------------------------------------------------------------

  // The records written so far are written in log order with no gap: a write repeats the
  // record before it or takes the next one.
  ghost predicate Staircase(w: seq<Write>) {
    && (w != [] ==> w[0].index == 0)
    && (forall i :: 0 <= i < |w| - 1 ==> w[i].index <= w[i + 1].index <= w[i].index + 1)
  }

  ghost predicate Confirmed(w: seq<Write>, index: nat) {
    exists i :: 0 <= i < |w| && w[i].index == index && w[i].confirmed
  }

  // No write is beyond the commit, and the last one is at most one behind it.
  ghost predicate WritesInv(w: seq<Write>, committed: nat) {
    && Staircase(w)
    && (forall i :: 0 <= i < |w| ==> w[i].index <= committed)
    && (if w == [] then committed == 0 else w[|w| - 1].index + 1 >= committed)
  }

  // A write of a record of the log, made no earlier than the due time the record got when it
  // was accepted.
  ghost predicate OnTime(log: seq<Option<int>>, tier: int, w: Write) {
    && w.index < |log|
    && w.due == DueTime(log[w.index], tier, w.accepted)
    && w.due <= w.at
  }

  ghost predicate AllOnTime(p: Partition) {
    forall i :: 0 <= i < |p.writes| ==> OnTime(p.log, p.tier, p.writes[i])
  }

  ghost predicate Inv(p: Partition) {
    && p.tier > 0
    && p.position == p.committed + |p.held| <= |p.log|
    && (forall k :: 0 <= k < |p.held| ==> p.held[k].index == p.committed + k)
    && (forall k :: 0 <= k < |p.held| ==>
        p.held[k].accepted <= p.clock && p.held[k].due == DueTime(p.log[p.held[k].index], p.tier, p.held[k].accepted))
    && WritesInv(p.writes, p.committed) && AllOnTime(p)
    && (forall i :: 0 <= i < p.committed ==> Confirmed(p.writes, i))
  }

  lemma TryHeadKeeps(p: Partition, now: real, outcome: Attempt)
    requires Inv(p) && p.held != [] && p.held[0].due <= now
    ensures Inv(TryHead(p, now, outcome))
    ensures p.committed <= TryHead(p, now, outcome).committed
  {
    var q := TryHead(p, now, outcome);
    WritesGrow(p, now, outcome);
    forall i | 0 <= i < q.committed ensures Confirmed(q.writes, i) {
      if i < p.committed {
        assert Confirmed(p.writes, i);
        var k :| 0 <= k < |p.writes| && p.writes[k].index == i && p.writes[k].confirmed;
        assert q.writes[k] == p.writes[k];
      } else {
        assert q.writes[|p.writes|].index == i;
      }
    }
  }

  lemma WritesAppend(w: seq<Write>, x: Write, committed: nat, next: nat)
    requires WritesInv(w, committed) && x.index == committed && committed <= next <= committed + 1
    ensures WritesInv(w + [x], next)
  {
  }

  lemma WritesGrow(p: Partition, now: real, outcome: Attempt)
    requires WritesInv(p.writes, p.committed)
    requires p.held != [] && p.held[0].index == p.committed
    ensures var q := TryHead(p, now, outcome);
      p.writes <= q.writes && WritesInv(q.writes, q.committed)
  {
    var q := TryHead(p, now, outcome);
    WritesAppend(p.writes, WriteOf(p.held[0], now, !outcome.WriteFailed?), p.committed, q.committed);
  }

  lemma {:induction false} ReleaseKeeps(p: Partition, now: real, outcomes: nat -> Attempt, resumeOk: bool)
    requires Inv(p)
    ensures Inv(Release(p, now, outcomes, resumeOk))
    ensures p.committed <= Release(p, now, outcomes, resumeOk).committed
    decreases |p.held|
  {
    if p.held != [] && p.held[0].due <= now {
      var outcome := outcomes(p.held[0].index);
      TryHeadKeeps(p, now, outcome);
      var q := TryHead(p, now, outcome);
      if outcome == Done && q.held != [] { ReleaseKeeps(q, now, outcomes, resumeOk); }
    }
  }

  // ---- Whole runs --------------------------------------------------------------------

  datatype Step =
    | Appended(timestamp: Option<int>)
    | Accepted(now: real, pauseOk: bool)
    | Released(now: real, outcomes: nat -> Attempt, resumeOk: bool)
    | Crashed

  function Apply(p: Partition, s: Step): Partition {
    match s
    case Appended(ts) => Append(p, ts)
    case Accepted(now, ok) => Accept(p, now, ok)
    case Released(now, outcomes, ok) => Release(p, now, outcomes, ok)
    case Crashed => Crash(p)
  }

  function Run(p: Partition, steps: seq<Step>): Partition
    decreases |steps|
  {
    if steps == [] then p else Run(Apply(p, steps[0]), steps[1..])
  }

  // The clock does not run backwards between two accepted records.
  ghost predicate ClockRuns(p: Partition, steps: seq<Step>)
    decreases |steps|
  {
    steps == [] || ((steps[0].Accepted? ==> p.clock <= steps[0].now) && ClockRuns(Apply(p, steps[0]), steps[1..]))
  }

  function Fresh(tier: int): Partition {
    Partition([], tier, 0, 0, [], false, [], 0.0)
  }

  lemma StepKeeps(p: Partition, s: Step)
    requires Inv(p) && (s.Accepted? ==> p.clock <= s.now)
    ensures Inv(Apply(p, s)) && p.committed <= Apply(p, s).committed
  {
    if s.Released? { ReleaseKeeps(p, s.now, s.outcomes, s.resumeOk); }
  }

  // Across failed writes, commits, pauses and seeks and across crashes: the deque is the run of
  // records from the commit to the poll position, each record below the commit has a confirmed
  // write, first-time writes come in log order with no gap, and no record is written before
  // its due time.
  lemma {:induction false} RunKeeps(p: Partition, steps: seq<Step>)
    requires Inv(p) && ClockRuns(p, steps)
    ensures Inv(Run(p, steps)) && p.committed <= Run(p, steps).committed
    decreases |steps|
  {
    if steps != [] {
      StepKeeps(p, steps[0]);
      RunKeeps(Apply(p, steps[0]), steps[1..]);
    }
  }

  // Whatever happened before: a write of a record comes no earlier than the record's acceptance,
  // its due time lies between the acceptance and one tier later, and when the timestamp was not
  // in the future then, the write comes at least a tier after it.
  lemma NoWriteIsEarly(tier: int, steps: seq<Step>, i: nat)
    requires tier > 0 && ClockRuns(Fresh(tier), steps)
    requires i < |Run(Fresh(tier), steps).writes|
    ensures var p := Run(Fresh(tier), steps);
      var w := p.writes[i];
      && w.index < |p.log|
      && w.accepted <= w.due <= w.accepted + tier as real && w.due <= w.at
      && (p.log[w.index].None? ==> w.at >= w.accepted + tier as real)
      && (p.log[w.index].Some? && p.log[w.index].value as real <= w.accepted ==>
          w.at >= p.log[w.index].value as real + tier as real)
  {
    RunKeeps(Fresh(tier), steps);
    RunKeepsTier(Fresh(tier), steps);
    var p := Run(Fresh(tier), steps);
    var w := p.writes[i];
    assert OnTime(p.log, p.tier, w);
    DueTimeBounds(p.log[w.index], tier, w.accepted);
  }

  lemma {:induction false} RunKeepsTier(p: Partition, steps: seq<Step>)
    ensures Run(p, steps).tier == p.tier
    decreases |steps|
  {
    if steps != [] {
      if steps[0].Released? { ReleaseKeepsTier(p, steps[0].now, steps[0].outcomes, steps[0].resumeOk); }
      RunKeepsTier(Apply(p, steps[0]), steps[1..]);
    }
  }

  // Every record below the commit was written, and none was written before a lower one.
  lemma FirstWritesInOrder(tier: int, steps: seq<Step>, i: nat, j: nat)
    requires tier > 0 && ClockRuns(Fresh(tier), steps)
    requires i < j < |Run(Fresh(tier), steps).log|
    ensures var w := Run(Fresh(tier), steps).writes;
      && (i < Run(Fresh(tier), steps).committed ==> Confirmed(w, i))
      && forall b :: 0 <= b < |w| && w[b].index == j ==> exists a :: 0 <= a < b && w[a].index == i
  {
    RunKeeps(Fresh(tier), steps);
    var w := Run(Fresh(tier), steps).writes;
    forall b | 0 <= b < |w| && w[b].index == j ensures exists a :: 0 <= a < b && w[a].index == i {
      Climb(w, b, i);
    }
  }

  lemma {:induction false} Climb(w: seq<Write>, b: nat, i: nat)
    requires Staircase(w) && b < |w| && i < w[b].index
    ensures exists a :: 0 <= a < b && w[a].index == i
  {
    assert b > 0;
    assert w[b - 1].index + 1 >= w[b].index;
    if w[b - 1].index != i { Climb(w, b - 1, i); }
  }

  // ---- Pausing ---------------------------------------------------------------------------

  // Paused with nothing held: no poll returns a record of it and no pass gets to it.
  predicate Stuck(p: Partition) {
    p.paused && p.held == []
  }

  // How the resume call of a pass ends; it makes one when it rewinds or writes all there is.
  function LastResume(p: Partition, now: real, outcomes: nat -> Attempt, resumeOk: bool): Option<bool>
    decreases |p.held|
  {
    if p.held == [] || p.held[0].due > now then None
    else
      match outcomes(p.held[0].index)
      case Done => if |p.held| == 1 then Some(resumeOk) else LastResume(TryHead(p, now, Done), now, outcomes, resumeOk)
      case CommitRaised => None
      case WriteFailed(_, _, ok) => Some(ok)
  }

  // A pass that empties a paused partition, and its resume fails.
  predicate FailsToResume(p: Partition, s: Step) {
    && s.Released? && p.paused && p.held != []
    && Apply(p, s).held == [] && LastResume(p, s.now, s.outcomes, s.resumeOk) == Some(false)
  }

  lemma {:induction false} ReleaseSticksIff(p: Partition, now: real, outcomes: nat -> Attempt, resumeOk: bool)
    ensures Stuck(Release(p, now, outcomes, resumeOk)) <==>
      Stuck(p) || FailsToResume(p, Released(now, outcomes, resumeOk))
    decreases |p.held|
  {
    if p.held != [] && p.held[0].due <= now && outcomes(p.held[0].index) == Done && |p.held| > 1 {
      ReleaseSticksIff(TryHead(p, now, Done), now, outcomes, resumeOk);
    }
  }

  lemma StepSticksIff(p: Partition, s: Step)
    ensures Stuck(Apply(p, s)) <==> (Stuck(p) && !s.Crashed?) || FailsToResume(p, s)
  {
    if s.Released? { ReleaseSticksIff(p, s.now, s.outcomes, s.resumeOk); }
  }

  lemma {:induction false} RunsOn(p: Partition, steps: seq<Step>)
    requires steps != []
    ensures var n := |steps| - 1; Run(p, steps) == Apply(Run(p, steps[..n]), steps[n])
    decreases |steps|
  {
    var n := |steps| - 1;
    if n > 0 {
      RunsOn(Apply(p, steps[0]), steps[1..]);
      assert steps[1..][..n - 1] == steps[..n][1..] && steps[..n][0] == steps[0];
    } else {
      assert steps[1..] == [] && steps[..0] == [];
    }
  }

  // The k-th step fails to resume the partition, and no restart comes after it.
  ghost predicate SticksAt(p: Partition, steps: seq<Step>, k: nat)
    requires k < |steps|
  {
    FailsToResume(Run(p, steps[..k]), steps[k]) && forall i :: k < i < |steps| ==> !steps[i].Crashed?
  }

  // A partition ends up paused with nothing held exactly when a pass emptied it while it was
  // paused, the resume of that pass failed, and the consumer has not restarted since.
  lemma {:induction false} StuckIff(p: Partition, steps: seq<Step>)
    requires !Stuck(p)
    ensures Stuck(Run(p, steps)) <==> exists k: nat :: k < |steps| && SticksAt(p, steps, k)
    decreases |steps|
  {
    if steps != [] {
      var n := |steps| - 1;
      var init := steps[..n];
      RunsOn(p, steps);
      StepSticksIff(Run(p, init), steps[n]);
      StuckIff(p, init);
      forall k: nat | k < n ensures SticksAt(p, steps, k) <==> SticksAt(p, init, k) && !steps[n].Crashed? {
        assert init[..k] == steps[..k] && forall i :: k < i < n ==> init[i] == steps[i];
      }
      assert SticksAt(p, steps, n) <==> FailsToResume(Run(p, init), steps[n]);
      if k: nat :| k < n && SticksAt(p, init, k) && !steps[n].Crashed? { assert SticksAt(p, steps, k); }
    }
  }

  ghost predicate ResumesSucceed(steps: seq<Step>) {
    forall i :: 0 <= i < |steps| && steps[i].Released? ==>
      steps[i].resumeOk && forall k :: steps[i].outcomes(k).WriteFailed? ==> steps[i].outcomes(k).resumeOk
  }

  lemma {:induction false} ResumeSucceeds(p: Partition, now: real, outcomes: nat -> Attempt)
    requires forall k :: outcomes(k).WriteFailed? ==> outcomes(k).resumeOk
    ensures LastResume(p, now, outcomes, true) != Some(false)
    decreases |p.held|
  {
    if p.held != [] && p.held[0].due <= now && outcomes(p.held[0].index) == Done && |p.held| > 1 {
      ResumeSucceeds(TryHead(p, now, Done), now, outcomes);
    }
  }

  // So as long as the client's resume calls succeed, a partition is paused only while it holds a
  // record, and a new record of one that holds none is always polled.
  lemma NeverStuckPaused(p: Partition, steps: seq<Step>)
    requires !Stuck(p) && ResumesSucceed(steps)
    ensures !Stuck(Run(p, steps))
  {
    StuckIff(p, steps);
    forall k: nat | k < |steps| ensures !SticksAt(p, steps, k) {
      var s := steps[k];
      if s.Released? { ResumeSucceeds(Run(p, steps[..k]), s.now, s.outcomes); }
    }
  }

  // The next record of a partition that is not paused is always taken, due by its timestamp.
  lemma AcceptTakesTheNext(p: Partition, now: real, pauseOk: bool)
    ensures var q := Accept(p, now, pauseOk);
      if p.paused || p.position >= |p.log| then q.held == p.held && q.position == p.position && q.paused == p.paused
      else
        && q.position == p.position + 1 && q.paused == pauseOk && |q.held| == |p.held| + 1 && p.held <= q.held
        && q.held[|p.held|] == Held(p.position, DueTime(p.log[p.position], p.tier, now), now)
  {
  }

  // Every accepted record pauses its partition, and every failed write is sought back.
  ghost predicate PausesAndSeeksSucceed(steps: seq<Step>) {
    && (forall i :: 0 <= i < |steps| && steps[i].Accepted? ==> steps[i].pauseOk)
    && (forall i :: 0 <= i < |steps| && steps[i].Released? ==>
        forall k :: steps[i].outcomes(k).WriteFailed? ==> steps[i].outcomes(k).seekOk)
  }

  // Then a partition never holds more than the one record it is paused for.
  lemma {:induction false} AtMostOneHeld(p: Partition, steps: seq<Step>)
    requires |p.held| <= 1 && (p.held != [] ==> p.paused) && PausesAndSeeksSucceed(steps)
    ensures var q := Run(p, steps); |q.held| <= 1 && (q.held != [] ==> q.paused)
    decreases |steps|
  {
    if steps != [] {
      var s := steps[0];
      if s.Released? {
        ReleaseLeaves(p, s.now, s.outcomes, s.resumeOk);
        assert forall k :: s.outcomes(k).WriteFailed? ==> s.outcomes(k).seekOk;
      }
      assert s.Accepted? ==> s.pauseOk;
      assert forall i :: 0 <= i < |steps[1..]| ==> steps[1..][i] == steps[i + 1];
      AtMostOneHeld(Apply(p, s), steps[1..]);
    }
  }

  // ---- Timing ----------------------------------------------------------------------------

  // A record waits at most one tier from its acceptance, never less than none, and when its
  // timestamp is not in the future at least a tier from it.
  lemma DueTimeBounds(timestamp: Option<int>, tier: int, now: real)
    requires tier > 0
    ensures now <= DueTime(timestamp, tier, now) <= now + tier as real
    ensures timestamp == None ==> DueTime(timestamp, tier, now) == now + tier as real
    ensures timestamp.Some? ==>
      var due, at := DueTime(timestamp, tier, now), timestamp.value as real + tier as real;
      && (due > now ==> due <= at) && (due < now + tier as real ==> due >= at)
    ensures timestamp.Some? && timestamp.value as real <= now ==>
      DueTime(timestamp, tier, now) >= timestamp.value as real + tier as real
  {
  }

  ghost predicate TimestampsRise(log: seq<Option<int>>) {
    forall i, j :: 0 <= i <= j < |log| ==> log[i].Some? && log[j].Some? && log[i].value <= log[j].value
  }

  ghost predicate AcceptedInOrder(p: Partition) {
    forall i, j :: 0 <= i <= j < |p.held| ==> p.held[i].accepted <= p.held[j].accepted
  }

  lemma {:induction false} RunAcceptsInOrder(p: Partition, steps: seq<Step>)
    requires Inv(p) && ClockRuns(p, steps) && AcceptedInOrder(p)
    ensures AcceptedInOrder(Run(p, steps))
    decreases |steps|
  {
    if steps != [] {
      StepKeeps(p, steps[0]);
      if steps[0].Released? { ReleaseDropsFromTheFront(p, steps[0].now, steps[0].outcomes, steps[0].resumeOk); }
      RunAcceptsInOrder(Apply(p, steps[0]), steps[1..]);
    }
  }

  lemma ReleaseDropsFromTheFront(p: Partition, now: real, outcomes: nat -> Attempt, resumeOk: bool)
    ensures var q := Release(p, now, outcomes, resumeOk);
      |q.held| <= |p.held| && (q.held == [] || q.held == p.held[|p.held| - |q.held|..])
  {
    ReleaseLeaves(p, now, outcomes, resumeOk);
  }

  // With rising timestamps and a clock that does not run backwards the held due times are
  // sorted.
  lemma HeldDuesAreSorted(tier: int, steps: seq<Step>)
    requires tier > 0 && ClockRuns(Fresh(tier), steps) && TimestampsRise(Run(Fresh(tier), steps).log)
    ensures var p := Run(Fresh(tier), steps);
      forall i, j :: 0 <= i <= j < |p.held| ==> p.held[i].due <= p.held[j].due
  {
    RunKeeps(Fresh(tier), steps);
    RunAcceptsInOrder(Fresh(tier), steps);
  }

  // A due record behind a head that is not due, or becomes one once those before it are gone.
  ghost predicate NoneOvertaken(p: Partition, now: real) {
    forall i, j :: 0 <= i <= j < |p.held| && p.held[j].due <= now ==> p.held[i].due <= now
  }

  ghost predicate NoneDue(p: Partition, now: real) {
    forall k :: 0 <= k < |p.held| ==> p.held[k].due > now
  }

  // Gating a partition on its head leaves no due record behind, in a pass in which every attempt
  // succeeds, exactly when no record that is not due stands before one that is.
  lemma {:induction false} NoDueRecordIsLeftIff(p: Partition, now: real, outcomes: nat -> Attempt, resumeOk: bool)
    requires forall i :: 0 <= i < |p.held| ==> outcomes(p.held[i].index) == Done
    ensures NoneDue(Release(p, now, outcomes, resumeOk), now) <==> NoneOvertaken(p, now)
    decreases |p.held|
  {
    if p.held != [] && p.held[0].due <= now {
      var q := TryHead(p, now, Done);
      assert outcomes(p.held[0].index) == Done;
      assert forall i :: 0 <= i < |q.held| ==> q.held[i] == p.held[i + 1];
      HeadIsNotOvertaken(p, q, now);
      if q.held != [] { NoDueRecordIsLeftIff(q, now, outcomes, resumeOk); }
    }
  }

  lemma HeadIsNotOvertaken(p: Partition, q: Partition, now: real)
    requires p.held != [] && p.held[0].due <= now && q.held == p.held[1..]
    ensures NoneOvertaken(p, now) <==> NoneOvertaken(q, now)
  {
    if NoneOvertaken(q, now) {
      forall i, j | 0 <= i <= j < |p.held| && p.held[j].due <= now ensures p.held[i].due <= now {
        if i > 0 { assert q.held[j - 1] == p.held[j] && q.held[i - 1] == p.held[i]; }
      }
    }
  }

  // So with rising timestamps and clock it never does.
  lemma NoDueRecordIsLeft(tier: int, steps: seq<Step>, now: real, outcomes: nat -> Attempt, resumeOk: bool)
    requires tier > 0 && ClockRuns(Fresh(tier), steps) && TimestampsRise(Run(Fresh(tier), steps).log)
    requires forall i :: outcomes(i) == Done
    ensures NoneDue(Release(Run(Fresh(tier), steps), now, outcomes, resumeOk), now)
  {
    HeldDuesAreSorted(tier, steps);
    NoDueRecordIsLeftIff(Run(Fresh(tier), steps), now, outcomes, resumeOk);
  }

  // Without that assumption a run can bring a due record behind its head, which a pass then
  // leaves: one with no timestamp waits a full tier, an old one behind it is due at once.
  lemma HeadCanDelayADueRecord(outcomes: nat -> Attempt, resumeOk: bool)
    requires forall i :: outcomes(i) == Done
    ensures exists steps: seq<Step> ::
      ClockRuns(Fresh(10), steps) && !NoneDue(Release(Run(Fresh(10), steps), 0.0, outcomes, resumeOk), 0.0)
  {
    var steps := [Appended(None), Appended(Some(-100)), Accepted(0.0, false), Accepted(0.0, false)];
    var p0 := Fresh(10);
    var p1 := Append(p0, None);
    var p2 := Append(p1, Some(-100));
    var p3 := Accept(p2, 0.0, false);
    var p4 := Accept(p3, 0.0, false);
    assert steps[3..] == [Accepted(0.0, false)] && steps[3..][1..] == [];
    assert steps[2..][1..] == steps[3..] && steps[1..][1..] == steps[2..];
    assert Run(p3, steps[3..]) == p4 && ClockRuns(p3, steps[3..]);
    assert Run(p2, steps[2..]) == p4 && ClockRuns(p2, steps[2..]);
    assert Run(p1, steps[1..]) == p4 && ClockRuns(p1, steps[1..]);
    assert Run(p0, steps) == p4 && ClockRuns(p0, steps);
    assert p4.held[0].due == 10.0 && p4.held[1].due == 0.0;
    NoDueRecordIsLeftIff(p4, 0.0, outcomes, resumeOk);
  }
}
