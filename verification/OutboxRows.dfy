/**
  The rows of the outbox and what passes of the relay do to them. A publish of a row either
  always fails or never does.
*/
module OutboxRows {
  import opened Helpers

  datatype Row = Row(id: nat, body: string, queue: string, attempts: nat, published: bool)

  // Whether publishing the row with that id raises.
  type Faults = nat -> bool

  // Ids count up from one in the order of saving, and rows are never taken out.
  ghost predicate Numbered(rows: seq<Row>, base: nat) {
    forall i :: 0 <= i < |rows| ==> rows[i].id == base + i + 1
  }

  // `fetch_unpublished`: the oldest pending rows, at most `slots`.
  function Batch(rows: seq<Row>, slots: nat): seq<Row> {
    if rows == [] || slots == 0 then []
    else if rows[0].published then Batch(rows[1..], slots)
    else [rows[0]] + Batch(rows[1..], slots - 1)
  }

  // What the transport accepts, byte for byte.
  function Sent(records: seq<Row>, faults: Faults): seq<(string, string)> {
    if records == [] then []
    else if faults(records[0].id) then Sent(records[1..], faults)
    else [(records[0].queue, records[0].body)] + Sent(records[1..], faults)
  }

  function Marked(r: Row, faults: Faults): Row {
    if faults(r.id) then r.(attempts := r.attempts + 1) else r.(published := true)
  }

  // The rows after a pass with that many slots.
  function Passed(rows: seq<Row>, slots: nat, faults: Faults): seq<Row> {
    if rows == [] || slots == 0 then rows
    else if rows[0].published then [rows[0]] + Passed(rows[1..], slots, faults)
    else [Marked(rows[0], faults)] + Passed(rows[1..], slots - 1, faults)
  }

  // Passes until one publishes nothing, at most `passes` of them: the rows, and how many ran.
  function Drained(rows: seq<Row>, slots: nat, faults: Faults, passes: nat): (seq<Row>, nat)
    decreases passes
  {
    if passes == 0 then (rows, 0)
    else
      var after := Passed(rows, slots, faults);
      if Sent(Batch(rows, slots), faults) == [] then (after, 1)
      else
        var rest := Drained(after, slots, faults, passes - 1);
        (rest.0, rest.1 + 1)
  }

  function DrainSent(rows: seq<Row>, slots: nat, faults: Faults, passes: nat): seq<(string, string)>
    decreases passes
  {
    if passes == 0 then []
    else
      var sent := Sent(Batch(rows, slots), faults);
      if sent == [] then []
      else sent + DrainSent(Passed(rows, slots, faults), slots, faults, passes - 1)
  }

  // ---- Which rows get through --------------------------------------------------------------

  // The pending rows with fewer than `blockers` failing pending rows before them, save those
  // that fail themselves, in the order of saving.
  function Reach(rows: seq<Row>, blockers: nat, faults: Faults): seq<(string, string)> {
    if rows == [] || blockers == 0 then []
    else if rows[0].published then Reach(rows[1..], blockers, faults)
    else if faults(rows[0].id) then Reach(rows[1..], blockers - 1, faults)
    else [(rows[0].queue, rows[0].body)] + Reach(rows[1..], blockers, faults)
  }

  lemma ReachCons(r: Row, rows: seq<Row>, blockers: nat, faults: Faults)
    ensures Reach([r] + rows, blockers, faults) ==
      if blockers == 0 then []
      else if r.published then Reach(rows, blockers, faults)
      else if faults(r.id) then Reach(rows, blockers - 1, faults)
      else [(r.queue, r.body)] + Reach(rows, blockers, faults)
  {
    assert ([r] + rows)[0] == r && ([r] + rows)[1..] == rows;
  }

  // A pass sends the first of them and leaves the others within reach.
  lemma {:induction false} PassKeepsReach(rows: seq<Row>, slots: nat, blockers: nat, faults: Faults)
    requires slots <= blockers
    ensures Reach(rows, blockers, faults)
         == Sent(Batch(rows, slots), faults) + Reach(Passed(rows, slots, faults), blockers, faults)
  {
    if rows == [] || slots == 0 {
      Joined([], [], Reach(rows, blockers, faults));
      assert Sent(Batch(rows, slots), faults) == [];
    } else {
      var r, rest := rows[0], rows[1..];
      if r.published {
        PassKeepsReach(rest, slots, blockers, faults);
        ReachCons(r, Passed(rest, slots, faults), blockers, faults);
      } else if faults(r.id) {
        PassKeepsReach(rest, slots - 1, blockers - 1, faults);
        ReachCons(Marked(r, faults), Passed(rest, slots - 1, faults), blockers, faults);
        BatchCons(r, rest, slots, faults);
      } else {
        PassKeepsReach(rest, slots - 1, blockers, faults);
        ReachCons(Marked(r, faults), Passed(rest, slots - 1, faults), blockers, faults);
        BatchCons(r, rest, slots, faults);
        Joined([(r.queue, r.body)], Sent(Batch(rest, slots - 1), faults),
               Reach(Passed(rest, slots - 1, faults), blockers, faults));
      }
    }
  }

  lemma BatchCons(r: Row, rest: seq<Row>, slots: nat, faults: Faults)
    requires slots > 0 && !r.published
    ensures Sent([r] + Batch(rest, slots - 1), faults) ==
      (if faults(r.id) then [] else [(r.queue, r.body)]) + Sent(Batch(rest, slots - 1), faults)
  {
    assert ([r] + Batch(rest, slots - 1))[1..] == Batch(rest, slots - 1);
  }

  // When a pass sends nothing, nothing is within reach.
  lemma {:induction false} IdlePassIsLast(rows: seq<Row>, slots: nat, faults: Faults)
    requires Sent(Batch(rows, slots), faults) == []
    ensures Reach(rows, slots, faults) == []
  {
    if rows != [] && slots > 0 {
      if rows[0].published {
        IdlePassIsLast(rows[1..], slots, faults);
      } else {
        assert faults(rows[0].id);
        IdlePassIsLast(rows[1..], slots - 1, faults);
      }
    }
  }

  // Drain sends exactly the rows within reach, once each and in the order of saving, whenever
  // it may make as many passes as there are such rows; with fewer passes it sends a part of
  // them, and the others stay within reach.
  lemma {:induction false} DrainSendsTheReach(rows: seq<Row>, slots: nat, faults: Faults, passes: nat)
    ensures var after := Drained(rows, slots, faults, passes).0;
      && DrainSent(rows, slots, faults, passes) + Reach(after, slots, faults) == Reach(rows, slots, faults)
      && (passes >= |Reach(rows, slots, faults)| ==>
          DrainSent(rows, slots, faults, passes) == Reach(rows, slots, faults))
    decreases passes
  {
    if passes > 0 {
      PassKeepsReach(rows, slots, slots, faults);
      var sent := Sent(Batch(rows, slots), faults);
      if sent == [] {
        IdlePassIsLast(rows, slots, faults);
      } else {
        DrainSendsTheReach(Passed(rows, slots, faults), slots, faults, passes - 1);
      }
    }
  }

  lemma SendsAll(rows: seq<Row>, slots: nat, faults: Faults, passes: nat)
    ensures passes >= |Reach(rows, slots, faults)| ==>
      DrainSent(rows, slots, faults, passes) == Reach(rows, slots, faults)
  {
    DrainSendsTheReach(rows, slots, faults, passes);
  }

  // Every pass but the last sends something, so the passes are at most one more than what is sent.
  lemma {:induction false} PassesAreBounded(rows: seq<Row>, slots: nat, faults: Faults, passes: nat)
    ensures Drained(rows, slots, faults, passes).1 <= |DrainSent(rows, slots, faults, passes)| + 1
    decreases passes
  {
    if passes > 0 && Sent(Batch(rows, slots), faults) != [] {
      PassesAreBounded(Passed(rows, slots, faults), slots, faults, passes - 1);
    }
  }

  // ---- Row by row -----------------------------------------------------------------------------

  // How many pending rows before the i-th fail.
  function Blockers(rows: seq<Row>, i: nat, faults: Faults): nat
    requires i <= |rows|
  {
    if i == 0 then 0
    else Blockers(rows, i - 1, faults) + (if !rows[i - 1].published && faults(rows[i - 1].id) then 1 else 0)
  }

  lemma {:induction false} BlockersTail(rows: seq<Row>, i: nat, faults: Faults)
    requires 0 < i <= |rows|
    ensures Blockers(rows, i, faults)
         == (if !rows[0].published && faults(rows[0].id) then 1 else 0) + Blockers(rows[1..], i - 1, faults)
  {
    if i > 1 {
      BlockersTail(rows, i - 1, faults);
      assert rows[1..][i - 2] == rows[i - 1];
    }
  }

  // A pending row is published by a drain that may make enough passes exactly when it does not
  // fail itself and fewer than a batch of failing rows are ahead of it.
  lemma {:induction false} PublishedIff(rows: seq<Row>, slots: nat, faults: Faults, i: nat)
    requires i < |rows| && !rows[i].published
    ensures var after := Settled(rows, slots, faults);
      |after| == |rows| && (after[i].published <==> !faults(rows[i].id) && Blockers(rows, i, faults) < slots)
  {
    SettledLength(rows, slots, faults);
    if i == 0 {
    } else {
      BlockersTail(rows, i, faults);
      assert rows[1..][i - 1] == rows[i];
      if slots > 0 {
        var rest := rows[1..];
        if rows[0].published || !faults(rows[0].id) {
          PublishedIff(rest, slots, faults, i - 1);
        } else {
          PublishedIff(rest, slots - 1, faults, i - 1);
        }
      }
    }
  }

  // What is within reach is the queue and body of each such row.
  lemma {:induction false} ReachIsOfRows(rows: seq<Row>, blockers: nat, faults: Faults, x: (string, string))
    ensures x in Reach(rows, blockers, faults) <==>
      exists i :: 0 <= i < |rows| && x == (rows[i].queue, rows[i].body) && !rows[i].published
        && !faults(rows[i].id) && Blockers(rows, i, faults) < blockers
  {
    if rows != [] && blockers > 0 {
      var rest := rows[1..];
      var left := if !rows[0].published && faults(rows[0].id) then blockers - 1 else blockers;
      ReachIsOfRows(rest, left, faults, x);
      forall i | 0 < i < |rows|
        ensures rest[i - 1] == rows[i]
        ensures Blockers(rows, i, faults) < blockers <==> Blockers(rest, i - 1, faults) < left
      {
        BlockersTail(rows, i, faults);
      }
      if i :| 0 <= i < |rest| && x == (rest[i].queue, rest[i].body) && !rest[i].published
              && !faults(rest[i].id) && Blockers(rest, i, faults) < left {
        assert rows[i + 1] == rest[i] && Blockers(rows, i + 1, faults) < blockers;
      }
      if i :| 0 <= i < |rows| && x == (rows[i].queue, rows[i].body) && !rows[i].published
              && !faults(rows[i].id) && Blockers(rows, i, faults) < blockers {
        if i > 0 { assert rest[i - 1] == rows[i] && Blockers(rest, i - 1, faults) < left; }
      }
      assert Blockers(rows, 0, faults) == 0;
    }
  }

  // The rows with everything within reach published.
  function Settled(rows: seq<Row>, blockers: nat, faults: Faults): seq<Row> {
    if rows == [] || blockers == 0 then rows
    else if rows[0].published then [rows[0]] + Settled(rows[1..], blockers, faults)
    else if faults(rows[0].id) then [rows[0]] + Settled(rows[1..], blockers - 1, faults)
    else [rows[0].(published := true)] + Settled(rows[1..], blockers, faults)
  }

  lemma {:induction false} SettledLength(rows: seq<Row>, blockers: nat, faults: Faults)
    ensures |Settled(rows, blockers, faults)| == |rows|
  {
    if rows != [] && blockers > 0 {
      SettledLength(rows[1..], if rows[0].published || !faults(rows[0].id) then blockers else blockers - 1, faults);
    }
  }

  function Flags(rows: seq<Row>): seq<bool> {
    seq(|rows|, i requires 0 <= i < |rows| => rows[i].published)
  }

  lemma FlagsCons(r: Row, rows: seq<Row>)
    ensures Flags([r] + rows) == [r.published] + Flags(rows)
  {
  }

  lemma {:induction false} PassKeepsSettled(rows: seq<Row>, slots: nat, blockers: nat, faults: Faults)
    requires slots <= blockers
    ensures Flags(Settled(Passed(rows, slots, faults), blockers, faults)) == Flags(Settled(rows, blockers, faults))
  {
    if rows != [] && slots > 0 {
      var rest := rows[1..];
      var s := if rows[0].published then slots else slots - 1;
      var b := if rows[0].published || !faults(rows[0].id) then blockers else blockers - 1;
      PassKeepsSettled(rest, s, b, faults);
      var r := if rows[0].published then rows[0] else Marked(rows[0], faults);
      assert Passed(rows, slots, faults) == [r] + Passed(rest, s, faults);
      FlagsCons(r, Settled(Passed(rest, s, faults), b, faults));
      FlagsCons(Settled(rows, blockers, faults)[0], Settled(rest, b, faults));
    }
  }

  lemma {:induction false} NothingReachedIsSettled(rows: seq<Row>, blockers: nat, faults: Faults)
    requires Reach(rows, blockers, faults) == []
    ensures Settled(rows, blockers, faults) == rows
  {
    if rows != [] && blockers > 0 {
      NothingReachedIsSettled(rows[1..], if rows[0].published then blockers else blockers - 1, faults);
    }
  }

  // With as many passes as there are rows within reach, exactly those rows are published.
  lemma {:induction false} DrainSettles(rows: seq<Row>, slots: nat, faults: Faults, passes: nat)
    requires passes >= |Reach(rows, slots, faults)|
    ensures Flags(Drained(rows, slots, faults, passes).0) == Flags(Settled(rows, slots, faults))
    decreases passes
  {
    if passes == 0 {
      NothingReachedIsSettled(rows, slots, faults);
    } else {
      PassKeepsReach(rows, slots, slots, faults);
      PassKeepsSettled(rows, slots, slots, faults);
      var after := Passed(rows, slots, faults);
      if Sent(Batch(rows, slots), faults) == [] {
        IdlePassIsLast(rows, slots, faults);
        NothingReachedIsSettled(after, slots, faults);
      } else {
        DrainSettles(after, slots, faults, passes - 1);
      }
    }
  }

  // A batch holds as many pending rows as there are and it has slots for.
  lemma {:induction false} BatchCount(rows: seq<Row>, slots: nat)
    ensures |Batch(rows, slots)| == if Pending(rows) < slots then Pending(rows) else slots
  {
    if rows != [] && slots > 0 { BatchCount(rows[1..], if rows[0].published then slots else slots - 1); }
  }

  lemma {:induction false} ReachIsPending(rows: seq<Row>, blockers: nat, faults: Faults)
    ensures |Reach(rows, blockers, faults)| <= Pending(rows)
  {
    if rows != [] && blockers > 0 {
      ReachIsPending(rows[1..], if !rows[0].published && faults(rows[0].id) then blockers - 1 else blockers, faults);
    }
  }

  // ---- Tallies --------------------------------------------------------------------------------

  function Failures(records: seq<Row>, faults: Faults): nat {
    if records == [] then 0 else (if faults(records[0].id) then 1 else 0) + Failures(records[1..], faults)
  }

  function DrainFailures(rows: seq<Row>, slots: nat, faults: Faults, passes: nat): nat
    decreases passes
  {
    if passes == 0 then 0
    else
      var failed := Failures(Batch(rows, slots), faults);
      if Sent(Batch(rows, slots), faults) == [] then failed
      else failed + DrainFailures(Passed(rows, slots, faults), slots, faults, passes - 1)
  }

  function Pending(rows: seq<Row>): nat {
    if rows == [] then 0 else (if rows[0].published then 0 else 1) + Pending(rows[1..])
  }

  function Attempts(rows: seq<Row>): nat {
    if rows == [] then 0 else rows[0].attempts + Attempts(rows[1..])
  }

  lemma CountsCons(r: Row, rows: seq<Row>)
    ensures Pending([r] + rows) == (if r.published then 0 else 1) + Pending(rows)
    ensures Attempts([r] + rows) == r.attempts + Attempts(rows)
  {
    assert ([r] + rows)[1..] == rows;
  }

  // What a pass counts: the published are those no longer pending, the failed the rise of the
  // attempt counts.
  lemma {:induction false} PassTallies(rows: seq<Row>, slots: nat, faults: Faults)
    ensures var after := Passed(rows, slots, faults);
      && Pending(after) + |Sent(Batch(rows, slots), faults)| == Pending(rows)
      && Attempts(after) == Attempts(rows) + Failures(Batch(rows, slots), faults)
  {
    if rows != [] && slots > 0 {
      var r, rest := rows[0], rows[1..];
      if r.published {
        PassTallies(rest, slots, faults);
        CountsCons(r, Passed(rest, slots, faults));
      } else {
        PassTallies(rest, slots - 1, faults);
        CountsCons(Marked(r, faults), Passed(rest, slots - 1, faults));
        BatchCons(r, rest, slots, faults);
        assert ([r] + Batch(rest, slots - 1))[1..] == Batch(rest, slots - 1);
      }
    }
  }

  lemma {:induction false} DrainTallies(rows: seq<Row>, slots: nat, faults: Faults, passes: nat)
    ensures var after := Drained(rows, slots, faults, passes).0;
      && Pending(after) + |DrainSent(rows, slots, faults, passes)| == Pending(rows)
      && Attempts(after) == Attempts(rows) + DrainFailures(rows, slots, faults, passes)
    decreases passes
  {
    if passes > 0 {
      PassTallies(rows, slots, faults);
      if Sent(Batch(rows, slots), faults) != [] {
        DrainTallies(Passed(rows, slots, faults), slots, faults, passes - 1);
      }
    }
  }
}
