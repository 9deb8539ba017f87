/**
  The in-memory outbox store and the relay that drains it, as the loops they are.
*/
module OutboxRelay {
  import opened Helpers
  import opened OutboxRows

  datatype Tally = Tally(published: nat, failed: nat)

  class InMemoryOutboxStore {
    var rows: seq<Row>
    var sequence: nat

    ghost predicate Valid()
      reads this
    {
      sequence == |rows| && Numbered(rows, 0)
    }

    constructor ()
      ensures Valid() && rows == []
    {
      rows, sequence := [], 0;
    }

    method Save(encoded: string, queue: string) returns (id: nat)
      requires Valid()
      modifies this
      ensures Valid() && rows == old(rows) + [Row(id, encoded, queue, 0, false)]
    {
      sequence := sequence + 1;
      id := sequence;
      rows := rows + [Row(id, encoded, queue, 0, false)];
    }

    /** At least one row when any is pending: the limit is looked at after a row is taken. */
    method FetchUnpublished(limit: int) returns (records: seq<Row>)
      ensures records == Batch(rows, Slots(limit))
      ensures var most := if limit < 1 then 1 else limit;
        |records| == if Pending(rows) < most then Pending(rows) else most
    {
      BatchCount(rows, Slots(limit));
      records := [];
      var i := 0;
      while i < |rows|
        invariant 0 <= i <= |rows| && |records| < Slots(limit)
        invariant Batch(rows, Slots(limit)) == records + Batch(rows[i..], Slots(limit) - |records|)
      {
        BatchSteps(rows, i, Slots(limit) - |records|);
        if !rows[i].published {
          records := records + [rows[i]];
          if |records| >= limit { return; }
        }
        i := i + 1;
      }
    }

    method MarkPublished(ids: seq<nat>)
      requires Valid()
      modifies this`rows
      ensures Valid() && rows == PublishedRows(old(rows), ids)
    {
      for k := 0 to |ids|
        invariant Valid() && rows == PublishedRows(old(rows), ids[..k])
      {
        var id := ids[k];
        if 1 <= id <= |rows| {
          rows := rows[id - 1 := rows[id - 1].(published := true)];
        }
        assert ids[..k + 1] == ids[..k] + [id];
      }
      assert ids[..|ids|] == ids;
    }

    method MarkFailed(id: nat)
      requires Valid()
      modifies this`rows
      ensures Valid() && rows == FailedRows(old(rows), id)
    {
      if 1 <= id <= |rows| {
        rows := rows[id - 1 := rows[id - 1].(attempts := rows[id - 1].attempts + 1)];
      }
    }
  }

  function Slots(limit: int): nat {
    if limit < 1 then 1 else limit
  }

  lemma BatchSteps(rows: seq<Row>, i: nat, slots: nat)
    requires i < |rows| && slots > 0
    ensures Batch(rows[i..], slots) ==
      if rows[i].published then Batch(rows[i + 1..], slots) else [rows[i]] + Batch(rows[i + 1..], slots - 1)
  {
    assert rows[i..][1..] == rows[i + 1..];
  }

  function PublishedRows(rows: seq<Row>, ids: seq<nat>): (r: seq<Row>)
    ensures |r| == |rows|
  {
    seq(|rows|, i requires 0 <= i < |rows| => if rows[i].id in ids then rows[i].(published := true) else rows[i])
  }

  function FailedRows(rows: seq<Row>, id: nat): (r: seq<Row>)
    ensures |r| == |rows|
  {
    seq(|rows|, i requires 0 <= i < |rows| =>
      if rows[i].id == id then rows[i].(attempts := rows[i].attempts + 1) else rows[i])
  }

  // The ids of the records whose publish fails, or does not.
  function Ids(records: seq<Row>, faults: Faults, failing: bool): seq<nat> {
    if records == [] then []
    else
      var n := |records| - 1;
      Ids(records[..n], faults, failing) + (if faults(records[n].id) == failing then [records[n].id] else [])
  }

  lemma {:induction false} IdsCons(r: Row, records: seq<Row>, faults: Faults, failing: bool)
    ensures Ids([r] + records, faults, failing) ==
      (if faults(r.id) == failing then [r.id] else []) + Ids(records, faults, failing)
  {
    var all := [r] + records;
    if records == [] {
      assert all == [r] && [r][..0] == [];
    } else {
      var n := |records| - 1;
      assert all[..|all| - 1] == [r] + records[..n];
      IdsCons(r, records[..n], faults, failing);
    }
  }

  // The rows whose failure is recorded, each once, and then those marked published.
  function Touched(rows: seq<Row>, bad: seq<nat>, good: seq<nat>): (r: seq<Row>)
    ensures |r| == |rows|
  {
    seq(|rows|, i requires 0 <= i < |rows| => TouchedRow(rows[i], bad, good))
  }

  function TouchedRow(r: Row, bad: seq<nat>, good: seq<nat>): Row {
    var s := if r.id in bad then r.(attempts := r.attempts + 1) else r;
    if r.id in good then s.(published := true) else s
  }

  lemma {:induction false} IdsAbove(rows: seq<Row>, slots: nat, faults: Faults, failing: bool, base: nat, id: nat)
    requires Numbered(rows, base) && id in Ids(Batch(rows, slots), faults, failing)
    ensures id > base && (faults(id) <==> failing)
    decreases |rows|
  {
    if rows != [] && slots > 0 {
      if rows[0].published {
        IdsAbove(rows[1..], slots, faults, failing, base + 1, id);
      } else {
        IdsCons(rows[0], Batch(rows[1..], slots - 1), faults, failing);
        if !(faults(rows[0].id) == failing && id == rows[0].id) {
          IdsAbove(rows[1..], slots - 1, faults, failing, base + 1, id);
        }
      }
    }
  }

  lemma {:induction false} PassIsTouched(rows: seq<Row>, slots: nat, faults: Faults, base: nat)
    requires Numbered(rows, base)
    ensures Passed(rows, slots, faults)
         == Touched(rows, Ids(Batch(rows, slots), faults, true), Ids(Batch(rows, slots), faults, false))
    decreases |rows|
  {
    if rows == [] || slots == 0 {
      assert Touched(rows, [], []) == rows;
    } else {
      var r, rest := rows[0], rows[1..];
      var s := if r.published then slots else slots - 1;
      PassIsTouched(rest, s, faults, base + 1);
      var bad, good := Ids(Batch(rest, s), faults, true), Ids(Batch(rest, s), faults, false);
      assert r.id !in bad && r.id !in good by {
        if r.id in bad { IdsAbove(rest, s, faults, true, base + 1, r.id); }
        if r.id in good { IdsAbove(rest, s, faults, false, base + 1, r.id); }
      }
      if !r.published {
        IdsCons(r, Batch(rest, s), faults, true);
        IdsCons(r, Batch(rest, s), faults, false);
        TouchedBelow(rest, base + 1, r.id, bad, good);
      }
      var allBad, allGood := Ids(Batch(rows, slots), faults, true), Ids(Batch(rows, slots), faults, false);
      TouchedCons(r, rest, allBad, allGood);
      assert [r] + rest == rows;
    }
  }

  lemma TouchedCons(r: Row, rest: seq<Row>, bad: seq<nat>, good: seq<nat>)
    ensures Touched([r] + rest, bad, good) == [TouchedRow(r, bad, good)] + Touched(rest, bad, good)
  {
  }

  // An id that belongs to none of the rows does not matter.
  lemma TouchedBelow(rows: seq<Row>, base: nat, id: nat, bad: seq<nat>, good: seq<nat>)
    requires Numbered(rows, base) && id <= base
    ensures Touched(rows, [id] + bad, good) == Touched(rows, bad, good)
    ensures Touched(rows, bad, [id] + good) == Touched(rows, bad, good)
    ensures [] + bad == bad && [] + good == good
  {
  }

  lemma FailOneMore(rows: seq<Row>, bad: seq<nat>, id: nat)
    requires id !in bad
    ensures FailedRows(Touched(rows, bad, []), id) == Touched(rows, bad + [id], [])
  {
  }

  lemma PublishTouched(rows: seq<Row>, bad: seq<nat>, good: seq<nat>)
    ensures PublishedRows(Touched(rows, bad, []), good) == Touched(rows, bad, good)
  {
  }

  // No record of a batch comes twice.
  lemma {:induction false} BatchIsDistinct(rows: seq<Row>, slots: nat, base: nat, i: nat)
    requires Numbered(rows, base) && i < |Batch(rows, slots)|
    ensures Batch(rows, slots)[i].id > base
    ensures forall j :: 0 <= j < i ==> Batch(rows, slots)[j].id < Batch(rows, slots)[i].id
    decreases |rows|
  {
    if rows[0].published {
      BatchIsDistinct(rows[1..], slots, base + 1, i);
    } else if i > 0 {
      BatchIsDistinct(rows[1..], slots - 1, base + 1, i - 1);
    }
  }

  lemma {:induction false} IdsAmong(records: seq<Row>, faults: Faults, failing: bool, id: nat)
    requires id in Ids(records, faults, failing)
    ensures exists j :: 0 <= j < |records| && records[j].id == id
  {
    var n := |records| - 1;
    if !(faults(records[n].id) == failing && id == records[n].id) {
      IdsAmong(records[..n], faults, failing, id);
      var j :| 0 <= j < |records[..n]| && records[..n][j].id == id;
      assert records[j].id == id;
    }
  }

  lemma {:induction false} SentOneMore(records: seq<Row>, k: nat, faults: Faults)
    requires k < |records|
    ensures Sent(records[..k + 1], faults) ==
      Sent(records[..k], faults) + (if faults(records[k].id) then [] else [(records[k].queue, records[k].body)])
    ensures Failures(records[..k + 1], faults) ==
      Failures(records[..k], faults) + (if faults(records[k].id) then 1 else 0)
    decreases k
  {
    if k > 0 {
      assert records[..k + 1][1..] == records[1..][..k] && records[..k][1..] == records[1..][..k - 1];
      SentOneMore(records[1..], k - 1, faults);
    }
  }

  lemma NotYetFailed(rows: seq<Row>, slots: nat, k: nat, faults: Faults)
    requires Numbered(rows, 0) && k < |Batch(rows, slots)|
    ensures Batch(rows, slots)[k].id !in Ids(Batch(rows, slots)[..k], faults, true)
  {
    var records := Batch(rows, slots);
    if records[k].id in Ids(records[..k], faults, true) {
      IdsAmong(records[..k], faults, true, records[k].id);
      BatchIsDistinct(rows, slots, 0, k);
    }
  }

  lemma IdsOneMore(records: seq<Row>, k: nat, faults: Faults, failing: bool)
    requires k < |records|
    ensures Ids(records[..k + 1], faults, failing) ==
      Ids(records[..k], faults, failing) + (if faults(records[k].id) == failing then [records[k].id] else [])
  {
    assert records[..k + 1][..k] == records[..k];
  }

  /** The relay with its transport, of which only what it accepted is kept. */
  class OutboxRelay {
    const store: InMemoryOutboxStore
    const batchSize: int
    const faults: Faults
    var sent: seq<(string, string)>

    constructor (store: InMemoryOutboxStore, batchSize: int, faults: Faults)
      ensures this.store == store && this.batchSize == batchSize && this.faults == faults && sent == []
    {
      this.store, this.batchSize, this.faults, sent := store, batchSize, faults, [];
    }

    // One turn of the loop of `flush`.
    method PublishOne(record: Row) returns (ok: bool)
      requires store.Valid()
      modifies this, store`rows
      ensures store.Valid() && ok == !faults(record.id)
      ensures sent == old(sent) + if ok then [(record.queue, record.body)] else []
      ensures store.rows == if ok then old(store.rows) else FailedRows(old(store.rows), record.id)
    {
      ok := !faults(record.id);
      if ok {
        sent := sent + [(record.queue, record.body)];
      } else {
        store.MarkFailed(record.id);
      }
    }

    // The loop of `flush` over the records of the batch.
    method PublishEach(records: seq<Row>) returns (ids: seq<nat>, failed: nat)
      requires store.Valid() && records == Batch(store.rows, Slots(batchSize))
      modifies this, store`rows
      ensures store.Valid()
      ensures store.rows == Touched(old(store.rows), Ids(records, faults, true), [])
      ensures ids == Ids(records, faults, false) && failed == Failures(records, faults)
      ensures sent == old(sent) + Sent(records, faults)
    {
      ids, failed := [], 0;
      ghost var rows := store.rows;
      assert records[..0] == [] && Touched(rows, [], []) == rows;
      for k := 0 to |records|
        invariant store.Valid() && store.rows == Touched(rows, Ids(records[..k], faults, true), [])
        invariant ids == Ids(records[..k], faults, false) && failed == Failures(records[..k], faults)
        invariant sent == old(sent) + Sent(records[..k], faults)
      {
        var record := records[k];
        SentOneMore(records, k, faults);
        IdsOneMore(records, k, faults, true);
        IdsOneMore(records, k, faults, false);
        NotYetFailed(rows, Slots(batchSize), k, faults);
        FailOneMore(rows, Ids(records[..k], faults, true), record.id);
        Joined(old(sent), Sent(records[..k], faults), if faults(record.id) then [] else [(record.queue, record.body)]);
        var ok := PublishOne(record);
        if ok { ids := ids + [record.id]; } else { failed := failed + 1; }
      }
      assert records[..|records|] == records;
    }

    /** `flush` */
    method Flush() returns (tally: Tally)
      requires store.Valid()
      modifies this, store`rows
      ensures store.Valid() && store.rows == Passed(old(store.rows), Slots(batchSize), faults)
      ensures var batch := Batch(old(store.rows), Slots(batchSize));
        sent == old(sent) + Sent(batch, faults) && tally == Tally(|Sent(batch, faults)|, Failures(batch, faults))
    {
      ghost var rows := store.rows;
      var records := store.FetchUnpublished(batchSize);
      var ids, failed := PublishEach(records);
      PublishTouched(rows, Ids(records, faults, true), ids);
      PassIsTouched(rows, Slots(batchSize), faults, 0);
      IdsCount(records, faults);
      if ids != [] {
        store.MarkPublished(ids);
      }
      tally := Tally(|ids|, failed);
    }

    /** `drain`; without a ceiling of its own it makes at most ten thousand passes. */
    method Drain(maxPasses: int) returns (tally: Tally, passes: nat)
      requires store.Valid()
      modifies this, store`rows
      ensures store.Valid()
      ensures var ceiling := Ceiling(maxPasses);
        && (store.rows, passes) == Drained(old(store.rows), Slots(batchSize), faults, ceiling)
        && sent == old(sent) + DrainSent(old(store.rows), Slots(batchSize), faults, ceiling)
        && tally == Tally(|DrainSent(old(store.rows), Slots(batchSize), faults, ceiling)|,
                          DrainFailures(old(store.rows), Slots(batchSize), faults, ceiling))
      ensures var reach := Reach(old(store.rows), if batchSize < 1 then 1 else batchSize, faults);
        && passes <= (if maxPasses > 0 then maxPasses else 10000)
        && (|reach| <= (if maxPasses > 0 then maxPasses else 10000) ==> sent == old(sent) + reach)
    {
      SendsAll(store.rows, Slots(batchSize), faults, Ceiling(maxPasses));
      var ceiling := Ceiling(maxPasses);
      var published: nat, failed: nat := 0, 0;
      ghost var first, before, s := store.rows, sent, Slots(batchSize);
      passes := 0;
      while passes < ceiling
        invariant store.Valid() && passes <= ceiling
        invariant |sent| == |before| + published
        invariant Onward(store.rows, s, faults, ceiling - passes, sent, failed, passes)
               == Onward(first, s, faults, ceiling, before, 0, 0)
      {
        var result := Flush();
        published, failed := published + result.published, failed + result.failed;
        passes := passes + 1;
        if result.published == 0 {
          break;
        }
      }
      OnwardIs(first, s, faults, ceiling, before, 0, 0);
      tally := Tally(published, failed);
    }
  }

  // A drain that has come to `rows`, has sent `done` and counted `failed` in `passes`, carried
  // through the passes that are left.
  ghost function Onward(rows: seq<Row>, slots: nat, faults: Faults, left: nat, done: seq<(string, string)>,
                        failed: nat, passes: nat): (seq<Row>, seq<(string, string)>, nat, nat)
    decreases left
  {
    if left == 0 then (rows, done, failed, passes)
    else
      var after, now := Passed(rows, slots, faults), Sent(Batch(rows, slots), faults);
      var tried := failed + Failures(Batch(rows, slots), faults);
      if now == [] then (after, done + now, tried, passes + 1)
      else Onward(after, slots, faults, left - 1, done + now, tried, passes + 1)
  }

  lemma {:induction false} OnwardIs(rows: seq<Row>, slots: nat, faults: Faults, left: nat,
                                    done: seq<(string, string)>, failed: nat, passes: nat)
    ensures var drained := Drained(rows, slots, faults, left);
      Onward(rows, slots, faults, left, done, failed, passes)
      == (drained.0, done + DrainSent(rows, slots, faults, left),
          failed + DrainFailures(rows, slots, faults, left), passes + drained.1)
    decreases left
  {
    assert done + [] == done;
    if left > 0 {
      var after, now := Passed(rows, slots, faults), Sent(Batch(rows, slots), faults);
      var tried := failed + Failures(Batch(rows, slots), faults);
      if now != [] {
        OnwardIs(after, slots, faults, left - 1, done + now, tried, passes + 1);
        Joined(done, now, DrainSent(after, slots, faults, left - 1));
      }
    }
  }

  function Ceiling(maxPasses: int): nat {
    if maxPasses > 0 then maxPasses else 10000
  }

  lemma {:induction false} IdsCount(records: seq<Row>, faults: Faults)
    ensures |Ids(records, faults, false)| == |Sent(records, faults)|
  {
    if records != [] {
      var n := |records| - 1;
      IdsCount(records[..n], faults);
      SentOneMore(records, n, faults);
      assert records[..n + 1] == records;
    }
  }
}
