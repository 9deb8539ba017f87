/**
  The redrive of a dead-letter queue: messages are drained first and then copied and
  acknowledged one by one, each to its target or back to the dead-letter queue.
*/
module Redrive {
  import opened Helpers
  import S = Settlement
  import L = SettlementLaws

  datatype Block = Block(reason: string, source: string)

  // A record as the redrive reads it: its envelope when it decodes into one with a string `job`,
  // and its dead_letter block. `bytes` stands for the body itself.
  datatype Record = Record(envelope: Option<S.Envelope>, block: Option<Block>, bypass: bool, bytes: int)

  // `tag` tells deliveries apart; `flagged` when the transport marked the body as poison.
  datatype Item = Item(tag: nat, record: Record, flagged: bool)

  datatype Options = Options(dlq: string, toQueue: string, dryRun: bool, select: S.Envelope -> bool, bypass: bool)

  // How a call ends; a write that raised may have landed, an acknowledgement too.
  datatype Reply = Done | Lost | Landed

  type Oracle = nat -> Reply

  type Queues = map<string, seq<Item>>

  // `held` are the deliveries popped and not acknowledged; `calls` counts the calls made.
  datatype State = State(queues: Queues, held: set<nat>, calls: nat)

  datatype End = Redriven | Skipped | Raised

  // ---- One message ---------------------------------------------------------------------------

  // `_source_queue_of`
  function SourceOf(r: Record): string
    requires r.envelope.Some?
  {
    if r.block.Some? && r.block.value.source != "" then r.block.value.source
    else if r.envelope.value.Envelope? then r.envelope.value.metaQueue
    else ""
  }

  function TargetOf(opts: Options, r: Record): string
    requires r.envelope.Some?
  {
    if opts.toQueue != "" then opts.toQueue else SourceOf(r)
  }

  // Decodable, not flagged, selected, and the run is not dry.
  predicate Replays(opts: Options, item: Item) {
    !item.flagged && item.record.envelope.Some? && opts.select(item.record.envelope.value) && !opts.dryRun
  }

  // The body that is replayed: the block is gone, attempts are 0 and the rest is as it was.
  function Reset(opts: Options, item: Item): Item
    requires item.record.envelope.Some?
  {
    Item(item.tag, Record(Some(S.WithAttempts(item.record.envelope.value, 0)), None, opts.bypass, item.record.bytes),
         false)
  }

  function Destination(opts: Options, item: Item): string {
    if Replays(opts, item) then TargetOf(opts, item.record) else opts.dlq
  }

  function CopyOf(opts: Options, item: Item): Item {
    if Replays(opts, item) then Reset(opts, item) else item
  }

  function Write(s: State, q: string, copy: Item, reply: Reply): State {
    s.(queues := if reply.Lost? then s.queues else s.queues[q := ListOf(s.queues, q) + [copy]], calls := s.calls + 1)
  }

  function Ack(s: State, tag: nat, reply: Reply): State {
    s.(held := if reply.Lost? then s.held else s.held - {tag}, calls := s.calls + 1)
  }

  // One turn of the loop: a copy, and the acknowledgement once the copy is confirmed. A replay
  // that fails is restored to the dead-letter queue before the failure surfaces.
  function Handled(opts: Options, item: Item, o: Oracle, s: State): (State, End) {
    var reply := o(s.calls);
    var written := Write(s, Destination(opts, item), CopyOf(opts, item), reply);
    if reply.Done? then
      var acked := Ack(written, item.tag, o(written.calls));
      (acked, if !o(written.calls).Done? then Raised else if Replays(opts, item) then Redriven else Skipped)
    else if !Replays(opts, item) then (written, Raised)
    else
      var restored := Write(written, opts.dlq, item, o(written.calls));
      if !o(written.calls).Done? then (restored, Raised)
      else (Ack(restored, item.tag, o(restored.calls)), Raised)
  }

  // ---- The loop -------------------------------------------------------------------------------

  // The state after the messages from the i-th on, and how many were finished before one raised.
  function Process(opts: Options, batch: seq<Item>, i: nat, o: Oracle, s: State): (State, nat)
    requires i <= |batch|
    decreases |batch| - i
  {
    if i == |batch| then (s, i)
    else
      var (t, end) := Handled(opts, batch[i], o, s);
      if end.Raised? then (t, i) else Process(opts, batch, i + 1, o, t)
  }

  lemma ProcessStep(opts: Options, batch: seq<Item>, i: nat, o: Oracle, s: State, t: State, end: End)
    requires i < |batch| && Handled(opts, batch[i], o, s) == (t, end)
    ensures Process(opts, batch, i, o, s) == if end.Raised? then (t, i) else Process(opts, batch, i + 1, o, t)
    ensures Process(opts, batch, |batch|, o, t) == (t, |batch|)
  {
  }

  lemma {:induction false} ProcessBounded(opts: Options, batch: seq<Item>, i: nat, o: Oracle, s: State)
    requires i <= |batch|
    ensures Process(opts, batch, i, o, s).1 <= |batch|
    decreases |batch| - i
  {
    if i < |batch| {
      var (t, end) := Handled(opts, batch[i], o, s);
      if !end.Raised? { ProcessBounded(opts, batch, i + 1, o, t); }
    }
  }

  // The copies of a batch for one queue, in order.
  function Copies(opts: Options, batch: seq<Item>, q: string): seq<Item> {
    if batch == [] then []
    else
      var last := batch[|batch| - 1];
      Copies(opts, batch[..|batch| - 1], q) + (if Destination(opts, last) == q then [CopyOf(opts, last)] else [])
  }

  function TagsOf(batch: seq<Item>): set<nat> {
    set item | item in batch :: item.tag
  }

  ghost predicate DistinctTags(batch: seq<Item>) {
    forall i, j :: 0 <= i < j < |batch| ==> batch[i].tag != batch[j].tag
  }

  // The state in which exactly the first n messages of the batch are finished: each queue has
  // their copies at its end, and they are acknowledged.
  ghost predicate FinishedUpTo(opts: Options, batch: seq<Item>, n: nat, s: State, t: State)
    requires n <= |batch|
  {
    && (forall q :: ListOf(t.queues, q) == ListOf(s.queues, q) + Copies(opts, batch[..n], q))
    && t.held == s.held - TagsOf(batch[..n])
  }

  // A turn that does not raise appends one copy to one queue and acknowledges the delivery.
  lemma HandledCopies(opts: Options, item: Item, o: Oracle, t: State, q: string)
    requires !Handled(opts, item, o, t).1.Raised?
    ensures var u := Handled(opts, item, o, t).0;
      && ListOf(u.queues, q) ==
         ListOf(t.queues, q) + (if Destination(opts, item) == q then [CopyOf(opts, item)] else [])
      && u.held == t.held - {item.tag}
  {
  }

  lemma CopiesGrow(opts: Options, batch: seq<Item>, n: nat, q: string)
    requires n < |batch|
    ensures Copies(opts, batch[..n + 1], q) ==
      Copies(opts, batch[..n], q) + (if Destination(opts, batch[n]) == q then [CopyOf(opts, batch[n])] else [])
    ensures TagsOf(batch[..n + 1]) == TagsOf(batch[..n]) + {batch[n].tag}
  {
    assert batch[..n + 1][..n] == batch[..n];
    assert batch[..n + 1] == batch[..n] + [batch[n]];
  }

  // The queue and the deliveries of u are those of t with the copy of one more message.
  lemma CopyAppended(opts: Options, batch: seq<Item>, n: nat, s: State, t: State, u: State, q: string)
    requires n < |batch| && ListOf(t.queues, q) == ListOf(s.queues, q) + Copies(opts, batch[..n], q)
    requires ListOf(u.queues, q) ==
      ListOf(t.queues, q) + (if Destination(opts, batch[n]) == q then [CopyOf(opts, batch[n])] else [])
    ensures ListOf(u.queues, q) == ListOf(s.queues, q) + Copies(opts, batch[..n + 1], q)
  {
    CopiesGrow(opts, batch, n, q);
    Joined(ListOf(s.queues, q), Copies(opts, batch[..n], q),
           if Destination(opts, batch[n]) == q then [CopyOf(opts, batch[n])] else []);
  }

  lemma FinishOneMore(opts: Options, batch: seq<Item>, n: nat, o: Oracle, s: State, t: State)
    requires n < |batch| && FinishedUpTo(opts, batch, n, s, t)
    requires !Handled(opts, batch[n], o, t).1.Raised?
    ensures FinishedUpTo(opts, batch, n + 1, s, Handled(opts, batch[n], o, t).0)
  {
    var u := Handled(opts, batch[n], o, t).0;
    forall q ensures ListOf(u.queues, q) == ListOf(s.queues, q) + Copies(opts, batch[..n + 1], q) {
      HandledCopies(opts, batch[n], o, t, q);
      CopyAppended(opts, batch, n, s, t, u, q);
    }
    HandledCopies(opts, batch[n], o, t, "");
    CopiesGrow(opts, batch, n, "");
  }

  // The run is the first n messages finished and then, unless all are, one turn that raised.
  lemma {:induction false} ProcessShape(opts: Options, batch: seq<Item>, i: nat, o: Oracle, s: State, t: State)
    returns (last: State)
    requires i <= |batch| && FinishedUpTo(opts, batch, i, s, t)
    ensures var (u, n) := Process(opts, batch, i, o, t);
      && i <= n <= |batch| && FinishedUpTo(opts, batch, n, s, last)
      && (if n == |batch| then u == last else Handled(opts, batch[n], o, last) == (u, Raised))
    decreases |batch| - i
  {
    if i == |batch| {
      last := t;
    } else {
      var (v, end) := Handled(opts, batch[i], o, t);
      if end.Raised? {
        last := t;
      } else {
        FinishOneMore(opts, batch, i, o, s, t);
        last := ProcessShape(opts, batch, i + 1, o, s, v);
      }
    }
  }

  // On a normal return every message was copied once, to its target or back, in order, and
  // acknowledged; nothing else changed.
  lemma NormalReturn(opts: Options, batch: seq<Item>, o: Oracle, s: State)
    requires Process(opts, batch, 0, o, s).1 == |batch|
    ensures FinishedUpTo(opts, batch, |batch|, s, Process(opts, batch, 0, o, s).0)
  {
    assert Copies(opts, batch[..0], "") == [] && TagsOf(batch[..0]) == {};
    var last := ProcessShape(opts, batch, 0, o, s, s);
  }

  // ---- Nothing is lost -------------------------------------------------------------------------

  ghost predicate Queued(queues: Queues, tag: nat) {
    exists q, i :: q in queues && 0 <= i < |queues[q]| && queues[q][i].tag == tag
  }

  // The delivery is not acknowledged, or a copy of the message is in some queue.
  ghost predicate Kept(s: State, tag: nat) {
    tag in s.held || Queued(s.queues, tag)
  }

  lemma WriteQueues(s: State, q: string, copy: Item, reply: Reply, tag: nat)
    ensures Queued(s.queues, tag) ==> Queued(Write(s, q, copy, reply).queues, tag)
    ensures !reply.Lost? ==> Queued(Write(s, q, copy, reply).queues, copy.tag)
  {
    var t := Write(s, q, copy, reply);
    if !reply.Lost? {
      assert t.queues[q][|ListOf(s.queues, q)|].tag == copy.tag;
    }
    if Queued(s.queues, tag) {
      var p, i :| p in s.queues && 0 <= i < |s.queues[p]| && s.queues[p][i].tag == tag;
      assert t.queues[p][i].tag == tag;
    }
  }

  lemma HandledKeeps(opts: Options, item: Item, o: Oracle, s: State, tag: nat)
    requires Kept(s, tag) && Kept(s, item.tag)
    ensures Kept(Handled(opts, item, o, s).0, tag)
    ensures forall h :: h in s.held && h != item.tag ==> h in Handled(opts, item, o, s).0.held
  {
    var reply := o(s.calls);
    var written := Write(s, Destination(opts, item), CopyOf(opts, item), reply);
    WriteQueues(s, Destination(opts, item), CopyOf(opts, item), reply, tag);
    WriteQueues(s, Destination(opts, item), CopyOf(opts, item), reply, item.tag);
    WriteQueues(written, opts.dlq, item, o(written.calls), tag);
    WriteQueues(written, opts.dlq, item, o(written.calls), item.tag);
  }

  // However the calls end, every message of the batch is still un-acknowledged or has a copy.
  lemma {:induction false} RunKeeps(opts: Options, batch: seq<Item>, i: nat, o: Oracle, s: State, k: nat)
    requires i <= |batch| && k < |batch| && forall j :: 0 <= j < |batch| ==> Kept(s, batch[j].tag)
    ensures Kept(Process(opts, batch, i, o, s).0, batch[k].tag)
    decreases |batch| - i
  {
    if i < |batch| {
      var (t, end) := Handled(opts, batch[i], o, s);
      forall j | 0 <= j < |batch| ensures Kept(t, batch[j].tag) { HandledKeeps(opts, batch[i], o, s, batch[j].tag); }
      if !end.Raised? { RunKeeps(opts, batch, i + 1, o, t, k); }
    }
  }

  lemma TagsAreApart(batch: seq<Item>, n: nat, k: nat)
    requires DistinctTags(batch) && n <= k < |batch|
    ensures batch[k].tag !in TagsOf(batch[..n])
  {
  }

  // When a call raises at the n-th message: those before it are copied and acknowledged, those
  // after it are untouched and un-acknowledged, and it is one or the other itself.
  lemma OnRaise(opts: Options, batch: seq<Item>, o: Oracle, s: State) returns (last: State)
    requires DistinctTags(batch) && TagsOf(batch) <= s.held
    requires Process(opts, batch, 0, o, s).1 < |batch|
    ensures var (u, n) := Process(opts, batch, 0, o, s);
      && FinishedUpTo(opts, batch, n, s, last) && Handled(opts, batch[n], o, last) == (u, Raised)
      && Kept(u, batch[n].tag)
      && forall k :: n < k < |batch| ==> batch[k].tag in u.held
  {
    assert Copies(opts, batch[..0], "") == [] && TagsOf(batch[..0]) == {};
    last := ProcessShape(opts, batch, 0, o, s, s);
    var (u, n) := Process(opts, batch, 0, o, s);
    forall k | n <= k < |batch| ensures batch[k].tag in last.held {
      TagsAreApart(batch, n, k);
      assert batch[k] in batch;
    }
    HandledKeeps(opts, batch[n], o, last, batch[n].tag);
  }

  // A replay whose write fails is restored: when the calls after it succeed the message is at the
  // end of the dead-letter queue as it was, acknowledged there, and the failure still surfaces.
  lemma FailedReplayIsRestored(opts: Options, item: Item, o: Oracle, s: State)
    requires Replays(opts, item) && o(s.calls) != Done && o(s.calls + 1) == Done
    ensures var (t, end) := Handled(opts, item, o, s);
      && end == Raised && ListOf(t.queues, opts.dlq) != []
      && ListOf(t.queues, opts.dlq)[|ListOf(t.queues, opts.dlq)| - 1] == item
      && (o(s.calls + 2) == Done ==> item.tag !in t.held)
  {
  }

  // How many of the messages are replayed.
  function Replayed(opts: Options, batch: seq<Item>): nat {
    if batch == [] then 0
    else
      var n := |batch| - 1;
      Replayed(opts, batch[..n]) + (if !opts.dryRun && Redrivable(opts, batch[n]) then 1 else 0)
  }

  lemma OneMoreReplayed(opts: Options, batch: seq<Item>, n: nat)
    requires n < |batch|
    ensures Replayed(opts, batch[..n + 1]) ==
      Replayed(opts, batch[..n]) + (if !opts.dryRun && Redrivable(opts, batch[n]) then 1 else 0)
  {
    assert batch[..n + 1][..n] == batch[..n];
  }

  // ---- Where a message goes -------------------------------------------------------------------

  predicate Redrivable(opts: Options, item: Item) {
    !item.flagged && item.record.envelope.Some? && opts.select(item.record.envelope.value)
  }

  // A message goes back to the dead-letter queue as it is when the run is dry or it is poison or not
  // selected. Any other goes to the queue the run names, or else to the one it came from, its
  // attempts 0 and its block gone.
  lemma GoesWhere(opts: Options, item: Item)
    ensures opts.dryRun || !Redrivable(opts, item) ==> Destination(opts, item) == opts.dlq && CopyOf(opts, item) == item
    ensures !opts.dryRun && Redrivable(opts, item) ==>
      var env, copy := item.record.envelope.value, CopyOf(opts, item);
      && (opts.toQueue != "" ==> Destination(opts, item) == opts.toQueue)
      && (opts.toQueue == "" && item.record.block.Some? && item.record.block.value.source != "" ==>
          Destination(opts, item) == item.record.block.value.source)
      && (opts.toQueue == "" && env.Envelope? && (item.record.block == None || item.record.block.value.source == "") ==>
          Destination(opts, item) == env.metaQueue)
      && copy.record.envelope == Some(S.WithAttempts(env, 0)) && copy.record.block == None
      && copy.record.bypass == opts.bypass && !copy.flagged
  {
  }

  lemma {:induction false} DryCopies(opts: Options, batch: seq<Item>, q: string)
    requires opts.dryRun || forall i :: 0 <= i < |batch| ==> !Redrivable(opts, batch[i])
    ensures Copies(opts, batch, q) == if q == opts.dlq then batch else []
  {
    if batch != [] {
      var n := |batch| - 1;
      var front, last := batch[..n], batch[n];
      DryCopies(opts, front, q);
      GoesWhere(opts, last);
      assert batch == front + [last];
      assert Copies(opts, batch, q) == Copies(opts, front, q) + (if q == opts.dlq then [last] else []);
    }
  }

  // So a dry run, or one that selects nothing, that returns normally puts every message back at the
  // end of the dead-letter queue, unchanged and in order, and changes no other queue.
  lemma DryRunRestores(opts: Options, batch: seq<Item>, o: Oracle, s: State)
    requires opts.dryRun || forall i :: 0 <= i < |batch| ==> !Redrivable(opts, batch[i])
    requires Process(opts, batch, 0, o, s).1 == |batch|
    ensures var t := Process(opts, batch, 0, o, s).0;
      && ListOf(t.queues, opts.dlq) == ListOf(s.queues, opts.dlq) + batch
      && forall q :: q != opts.dlq ==> ListOf(t.queues, q) == ListOf(s.queues, q)
  {
    NormalReturn(opts, batch, o, s);
    assert batch[..|batch|] == batch;
    forall q ensures Copies(opts, batch, q) == if q == opts.dlq then batch else [] { DryCopies(opts, batch, q); }
    forall q ensures ListOf(s.queues, q) + [] == ListOf(s.queues, q) { }
  }

  // ---- A dead-lettered message comes back ---------------------------------------------------------

  // The dead-letter record the i-th call of a dispatch confirmed.
  predicate Annotates(e: S.Effect, p: S.Payload) {
    && p.Annotated?
    && match e
       case Wrote(purpose, _, payload, ok) => purpose.Grave? && payload == p && ok
       case DeadLettered(_, payload, reply) => payload == p && reply.Done?
       case _ => false
  }

  // An envelope whose `job` is a string. One with an identity has it there; of one without, only
  // `blank` tells whether `job` is a blank string.
  predicate HasJob(e: S.Envelope, blank: bool) {
    e.Envelope? && (e.urn != "" || blank)
  }

  // That record as the redrive reads it.
  function RecordOf(p: S.Payload, blank: bool, bytes: int): Record
    requires p.Annotated?
  {
    Record(if HasJob(p.env, blank) then Some(p.env) else None, Some(Block(p.reason, p.source)), false, bytes)
  }

  // A message with a string `job` goes to the queue it came from, as it was delivered but with
  // attempts 0 and no block; the record of one without goes back to the dead-letter queue as it is.
  predicate Returns(opts: Options, was: S.Envelope, blank: bool, queue: string, item: Item) {
    if HasJob(was, blank) then
      && Replays(opts, item) && Destination(opts, item) == S.SourceOf(was, queue)
      && CopyOf(opts, item).record.block == None
      && CopyOf(opts, item).record.envelope == Some(S.WithAttempts(was, 0))
    else !Replays(opts, item) && Destination(opts, item) == opts.dlq && CopyOf(opts, item) == item
  }

  // Whatever dispatch dead-lettered a message and why, the redrive of its record does that.
  lemma DeadLetterThenRedrive(opts: Options, cfg: S.Config, caps: S.Capabilities, m: S.Delivery, h: S.HandlerResult,
                              o: S.Oracle, n: nat, i: nat, p: S.Payload, blank: bool, tag: nat, bytes: int)
    requires i < |S.DispatchOutcome(cfg, caps, m, h, o, n).trace|
    requires Annotates(S.DispatchOutcome(cfg, caps, m, h, o, n).trace[i], p)
    requires opts.toQueue == "" && !opts.dryRun && (HasJob(p.env, blank) ==> opts.select(p.env))
    ensures Returns(opts, S.Lenient(m.body), blank, m.queue, Item(tag, RecordOf(p, blank, bytes), false))
  {
    L.DispatchCarries(cfg, caps, m, h, o, n);
    assert L.Carries(caps, m, p);
    ReplayOf(opts, m, p, blank, tag, bytes);
  }

  lemma ReplayOf(opts: Options, m: S.Delivery, p: S.Payload, empty: bool, tag: nat, bytes: int)
    requires p.Annotated? && L.SameEnvelope(m, p.env) && p.source == S.SourceOf(S.Lenient(m.body), m.queue)
    requires opts.toQueue == "" && !opts.dryRun && (HasJob(p.env, empty) ==> opts.select(p.env))
    ensures Returns(opts, S.Lenient(m.body), empty, m.queue, Item(tag, RecordOf(p, empty, bytes), false))
  {
  }

  // The state once the first n messages of the dead-letter queue are popped.
  function AfterDrain(s: State, dlq: string, n: nat): State
    requires n <= |ListOf(s.queues, dlq)|
  {
    if n == 0 then s
    else s.(queues := s.queues[dlq := ListOf(s.queues, dlq)[n..]], held := s.held + TagsOf(ListOf(s.queues, dlq)[..n]))
  }

  lemma DrainOneMore(t: State, s: State, dlq: string, n: nat)
    requires n <= |ListOf(s.queues, dlq)| && t == AfterDrain(s, dlq, n)
    ensures ListOf(t.queues, dlq) == ListOf(s.queues, dlq)[n..]
    ensures n < |ListOf(s.queues, dlq)| ==>
      ListOf(s.queues, dlq)[..n + 1] == ListOf(s.queues, dlq)[..n] + [ListOf(t.queues, dlq)[0]]
    ensures n < |ListOf(s.queues, dlq)| ==>
      (t.(queues := t.queues[dlq := ListOf(t.queues, dlq)[1..]], held := t.held + {ListOf(t.queues, dlq)[0].tag})
       == AfterDrain(s, dlq, n + 1))
  {
    var all := ListOf(s.queues, dlq);
    if n < |all| {
      assert all[..n + 1] == all[..n] + [all[n]] && all[n..][1..] == all[n + 1..];
      assert TagsOf(all[..n + 1]) == TagsOf(all[..n]) + {all[n].tag};
      assert TagsOf(all[..0]) == {};
      assert t.queues[dlq := all[n + 1..]] == s.queues[dlq := all[n + 1..]];
    }
  }

  // ---- The run as it is written ----------------------------------------------------------------------

  class Redriver {
    const oracle: Oracle
    var queues: Queues
    var held: set<nat>
    var calls: nat

    function Snapshot(): State
      reads this
    {
      State(queues, held, calls)
    }

    constructor (queues: Queues, oracle: Oracle)
      ensures Snapshot() == State(queues, {}, 0) && this.oracle == oracle
    {
      this.queues, this.oracle, held, calls := queues, oracle, {}, 0;
    }

    method Pop(q: string) returns (item: Option<Item>)
      modifies this`queues, this`held
      ensures item.None? ==> Snapshot() == old(Snapshot()) && ListOf(queues, q) == []
      ensures item.Some? ==>
        (ListOf(old(queues), q) != [] && item.value == ListOf(old(queues), q)[0]
         && queues == old(queues)[q := ListOf(old(queues), q)[1..]] && held == old(held) + {item.value.tag})
    {
      if ListOf(queues, q) == [] { return None; }
      item := Some(queues[q][0]);
      held := held + {queues[q][0].tag};
      queues := queues[q := queues[q][1..]];
    }

    method Publish(q: string, copy: Item) returns (reply: Reply)
      modifies this`queues, this`calls
      ensures reply == oracle(old(calls)) && Snapshot() == Write(old(Snapshot()), q, copy, reply)
    {
      reply := oracle(calls);
      if !reply.Lost? { queues := queues[q := ListOf(queues, q) + [copy]]; }
      calls := calls + 1;
    }

    method AckMessage(tag: nat) returns (reply: Reply)
      modifies this`held, this`calls
      ensures reply == oracle(old(calls)) && Snapshot() == Ack(old(Snapshot()), tag, reply)
    {
      reply := oracle(calls);
      if !reply.Lost? { held := held - {tag}; }
      calls := calls + 1;
    }

    /** The drain: up to `max` messages, or all of them when it is 0, before any is processed. */
    method Drain(dlq: string, max: nat) returns (popped: seq<Item>)
      modifies this`queues, this`held
      ensures var all := ListOf(old(queues), dlq);
        |popped| == (if max == 0 || max > |all| then |all| else max) && popped == all[..|popped|]
      ensures Snapshot() == AfterDrain(old(Snapshot()), dlq, |popped|)
    {
      popped := [];
      while max == 0 || |popped| < max
        invariant max == 0 || |popped| <= max
        invariant |popped| <= |ListOf(old(queues), dlq)| && popped == ListOf(old(queues), dlq)[..|popped|]
        invariant Snapshot() == AfterDrain(old(Snapshot()), dlq, |popped|)
        decreases |ListOf(queues, dlq)|
      {
        DrainOneMore(Snapshot(), old(Snapshot()), dlq, |popped|);
        var item := Pop(dlq);
        if item.None? { break; }
        popped := popped + [item.value];
      }
    }

    /** One turn of the loop over the batch. */
    method HandleOne(opts: Options, item: Item) returns (end: End)
      modifies this`queues, this`held, this`calls
      ensures (Snapshot(), end) == Handled(opts, item, oracle, old(Snapshot()))
    {
      if !Replays(opts, item) {
        var written := Publish(opts.dlq, item);
        if !written.Done? { return Raised; }
        var acked := AckMessage(item.tag);
        return if acked.Done? then Skipped else Raised;
      }
      var sent := Publish(TargetOf(opts, item.record), Reset(opts, item));
      if !sent.Done? {
        var restored := Publish(opts.dlq, item);
        if restored.Done? {
          var settled := AckMessage(item.tag);
        }
        return Raised;
      }
      var done := AckMessage(item.tag);
      return if done.Done? then Redriven else Raised;
    }

    /** The loop over the drained batch, up to the first message that raises. */
    method ProcessBatch(opts: Options, batch: seq<Item>) returns (redriven: nat, skipped: nat)
      modifies this`queues, this`held, this`calls
      ensures (Snapshot(), redriven + skipped) == Process(opts, batch, 0, oracle, old(Snapshot()))
      ensures redriven + skipped <= |batch| && redriven == Replayed(opts, batch[..redriven + skipped])
    {
      redriven, skipped := 0, 0;
      for i := 0 to |batch|
        invariant redriven + skipped == i && redriven == Replayed(opts, batch[..i])
        invariant Process(opts, batch, i, oracle, Snapshot()) == Process(opts, batch, 0, oracle, old(Snapshot()))
      {
        ghost var s := Snapshot();
        var end := HandleOne(opts, batch[i]);
        ProcessStep(opts, batch, i, oracle, s, Snapshot(), end);
        OneMoreReplayed(opts, batch, i);
        if end.Raised? { return; }
        if end.Redriven? { redriven := redriven + 1; } else { skipped := skipped + 1; }
      }
    }

    /** `redrive` */
    method Redrive(opts: Options, max: nat) returns (redriven: nat, skipped: nat, raised: bool, ghost batch: seq<Item>)
      modifies this`queues, this`held, this`calls
      ensures var all := ListOf(old(queues), opts.dlq);
        |batch| == (if max == 0 || max > |all| then |all| else max) && batch == all[..|batch|]
      ensures (Snapshot(), redriven + skipped)
           == Process(opts, batch, 0, oracle, AfterDrain(old(Snapshot()), opts.dlq, |batch|))
      ensures raised <==> redriven + skipped < |batch|
      ensures redriven + skipped <= |batch| && redriven == Replayed(opts, batch[..redriven + skipped])
    {
      var popped := Drain(opts.dlq, max);
      batch := popped;
      redriven, skipped := ProcessBatch(opts, popped);
      ProcessBounded(opts, batch, 0, oracle, AfterDrain(old(Snapshot()), opts.dlq, |batch|));
      raised := redriven + skipped < |popped|;
    }
  }
}
